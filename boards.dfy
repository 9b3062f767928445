/**
 * The notice boards the console knows: each board code with its display name
 * and category, the name lookup, the options of the board selector and the
 * list of categories.
 */
module Boards {

  /** A board's display name and category. */
  datatype BoardMeta = BoardMeta(name: string, category: string)

  /** One option of the board selector. */
  datatype BoardOption = BoardOption(code: string, name: string, category: string)

  /** The categories, in display order: the university, its colleges, departments and agencies. */
  const Categories: seq<string> := ["전북대", "단과대", "학과", "사업단"]

  /** University notices. */
  const UniversityBoards: seq<(string, BoardMeta)> := [
    ("home_campus", BoardMeta("교내공지", "전북대")),
    ("home_student", BoardMeta("학생공지", "전북대")),
    ("home_lecture", BoardMeta("특강&세미나", "전북대")),
    ("home_news", BoardMeta("JBNU News", "전북대")),
    ("home_newsplus", BoardMeta("JBNU Newsplus", "전북대")),
    ("home_policy", BoardMeta("교육정책/주요대학소식", "전북대")),
    ("home_contest", BoardMeta("공모/스터디", "전북대")),
    ("home_parttime", BoardMeta("아르바이트", "전북대")),
    ("home_housing", BoardMeta("자취/하숙", "전북대")),
    ("home_lostandfound", BoardMeta("분실/습득", "전북대")),
    ("home_poster", BoardMeta("전자대자보", "전북대"))
  ]

  /** College notices. */
  const CollegeBoards: seq<(string, BoardMeta)> := [
    ("college_nursing", BoardMeta("간호대학", "단과대")),
    ("college_cbe", BoardMeta("경상대학", "단과대")),
    ("college_eng", BoardMeta("공과대학", "단과대")),
    ("college_sies", BoardMeta("국제이공학부", "단과대")),
    ("college_agri", BoardMeta("농업생명과학대학", "단과대")),
    ("college_coe", BoardMeta("사범대학", "단과대")),
    ("college_social", BoardMeta("사회과학대학", "단과대")),
    ("college_he", BoardMeta("생활과학대학", "단과대")),
    ("college_vetmed", BoardMeta("수의과대학", "단과대")),
    ("college_pharm", BoardMeta("약학대학", "단과대")),
    ("college_arts", BoardMeta("예술대학", "단과대")),
    ("college_med", BoardMeta("의과대학", "단과대")),
    ("college_human", BoardMeta("인문대학", "단과대")),
    ("college_natural", BoardMeta("자연과학대학", "단과대")),
    ("college_dent", BoardMeta("치과대학", "단과대")),
    ("college_convergence", BoardMeta("융합자율전공학부", "단과대"))
  ]

  /** Department notices. */
  const DepartmentBoards: seq<(string, BoardMeta)> := [
    ("dept_business", BoardMeta("경영학과", "학과")),
    ("dept_economics", BoardMeta("경제학부", "학과")),
    ("dept_mechanical", BoardMeta("기계공학", "학과")),
    ("dept_mse", BoardMeta("기계시스템공학부", "학과")),
    ("dept_animalsci", BoardMeta("동물자원과학과", "학과")),
    ("dept_trade", BoardMeta("무역학과", "학과")),
    ("dept_lis", BoardMeta("문헌정보학과", "학과")),
    ("dept_physics", BoardMeta("물리학과", "학과")),
    ("dept_semi", BoardMeta("반도체과학기술학과", "학과")),
    ("dept_molbio", BoardMeta("분자생물학과", "학과")),
    ("dept_history", BoardMeta("사학과", "학과")),
    ("dept_welfare", BoardMeta("사회복지학과", "학과")),
    ("dept_sociology", BoardMeta("사회학과", "학과")),
    ("dept_biotech", BoardMeta("생명공학부", "학과")),
    ("dept_bioedu", BoardMeta("생물교육학과", "학과")),
    ("dept_bime", BoardMeta("생물산업기계공학과", "학과")),
    ("dept_bioenv", BoardMeta("생물환경화학과", "학과")),
    ("dept_foodtech", BoardMeta("식품공학과", "학과")),
    ("dept_fshn", BoardMeta("식품영양학과", "학과")),
    ("dept_child", BoardMeta("아동학과", "학과")),
    ("dept_english", BoardMeta("영어영문학과", "학과")),
    ("dept_ethedu", BoardMeta("윤리교육학과", "학과")),
    ("dept_fashion", BoardMeta("의류학과", "학과")),
    ("dept_crop", BoardMeta("작물생명과학과", "학과")),
    ("dept_electronics", BoardMeta("전자공학부", "학과")),
    ("dept_political", BoardMeta("정치외교학과", "학과")),
    ("dept_housing", BoardMeta("주거환경학과", "학과")),
    ("dept_chinese", BoardMeta("중어중문학과", "학과")),
    ("dept_earthedu", BoardMeta("지구과학교육학과", "학과")),
    ("dept_csai", BoardMeta("컴퓨터인공지능학부", "학과")),
    ("dept_statistics", BoardMeta("통계학과", "학과")),
    ("dept_french", BoardMeta("프랑스아프리카학과", "학과")),
    ("dept_admin", BoardMeta("행정학과", "학과")),
    ("dept_chemistry", BoardMeta("화학과", "학과")),
    ("dept_chemical", BoardMeta("화학공학부", "학과")),
    ("dept_chemedu", BoardMeta("화학교육학과", "학과")),
    ("dept_accounting", BoardMeta("회계학과", "학과"))
  ]

  /** Agency notices. */
  const AgencyBoards: seq<(string, BoardMeta)> := [
    ("agency_sw", BoardMeta("SW중심대학사업단", "사업단"))
  ]

  /** The board table in declaration order: code and meta. */
  const BoardEntries: seq<(string, BoardMeta)> := UniversityBoards + CollegeBoards + DepartmentBoards + AgencyBoards

  /** Every code of `group` starts with `prefix`, every name is non-empty, every category is `category`. */
  ghost predicate GroupShape(group: seq<(string, BoardMeta)>, prefix: string, category: string) {
    forall i :: 0 <= i < |group| ==>
      && |group[i].0| > |prefix| && group[i].0[..|prefix|] == prefix
      && group[i].1.name != "" && group[i].1.category == category
  }

  /** No code appears twice in `group`. */
  ghost predicate CodesUnique(group: seq<(string, BoardMeta)>) {
    forall i, j :: 0 <= i < j < |group| ==> group[i].0 != group[j].0
  }

  lemma UniversityBoardsShape()
    ensures forall i :: 0 <= i < |UniversityBoards| ==>
      && |UniversityBoards[i].0| > 5 && UniversityBoards[i].0[..5] == "home_"
      && UniversityBoards[i].1.name != "" && UniversityBoards[i].1.category == "전북대"
  {
  }

  lemma UniversityCodesUnique()
    ensures forall i, j :: 0 <= i < j < |UniversityBoards| ==> UniversityBoards[i].0 != UniversityBoards[j].0
  {
  }

  lemma CollegeBoardsShape()
    ensures forall i :: 0 <= i < |CollegeBoards| ==>
      && |CollegeBoards[i].0| > 8 && CollegeBoards[i].0[..8] == "college_"
      && CollegeBoards[i].1.name != "" && CollegeBoards[i].1.category == "단과대"
  {
  }

  lemma CollegeCodesUnique()
    ensures forall i, j :: 0 <= i < j < |CollegeBoards| ==> CollegeBoards[i].0 != CollegeBoards[j].0
  {
  }

  lemma DepartmentBoardsShape()
    ensures forall i :: 0 <= i < |DepartmentBoards| ==>
      && |DepartmentBoards[i].0| > 5 && DepartmentBoards[i].0[..5] == "dept_"
      && DepartmentBoards[i].1.name != "" && DepartmentBoards[i].1.category == "학과"
  {
  }

  /** The department section is too long for one pairwise check: its halves and the pairs across them are checked apart. */
  lemma DepartmentCodesUnique()
    ensures CodesUnique(DepartmentBoards)
  {
    DepartmentCodesUniqueLow();
    DepartmentCodesUniqueHigh();
    DepartmentCodesUniqueAcross();
  }

  lemma DepartmentCodesUniqueLow()
    ensures forall i, j :: 0 <= i < j < 19 ==> DepartmentBoards[i].0 != DepartmentBoards[j].0
  {
  }

  lemma DepartmentCodesUniqueHigh()
    ensures forall i, j :: 19 <= i < j < |DepartmentBoards| ==> DepartmentBoards[i].0 != DepartmentBoards[j].0
  {
  }

  lemma DepartmentCodesUniqueAcross()
    ensures forall i, j :: 0 <= i < 19 <= j < |DepartmentBoards| ==> DepartmentBoards[i].0 != DepartmentBoards[j].0
  {
  }

  lemma AgencyBoardsShape()
    ensures forall i :: 0 <= i < |AgencyBoards| ==>
      && |AgencyBoards[i].0| > 7 && AgencyBoards[i].0[..7] == "agency_"
      && AgencyBoards[i].1.name != "" && AgencyBoards[i].1.category == "사업단"
  {
  }

  /** No code of `a` is a code of `b`. */
  ghost predicate CodesDisjoint(a: seq<(string, BoardMeta)>, b: seq<(string, BoardMeta)>) {
    forall i, j :: 0 <= i < |a| && 0 <= j < |b| ==> a[i].0 != b[j].0
  }

  /** Two groups whose code prefixes start with different letters share no code. */
  lemma PrefixesSeparate(a: seq<(string, BoardMeta)>, pa: string, ca: string,
                         b: seq<(string, BoardMeta)>, pb: string, cb: string)
    requires GroupShape(a, pa, ca) && GroupShape(b, pb, cb)
    requires |pa| > 0 && |pb| > 0 && pa[0] != pb[0]
    ensures CodesDisjoint(a, b)
  {
    forall i, j | 0 <= i < |a| && 0 <= j < |b|
      ensures a[i].0 != b[j].0
    {
      assert a[i].0[0] == a[i].0[..|pa|][0] == pa[0];
      assert b[j].0[0] == b[j].0[..|pb|][0] == pb[0];
    }
  }

  lemma {:induction false} UniqueConcat(a: seq<(string, BoardMeta)>, b: seq<(string, BoardMeta)>)
    requires CodesUnique(a) && CodesUnique(b) && CodesDisjoint(a, b)
    ensures CodesUnique(a + b)
  {
    forall i, j | 0 <= i < j < |a + b|
      ensures (a + b)[i].0 != (a + b)[j].0
    {
      if j < |a| {
        assert (a + b)[i] == a[i] && (a + b)[j] == a[j];
      } else if i < |a| {
        assert (a + b)[i] == a[i] && (a + b)[j] == b[j - |a|];
      } else {
        assert (a + b)[i] == b[i - |a|] && (a + b)[j] == b[j - |a|];
      }
    }
  }

  lemma {:induction false} DisjointConcat(a: seq<(string, BoardMeta)>, b: seq<(string, BoardMeta)>, c: seq<(string, BoardMeta)>)
    requires CodesDisjoint(a, c) && CodesDisjoint(b, c)
    ensures CodesDisjoint(a + b, c)
  {
    forall i, j | 0 <= i < |a + b| && 0 <= j < |c|
      ensures (a + b)[i].0 != c[j].0
    {
      if i < |a| {
        assert (a + b)[i] == a[i];
      } else {
        assert (a + b)[i] == b[i - |a|];
      }
    }
  }

  /** Every board code is declared once, so no entry of the table is overridden by a later one. */
  lemma BoardCodesUnique()
    ensures CodesUnique(BoardEntries)
  {
    UniversityBoardsShape();
    CollegeBoardsShape();
    DepartmentBoardsShape();
    AgencyBoardsShape();
    UniversityCodesUnique();
    CollegeCodesUnique();
    DepartmentCodesUnique();
    var u, c, d, a := UniversityBoards, CollegeBoards, DepartmentBoards, AgencyBoards;
    assert GroupShape(u, "home_", "전북대") && GroupShape(c, "college_", "단과대");
    assert GroupShape(d, "dept_", "학과") && GroupShape(a, "agency_", "사업단");
    assert CodesUnique(u) && CodesUnique(c);
    PrefixesSeparate(u, "home_", "전북대", c, "college_", "단과대");
    PrefixesSeparate(u, "home_", "전북대", d, "dept_", "학과");
    PrefixesSeparate(u, "home_", "전북대", a, "agency_", "사업단");
    PrefixesSeparate(c, "college_", "단과대", d, "dept_", "학과");
    PrefixesSeparate(c, "college_", "단과대", a, "agency_", "사업단");
    PrefixesSeparate(d, "dept_", "학과", a, "agency_", "사업단");
    UniqueConcat(u, c);
    DisjointConcat(u, c, d);
    UniqueConcat(u + c, d);
    DisjointConcat(u, c, a);
    DisjointConcat(u + c, d, a);
    UniqueConcat(u + c + d, a);
  }

  /** The position in `Categories` of the group the `i`-th entry belongs to. */
  function GroupIndex(i: nat): (g: nat)
    ensures g < |Categories|
  {
    if i < 11 then 0 else if i < 27 then 1 else if i < 64 then 2 else 3
  }

  /** Every entry has a name and the category of its group. */
  lemma EntryAt(i: nat)
    requires i < |BoardEntries|
    ensures |BoardEntries| == 65
    ensures BoardEntries[i].1.name != ""
    ensures BoardEntries[i].1.category == Categories[GroupIndex(i)]
  {
    UniversityBoardsShape();
    CollegeBoardsShape();
    DepartmentBoardsShape();
    AgencyBoardsShape();
    var u, c, d, a := UniversityBoards, CollegeBoards, DepartmentBoards, AgencyBoards;
    var e := u + c + d + a;
    if i < 11 {
      assert e[i] == u[i];
    } else if i < 27 {
      assert e[i] == c[i - 11];
    } else if i < 64 {
      assert e[i] == d[i - 27];
    } else {
      assert e[i] == a[i - 64];
    }
  }

  /** The object built from `entries` as a literal builds it: each entry sets its key, a later one overriding an earlier one. */
  function MapOf(entries: seq<(string, BoardMeta)>): (m: map<string, BoardMeta>)
    ensures forall k :: k in m ==> exists i :: 0 <= i < |entries| && entries[i].0 == k
  {
    if |entries| == 0 then map[]
    else
      var last := entries[|entries| - 1];
      var m' := MapOf(entries[..|entries| - 1]);
      m'[last.0 := last.1]
  }

  /** With no code repeated, the object holds every entry exactly as declared. */
  lemma {:induction false} MapOfAt(entries: seq<(string, BoardMeta)>, i: nat)
    requires CodesUnique(entries) && i < |entries|
    ensures entries[i].0 in MapOf(entries) && MapOf(entries)[entries[i].0] == entries[i].1
    decreases |entries|
  {
    var n := |entries| - 1;
    if i < n {
      var init := entries[..n];
      assert init[i] == entries[i];
      assert CodesUnique(init) by {
        forall p, q | 0 <= p < q < |init| ensures init[p].0 != init[q].0 {
          assert init[p] == entries[p] && init[q] == entries[q];
        }
      }
      MapOfAt(init, i);
      assert entries[i].0 != entries[n].0;
    }
  }

  /** BOARD_MAP: the board table keyed by code. */
  const BoardMap: map<string, BoardMeta> := MapOf(BoardEntries)

  /** Every code of the table is a key of the map, with its declared name and category; there are no other keys. */
  lemma BoardMapHoldsEntries()
    ensures forall i :: 0 <= i < |BoardEntries| ==> BoardEntries[i].0 in BoardMap && BoardMap[BoardEntries[i].0] == BoardEntries[i].1
    ensures forall k :: k in BoardMap ==> exists i :: 0 <= i < |BoardEntries| && BoardEntries[i].0 == k
  {
    BoardCodesUnique();
    forall i | 0 <= i < |BoardEntries|
      ensures BoardEntries[i].0 in BoardMap && BoardMap[BoardEntries[i].0] == BoardEntries[i].1
    {
      MapOfAt(BoardEntries, i);
    }
  }

  /** Every board in the map has a non-empty name and one of the listed categories. */
  lemma BoardMapMeta(code: string)
    requires code in BoardMap
    ensures BoardMap[code].name != ""
    ensures BoardMap[code].category in Categories
  {
    BoardMapHoldsEntries();
    var i :| 0 <= i < |BoardEntries| && BoardEntries[i].0 == code;
    EntryAt(i);
  }

  /**
   * getBoardName: the board's name for a known code, the code itself otherwise.
   * (`name || code` also falls back on an empty name, which no board has.)
   */
  function GetBoardName(code: string): (r: string)
    ensures code in BoardMap ==> r == BoardMap[code].name && r != ""
    ensures code !in BoardMap ==> r == code
  {
    if code in BoardMap then
      BoardMapMeta(code);
      var name := BoardMap[code].name;
      if name != "" then name else code
    else code
  }

  /** BOARD_OPTIONS: one option per entry of the map, in declaration order. */
  function BoardOptions(): (r: seq<BoardOption>)
    ensures |r| == |BoardEntries|
    ensures forall i :: 0 <= i < |r| ==> r[i].code == BoardEntries[i].0
  {
    seq(|BoardEntries|, i requires 0 <= i < |BoardEntries| =>
      BoardOption(BoardEntries[i].0, BoardEntries[i].1.name, BoardEntries[i].1.category))
  }

  /** Each option shows its board's name and category as the map records them, and its name is what getBoardName returns for its code. */
  lemma OptionsAgreeWithMap()
    ensures forall o :: o in BoardOptions() ==>
      && o.code in BoardMap
      && BoardMap[o.code] == BoardMeta(o.name, o.category)
      && GetBoardName(o.code) == o.name
  {
    BoardMapHoldsEntries();
  }

  /** There is exactly one option for each code of the map. */
  lemma OneOptionPerBoard(code: string)
    ensures code in BoardMap <==> exists i :: 0 <= i < |BoardOptions()| && BoardOptions()[i].code == code
    ensures forall i, j :: 0 <= i < j < |BoardOptions()| ==> BoardOptions()[i].code != BoardOptions()[j].code
  {
    BoardMapHoldsEntries();
    BoardCodesUnique();
    if code in BoardMap {
      var i :| 0 <= i < |BoardEntries| && BoardEntries[i].0 == code;
      assert BoardOptions()[i].code == code;
    }
  }

  /** The options come grouped by category, the groups in the order of `Categories`, and every category has at least one option. */
  lemma OptionsGroupedByCategory()
    ensures forall i :: 0 <= i < |BoardOptions()| ==> BoardOptions()[i].category == Categories[GroupIndex(i)]
    ensures forall i, j :: 0 <= i <= j < |BoardOptions()| ==> GroupIndex(i) <= GroupIndex(j)
    ensures forall c :: c in Categories ==> exists i :: 0 <= i < |BoardOptions()| && BoardOptions()[i].category == c
  {
    forall i | 0 <= i < |BoardOptions()|
      ensures BoardOptions()[i].category == Categories[GroupIndex(i)]
    {
      EntryAt(i);
    }
    EntryAt(0);
    assert BoardOptions()[0].category == Categories[0];
    assert BoardOptions()[11].category == Categories[1];
    assert BoardOptions()[27].category == Categories[2];
    assert BoardOptions()[64].category == Categories[3];
  }
}
