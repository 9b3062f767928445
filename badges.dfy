/** The status badges drawn in the list tables, and the `table[key] || table.fallback` lookup both pages use. */
module Badges {

  datatype Variant = Default | Secondary | Destructive | Outline

  /** A badge: its text and its style. */
  datatype Badge = Badge(text: string, variant: Variant)

  /**
   * `table[key] || table[fallback]`: every entry of a label table is an
   * object, so the fallback is taken exactly when the key is missing.
   */
  function LookupOr(table: map<string, Badge>, key: string, fallback: string): (b: Badge)
    requires fallback in table
    ensures key in table ==> b == table[key]
    ensures key !in table ==> b == table[fallback]
    ensures b in table.Values
  {
    if key in table then table[key] else table[fallback]
  }
}
