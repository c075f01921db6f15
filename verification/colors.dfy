/** The per-name colour table handed to the card and the fallback rule
    applied wherever a record's colour is looked up. */
module Colors {
  import opened Wrappers

  /** `colors[name]` is an object `{ color }` whose `color` may be null. */
  type ColorTable = map<string, Option<string>>

  /** The neutral dot and segment colour of the compact layout. */
  const Gray: string := "#858585"

  /** The background of every default-layout progress bar. */
  const ProgressBackground: string := "#ededed"

  /** `const { color } = colors[name] || {}` followed by `color || fallback`:
      a missing entry, a null colour and an empty string all fall back. */
  function ColorOr(table: ColorTable, name: string, fallback: string): (c: string)
    ensures c == fallback || (name in table && table[name] == Some(c) && c != "")
    ensures (name in table && table[name].Some? && table[name].value != "") ==> c == table[name].value
  {
    if name in table && table[name].Some? && table[name].value != "" then table[name].value
    else fallback
  }
}
