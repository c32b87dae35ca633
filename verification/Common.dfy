/** Vocabulary shared by the modules. */
module Common {
  datatype Option<+T> = None | Some(value: T)

  /** `value or fallback` for an optional Python integer: None and 0 are falsy. */
  function OrDefault(value: Option<int>, fallback: int): int {
    if value.None? || value.value == 0 then fallback else value.value
  }

  /** `value or None` for an optional Python string: None and "" are falsy. */
  function OrNone(value: Option<string>): Option<string> {
    if value.None? || value.value == "" then None else value
  }

  function Max(a: int, b: int): int {
    if a < b then b else a
  }

  /** The Python idiom `value or fallback` in plain terms. */
  lemma FalsyValues(n: int, fallback: int, s: string)
    ensures OrDefault(None, fallback) == OrDefault(Some(0), fallback) == fallback
    ensures n != 0 ==> OrDefault(Some(n), fallback) == n
    ensures OrNone(None) == OrNone(Some("")) == None
    ensures s != "" ==> OrNone(Some(s)) == Some(s)
    ensures Max(n, fallback) >= n && Max(n, fallback) >= fallback && Max(n, fallback) in {n, fallback}
  {}
}
