/** The per-field `errors` state both forms keep: a message while validation shows one, or
    `''` once typing has cleared it. */
module FormErrors {
  datatype FieldError<M> = Shown(message: M) | Blank

  type Errors<K, M> = map<K, FieldError<M>>

  /** `errors[name]` is truthy. */
  predicate HasError<K, M>(e: Errors<K, M>, k: K) {
    k in e && e[k].Shown?
  }

  /** `{ ...errors, [name]: '' }` when `errors[name]` is truthy: the field's error is no longer
      shown and no other entry changes. */
  function ClearError<K, M>(e: Errors<K, M>, k: K): (r: Errors<K, M>)
    ensures !HasError(r, k)
    ensures r.Keys == e.Keys
    ensures forall j :: j in e && j != k ==> r[j] == e[j]
    ensures !HasError(e, k) ==> r == e
  {
    if HasError(e, k) then e[k := Blank] else e
  }

  /** `errors[name]` as the text a field shows: the message's text, or `''` when none is shown. */
  function ErrorString<K, M>(e: Errors<K, M>, k: K, text: M -> string): string {
    if HasError(e, k) then text(e[k].message) else ""
  }

  /** What an input shows of its error state: MUI's `error` flag, `!!errors[name]`, and the
      caption under the input. */
  datatype FieldHint = FieldHint(flagged: bool, caption: string)
}
