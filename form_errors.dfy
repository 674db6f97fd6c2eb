/** The `errors` state of the checkout and product forms: a dictionary from a
    field to its message. JavaScript treats an empty message as no message. */
module FormErrors {
  /** The field's message shows under it. */
  predicate Shows<K>(errors: map<K, string>, field: K)
  {
    field in errors && errors[field] != ""
  }

  /** The errors after typing into `field`: a message showing for it becomes "",
      and nothing else changes. */
  function Cleared<K>(errors: map<K, string>, field: K): (r: map<K, string>)
    ensures r.Keys == errors.Keys
    ensures forall f :: f in errors && f != field ==> r[f] == errors[f]
    ensures !Shows(r, field)
  {
    if Shows(errors, field) then errors[field := ""] else errors
  }
}
