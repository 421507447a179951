/** Values shared by the farmer capture workflow: optional values, the batch
    record the history feed returns, and JavaScript's `a || b` on strings. */
module Domain {

  datatype Option<+T> = None | Some(value: T)

  /** One harvested lot as the history endpoint reports it (the `Batch` type
      of FarmerDashboard.tsx). `id` stands for the server's `_id`. */
  datatype Batch = Batch(
    id: string,
    batchId: string,
    herbType: string,
    quantityKg: real,
    createdAt: string,
    status: string)

  /** A JavaScript string is truthy exactly when it is non-empty. */
  predicate Truthy(s: Option<string>)
  {
    s.Some? && s.value != ""
  }

  /** JavaScript's `v || fallback` where `v` is a possibly absent string:
      the value itself when it is truthy, the fallback otherwise. */
  function OrElse(v: Option<string>, fallback: string): (r: string)
    ensures Truthy(v) ==> v == Some(r) && r != ""
    ensures !Truthy(v) ==> r == fallback
  {
    if v.Some? && v.value != "" then v.value else fallback
  }
}
