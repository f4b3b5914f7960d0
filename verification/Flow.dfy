/** How the body of a transaction goes on after an answer. */
module Flow {
  import opened Types
  import opened Policy

  datatype Next<P> =
    | Go(place: P)
    | Record(rows: seq<Audit>, back: Option<Uuid>)  // only audit rows left, then a row to read back
    | Refuse(error: Error)
}
