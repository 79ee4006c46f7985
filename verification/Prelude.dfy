/** Small shared vocabulary: optional values, prefixes and text joined from fragments. */
module Prelude {
  datatype Option<+T> = None | Some(value: T)

  /** The concatenation of the fragments, in order. */
  function Join(parts: seq<string>): string {
    if parts == [] then "" else Join(parts[..|parts| - 1]) + parts[|parts| - 1]
  }

  lemma JoinSnoc(parts: seq<string>, last: string)
    ensures Join(parts + [last]) == Join(parts) + last
  {
    assert (parts + [last])[..|parts|] == parts;
  }
}
