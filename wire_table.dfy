/**
 * How serde's derive (de)serializes a unit-only enum whose variants carry
 * `#[serde(rename = "...")]`: the renamed variants form a list of wire names in
 * declaration order, and a variant is identified by its position in that list.
 * Deserializing a string looks the string up in the list and fails with
 * "unknown variant" when it is not there.
 */
module WireTable {
  import opened Wrappers

  /** No two wire names in the list are equal. */
  predicate NamesDistinct(names: seq<string>) {
    forall i, j :: 0 <= i < j < |names| ==> names[i] != names[j]
  }

  /** Position of `name` in the list: the first one, or `None` when it is not listed. */
  function IndexOf(names: seq<string>, name: string): (r: Option<nat>)
    ensures r.None? <==> name !in names
    ensures r.Some? ==> r.value < |names| && names[r.value] == name
    ensures r.Some? ==> name !in names[..r.value]
  {
    if |names| == 0 then None
    else if names[0] == name then Some(0)
    else
      match IndexOf(names[1..], name)
      case None => None
      case Some(k) => Some(k + 1)
  }

  /**
   * With distinct wire names, looking up the name at position `k` gives back `k`.
   * The induction is written out for the reader; `IndexOf`'s own contract and
   * `NamesDistinct` already pin the position, so Dafny does not need it.
   */
  lemma {:induction false} IndexOfListed(names: seq<string>, k: nat)
    requires NamesDistinct(names)
    requires k < |names|
    ensures IndexOf(names, names[k]) == Some(k)
  {
    if k > 0 {
      assert names[0] != names[k];
      IndexOfListed(names[1..], k - 1);
    }
  }
}
