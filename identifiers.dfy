/** DID identifiers: the unique suffix is what follows the last colon. */
module Identifiers {
  import opened Wrappers

  /** Go's `strings.LastIndex` for one character: the last position of `c`, or -1. */
  function LastIndex(s: string, c: char): (p: int)
    ensures -1 <= p < |s|
    ensures p == -1 <==> c !in s
    ensures 0 <= p ==> s[p] == c && c !in s[p + 1..]
    decreases |s|
  {
    if |s| == 0 then -1
    else if s[|s| - 1] == c then |s| - 1
    else LastIndex(s[..|s| - 1], c)
  }

  /** The unique suffix of a DID: fails exactly when there is no colon. */
  function GetUniqueSuffix(id: string): (r: Result<string>)
    ensures r.Err? <==> ':' !in id
    ensures r.Err? ==> r.error == "unique suffix not provided in id [" + id + "]"
    ensures r.Ok? ==> ':' !in r.value && |r.value| < |id|
    ensures r.Ok? ==> id == id[..|id| - |r.value| - 1] + ":" + r.value
  {
    var p := LastIndex(id, ':');
    if p == -1 then Err("unique suffix not provided in id [" + id + "]")
    else
      assert id == id[..p] + [id[p]] + id[p + 1..];
      Ok(id[p + 1..])
  }

  /** Joining a prefix and a colon-free suffix with a colon, then extracting, gives the suffix back. */
  lemma SuffixOfJoined(prefix: string, suffix: string)
    requires ':' !in suffix
    ensures GetUniqueSuffix(prefix + ":" + suffix) == Ok(suffix)
  {
    var id := prefix + ":" + suffix;
    var p := LastIndex(id, ':');
    assert id[|prefix|] == ':';
    assert forall k :: |prefix| < k < |id| ==> id[k] == suffix[k - |prefix| - 1];
    assert p >= |prefix| by {
      assert forall k :: p < k < |id| ==> id[k] in id[p + 1..];
    }
    assert p == |prefix|;
    assert id[p + 1..] == suffix;
  }
}
