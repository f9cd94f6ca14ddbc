/** Searching a sequence for its first element with a property. */
module Seqs {

  /** The index of the first element of `s` satisfying `p`, or -1. */
  function FirstIndex<T>(s: seq<T>, p: T -> bool): (r: int)
    ensures -1 <= r < |s|
    ensures r >= 0 ==> p(s[r])
    ensures forall i :: 0 <= i < |s| && (r < 0 || i < r) ==> !p(s[i])
  {
    if s == [] then -1
    else if p(s[0]) then 0
    else
      var r := FirstIndex(s[1..], p);
      assert forall i :: 1 <= i < |s| ==> s[i] == s[1..][i - 1];
      if r < 0 then -1 else r + 1
  }

  /** An element with the property and none before it is the first. */
  lemma FirstIndexAt<T>(s: seq<T>, p: T -> bool, k: nat)
    requires k < |s| && p(s[k])
    requires forall j :: 0 <= j < k ==> !p(s[j])
    ensures FirstIndex(s, p) == k
  {
  }

  /** Without an element with the property, there is no first one. */
  lemma FirstIndexNone<T>(s: seq<T>, p: T -> bool)
    requires forall j :: 0 <= j < |s| ==> !p(s[j])
    ensures FirstIndex(s, p) == -1
  {
  }

  /** What the `k`-th call to a scripted source returns: `scripts[k]`, or
      nothing once the script is exhausted. */
  function ScriptAt<T>(scripts: seq<seq<T>>, k: nat): (r: seq<T>)
    ensures k < |scripts| ==> r == scripts[k]
    ensures k >= |scripts| ==> r == []
  {
    if k < |scripts| then scripts[k] else []
  }
}
