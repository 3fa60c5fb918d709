/** Python's list replication `[x] * n`, used for the answer slots and for the
    response templates embedded in the generation prompts. */
module Lists {

  /** `[x] * n`: n copies of x; a count of zero or less gives the empty list. */
  function Replicate<T>(x: T, n: int): (r: seq<T>)
    ensures |r| == if n <= 0 then 0 else n
    ensures forall i :: 0 <= i < |r| ==> r[i] == x
  {
    if n <= 0 then [] else [x] + Replicate(x, n - 1)
  }

  /** Only copies of x: a list is a replication of x exactly when every element is x. */
  lemma ReplicateCharacterised<T>(x: T, s: seq<T>)
    ensures s == Replicate(x, |s|) <==> forall i :: 0 <= i < |s| ==> s[i] == x
  {
    var r := Replicate(x, |s|);
    if forall i :: 0 <= i < |s| ==> s[i] == x {
      assert |r| == |s|;
      assert forall i :: 0 <= i < |s| ==> r[i] == s[i];
    }
  }
}
