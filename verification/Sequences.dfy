/** Small operations on sequences that several modules share. */
module Sequences {

  function Removed<T>(s: seq<T>, i: nat): seq<T>
    requires i < |s|
  {
    s[..i] + s[i + 1..]
  }

  /** Where an element that stays was before. */
  function Skipping(i: nat, k: nat): nat {
    if k < i then k else k + 1
  }

  lemma RemovedAt<T>(s: seq<T>, i: nat)
    requires i < |s|
    ensures |Removed(s, i)| == |s| - 1
    ensures forall k | 0 <= k < |s| - 1 :: Removed(s, i)[k] == s[Skipping(i, k)]
  {
  }

  predicate NoDups(s: seq<nat>) {
    forall j, k | 0 <= j < k < |s| :: s[j] != s[k]
  }

  lemma WithOneMore(s: seq<nat>, c: nat)
    requires NoDups(s) && c !in s
    ensures NoDups([c] + s) && NoDups(s + [c])
    ensures forall x :: (x in [c] + s <==> x == c || x in s) && (x in s + [c] <==> x == c || x in s)
  {
  }

  lemma WithoutOne(s: seq<nat>, k: nat)
    requires NoDups(s) && k < |s|
    ensures NoDups(s[..k] + s[k + 1..])
    ensures forall x :: x in s[..k] + s[k + 1..] <==> x in s && x != s[k]
  {
    var t := s[..k] + s[k + 1..];
    forall x | x in s && x != s[k] ensures x in t {
      var j :| 0 <= j < |s| && s[j] == x;
      assert t[if j < k then j else j - 1] == x;
    }
  }

  lemma NoDupsRemoved(s: seq<nat>, i: nat)
    requires NoDups(s) && i < |s|
    ensures NoDups(Removed(s, i))
  {
    WithoutOne(s, i);
  }
}
