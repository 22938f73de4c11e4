/** The positions a left-to-right scan keeps. Three loops of the source
    are filters of this kind: the overflow heuristics that report
    overflow, the people printed on the credits page, and the people
    placed in the photo grid. */
module Selection {

  predicate Increasing(r: seq<nat>) {
    forall j, k :: 0 <= j < k < |r| ==> r[j] < r[k]
  }

  /** The indices `i` of `s` with `keep(s[i])`, in increasing order. */
  function Positions<T>(s: seq<T>, keep: T -> bool): (r: seq<nat>)
    ensures |r| <= |s|
    ensures forall j :: 0 <= j < |r| ==> r[j] < |s| && keep(s[r[j]])
    ensures Increasing(r)
    ensures forall i :: 0 <= i < |s| && keep(s[i]) ==> i in r
    decreases |s|
  {
    if s == [] then []
    else
      var p := Positions(s[..|s| - 1], keep);
      if keep(s[|s| - 1]) then p + [|s| - 1] else p
  }

  /** Scanning one more element extends the kept positions by that
      element's index exactly when it is kept. */
  lemma PositionsStep<T>(s: seq<T>, keep: T -> bool, i: nat)
    requires i < |s|
    ensures Positions(s[..i + 1], keep)
         == Positions(s[..i], keep) + (if keep(s[i]) then [i] else [])
  {
    assert s[..i + 1][..i] == s[..i];
  }

  /** Nothing is kept exactly when no element qualifies. */
  lemma PositionsEmpty<T>(s: seq<T>, keep: T -> bool)
    ensures Positions(s, keep) == [] <==> forall i :: 0 <= i < |s| ==> !keep(s[i])
  {
    var r := Positions(s, keep);
    if r != [] {
      assert keep(s[r[0]]);
    }
  }
}
