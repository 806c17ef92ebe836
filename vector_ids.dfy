/**
  The arithmetic behind removing a document from the flat vector index of
  src/core/index_manager.py: the keep-mask that drops the removed positions, the compaction
  of the vector array by that mask, and the renumbering of the ids that survive.

  The central fact (SurvivorLands, SurvivorsOrdered): when the removed ids are distinct and
  all within the array, every surviving id is renumbered to exactly the position its vector
  takes in the compacted array, and the renumbering keeps the surviving ids in order.
*/
module VectorIds {

  /** Every id of `ids` is a position of an array of length `n`. */
  ghost predicate IdsIn(ids: seq<int>, n: int) {
    forall j :: 0 <= j < |ids| ==> 0 <= ids[j] < n
  }

  ghost predicate StrictlyIncreasing(s: seq<int>) {
    forall i, j :: 0 <= i < j < |s| ==> s[i] < s[j]
  }

  /** `sum(1 for rid in removed if rid < v)`: how many entries of `removed` lie below `v`. */
  function CountBelow(removed: seq<int>, v: int): (c: nat)
    ensures c <= |removed|
  {
    if removed == [] then 0
    else (if removed[0] < v then 1 else 0) + CountBelow(removed[1..], v)
  }

  /** `min(s)` of a non-empty list. */
  function Min(s: seq<int>): (m: int)
    requires |s| > 0
    ensures m in s
    ensures forall x :: x in s ==> m <= x
  {
    if |s| == 1 then s[0]
    else
      var m := Min(s[1..]);
      assert forall x :: x in s ==> x == s[0] || x in s[1..];
      if s[0] <= m then s[0] else m
  }

  /**
    The id a surviving vector `vid` gets once `removed` is taken out: ids above the smallest
    removed one move down by the number of removed ids below them, the others stay.
  */
  function Renumbered(vid: int, removed: seq<int>): (r: int)
    requires |removed| > 0
    ensures vid - |removed| <= r <= vid
  {
    if vid > Min(removed) then vid - CountBelow(removed, vid) else vid
  }

  /** The renumbering applied to one document's id list, entry by entry. */
  function RenumberIds(ids: seq<int>, removed: seq<int>): (r: seq<int>)
    requires |removed| > 0
    ensures |r| == |ids|
    ensures forall i :: 0 <= i < |ids| ==> r[i] == Renumbered(ids[i], removed)
  {
    seq(|ids|, i requires 0 <= i < |ids| => Renumbered(ids[i], removed))
  }

  lemma {:induction false} CountBelowNone(removed: seq<int>, v: int)
    requires forall x :: x in removed ==> v <= x
    ensures CountBelow(removed, v) == 0
  {
    if removed != [] {
      assert removed[0] in removed;
      assert forall x :: x in removed[1..] ==> x in removed;
      CountBelowNone(removed[1..], v);
    }
  }

  /**
    The two branches of the renumbering agree: every id, above the smallest removed one or
    not, moves down by the number of removed ids below it.
  */
  lemma RenumberedIsShift(vid: int, removed: seq<int>)
    requires |removed| > 0
    ensures Renumbered(vid, removed) == vid - CountBelow(removed, vid)
    ensures vid <= Min(removed) ==> Renumbered(vid, removed) == vid
  {
    if vid <= Min(removed) {
      CountBelowNone(removed, vid);
    }
  }

  /** Python's index into a list of length `n`: a negative index counts from the end. */
  function MaskIndex(vid: int, n: nat): (p: int)
    ensures 0 <= vid + n && vid < n ==> 0 <= p < n
    ensures vid >= 0 ==> p == vid
  {
    if vid >= 0 then vid else n + vid
  }

  /** Some removed id is below `-n`: `keep_mask[vid] = False` raises IndexError for it. */
  predicate MaskFails(ids: seq<int>, n: nat) {
    exists j :: 0 <= j < |ids| && ids[j] + n < 0
  }

  /** Position `p` is cleared by some removed id below `n` (the guard `vid < ntotal`). */
  predicate Cleared(ids: seq<int>, n: nat, p: int) {
    exists j :: 0 <= j < |ids| && ids[j] < n && MaskIndex(ids[j], n) == p
  }

  /** The keep-mask after the loop: true at every position no removed id clears. */
  function KeepMask(ids: seq<int>, n: nat): (keep: seq<bool>)
    ensures |keep| == n
  {
    seq(n, p => !Cleared(ids, n, p))
  }

  /** Taking one more removed id into the mask loop clears one more position at most. */
  lemma ClearedStep(ids: seq<int>, n: nat, j: nat, p: int)
    requires j < |ids|
    ensures Cleared(ids[..j + 1], n, p) <==> Cleared(ids[..j], n, p) || (ids[j] < n && MaskIndex(ids[j], n) == p)
  {
    if Cleared(ids[..j + 1], n, p) {
      var k :| 0 <= k < j + 1 && ids[..j + 1][k] < n && MaskIndex(ids[..j + 1][k], n) == p;
      if k < j {
        assert ids[..j][k] == ids[k];
      }
    }
    if Cleared(ids[..j], n, p) {
      var k :| 0 <= k < j && ids[..j][k] < n && MaskIndex(ids[..j][k], n) == p;
      assert ids[..j + 1][k] == ids[k];
    }
    if ids[j] < n && MaskIndex(ids[j], n) == p {
      assert ids[..j + 1][j] == ids[j];
    }
  }

  /** How many entries of the mask are true. */
  function TrueCount(keep: seq<bool>): (c: nat)
    ensures c <= |keep|
  {
    if keep == [] then 0
    else TrueCount(keep[..|keep| - 1]) + (if keep[|keep| - 1] then 1 else 0)
  }

  /** `all_vectors[keep_mask]`: the vectors whose mask entry is true, in their order. */
  function Compact<V>(vs: seq<V>, keep: seq<bool>): (r: seq<V>)
    requires |keep| == |vs|
    ensures |r| == TrueCount(keep)
  {
    if vs == [] then []
    else
      Compact(vs[..|vs| - 1], keep[..|keep| - 1])
      + (if keep[|keep| - 1] then [vs[|vs| - 1]] else [])
  }

  /** A kept vector lands at the number of kept positions before it. */
  lemma {:induction false} CompactAt<V>(vs: seq<V>, keep: seq<bool>, i: nat)
    requires |keep| == |vs| && i < |vs| && keep[i]
    ensures TrueCount(keep[..i]) < |Compact(vs, keep)|
    ensures Compact(vs, keep)[TrueCount(keep[..i])] == vs[i]
  {
    var k := |vs| - 1;
    if i == k {
      assert keep[..|keep| - 1] == keep[..i];
    } else {
      CompactAt(vs[..k], keep[..k], i);
      assert keep[..k][..i] == keep[..i];
      TrueCountMonotone(keep, i + 1, k);
      TrueCountStep(keep, i);
    }
  }

  /** With nothing cleared the compaction returns the array it was given. */
  lemma {:induction false} CompactAllKept<V>(vs: seq<V>, keep: seq<bool>)
    requires |keep| == |vs|
    requires forall i :: 0 <= i < |keep| ==> keep[i]
    ensures Compact(vs, keep) == vs
  {
    if vs != [] {
      CompactAllKept(vs[..|vs| - 1], keep[..|keep| - 1]);
      assert vs[..|vs| - 1] + [vs[|vs| - 1]] == vs;
    }
  }

  lemma TrueCountStep(keep: seq<bool>, i: nat)
    requires i < |keep|
    ensures TrueCount(keep[..i + 1]) == TrueCount(keep[..i]) + (if keep[i] then 1 else 0)
  {
    assert keep[..i + 1][..i] == keep[..i];
  }

  lemma {:induction false} TrueCountMonotone(keep: seq<bool>, i: nat, j: nat)
    requires i <= j <= |keep|
    ensures TrueCount(keep[..i]) <= TrueCount(keep[..j])
  {
    if i < j {
      TrueCountMonotone(keep, i, j - 1);
      TrueCountStep(keep, j - 1);
    }
  }

  /** Kept positions keep their relative order in the compacted array. */
  lemma KeptOrderPreserved(keep: seq<bool>, i: nat, j: nat)
    requires i < j <= |keep| && keep[i]
    ensures TrueCount(keep[..i]) < TrueCount(keep[..j])
  {
    TrueCountStep(keep, i);
    TrueCountMonotone(keep, i + 1, j);
  }

  /** For in-range ids the mask clears exactly the removed positions. */
  lemma KeepMaskInRange(ids: seq<int>, n: nat, p: int)
    requires IdsIn(ids, n) && 0 <= p < n
    ensures KeepMask(ids, n)[p] <==> p !in ids
  {
    if p in ids {
      var j :| 0 <= j < |ids| && ids[j] == p;
      assert ids[j] < n && MaskIndex(ids[j], n) == p;
    }
  }

  /** For distinct removed ids, moving `v` up by one meets one more removed id exactly when `v` is removed. */
  lemma {:induction false} CountBelowStep(removed: seq<int>, v: int)
    requires StrictlyIncreasing(removed)
    ensures CountBelow(removed, v + 1) == CountBelow(removed, v) + (if v in removed then 1 else 0)
  {
    if removed != [] {
      var rest := removed[1..];
      assert StrictlyIncreasing(rest);
      CountBelowStep(rest, v);
      assert v in removed <==> removed[0] == v || v in rest;
      if removed[0] == v {
        assert v !in rest;
      }
    }
  }

  /** Removed ids that all lie below `n` are all counted below `n`. */
  lemma {:induction false} CountBelowAll(removed: seq<int>, n: int)
    requires forall j :: 0 <= j < |removed| ==> removed[j] < n
    ensures CountBelow(removed, n) == |removed|
  {
    if removed != [] {
      CountBelowAll(removed[1..], n);
    }
  }

  /**
    The number of kept positions below `i` is `i` minus the number of removed ids below `i`:
    the renumbering formula counts exactly the positions the compaction keeps.
  */
  lemma {:induction false} KeptBelowIsShift(removed: seq<int>, n: nat, i: nat)
    requires StrictlyIncreasing(removed) && IdsIn(removed, n) && i <= n
    ensures TrueCount(KeepMask(removed, n)[..i]) == i - CountBelow(removed, i)
  {
    var keep := KeepMask(removed, n);
    if i == 0 {
      CountBelowNone(removed, 0);
      assert keep[..0] == [];
    } else {
      KeptBelowIsShift(removed, n, i - 1);
      TrueCountStep(keep, i - 1);
      CountBelowStep(removed, i - 1);
      KeepMaskInRange(removed, n, i - 1);
    }
  }

  /** Compacting away distinct in-range ids leaves exactly the other vectors. */
  lemma CompactedLength<V>(vs: seq<V>, removed: seq<int>)
    requires StrictlyIncreasing(removed) && IdsIn(removed, |vs|)
    ensures |Compact(vs, KeepMask(removed, |vs|))| == |vs| - |removed|
  {
    var keep := KeepMask(removed, |vs|);
    KeptBelowIsShift(removed, |vs|, |vs|);
    assert keep[..|vs|] == keep;
    CountBelowAll(removed, |vs|);
  }

  /**
    Removing distinct in-range ids from an array of `|vs|` vectors leaves `|vs| - |removed|`
    vectors, and every surviving id is renumbered to the position its vector now has.
  */
  lemma SurvivorLands<V>(vs: seq<V>, removed: seq<int>, v: int)
    requires |removed| > 0 && StrictlyIncreasing(removed) && IdsIn(removed, |vs|)
    requires 0 <= v < |vs| && v !in removed
    ensures |Compact(vs, KeepMask(removed, |vs|))| == |vs| - |removed|
    ensures 0 <= Renumbered(v, removed) < |vs| - |removed|
    ensures Compact(vs, KeepMask(removed, |vs|))[Renumbered(v, removed)] == vs[v]
  {
    var n := |vs|;
    var keep := KeepMask(removed, n);
    RenumberedIsShift(v, removed);
    KeptBelowIsShift(removed, n, v);
    CompactedLength(vs, removed);
    KeepMaskInRange(removed, n, v);
    CompactAt(vs, keep, v);
  }

  /** The renumbering is strictly increasing on surviving ids, so distinct survivors stay distinct. */
  lemma SurvivorsOrdered(removed: seq<int>, n: nat, v: int, w: int)
    requires |removed| > 0 && StrictlyIncreasing(removed) && IdsIn(removed, n)
    requires 0 <= v < w < n && v !in removed
    ensures Renumbered(v, removed) < Renumbered(w, removed)
  {
    var keep := KeepMask(removed, n);
    RenumberedIsShift(v, removed);
    RenumberedIsShift(w, removed);
    KeptBelowIsShift(removed, n, v);
    KeptBelowIsShift(removed, n, w);
    KeepMaskInRange(removed, n, v);
    KeptOrderPreserved(keep, v, w);
  }
}
