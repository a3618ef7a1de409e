/**
 * The rows a worker loop acts on: each loop tests every row in order and skips the
 * ones whose file is missing, so what it processes is the list of positions where a
 * per-row test holds.
 */
module Selection {
  import opened Wrappers

  /** How many entries of `s` are true. */
  function CountTrue(s: seq<bool>): nat
    decreases |s|
  {
    if s == [] then 0 else CountTrue(s[..|s| - 1]) + (if s[|s| - 1] then 1 else 0)
  }

  /** The positions of the true entries of `flags`, in increasing order. */
  function Positions(flags: seq<bool>): seq<nat>
    decreases |flags|
  {
    if flags == [] then []
    else
      var n := |flags| - 1;
      Positions(flags[..n]) + (if flags[n] then [n] else [])
  }

  /** A strictly increasing list of numbers. */
  predicate Increasing(s: seq<nat>) {
    forall a, b :: 0 <= a < b < |s| ==> s[a] < s[b]
  }

  /** The positions of the first `i + 1` flags extend those of the first `i`. */
  lemma PositionsStep(flags: seq<bool>, i: nat)
    requires i < |flags|
    ensures Positions(flags[..i + 1]) == Positions(flags[..i]) + (if flags[i] then [i] else [])
  {
    assert flags[..i + 1][..i] == flags[..i];
  }

  /** A position is listed iff it is in range and its flag is set. */
  lemma {:induction false} PositionsMembers(flags: seq<bool>, k: nat)
    ensures k in Positions(flags) <==> k < |flags| && flags[k]
    decreases |flags|
  {
    if flags != [] {
      var n := |flags| - 1;
      PositionsMembers(flags[..n], k);
    }
  }

  /** The positions are listed in increasing order, each once. */
  lemma {:induction false} PositionsIncreasing(flags: seq<bool>)
    ensures Increasing(Positions(flags))
    decreases |flags|
  {
    if flags != [] {
      var n := |flags| - 1;
      PositionsIncreasing(flags[..n]);
      var init := Positions(flags[..n]);
      forall k | k in init ensures k < n {
        PositionsMembers(flags[..n], k);
      }
      if flags[n] {
        var all := init + [n];
        forall a, b | 0 <= a < b < |all| ensures all[a] < all[b] {
          if b == |init| {
            assert all[a] == init[a] && init[a] in init;
          } else {
            assert all[a] == init[a] && all[b] == init[b];
          }
        }
      }
    }
  }

  /** One position per true flag. */
  lemma {:induction false} PositionsLength(flags: seq<bool>)
    ensures |Positions(flags)| == CountTrue(flags)
    decreases |flags|
  {
    if flags != [] {
      PositionsLength(flags[..|flags| - 1]);
    }
  }

  /** Every position is below the number of flags. */
  lemma PositionsBounded(flags: seq<bool>)
    ensures forall k :: 0 <= k < |Positions(flags)| ==> Positions(flags)[k] < |flags|
  {
    forall k | 0 <= k < |Positions(flags)| ensures Positions(flags)[k] < |flags| {
      PositionsMembers(flags, Positions(flags)[k]);
    }
  }

  /** Every row is kept iff every flag is set, and then position `k` is row `k`. */
  lemma {:induction false} PositionsAll(flags: seq<bool>)
    ensures (|Positions(flags)| == |flags|) <==> (forall k :: 0 <= k < |flags| ==> flags[k])
    ensures (forall k :: 0 <= k < |flags| ==> flags[k]) ==>
      forall k :: 0 <= k < |flags| ==> Positions(flags)[k] == k
    decreases |flags|
  {
    if flags != [] {
      var n := |flags| - 1;
      PositionsAll(flags[..n]);
      PositionsLength(flags[..n]);
      PositionsBounded(flags[..n]);
      if |Positions(flags)| == |flags| && !flags[n] {
        assert |Positions(flags[..n])| == n + 1;
        PositionsMembers(flags[..n], Positions(flags[..n])[n]);
        Pigeonhole(flags[..n]);
      }
    }
  }

  /** There are at most as many positions as flags. */
  lemma Pigeonhole(flags: seq<bool>)
    ensures |Positions(flags)| <= |flags|
  {
    PositionsLength(flags);
    CountTrueBounded(flags);
  }

  lemma {:induction false} CountTrueBounded(flags: seq<bool>)
    ensures CountTrue(flags) <= |flags|
    decreases |flags|
  {
    if flags != [] {
      CountTrueBounded(flags[..|flags| - 1]);
    }
  }

  /** The position of the first true flag, if any. */
  function FirstTrue(flags: seq<bool>): (r: Option<nat>)
    ensures r.Some? ==> r.value < |flags| && flags[r.value]
    ensures r.Some? ==> forall k :: 0 <= k < r.value ==> !flags[k]
    ensures r.None? <==> forall k :: 0 <= k < |flags| ==> !flags[k]
  {
    if flags == [] then None
    else if flags[0] then Some(0)
    else match FirstTrue(flags[1..])
      case None => None
      case Some(k) => Some(k + 1)
  }

  /** Where a loop that stops at the first true flag stops: there, or after the last entry. */
  function StopAt(flags: seq<bool>): (r: nat)
    ensures r <= |flags|
    ensures forall k :: 0 <= k < r ==> !flags[k]
    ensures r < |flags| <==> FirstTrue(flags).Some?
  {
    match FirstTrue(flags)
    case Some(k) => k
    case None => |flags|
  }
}
