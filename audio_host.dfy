/**
 * A small stand-in for the platform's AudioManager: a level and a maximum per
 * host stream id. Only the calls the synchroniser makes are modelled. Adjust
 * keeps a level within [0, max], which is the platform's documented behaviour
 * and not something the application itself enforces.
 */
module Host {
  import opened StreamIds

  /** One ADJUST_RAISE or ADJUST_LOWER step: one unit in that direction, stopping at 0 and at max. */
  function Adjusted(level: int, max: int, raise: bool): (r: int)
    requires 0 <= level <= max
    ensures 0 <= r <= max
    ensures raise ==> (r == level + 1 || r == level == max)
    ensures !raise ==> (r == level - 1 || r == level == 0)
  {
    if raise then (if level < max then level + 1 else level)
    else (if 0 < level then level - 1 else level)
  }

  /** The level after n single-unit adjustments in one direction. */
  function AdjustedTimes(level: int, max: int, raise: bool, n: nat): (r: int)
    requires 0 <= level <= max
    ensures 0 <= r <= max
  {
    if n == 0 then level else Adjusted(AdjustedTimes(level, max, raise, n - 1), max, raise)
  }

  function Min(a: int, b: int): int { if a <= b then a else b }
  function Max(a: int, b: int): int { if a <= b then b else a }

  /** n unit steps up saturate at max, n unit steps down saturate at 0. */
  lemma {:induction false} AdjustedTimesSaturates(level: int, max: int, raise: bool, n: nat)
    requires 0 <= level <= max
    ensures AdjustedTimes(level, max, raise, n) == if raise then Min(level + n, max) else Max(level - n, 0)
  {
    if n > 0 {
      AdjustedTimesSaturates(level, max, raise, n - 1);
    }
  }

  /** One recorded adjustStreamVolume call: which host stream, and whether it raised. */
  datatype AdjustCall = AdjustCall(stream: int, raise: bool)

  class AudioManager {
    /** Current level per host stream id */
    const levels: array<int>
    /** Maximum level per host stream id; the host never changes it */
    const maxima: array<int>
    /** Every adjust call made so far, oldest first (an observation device for the proofs) */
    ghost var adjustLog: seq<AdjustCall>

    ghost predicate Valid()
      reads levels, maxima
    {
      levels != maxima &&
      levels.Length == maxima.Length &&
      OS_STREAM_BOUND <= levels.Length &&
      forall i :: 0 <= i < levels.Length ==> 0 <= levels[i] <= maxima[i]
    }

    constructor (initial: seq<int>, max: seq<int>)
      requires |initial| == |max| && OS_STREAM_BOUND <= |initial|
      requires forall i :: 0 <= i < |initial| ==> 0 <= initial[i] <= max[i]
      ensures Valid() && fresh(levels) && fresh(maxima)
      ensures levels[..] == initial && maxima[..] == max && adjustLog == []
    {
      levels := new int[|initial|](i requires 0 <= i < |initial| => initial[i]);
      maxima := new int[|max|](i requires 0 <= i < |max| => max[i]);
      adjustLog := [];
    }

    /** getStreamVolume */
    function StreamVolume(os: int): int
      requires 0 <= os < levels.Length
      reads levels
    {
      levels[os]
    }

    /** getStreamMaxVolume */
    function StreamMaxVolume(os: int): int
      requires 0 <= os < maxima.Length
      reads maxima
    {
      maxima[os]
    }

    /** setStreamVolume: writes one level and nothing else. */
    method SetStreamVolume(os: int, index: int)
      requires Valid() && 0 <= os < levels.Length && 0 <= index <= maxima[os]
      modifies levels
      ensures Valid()
      ensures levels[..] == old(levels[..])[os := index]
    {
      levels[os] := index;
    }

    /** adjustStreamVolume: moves one level by one unit within [0, max] and records the call. */
    method AdjustStreamVolume(os: int, raise: bool)
      requires Valid() && 0 <= os < levels.Length
      modifies this, levels
      ensures Valid()
      ensures levels[..] == old(levels[..])[os := Adjusted(old(levels[os]), maxima[os], raise)]
      ensures adjustLog == old(adjustLog) + [AdjustCall(os, raise)]
    {
      levels[os] := Adjusted(levels[os], maxima[os], raise);
      adjustLog := adjustLog + [AdjustCall(os, raise)];
    }
  }
}
