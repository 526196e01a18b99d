/**
 * The two classes that keep the five streams together: MainActivity holds
 * the per-stream maxima, adjust steps and checkbox states and does the
 * synchronisation; VolumeObserver keeps the snapshot of previous levels and
 * runs the poll. They call each other, so they share one module.
 */
module EqualVolume {
  import opened StreamIds
  import opened Host
  import opened SyncSpec

  class MainActivity {
    const host: AudioManager
    /** mStreamMaxVolumes */
    const maxVolumes: array<int>
    /** mAdjustSteps */
    const adjustSteps: array<int>
    /** The checkbox states, one per stream */
    const checkBoxes: array<bool>
    /** mVolumeObserver */
    const observer: VolumeObserver

    ghost predicate Valid()
      reads host.levels, host.maxima, maxVolumes, adjustSteps
    {
      host.Valid() && Wired()
    }

    /** The part of Valid() that holds whatever levels the host reports. */
    ghost predicate Wired()
      reads host.maxima, maxVolumes, adjustSteps
    {
      observer.host == host && observer.Wired() &&
      maxVolumes.Length == MAX_VOLUME_STREAMS &&
      adjustSteps.Length == MAX_VOLUME_STREAMS &&
      checkBoxes.Length == MAX_VOLUME_STREAMS &&
      maxVolumes != adjustSteps &&
      maxVolumes != host.levels && adjustSteps != host.levels &&
      maxVolumes != observer.previous && adjustSteps != observer.previous &&
      OS_STREAM_BOUND <= host.maxima.Length &&
      (forall s :: 0 <= s < MAX_VOLUME_STREAMS ==> maxVolumes[s] == host.maxima[OSStreamID(s)]) &&
      (forall s :: 0 <= s < MAX_VOLUME_STREAMS ==>
         adjustSteps[s] == if s == VOLUME_STREAM_MUSIC then 2 else 1)
    }

    /** The five streams' current host levels, by app stream index. */
    ghost function Levels(): (v: seq<int>)
      requires Valid()
      reads host.levels, host.maxima, maxVolumes, adjustSteps
      ensures InRange(v, maxVolumes[..])
    {
      StreamLevels(host.levels[..])
    }

    /** No host stream outside the five tracked ones differs between the two tables. */
    static ghost predicate UntrackedUnchanged(before: seq<int>, after: seq<int>) {
      |before| == |after| &&
      forall i :: 0 <= i < |before| && !Tracked(i) ==> after[i] == before[i]
    }

    /**
     * The stream setup of createEverything: every maximum is fetched from the
     * host for the stream's host id (twice, as the source does), every step
     * is 1 except music's 2, and every box is checked. Then the observer is
     * created, which takes its snapshot.
     */
    constructor (host: AudioManager)
      requires host.Valid()
      ensures Valid() && this.host == host
      ensures fresh(maxVolumes) && fresh(adjustSteps) && fresh(checkBoxes) && fresh(observer) && fresh(observer.previous)
      ensures forall s :: 0 <= s < MAX_VOLUME_STREAMS ==> checkBoxes[s]
      ensures forall s :: 0 <= s < MAX_VOLUME_STREAMS ==> 1 <= adjustSteps[s]
      ensures observer.previous[..] == Levels()
    {
      var maxv := new int[MAX_VOLUME_STREAMS];
      var steps := new int[MAX_VOLUME_STREAMS];
      var boxes := new bool[MAX_VOLUME_STREAMS];
      for streamID := VOLUME_STREAM_RING_TONE to MAX_VOLUME_STREAMS
        invariant forall s :: 0 <= s < streamID ==> maxv[s] == host.maxima[OSStreamID(s)]
        invariant forall s :: 0 <= s < streamID ==> steps[s] == if s == VOLUME_STREAM_MUSIC then 2 else 1
        invariant forall s :: 0 <= s < streamID ==> boxes[s]
      {
        maxv[streamID] := host.StreamMaxVolume(OSStreamID(streamID));
        steps[streamID] := 1;
        if streamID == VOLUME_STREAM_MUSIC {
          steps[streamID] := 2;
        }
        boxes[streamID] := true;
      }
      for streamID := VOLUME_STREAM_RING_TONE to MAX_VOLUME_STREAMS
        invariant forall s :: 0 <= s < MAX_VOLUME_STREAMS ==> maxv[s] == host.maxima[OSStreamID(s)]
        invariant forall s :: 0 <= s < MAX_VOLUME_STREAMS ==> steps[s] == if s == VOLUME_STREAM_MUSIC then 2 else 1
        invariant forall s :: 0 <= s < MAX_VOLUME_STREAMS ==> boxes[s]
      {
        maxv[streamID] := host.StreamMaxVolume(OSStreamID(streamID));
      }
      this.host := host;
      maxVolumes := maxv;
      adjustSteps := steps;
      checkBoxes := boxes;
      observer := new VolumeObserver(host);
    }

    /** The user ticks or clears stream s's checkbox. */
    method SetChecked(s: int, checked: bool)
      requires Valid() && IsStream(s)
      modifies checkBoxes
      ensures Valid()
      ensures checkBoxes[..] == old(checkBoxes[..])[s := checked]
    {
      checkBoxes[s] := checked;
    }

    /**
     * handleKeyPress: every checked stream other than the one the changed host
     * id maps to receives adjustSteps[s] unit adjustments in the key's direction.
     */
    method HandleKeyPress(volumeUp: bool, changedOSStreamID: int)
      requires Valid()
      modifies host, host.levels
      ensures Valid()
      ensures Levels() == KeyPressLevels(old(Levels()), maxVolumes[..], adjustSteps[..], checkBoxes[..],
                                         EqualVolumeStreamID(changedOSStreamID), volumeUp)
      ensures host.adjustLog == old(host.adjustLog) +
                KeyPressCalls(adjustSteps[..], checkBoxes[..], EqualVolumeStreamID(changedOSStreamID), volumeUp, MAX_VOLUME_STREAMS)
      ensures UntrackedUnchanged(old(host.levels[..]), host.levels[..])
    {
      var changedEqualVolumeStreamID := EqualVolumeStreamID(changedOSStreamID);
      ghost var steps := adjustSteps[..];
      ghost var checked := checkBoxes[..];
      ghost var before := Levels();
      ghost var target := KeyPressLevels(before, maxVolumes[..], steps, checked, changedEqualVolumeStreamID, volumeUp);
      ghost var log0 := host.adjustLog;
      for streamID := VOLUME_STREAM_RING_TONE to MAX_VOLUME_STREAMS
        invariant Valid()
        invariant forall t :: 0 <= t < MAX_VOLUME_STREAMS ==> Levels()[t] == if t < streamID then target[t] else before[t]
        invariant UntrackedUnchanged(old(host.levels[..]), host.levels[..])
        invariant host.adjustLog == log0 + KeyPressCalls(steps, checked, changedEqualVolumeStreamID, volumeUp, streamID)
      {
        ghost var done := Levels();
        ghost var logS := host.adjustLog;
        AdjustStream(streamID, volumeUp, changedEqualVolumeStreamID);
        assert Levels() == done[streamID := target[streamID]];
        assert host.adjustLog == log0 + KeyPressCalls(steps, checked, changedEqualVolumeStreamID, volumeUp, streamID + 1) by {
          var prefix := KeyPressCalls(steps, checked, changedEqualVolumeStreamID, volumeUp, streamID);
          var added := StreamCalls(steps, checked, changedEqualVolumeStreamID, volumeUp, streamID);
          assert host.adjustLog == logS + added;
          assert (log0 + prefix) + added == log0 + (prefix + added);
        }
      }
    }

    /**
     * The body of handleKeyPress's loop for stream s: when its box is checked
     * and it is not the skipped stream, adjustSteps[s] unit adjustments of its
     * host stream, all in the key's direction; otherwise nothing.
     */
    method AdjustStream(s: int, volumeUp: bool, skip: int)
      requires Valid() && IsStream(s)
      modifies host, host.levels
      ensures Valid()
      ensures Levels() == old(Levels())[s := if Adjusts(checkBoxes[..], skip, s)
                                              then AdjustedTimes(old(Levels())[s], maxVolumes[s], volumeUp, adjustSteps[s])
                                              else old(Levels())[s]]
      ensures UntrackedUnchanged(old(host.levels[..]), host.levels[..])
      ensures host.adjustLog == old(host.adjustLog) + StreamCalls(adjustSteps[..], checkBoxes[..], skip, volumeUp, s)
    {
      if checkBoxes[s] && s != skip {
        var os := OSStreamID(s);
        ghost var before := host.levels[..];
        for adjustStep := 1 to adjustSteps[s] + 1
          invariant Valid()
          invariant host.levels[..] == before[os := AdjustedTimes(before[os], host.maxima[os], volumeUp, adjustStep - 1)]
          invariant host.adjustLog == old(host.adjustLog) + Repeat(AdjustCall(os, volumeUp), adjustStep - 1)
        {
          host.AdjustStreamVolume(os, volumeUp);
          assert Repeat(AdjustCall(os, volumeUp), adjustStep) ==
                 Repeat(AdjustCall(os, volumeUp), adjustStep - 1) + [AdjustCall(os, volumeUp)];
        }
        StreamLevelsUpdate(before, s, host.levels[os]);
      } else {
        assert Levels() == old(Levels())[s := old(Levels())[s]];
      }
    }

    /**
     * checkForSentinelLevels: scans the checked streams for one at its maximum
     * or else at 0, then sets every checked stream to its maximum, or else to
     * 0. The returned signal stands for the toast shown.
     */
    method CheckForSentinelLevels() returns (signal: Sentinel)
      requires Valid()
      modifies host.levels
      ensures Valid()
      ensures signal == SentinelOf(old(Levels()), maxVolumes[..], checkBoxes[..])
      ensures Levels() == ClampedLevels(old(Levels()), maxVolumes[..], checkBoxes[..])
      ensures UntrackedUnchanged(old(host.levels[..]), host.levels[..])
    {
      ghost var before := Levels();
      ghost var maxima := maxVolumes[..];
      ghost var checked := checkBoxes[..];
      var anyStreamAtMax := false;
      var anyStreamAtMin := false;
      for streamID := VOLUME_STREAM_RING_TONE to MAX_VOLUME_STREAMS
        modifies {}
        invariant anyStreamAtMax == AtMaxBelow(before, maxima, checked, streamID)
        invariant anyStreamAtMin == AtMinBelow(before, maxima, checked, streamID)
      {
        var streamVolume := host.StreamVolume(OSStreamID(streamID));
        if checkBoxes[streamID] {
          if streamVolume == maxVolumes[streamID] {
            anyStreamAtMax := true;
          } else if streamVolume == 0 {
            anyStreamAtMin := true;
          }
        }
      }
      signal := NoSentinel;
      if anyStreamAtMin || anyStreamAtMax {
        if anyStreamAtMax {
          SetCheckedStreams(true);
          signal := Maximum;
        } else if anyStreamAtMin {
          SetCheckedStreams(false);
          signal := Minimum;
        }
      }
    }

    /**
     * The two write loops of checkForSentinelLevels, which differ only in the
     * level written: every checked stream is set to its maximum (toMax) or to 0.
     */
    method SetCheckedStreams(toMax: bool)
      requires Valid()
      modifies host.levels
      ensures Valid()
      ensures Levels() == ForcedLevels(old(Levels()), maxVolumes[..], checkBoxes[..], toMax)
      ensures UntrackedUnchanged(old(host.levels[..]), host.levels[..])
    {
      ghost var before := Levels();
      ghost var target := ForcedLevels(before, maxVolumes[..], checkBoxes[..], toMax);
      for streamID := VOLUME_STREAM_RING_TONE to MAX_VOLUME_STREAMS
        invariant Valid()
        invariant forall t :: 0 <= t < MAX_VOLUME_STREAMS ==> Levels()[t] == if t < streamID then target[t] else before[t]
        invariant UntrackedUnchanged(old(host.levels[..]), host.levels[..])
      {
        ghost var done := host.levels[..];
        ghost var doneLevels := Levels();
        if checkBoxes[streamID] {
          var level := if toMax then maxVolumes[streamID] else 0;
          host.SetStreamVolume(OSStreamID(streamID), level);
          StreamLevelsUpdate(done, streamID, level);
        }
        assert Levels() == doneLevels[streamID := target[streamID]];
      }
    }

    /**
     * handleVolumeChange: the key press, the sentinel check, and the
     * observer's re-snapshot of every stream.
     */
    method HandleVolumeChange(volumeUp: bool, changedOSStreamID: int)
      requires Valid()
      modifies host, host.levels, observer.previous
      ensures Valid()
      ensures Levels() == SyncedLevels(old(Levels()), maxVolumes[..], adjustSteps[..], checkBoxes[..],
                                       changedOSStreamID, volumeUp)
      ensures observer.previous[..] == Levels()
      ensures UntrackedUnchanged(old(host.levels[..]), host.levels[..])
      ensures host.adjustLog == old(host.adjustLog) +
                KeyPressCalls(adjustSteps[..], checkBoxes[..], EqualVolumeStreamID(changedOSStreamID), volumeUp, MAX_VOLUME_STREAMS)
    {
      HandleKeyPress(volumeUp, changedOSStreamID);
      var _ := CheckForSentinelLevels();
      observer.UpdatePreviousVolumes();
    }
  }

  class VolumeObserver {
    const host: AudioManager
    /** mPreviousStreamVolume: the snapshot, by app stream index */
    const previous: array<int>

    ghost predicate Valid()
      reads host.levels, host.maxima
    {
      host.Valid() && Wired()
    }

    /** The snapshot is its own array of five entries. */
    ghost predicate Wired() {
      previous.Length == MAX_VOLUME_STREAMS &&
      previous != host.levels && previous != host.maxima
    }

    /** The constructor's snapshot: entry s is the host level of stream s's host id. */
    constructor (host: AudioManager)
      requires host.Valid()
      ensures Valid() && this.host == host && fresh(previous)
      ensures previous[..] == StreamLevels(host.levels[..])
    {
      var prev := new int[MAX_VOLUME_STREAMS];
      for streamID := VOLUME_STREAM_RING_TONE to MAX_VOLUME_STREAMS
        invariant forall s :: 0 <= s < streamID ==> prev[s] == host.levels[OSStreamID(s)]
      {
        var osStreamID := OSStreamID(streamID);
        prev[streamID] := host.StreamVolume(osStreamID);
      }
      this.host := host;
      previous := prev;
    }

    /**
     * getChangedOSStreamID: scans the streams in index order and stops at the
     * first whose host level differs from its snapshot entry.
     */
    method GetChangedOSStreamID() returns (changedOSStreamID: int)
      requires Valid()
      ensures changedOSStreamID == INVALID_STREAM <==>
                forall s :: 0 <= s < MAX_VOLUME_STREAMS ==> host.levels[OSStreamID(s)] == previous[s]
      ensures changedOSStreamID != INVALID_STREAM ==>
                exists s :: 0 <= s < MAX_VOLUME_STREAMS && changedOSStreamID == OSStreamID(s) &&
                  host.levels[OSStreamID(s)] != previous[s] &&
                  forall t :: 0 <= t < s ==> host.levels[OSStreamID(t)] == previous[t]
      ensures changedOSStreamID == ChangedOSStreamID(StreamLevels(host.levels[..]), previous[..])
    {
      changedOSStreamID := INVALID_STREAM;
      var streamID := VOLUME_STREAM_RING_TONE;
      while streamID < MAX_VOLUME_STREAMS
        invariant 0 <= streamID <= MAX_VOLUME_STREAMS
        invariant changedOSStreamID == INVALID_STREAM
        invariant forall t :: 0 <= t < streamID ==> host.levels[OSStreamID(t)] == previous[t]
      {
        var osStreamID := OSStreamID(streamID);
        var currentStreamVolume := host.StreamVolume(osStreamID);
        if currentStreamVolume != previous[streamID] {
          changedOSStreamID := osStreamID;
          break;
        }
        streamID := streamID + 1;
      }
      ghost var cur := StreamLevels(host.levels[..]);
      if changedOSStreamID == INVALID_STREAM {
        assert cur == previous[..];
      } else {
        assert cur[streamID] != previous[..][streamID];
        assert forall t :: 0 <= t < streamID ==> cur[t] == previous[..][t];
        assert FirstChange(cur, previous[..]) == Some(streamID);
      }
    }

    /**
     * getChangedStreamDelta: current level minus the snapshot entry the host
     * id maps back to, and that entry (only) takes the current level.
     */
    method GetChangedStreamDelta(changedOSStreamID: int) returns (delta: int)
      requires Valid() && 0 <= changedOSStreamID < host.levels.Length
      modifies previous
      ensures Valid()
      ensures delta == host.levels[changedOSStreamID] - old(previous[EqualVolumeStreamID(changedOSStreamID)])
      ensures previous[..] == old(previous[..])[EqualVolumeStreamID(changedOSStreamID) := host.levels[changedOSStreamID]]
    {
      var streamID := EqualVolumeStreamID(changedOSStreamID);
      var currentStreamVolume := host.StreamVolume(changedOSStreamID);
      delta := currentStreamVolume - previous[streamID];
      previous[streamID] := currentStreamVolume;
    }

    /**
     * getChangedStreamDelta twice on one host id with no host change between:
     * the first call stores the current level, so the second delta is 0.
     */
    method DeltaTwice(changedOSStreamID: int) returns (first: int, second: int)
      requires Valid() && 0 <= changedOSStreamID < host.levels.Length
      modifies previous
      ensures Valid()
      ensures first == host.levels[changedOSStreamID] - old(previous[EqualVolumeStreamID(changedOSStreamID)])
      ensures second == 0
    {
      first := GetChangedStreamDelta(changedOSStreamID);
      second := GetChangedStreamDelta(changedOSStreamID);
    }

    /** updatePreviousVolumes: every snapshot entry takes its stream's current host level. */
    method UpdatePreviousVolumes()
      requires Valid()
      modifies previous
      ensures Valid()
      ensures previous[..] == StreamLevels(host.levels[..])
    {
      for streamID := VOLUME_STREAM_RING_TONE to MAX_VOLUME_STREAMS
        invariant forall s :: 0 <= s < streamID ==> previous[s] == host.levels[OSStreamID(s)]
      {
        var osStreamID := OSStreamID(streamID);
        var currentStreamVolume := host.StreamVolume(osStreamID);
        previous[streamID] := currentStreamVolume;
      }
    }

    /**
     * handleVolumeChange: the delta's sign picks the direction, delta > 0
     * being up and everything else, 0 included, down.
     */
    method HandleVolumeChange(changedOSStreamID: int, context: MainActivity)
      requires context.Valid() && context.observer == this && 0 <= changedOSStreamID < host.levels.Length
      modifies host, host.levels, previous
      ensures context.Valid()
      ensures context.Levels() ==
                SyncedLevels(old(context.Levels()), context.maxVolumes[..], context.adjustSteps[..],
                             context.checkBoxes[..], changedOSStreamID,
                             old(host.levels[changedOSStreamID]) - old(previous[EqualVolumeStreamID(changedOSStreamID)]) > 0)
      ensures previous[..] == context.Levels()
      ensures MainActivity.UntrackedUnchanged(old(host.levels[..]), host.levels[..])
      ensures host.adjustLog == old(host.adjustLog) +
                KeyPressCalls(context.adjustSteps[..], context.checkBoxes[..], EqualVolumeStreamID(changedOSStreamID),
                              old(host.levels[changedOSStreamID]) - old(previous[EqualVolumeStreamID(changedOSStreamID)]) > 0,
                              MAX_VOLUME_STREAMS)
    {
      var delta := GetChangedStreamDelta(changedOSStreamID);
      if delta > 0 {
        context.HandleVolumeChange(true, changedOSStreamID);
      } else if delta <= 0 {
        context.HandleVolumeChange(false, changedOSStreamID);
      }
    }

    /**
     * One run of the observer's poll: find the first changed stream and, if
     * there is one, synchronise on it. Rescheduling is left to the caller.
     */
    method Run(context: MainActivity)
      requires context.Valid() && context.observer == this
      modifies host, host.levels, previous
      ensures context.Valid()
      ensures context.Levels() ==
                PollLevels(old(context.Levels()), old(previous[..]), context.maxVolumes[..],
                           context.adjustSteps[..], context.checkBoxes[..])
      ensures previous[..] == context.Levels()
      ensures MainActivity.UntrackedUnchanged(old(host.levels[..]), host.levels[..])
      ensures host.adjustLog == old(host.adjustLog) +
                PollCalls(old(context.Levels()), old(previous[..]), context.adjustSteps[..], context.checkBoxes[..])
    {
      ghost var cur := context.Levels();
      ghost var prev := previous[..];
      var changedOSStreamID := GetChangedOSStreamID();
      if changedOSStreamID != INVALID_STREAM {
        var s := FirstChange(cur, prev).value;
        assert host.levels[changedOSStreamID] == cur[s];
        HandleVolumeChange(changedOSStreamID, context);
      }
    }

    /**
     * One poll followed by a scan with no host change in between: the scan
     * finds nothing, because the poll leaves the snapshot equal to the levels.
     */
    method RunThenScan(context: MainActivity) returns (changedOSStreamID: int)
      requires context.Valid() && context.observer == this
      modifies host, host.levels, previous
      ensures context.Valid()
      ensures changedOSStreamID == INVALID_STREAM
    {
      Run(context);
      changedOSStreamID := GetChangedOSStreamID();
    }
  }
}
