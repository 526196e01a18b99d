/**
 * The two stream-id switches of MainActivity: the app's own stream indices
 * 0..4 against the host platform's stream constants.
 */
module StreamIds {

  /* App-internal stream indices */
  const INVALID_STREAM: int := -1
  const VOLUME_STREAM_RING_TONE: int := 0
  const VOLUME_STREAM_MUSIC: int := 1
  const VOLUME_STREAM_NOTIFICATIONS: int := 2
  const VOLUME_STREAM_SYSTEM_SOUNDS: int := 3
  const VOLUME_STREAM_VOICE_CALLS: int := 4
  const MAX_VOLUME_STREAMS: int := 5

  /* Host stream constants (the values Android's AudioManager publishes;
     the proofs only use that they are distinct and differ from INVALID_STREAM) */
  const STREAM_VOICE_CALL: int := 0
  const STREAM_SYSTEM: int := 1
  const STREAM_RING: int := 2
  const STREAM_MUSIC: int := 3
  const STREAM_NOTIFICATION: int := 5

  /** Every host stream id named above is below this bound. */
  const OS_STREAM_BOUND: int := 6

  /** An app-internal stream index. */
  predicate IsStream(s: int) {
    0 <= s < MAX_VOLUME_STREAMS
  }

  /** A host stream id that one of the five app streams stands for. */
  predicate Tracked(os: int) {
    os == STREAM_RING || os == STREAM_MUSIC || os == STREAM_NOTIFICATION ||
    os == STREAM_SYSTEM || os == STREAM_VOICE_CALL
  }

  /** getOSStreamID: music and every unrecognised index fall back to STREAM_MUSIC. */
  function OSStreamID(equalVolStreamID: int): (os: int)
    ensures Tracked(os) && 0 <= os < OS_STREAM_BOUND && os != INVALID_STREAM
  {
    if equalVolStreamID == VOLUME_STREAM_NOTIFICATIONS then STREAM_NOTIFICATION
    else if equalVolStreamID == VOLUME_STREAM_SYSTEM_SOUNDS then STREAM_SYSTEM
    else if equalVolStreamID == VOLUME_STREAM_VOICE_CALLS then STREAM_VOICE_CALL
    else if equalVolStreamID == VOLUME_STREAM_RING_TONE then STREAM_RING
    else STREAM_MUSIC
  }

  /**
   * getEqualVolumeStreamID. The result starts as VOLUME_STREAM_RING_TONE and
   * only the notification, system and voice-call cases overwrite it: music
   * and unrecognised ids break out at once, and the ring case assigns the
   * parameter instead of the result, which leaves the result at ring tone.
   */
  function EqualVolumeStreamID(osStreamID: int): (s: int)
    ensures IsStream(s)
  {
    var equalVolStreamID := VOLUME_STREAM_RING_TONE;
    if osStreamID == STREAM_NOTIFICATION then VOLUME_STREAM_NOTIFICATIONS
    else if osStreamID == STREAM_SYSTEM then VOLUME_STREAM_SYSTEM_SOUNDS
    else if osStreamID == STREAM_VOICE_CALL then VOLUME_STREAM_VOICE_CALLS
    else equalVolStreamID
  }

  /** The table getOSStreamID implements, fallback included. */
  lemma OSStreamIDTable(x: int)
    ensures x == VOLUME_STREAM_RING_TONE ==> OSStreamID(x) == STREAM_RING
    ensures x == VOLUME_STREAM_NOTIFICATIONS ==> OSStreamID(x) == STREAM_NOTIFICATION
    ensures x == VOLUME_STREAM_SYSTEM_SOUNDS ==> OSStreamID(x) == STREAM_SYSTEM
    ensures x == VOLUME_STREAM_VOICE_CALLS ==> OSStreamID(x) == STREAM_VOICE_CALL
    ensures x == VOLUME_STREAM_MUSIC || !IsStream(x) ==> OSStreamID(x) == STREAM_MUSIC
  {
  }

  /** The table getEqualVolumeStreamID implements: music, ring and unknown ids all give ring tone. */
  lemma EqualVolumeStreamIDTable(os: int)
    ensures os == STREAM_NOTIFICATION ==> EqualVolumeStreamID(os) == VOLUME_STREAM_NOTIFICATIONS
    ensures os == STREAM_SYSTEM ==> EqualVolumeStreamID(os) == VOLUME_STREAM_SYSTEM_SOUNDS
    ensures os == STREAM_VOICE_CALL ==> EqualVolumeStreamID(os) == VOLUME_STREAM_VOICE_CALLS
    ensures os == STREAM_MUSIC || os == STREAM_RING || !Tracked(os) ==>
              EqualVolumeStreamID(os) == VOLUME_STREAM_RING_TONE
  {
  }

  /** Distinct app streams go to distinct host streams. */
  lemma OSStreamIDInjective(s: int, t: int)
    requires IsStream(s) && IsStream(t) && OSStreamID(s) == OSStreamID(t)
    ensures s == t
  {
  }

  /** The five tracked host ids are exactly the images of the five app streams. */
  lemma TrackedIsImage(os: int)
    ensures Tracked(os) <==> exists s :: IsStream(s) && OSStreamID(s) == os
  {
    if os == STREAM_RING {
      assert OSStreamID(VOLUME_STREAM_RING_TONE) == os;
    } else if os == STREAM_MUSIC {
      assert OSStreamID(VOLUME_STREAM_MUSIC) == os;
    } else if os == STREAM_NOTIFICATION {
      assert OSStreamID(VOLUME_STREAM_NOTIFICATIONS) == os;
    } else if os == STREAM_SYSTEM {
      assert OSStreamID(VOLUME_STREAM_SYSTEM_SOUNDS) == os;
    } else if os == STREAM_VOICE_CALL {
      assert OSStreamID(VOLUME_STREAM_VOICE_CALLS) == os;
    }
  }

  /**
   * The round trip app id -> host id -> app id: the identity on every stream
   * except music, which comes back as ring tone.
   */
  lemma RoundTrip(s: int)
    requires IsStream(s)
    ensures EqualVolumeStreamID(OSStreamID(s)) == if s == VOLUME_STREAM_MUSIC then VOLUME_STREAM_RING_TONE else s
  {
  }

  /**
   * The other round trip, host id -> app id -> host id: the identity on the
   * tracked ids except music, which comes back as ring.
   */
  lemma ReverseRoundTrip(os: int)
    requires Tracked(os)
    ensures OSStreamID(EqualVolumeStreamID(os)) == if os == STREAM_MUSIC then STREAM_RING else os
  {
  }
}
