/**
 * Segment boundary policy: from the seconds elapsed since the last send and the
 * accumulated silence, decide whether to cut a segment now and why.
 */
module ChunksizeCondition {
  import opened Wrappers

  /** The frozen configuration object. */
  const MinSeconds: int := 10
  const MaxSeconds: int := 30
  const RequiredSilenceMs: int := 2000
  const ChunkMs: int := 1000

  /** Why a segment is cut; `Label` gives the string the source logs and uploads. */
  datatype Trigger = MaxSecondsReached | MinSecondsAndSilence

  function Label(t: Trigger): (s: string)
    ensures s == "max-seconds" <==> t == MaxSecondsReached
    ensures s == "min-seconds-and-silence" <==> t == MinSecondsAndSilence
  {
    match t
    case MaxSecondsReached => "max-seconds"
    case MinSecondsAndSilence => "min-seconds-and-silence"
  }

  /** The reason label, or `None` (the source's `null`) when no cut is due. */
  function Reason(sinceSeconds: int, silentMs: int): (r: Option<Trigger>)
    ensures sinceSeconds >= MaxSeconds ==> r == Some(MaxSecondsReached)
    ensures sinceSeconds < MinSeconds ==> r == None
    ensures MinSeconds <= sinceSeconds < MaxSeconds ==>
      (r == Some(MinSecondsAndSilence) <==> silentMs >= RequiredSilenceMs) &&
      (r == None <==> silentMs < RequiredSilenceMs)
  {
    if sinceSeconds >= MaxSeconds then Some(MaxSecondsReached)
    else if sinceSeconds >= MinSeconds && silentMs >= RequiredSilenceMs then Some(MinSecondsAndSilence)
    else None
  }

  /** `Boolean(reason(...))`: a cut is due. */
  predicate ShouldSend(sinceSeconds: int, silentMs: int)
    ensures ShouldSend(sinceSeconds, silentMs) <==>
      sinceSeconds >= MaxSeconds || (sinceSeconds >= MinSeconds && silentMs >= RequiredSilenceMs)
  {
    Reason(sinceSeconds, silentMs).Some?
  }

  /** Both thresholds are reached exactly when `ShouldSend` holds, and then `Reason` is non-null. */
  lemma ShouldSendIffReason(sinceSeconds: int, silentMs: int)
    ensures ShouldSend(sinceSeconds, silentMs) <==> Reason(sinceSeconds, silentMs) != None
  {
  }

  /** Waiting longer or staying silent longer never withdraws a due cut. */
  lemma ShouldSendMonotonic(s: int, m: int, s': int, m': int)
    requires ShouldSend(s, m) && s <= s' && m <= m'
    ensures ShouldSend(s', m')
  {
  }

  /** The nine-second, the just-short-of-silence, the at-threshold and the max-duration cases. */
  lemma ConcreteDecisions()
    ensures !ShouldSend(0, 0)
    ensures !ShouldSend(9, 3000) && Reason(9, 5000) == None
    ensures !ShouldSend(10, 1999) && !ShouldSend(9, 2000)
    ensures ShouldSend(10, 2000) && Reason(10, 2000) == Some(MinSecondsAndSilence)
    ensures ShouldSend(15, 2500)
    ensures ShouldSend(30, 0) && Reason(30, 0) == Some(MaxSecondsReached)
    ensures Reason(30, 3000) == Some(MaxSecondsReached)
  {
  }

  /** The configuration's own invariant: a non-empty window of non-negative durations. */
  lemma ConfigurationWellFormed()
    ensures 0 <= MinSeconds < MaxSeconds
    ensures RequiredSilenceMs >= 0 && ChunkMs > 0
  {
  }
}
