/**
 * The decisions `process_sample` and `perform_in_flight_analysis` make for
 * one sample, each as a pure function, with lemmas that say what the
 * decision means over a whole run of samples: the date-range filter and its
 * "writing" flag, the brake-pipe transitions, the stationary-run
 * suppression, the bounded window of recent samples and the two-state
 * event-of-interest machine.
 */
module Policies {
  import opened Wrappers

  // ---------------------------------------------------------------------
  // Date-range filter
  // ---------------------------------------------------------------------

  /** Not before the start and not after the end (both ends inclusive). */
  predicate InRange(epoch: int, start: int, end: int) {
    !(epoch < start || epoch > end)
  }

  /** Whether the sample is written, and the new value of the writing flag. */
  datatype Verdict = Verdict(accept: bool, writing: bool)

  /**
   * The filter of `process_sample`. With filtering off every sample is
   * written, epoch-year ones included, and the flag is left alone.
   */
  function FilterStep(filterDates: bool, epochAllowed: bool, writing: bool, isEpoch: bool, inRange: bool)
    : (v: Verdict)
    ensures !filterDates ==> v == Verdict(true, writing)
    ensures filterDates && isEpoch && (!epochAllowed || !writing) ==> v == Verdict(false, writing)
    ensures filterDates && !isEpoch && !inRange ==> v == Verdict(false, false)
    ensures filterDates && v.accept ==> v.writing
    ensures v.accept <==> !filterDates || (isEpoch && epochAllowed && writing) || (!isEpoch && inRange)
  {
    if !filterDates then Verdict(true, writing)
    else if isEpoch && !epochAllowed then Verdict(false, writing)
    else if isEpoch && !writing then Verdict(false, writing)
    else if !isEpoch && !inRange then Verdict(false, false)
    else Verdict(true, true)
  }

  /** What the filter looks at in one sample. */
  datatype Dated = Dated(isEpoch: bool, inRange: bool)

  /** The writing flag after filtering `recs` one by one, starting from `w0`. */
  function Writing(epochAllowed: bool, w0: bool, recs: seq<Dated>): bool {
    if recs == [] then w0
    else
      var r := recs[|recs| - 1];
      FilterStep(true, epochAllowed, Writing(epochAllowed, w0, recs[..|recs| - 1]), r.isEpoch, r.inRange).writing
  }

  /** Whether the `i`-th of `recs` is written. */
  predicate AcceptedAt(epochAllowed: bool, w0: bool, recs: seq<Dated>, i: nat)
    requires i < |recs|
  {
    FilterStep(true, epochAllowed, Writing(epochAllowed, w0, recs[..i]), recs[i].isEpoch, recs[i].inRange).accept
  }

  /** Whether the most recent non-epoch record of `recs` was in range (`w0` if there is none). */
  function LastNonEpochInRange(w0: bool, recs: seq<Dated>): bool {
    if recs == [] then w0
    else if !recs[|recs| - 1].isEpoch then recs[|recs| - 1].inRange
    else LastNonEpochInRange(w0, recs[..|recs| - 1])
  }

  /** The writing flag remembers whether the last non-epoch record was in range. */
  lemma {:induction false} WritingIsLastNonEpoch(epochAllowed: bool, w0: bool, recs: seq<Dated>)
    ensures Writing(epochAllowed, w0, recs) == LastNonEpochInRange(w0, recs)
  {
    if recs != [] {
      WritingIsLastNonEpoch(epochAllowed, w0, recs[..|recs| - 1]);
    }
  }

  /**
   * With filtering on, a non-epoch record is written exactly when it is in
   * range, and an epoch-year record exactly when epoch records are allowed
   * and the last non-epoch record before it was in range (or, before any,
   * when the flag started true).
   */
  lemma FilterReference(epochAllowed: bool, w0: bool, recs: seq<Dated>, i: nat)
    requires i < |recs|
    ensures AcceptedAt(epochAllowed, w0, recs, i)
        <==> ((!recs[i].isEpoch && recs[i].inRange)
              || (recs[i].isEpoch && epochAllowed && LastNonEpochInRange(w0, recs[..i])))
  {
    WritingIsLastNonEpoch(epochAllowed, w0, recs[..i]);
  }

  // ---------------------------------------------------------------------
  // Brake-pipe transitions
  // ---------------------------------------------------------------------

  datatype BpChange = Rise | Fall

  /** A brake-pipe annotation: 0 to positive (compressor start) or positive to 0. */
  function BpTransition(prev: int, cur: int): (r: Option<BpChange>)
    ensures r == Some(Rise) <==> prev == 0 && cur > 0
    ensures r == Some(Fall) <==> prev > 0 && cur == 0
  {
    if prev == 0 && cur > 0 then Some(Rise)
    else if prev > 0 && cur == 0 then Some(Fall)
    else None
  }

  // ---------------------------------------------------------------------
  // Stationary-run suppression
  // ---------------------------------------------------------------------

  /** The speed, current and throttle the suppression compares. */
  datatype Motion = Motion(speed: int, tmc: int, tp: string)

  predicate AtRest(m: Motion) {
    m.speed == 0 && m.tmc == 0 && m.tp == "ID"
  }

  /** A sample is hidden when suppression is on and it and the previous sample are at rest. */
  predicate Hide(suppress: bool, prev: Motion, cur: Motion) {
    suppress && AtRest(prev) && AtRest(cur)
  }

  /**
   * The run-exit test exactly as `process_sample` writes it: `and` binds
   * tighter than `or`, so the suppression setting guards only the speed
   * disjunct.
   */
  predicate ExitAsWritten(suppress: bool, prev: Motion, cur: Motion) {
    (suppress && cur.speed != 0 && prev.speed == 0)
    || (cur.tmc != 0 && prev.tmc == 0)
    || (cur.tp != "ID" && prev.tp == "ID")
  }

  /** The run-exit test with the setting guarding all three disjuncts. */
  predicate ExitIntended(suppress: bool, prev: Motion, cur: Motion) {
    suppress && ((cur.speed != 0 && prev.speed == 0)
                 || (cur.tmc != 0 && prev.tmc == 0)
                 || (cur.tp != "ID" && prev.tp == "ID"))
  }

  /**
   * One sample's effect on the stationary run: whether its row is hidden,
   * the run length afterwards, and the length of the run summarised now
   * (0 when there is no summary).
   */
  datatype RunOutcome = RunOutcome(hidden: bool, length: nat, summary: nat)

  /** The suppression step as written. */
  function RunStep(suppress: bool, length: nat, prev: Motion, cur: Motion): (r: RunOutcome)
    ensures r.hidden <==> suppress && AtRest(prev) && AtRest(cur)
    ensures r.length + r.summary == length + (if r.hidden then 1 else 0)
    ensures r.summary > 0 ==> r.length == 0 && !r.hidden
    ensures (length > 0 ==> suppress && AtRest(prev)) ==> (r.length > 0 ==> suppress && AtRest(cur))
  {
    var hidden := Hide(suppress, prev, cur);
    var grown := if hidden then length + 1 else length;
    if ExitAsWritten(suppress, prev, cur) then RunOutcome(hidden, 0, grown)
    else RunOutcome(hidden, grown, 0)
  }

  /** The suppression step with the intended exit test. */
  function RunStepIntended(suppress: bool, length: nat, prev: Motion, cur: Motion): RunOutcome {
    var hidden := Hide(suppress, prev, cur);
    var grown := if hidden then length + 1 else length;
    if ExitIntended(suppress, prev, cur) then RunOutcome(hidden, 0, grown)
    else RunOutcome(hidden, grown, 0)
  }

  /**
   * The precedence slip is harmless: as long as a run is open only while
   * suppression is on, the step as written and the intended step agree.
   */
  lemma PrecedenceSlipHarmless(suppress: bool, length: nat, prev: Motion, cur: Motion)
    requires length > 0 ==> suppress
    ensures RunStep(suppress, length, prev, cur) == RunStepIntended(suppress, length, prev, cur)
  {
    if suppress {
      assert ExitAsWritten(suppress, prev, cur) <==> ExitIntended(suppress, prev, cur);
    }
  }

  /** An open run is always closed by the first sample that is not at rest. */
  lemma RunEndsWhenMoving(suppress: bool, length: nat, prev: Motion, cur: Motion)
    requires length > 0 && suppress && AtRest(prev) && !AtRest(cur)
    ensures RunStep(suppress, length, prev, cur) == RunOutcome(false, 0, length)
  {
  }

  // ---------------------------------------------------------------------
  // Window of recent samples
  // ---------------------------------------------------------------------

  /** The last `n` elements of `xs` (all of them when there are fewer). */
  function LastN<T>(xs: seq<T>, n: nat): (r: seq<T>)
    ensures |r| <= n && |r| <= |xs|
    ensures |r| == if |xs| <= n then |xs| else n
    ensures r == xs[|xs| - |r|..]
  {
    if |xs| <= n then xs else xs[|xs| - n..]
  }

  /** `deque(maxlen=n).append(x)`: drop from the left to keep at most `n`. */
  function Push<T>(window: seq<T>, x: T, n: nat): (r: seq<T>)
    ensures |r| <= n
    ensures n > 0 ==> r != [] && r[|r| - 1] == x
    ensures n == 0 ==> r == []
  {
    LastN(window + [x], n)
  }

  /** A window kept by pushing holds the last `n` of everything pushed. */
  lemma PushKeepsLastN<T>(history: seq<T>, x: T, n: nat)
    ensures Push(LastN(history, n), x, n) == LastN(history + [x], n)
  {
    var w := LastN(history, n);
    var all := history + [x];
    assert w + [x] == all[|all| - |w| - 1..];
  }

  // ---------------------------------------------------------------------
  // Event-of-interest machine
  // ---------------------------------------------------------------------

  /** Outside an event: a sample at idle with current (at or above a non-zero threshold). */
  predicate Triggers(threshold: int, m: Motion) {
    m.tp == "ID" && !(threshold != 0 && m.tmc < threshold) && !(threshold == 0 && m.tmc == 0)
  }

  /** Inside an event: the throttle leaves idle or the current drops to zero. */
  predicate Closes(m: Motion) {
    m.tp != "ID" || m.tmc == 0
  }

  /** A trigger is never also a close when the threshold is not negative. */
  lemma TriggerKeepsOpen(threshold: int, m: Motion)
    requires threshold >= 0 && Triggers(threshold, m)
    ensures !Closes(m)
  {
  }

  /** The event flag after one sample. */
  function EventStep(threshold: int, open: bool, m: Motion): bool {
    if open then !Closes(m) else Triggers(threshold, m)
  }

  /** The event flag after the samples `ms`, starting closed. */
  function EventOpen(threshold: int, ms: seq<Motion>): bool {
    if ms == [] then false
    else EventStep(threshold, EventOpen(threshold, ms[..|ms| - 1]), ms[|ms| - 1])
  }

  /**
   * An event is open after `ms` exactly when some sample triggered it and no
   * later sample closed it.
   */
  lemma EventOpenReference(threshold: int, ms: seq<Motion>)
    requires threshold >= 0
    ensures EventOpen(threshold, ms)
        <==> exists j | 0 <= j < |ms| :: Triggers(threshold, ms[j])
               && forall k | j < k < |ms| :: !Closes(ms[k])
  {
    if EventOpen(threshold, ms) {
      var j := EventOpenWitness(threshold, ms);
    }
    if exists j | 0 <= j < |ms| :: Triggers(threshold, ms[j]) && forall k | j < k < |ms| :: !Closes(ms[k]) {
      var j :| 0 <= j < |ms| && Triggers(threshold, ms[j]) && forall k | j < k < |ms| :: !Closes(ms[k]);
      EventOpenFromWitness(threshold, ms, j);
    }
  }

  /** An open event has a sample that opened it and was never closed since. */
  lemma {:induction false} EventOpenWitness(threshold: int, ms: seq<Motion>) returns (j: nat)
    requires EventOpen(threshold, ms)
    ensures j < |ms| && Triggers(threshold, ms[j]) && forall k | j < k < |ms| :: !Closes(ms[k])
  {
    var p := ms[..|ms| - 1];
    if EventOpen(threshold, p) {
      j := EventOpenWitness(threshold, p);
      assert ms[j] == p[j];
      forall k | j < k < |ms|
        ensures !Closes(ms[k])
      {
        if k < |p| {
          assert ms[k] == p[k];
        }
      }
    } else {
      j := |ms| - 1;
    }
  }

  /** A trigger that nothing closed since leaves the event open. */
  lemma {:induction false} EventOpenFromWitness(threshold: int, ms: seq<Motion>, j: nat)
    requires threshold >= 0
    requires j < |ms| && Triggers(threshold, ms[j]) && forall k | j < k < |ms| :: !Closes(ms[k])
    ensures EventOpen(threshold, ms)
  {
    var p := ms[..|ms| - 1];
    if j == |ms| - 1 {
      TriggerKeepsOpen(threshold, ms[j]);
    } else {
      assert p[j] == ms[j];
      forall k | j < k < |p|
        ensures !Closes(p[k])
      {
        assert p[k] == ms[k];
      }
      EventOpenFromWitness(threshold, p, j);
    }
  }
}
