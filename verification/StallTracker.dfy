/** The sync stall detector against its definition over the history of samples. */
module StallTracker {
  import opened TxTypes

  type Time = nat

  /** Go's zero time, which the tracker reads as "no error run". */
  const ZERO_TIME: Time := 0
  const SYNC_STALL_AFTER := 180

  const SYNCED := "synced"

  datatype Sample = Sample(now: Time, height: nat, state: string)

  /** The successful samples, and the failures since the last of them. */
  datatype History = History(samples: seq<Sample>, failures: seq<Time>)

  predicate Ordered(ss: seq<Sample>) {
    forall i, j :: 0 <= i < j < |ss| ==> ss[i].now <= ss[j].now
  }

  /** Sample `i` starts a new stretch: the first one, a height change, or the first
      unsynced one after a synced one. */
  predicate Restarts(ss: seq<Sample>, i: nat)
    requires i < |ss|
  {
    || i == 0
    || ss[i].height != ss[i - 1].height
    || (ss[i].state != SYNCED && ss[i - 1].state == SYNCED)
  }

  function LastRestart(ss: seq<Sample>): (i: nat)
    requires ss != []
    ensures i < |ss| && Restarts(ss, i) && forall j :: i < j < |ss| ==> !Restarts(ss, j)
  {
    var n := |ss| - 1;
    if Restarts(ss, n) then n
    else
      var i := LastRestart(ss[..n]);
      assert forall j :: 0 <= j < n ==> Restarts(ss[..n], j) == Restarts(ss, j);
      i
  }

  /** A new sample either restarts the stretch or prolongs it. */
  lemma NextRestart(ss: seq<Sample>, s: Sample)
    ensures LastRestart(ss + [s]) ==
            if ss == [] || s.height != ss[|ss| - 1].height || (s.state != SYNCED && ss[|ss| - 1].state == SYNCED)
            then |ss| else LastRestart(ss)
  {
    assert (ss + [s])[..|ss|] == ss;
  }

  /** All samples from `i` on are unsynced, at one height. */
  predicate StuckFrom(ss: seq<Sample>, i: nat)
    requires i < |ss|
  {
    forall j :: i <= j < |ss| ==> ss[j].state != SYNCED && ss[j].height == ss[|ss| - 1].height
  }

  /** The definition: an unbroken run of unsynced samples at one height, ending now
      and spanning the window. */
  ghost predicate Stalled(ss: seq<Sample>) {
    exists i :: 0 <= i < |ss| && StuckFrom(ss, i) && ss[|ss| - 1].now - ss[i].now >= SYNC_STALL_AFTER
  }

  /** From the last restart on the height stands still, and if the last sample is
      unsynced so are all of them. */
  lemma {:induction false} StretchIsUniform(ss: seq<Sample>, j: nat)
    requires ss != [] && LastRestart(ss) <= j < |ss|
    ensures ss[j].height == ss[|ss| - 1].height
    ensures ss[|ss| - 1].state != SYNCED ==> ss[j].state != SYNCED
    decreases |ss| - j
  {
    if j + 1 < |ss| {
      assert !Restarts(ss, j + 1);
      StretchIsUniform(ss, j + 1);
    }
  }

  /** A stuck run never reaches back past a restart. */
  lemma NotStuckAcross(ss: seq<Sample>, i: nat, r: nat)
    requires i < r < |ss| && Restarts(ss, r)
    ensures !StuckFrom(ss, i)
  {
    var before, at := ss[r - 1], ss[r];
    assert before.height != at.height || before.state == SYNCED;
  }

  lemma StuckSinceRestart(ss: seq<Sample>)
    requires ss != [] && ss[|ss| - 1].state != SYNCED
    ensures StuckFrom(ss, LastRestart(ss))
  {
    var r, last := LastRestart(ss), ss[|ss| - 1];
    forall j | r <= j < |ss| ensures ss[j].state != SYNCED && ss[j].height == last.height { StretchIsUniform(ss, j); }
    hide LastRestart, Restarts;
  }

  lemma StuckMeansUnsynced(ss: seq<Sample>, i: nat)
    requires i < |ss| && StuckFrom(ss, i)
    ensures ss[|ss| - 1].state != SYNCED
  {}

  lemma InOrder(ss: seq<Sample>, i: nat, j: nat)
    requires Ordered(ss) && i <= j < |ss|
    ensures ss[i].now <= ss[j].now
  {}

  /** Measuring from the last restart decides the definition. */
  lemma StalledIffSinceRestart(ss: seq<Sample>)
    requires ss != [] && Ordered(ss)
    ensures
      var last := ss[|ss| - 1];
      Stalled(ss) <==> last.state != SYNCED && last.now - ss[LastRestart(ss)].now >= SYNC_STALL_AFTER
  {
    hide LastRestart, Restarts, StuckFrom, Ordered;
    var r, last := LastRestart(ss), ss[|ss| - 1];
    if Stalled(ss) {
      var i :| 0 <= i < |ss| && StuckFrom(ss, i) && last.now - ss[i].now >= SYNC_STALL_AFTER;
      StuckMeansUnsynced(ss, i);
      if i >= r { InOrder(ss, r, i); } else { NotStuckAcross(ss, i, r); }
    }
    if last.state != SYNCED { StuckSinceRestart(ss); }
  }

  /** When the current error run began, the zero time standing for no run. */
  function RunStart(failures: seq<Time>): Time {
    if failures == [] then ZERO_TIME
    else if RunStart(failures[..|failures| - 1]) != ZERO_TIME then RunStart(failures[..|failures| - 1])
    else failures[|failures| - 1]
  }

  /** On any clock that is past the zero time, a run begins at its first failure. */
  lemma {:induction false} RunStartsAtFirst(failures: seq<Time>)
    requires failures != [] && failures[0] != ZERO_TIME
    ensures RunStart(failures) == failures[0]
  {
    if |failures| > 1 { RunStartsAtFirst(failures[..|failures| - 1]); }
    else { assert failures[..0] == []; }
  }

  class Tracker {
    var baseline: bool
    var lastHeight: nat
    var lastAdvance: Time
    var lastState: string
    var firstErr: Time
    ghost var history: History

    /** The fields summarise the history. */
    ghost predicate Valid()
      reads this
    {
      var ss, ff := history.samples, history.failures;
      && (baseline <==> ss != [])
      && (ss == [] ==> lastState != SYNCED && ff == [])
      && (ss != [] ==>
            && lastHeight == ss[|ss| - 1].height && lastState == ss[|ss| - 1].state
            && lastAdvance == ss[LastRestart(ss)].now)
      && firstErr == RunStart(ff)
    }

    constructor ()
      ensures Valid() && history == History([], [])
    {
      baseline, lastHeight, lastAdvance, lastState, firstErr := false, 0, 0, "", ZERO_TIME;
      history := History([], []);
    }

    /** On a clock that does not run backwards, reports a stall exactly when the
        definition holds of the history so far. */
    method Observe(now: Time, height: nat, state: string) returns (stalled: bool)
      requires Valid()
      modifies this
      ensures Valid() && history == History(old(history.samples) + [Sample(now, height, state)], [])
      ensures Ordered(history.samples) ==> (stalled <==> Stalled(history.samples))
    {
      ghost var was := history.samples;
      ghost var ss := was + [Sample(now, height, state)];
      NextRestart(was, Sample(now, height, state));
      hide LastRestart, Restarts, Ordered, Stalled;
      firstErr := ZERO_TIME;
      if state != SYNCED && lastState == SYNCED {
        lastAdvance := now;
      }
      lastState := state;
      history := History(ss, []);
      if Ordered(ss) { StalledIffSinceRestart(ss); }
      if !baseline || height != lastHeight {
        baseline := true;
        lastHeight := height;
        lastAdvance := now;
        return false;
      }
      stalled := state != SYNCED && now - lastAdvance >= SYNC_STALL_AFTER;
    }

    /** Reports a stall exactly when there is a baseline and the error run this
        failure continues spans the window. */
    method ObserveError(now: Time) returns (stalled: bool)
      requires Valid()
      modifies this
      ensures Valid()
      ensures history == History(old(history.samples), if old(baseline) then old(history.failures) + [now] else [])
      ensures
        var start := RunStart(old(history.failures));
        stalled <==> old(baseline) && start != ZERO_TIME && now - start >= SYNC_STALL_AFTER
    {
      if !baseline { return false; }
      ghost var was := history.failures;
      assert (was + [now])[..|was|] == was;
      history := history.(failures := was + [now]);
      if firstErr == ZERO_TIME {
        firstErr := now;
        return false;
      }
      stalled := now - firstErr >= SYNC_STALL_AFTER;
    }
  }
}
