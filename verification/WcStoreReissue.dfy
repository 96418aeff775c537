/** The two ways to lose a record without answering its request, as concrete runs.  A
    dapp reissues a transfer under a new id, and answering the new id drops the record
    of the old one; or another session asks for the same transfer, is refused, and the
    user clears the record by local recovery.  The first request, redelivered, is then
    refused, or even offered for approval again, although its block was sent. */
module WcStoreReissue {
  import opened TxTypes
  import opened WcStore
  import opened WcStoreRuns
  import T = WcStoreTracking

  const FIRST := Key("session", 1)
  const SECOND := Key("session", 2)
  const FOREIGN := Key("other", 1)

  /** FIRST is looked up, prepared and shown. */
  lemma Shown(content: Key -> Intent) returns (r: Run, s: State)
    ensures Reaches(r, s)
    ensures s == Initial(content).(
                   request := Some(Request(3, FIRST, FIRST, Awaiting, 1, false, false, false)), next := 4,
                   delivered := {FIRST}, hold := Some(Hold(1, Some(FIRST))), counter := 1)
  {
    var s0 := Initial(content);
    var r0 := Run([s0], []);
    assert Reaches(r0, s0);
    hide Reaches;
    var s1 := s0.(actions := map[1 := Looking(FIRST, false, None)], next := 2, delivered := {FIRST});
    var r1 := Does(r0, s0, Arrive(FIRST), s1);
    var s2 := s1.(actions := map[1 := Looking(FIRST, false, Some(Nothing))]);
    var r2 := Replies(r1, s1, 1, Nothing, s2);
    var s3 := s2.(actions := map[1 := Preparing(FIRST, 2, None)], preparing := Some(Slot(2, FIRST, false, false)), next := 3);
    var r3 := Resumes(r2, s2, 1, true, s3);
    var s4 := s3.(actions := map[1 := Preparing(FIRST, 2, Some(Prepared(1)))], hold := Some(Hold(1, Some(FIRST))), counter := 1);
    var r4 := Replies(r3, s3, 1, Prepared(1), s4);
    s := s0.(request := Some(Request(3, FIRST, FIRST, Awaiting, 1, false, false, false)), next := 4,
             delivered := {FIRST}, hold := Some(Hold(1, Some(FIRST))), counter := 1);
    assert s4.actions - {1} == map[];
    r := Resumes(r4, s4, 1, true, s);
  }

  /** The user approves FIRST, and the backend latches it. */
  lemma Latched(content: Key -> Intent) returns (r: Run, s: State)
    ensures Reaches(r, s)
    ensures s == Initial(content).(
                   request := Some(Request(3, FIRST, FIRST, Publishing, 1, false, false, false)), next := 5,
                   actions := map[4 := Confirming(3, 1, FIRST, ConfirmStage.Latched(FIRST))],
                   delivered := {FIRST}, hold := Some(Hold(1, Some(FIRST))), counter := 1, latch := 1)
  {
    hide Reaches;
    var r0, s0 := Shown(content);
    var shown := s0.request.value.(status := Publishing);
    var s1 := s0.(request := Some(shown), actions := map[4 := Confirming(3, 1, FIRST, Called)], next := 5);
    var r1 := Does(r0, s0, Approve(false), s1);
    s := s1.(actions := map[4 := Confirming(3, 1, FIRST, ConfirmStage.Latched(FIRST))], latch := 1);
    r := Runs(r1, s1, 4, OutcomeUnknown, s);
  }

  /** FIRST is recorded and handed over, and the outcome is lost with the process. */
  lemma Published(content: Key -> Intent) returns (r: Run, s: State)
    ensures Reaches(r, s) && s == Initial(content).(journal := map[FIRST := false], past := NO_PAST.(handed := {FIRST}))
  {
    hide Reaches;
    var r2, s2 := Latched(content);
    var s3 := s2.(actions := map[4 := Confirming(3, 1, FIRST, Recorded(FIRST))], journal := map[FIRST := false]);
    var r3 := Runs(r2, s2, 4, OutcomeUnknown, s3);
    var s4 := s3.(actions := map[4 := Confirming(3, 1, FIRST, Replied(OutcomeUnknown))], latch := 0, hold := None, past := s3.past.(handed := {FIRST}));
    var r4 := Runs(r3, s3, 4, OutcomeUnknown, s4);
    s := Initial(content).(journal := map[FIRST := false], past := NO_PAST.(handed := {FIRST}));
    r := Does(r4, s4, Restart, s);
  }

  /** SECOND carries the same transfer and is shown the outcome of FIRST. */
  lemma Reissued(content: Key -> Intent) returns (r: Run, s: State)
    requires content(FIRST) == content(SECOND)
    ensures Reaches(r, s)
    ensures s == Initial(content).(
                   request := Some(Request(2, SECOND, FIRST, Unknown, 0, false, false, false)), next := 3,
                   delivered := {SECOND}, journal := map[FIRST := false], past := NO_PAST.(handed := {FIRST}))
  {
    hide Reaches;
    var r0, s0 := Published(content);
    var s1 := s0.(actions := map[1 := Looking(SECOND, false, None)], next := 2, delivered := {SECOND});
    var r1 := Does(r0, s0, Arrive(SECOND), s1);
    var s2 := s1.(actions := map[1 := Looking(SECOND, false, Some(Unsettled(FIRST)))]);
    var r2 := Replies(r1, s1, 1, Unsettled(FIRST), s2);
    assert s2.actions - {1} == map[];
    s := s2.(actions := map[], request := Some(Request(2, SECOND, FIRST, Unknown, 0, false, false, false)), next := 3);
    r := Resumes(r2, s2, 1, true, s);
  }

  /** SECOND is reconciled, given the result, and FIRST's record dropped. */
  lemma Answered(content: Key -> Intent) returns (r: Run, s: State)
    requires content(FIRST) == content(SECOND)
    ensures Reaches(r, s)
    ensures s == Initial(content).(
                   request := Some(Request(2, SECOND, FIRST, Notifying, 0, false, true, false)), next := 4,
                   actions := map[3 := Acking(SECOND, FIRST, true, None, true, Some(2))],
                   delivered := {SECOND}, past := NO_PAST.(handed := {FIRST}, droppedElsewhere := {FIRST}, results := {SECOND}))
  {
    hide Reaches;
    var r0, s0 := Reissued(content);
    var s1 := s0.(actions := map[3 := Reconciling(2, FIRST, None)], next := 4);
    var r1 := Does(r0, s0, Reconcile, s1);
    var s2 := s1.(actions := map[3 := Reconciling(2, FIRST, Some(true))], journal := map[FIRST := true]);
    var r2 := Runs(r1, s1, 3, ConfirmReply.Published, s2);
    var s3 := s2.(actions := map[3 := Informing(2, SECOND, FIRST)], request := Some(Request(2, SECOND, FIRST, Notifying, 0, false, true, false)));
    var r3 := Resumes(r2, s2, 3, true, s3);
    var s4 := s3.(actions := map[3 := Acking(SECOND, FIRST, false, None, true, Some(2))], past := s3.past.(results := {SECOND}));
    var r4 := Resumes(r3, s3, 3, true, s4);
    s := s4.(actions := map[3 := Acking(SECOND, FIRST, true, None, true, Some(2))], journal := map[], past := s4.past.(droppedElsewhere := {FIRST}));
    assert s4.journal - {FIRST} == map[];
    r := Runs(r4, s4, 3, ConfirmReply.Published, s);
  }

  /** FIRST, redelivered after the restart, is refused although its block was handed
      to a node: the record that would have answered it is gone. */
  lemma ReissueLosesTheFirstAnswer(content: Key -> Intent) returns (r: Run)
    requires content(FIRST) == content(SECOND)
    ensures ValidRun(r)
    ensures FIRST in Last(r).past.handed && FIRST in Last(r).past.errors && FIRST !in Last(r).past.results
  {
    hide Reaches;
    var r0, s0 := Answered(content);
    var ack := Acking(SECOND, FIRST, true, None, true, Some(2));
    var s1 := s0.(actions := map[3 := ack, 4 := Looking(FIRST, false, None)], next := 5, delivered := {FIRST, SECOND});
    var r1 := Does(r0, s0, Arrive(FIRST), s1);
    var s2 := s1.(actions := map[3 := ack, 4 := Looking(FIRST, false, Some(Nothing))]);
    var r2 := Replies(r1, s1, 4, Nothing, s2);
    var s3 := s2.(actions := map[3 := ack, 4 := Refusing(FIRST, None, None)]);
    var r3 := Resumes(r2, s2, 4, true, s3);
    var s4 := s3.(actions := map[3 := ack], past := s3.past.(errors := {FIRST}));
    assert s3.actions - {4} == s4.actions;
    r := Resumes(r3, s3, 4, true, s4);
    Unfold(r, s4);
  }

  // ---- Local recovery

  /** FOREIGN, of another session, carries the same transfer and is refused; FIRST is
      shown for local recovery. */
  lemma Surfaced(content: Key -> Intent) returns (r: Run, s: State)
    requires content(FIRST) == content(FOREIGN)
    ensures Reaches(r, s)
    ensures s == Initial(content).(
                   request := Some(Request(2, FIRST, FIRST, Unknown, 0, false, false, true)), next := 3,
                   delivered := {FOREIGN}, journal := map[FIRST := false], past := NO_PAST.(handed := {FIRST}, errors := {FOREIGN}))
  {
    hide Reaches;
    var r0, s0 := Published(content);
    var s1 := s0.(actions := map[1 := Looking(FOREIGN, false, None)], next := 2, delivered := {FOREIGN});
    var r1 := Does(r0, s0, Arrive(FOREIGN), s1);
    var s2 := s1.(actions := map[1 := Looking(FOREIGN, false, Some(Duplicate(FIRST)))]);
    var r2 := Replies(r1, s1, 1, Duplicate(FIRST), s2);
    var s3 := s2.(actions := map[1 := Refusing(FOREIGN, Some(FIRST), None)]);
    var r3 := Resumes(r2, s2, 1, true, s3);
    assert s3.actions - {1} == map[];
    s := s3.(actions := map[], request := Some(Request(2, FIRST, FIRST, Unknown, 0, false, false, true)), next := 3,
             past := s3.past.(errors := {FOREIGN}));
    r := Resumes(r3, s3, 1, true, s);
  }

  /** The user reconciles it. */
  lemma Recovered(content: Key -> Intent) returns (r: Run, s: State)
    requires content(FIRST) == content(FOREIGN)
    ensures Reaches(r, s)
    ensures s == Initial(content).(
                   request := Some(Request(2, FIRST, FIRST, Status.Recovered, 0, false, false, true)), next := 4,
                   delivered := {FOREIGN}, journal := map[FIRST := true], past := NO_PAST.(handed := {FIRST}, errors := {FOREIGN}))
  {
    hide Reaches;
    var r0, s0 := Surfaced(content);
    var s1 := s0.(actions := map[3 := Reconciling(2, FIRST, None)], next := 4);
    var r1 := Does(r0, s0, Reconcile, s1);
    var s2 := s1.(actions := map[3 := Reconciling(2, FIRST, Some(true))], journal := map[FIRST := true]);
    var r2 := Runs(r1, s1, 3, ConfirmReply.Published, s2);
    assert s2.actions - {3} == map[];
    s := s2.(actions := map[], request := Some(Request(2, FIRST, FIRST, Status.Recovered, 0, false, false, true)));
    r := Resumes(r2, s2, 3, true, s);
  }

  /** The user acknowledges the outcome, which drops the record. */
  lemma Cleared(content: Key -> Intent) returns (r: Run, s: State)
    requires content(FIRST) == content(FOREIGN)
    ensures Reaches(r, s)
    ensures s == Initial(content).(next := 5, delivered := {FOREIGN},
                                   past := NO_PAST.(handed := {FIRST}, droppedElsewhere := {FIRST}, errors := {FOREIGN}))
  {
    hide Reaches;
    var r0, s0 := Recovered(content);
    var s1 := s0.(actions := map[4 := Recovering(2, FIRST, None)], next := 5);
    var r1 := Does(r0, s0, Acknowledge, s1);
    var s2 := s1.(actions := map[4 := Recovering(2, FIRST, Some(true))], journal := map[],
                  past := s1.past.(droppedElsewhere := {FIRST}));
    assert s1.journal - {FIRST} == map[];
    var r2 := Runs(r1, s1, 4, ConfirmReply.Published, s2);
    assert s2.actions - {4} == map[];
    s := s2.(actions := map[], request := None);
    r := Resumes(r2, s2, 4, true, s);
  }

  /** FIRST is redelivered and looked up: nothing is known of it. */
  lemma Redelivered(content: Key -> Intent) returns (r: Run, s: State)
    requires content(FIRST) == content(FOREIGN)
    ensures Reaches(r, s)
    ensures s == Initial(content).(
                   actions := map[5 := Looking(FIRST, false, Some(Nothing))], next := 6,
                   delivered := {FOREIGN, FIRST}, past := NO_PAST.(handed := {FIRST}, droppedElsewhere := {FIRST}, errors := {FOREIGN}))
  {
    hide Reaches;
    var r0, s0 := Cleared(content);
    var s1 := s0.(actions := map[5 := Looking(FIRST, false, None)], next := 6, delivered := {FOREIGN, FIRST});
    var r1 := Does(r0, s0, Arrive(FIRST), s1);
    s := s1.(actions := map[5 := Looking(FIRST, false, Some(Nothing))]);
    r := Replies(r1, s1, 5, Nothing, s);
  }

  /** With local recovery no other request was answered, and FIRST is refused. */
  lemma RecoveryLosesTheFirstAnswer(content: Key -> Intent) returns (r: Run)
    requires content(FIRST) == content(FOREIGN)
    ensures ValidRun(r)
    ensures FIRST in Last(r).past.handed && FIRST in Last(r).past.errors && Last(r).past.results == {}
  {
    hide Reaches;
    var r0, s0 := Redelivered(content);
    var s1 := s0.(actions := map[5 := Refusing(FIRST, None, None)]);
    var r1 := Resumes(r0, s0, 5, false, s1);
    assert s1.actions - {5} == map[];
    var s2 := s1.(actions := map[], past := s1.past.(errors := {FOREIGN, FIRST}));
    r := Resumes(r1, s1, 5, true, s2);
    Unfold(r, s2);
  }

  /** With both slots free it is prepared afresh and offered for approval again. */
  lemma RecoveredIsOfferedAgain(content: Key -> Intent) returns (r: Run)
    requires content(FIRST) == content(FOREIGN)
    ensures ValidRun(r)
    ensures FIRST in Last(r).past.handed && Last(r).request.Some?
    ensures Last(r).request.value.key == FIRST && Last(r).request.value.status == Awaiting
  {
    hide Reaches;
    var r0, s0 := Redelivered(content);
    var s1 := s0.(actions := map[5 := Preparing(FIRST, 6, None)], preparing := Some(Slot(6, FIRST, false, false)), next := 7);
    var r1 := Resumes(r0, s0, 5, true, s1);
    var s2 := s1.(actions := map[5 := Preparing(FIRST, 6, Some(Prepared(1)))], hold := Some(Hold(1, Some(FIRST))), counter := 1);
    var r2 := Replies(r1, s1, 5, Prepared(1), s2);
    assert s2.actions - {5} == map[];
    var s3 := s2.(actions := map[], preparing := None, request := Some(Request(7, FIRST, FIRST, Awaiting, 1, false, false, false)), next := 8);
    r := Resumes(r2, s2, 5, true, s3);
    Unfold(r, s3);
  }

  // ---- A replay that makes way

  const OTHER := Key("third", 1)

  /** OTHER, an unrelated request, is being prepared. */
  lemma Busy(content: Key -> Intent) returns (r: Run, s: State)
    requires content(OTHER) != content(FIRST)
    ensures Reaches(r, s)
    ensures s == Initial(content).(
                   actions := map[1 := Preparing(OTHER, 2, None)], preparing := Some(Slot(2, OTHER, false, false)), next := 3,
                   delivered := {OTHER}, journal := map[FIRST := false], past := NO_PAST.(handed := {FIRST}))
  {
    hide Reaches;
    var r0, s0 := Published(content);
    var s1 := s0.(actions := map[1 := Looking(OTHER, false, None)], next := 2, delivered := {OTHER});
    var r1 := Does(r0, s0, Arrive(OTHER), s1);
    var s2 := s1.(actions := map[1 := Looking(OTHER, false, Some(Nothing))]);
    var r2 := Replies(r1, s1, 1, Nothing, s2);
    s := s2.(actions := map[1 := Preparing(OTHER, 2, None)], preparing := Some(Slot(2, OTHER, false, false)), next := 3);
    r := Resumes(r2, s2, 1, true, s);
  }

  /** FIRST is redelivered, found unsettled, and queued for its turn. */
  lemma QueuedBehind(content: Key -> Intent) returns (r: Run, s: State)
    requires content(OTHER) != content(FIRST)
    ensures Reaches(r, s)
    ensures s == Initial(content).(
                   actions := map[1 := Preparing(OTHER, 2, None)], preparing := Some(Slot(2, OTHER, false, false)), next := 4,
                   queue := [Replay(FIRST, FIRST, false, false)],
                   delivered := {OTHER, FIRST}, journal := map[FIRST := false], past := NO_PAST.(handed := {FIRST}))
  {
    hide Reaches;
    var other := Preparing(OTHER, 2, None);
    var r0, s0 := Busy(content);
    var s1 := s0.(actions := map[1 := other, 3 := Looking(FIRST, false, None)], next := 4, delivered := {OTHER, FIRST});
    var r1 := Does(r0, s0, Arrive(FIRST), s1);
    var s2 := s1.(actions := map[1 := other, 3 := Looking(FIRST, false, Some(Unsettled(FIRST)))]);
    var r2 := Replies(r1, s1, 3, Unsettled(FIRST), s2);
    s := s2.(actions := map[1 := other], queue := [Replay(FIRST, FIRST, false, false)]);
    assert s2.actions - {3} == s.actions;
    r := Resumes(r2, s2, 3, true, s);
  }

  /** Another session asks for the same transfer; it is to be refused. */
  lemma DuplicateFound(content: Key -> Intent) returns (r: Run, s: State)
    requires content(OTHER) != content(FIRST) && content(FIRST) == content(FOREIGN)
    ensures Reaches(r, s)
    ensures s == Initial(content).(
                   actions := map[1 := Preparing(OTHER, 2, None), 4 := Refusing(FOREIGN, Some(FIRST), None)],
                   preparing := Some(Slot(2, OTHER, false, false)), next := 5, queue := [Replay(FIRST, FIRST, false, false)],
                   delivered := {OTHER, FIRST, FOREIGN}, journal := map[FIRST := false], past := NO_PAST.(handed := {FIRST}))
  {
    hide Reaches;
    var other := Preparing(OTHER, 2, None);
    var r0, s0 := QueuedBehind(content);
    var s1 := s0.(actions := map[1 := other, 4 := Looking(FOREIGN, false, None)], next := 5, delivered := {OTHER, FIRST, FOREIGN});
    var r1 := Does(r0, s0, Arrive(FOREIGN), s1);
    var s2 := s1.(actions := map[1 := other, 4 := Looking(FOREIGN, false, Some(Duplicate(FIRST)))]);
    var r2 := Replies(r1, s1, 4, Duplicate(FIRST), s2);
    s := s2.(actions := map[1 := other, 4 := Refusing(FOREIGN, Some(FIRST), None)]);
    r := Resumes(r2, s2, 4, true, s);
  }

  /** After the refusal the entry for local recovery replaces the entry that owed FIRST
      its outcome, and nothing in the process will answer FIRST any more. */
  lemma RecoveryReplacesTheReplay(content: Key -> Intent) returns (r: Run, s: State)
    requires content(OTHER) != content(FIRST) && content(FIRST) == content(FOREIGN)
    ensures Reaches(r, s)
    ensures FIRST in s.delivered && FIRST in s.past.handed && !T.Tracked(s, FIRST)
  {
    hide Reaches, T.Tracked;
    var r0, s0 := DuplicateFound(content);
    s := s0.(actions := map[1 := Preparing(OTHER, 2, None)], queue := [Replay(FIRST, FIRST, false, true)], past := s0.past.(errors := {FOREIGN}));
    assert s0.actions - {4} == s.actions;
    assert Without(s0.queue, FIRST) == [];
    r := Resumes(r0, s0, 4, true, s);
    NobodyTracks(s);
  }

  lemma NobodyTracks(s: State)
    requires s.request.None? && s.actions == map[1 := Preparing(OTHER, 2, None)] && s.queue == [Replay(FIRST, FIRST, false, true)]
    requires FIRST !in s.past.errors && FIRST !in s.past.results
    ensures !T.Tracked(s, FIRST)
  {
  }
}
