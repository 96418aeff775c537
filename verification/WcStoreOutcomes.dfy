/** What becomes of a request: undisturbed, it is offered, published once, answered and
    forgotten; rejected or withdrawn, it is answered. */
module WcStoreOutcomes {
  import opened TxTypes
  import opened WcStore
  import opened WcStoreRuns
  import S = WcStoreSlots
  import H = WcStoreHolds
  import T = WcStoreTracking

  // ---- Undisturbed

  /** The store is free, and nothing is known of the request or its transfer. */
  ghost predicate Fresh(s: State, key: Key) {
    && Free(s) && s.queue == [] && s.hold.None? && s.next !in s.actions && s.next + 3 !in s.actions
    && key !in s.delivered && key !in s.past.errors && key !in s.past.results
    && key !in s.journal && forall o :: !SameIntent(s, o, key)
  }

  lemma SameJournal(s: State, u: State, key: Key)
    requires u.journal == s.journal && u.content == s.content && forall o :: !SameIntent(s, o, key)
    ensures forall o :: !SameIntent(u, o, key)
  {
    forall o ensures !SameIntent(u, o, key) { assert !SameIntent(s, o, key); }
  }

  /** The request is looked up, prepared, and shown for approval with its own hold. */
  lemma IsOffered(r: Run, s: State, key: Key) returns (r': Run, s': State)
    requires Reaches(r, s) && Fresh(s, key)
    ensures Reaches(r', s')
    ensures s' == s.(request := Some(Request(s.next + 2, key, key, Awaiting, s.counter + 1, false, false, false)), next := s.next + 3,
                     delivered := s.delivered + {key}, hold := Some(Hold(s.counter + 1, Some(key))), counter := s.counter + 1)
  {
    hide Reaches;
    var tid, token, hold := s.next, s.next + 1, s.counter + 1;
    s' := s.(actions := s.actions[tid := Looking(key, false, None)], next := s.next + 1, delivered := s.delivered + {key});
    r' := Does(r, s, Arrive(key), s');
    SameJournal(s, s', key);
    var t := s'.(actions := s.actions[tid := Looking(key, false, Some(Nothing))]);
    r' := Replies(r', s', tid, Nothing, t);
    s' := t.(actions := s.actions[tid := Preparing(key, token, None)], preparing := Some(Slot(token, key, false, false)), next := s.next + 2);
    r' := Resumes(r', t, tid, true, s');
    SameJournal(s, s', key);
    r', s' := IsPrepared(r', s', s, tid, token, key);
  }

  lemma IsPrepared(r: Run, s: State, s0: State, tid: nat, token: nat, key: Key) returns (r': Run, s': State)
    requires Reaches(r, s) && Free(s0) && s0.hold.None? && s0.queue == [] && tid == s0.next && tid !in s0.actions && token == tid + 1
    requires s == s0.(actions := s0.actions[tid := Preparing(key, token, None)], preparing := Some(Slot(token, key, false, false)),
                      next := s0.next + 2, delivered := s0.delivered + {key})
    requires key !in s.journal && forall o :: !SameIntent(s, o, key)
    ensures Reaches(r', s')
    ensures s' == s0.(request := Some(Request(s0.next + 2, key, key, Awaiting, s0.counter + 1, false, false, false)), next := s0.next + 3,
                      delivered := s0.delivered + {key}, hold := Some(Hold(s0.counter + 1, Some(key))), counter := s0.counter + 1)
  {
    hide Reaches;
    var hold := s0.counter + 1;
    var t := s.(actions := s0.actions[tid := Preparing(key, token, Some(Prepared(hold)))], hold := Some(Hold(hold, Some(key))), counter := hold);
    r' := Replies(r, s, tid, Prepared(hold), t);
    assert t.actions - {tid} == s0.actions;
    s' := s0.(request := Some(Request(s0.next + 2, key, key, Awaiting, hold, false, false, false)), next := s0.next + 3,
              delivered := s0.delivered + {key}, hold := Some(Hold(hold, Some(key))), counter := hold);
    r' := Resumes(r', t, tid, true, s');
  }

  /** Shown with its hold and nothing else in the way. */
  predicate Offered(s: State, serial: nat, key: Key, hold: nat) {
    && s.request == Some(Request(serial, key, key, Awaiting, hold, false, false, false)) && s.preparing.None?
    && s.hold == Some(Hold(hold, Some(key))) && s.queue == [] && s.next !in s.actions && key !in s.journal
  }

  /** Approved, it is latched, recorded, broadcast, and marked; the hold is gone. */
  lemma IsPublished(r: Run, s: State, serial: nat, key: Key, hold: nat) returns (r': Run, s': State)
    requires Reaches(r, s) && Offered(s, serial, key, hold)
    ensures Reaches(r', s')
    ensures s' == s.(request := Some(Request(serial, key, key, Publishing, hold, false, false, false)), next := s.next + 1,
                     actions := s.actions[s.next := Confirming(serial, hold, key, Replied(ConfirmReply.Published))],
                     hold := None, latch := 0, journal := s.journal[key := true], past := s.past.(handed := s.past.handed + {key}))
  {
    hide Reaches;
    r', s' := IsLatched(r, s, serial, key, hold);
    r', s' := IsHanded(r', s', s.actions, s.next, serial, key, hold);
    assert s'.journal == s.journal[key := true];
  }

  lemma IsLatched(r: Run, s: State, serial: nat, key: Key, hold: nat) returns (r': Run, s': State)
    requires Reaches(r, s) && Offered(s, serial, key, hold)
    ensures Reaches(r', s')
    ensures s' == s.(request := Some(Request(serial, key, key, Publishing, hold, false, false, false)), next := s.next + 1, latch := hold,
                     actions := s.actions[s.next := Confirming(serial, hold, key, ConfirmStage.Latched(key))])
  {
    hide Reaches;
    var tid := s.next;
    var shown := Request(serial, key, key, Publishing, hold, false, false, false);
    var t := s.(request := Some(shown), next := s.next + 1, actions := s.actions[tid := Confirming(serial, hold, key, Called)]);
    r' := Does(r, s, Approve(false), t);
    s' := t.(actions := s.actions[tid := Confirming(serial, hold, key, ConfirmStage.Latched(key))], latch := hold);
    r' := Runs(r', t, tid, ConfirmReply.Published, s');
  }

  lemma IsHanded(r: Run, s: State, actions: map<nat, Action>, tid: nat, serial: nat, key: Key, hold: nat) returns (r': Run, s': State)
    requires Reaches(r, s) && s.hold == Some(Hold(hold, Some(key)))
    requires s.actions == actions[tid := Confirming(serial, hold, key, ConfirmStage.Latched(key))]
    ensures Reaches(r', s')
    ensures s' == s.(actions := actions[tid := Confirming(serial, hold, key, Replied(ConfirmReply.Published))], latch := 0, hold := None,
                     journal := s.journal[key := true], past := s.past.(handed := s.past.handed + {key}))
  {
    hide Reaches;
    var t := s.(actions := actions[tid := Confirming(serial, hold, key, Recorded(key))], journal := s.journal[key := false]);
    r' := Runs(r, s, tid, ConfirmReply.Published, t);
    s' := t.(actions := actions[tid := Confirming(serial, hold, key, Replied(ConfirmReply.Published))], latch := 0, hold := None,
             journal := s.journal[key := true], past := s.past.(handed := s.past.handed + {key}));
    r' := Runs(r', t, tid, ConfirmReply.Published, s');
  }

  /** Published, it is answered with its result, its record is dropped, and the modal
      closes. */
  lemma IsAnswered(r: Run, s: State, s0: State, serial: nat, key: Key, hold: nat, tid: nat) returns (r': Run, s': State)
    requires Reaches(r, s) && tid !in s0.actions && s.preparing.None? && s.queue == [] && key !in s0.journal
    requires s.actions == s0.actions[tid := Confirming(serial, hold, key, Replied(ConfirmReply.Published))] && s.journal == s0.journal[key := true]
    requires s.request == Some(Request(serial, key, key, Publishing, hold, false, false, false))
    ensures Reaches(r', s')
    ensures s' == s.(request := None, actions := s0.actions, journal := s0.journal, past := s.past.(results := s.past.results + {key}))
  {
    hide Reaches;
    r', s' := IsTold(r, s, s0.actions, serial, key, hold, tid);
    assert s'.journal - {key} == s0.journal;
    r', s' := IsForgotten(r', s', s0.actions, serial, key, tid);
  }

  lemma IsTold(r: Run, s: State, actions: map<nat, Action>, serial: nat, key: Key, hold: nat, tid: nat) returns (r': Run, s': State)
    requires Reaches(r, s) && s.actions == actions[tid := Confirming(serial, hold, key, Replied(ConfirmReply.Published))]
    requires s.request == Some(Request(serial, key, key, Publishing, hold, false, false, false))
    ensures Reaches(r', s')
    ensures s' == s.(request := Some(Request(serial, key, key, Notifying, hold, false, true, false)),
                     actions := actions[tid := Acking(key, key, false, None, true, Some(serial))], past := s.past.(results := s.past.results + {key}))
  {
    hide Reaches;
    var told := Request(serial, key, key, Notifying, hold, false, true, false);
    var t := s.(request := Some(told), actions := actions[tid := Informing(serial, key, key)]);
    r' := Resumes(r, s, tid, true, t);
    s' := t.(actions := actions[tid := Acking(key, key, false, None, true, Some(serial))], past := s.past.(results := s.past.results + {key}));
    r' := Resumes(r', t, tid, true, s');
  }

  lemma IsForgotten(r: Run, s: State, actions: map<nat, Action>, serial: nat, key: Key, tid: nat) returns (r': Run, s': State)
    requires Reaches(r, s) && tid !in actions && s.queue == [] && Droppable(s, key) && Shows(s, serial)
    requires s.actions == actions[tid := Acking(key, key, false, None, true, Some(serial))]
    ensures Reaches(r', s')
    ensures s' == s.(request := None, actions := actions, journal := s.journal - {key})
  {
    hide Reaches;
    var t := s.(actions := actions[tid := Acking(key, key, true, None, true, Some(serial))], journal := s.journal - {key});
    r' := Runs(r, s, tid, ConfirmReply.Published, t);
    assert t.actions - {tid} == actions;
    s' := t.(request := None, actions := actions);
    r' := Resumes(r', t, tid, true, s');
  }

  lemma FreeIsUnlatched(r: Run, s: State)
    requires Reaches(r, s) && Free(s)
    ensures s.latch == 0 && forall tid :: tid in s.actions ==> tid < s.next
  {
    H.RunKeeps(r, |r.states| - 1);
    S.Facts(s);
    if s.latch != 0 {
      var tid :| tid in s.actions && H.InBackend(s.actions[tid], s.latch);
      S.ActionFacts(s, tid);
    }
  }

  /** A request that arrives at a free store and is approved gets exactly one block to a
      node and exactly one result to its dapp; afterwards no record, hold, slot or
      action is left of it, and everything else is as it was. */
  lemma UndisturbedRequestIsSettled(r: Run, s: State, key: Key) returns (r': Run, s': State)
    requires Reaches(r, s) && Free(s) && s.queue == [] && s.hold.None?
    requires key !in s.delivered && key !in s.past.errors && key !in s.past.results && key !in s.journal
    requires forall o :: !SameIntent(s, o, key)
    ensures Reaches(r', s')
    ensures s' == s.(next := s'.next, delivered := s.delivered + {key}, counter := s.counter + 1,
                     past := s.past.(handed := s.past.handed + {key}, results := s.past.results + {key}))
  {
    hide Reaches, SameIntent;
    FreeIsUnlatched(r, s);
    var t;
    r', t := IsOffered(r, s, key);
    r', s' := IsPublished(r', t, s.next + 2, key, s.counter + 1);
    r', s' := IsAnswered(r', s', s, s.next + 2, key, s.counter + 1, s.next + 3);
  }

  // ---- Withdrawn

  /** The request is on its way to its error: its hold is being cancelled, or its
      response sent. */
  predicate OnItsWay(s: State, tid: nat, hold: nat, k: Key) {
    tid in s.actions &&
    (s.actions[tid] == Cancelling(hold, false, Some(k), None, None) || s.actions[tid] == Cancelling(hold, true, Some(k), None, None) ||
     s.actions[tid] == Answering(k, None))
  }

  /** Other actions of the store leave this one alone. */
  lemma ResumeFrame(s: State, tid: nat, ok: bool, sent: bool, x: nat)
    requires tid in s.actions && Returned(s.actions[tid]) && x in s.actions && x != tid
    requires forall a :: a in s.actions ==> a < s.next
    ensures var u := StepResume(s, tid, ok, sent); x in u.actions && u.actions[x] == s.actions[x]
  {
    var t := s.actions[tid];
    if t.Confirming? || t.Informing? || t.Reconciling? || t.Recovering? {
      FollowerFrame(s, tid, ok, sent, x);
    } else if t.Refusing? || t.Answering? || t.Cancelling? || t.Acking? {
      AnswerFrame(s, tid, ok, sent, x);
    } else {
      LookupFrame(s, tid, ok, sent, x);
    }
    hide StepResume;
  }

  lemma FinishFrame(s: State, slot: Option<nat>, drain: bool, x: nat)
    requires x in s.actions && x < s.next
    ensures
      var u := Finish(s, slot, drain);
      x in u.actions && u.actions[x] == s.actions[x] && x in Drain(s).actions && Drain(s).actions[x] == s.actions[x]
  {}

  lemma LookupFrame(s: State, tid: nat, ok: bool, sent: bool, x: nat)
    requires tid in s.actions && Returned(s.actions[tid]) && x in s.actions && x != tid && x < s.next
    requires s.actions[tid].Looking? || s.actions[tid].Retrying? || s.actions[tid].Preparing? || s.actions[tid].Delivering?
    ensures var u := StepResume(s, tid, ok, sent); x in u.actions && u.actions[x] == s.actions[x]
  {
    hide Finish, Drain, Without, AfterRefusal, AfterCancel, AfterAnswer, AfterConfirm, AfterInforming, AfterReconcile, AfterRecovery;
    forall s: State, slot: Option<nat>, drain | x in s.actions && x < s.next
      ensures x in Finish(s, slot, drain).actions && Finish(s, slot, drain).actions[x] == s.actions[x]
    {
      FinishFrame(s, slot, drain, x);
    }
  }

  lemma AnswerFrame(s: State, tid: nat, ok: bool, sent: bool, x: nat)
    requires tid in s.actions && Returned(s.actions[tid]) && x in s.actions && x != tid && x < s.next
    requires s.actions[tid].Refusing? || s.actions[tid].Answering? || s.actions[tid].Cancelling? || s.actions[tid].Acking?
    ensures var u := StepResume(s, tid, ok, sent); x in u.actions && u.actions[x] == s.actions[x]
  {
    hide Finish, Drain, Without, AfterLookup, AfterPrepare, AfterDelivery, AfterConfirm, AfterInforming, AfterReconcile, AfterRecovery;
    forall s: State, slot: Option<nat>, drain | x in s.actions && x < s.next
      ensures x in Finish(s, slot, drain).actions && Finish(s, slot, drain).actions[x] == s.actions[x]
    {
      FinishFrame(s, slot, drain, x);
    }
  }

  lemma FollowerFrame(s: State, tid: nat, ok: bool, sent: bool, x: nat)
    requires tid in s.actions && Returned(s.actions[tid]) && x in s.actions && x != tid && x < s.next
    requires s.actions[tid].Confirming? || s.actions[tid].Informing? || s.actions[tid].Reconciling? || s.actions[tid].Recovering?
    ensures var u := StepResume(s, tid, ok, sent); x in u.actions && u.actions[x] == s.actions[x]
  {
    if s.actions[tid].Recovering? {
      FinishFrame(Dismiss(Drop(s, tid), Some(s.actions[tid].serial)), None, true, x);
      hide Drain, Finish, Without, AfterLookup, AfterPrepare, AfterDelivery, AfterRefusal, AfterCancel, AfterAnswer, AfterConfirm,
           AfterInforming, AfterReconcile;
    } else {
      hide Drain, Finish, Without, AfterLookup, AfterPrepare, AfterDelivery, AfterRefusal, AfterCancel, AfterAnswer, AfterRecovery;
    }
  }

  lemma BackendFrame(s: State, tid: nat, ok: bool, marked: bool, reply: ConfirmReply, x: nat)
    requires tid in s.actions && x in s.actions && x != tid
    ensures var u := StepBackend(s, tid, ok, marked, reply); x in u.actions && u.actions[x] == s.actions[x]
  {
    hide StepBackend;
    T.BackendLeaves(s, tid, ok, marked, reply);
  }

  /** The cancellation runs, returns, and becomes the response; the response goes out. */
  lemma OwnStep(s: State, e: Event, tid: nat, hold: nat, k: Key)
    requires OnItsWay(s, tid, hold, k) && Enabled(s, e)
    requires (e.Resume? || e.Backend? || e.Answer?) && e.tid == tid && e != Resume(tid, false, false)
    ensures OnItsWay(Next(s, e), tid, hold, k) || k in Next(s, e).past.errors
  {
    hide Finds, Finish, AfterLookup, AfterPrepare, AfterDelivery, AfterConfirm, AfterInforming, AfterReconcile, AfterRecovery, AfterRefusal;
  }

  lemma OtherStep(s: State, e: Event, tid: nat, hold: nat, k: Key)
    requires S.SlotInv(s) && OnItsWay(s, tid, hold, k) && Enabled(s, e) && !e.Restart?
    requires !((e.Resume? || e.Backend? || e.Answer?) && e.tid == tid)
    ensures OnItsWay(Next(s, e), tid, hold, k)
  {
    hide S.SlotInv, Finds;
    S.Facts(s);
    if e.Resume? {
      hide StepResume;
      ResumeFrame(s, e.tid, e.ok, e.ok || e.stray, tid);
    } else if e.Backend? {
      hide StepBackend;
      BackendFrame(s, e.tid, e.ok, e.marked, e.outcome, tid);
    } else {
      StoreFrame(s, e, tid);
      hide Next, Enabled;
    }
  }

  lemma StoreFrame(s: State, e: Event, x: nat)
    requires Enabled(s, e) && !e.Restart? && !e.Resume? && !e.Backend? && x in s.actions && (e.Answer? ==> e.tid != x)
    requires forall a :: a in s.actions ==> a < s.next
    requires s.actions[x].Cancelling? || s.actions[x].Answering?
    ensures x in Next(s, e).actions && Next(s, e).actions[x] == s.actions[x]
  {
    hide Enabled, End;
    if e.SessionEnded? {
      EndFrame(s, (k: Key) => k.topic == e.topic, x);
    } else if e.Expired? {
      EndFrame(s, (k: Key) => k.id == e.id && k in e.passed, x);
    } else {
      hide Next;
      UserFrame(s, e, x);
    }
  }

  lemma EndFrame(s: State, hit: Key -> bool, x: nat)
    requires x in s.actions && x < s.next && (s.actions[x].Cancelling? || s.actions[x].Answering?)
    ensures x in End(s, hit).actions && End(s, hit).actions[x] == s.actions[x]
  {
    hide EndQueue;
  }

  lemma UserFrame(s: State, e: Event, x: nat)
    requires Enabled(s, e) && !e.Restart? && !e.Resume? && !e.Backend? && !e.SessionEnded? && !e.Expired?
    requires x in s.actions && x < s.next && (e.Answer? ==> e.tid != x)
    ensures x in Next(s, e).actions && Next(s, e).actions[x] == s.actions[x]
  {
    hide Finds, End, Drain, StepResume, StepBackend;
    DrainFrames(s, x);
  }

  lemma DrainFrames(s: State, x: nat)
    requires x in s.actions && x < s.next
    ensures x in Drain(s).actions && Drain(s).actions[x] == s.actions[x]
    ensures var t := s.(request := None); x in Drain(t).actions && Drain(t).actions[x] == s.actions[x]
  {}

  lemma {:induction false} WithdrawnIsAnswered(r: Run, i: nat, j: nat, tid: nat, hold: nat, k: Key)
    requires ValidRun(r) && i <= j < |r.states| && OnItsWay(r.states[i], tid, hold, k)
    requires forall m | i <= m < j :: !r.events[m].Restart? && r.events[m] != Resume(tid, false, false)
    ensures OnItsWay(r.states[j], tid, hold, k) || k in r.states[j].past.errors
  {
    hide ValidRun, S.SlotInv, OnItsWay, Next, Enabled;
    if i < j {
      RunEvents(r);
      WithdrawnIsAnswered(r, i, j - 1, tid, hold, k);
      S.RunKeeps(r, j - 1);
      StepOf(r, j - 1);
      StepAnswers(r.states[j - 1], r.events[j - 1], tid, hold, k);
    }
  }

  lemma RunEvents(r: Run)
    requires ValidRun(r)
    ensures |r.states| == |r.events| + 1
  {}

  lemma StepOf(r: Run, i: nat)
    requires ValidRun(r) && i < |r.events|
    ensures |r.states| == |r.events| + 1 && Enabled(r.states[i], r.events[i]) && r.states[i + 1] == Next(r.states[i], r.events[i])
  {
    assert ValidStep(r.states[i], r.events[i], r.states[i + 1]);
  }

  lemma StepAnswers(s: State, e: Event, tid: nat, hold: nat, k: Key)
    requires S.SlotInv(s) && Enabled(s, e) && (OnItsWay(s, tid, hold, k) || k in s.past.errors)
    requires !e.Restart? && e != Resume(tid, false, false)
    ensures OnItsWay(Next(s, e), tid, hold, k) || k in Next(s, e).past.errors
  {
    hide S.SlotInv, OnItsWay, Next, Enabled;
    if k in s.past.errors {
      ErrorsStay(s, e);
    } else if (e.Resume? || e.Backend? || e.Answer?) && e.tid == tid {
      OwnStep(s, e, tid, hold, k);
    } else {
      OtherStep(s, e, tid, hold, k);
    }
  }

  lemma ErrorsStay(s: State, e: Event)
    requires Enabled(s, e)
    ensures s.past.errors <= Next(s, e).past.errors
  {
    hide Finds, Without, Drain, Finish;
    if e.Resume? {
      ErrorsStayResumed(s, e.tid, e.ok, e.ok || e.stray);
      hide StepResume;
    }
  }

  lemma ErrorsStayResumed(s: State, tid: nat, ok: bool, sent: bool)
    requires tid in s.actions && Returned(s.actions[tid])
    ensures s.past.errors <= StepResume(s, tid, ok, sent).past.errors
  {
    hide Drain, Finish, Without, AfterLookup, AfterPrepare, AfterCancel, AfterConfirm, AfterReconcile, AfterRecovery;
  }

  /** A rejected request leaves the screen, its hold is cancelled, and its dapp is told:
      from then on its error is on its way or sent, unless that response itself fails
      or the process ends. */
  lemma RejectedIsAnswered(r: Run, i: nat, j: nat)
    requires ValidRun(r) && i < j < |r.states| && r.events[i].Reject?
    requires r.states[i].request.Some?
    requires forall m | i < m < j :: !r.events[m].Restart? && r.events[m] != Resume(r.states[i].next, false, false)
    ensures r.states[i + 1].request.None?
    ensures
      var s, q, u := r.states[i], r.states[i].request.value, r.states[j];
      && r.states[i + 1].actions == s.actions[s.next := Cancelling(q.hold, false, Some(q.key), None, None)]
      && (OnItsWay(u, s.next, q.hold, q.key) || q.key in u.past.errors)
  {
    assert ValidStep(r.states[i], r.events[i], r.states[i + 1]);
    var s := r.states[i];
    WithdrawnIsAnswered(r, i + 1, j, s.next, s.request.value.hold, s.request.value.key);
  }

  /** So is one withdrawn by a lock or an account change. */
  lemma LockedOutIsAnswered(r: Run, i: nat, j: nat)
    requires ValidRun(r) && i < j < |r.states| && (r.events[i].AccountChanged? || r.events[i].WalletLocked?)
    requires r.states[i].request.Some? && Cancellable(r.states[i].request.value)
    requires forall m | i < m < j :: !r.events[m].Restart? && r.events[m] != Resume(r.states[i].next, false, false)
    ensures r.states[i + 1].request.None?
    ensures
      var s, q, u := r.states[i], r.states[i].request.value, r.states[j];
      OnItsWay(u, s.next, q.hold, q.key) || q.key in u.past.errors
  {
    assert ValidStep(r.states[i], r.events[i], r.states[i + 1]);
    var s := r.states[i];
    S.RunKeeps(r, i);
    assert S.RequestOk(s);
    hide S.SlotInv;
    WithdrawnIsAnswered(r, i + 1, j, s.next, s.request.value.hold, s.request.value.key);
  }

  // ---- The queue

  /** With both slots free the oldest entry leaves the queue, to be delivered or shown;
      otherwise nothing moves. */
  lemma DrainTakesTheOldest(s: State)
    ensures
      var u := Drain(s);
      if Free(s) && s.queue != [] then
        var r := s.queue[0];
        && u.queue == s.queue[1..]
        && (if r.published then
              && u.request.None? && u.preparing.Some? && u.preparing.value.key == r.key
              && exists tid, slot :: tid in u.actions && tid !in s.actions - {s.next} && u.actions[tid] == Delivering(r.key, r.owner, Some(slot), true, true)
            else
              && u.actions == s.actions && u.request.Some? && u.request.value.key == r.key && u.request.value.owner == r.owner
              && u.request.value.status == Unknown && u.request.value.local == r.local)
      else u == s
  {
    var u := Drain(s);
    if Free(s) && s.queue != [] && s.queue[0].published {
      var r := s.queue[0];
      assert u.actions[s.next] == Delivering(r.key, r.owner, Some(s.next + 1), true, true);
    }
  }

  predicate Undrained(s: State) {
    Free(s) && s.queue != []
  }

  lemma DrainLeavesNothingToShow(s: State)
    ensures !Undrained(Drain(s)) && (!Undrained(s) ==> Drain(s) == s)
  {}

  lemma FinishDrains(s: State, slot: Option<nat>)
    ensures !Undrained(Finish(s, slot, true))
  {}

  /** The steps after which the store looks at its queue: a request closed or cleared, a
      preparation, an acknowledgement or a withdrawal that is over, an error sent.
      None of them leaves both slots free with an entry waiting. */
  predicate LooksAtQueue(s: State, e: Event) {
    match e
    case CloseLocally => true
    case Surface => true
    case Resume(tid, ok, stray) =>
      tid in s.actions && Returned(s.actions[tid]) &&
      (match s.actions[tid]
       case Acking(_, _, _, _, drain, _) => drain
       case Cancelling(_, _, answer, _, slot) => answer.None? || (slot.Some? && !Overtaken(s, slot))
       case Answering(_, slot) => ok || slot.Some?
       case Recovering(_, _, cleared) => cleared == Some(true)
       case Refusing(_, recover, slot) => slot.Some? && (ok || recover.None?)
       case Delivering(_, _, _, _, drain) => drain && !ok
       case _ => false)
    case _ => false
  }

  lemma FreedSlotsAreDrained(s: State, e: Event)
    requires Enabled(s, e) && LooksAtQueue(s, e)
    ensures !Undrained(Next(s, e))
  {
    hide Undrained, Finds;
    forall t: State ensures !Undrained(Drain(t)) { DrainLeavesNothingToShow(t); }
    forall t: State, slot: Option<nat> ensures !Undrained(Finish(t, slot, true)) { FinishDrains(t, slot); }
    hide Drain, Finish, Without, AfterLookup, AfterPrepare, AfterConfirm, AfterInforming, AfterReconcile;
  }

  // ---- Single steps

  /** The outcome of a confirm is what is shown: a result to tell, an unknown outcome to
      reconcile, or a failure to retry or reject - except that a refusal after the
      session ended is withdrawn. */
  lemma ConfirmReplyIsShown(s: State, tid: nat)
    requires S.SlotInv(s) && tid in s.actions && s.actions[tid].Confirming? && s.actions[tid].stage.Replied?
    ensures
      var r := s.request.value;
      var u := StepResume(s, tid, true, true);
      && s.request.Some? && u.request.Some? && u.request.value.key == r.key
      && match s.actions[tid].stage.reply
         case Published => u.request.value.status == (if r.ended then DeliveryError else Notifying) && u.request.value.result
         case OutcomeUnknown => u.request.value.status == Unknown
         case Refused => if r.ended then u.actions[tid] == Cancelling(r.hold, false, None, Some(r.serial), None) else u.request.value.status == Failed
  {
    hide S.SlotInv;
    S.ActionFacts(s, tid);
    S.Facts(s);
  }

  predicate NewlyInforming(s: State, u: State, x: nat) {
    x in u.actions && u.actions[x].Informing? && !(x in s.actions && s.actions[x].Informing?)
  }

  predicate InformsLive(s: State, u: State, x: nat) {
    NewlyInforming(s, u, x) ==> u.request.Some? && !u.request.value.ended
  }

  lemma FinishInformsNobody(s: State, slot: Option<nat>, drain: bool, x: nat)
    ensures !NewlyInforming(s, Finish(s, slot, drain), x) && !NewlyInforming(s, Drain(s), x)
  {}

  /** A result is sent only while the request's session has not ended. */
  lemma EndedIsNotInformed(s: State, e: Event, x: nat)
    requires Enabled(s, e)
    ensures InformsLive(s, Next(s, e), x)
  {
    if e.Resume? {
      ResumedInforms(s, e.tid, e.ok, e.ok || e.stray, x);
      hide StepResume;
    } else if e.Backend? {
      T.BackendLeaves(s, e.tid, e.ok, e.marked, e.outcome);
      hide StepBackend;
    } else {
      UserInforms(s, e, x);
      hide Next, Enabled;
    }
  }

  lemma UserInforms(s: State, e: Event, x: nat)
    requires Enabled(s, e) && !e.Resume? && !e.Backend?
    ensures InformsLive(s, Next(s, e), x)
  {
    hide Finds, Drain, EndQueue;
    forall t: State ensures !NewlyInforming(t, Drain(t), x) { FinishInformsNobody(t, None, true, x); }
  }

  lemma ResumedInforms(s: State, tid: nat, ok: bool, sent: bool, x: nat)
    requires tid in s.actions && Returned(s.actions[tid])
    ensures InformsLive(s, StepResume(s, tid, ok, sent), x)
  {
    var t := s.actions[tid];
    if t.Confirming? || t.Informing? || t.Reconciling? || t.Recovering? {
      FollowerInforms(s, tid, ok, sent, x);
    } else if t.Refusing? || t.Answering? || t.Cancelling? || t.Acking? {
      AnswerInforms(s, tid, ok, sent, x);
    } else {
      LookupInforms(s, tid, ok, sent, x);
    }
    hide StepResume;
  }

  lemma LookupInforms(s: State, tid: nat, ok: bool, sent: bool, x: nat)
    requires tid in s.actions && Returned(s.actions[tid])
    requires s.actions[tid].Looking? || s.actions[tid].Retrying? || s.actions[tid].Preparing? || s.actions[tid].Delivering?
    ensures !NewlyInforming(s, StepResume(s, tid, ok, sent), x)
  {
    hide Finish, Drain, Without, AfterRefusal, AfterCancel, AfterAnswer, AfterConfirm, AfterInforming, AfterReconcile, AfterRecovery;
    forall t: State, slot: Option<nat>, drain ensures !NewlyInforming(t, Finish(t, slot, drain), x) { FinishInformsNobody(t, slot, drain, x); }
  }

  lemma AnswerInforms(s: State, tid: nat, ok: bool, sent: bool, x: nat)
    requires tid in s.actions && Returned(s.actions[tid])
    requires s.actions[tid].Refusing? || s.actions[tid].Answering? || s.actions[tid].Cancelling? || s.actions[tid].Acking?
    ensures !NewlyInforming(s, StepResume(s, tid, ok, sent), x)
  {
    hide Finish, Drain, Without, AfterLookup, AfterPrepare, AfterDelivery, AfterConfirm, AfterInforming, AfterReconcile, AfterRecovery;
    forall t: State, slot: Option<nat>, drain ensures !NewlyInforming(t, Finish(t, slot, drain), x) { FinishInformsNobody(t, slot, drain, x); }
  }

  lemma FollowerInforms(s: State, tid: nat, ok: bool, sent: bool, x: nat)
    requires tid in s.actions && Returned(s.actions[tid])
    requires s.actions[tid].Confirming? || s.actions[tid].Informing? || s.actions[tid].Reconciling? || s.actions[tid].Recovering?
    ensures InformsLive(s, StepResume(s, tid, ok, sent), x)
  {
    hide Finish, Drain, Without, AfterLookup, AfterPrepare, AfterDelivery, AfterRefusal, AfterCancel, AfterAnswer;
    forall t: State ensures !NewlyInforming(t, Drain(t), x) { FinishInformsNobody(t, None, true, x); }
  }

  /** A settled record answers a reconcile by itself: nothing is sent again. */
  lemma SettledIsNotSentAgain(s: State, tid: nat, ok: bool, marked: bool, reply: ConfirmReply)
    requires tid in s.actions && s.actions[tid].Reconciling? && s.actions[tid].resolved.None? && Droppable(s, s.actions[tid].owner)
    ensures
      var t := s.actions[tid];
      StepBackend(s, tid, ok, marked, reply) == Goto(s, tid, Reconciling(t.serial, t.owner, Some(ok)))
  {
  }

  /** A reconcile of an unsettled record sends its block, and settles the record only
      when the answer came and the mark was written. */
  lemma ReconcileSettles(s: State, tid: nat, ok: bool, marked: bool, reply: ConfirmReply)
    requires tid in s.actions && s.actions[tid].Reconciling? && s.actions[tid].resolved.None?
    requires var owner := s.actions[tid].owner; owner in s.journal && !s.journal[owner]
    ensures
      var owner, u := s.actions[tid].owner, StepBackend(s, tid, ok, marked, reply);
      && u.past.handed == (if reply == Refused then s.past.handed else s.past.handed + {owner})
      && u.journal == (if reply == Published && marked then s.journal[owner := true] else s.journal)
      && tid in u.actions && u.actions[tid].Reconciling? && u.actions[tid].resolved == Some(reply == Published)
  {}

  /** The broadcast of a confirm ends its latch and its hold, and settles its record
      exactly when the node answered and the mark was written. */
  lemma BroadcastSettles(s: State, tid: nat, id: Key, ok: bool, marked: bool, reply: ConfirmReply)
    requires tid in s.actions && s.actions[tid].Confirming? && s.actions[tid].stage == Recorded(id) && id in s.journal && reply != Refused
    ensures
      var t, u := s.actions[tid], StepBackend(s, tid, ok, marked, reply);
      && u.past.handed == s.past.handed + {id} && u.latch == 0
      && u.hold == (if s.hold.Some? && s.hold.value.id == t.hold then None else s.hold)
      && u.journal == (if ok && reply == Published then s.journal[id := true] else s.journal)
      && u.actions == s.actions[tid := t.(stage := Replied(reply))]
  {}

  /** A confirm refused before its record is written leaves no latch and no record; the
      backend may or may not have cleared the hold. */
  lemma RefusalUnlatches(s: State, tid: nat, id: Key, ok: bool, marked: bool)
    requires tid in s.actions && s.actions[tid].Confirming? && s.actions[tid].stage == ConfirmStage.Latched(id)
    ensures
      var t, u := s.actions[tid], StepBackend(s, tid, ok, marked, Refused);
      && u.latch == 0 && u.journal == s.journal && u.past == s.past && u.actions == s.actions[tid := t.(stage := Replied(Refused))]
      && u.hold == (if ok && s.hold.Some? && s.hold.value.id == t.hold then None else s.hold)
  {}

  /** A cancellation empties the slot of the hold it names, unless that hold is being
      published, and of no other. */
  lemma CancellationOutcome(s: State, tid: nat, ok: bool, marked: bool, reply: ConfirmReply)
    requires tid in s.actions && s.actions[tid].Cancelling? && !s.actions[tid].done
    ensures
      var t, u := s.actions[tid], StepBackend(s, tid, ok, marked, reply);
      && u == s.(hold := u.hold, actions := s.actions[tid := Cancelling(t.hold, true, t.answer, t.clear, t.slot)])
      && (if s.hold.Some? && s.hold.value.id == t.hold && !(s.latch != 0 && s.latch == t.hold) then u.hold.None? else u.hold == s.hold)
  {}

  /** A response that did not arrive is shown for another try; one that did is
      acknowledged. */
  lemma ResponseIsShown(s: State, tid: nat, ok: bool, sent: bool)
    requires tid in s.actions && s.actions[tid].Informing?
    ensures
      var t, u := s.actions[tid], StepResume(s, tid, ok, sent);
      && (sent ==> t.key in u.past.results)
      && (if ok then u.actions == s.actions[tid := Acking(t.key, t.owner, false, None, true, Some(t.serial))] && u.request == s.request
          else u.actions == s.actions - {tid} &&
               (Shows(s, t.serial) ==> u.request == Some(s.request.value.(status := DeliveryError))))
  {}

  /** Another try sends the result of the displayed request again, and cannot be asked
      for while it is under way; reconcile and recovery name the record behind it. */
  lemma FollowUpsNameTheirRecord(s: State)
    requires s.request.Some?
    ensures
      var q := s.request.value;
      && (Enabled(s, RetryDelivery) ==>
            Next(s, RetryDelivery) == s.(next := s.next + 1, actions := s.actions[s.next := Informing(q.serial, q.key, q.owner)],
                                         request := Some(q.(status := Notifying))) &&
            !Enabled(Next(s, RetryDelivery), RetryDelivery))
      && (Enabled(s, WcStore.Reconcile) ==>
            Next(s, WcStore.Reconcile) == s.(next := s.next + 1, actions := s.actions[s.next := Reconciling(q.serial, q.owner, None)]))
      && (Enabled(s, Acknowledge) ==>
            Next(s, Acknowledge) == s.(next := s.next + 1, actions := s.actions[s.next := Recovering(q.serial, q.owner, None)]))
  {}

  /** The backend's session callback and first-party holds touch the hold alone. */
  lemma HoldEvents(s: State)
    ensures Next(s, SessionClears) == s.(hold := None)
    ensures s.hold.None? ==> Next(s, FirstPartyHolds) == s.(hold := Some(Hold(s.counter + 1, None)), counter := s.counter + 1)
  {}

  // ---- Ended before it was shown

  /** Nothing is left of the request but a lookup that knows its session ended. */
  ghost predicate Quelled(s: State, k: Key) {
    && k in s.delivered
    && (s.request.Some? && s.request.value.key == k ==> s.request.value.status != Awaiting)
    && (forall tid :: tid in s.actions && MayOffer(s.actions[tid], k) ==> s.actions[tid].Looking? && s.actions[tid].ended)
  }

  /** Actions that may still bring the request up for approval. */
  predicate MayOffer(t: Action, k: Key) {
    match t
    case Looking(key, _, _) => key == k
    case Retrying(key) => key == k
    case Preparing(key, _, _) => key == k
    case _ => false
  }

  /** The end of its session, or its expiry, quells a request that is being looked up or
      waits for another try. */
  lemma EndingQuells(s: State, hit: Key -> bool, k: Key)
    requires k in s.delivered && hit(k)
    requires s.request.Some? && s.request.value.key == k ==> s.request.value.status != Awaiting
    requires forall tid :: tid in s.actions && MayOffer(s.actions[tid], k) ==> !s.actions[tid].Preparing?
    ensures Quelled(End(s, hit), k)
  {
    hide EndQueue;
  }

  lemma ResumeStaysQuelled(s: State, tid: nat, ok: bool, sent: bool, k: Key)
    requires tid in s.actions && Returned(s.actions[tid]) && Quelled(s, k)
    ensures Quelled(StepResume(s, tid, ok, sent), k)
  {
    hide Without;
    var t := s.actions[tid];
    if t.Confirming? || t.Informing? || t.Reconciling? || t.Recovering? {
      FollowerStaysQuelled(s, tid, ok, sent, k);
    } else if t.Refusing? || t.Answering? || t.Cancelling? || t.Acking? {
      AnswerStaysQuelled(s, tid, ok, sent, k);
    } else {
      LookupStaysQuelled(s, tid, ok, sent, k);
    }
    hide StepResume;
  }

  lemma FinishStaysQuelled(s: State, slot: Option<nat>, drain: bool, k: Key)
    requires Quelled(s, k)
    ensures Quelled(Finish(s, slot, drain), k) && Quelled(Drain(s), k)
  {}

  lemma LookupStaysQuelled(s: State, tid: nat, ok: bool, sent: bool, k: Key)
    requires tid in s.actions && Returned(s.actions[tid]) && Quelled(s, k)
    requires s.actions[tid].Looking? || s.actions[tid].Retrying? || s.actions[tid].Preparing? || s.actions[tid].Delivering?
    ensures Quelled(StepResume(s, tid, ok, sent), k)
  {
    if s.actions[tid].Preparing? {
      PrepareStaysQuelled(s, tid, k);
      hide AfterPrepare, Quelled;
    } else if s.actions[tid].Delivering? {
      DeliveryStaysQuelled(s, tid, ok, sent, k);
    } else {
      LookingStaysQuelled(s, tid, ok, sent, k);
    }
  }

  lemma LookingStaysQuelled(s: State, tid: nat, ok: bool, sent: bool, k: Key)
    requires tid in s.actions && Returned(s.actions[tid]) && Quelled(s, k) && (s.actions[tid].Looking? || s.actions[tid].Retrying?)
    ensures Quelled(StepResume(s, tid, ok, sent), k)
  {
    hide Without, AfterPrepare, AfterDelivery, AfterRefusal, AfterCancel, AfterAnswer, AfterConfirm, AfterInforming, AfterReconcile, AfterRecovery;
  }

  lemma DeliveryStaysQuelled(s: State, tid: nat, ok: bool, sent: bool, k: Key)
    requires tid in s.actions && s.actions[tid].Delivering? && Quelled(s, k)
    ensures Quelled(StepResume(s, tid, ok, sent), k)
  {
    hide Finish, Drain, Without, AfterLookup, AfterPrepare, AfterRefusal, AfterCancel, AfterAnswer, AfterConfirm, AfterInforming, AfterReconcile,
         AfterRecovery;
    forall t: State, slot: Option<nat>, drain | Quelled(t, k) ensures Quelled(Finish(t, slot, drain), k) { FinishStaysQuelled(t, slot, drain, k); }
  }

  lemma PrepareStaysQuelled(s: State, tid: nat, k: Key)
    requires tid in s.actions && s.actions[tid].Preparing? && s.actions[tid].found.Some? && Quelled(s, k)
    ensures
      var t := s.actions[tid];
      Quelled(AfterPrepare(s, tid, t.key, t.token, t.found.value), k)
  {
    hide Finish, Drain, Without;
    forall t: State, slot: Option<nat>, drain | Quelled(t, k) ensures Quelled(Finish(t, slot, drain), k) { FinishStaysQuelled(t, slot, drain, k); }
  }

  lemma AnswerStaysQuelled(s: State, tid: nat, ok: bool, sent: bool, k: Key)
    requires tid in s.actions && Returned(s.actions[tid]) && Quelled(s, k)
    requires s.actions[tid].Refusing? || s.actions[tid].Answering? || s.actions[tid].Cancelling? || s.actions[tid].Acking?
    ensures Quelled(StepResume(s, tid, ok, sent), k)
  {
    hide Finish, Drain, Without, AfterLookup, AfterPrepare, AfterDelivery, AfterConfirm, AfterInforming, AfterReconcile, AfterRecovery;
    forall t: State, slot: Option<nat>, drain | Quelled(t, k) ensures Quelled(Finish(t, slot, drain), k) { FinishStaysQuelled(t, slot, drain, k); }
    if s.actions[tid].Refusing? { hide AfterCancel, AfterAnswer; } else { hide AfterRefusal; }
  }

  /** One action moves on, and not towards an offer. */
  lemma EditStaysQuelled(s: State, u: State, tid: nat, k: Key)
    requires Quelled(s, k) && u.delivered == s.delivered
    requires u.actions == s.actions - {tid} || (tid in u.actions && u.actions == s.actions[tid := u.actions[tid]] && !MayOffer(u.actions[tid], k))
    requires u.request == s.request || (u.request.Some? ==> u.request.value.status != Awaiting)
    ensures Quelled(u, k)
  {}

  lemma FollowerStaysQuelled(s: State, tid: nat, ok: bool, sent: bool, k: Key)
    requires tid in s.actions && Returned(s.actions[tid]) && Quelled(s, k)
    requires s.actions[tid].Confirming? || s.actions[tid].Informing? || s.actions[tid].Reconciling? || s.actions[tid].Recovering?
    ensures Quelled(StepResume(s, tid, ok, sent), k)
  {
    hide Quelled;
    if s.actions[tid].Recovering? {
      RecoveryStaysQuelled(s, tid, s.actions[tid].cleared == Some(true), k);
      hide AfterRecovery;
    } else {
      hide AfterLookup, AfterPrepare, AfterDelivery, AfterRefusal, AfterCancel, AfterAnswer, AfterRecovery;
      EditStaysQuelled(s, StepResume(s, tid, ok, sent), tid, k);
    }
  }

  lemma RecoveryStaysQuelled(s: State, tid: nat, cleared: bool, k: Key)
    requires tid in s.actions && s.actions[tid].Recovering? && Quelled(s, k)
    ensures Quelled(AfterRecovery(s, tid, s.actions[tid].serial, cleared), k)
  {
    hide Quelled, Drain;
    var t := if cleared then Dismiss(Drop(s, tid), Some(s.actions[tid].serial)) else Drop(s, tid);
    EditStaysQuelled(s, t, tid, k);
    FinishStaysQuelled(t, None, true, k);
  }

  lemma BackendStaysQuelled(s: State, tid: nat, ok: bool, marked: bool, reply: ConfirmReply, k: Key)
    requires tid in s.actions && Quelled(s, k)
    ensures Quelled(StepBackend(s, tid, ok, marked, reply), k)
  {
    hide StepBackend;
    T.BackendLeaves(s, tid, ok, marked, reply);
  }

  lemma OthersStayQuelled(s: State, e: Event, k: Key)
    requires Enabled(s, e) && !e.Restart? && !e.Resume? && !e.Backend? && Quelled(s, k)
    ensures Quelled(Next(s, e), k)
  {
    if e.SessionEnded? {
      EndStaysQuelled(s, (x: Key) => x.topic == e.topic, k);
      hide End;
    } else if e.Expired? {
      EndStaysQuelled(s, (x: Key) => x.id == e.id && x in e.passed, k);
      hide End;
    } else {
      UserStaysQuelled(s, e, k);
      hide Next;
    }
  }

  lemma WithdrawStaysQuelled(s: State, answer: bool, k: Key)
    requires Quelled(s, k) && s.request.Some?
    ensures Quelled(Withdraw(s, answer), k)
  {}

  lemma UserStaysQuelled(s: State, e: Event, k: Key)
    requires Enabled(s, e) && !e.Restart? && !e.Resume? && !e.Backend? && !e.SessionEnded? && !e.Expired? && Quelled(s, k)
    ensures Quelled(Next(s, e), k)
  {
    hide Finds, Drain, Withdraw;
    forall t: State | Quelled(t, k) ensures Quelled(Drain(t), k) { FinishStaysQuelled(t, None, true, k); }
    forall t: State, answer | Quelled(t, k) && t.request.Some? ensures Quelled(Withdraw(t, answer), k) { WithdrawStaysQuelled(t, answer, k); }
  }

  lemma EndStaysQuelled(s: State, hit: Key -> bool, k: Key)
    requires Quelled(s, k)
    ensures Quelled(End(s, hit), k)
  {
    hide EndQueue;
  }

  lemma StepStaysQuelled(s: State, e: Event, k: Key)
    requires Enabled(s, e) && !e.Restart? && Quelled(s, k)
    ensures Quelled(Next(s, e), k)
  {
    hide Quelled, StepResume, StepBackend, Finds;
    if e.Resume? {
      ResumeStaysQuelled(s, e.tid, e.ok, e.ok || e.stray, k);
    } else if e.Backend? {
      BackendStaysQuelled(s, e.tid, e.ok, e.marked, e.outcome, k);
    } else {
      hide Next;
      OthersStayQuelled(s, e, k);
    }
  }

  /** A request whose session ended, or which expired, while it was being looked up or
      waiting for another try never comes up for approval in that process. */
  lemma {:induction false} EndedLookupIsNeverOffered(r: Run, i: nat, j: nat, k: Key)
    requires ValidRun(r) && i <= j < |r.states| && Quelled(r.states[i], k)
    requires forall m | i <= m < j :: !r.events[m].Restart?
    ensures Quelled(r.states[j], k)
    ensures r.states[j].request.Some? && r.states[j].request.value.key == k ==> r.states[j].request.value.status != Awaiting
  {
    hide ValidRun, Next, Enabled;
    if i < j {
      RunEvents(r);
      EndedLookupIsNeverOffered(r, i, j - 1, k);
      StepOf(r, j - 1);
      StepStaysQuelled(r.states[j - 1], r.events[j - 1], k);
    }
  }
}
