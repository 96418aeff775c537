/** Results never cross sessions: whatever a dapp is told about a retained record, the
    record is one of its own session. */
module WcStoreSessions {
  import opened TxTypes
  import opened WcStore

  predicate Own(key: Key, owner: Key) {
    owner.topic == key.topic
  }

  predicate ReplyOk(key: Key, found: Option<Reply>) {
    match found
    case Some(Settled(owner)) => Own(key, owner)
    case Some(Unsettled(owner)) => Own(key, owner)
    case _ => true
  }

  predicate OwnerOk(t: Action) {
    match t
    case Looking(key, _, found) => ReplyOk(key, found)
    case Preparing(key, _, found) => ReplyOk(key, found)
    case Delivering(key, owner, _, _, _) => Own(key, owner)
    case Acking(key, owner, _, _, _, _) => Own(key, owner)
    case Informing(_, key, owner) => Own(key, owner)
    case _ => true
  }

  predicate RequestOwnerOk(r: Option<Request>) {
    r.Some? ==> Own(r.value.key, r.value.owner)
  }

  predicate QueueOwnersOk(q: seq<Replay>) {
    forall r :: r in q ==> Own(r.key, r.owner)
  }

  ghost predicate SessionInv(s: State) {
    && (forall tid :: tid in s.actions ==> OwnerOk(s.actions[tid]))
    && RequestOwnerOk(s.request) && QueueOwnersOk(s.queue)
  }

  lemma EditKeeps(s: State, u: State, tid: nat)
    requires SessionInv(s)
    requires u.actions == s.actions - {tid} || (tid in u.actions && u.actions == s.actions[tid := u.actions[tid]] && OwnerOk(u.actions[tid]))
    requires RequestOwnerOk(u.request) && QueueOwnersOk(u.queue)
    ensures SessionInv(u)
  {}

  lemma Facts(s: State, tid: nat)
    requires SessionInv(s)
    ensures RequestOwnerOk(s.request) && QueueOwnersOk(s.queue) && (tid in s.actions ==> OwnerOk(s.actions[tid]))
  {}

  lemma FinishKeeps(s: State, slot: Option<nat>, drain: bool)
    requires SessionInv(s)
    ensures SessionInv(Finish(s, slot, drain)) && SessionInv(Drain(s))
  {}

  lemma {:induction false} WithoutKeeps(q: seq<Replay>, key: Key)
    requires QueueOwnersOk(q)
    ensures QueueOwnersOk(Without(q, key))
  {
    if q != [] && q[0].key != key {
      assert forall r :: r in q[1..] ==> r in q;
      WithoutKeeps(q[1..], key);
    }
  }

  lemma EnqueueKeeps(s: State, r: Replay)
    requires SessionInv(s) && Own(r.key, r.owner)
    ensures SessionInv(Enqueue(s, r))
  {
    WithoutKeeps(s.queue, r.key);
  }

  lemma {:induction false} EndQueueKeeps(q: seq<Replay>, hit: Key -> bool)
    requires QueueOwnersOk(q)
    ensures QueueOwnersOk(EndQueue(q, hit))
  {
    if q != [] {
      assert forall r :: r in q[1..] ==> r in q;
      EndQueueKeeps(q[1..], hit);
    }
  }

  // ---- Continuations

  lemma LookupKeeps(s: State, tid: nat, ok: bool)
    requires SessionInv(s) && tid in s.actions && s.actions[tid].Looking? && s.actions[tid].found.Some?
    ensures SessionInv(AfterLookup(s, tid, s.actions[tid].key, s.actions[tid].ended, s.actions[tid].found.value, ok))
  {
    hide SessionInv, Enqueue;
    Facts(s, tid);
    var t := s.actions[tid];
    EditKeeps(s, Drop(s, tid), tid);
    if !t.ended && t.found.value.Unsettled? && !Free(s) {
      EnqueueKeeps(Drop(s, tid), Replay(t.key, t.found.value.owner, false, false));
    } else {
      EditKeeps(s, AfterLookup(s, tid, t.key, t.ended, t.found.value, ok), tid);
    }
  }

  lemma RefusalKeeps(s: State, tid: nat, ok: bool, sent: bool)
    requires SessionInv(s) && tid in s.actions && s.actions[tid].Refusing?
    ensures SessionInv(AfterRefusal(s, tid, s.actions[tid].key, s.actions[tid].recover, s.actions[tid].slot, ok, sent))
  {
    hide SessionInv, Enqueue, Finish;
    Facts(s, tid);
    var t, key, recover, slot := Errored(Drop(s, tid), s.actions[tid].key, sent), s.actions[tid].key, s.actions[tid].recover, s.actions[tid].slot;
    EditKeeps(s, t, tid);
    if ok && recover.Some? {
      EnqueueKeeps(t, Replay(recover.value, recover.value, false, true));
      EditKeeps(t, ShowUnknown(t, recover.value, recover.value, true), tid);
      FinishKeeps(if Free(t) then ShowUnknown(t, recover.value, recover.value, true) else Enqueue(t, Replay(recover.value, recover.value, false, true)),
                  slot, slot.Some?);
    } else if ok || recover.None? || slot.None? || (Holds(s, slot) && s.preparing.value.ended) {
      FinishKeeps(t, slot, slot.Some?);
    } else {
      EditKeeps(t, AfterRefusal(s, tid, key, recover, slot, ok, sent), tid);
    }
  }

  lemma PrepareKeeps(s: State, tid: nat)
    requires SessionInv(s) && tid in s.actions && s.actions[tid].Preparing? && s.actions[tid].found.Some?
    ensures SessionInv(AfterPrepare(s, tid, s.actions[tid].key, s.actions[tid].token, s.actions[tid].found.value))
  {
    hide SessionInv, Finish, Drain;
    Facts(s, tid);
    var t := s.actions[tid];
    var u := AfterPrepare(s, tid, t.key, t.token, t.found.value);
    EditKeeps(s, Drop(s, tid), tid);
    FinishKeeps(Drop(s, tid), Some(t.token), true);
    if t.found.value.Unsettled? {
      var v := ShowUnknown(Drop(s, tid), t.key, t.found.value.owner, false);
      EditKeeps(s, v, tid);
      FinishKeeps(v, Some(t.token), true);
    } else if t.found.value.Prepared? {
      var v := Drop(s, tid).(request := Some(Request(s.next, t.key, t.key, Awaiting, t.found.value.hold, false, false, false)), next := s.next + 1);
      EditKeeps(s, v, tid);
      FinishKeeps(v, Some(t.token), true);
      EditKeeps(s, Goto(s, tid, Cancelling(t.found.value.hold, false, Some(t.key), None, Some(t.token))), tid);
    } else if tid in u.actions && u.actions == s.actions[tid := u.actions[tid]] {
      EditKeeps(s, u, tid);
    }
    PrepareShape(s, tid);
  }

  /** A prepare that found nothing to show either ends or becomes one action. */
  lemma PrepareShape(s: State, tid: nat)
    requires tid in s.actions && s.actions[tid].Preparing? && s.actions[tid].found.Some?
    ensures
      var t := s.actions[tid];
      var u := AfterPrepare(s, tid, t.key, t.token, t.found.value);
      t.found.value.Unsettled? || t.found.value.Prepared? || u == Finish(Drop(s, tid), Some(t.token), true) ||
      (tid in u.actions && u.actions == s.actions[tid := u.actions[tid]])
  {
    hide Finish, Drain;
  }

  lemma CancelKeeps(s: State, tid: nat)
    requires SessionInv(s) && tid in s.actions && s.actions[tid].Cancelling?
    ensures SessionInv(AfterCancel(s, tid, s.actions[tid].answer, s.actions[tid].clear, s.actions[tid].slot))
  {
    hide SessionInv, Finish;
    Facts(s, tid);
    var t := s.actions[tid];
    EditKeeps(s, Dismiss(Drop(s, tid), t.clear), tid);
    FinishKeeps(Dismiss(Drop(s, tid), t.clear), t.slot, true);
    if t.answer.Some? { EditKeeps(s, Goto(s, tid, Answering(t.answer.value, t.slot)), tid); }
  }

  lemma AnswerKeeps(s: State, tid: nat, ok: bool, sent: bool)
    requires SessionInv(s) && tid in s.actions && s.actions[tid].Answering?
    ensures SessionInv(AfterAnswer(s, tid, s.actions[tid].key, s.actions[tid].slot, ok, sent))
  {
    hide SessionInv, Finish;
    Facts(s, tid);
    var t := Errored(Drop(s, tid), s.actions[tid].key, sent);
    EditKeeps(s, t, tid);
    FinishKeeps(t, s.actions[tid].slot, ok || s.actions[tid].slot.Some?);
  }

  lemma DeliveryKeeps(s: State, tid: nat, ok: bool, sent: bool)
    requires SessionInv(s) && tid in s.actions && s.actions[tid].Delivering?
    ensures
      var d := s.actions[tid];
      SessionInv(AfterDelivery(s, tid, d.key, d.owner, d.slot, d.marker, d.drain, ok, sent))
  {
    hide SessionInv, Finish, Enqueue;
    Facts(s, tid);
    var d := s.actions[tid];
    var t := Resulted(s, d.key, sent);
    var mine := d.marker && Holds(s, d.slot);
    EditKeeps(s, t, tid);
    if ok {
      EditKeeps(s, Goto(t, tid, Acking(d.key, d.owner, false, d.slot, d.drain, None)), tid);
    } else if s.request.None? && (s.preparing.None? || mine) {
      var r := Request(s.next, d.key, d.owner, DeliveryError, 0, mine && s.preparing.value.ended, true, false);
      EditKeeps(s, Drop(t, tid).(request := Some(r), next := s.next + 1), tid);
      FinishKeeps(Drop(t, tid).(request := Some(r), next := s.next + 1), d.slot, d.drain);
    } else {
      EditKeeps(s, Drop(t, tid), tid);
      EnqueueKeeps(Drop(t, tid), Replay(d.key, d.owner, true, false));
      FinishKeeps(Enqueue(Drop(t, tid), Replay(d.key, d.owner, true, false)), d.slot, d.drain);
    }
  }

  lemma FollowerKeeps(s: State, tid: nat, ok: bool, sent: bool)
    requires SessionInv(s) && tid in s.actions && Returned(s.actions[tid])
    requires s.actions[tid].Confirming? || s.actions[tid].Informing? || s.actions[tid].Reconciling?
    ensures SessionInv(StepResume(s, tid, ok, sent))
  {
    hide SessionInv;
    Facts(s, tid);
    EditKeeps(s, StepResume(s, tid, ok, sent), tid);
  }

  lemma AckKeeps(s: State, tid: nat)
    requires SessionInv(s) && tid in s.actions && (s.actions[tid].Acking? || s.actions[tid].Recovering?)
    ensures s.actions[tid].Acking? ==> SessionInv(Finish(Dismiss(Drop(s, tid), s.actions[tid].dismiss), s.actions[tid].slot, s.actions[tid].drain))
    ensures s.actions[tid].Recovering? ==> forall cleared :: SessionInv(AfterRecovery(s, tid, s.actions[tid].serial, cleared))
  {
    hide SessionInv, Finish, Drain;
    Facts(s, tid);
    var clear := if s.actions[tid].Acking? then s.actions[tid].dismiss else Some(s.actions[tid].serial);
    EditKeeps(s, Drop(s, tid), tid);
    EditKeeps(s, Dismiss(Drop(s, tid), clear), tid);
    FinishKeeps(Dismiss(Drop(s, tid), clear), None, true);
    if s.actions[tid].Acking? { FinishKeeps(Dismiss(Drop(s, tid), clear), s.actions[tid].slot, s.actions[tid].drain); }
  }

  lemma RetryKeeps(s: State, tid: nat)
    requires SessionInv(s) && tid in s.actions && s.actions[tid].Retrying?
    ensures SessionInv(Goto(s, tid, Looking(s.actions[tid].key, false, None))) && SessionInv(Drop(s, tid))
  {
    hide SessionInv;
    Facts(s, tid);
    EditKeeps(s, Goto(s, tid, Looking(s.actions[tid].key, false, None)), tid);
    EditKeeps(s, Drop(s, tid), tid);
  }

  lemma ResumeKeeps(s: State, tid: nat, ok: bool, sent: bool)
    requires SessionInv(s) && tid in s.actions && Returned(s.actions[tid])
    ensures SessionInv(StepResume(s, tid, ok, sent))
  {
    hide SessionInv, Finish, Drain, AfterLookup, AfterPrepare, AfterRefusal, AfterCancel, AfterAnswer, AfterDelivery, AfterConfirm, AfterInforming,
         AfterReconcile, AfterRecovery;
    match s.actions[tid]
    case Looking(_, _, _) => LookupKeeps(s, tid, ok);
    case Retrying(_) => RetryKeeps(s, tid);
    case Refusing(_, _, _) => RefusalKeeps(s, tid, ok, sent);
    case Preparing(_, _, _) => PrepareKeeps(s, tid);
    case Cancelling(_, _, _, _, _) => CancelKeeps(s, tid);
    case Answering(_, _) => AnswerKeeps(s, tid, ok, sent);
    case Delivering(_, _, _, _, _) => DeliveryKeeps(s, tid, ok, sent);
    case Acking(_, _, _, _, _, _) => AckKeeps(s, tid);
    case Confirming(_, _, _, _) => FollowerKeeps(s, tid, ok, sent);
    case Informing(_, _, _) => FollowerKeeps(s, tid, ok, sent);
    case Reconciling(_, _, _) => FollowerKeeps(s, tid, ok, sent);
    case Recovering(_, _, _) => AckKeeps(s, tid);
  }

  // ---- The other events

  lemma BackendKeeps(s: State, tid: nat, ok: bool, marked: bool, reply: ConfirmReply)
    requires SessionInv(s) && tid in s.actions
    ensures SessionInv(StepBackend(s, tid, ok, marked, reply))
  {
    hide SessionInv;
    Facts(s, tid);
    BackendOwners(s, tid, ok, marked, reply);
    hide StepBackend;
    EditKeeps(s, StepBackend(s, tid, ok, marked, reply), tid);
  }

  lemma BackendOwners(s: State, tid: nat, ok: bool, marked: bool, reply: ConfirmReply)
    requires tid in s.actions && OwnerOk(s.actions[tid])
    ensures
      var u := StepBackend(s, tid, ok, marked, reply);
      u.request == s.request && u.queue == s.queue && tid in u.actions && u.actions == s.actions[tid := u.actions[tid]] && OwnerOk(u.actions[tid])
  {
    assert s.actions == s.actions[tid := s.actions[tid]];
    if s.actions[tid].Confirming? || s.actions[tid].Reconciling? {
      PublisherOwners(s, tid, ok, marked, reply);
      hide StepConfirm, StepReconcile, BackendAck, BackendCancel;
    } else {
      hide StepConfirm, StepReconcile, Droppable, ClearHold;
    }
  }

  lemma PublisherOwners(s: State, tid: nat, ok: bool, marked: bool, reply: ConfirmReply)
    requires tid in s.actions
    ensures
      s.actions[tid].Confirming? ==>
        var u := StepConfirm(s, tid, s.actions[tid], ok, reply);
        u.request == s.request && u.queue == s.queue && tid in u.actions && u.actions == s.actions[tid := u.actions[tid]] && u.actions[tid].Confirming?
    ensures
      s.actions[tid].Reconciling? ==>
        var u := StepReconcile(s, tid, s.actions[tid], ok, marked, reply);
        u.request == s.request && u.queue == s.queue && tid in u.actions && u.actions == s.actions[tid := u.actions[tid]] && u.actions[tid].Reconciling?
  {
    hide Droppable;
    assert s.actions == s.actions[tid := s.actions[tid]];
  }

  /** A lookup answers with a record of the request's own session, or says that another
      session holds one without telling its outcome. */
  lemma FoundKeeps(s: State, tid: nat, reply: Reply)
    requires SessionInv(s) && tid in s.actions && AnswerEnabled(s, s.actions[tid], reply)
    ensures SessionInv(StepAnswer(s, tid, s.actions[tid], reply))
  {
    FoundIsOwn(s, tid, reply);
    hide SessionInv, Finds;
    Facts(s, tid);
    EditKeeps(s, StepAnswer(s, tid, s.actions[tid], reply), tid);
  }

  lemma FoundIsOwn(s: State, tid: nat, reply: Reply)
    requires tid in s.actions && AnswerEnabled(s, s.actions[tid], reply)
    ensures (s.actions[tid].Looking? || s.actions[tid].Preparing?) && ReplyOk(s.actions[tid].key, Some(reply))
  {}

  lemma EndKeeps(s: State, hit: Key -> bool)
    requires SessionInv(s)
    ensures SessionInv(End(s, hit))
  {
    EndQueueKeeps(s.queue, hit);
    hide EndQueue;
  }

  lemma StoreKeeps(s: State, e: Event)
    requires SessionInv(s) && Enabled(s, e) && !e.Answer? && !e.Backend? && !e.Resume? && !e.SessionEnded? && !e.Expired?
    ensures SessionInv(Next(s, e))
  {
    hide Finds, Drain;
    forall t: State | SessionInv(t) ensures SessionInv(Drain(t)) { FinishKeeps(t, None, true); }
  }

  lemma StepKeeps(s: State, e: Event)
    requires SessionInv(s) && Enabled(s, e)
    ensures SessionInv(Next(s, e))
  {
    hide SessionInv, Finds, StepResume, StepBackend, StepAnswer, End;
    match e
    case Answer(tid, reply) => FoundKeeps(s, tid, reply);
    case Backend(tid, ok, marked, reply) => BackendKeeps(s, tid, ok, marked, reply);
    case Resume(tid, ok, stray) => ResumeKeeps(s, tid, ok, ok || stray);
    case SessionEnded(topic) => EndKeeps(s, (k: Key) => k.topic == topic);
    case Expired(id, passed) => EndKeeps(s, (k: Key) => k.id == id && k in passed);
    case _ => StoreKeeps(s, e);
  }

  lemma {:induction false} RunKeeps(r: Run, i: nat)
    requires ValidRun(r) && i < |r.states|
    ensures SessionInv(r.states[i])
  {
    if i > 0 {
      RunKeeps(r, i - 1);
      assert ValidStep(r.states[i - 1], r.events[i - 1], r.states[i]);
      StepKeeps(r.states[i - 1], r.events[i - 1]);
    }
  }

  /** In every run: a result on its way to a dapp, an outcome on display and a replay
      waiting for its turn are those of a record of the dapp's own session. */
  lemma ResultsStayInTheirSession(r: Run, i: nat, tid: nat)
    requires ValidRun(r) && i < |r.states|
    ensures
      var s := r.states[i];
      && (tid in s.actions && (s.actions[tid].Delivering? || s.actions[tid].Informing?) ==> s.actions[tid].owner.topic == s.actions[tid].key.topic)
      && (s.request.Some? ==> s.request.value.owner.topic == s.request.value.key.topic)
      && forall q :: q in s.queue ==> q.owner.topic == q.key.topic
  {
    RunKeeps(r, i);
  }
}
