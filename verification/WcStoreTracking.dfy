/** No request is lost: until it is answered, a delivered request is claimed by the
    modal or one action, or its result is owed, unless one of the listed things
    happened to it. */
module WcStoreTracking {
  import opened TxTypes
  import opened WcStore
  import S = WcStoreSlots
  import H = WcStoreHolds
  import opened A = WcStoreAnswers

  /** Still to be answered, or answered. */
  ghost predicate Tracked(s: State, k: Key) {
    Claimed(s, k) || Owed(s, k) || k in s.past.errors || k in s.past.results
  }

  /** The ways a request may go unanswered in a process, by the step that lets it go: its
      session or deadline ended; it had expired when it was approved; the user closed
      it; its response did not reach the dapp; its lookup was given up; its outcome was
      unknown when a lock or account change overtook it; or its queued replay made way
      for the local recovery of the same record. */
  ghost predicate Excused(s: State, e: Event, k: Key) {
    match e
    case SessionEnded(topic) => k.topic == topic
    case Expired(id, passed) => k.id == id && k in passed
    case Approve(expired) => expired && s.request.Some? && s.request.value.key == k
    case CloseLocally => s.request.Some? && s.request.value.key == k && s.request.value.status in {DeliveryError, Unknown, Recovered}
    case Resume(tid, ok, stray) => tid in s.actions && ActionExcused(s, s.actions[tid], ok, ok || stray, k)
    case Restart => true
    case _ => false
  }

  ghost predicate ActionExcused(s: State, t: Action, ok: bool, sent: bool, k: Key) {
    match t
    case Looking(key, ended, found) => key == k && (ended || (found == Some(Broken) && !ok))
    case Retrying(key) => key == k && !ok
    case Refusing(key, recover, _) => (key == k && !ok && !sent) || (recover == Some(k) && ok && Queued(s.queue, k))
    case Answering(key, _) => key == k && !sent
    case Preparing(key, _, found) =>
      key == k && s.preparing.Some? && (s.preparing.value.ended || (s.preparing.value.cancelled && found.Some? && found.value.Unsettled?))
    case Cancelling(_, _, answer, clear, slot) =>
      || (answer == Some(k) && slot.Some? && s.preparing.Some? && s.preparing.value.ended)
      || (clear.Some? && s.request.Some? && s.request.value.key == k && s.request.value.ended)
    case Informing(serial, key, _) => key == k && !sent && !Shows(s, serial)
    case _ => false
  }

  // ---- What keeps a request tracked

  lemma ActionTracks(u: State, tid: nat, k: Key)
    requires tid in u.actions && (ClaimOf(u.actions[tid]) == Some(k) || ResultOf(u.actions[tid]) == Some(k))
    ensures Tracked(u, k)
  {}

  lemma RequestTracks(u: State, k: Key)
    requires RequestClaim(u) == Some(k) || RequestResult(u) == Some(k)
    ensures Tracked(u, k)
  {}

  lemma QueueTracks(u: State, r: Replay)
    requires r in u.queue && !r.local
    ensures Tracked(u, r.key)
  {}

  /** One action moves; whatever it, the modal and the queue stood for stays tracked. */
  lemma OthersStay(s: State, u: State, tid: nat, k: Key)
    requires s.past.errors <= u.past.errors && s.past.results <= u.past.results
    requires forall x :: x in s.actions && x != tid ==> x in u.actions && u.actions[x] == s.actions[x]
    requires RequestClaim(s) == Some(k) || RequestResult(s) == Some(k) ==> Tracked(u, k)
    requires Queued(s.queue, k) ==> Tracked(u, k)
    requires tid in s.actions && (ClaimOf(s.actions[tid]) == Some(k) || ResultOf(s.actions[tid]) == Some(k)) ==> Tracked(u, k)
    ensures Tracked(s, k) ==> Tracked(u, k)
  {
    if x :| x in s.actions && x != tid && (ClaimOf(s.actions[x]) == Some(k) || ResultOf(s.actions[x]) == Some(k)) {
      ActionTracks(u, x, k);
    }
  }

  /** The modal and the queue stay. */
  lemma ActionMoves(s: State, u: State, tid: nat, k: Key)
    requires s.past.errors <= u.past.errors && s.past.results <= u.past.results
    requires forall x :: x in s.actions && x != tid ==> x in u.actions && u.actions[x] == s.actions[x]
    requires u.request == s.request && u.queue == s.queue
    requires tid in s.actions && (ClaimOf(s.actions[tid]) == Some(k) || ResultOf(s.actions[tid]) == Some(k)) ==>
               || (tid in u.actions && (ClaimOf(u.actions[tid]) == Some(k) || ResultOf(u.actions[tid]) == Some(k)))
               || k in u.past.errors || k in u.past.results
    ensures Tracked(s, k) ==> Tracked(u, k)
  {
    if tid in u.actions && (ClaimOf(u.actions[tid]) == Some(k) || ResultOf(u.actions[tid]) == Some(k)) { ActionTracks(u, tid, k); }
    if RequestClaim(s) == Some(k) || RequestResult(s) == Some(k) { RequestTracks(u, k); }
    OthersStay(s, u, tid, k);
  }

  lemma DrainTracks(s: State, k: Key)
    requires s.next !in s.actions && Tracked(s, k)
    ensures Tracked(Drain(s), k)
  {
    var u := Drain(s);
    if Free(s) && s.queue != [] {
      var r := s.queue[0];
      if Queued(s.queue, k) {
        if r.key == k && !r.local {
          if r.published { ActionTracks(u, s.next, k); } else { RequestTracks(u, k); }
        } else {
          RestTracks(s, u, k);
        }
      }
      OthersStay(s, u, s.next, k);
    }
  }

  lemma RestTracks(s: State, u: State, k: Key)
    requires s.queue != [] && u.queue == s.queue[1..] && Queued(s.queue, k) && !(s.queue[0].key == k && !s.queue[0].local)
    ensures Tracked(u, k)
  {
    var r :| r in s.queue && r.key == k && !r.local;
    assert s.queue == [s.queue[0]] + s.queue[1..];
    QueueTracks(u, r);
  }

  lemma FinishTracks(s: State, slot: Option<nat>, drain: bool, k: Key)
    requires s.next !in s.actions && Tracked(s, k)
    ensures Tracked(Finish(s, slot, drain), k)
  {
    var t := if Holds(s, slot) then s.(preparing := None) else s;
    ActionMoves(s, t, s.next, k);
    hide Tracked;
    if drain { DrainTracks(t, k); }
  }

  /** Queueing an entry drops at most the older entry of the same request. */
  lemma EnqueueTracks(s: State, u: State, r: Replay, k: Key)
    requires u.queue == Without(s.queue, r.key) + [r] && Queued(s.queue, k) && (r.local ==> r.key != k)
    ensures Tracked(u, k)
  {
    if r.key == k {
      QueueTracks(u, r);
    } else {
      var x :| x in s.queue && x.key == k && !x.local;
      OthersInWithout(s.queue, r.key, x);
      QueueTracks(u, x);
    }
  }

  lemma {:induction false} OthersInWithout(q: seq<Replay>, key: Key, x: Replay)
    requires x in q && x.key != key
    ensures x in Without(q, key)
  {
    if q[0].key != key && x != q[0] { OthersInWithout(q[1..], key, x); }
  }

  // ---- The continuations

  lemma LookupTracks(s: State, tid: nat, ok: bool, k: Key)
    requires S.SlotInv(s) && tid in s.actions && s.actions[tid].Looking? && s.actions[tid].found.Some? && Tracked(s, k)
    requires !ActionExcused(s, s.actions[tid], ok, ok, k)
    ensures Tracked(AfterLookup(s, tid, s.actions[tid].key, s.actions[tid].ended, s.actions[tid].found.value, ok), k)
  {
    hide S.SlotInv, Tracked, Without;
    S.Facts(s);
    var t := s.actions[tid];
    var u := AfterLookup(s, tid, t.key, t.ended, t.found.value, ok);
    if !t.ended && t.found.value.Unsettled? {
      UnsettledTracks(s, u, tid, t.key, t.found.value.owner, k);
    } else {
      ActionMoves(s, u, tid, k);
    }
  }

  /** An unsettled outcome is shown, or queued. */
  lemma UnsettledTracks(s: State, u: State, tid: nat, key: Key, owner: Key, k: Key)
    requires tid in s.actions && ClaimOf(s.actions[tid]) == Some(key) && ResultOf(s.actions[tid]).None? && Tracked(s, k)
    requires u == if Free(s) then ShowUnknown(Drop(s, tid), key, owner, false) else Enqueue(Drop(s, tid), Replay(key, owner, false, false))
    ensures Tracked(u, k)
  {
    hide Tracked, Without;
    if Free(s) {
      if key == k { RequestTracks(u, k); }
      if Queued(s.queue, k) { SameQueueTracks(s, u, k); }
    } else {
      if key == k { QueueTracks(u, Replay(key, owner, false, false)); }
      if Queued(s.queue, k) { EnqueueTracks(s, u, Replay(key, owner, false, false), k); }
      if RequestClaim(s) == Some(k) || RequestResult(s) == Some(k) { RequestTracks(u, k); }
    }
    OthersStay(s, u, tid, k);
  }

  lemma SameQueueTracks(s: State, u: State, k: Key)
    requires Queued(s.queue, k) && u.queue == s.queue
    ensures Tracked(u, k)
  {}

  lemma RefusalTracks(s: State, tid: nat, ok: bool, sent: bool, k: Key)
    requires S.SlotInv(s) && tid in s.actions && s.actions[tid].Refusing? && Tracked(s, k) && (ok ==> sent)
    requires !ActionExcused(s, s.actions[tid], ok, sent, k)
    ensures Tracked(AfterRefusal(s, tid, s.actions[tid].key, s.actions[tid].recover, s.actions[tid].slot, ok, sent), k)
  {
    hide S.SlotInv, Tracked, Without, Finish;
    S.Facts(s);
    var key, recover, slot := s.actions[tid].key, s.actions[tid].recover, s.actions[tid].slot;
    var t := Errored(Drop(s, tid), key, sent);
    if ok && recover.Some? {
      var u := if Free(t) then ShowUnknown(t, recover.value, recover.value, true) else Enqueue(t, Replay(recover.value, recover.value, false, true));
      RecoveryTracks(s, u, tid, key, recover.value, k);
      FinishTracks(u, slot, slot.Some?, k);
    } else if ok || recover.None? || slot.None? || (Holds(s, slot) && s.preparing.value.ended) {
      ErrorTracks(s, t, tid, key, sent, k);
      FinishTracks(t, slot, slot.Some?, k);
    } else {
      ActionMoves(s, AfterRefusal(s, tid, key, recover, slot, ok, sent), tid, k);
    }
  }

  lemma ErrorTracks(s: State, t: State, tid: nat, key: Key, sent: bool, k: Key)
    requires tid in s.actions && ClaimOf(s.actions[tid]) == Some(key) && ResultOf(s.actions[tid]).None? && t == Errored(Drop(s, tid), key, sent)
    requires key == k ==> sent
    ensures Tracked(s, k) ==> Tracked(t, k)
  {
    hide Tracked;
    ActionMoves(s, t, tid, k);
  }

  lemma RecoveryTracks(s: State, u: State, tid: nat, key: Key, owner: Key, k: Key)
    requires tid in s.actions && ClaimOf(s.actions[tid]) == Some(key) && ResultOf(s.actions[tid]).None? && Tracked(s, k)
    requires !(owner == k && Queued(s.queue, k))
    requires
      var t := Errored(Drop(s, tid), key, true);
      u == if Free(t) then ShowUnknown(t, owner, owner, true) else Enqueue(t, Replay(owner, owner, false, true))
    ensures Tracked(u, k)
  {
    hide Tracked, Without;
    if key == k { ErroredTracks(u, k); }
    if Free(s) {
      if Queued(s.queue, k) { SameQueueTracks(s, u, k); }
    } else {
      if Queued(s.queue, k) { EnqueueTracks(s, u, Replay(owner, owner, false, true), k); }
      if RequestClaim(s) == Some(k) || RequestResult(s) == Some(k) { RequestTracks(u, k); }
    }
    OthersStay(s, u, tid, k);
  }

  lemma ErroredTracks(u: State, k: Key)
    requires k in u.past.errors
    ensures Tracked(u, k)
  {}

  lemma AnswerTracks(s: State, tid: nat, ok: bool, sent: bool, k: Key)
    requires S.SlotInv(s) && tid in s.actions && s.actions[tid].Answering? && Tracked(s, k)
    requires !ActionExcused(s, s.actions[tid], ok, sent, k)
    ensures Tracked(AfterAnswer(s, tid, s.actions[tid].key, s.actions[tid].slot, ok, sent), k)
  {
    hide S.SlotInv, Tracked, Finish;
    S.Facts(s);
    var key, slot := s.actions[tid].key, s.actions[tid].slot;
    ErrorTracks(s, Errored(Drop(s, tid), key, sent), tid, key, sent, k);
    FinishTracks(Errored(Drop(s, tid), key, sent), slot, ok || slot.Some?, k);
  }

  lemma PrepareTracks(s: State, tid: nat, k: Key)
    requires S.SlotInv(s) && tid in s.actions && s.actions[tid].Preparing? && s.actions[tid].found.Some? && Tracked(s, k)
    requires !ActionExcused(s, s.actions[tid], true, true, k)
    ensures Tracked(AfterPrepare(s, tid, s.actions[tid].key, s.actions[tid].token, s.actions[tid].found.value), k)
  {
    hide S.SlotInv, Tracked, Finish;
    S.Facts(s);
    S.ActionFacts(s, tid);
    var t := s.actions[tid];
    var u := AfterPrepare(s, tid, t.key, t.token, t.found.value);
    var marked := s.preparing.value.ended || s.preparing.value.cancelled;
    match t.found.value
    case Unsettled(owner) => if marked { DroppedTracks(s, tid, t.token, k); } else { ShownTracks(s, tid, owner, k); }
    case Prepared(h) => if marked { ActionMoves(s, u, tid, k); } else { OfferTracks(s, tid, h, k); }
    case Duplicate(_) => ActionMoves(s, u, tid, k);
    case Settled(_) => ActionMoves(s, u, tid, k);
    case _ => if s.preparing.value.ended { DroppedTracks(s, tid, t.token, k); } else { ActionMoves(s, u, tid, k); }
  }

  lemma DroppedTracks(s: State, tid: nat, token: nat, k: Key)
    requires s.next !in s.actions && tid in s.actions && ResultOf(s.actions[tid]).None? && ClaimOf(s.actions[tid]) != Some(k) && Tracked(s, k)
    ensures Tracked(Finish(Drop(s, tid), Some(token), true), k)
  {
    hide Tracked, Finish;
    ActionMoves(s, Drop(s, tid), tid, k);
    FinishTracks(Drop(s, tid), Some(token), true, k);
  }

  lemma ShownTracks(s: State, tid: nat, owner: Key, k: Key)
    requires s.next !in s.actions && s.request.None? && tid in s.actions && s.actions[tid].Preparing? && Tracked(s, k)
    ensures Tracked(Finish(ShowUnknown(Drop(s, tid), s.actions[tid].key, owner, false), Some(s.actions[tid].token), true), k)
  {
    hide Tracked, Finish;
    var t := s.actions[tid];
    var u := ShowUnknown(Drop(s, tid), t.key, owner, false);
    if t.key == k { RequestTracks(u, k); }
    if Queued(s.queue, k) { SameQueueTracks(s, u, k); }
    OthersStay(s, u, tid, k);
    assert u.next !in u.actions ==> Tracked(Finish(u, Some(t.token), true), k) by {
      if u.next !in u.actions { FinishTracks(u, Some(t.token), true, k); }
    }
    ShownFinishes(u, Some(t.token), k);
  }

  /** With a request on display there is nothing to drain. */
  lemma ShownFinishes(u: State, slot: Option<nat>, k: Key)
    requires u.request.Some? && Tracked(u, k)
    ensures Tracked(Finish(u, slot, true), k)
  {
    ActionMoves(u, Finish(u, slot, true), u.next, k);
  }

  lemma OfferTracks(s: State, tid: nat, h: nat, k: Key)
    requires s.request.None? && tid in s.actions && s.actions[tid].Preparing? && Tracked(s, k)
    ensures
      var t := s.actions[tid];
      var r := Request(s.next, t.key, t.key, Awaiting, h, false, false, false);
      Tracked(Finish(Drop(s, tid).(request := Some(r), next := s.next + 1), Some(t.token), true), k)
  {
    hide Tracked, Finish;
    var t := s.actions[tid];
    var u := Drop(s, tid).(request := Some(Request(s.next, t.key, t.key, Awaiting, h, false, false, false)), next := s.next + 1);
    if t.key == k { RequestTracks(u, k); }
    if Queued(s.queue, k) { SameQueueTracks(s, u, k); }
    OthersStay(s, u, tid, k);
    ShownFinishes(u, Some(t.token), k);
  }

  lemma CancelTracks(s: State, tid: nat, k: Key)
    requires S.SlotInv(s) && tid in s.actions && s.actions[tid].Cancelling? && Tracked(s, k)
    requires !ActionExcused(s, s.actions[tid], true, true, k)
    ensures Tracked(AfterCancel(s, tid, s.actions[tid].answer, s.actions[tid].clear, s.actions[tid].slot), k)
  {
    hide S.SlotInv, Tracked, Finish;
    S.Facts(s);
    S.ActionFacts(s, tid);
    var t := s.actions[tid];
    var u := AfterCancel(s, tid, t.answer, t.clear, t.slot);
    if t.answer.Some? && (t.slot.None? || Overtaken(s, t.slot)) {
      ActionMoves(s, u, tid, k);
    } else {
      var v := Dismiss(Drop(s, tid), t.clear);
      DismissTracks(s, v, tid, t.clear, k);
      FinishTracks(v, t.slot, true, k);
    }
  }

  /** An action that claims nothing ends, and may take the request it followed away. */
  lemma DismissTracks(s: State, v: State, tid: nat, clear: Option<nat>, k: Key)
    requires tid in s.actions && v == Dismiss(Drop(s, tid), clear) && Tracked(s, k)
    requires ClaimOf(s.actions[tid]) != Some(k) && ResultOf(s.actions[tid]) != Some(k)
    requires clear.Some? && Shows(s, clear.value) ==>
               s.request.value.key != k || (s.request.value.local && !H.Live(s.request.value.status)) || k in s.past.results
    ensures Tracked(v, k)
  {
    hide Tracked;
    if Queued(s.queue, k) { SameQueueTracks(s, v, k); }
    if RequestClaim(s) == Some(k) || RequestResult(s) == Some(k) {
      if v.request == s.request { RequestTracks(v, k); } else { ResultedTracks(v, k); }
    }
    OthersStay(s, v, tid, k);
  }

  lemma ResultedTracks(u: State, k: Key)
    requires k in u.past.results
    ensures Tracked(u, k)
  {}

  lemma DeliveryTracks(s: State, tid: nat, ok: bool, sent: bool, k: Key)
    requires S.SlotInv(s) && tid in s.actions && s.actions[tid].Delivering? && Tracked(s, k) && (ok ==> sent)
    ensures
      var d := s.actions[tid];
      Tracked(AfterDelivery(s, tid, d.key, d.owner, d.slot, d.marker, d.drain, ok, sent), k)
  {
    hide S.SlotInv, Tracked, Finish, Without;
    S.Facts(s);
    var d := s.actions[tid];
    var t := Resulted(s, d.key, sent);
    var mine := d.marker && Holds(s, d.slot);
    if ok {
      ActionMoves(s, Goto(t, tid, Acking(d.key, d.owner, false, d.slot, d.drain, None)), tid, k);
    } else if s.request.None? && (s.preparing.None? || mine) {
      var r := Request(s.next, d.key, d.owner, DeliveryError, 0, mine && s.preparing.value.ended, true, false);
      FailureShown(s, Drop(t, tid).(request := Some(r), next := s.next + 1), tid, d.slot, d.drain, k);
    } else {
      FailureQueued(s, Enqueue(Drop(t, tid), Replay(d.key, d.owner, true, false)), tid, k);
      FinishTracks(Enqueue(Drop(t, tid), Replay(d.key, d.owner, true, false)), d.slot, d.drain, k);
    }
  }

  lemma FailureShown(s: State, u: State, tid: nat, slot: Option<nat>, drain: bool, k: Key)
    requires s.request.None? && tid in s.actions && s.actions[tid].Delivering? && Tracked(s, k)
    requires s.past.errors <= u.past.errors && s.past.results <= u.past.results && u.actions == s.actions - {tid} && u.queue == s.queue
    requires RequestResult(u) == Some(s.actions[tid].key)
    ensures Tracked(Finish(u, slot, drain), k)
  {
    hide Tracked, Finish;
    if s.actions[tid].key == k { RequestTracks(u, k); }
    if Queued(s.queue, k) { SameQueueTracks(s, u, k); }
    OthersStay(s, u, tid, k);
    if drain { ShownFinishes(u, slot, k); } else { ReleasedTracks(u, slot, k); }
  }

  lemma ReleasedTracks(u: State, slot: Option<nat>, k: Key)
    requires Tracked(u, k)
    ensures Tracked(Finish(u, slot, false), k)
  {
    ActionMoves(u, Finish(u, slot, false), u.next, k);
  }

  lemma FailureQueued(s: State, u: State, tid: nat, k: Key)
    requires tid in s.actions && s.actions[tid].Delivering? && Tracked(s, k)
    requires s.past.errors <= u.past.errors && s.past.results <= u.past.results && u.actions == s.actions - {tid} && u.request == s.request
    requires
      var d := s.actions[tid];
      u.queue == Without(s.queue, d.key) + [Replay(d.key, d.owner, true, false)]
    ensures Tracked(u, k)
  {
    hide Tracked, Without;
    var d := s.actions[tid];
    if d.key == k { QueueTracks(u, Replay(d.key, d.owner, true, false)); }
    if Queued(s.queue, k) { EnqueueTracks(s, u, Replay(d.key, d.owner, true, false), k); }
    if RequestClaim(s) == Some(k) || RequestResult(s) == Some(k) { RequestTracks(u, k); }
    OthersStay(s, u, tid, k);
  }

  lemma AckTracks(s: State, tid: nat, k: Key)
    requires S.SlotInv(s) && AnswerInv(s) && tid in s.actions && s.actions[tid].Acking? && Tracked(s, k)
    ensures Tracked(Finish(Dismiss(Drop(s, tid), s.actions[tid].dismiss), s.actions[tid].slot, s.actions[tid].drain), k)
  {
    hide S.SlotInv, AnswerInv, Tracked, Finish;
    S.Facts(s);
    S.ActionFacts(s, tid);
    ActionFacts(s, tid);
    var t := s.actions[tid];
    DismissTracks(s, Dismiss(Drop(s, tid), t.dismiss), tid, t.dismiss, k);
    FinishTracks(Dismiss(Drop(s, tid), t.dismiss), t.slot, t.drain, k);
  }

  lemma RecoveryEnds(s: State, tid: nat, cleared: bool, k: Key)
    requires S.SlotInv(s) && tid in s.actions && s.actions[tid].Recovering? && Tracked(s, k)
    ensures Tracked(AfterRecovery(s, tid, s.actions[tid].serial, cleared), k)
  {
    hide S.SlotInv, Tracked, Drain;
    S.Facts(s);
    S.ActionFacts(s, tid);
    var serial := s.actions[tid].serial;
    if cleared {
      DismissTracks(s, Dismiss(Drop(s, tid), Some(serial)), tid, Some(serial), k);
      DrainTracks(Dismiss(Drop(s, tid), Some(serial)), k);
    } else {
      ActionMoves(s, Drop(s, tid), tid, k);
    }
  }

  /** The displayed request changes its status, or says what came of it. */
  lemma StatusTracks(s: State, u: State, tid: nat, k: Key)
    requires s.past.errors <= u.past.errors && s.past.results <= u.past.results && u.queue == s.queue
    requires forall x :: x in s.actions && x != tid ==> x in u.actions && u.actions[x] == s.actions[x]
    requires tid in s.actions && (ClaimOf(s.actions[tid]) == Some(k) || ResultOf(s.actions[tid]) == Some(k)) ==> Tracked(u, k)
    requires s.request.Some? && u.request.Some? && u.request.value.key == s.request.value.key && u.request.value.local == s.request.value.local
    requires s.request.value.local && H.Live(s.request.value.status) ==> u.request.value.status == s.request.value.status
    requires Tracked(s, k)
    ensures Tracked(u, k)
  {
    hide Tracked;
    if RequestClaim(s) == Some(k) || RequestResult(s) == Some(k) { RequestTracks(u, k); }
    if Queued(s.queue, k) { SameQueueTracks(s, u, k); }
    OthersStay(s, u, tid, k);
  }

  lemma ConfirmTracks(s: State, tid: nat, k: Key)
    requires S.SlotInv(s) && tid in s.actions && s.actions[tid].Confirming? && s.actions[tid].stage.Replied? && Tracked(s, k)
    ensures Tracked(AfterConfirm(s, tid, s.actions[tid].serial, s.actions[tid].hold, s.actions[tid].stage.reply), k)
  {
    hide S.SlotInv, Tracked;
    S.Facts(s);
    S.ActionFacts(s, tid);
    var t := s.actions[tid];
    StatusTracks(s, AfterConfirm(s, tid, t.serial, t.hold, t.stage.reply), tid, k);
  }

  lemma InformTracks(s: State, tid: nat, ok: bool, sent: bool, k: Key)
    requires S.SlotInv(s) && tid in s.actions && s.actions[tid].Informing? && Tracked(s, k) && (ok ==> sent)
    requires !ActionExcused(s, s.actions[tid], ok, sent, k)
    ensures Tracked(AfterInforming(s, tid, s.actions[tid].serial, s.actions[tid].key, s.actions[tid].owner, ok, sent), k)
  {
    hide S.SlotInv, Tracked;
    S.ActionFacts(s, tid);
    var t := s.actions[tid];
    var u := AfterInforming(s, tid, t.serial, t.key, t.owner, ok, sent);
    if t.key == k && sent { ResultedTracks(u, k); }
    if !ok && Shows(s, t.serial) {
      if t.key == k { RequestTracks(u, k); }
      StatusTracks(s, u, tid, k);
    } else {
      ActionMoves(s, u, tid, k);
    }
  }

  lemma ReconcileTracks(s: State, tid: nat, resolved: bool, k: Key)
    requires S.SlotInv(s) && tid in s.actions && s.actions[tid].Reconciling? && Tracked(s, k)
    ensures Tracked(AfterReconcile(s, tid, s.actions[tid].serial, resolved), k)
  {
    hide S.SlotInv, Tracked;
    S.ActionFacts(s, tid);
    var serial := s.actions[tid].serial;
    var u := AfterReconcile(s, tid, serial, resolved);
    if Shows(s, serial) {
      FollowedTracks(s, u, tid, serial, resolved, k);
    } else {
      ActionMoves(s, u, tid, k);
    }
  }

  lemma FollowedTracks(s: State, u: State, tid: nat, serial: nat, resolved: bool, k: Key)
    requires Shows(s, serial) && tid in s.actions && s.actions[tid].Reconciling? && u == AfterReconcile(s, tid, serial, resolved)
    requires S.Terminal(s.request.value.status) && Tracked(s, k)
    ensures Tracked(u, k)
  {
    hide Tracked;
    StatusTracks(s, u, tid, k);
  }

  lemma ResumeTracks(s: State, tid: nat, ok: bool, stray: bool, k: Key)
    requires S.SlotInv(s) && AnswerInv(s) && tid in s.actions && Returned(s.actions[tid]) && Tracked(s, k)
    requires !ActionExcused(s, s.actions[tid], ok, ok || stray, k)
    ensures Tracked(StepResume(s, tid, ok, ok || stray), k)
  {
    hide S.SlotInv, AnswerInv, Tracked, Finish, AfterLookup, AfterRefusal, AfterCancel, AfterAnswer, AfterDelivery, AfterConfirm,
         AfterReconcile, AfterInforming, AfterRecovery, AfterPrepare, Dismiss, Queued;
    match s.actions[tid]
    case Looking(_, _, _) => LookupTracks(s, tid, ok, k);
    case Retrying(_) => RetryTracks(s, tid, ok, k);
    case Refusing(_, _, _) => RefusalTracks(s, tid, ok, ok || stray, k);
    case Preparing(_, _, _) => PrepareTracks(s, tid, k);
    case Cancelling(_, _, _, _, _) => CancelTracks(s, tid, k);
    case Answering(_, _) => AnswerTracks(s, tid, ok, ok || stray, k);
    case Delivering(_, _, _, _, _) => DeliveryTracks(s, tid, ok, ok || stray, k);
    case Acking(_, _, _, _, _, _) => AckTracks(s, tid, k);
    case Confirming(_, _, _, _) => ConfirmTracks(s, tid, k);
    case Informing(_, _, _) => InformTracks(s, tid, ok, ok || stray, k);
    case Reconciling(_, _, resolved) => ReconcileTracks(s, tid, resolved.value, k);
    case Recovering(_, _, cleared) => RecoveryEnds(s, tid, cleared.value, k);
  }

  lemma RetryTracks(s: State, tid: nat, ok: bool, k: Key)
    requires tid in s.actions && s.actions[tid].Retrying? && Tracked(s, k) && !(s.actions[tid].key == k && !ok)
    ensures Tracked(if ok then Goto(s, tid, Looking(s.actions[tid].key, false, None)) else Drop(s, tid), k)
  {
    hide Tracked;
    ActionMoves(s, if ok then Goto(s, tid, Looking(s.actions[tid].key, false, None)) else Drop(s, tid), tid, k);
  }

  // ---- The other events

  /** The backend starts no lookup, prepare or response. */
  predicate Steady(t: Action, u: Action) {
    u.Informing? || u.Looking? || u.Retrying? || u.Preparing? ==> u == t
  }

  /** The backend moves its action on; nothing is claimed or owed anew. */
  lemma BackendTracks(s: State, tid: nat, ok: bool, marked: bool, reply: ConfirmReply, k: Key)
    requires tid in s.actions && Tracked(s, k)
    ensures Tracked(StepBackend(s, tid, ok, marked, reply), k)
  {
    hide Tracked;
    var u := StepBackend(s, tid, ok, marked, reply);
    BackendLeaves(s, tid, ok, marked, reply);
    hide StepBackend;
    ActionMoves(s, u, tid, k);
  }

  lemma BackendLeaves(s: State, tid: nat, ok: bool, marked: bool, reply: ConfirmReply)
    requires tid in s.actions
    ensures
      var u := StepBackend(s, tid, ok, marked, reply);
      && u.request == s.request && u.queue == s.queue && u.past.errors == s.past.errors && u.past.results == s.past.results
      && tid in u.actions && u.actions == s.actions[tid := u.actions[tid]]
      && ClaimOf(u.actions[tid]) == ClaimOf(s.actions[tid]) && ResultOf(u.actions[tid]) == ResultOf(s.actions[tid])
      && u.delivered == s.delivered && Steady(s.actions[tid], u.actions[tid])
  {
    if s.actions[tid].Confirming? || s.actions[tid].Reconciling? {
      PublishersLeave(s, tid, ok, marked, reply);
      assert s.actions == s.actions[tid := s.actions[tid]];
      hide StepConfirm, StepReconcile, BackendAck, BackendCancel;
    } else {
      CallersLeave(s, tid, ok, marked, reply);
    }
  }

  lemma CallersLeave(s: State, tid: nat, ok: bool, marked: bool, reply: ConfirmReply)
    requires tid in s.actions && !s.actions[tid].Confirming? && !s.actions[tid].Reconciling?
    ensures
      var u := StepBackend(s, tid, ok, marked, reply);
      && u.request == s.request && u.queue == s.queue && u.past.errors == s.past.errors && u.past.results == s.past.results
      && tid in u.actions && u.actions == s.actions[tid := u.actions[tid]]
      && ClaimOf(u.actions[tid]) == ClaimOf(s.actions[tid]) && ResultOf(u.actions[tid]) == ResultOf(s.actions[tid])
      && u.delivered == s.delivered && Steady(s.actions[tid], u.actions[tid])
  {
    hide StepConfirm, StepReconcile, Droppable;
    assert s.actions == s.actions[tid := s.actions[tid]];
  }

  lemma PublishersLeave(s: State, tid: nat, ok: bool, marked: bool, reply: ConfirmReply)
    requires tid in s.actions
    ensures
      s.actions[tid].Confirming? ==>
        var u := StepConfirm(s, tid, s.actions[tid], ok, reply);
        && u.request == s.request && u.queue == s.queue && u.past.errors == s.past.errors && u.past.results == s.past.results
        && tid in u.actions && u.actions == s.actions[tid := u.actions[tid]] && u.actions[tid].Confirming? && u.delivered == s.delivered
    ensures
      s.actions[tid].Reconciling? ==>
        var u := StepReconcile(s, tid, s.actions[tid], ok, marked, reply);
        && u.request == s.request && u.queue == s.queue && u.past.errors == s.past.errors && u.past.results == s.past.results
        && tid in u.actions && u.actions == s.actions[tid := u.actions[tid]] && u.actions[tid].Reconciling? && u.delivered == s.delivered
  {
    hide Droppable;
    assert s.actions == s.actions[tid := s.actions[tid]];
  }

  lemma WithdrawTracks(s: State, k: Key)
    requires s.next !in s.actions && s.request.Some? && Cancellable(s.request.value) && Tracked(s, k)
    ensures Tracked(Withdraw(s, true), k)
    ensures s.request.value.key != k ==> Tracked(Withdraw(s, false), k)
  {
    hide Tracked;
    var r, answered, silent := s.request.value, Withdraw(s, true), Withdraw(s, false);
    if r.key == k { ActionTracks(answered, s.next, k); }
    if Queued(s.queue, k) { SameQueueTracks(s, answered, k); SameQueueTracks(s, silent, k); }
    OthersStay(s, answered, s.next, k);
    if r.key != k { OthersStay(s, silent, s.next, k); }
  }

  lemma MarkTracks(s: State, hit: Key -> bool, k: Key)
    requires Tracked(s, k) && !hit(k)
    ensures Tracked(MarkEnded(s, hit), k)
  {
    var u := MarkEnded(s, hit);
    if x :| x in s.actions && (ClaimOf(s.actions[x]) == Some(k) || ResultOf(s.actions[x]) == Some(k)) {
      ActionTracks(u, x, k);
    } else if Queued(s.queue, k) {
      var r :| r in s.queue && r.key == k && !r.local;
      KeptInEndQueue(s.queue, hit, r);
      QueueTracks(u, r);
    } else if RequestClaim(s) == Some(k) || RequestResult(s) == Some(k) {
      RequestTracks(u, k);
    }
  }

  lemma {:induction false} KeptInEndQueue(q: seq<Replay>, hit: Key -> bool, r: Replay)
    requires r in q && !hit(r.key)
    ensures r in EndQueue(q, hit)
  {
    if r != q[0] { KeptInEndQueue(q[1..], hit, r); }
  }

  lemma EndTracks(s: State, hit: Key -> bool, k: Key)
    requires s.next !in s.actions && Tracked(s, k) && !hit(k)
    ensures Tracked(End(s, hit), k)
  {
    hide Tracked;
    var marked := MarkEnded(s, hit);
    MarkTracks(s, hit, k);
    if s.request.Some? && !s.request.value.local && hit(s.request.value.key) {
      if Cancellable(s.request.value) {
        WithdrawTracks(marked, k);
      } else {
        StatusTracks(marked, marked.(request := Some(s.request.value.(ended := true))), s.next, k);
      }
    }
  }

  lemma LockTracks(s: State, k: Key)
    requires s.next !in s.actions && Tracked(s, k)
    ensures Tracked(StepLocked(s), k) && Tracked(StepAccount(s), k)
  {
    hide Tracked;
    var t := CancelPreparing(s);
    ActionMoves(s, t, s.next, k);
    if s.request.Some? && Cancellable(s.request.value) { WithdrawTracks(t, k); }
  }

  lemma ApproveTracks(s: State, expired: bool, k: Key)
    requires s.next !in s.actions && S.RequestOk(s) && s.request.Some? && s.request.value.status == Awaiting && Tracked(s, k)
    requires !(expired && s.request.value.key == k)
    ensures Tracked(StepApprove(s, expired), k)
  {
    hide Tracked;
    if expired { WithdrawTracks(s, k); } else { StatusTracks(s, StepApprove(s, false), s.next, k); }
  }

  lemma CloseTracks(s: State, k: Key)
    requires s.next !in s.actions && Tracked(s, k)
    requires !(s.request.Some? && s.request.value.key == k && s.request.value.status in {DeliveryError, Unknown, Recovered})
    ensures Tracked(StepClose(s), k)
  {
    hide Tracked, Drain;
    var t := if s.request.Some? && s.request.value.status in {DeliveryError, Unknown, Recovered} then s.(request := None) else s;
    if Queued(s.queue, k) { SameQueueTracks(s, t, k); }
    if RequestClaim(t) == Some(k) || RequestResult(t) == Some(k) { RequestTracks(t, k); }
    OthersStay(s, t, s.next, k);
    DrainTracks(t, k);
  }

  lemma RetryDeliveryTracks(s: State, k: Key)
    requires s.next !in s.actions && s.request.Some? && s.request.value.status == DeliveryError && Tracked(s, k)
    ensures Tracked(StepRetry(s), k)
  {
    hide Tracked;
    StatusTracks(s, StepRetry(s), s.next, k);
  }

  /** Arrivals, reconciles and acknowledgements start an action; first-party holds leave
      the store alone. */
  lemma NewActionTracks(s: State, e: Event, k: Key)
    requires s.next !in s.actions && Enabled(s, e) && Tracked(s, k)
    requires e.Arrive? || e.Reconcile? || e.Acknowledge? || e.SessionClears? || e.FirstPartyHolds? || e.FirstPartyEnds?
    ensures Tracked(Next(s, e), k)
  {
    hide Tracked, Finds;
    ActionMoves(s, Next(s, e), s.next, k);
  }

  lemma AnswerArrives(s: State, tid: nat, reply: Reply, k: Key)
    requires tid in s.actions && Tracked(s, k)
    ensures Tracked(StepAnswer(s, tid, s.actions[tid], reply), k)
  {
    hide Tracked;
    ActionMoves(s, StepAnswer(s, tid, s.actions[tid], reply), tid, k);
  }

  /** One step loses a request only with an excuse. */
  lemma StepTracks(s: State, e: Event, k: Key)
    requires S.SlotInv(s) && AnswerInv(s) && Enabled(s, e) && Tracked(s, k) && !Excused(s, e, k)
    ensures Tracked(Next(s, e), k)
  {
    hide S.SlotInv, AnswerInv, Tracked, StepResume, StepBackend, StepAnswer, StepApprove, StepRetry, StepClose, Drain, Withdraw, End,
         StepLocked, StepAccount, Reborn, Finds, ActionExcused;
    S.Facts(s);
    match e
    case Answer(tid, reply) => AnswerArrives(s, tid, reply, k);
    case Backend(tid, ok, marked, reply) => BackendTracks(s, tid, ok, marked, reply, k);
    case Resume(tid, ok, stray) => ResumeTracks(s, tid, ok, stray, k);
    case Approve(expired) => ApproveTracks(s, expired, k);
    case Reject => WithdrawTracks(s, k);
    case RetryDelivery => RetryDeliveryTracks(s, k);
    case CloseLocally => CloseTracks(s, k);
    case AccountChanged => LockTracks(s, k);
    case WalletLocked => LockTracks(s, k);
    case Surface => DrainTracks(s, k);
    case SessionEnded(topic) => EndTracks(s, (x: Key) => x.topic == topic, k);
    case Expired(id, passed) => EndTracks(s, (x: Key) => x.id == id && x in passed, k);
    case _ => NewActionTracks(s, e, k);
  }

  // ---- Over runs

  lemma {:induction false} TrackedUntilExcused(r: Run, i: nat, j: nat, k: Key)
    requires ValidRun(r) && i < j < |r.states| && r.events[i] == Arrive(k)
    requires forall m | i < m < j :: !Excused(r.states[m], r.events[m], k)
    ensures Tracked(r.states[j], k)
  {
    hide ValidRun, S.SlotInv, AnswerInv, H.HoldInv, Enabled, Next, Tracked, Excused;
    StepOf(r, j - 1);
    RunKeeps(r, j - 1);
    if j == i + 1 {
      ArrivalIsTracked(r.states[i], k);
    } else {
      TrackedUntilExcused(r, i, j - 1, k);
      StepTracks(r.states[j - 1], r.events[j - 1], k);
    }
  }

  lemma StepOf(r: Run, i: nat)
    requires ValidRun(r) && i + 1 < |r.states|
    ensures |r.states| == |r.events| + 1 && Enabled(r.states[i], r.events[i]) && r.states[i + 1] == Next(r.states[i], r.events[i])
  {
    assert ValidStep(r.states[i], r.events[i], r.states[i + 1]);
  }

  lemma ArrivalIsTracked(s: State, k: Key)
    requires Enabled(s, Arrive(k))
    ensures Tracked(Next(s, Arrive(k)), k)
  {
    hide Tracked;
    ActionTracks(Next(s, Arrive(k)), s.next, k);
  }

  /** Nothing shown, queued or suspended. */
  predicate AtRest(s: State) {
    s.request.None? && s.queue == [] && s.actions == map[]
  }

  /** Whenever the store is at rest, every request delivered in this process that was
      not let go for one of the listed reasons has been answered, by an error or a
      result. */
  lemma NoRequestIsLost(r: Run, i: nat, j: nat, k: Key)
    requires ValidRun(r) && i < j < |r.states| && r.events[i] == Arrive(k) && AtRest(r.states[j])
    requires forall m | i < m < j :: !Excused(r.states[m], r.events[m], k)
    ensures k in r.states[j].past.errors || k in r.states[j].past.results
  {
    hide ValidRun, Excused;
    TrackedUntilExcused(r, i, j, k);
  }
}
