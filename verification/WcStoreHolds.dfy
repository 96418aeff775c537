/** Hold conservation: every hold the backend keeps for a WalletConnect request is
    owned by the displayed request or by one action that will show or cancel it. */
module WcStoreHolds {
  import opened TxTypes
  import opened WcStore
  import S = WcStoreSlots

  predicate Live(status: Status) {
    status == Awaiting || status == Publishing || status == Failed
  }

  /** The displayed request's hold, while it may still be confirmed or cancelled. */
  function LiveHold(s: State): Option<Hold> {
    if s.request.Some? && Live(s.request.value.status)
    then Some(Hold(s.request.value.hold, Some(s.request.value.key))) else None
  }

  /** The hold an action carries. */
  function HoldOf(t: Action): Option<nat> {
    match t
    case Preparing(_, _, Some(Prepared(h))) => Some(h)
    case Cancelling(h, _, _, _, _) => Some(h)
    case _ => None
  }

  /** An action that will still show the hold, or cancel it. */
  predicate Carries(t: Action, h: Hold) {
    match t
    case Preparing(key, _, Some(Prepared(id))) => h == Hold(id, Some(key))
    case Cancelling(id, done, _, _, _) => h.id == id && !done
    case _ => false
  }

  predicate InBackend(t: Action, latch: nat) {
    t.Confirming? && t.hold == latch && (t.stage.Latched? || t.stage.Recorded?)
  }

  ghost predicate Owned(s: State, h: Hold) {
    LiveHold(s) == Some(h) || exists tid :: tid in s.actions && Carries(s.actions[tid], h)
  }

  predicate HoldActionOk(s: State, t: Action) {
    && (HoldOf(t).Some? ==> 0 < HoldOf(t).value <= s.counter)
    && (HoldOf(t).Some? && LiveHold(s).Some? && HoldOf(t).value == LiveHold(s).value.id ==> t.Cancelling? && t.clear.Some?)
    && (t.Preparing? && HoldOf(t).Some? && s.hold.Some? && s.hold.value.id == HoldOf(t).value ==> s.hold.value.wc == Some(t.key))
    && (t.Cancelling? && t.done && s.hold.Some? ==> s.hold.value.id != t.hold)
    && (t.Confirming? && (t.stage.Latched? || t.stage.Recorded?) ==> t.stage.id == t.key)
    && (t.Confirming? && t.stage.Replied? && t.stage.reply != Refused && s.hold.Some? ==> s.hold.value.id != t.hold)
  }

  ghost predicate ActionsOk(s: State) {
    forall tid :: tid in s.actions ==> HoldActionOk(s, s.actions[tid])
  }

  ghost predicate Distinct(s: State) {
    forall a, b | a in s.actions && b in s.actions && a != b ::
      HoldOf(s.actions[a]).None? || HoldOf(s.actions[a]) != HoldOf(s.actions[b])
  }

  predicate NumbersOk(s: State) {
    && (s.hold.Some? ==> 0 < s.hold.value.id <= s.counter)
    && (LiveHold(s).Some? ==> 0 < LiveHold(s).value.id <= s.counter)
    && (LiveHold(s).Some? && s.hold.Some? && s.hold.value.id == LiveHold(s).value.id ==> s.hold == LiveHold(s))
  }

  ghost predicate Conserved(s: State) {
    s.hold.Some? && s.hold.value.wc.Some? ==> Owned(s, s.hold.value)
  }

  ghost predicate LatchOk(s: State) {
    s.latch != 0 ==> exists tid :: tid in s.actions && InBackend(s.actions[tid], s.latch)
  }

  ghost predicate HoldInv(s: State) {
    ActionsOk(s) && Distinct(s) && NumbersOk(s) && Conserved(s) && LatchOk(s)
  }

  predicate Relevant(t: Action) {
    HoldOf(t).Some? || t.Confirming?
  }

  /** A step that moves no hold. */
  ghost predicate Calm(s: State, t: State) {
    && t.hold == s.hold && t.counter == s.counter && t.latch == s.latch && LiveHold(t) == LiveHold(s)
    && (forall tid :: tid in t.actions && Relevant(t.actions[tid]) ==> tid in s.actions && s.actions[tid] == t.actions[tid])
    && (forall tid :: tid in s.actions && Relevant(s.actions[tid]) ==> tid in t.actions && s.actions[tid] == t.actions[tid])
  }

  lemma CalmKeeps(s: State, t: State)
    requires HoldInv(s) && Calm(s, t)
    ensures HoldInv(t)
  {
    forall tid | tid in t.actions ensures HoldActionOk(t, t.actions[tid]) {
      if Relevant(t.actions[tid]) { assert HoldActionOk(s, s.actions[tid]); }
    }
    if s.hold.Some? && s.hold.value.wc.Some? && LiveHold(s) != Some(s.hold.value) {
      var tid :| tid in s.actions && Carries(s.actions[tid], s.hold.value);
      assert tid in t.actions && Carries(t.actions[tid], s.hold.value);
    }
    if s.latch != 0 {
      var tid :| tid in s.actions && InBackend(s.actions[tid], s.latch);
      assert tid in t.actions && InBackend(t.actions[tid], s.latch);
    }
  }

  ghost predicate Fresh(s: State) {
    forall tid :: tid in s.actions ==> tid < s.next
  }

  lemma FinishIsCalm(s: State, slot: Option<nat>, drain: bool)
    requires Fresh(s)
    ensures Calm(s, Finish(s, slot, drain))
  {}

  lemma CalmIsTransitive(s: State, t: State, u: State)
    requires Calm(s, t) && Calm(t, u)
    ensures Calm(s, u)
  {}

  /** An action that carries no hold may end or become another such action. */
  lemma EditIsCalm(s: State, t: State, tid: nat)
    requires tid in s.actions ==> !Relevant(s.actions[tid])
    requires t.actions == s.actions - {tid} || (tid in t.actions && t.actions == s.actions[tid := t.actions[tid]] && !Relevant(t.actions[tid]))
    requires t.hold == s.hold && t.counter == s.counter && t.latch == s.latch && LiveHold(t) == LiveHold(s)
    ensures Calm(s, t)
  {}

  lemma EditThenFinish(s: State, t: State, tid: nat, slot: Option<nat>, drain: bool)
    requires Fresh(t)
    requires tid in s.actions && !Relevant(s.actions[tid]) && t.actions == s.actions - {tid}
    requires t.hold == s.hold && t.counter == s.counter && t.latch == s.latch && LiveHold(t) == LiveHold(s)
    ensures Calm(s, Finish(t, slot, drain))
  {
    EditIsCalm(s, t, tid);
    FinishIsCalm(t, slot, drain);
    hide Calm;
    CalmIsTransitive(s, t, Finish(t, slot, drain));
  }

  // ---- The continuations of the actions that carry no hold

  lemma AfterLookupIsCalm(s: State, tid: nat, ok: bool)
    requires tid in s.actions && s.actions[tid].Looking? && s.actions[tid].found.Some?
    ensures Calm(s, AfterLookup(s, tid, s.actions[tid].key, s.actions[tid].ended, s.actions[tid].found.value, ok))
  {
    hide Calm, Without;
    EditIsCalm(s, AfterLookup(s, tid, s.actions[tid].key, s.actions[tid].ended, s.actions[tid].found.value, ok), tid);
  }

  lemma RefusalIsCalm(s: State, tid: nat, ok: bool, sent: bool)
    requires Fresh(s) && tid in s.actions && s.actions[tid].Refusing?
    ensures Calm(s, AfterRefusal(s, tid, s.actions[tid].key, s.actions[tid].recover, s.actions[tid].slot, ok, sent))
  {
    hide Calm, Finish;
    var key, recover, slot := s.actions[tid].key, s.actions[tid].recover, s.actions[tid].slot;
    var t, u := Errored(Drop(s, tid), key, sent), AfterRefusal(s, tid, key, recover, slot, ok, sent);
    if ok && recover.Some? {
      EditThenFinish(s, if Free(t) then ShowUnknown(t, recover.value, recover.value, true)
                        else Enqueue(t, Replay(recover.value, recover.value, false, true)), tid, slot, slot.Some?);
    } else if ok || recover.None? || slot.None? || (Holds(s, slot) && s.preparing.value.ended) {
      EditThenFinish(s, t, tid, slot, slot.Some?);
    } else {
      assert u.actions == s.actions[tid := u.actions[tid]];
      EditIsCalm(s, u, tid);
    }
  }

  lemma AnswerIsCalm(s: State, tid: nat, ok: bool, sent: bool)
    requires Fresh(s) && tid in s.actions && s.actions[tid].Answering?
    ensures Calm(s, AfterAnswer(s, tid, s.actions[tid].key, s.actions[tid].slot, ok, sent))
  {
    hide Calm;
    var key, slot := s.actions[tid].key, s.actions[tid].slot;
    EditThenFinish(s, Errored(Drop(s, tid), key, sent), tid, slot, ok || slot.Some?);
  }

  lemma DeliveryIsCalm(s: State, tid: nat, ok: bool, sent: bool)
    requires Fresh(s) && tid in s.actions && s.actions[tid].Delivering?
    ensures
      var d := s.actions[tid];
      Calm(s, AfterDelivery(s, tid, d.key, d.owner, d.slot, d.marker, d.drain, ok, sent))
  {
    hide Calm;
    var d := s.actions[tid];
    var t := Resulted(s, d.key, sent);
    if ok {
      EditIsCalm(s, Goto(t, tid, Acking(d.key, d.owner, false, d.slot, d.drain, None)), tid);
    } else {
      var mine := d.marker && Holds(s, d.slot);
      var u :=
        if s.request.None? && (s.preparing.None? || mine)
        then Drop(t, tid).(request := Some(Request(s.next, d.key, d.owner, DeliveryError, 0, mine && s.preparing.value.ended, true, false)),
                           next := s.next + 1)
        else Enqueue(Drop(t, tid), Replay(d.key, d.owner, true, false));
      EditThenFinish(s, u, tid, d.slot, d.drain);
    }
  }

  lemma AckIsCalm(s: State, tid: nat)
    requires S.SlotInv(s) && tid in s.actions && s.actions[tid].Acking?
    ensures Calm(s, Finish(Dismiss(Drop(s, tid), s.actions[tid].dismiss), s.actions[tid].slot, s.actions[tid].drain))
  {
    assert S.ActionOk(s, s.actions[tid]) && Fresh(s);
    hide S.SlotInv, Calm;
    EditThenFinish(s, Dismiss(Drop(s, tid), s.actions[tid].dismiss), tid, s.actions[tid].slot, s.actions[tid].drain);
  }

  lemma RecoveryIsCalm(s: State, tid: nat, cleared: bool)
    requires S.SlotInv(s) && tid in s.actions && s.actions[tid].Recovering?
    ensures Calm(s, AfterRecovery(s, tid, s.actions[tid].serial, cleared))
  {
    assert S.ActionOk(s, s.actions[tid]) && Fresh(s);
    hide S.SlotInv, Calm;
    EditIsCalm(s, Drop(s, tid), tid);
    EditThenFinish(s, Dismiss(Drop(s, tid), Some(s.actions[tid].serial)), tid, None, true);
  }

  lemma ReportIsCalm(s: State, tid: nat, ok: bool, sent: bool, resolved: bool)
    requires S.SlotInv(s) && tid in s.actions
    ensures
      var t := s.actions[tid];
      && (t.Informing? ==> Calm(s, AfterInforming(s, tid, t.serial, t.key, t.owner, ok, sent)))
      && (t.Reconciling? ==> Calm(s, AfterReconcile(s, tid, t.serial, resolved)))
  {
    hide S.SlotInv, Calm;
    S.ActionFacts(s, tid);
    var t := s.actions[tid];
    if t.Informing? { EditIsCalm(s, AfterInforming(s, tid, t.serial, t.key, t.owner, ok, sent), tid); }
    if t.Reconciling? { EditIsCalm(s, AfterReconcile(s, tid, t.serial, resolved), tid); }
  }

  // ---- The steps that move a hold

  /** One action moves; the others keep what they carried. */
  ghost predicate OnlyMoves(s: State, u: State, tid: nat) {
    && (forall x :: x in s.actions && x != tid ==> x in u.actions && u.actions[x] == s.actions[x])
    && (forall x :: x in u.actions && x != tid ==> x in s.actions)
  }

  /** What a caller that does not look inside may use. */
  lemma ActionFacts(s: State, tid: nat)
    requires HoldInv(s) && tid in s.actions
    ensures HoldActionOk(s, s.actions[tid]) && NumbersOk(s)
  {}

  lemma OthersKeep(s: State, u: State, tid: nat)
    requires HoldInv(s) && OnlyMoves(s, u, tid) && (tid in u.actions ==> HoldActionOk(u, u.actions[tid]))
    requires u.counter >= s.counter && (LiveHold(u) == LiveHold(s) || LiveHold(u).None?)
    requires u.hold == s.hold || u.hold.None? || (u.hold.value.id > s.counter && S.SlotInv(s))
    ensures ActionsOk(u)
  {
    forall x | x in u.actions ensures HoldActionOk(u, u.actions[x]) {
      if x != tid {
        assert HoldActionOk(s, s.actions[x]);
        if u.hold.Some? && u.hold.value.id > s.counter { assert S.ActionOk(s, s.actions[x]); }
      }
    }
  }

  lemma DistinctKeeps(s: State, u: State, tid: nat)
    requires HoldInv(s) && OnlyMoves(s, u, tid)
    requires tid in u.actions && HoldOf(u.actions[tid]).Some? ==>
               || (tid in s.actions && HoldOf(s.actions[tid]) == HoldOf(u.actions[tid]))
               || HoldOf(u.actions[tid]).value > s.counter
               || forall x :: x in s.actions ==> HoldOf(s.actions[x]) != HoldOf(u.actions[tid])
    ensures Distinct(u)
  {
    forall x | x in s.actions ensures HoldOf(s.actions[x]).Some? ==> HoldOf(s.actions[x]).value <= s.counter {
      assert HoldActionOk(s, s.actions[x]);
    }
  }

  lemma FinishKeeps(s: State, slot: Option<nat>, drain: bool)
    requires HoldInv(s) && Fresh(s)
    ensures HoldInv(Finish(s, slot, drain))
  {
    FinishIsCalm(s, slot, drain);
    CalmKeeps(s, Finish(s, slot, drain));
  }

  /** A prepared hold is shown, or goes to its cancellation. */
  lemma PreparedKeeps(s: State, tid: nat)
    requires HoldInv(s) && S.SlotInv(s) && tid in s.actions && s.actions[tid].Preparing? && HoldOf(s.actions[tid]).Some?
    ensures
      var t := s.actions[tid];
      HoldInv(AfterPrepare(s, tid, t.key, t.token, t.found.value))
  {
    var t := s.actions[tid];
    var h := t.found.value.hold;
    assert S.ActionOk(s, t) && S.RequestOk(s);
    if s.preparing.value.ended || s.preparing.value.cancelled {
      CancelLater(s, tid, h);
    } else {
      ShowPrepared(s, tid, h);
      var u := Drop(s, tid).(request := Some(Request(s.next, t.key, t.key, Awaiting, h, false, false, false)), next := s.next + 1);
      hide HoldInv;
      assert Fresh(u);
      FinishKeeps(u, Some(t.token), true);
    }
  }

  lemma CancelLater(s: State, tid: nat, h: nat)
    requires HoldInv(s) && S.SlotInv(s) && tid in s.actions && s.actions[tid].Preparing?
    requires HoldOf(s.actions[tid]) == Some(h)
    ensures HoldInv(Goto(s, tid, Cancelling(h, false, Some(s.actions[tid].key), None, Some(s.actions[tid].token))))
  {
    hide HoldInv, S.SlotInv;
    var t := s.actions[tid];
    var u := Goto(s, tid, Cancelling(h, false, Some(t.key), None, Some(t.token)));
    S.ActionFacts(s, tid);
    S.Facts(s);
    ActionFacts(s, tid);
    assert s.hold.Some? && Carries(t, s.hold.value) ==> Carries(u.actions[tid], s.hold.value);
    MoveKeeps(s, u, tid);
  }

  /** Owners survive a step of one action, if that one still carries what it carried. */
  lemma KeepOwner(s: State, u: State, tid: nat)
    requires HoldInv(s)
    requires forall x :: x in s.actions && x != tid ==> x in u.actions && u.actions[x] == s.actions[x]
    requires u.hold == s.hold
    requires s.hold.Some? && LiveHold(s) == s.hold ==> Owned(u, s.hold.value)
    requires s.hold.Some? && tid in s.actions && Carries(s.actions[tid], s.hold.value) ==> Owned(u, s.hold.value)
    ensures Conserved(u)
  {
    if s.hold.Some? && s.hold.value.wc.Some? && LiveHold(s) != s.hold {
      var x :| x in s.actions && Carries(s.actions[x], s.hold.value);
      if x != tid { assert x in u.actions && Carries(u.actions[x], s.hold.value); }
    }
  }

  lemma KeepLatch(s: State, u: State, tid: nat)
    requires HoldInv(s)
    requires forall x :: x in s.actions && x != tid ==> x in u.actions && u.actions[x] == s.actions[x]
    requires u.latch == s.latch && (tid in s.actions ==> !InBackend(s.actions[tid], s.latch))
    ensures LatchOk(u)
  {
    if s.latch != 0 {
      var x :| x in s.actions && InBackend(s.actions[x], s.latch);
      assert x in u.actions && InBackend(u.actions[x], u.latch);
    }
  }

  /** One action moves on or ends, outside the backend, and leaves no hold behind. */
  lemma MoveKeeps(s: State, u: State, tid: nat)
    requires HoldInv(s) && tid in s.actions && OnlyMoves(s, u, tid)
    requires u.hold == s.hold && u.counter == s.counter && u.latch == s.latch
    requires LiveHold(u) == LiveHold(s) || LiveHold(u).None?
    requires tid in u.actions ==> HoldActionOk(u, u.actions[tid])
    requires tid in u.actions && HoldOf(u.actions[tid]).Some? ==>
               || HoldOf(u.actions[tid]) == HoldOf(s.actions[tid])
               || forall x :: x in s.actions ==> HoldOf(s.actions[x]) != HoldOf(u.actions[tid])
    requires s.hold.Some? && (LiveHold(s) == s.hold || Carries(s.actions[tid], s.hold.value)) ==> Owned(u, s.hold.value)
    requires !InBackend(s.actions[tid], s.latch)
    ensures HoldInv(u)
  {
    ActionFacts(s, tid);
    hide HoldActionOk;
    OthersKeep(s, u, tid);
    DistinctKeeps(s, u, tid);
    KeepOwner(s, u, tid);
    KeepLatch(s, u, tid);
    hide ActionsOk, Distinct, Conserved, LatchOk;
  }

  lemma ShowPrepared(s: State, tid: nat, h: nat)
    requires HoldInv(s) && S.SlotInv(s) && tid in s.actions && s.actions[tid].Preparing?
    requires HoldOf(s.actions[tid]) == Some(h)
    ensures HoldInv(Drop(s, tid).(request := Some(Request(s.next, s.actions[tid].key, s.actions[tid].key, Awaiting, h, false, false, false)),
                                  next := s.next + 1))
  {
    var t := s.actions[tid];
    var u := Drop(s, tid).(request := Some(Request(s.next, t.key, t.key, Awaiting, h, false, false, false)), next := s.next + 1);
    assert S.ActionOk(s, t) && S.RequestOk(s) && s.request.None?;
    hide S.SlotInv;
    forall x | x in u.actions ensures HoldActionOk(u, u.actions[x]) { assert HoldActionOk(s, s.actions[x]) && HoldActionOk(s, t); }
    KeepOwner(s, u, tid);
    KeepLatch(s, u, tid);
  }

  /** A finished cancellation: its hold is gone from the backend. */
  lemma CancelledKeeps(s: State, u: State, tid: nat)
    requires HoldInv(s) && S.SlotInv(s) && tid in s.actions && s.actions[tid].Cancelling? && s.actions[tid].done
    requires u.actions == s.actions - {tid} || (tid in u.actions && u.actions == s.actions[tid := u.actions[tid]] && !Relevant(u.actions[tid]))
    requires u.hold == s.hold && u.counter == s.counter && u.latch == s.latch
    requires LiveHold(u) == LiveHold(s) || (s.actions[tid].clear.Some? && LiveHold(u).None?)
    requires s.actions[tid].clear.Some? ==> LiveHold(u).None?
    ensures HoldInv(u)
  {
    hide HoldInv, S.SlotInv;
    S.ActionFacts(s, tid);
    ActionFacts(s, tid);
    MoveKeeps(s, u, tid);
  }

  lemma AfterCancelKeeps(s: State, tid: nat)
    requires HoldInv(s) && S.SlotInv(s) && tid in s.actions && s.actions[tid].Cancelling? && s.actions[tid].done
    ensures HoldInv(AfterCancel(s, tid, s.actions[tid].answer, s.actions[tid].clear, s.actions[tid].slot))
  {
    var t := s.actions[tid];
    assert S.ActionOk(s, t) && Fresh(s);
    hide HoldInv, S.SlotInv;
    if t.answer.Some? && (t.slot.None? || Overtaken(s, t.slot)) {
      CancelledKeeps(s, Goto(s, tid, Answering(t.answer.value, t.slot)), tid);
    } else {
      var u := Dismiss(Drop(s, tid), t.clear);
      CancelledKeeps(s, u, tid);
      FinishKeeps(u, t.slot, true);
    }
  }

  /** A confirm that published, or may have, leaves no hold behind; a refused one
      leaves its hold to the request. */
  lemma ConfirmedKeeps(s: State, u: State, tid: nat)
    requires HoldInv(s) && S.SlotInv(s) && tid in s.actions && s.actions[tid].Confirming?
    requires s.actions[tid].stage.Replied?
    requires u.actions == s.actions - {tid} || (tid in u.actions && u.actions == s.actions[tid := u.actions[tid]] && !Relevant(u.actions[tid]))
    requires u.hold == s.hold && u.counter == s.counter && u.latch == s.latch
    requires LiveHold(u) == LiveHold(s) || (s.actions[tid].stage.reply != Refused && LiveHold(u).None?)
    ensures HoldInv(u)
  {
    hide HoldInv, S.SlotInv;
    S.ActionFacts(s, tid);
    ActionFacts(s, tid);
    MoveKeeps(s, u, tid);
  }

  /** No action carries the hold of a confirm. */
  lemma ConfirmedAlone(s: State, tid: nat)
    requires HoldInv(s) && S.SlotInv(s) && tid in s.actions && s.actions[tid].Confirming?
    ensures forall x :: x in s.actions ==> HoldOf(s.actions[x]) != Some(s.actions[tid].hold)
  {
    hide HoldInv, S.SlotInv;
    S.ActionFacts(s, tid);
    OneDriver(s);
    forall x | x in s.actions ensures HoldOf(s.actions[x]) != Some(s.actions[tid].hold) { ActionFacts(s, x); }
  }

  lemma OneDriver(s: State)
    requires S.SlotInv(s)
    ensures S.Exclusive(s)
  {}

  lemma EndedConfirmKeeps(s: State, tid: nat)
    requires HoldInv(s) && S.SlotInv(s) && tid in s.actions && s.actions[tid].Confirming?
    requires s.actions[tid].stage == Replied(Refused)
    ensures HoldInv(Goto(s, tid, Cancelling(s.actions[tid].hold, false, None, Some(s.actions[tid].serial), None)))
  {
    hide HoldInv, S.SlotInv;
    var t := s.actions[tid];
    var u := Goto(s, tid, Cancelling(t.hold, false, None, Some(t.serial), None));
    S.ActionFacts(s, tid);
    ActionFacts(s, tid);
    ConfirmedAlone(s, tid);
    MoveKeeps(s, u, tid);
  }

  lemma AfterConfirmKeeps(s: State, tid: nat)
    requires HoldInv(s) && S.SlotInv(s) && tid in s.actions && s.actions[tid].Confirming?
    requires s.actions[tid].stage.Replied?
    ensures HoldInv(AfterConfirm(s, tid, s.actions[tid].serial, s.actions[tid].hold, s.actions[tid].stage.reply))
  {
    hide HoldInv, S.SlotInv;
    var t := s.actions[tid];
    S.ActionFacts(s, tid);
    var u := AfterConfirm(s, tid, t.serial, t.hold, t.stage.reply);
    if t.stage.reply == Refused && s.request.value.ended { EndedConfirmKeeps(s, tid); } else { ConfirmedKeeps(s, u, tid); }
  }

  lemma ResumeKeeps(s: State, tid: nat, ok: bool, sent: bool)
    requires HoldInv(s) && S.SlotInv(s) && tid in s.actions && Returned(s.actions[tid])
    ensures HoldInv(StepResume(s, tid, ok, sent))
  {
    assert Fresh(s);
    var u := StepResume(s, tid, ok, sent);
    hide HoldInv, S.SlotInv, Calm, Finish, AfterLookup, AfterRefusal, AfterCancel, AfterAnswer, AfterDelivery, AfterConfirm,
         AfterReconcile, AfterInforming, AfterRecovery, AfterPrepare;
    match s.actions[tid]
    case Looking(_, _, _) => AfterLookupIsCalm(s, tid, ok); CalmKeeps(s, u);
    case Retrying(_) => EditIsCalm(s, u, tid); CalmKeeps(s, u);
    case Refusing(_, _, _) => RefusalIsCalm(s, tid, ok, sent); CalmKeeps(s, u);
    case Preparing(_, _, _) => if HoldOf(s.actions[tid]).Some? { PreparedKeeps(s, tid); } else { UnpreparedKeeps(s, tid); }
    case Cancelling(_, _, _, _, _) => AfterCancelKeeps(s, tid);
    case Answering(_, _) => AnswerIsCalm(s, tid, ok, sent); CalmKeeps(s, u);
    case Delivering(_, _, _, _, _) => DeliveryIsCalm(s, tid, ok, sent); CalmKeeps(s, u);
    case Acking(_, _, _, _, _, _) => AckIsCalm(s, tid); CalmKeeps(s, u);
    case Confirming(_, _, _, _) => AfterConfirmKeeps(s, tid);
    case Informing(_, _, _) => ReportIsCalm(s, tid, ok, sent, true); CalmKeeps(s, u);
    case Reconciling(_, _, resolved) => ReportIsCalm(s, tid, ok, sent, resolved.value); CalmKeeps(s, u);
    case Recovering(_, _, cleared) => RecoveryIsCalm(s, tid, cleared.value); CalmKeeps(s, u);
  }

  /** A prepare that made no hold. */
  lemma UnpreparedKeeps(s: State, tid: nat)
    requires HoldInv(s) && S.SlotInv(s) && tid in s.actions && s.actions[tid].Preparing? && s.actions[tid].found.Some?
    requires HoldOf(s.actions[tid]).None?
    ensures HoldInv(AfterPrepare(s, tid, s.actions[tid].key, s.actions[tid].token, s.actions[tid].found.value))
  {
    hide HoldInv, S.SlotInv, Calm;
    var t := s.actions[tid];
    S.ActionFacts(s, tid);
    S.Facts(s);
    var u := AfterPrepare(s, tid, t.key, t.token, t.found.value);
    if t.found.value.Unsettled? {
      UnsettledIsCalm(s, tid);
    } else if tid in u.actions {
      EditIsCalm(s, u, tid);
    } else {
      EditThenFinish(s, Drop(s, tid), tid, Some(t.token), true);
    }
    CalmKeeps(s, u);
  }

  lemma UnsettledIsCalm(s: State, tid: nat)
    requires S.SlotInv(s) && tid in s.actions && s.actions[tid].Preparing?
    requires s.actions[tid].found.Some? && s.actions[tid].found.value.Unsettled?
    ensures Calm(s, AfterPrepare(s, tid, s.actions[tid].key, s.actions[tid].token, s.actions[tid].found.value))
  {
    hide S.SlotInv, Calm, Finish, Drain;
    var t := s.actions[tid];
    S.ActionFacts(s, tid);
    S.Facts(s);
    EditThenFinish(s, Drop(s, tid), tid, Some(t.token), true);
    EditThenFinish(s, ShowUnknown(Drop(s, tid), t.key, t.found.value.owner, false), tid, Some(t.token), true);
  }

  /** The request's hold passes to a cancellation. */
  lemma WithdrawKeeps(s: State, answer: bool)
    requires HoldInv(s) && S.SlotInv(s) && s.request.Some? && Cancellable(s.request.value)
    ensures HoldInv(Withdraw(s, answer))
  {
    var u, r := Withdraw(s, answer), s.request.value;
    forall x | x in s.actions ensures HoldOf(s.actions[x]) != Some(r.hold) && x != s.next {
      assert HoldActionOk(s, s.actions[x]) && S.ActionOk(s, s.actions[x]);
    }
    assert LiveHold(s).value.id == r.hold;
    hide S.SlotInv;
    OthersKeep(s, u, s.next);
    DistinctKeeps(s, u, s.next);
    assert s.hold.Some? && LiveHold(s) == s.hold ==> Carries(u.actions[s.next], s.hold.value);
    KeepOwner(s, u, s.next);
    KeepLatch(s, u, s.next);
    hide ActionsOk, Distinct, LatchOk, Conserved;
  }

  lemma ApproveKeeps(s: State, expired: bool)
    requires HoldInv(s) && S.SlotInv(s) && s.request.Some? && s.request.value.status == Awaiting
    ensures HoldInv(StepApprove(s, expired))
  {
    if expired { WithdrawKeeps(s, false); return; }
    hide S.SlotInv;
    S.Facts(s);
    var u := StepApprove(s, expired);
    forall x | x in u.actions ensures HoldActionOk(u, u.actions[x]) { assert x != s.next ==> HoldActionOk(s, s.actions[x]); }
    KeepOwner(s, u, s.next);
    KeepLatch(s, u, s.next);
  }

  lemma PrepareKeeps(s: State, tid: nat, reply: Reply)
    requires HoldInv(s) && S.SlotInv(s) && tid in s.actions && AnswerEnabled(s, s.actions[tid], reply)
    requires reply.Prepared?
    ensures HoldInv(StepAnswer(s, tid, s.actions[tid], reply))
  {
    hide S.SlotInv;
    S.ActionFacts(s, tid);
    S.Facts(s);
    var t, u := s.actions[tid], StepAnswer(s, tid, s.actions[tid], reply);
    OthersKeep(s, u, tid);
    DistinctKeeps(s, u, tid);
    assert Carries(u.actions[tid], u.hold.value);
    KeepLatch(s, u, tid);
    hide ActionsOk, Distinct, LatchOk;
  }

  lemma AnswerKeeps(s: State, tid: nat, reply: Reply)
    requires HoldInv(s) && S.SlotInv(s) && tid in s.actions && AnswerEnabled(s, s.actions[tid], reply)
    ensures HoldInv(StepAnswer(s, tid, s.actions[tid], reply))
  {
    var u := StepAnswer(s, tid, s.actions[tid], reply);
    hide HoldInv, Calm, S.SlotInv, Finds;
    if reply.Prepared? { PrepareKeeps(s, tid, reply); }
    else {
      EditIsCalm(s, u, tid);
      CalmKeeps(s, u);
    }
  }

  /** A step of the confirm inside the backend, the journal aside. */
  lemma ConfirmKeeps(s: State, u: State, tid: nat, stage: ConfirmStage)
    requires HoldInv(s) && tid in s.actions && s.actions[tid].Confirming?
    requires u.actions == s.actions[tid := s.actions[tid].(stage := stage)] && LiveHold(u) == LiveHold(s)
    requires u.counter == s.counter
    requires u.hold == s.hold || u.hold.None?
    requires stage.Latched? || stage.Recorded? ==> stage.id == s.actions[tid].key
    requires stage.Replied? && stage.reply != Refused && u.hold.Some? ==> u.hold.value.id != s.actions[tid].hold
    requires u.latch != 0 ==>
               || InBackend(u.actions[tid], u.latch)
               || (u.latch == s.latch && !InBackend(s.actions[tid], s.latch))
    ensures HoldInv(u)
  {
    OthersKeep(s, u, tid);
    DistinctKeeps(s, u, tid);
    if u.hold == s.hold { KeepOwner(s, u, tid); }
    if u.latch == s.latch && !InBackend(s.actions[tid], s.latch) { KeepLatch(s, u, tid); }
    assert Conserved(u) && LatchOk(u);
    hide ActionsOk, Distinct, Conserved, LatchOk;
  }

  /** Only the confirm whose request is displayed can hold the latch. */
  lemma LatchIsOwn(s: State, tid: nat)
    requires HoldInv(s) && S.SlotInv(s) && tid in s.actions && s.actions[tid].Confirming?
    ensures s.latch == 0 || (s.latch == s.actions[tid].hold && InBackend(s.actions[tid], s.latch))
  {
    if s.latch != 0 {
      var x :| x in s.actions && InBackend(s.actions[x], s.latch);
      assert x == tid;
    }
  }

  lemma StepConfirmKeeps(s: State, tid: nat, ok: bool, reply: ConfirmReply)
    requires HoldInv(s) && S.SlotInv(s) && tid in s.actions && s.actions[tid].Confirming?
    ensures HoldInv(StepConfirm(s, tid, s.actions[tid], ok, reply))
  {
    hide HoldInv, S.SlotInv;
    var t, u := s.actions[tid], StepConfirm(s, tid, s.actions[tid], ok, reply);
    ConfirmOwnsHold(s, tid);
    LatchIsOwn(s, tid);
    match t.stage
    case Called => ConfirmKeeps(s, u, tid, u.actions[tid].stage);
    case Latched(id) => ConfirmKeeps(s, u, tid, u.actions[tid].stage);
    case Recorded(id) => if reply != Refused { ConfirmKeeps(s, u, tid, Replied(reply)); }
    case Replied(_) =>
  }

  lemma ConfirmOwnsHold(s: State, tid: nat)
    requires HoldInv(s) && S.SlotInv(s) && tid in s.actions && s.actions[tid].Confirming?
    ensures
      var t, h := s.actions[tid], s.hold;
      && (t.stage.Latched? || t.stage.Recorded? ==> t.stage.id == t.key)
      && (h.Some? && h.value.id == t.hold ==> h == LiveHold(s) && h.value.wc == Some(t.key))
  {
    hide HoldInv, S.SlotInv;
    S.ActionFacts(s, tid);
    ActionFacts(s, tid);
  }

  /** The store only cancels holds that are not being published. */
  lemma CancelNeverRefused(s: State, tid: nat)
    requires HoldInv(s) && S.SlotInv(s) && tid in s.actions && s.actions[tid].Cancelling?
    ensures s.latch == 0 || s.latch != s.actions[tid].hold
  {
    if s.latch != 0 {
      var x :| x in s.actions && InBackend(s.actions[x], s.latch);
      S.ActionFacts(s, x);
      assert HoldActionOk(s, s.actions[tid]);
      assert LiveHold(s).Some? && LiveHold(s).value.id == s.latch;
    }
  }

  /** A cancellation reaches the backend: its hold is not being published, so it goes. */
  lemma CancelKeeps(s: State, tid: nat)
    requires HoldInv(s) && S.SlotInv(s) && tid in s.actions && s.actions[tid].Cancelling? && !s.actions[tid].done
    ensures
      var t := s.actions[tid];
      var u := BackendCancel(Goto(s, tid, Cancelling(t.hold, true, t.answer, t.clear, t.slot)), t.hold);
      HoldInv(u) && (u.hold.Some? ==> u.hold.value.id != t.hold)
  {
    hide HoldInv, S.SlotInv;
    var t := s.actions[tid];
    var u := BackendCancel(Goto(s, tid, Cancelling(t.hold, true, t.answer, t.clear, t.slot)), t.hold);
    CancelNeverRefused(s, tid);
    ActionFacts(s, tid);
    if u.hold == s.hold { MoveKeeps(s, u, tid); } else { CancelClears(s, u, tid); }
  }

  lemma CancelClears(s: State, u: State, tid: nat)
    requires HoldInv(s) && tid in s.actions && OnlyMoves(s, u, tid) && !InBackend(s.actions[tid], s.latch)
    requires u.hold.None? && u.counter == s.counter && u.latch == s.latch && LiveHold(u) == LiveHold(s)
    requires tid in u.actions && HoldActionOk(u, u.actions[tid]) && HoldOf(u.actions[tid]) == HoldOf(s.actions[tid])
    ensures HoldInv(u)
  {
    ActionFacts(s, tid);
    hide HoldActionOk;
    OthersKeep(s, u, tid);
    DistinctKeeps(s, u, tid);
    KeepLatch(s, u, tid);
    hide ActionsOk, Distinct, LatchOk;
  }

  /** A reconcile or an acknowledgement that runs moves only its own action. */
  lemma QuietBackend(s: State, tid: nat, ok: bool, marked: bool, reply: ConfirmReply)
    requires tid in s.actions && (s.actions[tid].Acking? || s.actions[tid].Recovering? || s.actions[tid].Reconciling?)
    ensures
      var u := StepBackend(s, tid, ok, marked, reply);
      && u.request == s.request && u.hold == s.hold && u.counter == s.counter && u.latch == s.latch
      && (u == s || (tid in u.actions && u.actions == s.actions[tid := u.actions[tid]] && !Relevant(u.actions[tid])))
  {
    if s.actions[tid].Reconciling? {
      QuietReconcile(s, tid, ok, marked, reply);
      hide StepReconcile;
    }
    hide StepConfirm, BackendCancel, Droppable, StepReconcile;
  }

  lemma QuietReconcile(s: State, tid: nat, ok: bool, marked: bool, reply: ConfirmReply)
    requires tid in s.actions && s.actions[tid].Reconciling?
    ensures
      var u := StepReconcile(s, tid, s.actions[tid], ok, marked, reply);
      && u.request == s.request && u.hold == s.hold && u.counter == s.counter && u.latch == s.latch
      && tid in u.actions && u.actions == s.actions[tid := u.actions[tid]] && u.actions[tid].Reconciling?
  {
    hide Droppable;
  }

  lemma QuietBackendKeeps(s: State, tid: nat, ok: bool, marked: bool, reply: ConfirmReply)
    requires HoldInv(s) && tid in s.actions
    requires (s.actions[tid].Acking? || s.actions[tid].Recovering? || s.actions[tid].Reconciling?)
    ensures HoldInv(StepBackend(s, tid, ok, marked, reply))
  {
    hide HoldInv, Calm, StepBackend;
    var u := StepBackend(s, tid, ok, marked, reply);
    QuietBackend(s, tid, ok, marked, reply);
    if u != s {
      EditIsCalm(s, u, tid);
      CalmKeeps(s, u);
    }
  }

  lemma BackendKeeps(s: State, tid: nat, ok: bool, marked: bool, reply: ConfirmReply)
    requires HoldInv(s) && S.SlotInv(s) && tid in s.actions
    ensures HoldInv(StepBackend(s, tid, ok, marked, reply))
  {
    hide HoldInv, S.SlotInv;
    match s.actions[tid]
    case Confirming(_, _, _, _) => StepConfirmKeeps(s, tid, ok, reply);
    case Cancelling(_, false, _, _, _) => CancelKeeps(s, tid);
    case Acking(_, _, _, _, _, _) => QuietBackendKeeps(s, tid, ok, marked, reply);
    case Recovering(_, _, _) => QuietBackendKeeps(s, tid, ok, marked, reply);
    case Reconciling(_, _, _) => QuietBackendKeeps(s, tid, ok, marked, reply);
    case _ =>
  }

  /** The hold is cleared, or a first-party one issued. */
  lemma ReplaceKeeps(s: State, u: State)
    requires HoldInv(s) && S.SlotInv(s)
    requires u == s.(hold := None) || (s.hold.None? && u == s.(hold := Some(Hold(s.counter + 1, None)), counter := s.counter + 1))
    ensures HoldInv(u)
  {
    assert s.next !in s.actions;
    OthersKeep(s, u, s.next);
    hide S.SlotInv;
    KeepLatch(s, u, s.next);
  }

  lemma MarkIsCalm(s: State, hit: Key -> bool)
    ensures Calm(s, MarkEnded(s, hit)) && Calm(s, CancelPreparing(s))
  {}

  lemma EndKeeps(s: State, hit: Key -> bool)
    requires HoldInv(s) && S.SlotInv(s)
    ensures HoldInv(End(s, hit))
  {
    var marked := MarkEnded(s, hit);
    MarkIsCalm(s, hit);
    CalmKeeps(s, marked);
    S.MarkEndedKeeps(s, hit);
    if s.request.Some? && !s.request.value.local && hit(s.request.value.key) {
      if Cancellable(s.request.value) { WithdrawKeeps(marked, false); }
      else {
        hide HoldInv, S.SlotInv;
        var u := marked.(request := Some(s.request.value.(ended := true)));
        assert Calm(marked, u);
        CalmKeeps(marked, u);
      }
    }
  }

  lemma LockKeeps(s: State)
    requires HoldInv(s) && S.SlotInv(s)
    ensures HoldInv(StepLocked(s)) && HoldInv(StepAccount(s))
  {
    var t := CancelPreparing(s);
    MarkIsCalm(s, k => false);
    CalmKeeps(s, t);
    if s.preparing.Some? { S.MarkKeeps(s, s.preparing.value.(cancelled := true)); }
    hide HoldInv, S.SlotInv;
    if s.request.Some? && Cancellable(s.request.value) { WithdrawKeeps(t, true); }
  }

  lemma CloseIsCalm(s: State)
    requires Fresh(s)
    ensures Calm(s, StepClose(s)) && Calm(s, Drain(s))
  {
    var t := if s.request.Some? && s.request.value.status in {DeliveryError, Unknown, Recovered} then s.(request := None) else s;
    assert Calm(s, t);
    FinishIsCalm(t, None, true);
    FinishIsCalm(s, None, true);
    hide Calm;
    CalmIsTransitive(s, t, StepClose(s));
  }

  /** The user's steps and a new arrival move no hold. */
  lemma UserIsCalm(s: State, e: Event)
    requires S.SlotInv(s) && Enabled(s, e)
    requires e.Arrive? || e.RetryDelivery? || e.Reconcile? || e.CloseLocally? || e.Acknowledge? || e.Surface?
    ensures Calm(s, Next(s, e))
  {
    hide S.SlotInv, Calm, Drain, StepClose;
    S.Facts(s);
    if e.CloseLocally? || e.Surface? { CloseIsCalm(s); return; }
    if e.RetryDelivery? { RetryIsCalm(s); return; }
    EditIsCalm(s, Next(s, e), s.next);
  }

  lemma RetryIsCalm(s: State)
    requires s.next !in s.actions && s.request.Some? && s.request.value.status == DeliveryError
    ensures Calm(s, StepRetry(s))
  {
    hide Calm;
    assert s.actions - {s.next} == s.actions;
    EditIsCalm(s, StepRetry(s), s.next);
  }

  lemma UserKeeps(s: State, e: Event)
    requires HoldInv(s) && S.SlotInv(s) && Enabled(s, e)
    requires e.Arrive? || e.RetryDelivery? || e.Reconcile? || e.CloseLocally? || e.Acknowledge? || e.Surface?
    ensures HoldInv(Next(s, e))
  {
    hide HoldInv, S.SlotInv, Calm, Enabled, Next;
    UserIsCalm(s, e);
    CalmKeeps(s, Next(s, e));
  }

  lemma RestartKeeps(s: State)
    ensures HoldInv(Reborn(s))
  {}

  lemma StepKeeps(s: State, e: Event)
    requires HoldInv(s) && S.SlotInv(s) && Enabled(s, e)
    ensures HoldInv(Next(s, e))
  {
    hide HoldInv, S.SlotInv, StepResume, StepBackend, StepAnswer, StepApprove, StepRetry, StepClose, Drain, Withdraw, End, StepLocked,
         StepAccount, Reborn, Finds;
    match e
    case Answer(tid, reply) => AnswerKeeps(s, tid, reply);
    case Backend(tid, ok, marked, reply) => BackendKeeps(s, tid, ok, marked, reply);
    case Resume(tid, ok, stray) => ResumeKeeps(s, tid, ok, ok || stray);
    case Approve(expired) => ApproveKeeps(s, expired);
    case Reject => WithdrawKeeps(s, true);
    case AccountChanged => LockKeeps(s);
    case WalletLocked => LockKeeps(s);
    case SessionEnded(topic) => EndKeeps(s, (k: Key) => k.topic == topic);
    case Expired(id, passed) => EndKeeps(s, (k: Key) => k.id == id && k in passed);
    case SessionClears => ReplaceKeeps(s, Next(s, e));
    case FirstPartyHolds => ReplaceKeeps(s, Next(s, e));
    case FirstPartyEnds => ReplaceKeeps(s, Next(s, e));
    case Restart => RestartKeeps(s);
    case _ => UserKeeps(s, e);
  }

  lemma {:induction false} RunKeeps(r: Run, i: nat)
    requires ValidRun(r) && i < |r.states|
    ensures S.SlotInv(r.states[i]) && HoldInv(r.states[i])
  {
    S.RunKeeps(r, i);
    if i > 0 {
      RunKeeps(r, i - 1);
      assert ValidStep(r.states[i - 1], r.events[i - 1], r.states[i]);
      StepKeeps(r.states[i - 1], r.events[i - 1]);
    }
  }

  /** No hold is ever orphaned: while the backend keeps a hold for a WalletConnect
      request, the modal shows that request awaiting, publishing or refused, or a
      prepare or a cancellation still in flight carries it. */
  lemma NoHoldIsOrphaned(r: Run, i: nat)
    requires ValidRun(r) && i < |r.states|
    requires r.states[i].hold.Some? && r.states[i].hold.value.wc.Some?
    ensures Owned(r.states[i], r.states[i].hold.value)
  {
    RunKeeps(r, i);
  }

  /** A cancellation the store sends is never refused by the publishing latch, so
      once it has run the hold is gone. */
  lemma CancellationsTakeEffect(r: Run, i: nat, tid: nat)
    requires ValidRun(r) && i < |r.states| && tid in r.states[i].actions && r.states[i].actions[tid].Cancelling?
    ensures
      var s := r.states[i];
      && (s.latch == 0 || s.latch != s.actions[tid].hold)
      && (s.actions[tid].done && s.hold.Some? ==> s.hold.value.id != s.actions[tid].hold)
  {
    RunKeeps(r, i);
    CancelNeverRefused(r.states[i], tid);
    assert HoldActionOk(r.states[i], r.states[i].actions[tid]);
  }
}
