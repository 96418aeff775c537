/** Slot safety, stated over single steps and over runs. */
module WcStoreSlotSafety {
  import opened TxTypes
  import opened WcStore
  import opened WcStoreSlots

  /** The same request is still on display. */
  predicate SameModal(s: State, t: State) {
    && s.request.Some? && t.request.Some?
    && s.request.value.serial == t.request.value.serial && s.request.value.key == t.request.value.key
    && s.request.value.owner == t.request.value.owner && s.request.value.hold == t.request.value.hold
    && s.request.value.local == t.request.value.local
  }

  /** The steps that take the displayed request away: its own answer, cancellation,
      acknowledgement or end, or the user closing a settled one. */
  predicate Departs(s: State, e: Event)
    requires s.request.Some?
  {
    var r := s.request.value;
    match e
    case Resume(tid, _, _) =>
      tid in s.actions &&
      (match s.actions[tid]
       case Acking(_, _, _, _, _, dismiss) => dismiss == Some(r.serial) && Terminal(r.status)
       case Cancelling(_, _, _, clear, _) => clear == Some(r.serial) && r.status == Publishing
       case Recovering(serial, _, cleared) => serial == r.serial && cleared == Some(true)
       case _ => false)
    case Approve(expired) => expired
    case Reject => Cancellable(r)
    case AccountChanged => Cancellable(r)
    case WalletLocked => Cancellable(r)
    case SessionEnded(topic) => Cancellable(r) && r.key.topic == topic
    case Expired(id, passed) => Cancellable(r) && r.key.id == id && r.key in passed
    case CloseLocally => r.status in {DeliveryError, Unknown, Recovered}
    case Restart => true
    case _ => false
  }

  /** An action that neither drives nor follows the request leaves it alone. */
  lemma UnrelatedKeepsModal(s: State, tid: nat, ok: bool, sent: bool)
    requires SlotInv(s) && s.request.Some? && tid in s.actions && Returned(s.actions[tid])
    requires DrivesOf(s.actions[tid]).None? && FollowsOf(s.actions[tid]).None?
    ensures StepResume(s, tid, ok, sent).request == s.request
  {
    hide SlotInv;
    ActionFacts(s, tid);
    Facts(s);
  }

  lemma DriverKeepsModal(s: State, tid: nat, ok: bool, stray: bool)
    requires SlotInv(s) && s.request.Some? && tid in s.actions && Returned(s.actions[tid])
    requires DrivesOf(s.actions[tid]).Some?
    ensures SameModal(s, StepResume(s, tid, ok, ok || stray)) || Departs(s, Resume(tid, ok, stray))
  {
    hide SlotInv;
    ActionFacts(s, tid);
  }

  lemma FollowerKeepsModal(s: State, tid: nat, ok: bool, stray: bool)
    requires SlotInv(s) && s.request.Some? && tid in s.actions && Returned(s.actions[tid])
    requires FollowsOf(s.actions[tid]).Some?
    ensures SameModal(s, StepResume(s, tid, ok, ok || stray)) || Departs(s, Resume(tid, ok, stray))
  {
    hide SlotInv;
    ActionFacts(s, tid);
  }

  lemma ResumeKeepsModal(s: State, tid: nat, ok: bool, stray: bool)
    requires SlotInv(s) && s.request.Some? && tid in s.actions && Returned(s.actions[tid])
    ensures SameModal(s, StepResume(s, tid, ok, ok || stray)) || Departs(s, Resume(tid, ok, stray))
  {
    hide SlotInv, StepResume;
    if DrivesOf(s.actions[tid]).Some? { DriverKeepsModal(s, tid, ok, stray); }
    else if FollowsOf(s.actions[tid]).Some? { FollowerKeepsModal(s, tid, ok, stray); }
    else { UnrelatedKeepsModal(s, tid, ok, ok || stray); }
  }

  /** An occupied modal slot is never overwritten: the request stays, with its
      identity, record and hold, until a step that is its own end. */
  lemma ModalIsNeverDisplaced(s: State, e: Event)
    requires SlotInv(s) && Enabled(s, e) && s.request.Some?
    ensures SameModal(s, Next(s, e)) || Departs(s, e)
  {
    if e.Resume? {
      hide SlotInv, StepResume, Departs;
      ResumeKeepsModal(s, e.tid, e.ok, e.stray);
    } else if e.Backend? {
      hide *;
      BackendKeepsModal(s, e);
    } else {
      OtherEventsKeepModal(s, e);
    }
  }

  lemma BackendKeepsModal(s: State, e: Event)
    requires Enabled(s, e) && e.Backend? && s.request.Some?
    ensures SameModal(s, Next(s, e))
  {
    BackendKeepsSlots(s, e.tid, e.ok, e.marked, e.outcome);
    hide StepBackend;
  }

  lemma BackendKeepsSlots(s: State, tid: nat, ok: bool, marked: bool, reply: ConfirmReply)
    requires tid in s.actions
    ensures
      var u := StepBackend(s, tid, ok, marked, reply);
      u.request == s.request && u.preparing == s.preparing && u.next == s.next
  {
    if s.actions[tid].Confirming? || s.actions[tid].Reconciling? { PublishersKeepSlots(s, tid, ok, marked, reply); }
    hide StepConfirm, StepReconcile, Droppable;
  }

  lemma PublishersKeepSlots(s: State, tid: nat, ok: bool, marked: bool, reply: ConfirmReply)
    requires tid in s.actions
    ensures
      s.actions[tid].Confirming? ==>
        var u := StepConfirm(s, tid, s.actions[tid], ok, reply);
        u.request == s.request && u.preparing == s.preparing && u.next == s.next
    ensures
      s.actions[tid].Reconciling? ==>
        var u := StepReconcile(s, tid, s.actions[tid], ok, marked, reply);
        u.request == s.request && u.preparing == s.preparing && u.next == s.next
  {
    hide Droppable;
  }

  lemma OtherEventsKeepModal(s: State, e: Event)
    requires SlotInv(s) && Enabled(s, e) && s.request.Some? && !e.Resume? && !e.Backend?
    ensures SameModal(s, Next(s, e)) || Departs(s, e)
  {
    hide SlotInv, Finds, EndActions, EndQueue;
    Facts(s);
  }

  lemma ResumeKeepsPreparation(s: State, tid: nat, ok: bool, sent: bool)
    requires SlotInv(s) && s.preparing.Some? && tid in s.actions && Returned(s.actions[tid])
    requires TokenOf(s.actions[tid]).None?
    ensures StepResume(s, tid, ok, sent).preparing == s.preparing
  {
    assert ActionOk(s, s.actions[tid]) && RequestOk(s);
    hide SlotInv;
  }

  /** An occupied preparation slot is given back by the action that owns it, and by
      nothing else; until then its token and request stay. */
  lemma PreparationIsNeverDisplaced(s: State, e: Event)
    requires SlotInv(s) && Enabled(s, e) && s.preparing.Some? && !e.Restart?
    ensures
      var p := Next(s, e).preparing;
      || (p.Some? && p.value.token == s.preparing.value.token && p.value.key == s.preparing.value.key)
      || (e.Resume? && TokenOf(s.actions[e.tid]) == Some(s.preparing.value.token))
  {
    if e.Resume? && TokenOf(s.actions[e.tid]).None? { ResumeKeepsPreparation(s, e.tid, e.ok, e.ok || e.stray); }
    if e.Resume? { assert ActionOk(s, s.actions[e.tid]); }
  }

  /** In every state of every run: the two slots exclude each other, an occupied
      preparation slot has exactly one action that will give it back, and a publishing
      request exactly one that will take it out of that status. */
  lemma SlotsExclude(r: Run, i: nat)
    requires ValidRun(r) && i < |r.states|
    ensures
      var s := r.states[i];
      && !(s.request.Some? && s.preparing.Some?)
      && (s.preparing.Some? ==> exists tid :: tid in s.actions && TokenOf(s.actions[tid]) == Some(s.preparing.value.token))
      && (s.request.Some? && s.request.value.status == Publishing ==>
            exists tid :: tid in s.actions && DrivesOf(s.actions[tid]) == Some(s.request.value.serial))
      && (forall a, b | a in s.actions && b in s.actions && a != b ::
            && (TokenOf(s.actions[a]).None? || TokenOf(s.actions[b]).None?)
            && (DrivesOf(s.actions[a]).None? || DrivesOf(s.actions[b]).None?))
  {
    RunKeeps(r, i);
    var s := r.states[i];
    if s.preparing.Some? {
      var tid :| tid in s.actions && TokenOf(s.actions[tid]).Some?;
      assert ActionOk(s, s.actions[tid]);
    }
    if s.request.Some? && s.request.value.status == Publishing {
      var tid :| tid in s.actions && DrivesOf(s.actions[tid]).Some?;
      assert ActionOk(s, s.actions[tid]);
    }
  }

  /** A prepare always finds its own slot when it returns: only its own mark decides
      whether its hold is shown. */
  lemma PreparationKeepsItsSlot(r: Run, i: nat, tid: nat)
    requires ValidRun(r) && i < |r.states|
    requires tid in r.states[i].actions && r.states[i].actions[tid].Preparing?
    ensures Holds(r.states[i], Some(r.states[i].actions[tid].token))
  {
    RunKeeps(r, i);
    assert ActionOk(r.states[i], r.states[i].actions[tid]);
  }

  /** Calls that make a hold or publish one. */
  predicate HoldsBackend(t: Action) {
    t.Preparing? || t.Confirming?
  }

  /** The store is a serial caller: no two prepares or confirms are ever in flight
      together, so it keeps the scheduling rule of the publication protocol. */
  lemma StoreCallsAreSerial(r: Run, i: nat)
    requires ValidRun(r) && i < |r.states|
    ensures
      var s := r.states[i];
      forall a, b | a in s.actions && b in s.actions && a != b :: !(HoldsBackend(s.actions[a]) && HoldsBackend(s.actions[b]))
  {
    hide SlotInv;
    RunKeeps(r, i);
    var s := r.states[i];
    Facts(s);
    forall a | a in s.actions ensures ActionOk(s, s.actions[a]) { ActionFacts(s, a); }
    ExclusiveFacts(s);
  }

  lemma ExclusiveFacts(s: State)
    requires SlotInv(s)
    ensures Exclusive(s)
  {}

  // ---- Overtaken requests

  /** The step puts a request up for approval. */
  predicate Offers(s: State, t: State) {
    t.request.Some? && t.request.value.status == Awaiting && !Shows(s, t.request.value.serial)
  }

  /** A prepare returned with a hold, and nothing overtook it meanwhile. */
  predicate Unmarked(s: State, t: Action)
    requires t.Preparing?
  {
    && t.found.Some? && t.found.value.Prepared?
    && Holds(s, Some(t.token)) && !s.preparing.value.ended && !s.preparing.value.cancelled
  }

  lemma ResumeOffers(s: State, tid: nat, ok: bool, sent: bool)
    requires SlotInv(s) && tid in s.actions && Returned(s.actions[tid])
    ensures
      var t, u := s.actions[tid], StepResume(s, tid, ok, sent);
      && (Offers(s, u) <==> t.Preparing? && Unmarked(s, t))
      && (Offers(s, u) ==> u.request.value.key == t.key && u.request.value.hold == t.found.value.hold)
  {
    if s.actions[tid].Preparing? { PrepareOffers(s, tid); } else { OthersOfferNothing(s, tid, ok, sent); }
  }

  lemma PrepareOffers(s: State, tid: nat)
    requires SlotInv(s) && tid in s.actions && s.actions[tid].Preparing? && s.actions[tid].found.Some?
    ensures
      var t := s.actions[tid];
      var u := AfterPrepare(s, tid, t.key, t.token, t.found.value);
      && (Offers(s, u) <==> Unmarked(s, t))
      && (Offers(s, u) ==> u.request.value.key == t.key && u.request.value.hold == t.found.value.hold)
  {
    hide SlotInv, Without;
    ActionFacts(s, tid);
    Facts(s);
  }

  lemma OthersOfferNothing(s: State, tid: nat, ok: bool, sent: bool)
    requires SlotInv(s) && tid in s.actions && Returned(s.actions[tid]) && !s.actions[tid].Preparing?
    ensures !Offers(s, StepResume(s, tid, ok, sent))
  {
    hide SlotInv, Without, Drain, Finish, AfterPrepare;
    if Follower(s.actions[tid]) {
      hide AfterLookup, AfterRefusal, AfterCancel, AfterAnswer, AfterDelivery;
    } else {
      hide AfterConfirm, AfterInforming, AfterReconcile, AfterRecovery;
    }
  }

  /** Actions of the displayed request. */
  predicate Follower(t: Action) {
    t.Confirming? || t.Informing? || t.Reconciling? || t.Recovering?
  }

  /** A request comes up for approval exactly when its prepare returns with a hold and
      no session end, expiry, lock or account change reached it meanwhile; and what is
      shown is that request with that hold. */
  lemma OffersExactlyUnmarkedPrepares(s: State, e: Event)
    requires SlotInv(s) && Enabled(s, e)
    ensures
      Offers(s, Next(s, e)) <==>
      e.Resume? && s.actions[e.tid].Preparing? && Unmarked(s, s.actions[e.tid])
    ensures
      Offers(s, Next(s, e)) ==>
        var t, r := s.actions[e.tid], Next(s, e).request.value;
        r.key == t.key && r.hold == t.found.value.hold
  {
    if e.Resume? {
      hide SlotInv, StepResume, Offers;
      ResumeOffers(s, e.tid, e.ok, e.ok || e.stray);
    } else if e.Backend? {
      hide SlotInv, StepBackend;
      BackendKeepsSlots(s, e.tid, e.ok, e.marked, e.outcome);
    } else {
      OtherEventsOfferNothing(s, e);
    }
  }

  lemma OtherEventsOfferNothing(s: State, e: Event)
    requires Enabled(s, e) && !e.Resume? && !e.Backend?
    ensures !Offers(s, Next(s, e))
  {
    hide Finds, EndActions, EndQueue;
  }

  /** Preparation slot `n`, while it is occupied, carries the mark of what overtook it;
      its number is never given out again in the process. */
  predicate Spoiled(s: State, n: nat) {
    n < s.next && (s.preparing.Some? && s.preparing.value.token == n ==> s.preparing.value.ended || s.preparing.value.cancelled)
  }

  /** The event overtakes whatever occupies the preparation slot. */
  predicate Overtakes(s: State, e: Event)
    requires s.preparing.Some?
  {
    match e
    case AccountChanged => true
    case WalletLocked => true
    case SessionEnded(topic) => s.preparing.value.key.topic == topic
    case Expired(id, passed) => s.preparing.value.key.id == id && s.preparing.value.key in passed
    case _ => false
  }

  lemma OvertakingMarks(s: State, e: Event)
    requires SlotInv(s) && Enabled(s, e) && s.preparing.Some? && Overtakes(s, e)
    ensures Spoiled(Next(s, e), s.preparing.value.token)
  {
    Facts(s);
  }

  lemma ResumeKeepsMarks(s: State, tid: nat, ok: bool, sent: bool, n: nat)
    requires tid in s.actions && Returned(s.actions[tid]) && Spoiled(s, n)
    ensures Spoiled(StepResume(s, tid, ok, sent), n)
  {
    hide Without, Drain, Finish, Resulted, Errored;
    match s.actions[tid]
    case Looking(_, _, _) =>
    case Preparing(_, _, _) =>
    case Delivering(_, _, _, _, _) => DeliveryKeepsMarks(s, tid, ok, sent, n);
    case _ => OtherKeepsMarks(s, tid, ok, sent, n);
  }

  lemma DeliveryKeepsMarks(s: State, tid: nat, ok: bool, sent: bool, n: nat)
    requires tid in s.actions && s.actions[tid].Delivering? && Spoiled(s, n)
    ensures Spoiled(StepResume(s, tid, ok, sent), n)
  {
    hide Without, Drain, Finish;
  }

  lemma OtherKeepsMarks(s: State, tid: nat, ok: bool, sent: bool, n: nat)
    requires tid in s.actions && Returned(s.actions[tid]) && Spoiled(s, n)
    requires !s.actions[tid].Looking? && !s.actions[tid].Preparing? && !s.actions[tid].Delivering?
    ensures Spoiled(StepResume(s, tid, ok, sent), n)
  {
    if Follower(s.actions[tid]) {
      FollowersKeepMarks(s, tid, ok, sent, n);
    } else if s.actions[tid].Refusing? {
      RefusalKeepsMarks(s, tid, ok, sent, n);
    } else {
      hide Without, Drain, Finish, AfterConfirm, AfterInforming, AfterReconcile, AfterRecovery, AfterLookup, AfterPrepare, AfterDelivery,
           AfterRefusal;
    }
  }

  lemma RefusalKeepsMarks(s: State, tid: nat, ok: bool, sent: bool, n: nat)
    requires tid in s.actions && s.actions[tid].Refusing? && Spoiled(s, n)
    ensures Spoiled(StepResume(s, tid, ok, sent), n)
  {
    hide Without, Drain, Finish;
  }

  lemma FollowersKeepMarks(s: State, tid: nat, ok: bool, sent: bool, n: nat)
    requires tid in s.actions && Returned(s.actions[tid]) && Spoiled(s, n) && Follower(s.actions[tid])
    ensures Spoiled(StepResume(s, tid, ok, sent), n)
  {
    hide Without, Drain, Finish, AfterRefusal, AfterCancel, AfterAnswer, AfterLookup, AfterPrepare, AfterDelivery;
  }

  lemma MarksStay(s: State, e: Event, n: nat)
    requires Enabled(s, e) && !e.Restart? && Spoiled(s, n)
    ensures Spoiled(Next(s, e), n)
  {
    if e.Resume? {
      hide StepResume, Spoiled;
      ResumeKeepsMarks(s, e.tid, e.ok, e.ok || e.stray, n);
    } else if e.Backend? {
      hide StepBackend;
      BackendKeepsSlots(s, e.tid, e.ok, e.marked, e.outcome);
    } else {
      OtherEventsKeepMarks(s, e, n);
    }
  }

  lemma OtherEventsKeepMarks(s: State, e: Event, n: nat)
    requires Enabled(s, e) && !e.Restart? && !e.Resume? && !e.Backend? && Spoiled(s, n)
    ensures Spoiled(Next(s, e), n)
  {
    hide Finds, EndActions, EndQueue;
  }

  lemma {:induction false} MarksStayUntilRestart(r: Run, i: nat, j: nat, n: nat)
    requires ValidRun(r) && i <= j < |r.states| && Spoiled(r.states[i], n)
    requires forall k | i <= k < j :: !r.events[k].Restart?
    ensures Spoiled(r.states[j], n)
  {
    if i < j {
      MarksStayUntilRestart(r, i, j - 1, n);
      assert ValidStep(r.states[j - 1], r.events[j - 1], r.states[j]);
      MarksStay(r.states[j - 1], r.events[j - 1], n);
    }
  }

  /** Whatever overtook a preparation - the end of its session, its expiry, a lock, an
      account change - its request never comes up for approval in that process. */
  lemma OvertakenIsNeverOffered(r: Run, i: nat, j: nat)
    requires ValidRun(r) && i < j < |r.events| && r.states[i].preparing.Some? && Overtakes(r.states[i], r.events[i])
    requires forall k | i <= k < j :: !r.events[k].Restart?
    requires
      var s, e := r.states[j], r.events[j];
      e.Resume? && e.tid in s.actions && s.actions[e.tid].Preparing? && s.actions[e.tid].token == r.states[i].preparing.value.token
    ensures !Offers(r.states[j], r.states[j + 1])
  {
    var n := r.states[i].preparing.value.token;
    RunKeeps(r, i);
    RunKeeps(r, j);
    assert ValidStep(r.states[i], r.events[i], r.states[i + 1]) && ValidStep(r.states[j], r.events[j], r.states[j + 1]);
    hide ValidRun, Next, Enabled, SlotInv;
    OvertakingMarks(r.states[i], r.events[i]);
    MarksStayUntilRestart(r, i + 1, j, n);
    OffersExactlyUnmarkedPrepares(r.states[j], r.events[j]);
  }

  /** The event reaches the displayed request. */
  predicate Reaches(s: State, e: Event)
    requires s.request.Some?
  {
    var r := s.request.value;
    match e
    case AccountChanged => true
    case WalletLocked => true
    case SessionEnded(topic) => r.key.topic == topic
    case Expired(id, passed) => r.key.id == id && r.key in passed
    case _ => false
  }

  /** A lock, an account change, the end of a session or an expiry withdraws exactly
      the requests that are not being published: their hold goes to a cancellation,
      which answers them unless the relay has dropped them already.  A publication
      under way, and local recovery, stay. */
  lemma WithdrawsExactlyUnpublished(s: State, e: Event)
    requires SlotInv(s) && Enabled(s, e) && s.request.Some? && Reaches(s, e)
    ensures
      var r, u := s.request.value, Next(s, e);
      if Cancellable(r) then
        && u.request.None? && s.next in u.actions
        && u.actions[s.next] ==
           Cancelling(r.hold, false, if e.AccountChanged? || e.WalletLocked? then Some(r.key) else None, None, None)
      else SameModal(s, u) && u.request.value.status == r.status
  {
    hide SlotInv;
    Facts(s);
  }
}
