/** The two slots of the store over every run: they are never both occupied, every
    occupied one has exactly one action that will give it back or finish it, and a
    stale action never touches a request it does not own. */
module WcStoreSlots {
  import opened TxTypes
  import opened WcStore

  /** The preparation slot an action has to give back. */
  function TokenOf(t: Action): Option<nat> {
    match t
    case Refusing(_, _, slot) => slot
    case Preparing(_, token, _) => Some(token)
    case Cancelling(_, _, _, _, slot) => slot
    case Answering(_, slot) => slot
    case Delivering(_, _, slot, _, _) => slot
    case Acking(_, _, _, slot, _, _) => slot
    case _ => None
  }

  /** The displayed request an action merely reports on. */
  function FollowsOf(t: Action): Option<nat> {
    match t
    case Informing(serial, _, _) => Some(serial)
    case Reconciling(serial, _, _) => Some(serial)
    case Recovering(serial, _, _) => Some(serial)
    case Acking(_, _, _, _, _, dismiss) => dismiss
    case _ => None
  }

  /** The publishing request an action will take out of that status. */
  function DrivesOf(t: Action): Option<nat> {
    match t
    case Confirming(serial, _, _, _) => Some(serial)
    case Cancelling(_, _, _, clear, _) => clear
    case _ => None
  }

  predicate Terminal(status: Status) {
    status == Unknown || status == Notifying || status == DeliveryError || status == Recovered
  }

  predicate ActionOk(s: State, t: Action) {
    && (TokenOf(t).Some? ==> Holds(s, TokenOf(t)))
    && (FollowsOf(t).Some? ==> FollowsOf(t).value < s.next && (Shows(s, FollowsOf(t).value) ==> Terminal(s.request.value.status)))
    && (t.Cancelling? && Holds(s, t.slot) ==> s.preparing.value.ended || s.preparing.value.cancelled)
    && (t.Informing? && Shows(s, t.serial) ==> !s.request.value.local)
    && (t.Recovering? && Shows(s, t.serial) ==> s.request.value.local)
    && ((t.Informing? || t.Acking?) && FollowsOf(t).Some? && Shows(s, FollowsOf(t).value) ==> t.key == s.request.value.key)
    && (DrivesOf(t).Some? ==>
          && Shows(s, DrivesOf(t).value) && s.request.value.status == Publishing
          && (t.Confirming? ==> t.key == s.request.value.key)
          && t.hold == s.request.value.hold
          && (t.Cancelling? ==> t.answer.None? && t.slot.None? && s.request.value.ended))
  }

  predicate RequestOk(s: State) {
    && (s.request.Some? ==>
          && s.request.value.serial < s.next
          && (s.request.value.local ==> s.request.value.status == Unknown || s.request.value.status == Recovered)
          && (s.request.value.status == Recovered ==> s.request.value.local))
    && (s.preparing.Some? ==> s.preparing.value.token < s.next)
    && !(s.request.Some? && s.preparing.Some?)
  }

  predicate QueueOk(q: seq<Replay>) {
    forall i :: 0 <= i < |q| ==> q[i].local ==> !q[i].published
  }

  ghost predicate Exclusive(s: State) {
    && (forall a, b | a in s.actions && b in s.actions && a != b :: TokenOf(s.actions[a]).None? || TokenOf(s.actions[b]).None?)
    && (forall a, b | a in s.actions && b in s.actions && a != b :: DrivesOf(s.actions[a]).None? || DrivesOf(s.actions[b]).None?)
  }

  /** Some action will give the preparation slot back. */
  ghost predicate Guarded(s: State) {
    s.preparing.Some? ==> exists tid :: tid in s.actions && TokenOf(s.actions[tid]).Some?
  }

  /** Some action will take the request out of `publishing`. */
  ghost predicate Driven(s: State) {
    s.request.Some? && s.request.value.status == Publishing ==> exists tid :: tid in s.actions && DrivesOf(s.actions[tid]).Some?
  }

  ghost predicate SlotInv(s: State) {
    && (forall tid :: tid in s.actions ==> tid < s.next && ActionOk(s, s.actions[tid]))
    && RequestOk(s) && QueueOk(s.queue) && Exclusive(s) && Guarded(s) && Driven(s)
  }

  /** What a caller that does not look inside may use. */
  lemma Facts(s: State)
    requires SlotInv(s)
    ensures RequestOk(s) && QueueOk(s.queue) && s.next !in s.actions && forall tid :: tid in s.actions ==> tid < s.next
  {}

  lemma ActionFacts(s: State, tid: nat)
    requires SlotInv(s) && tid in s.actions
    ensures ActionOk(s, s.actions[tid])
  {}

  // ---- What keeps the invariant

  /** An action that owns no slot and drives no request can end anywhere. */
  lemma DropKeeps(s: State, tid: nat)
    requires SlotInv(s) && tid in s.actions && TokenOf(s.actions[tid]).None? && DrivesOf(s.actions[tid]).None?
    ensures SlotInv(Drop(s, tid))
  {
    var t := Drop(s, tid);
    if s.preparing.Some? {
      var x :| x in s.actions && TokenOf(s.actions[x]).Some?;
      assert x in t.actions;
    }
    if s.request.Some? && s.request.value.status == Publishing {
      var x :| x in s.actions && DrivesOf(s.actions[x]).Some?;
      assert x in t.actions;
    }
  }

  /** An action may start, or move on, if it keeps its slot and its request. */
  lemma GotoKeeps(s: State, tid: nat, action: Action)
    requires SlotInv(s) && tid < s.next && ActionOk(s, action)
    requires TokenOf(action).Some? <==> tid in s.actions && TokenOf(s.actions[tid]).Some?
    requires DrivesOf(action).Some? <==> tid in s.actions && DrivesOf(s.actions[tid]).Some?
    ensures SlotInv(Goto(s, tid, action))
  {
    var t := Goto(s, tid, action);
    GotoKeepsActions(s, tid, action);
    GotoKeepsOwners(s, tid, action);
    assert RequestOk(t);
    hide ActionOk, RequestOk, QueueOk, Exclusive, Guarded, Driven;
  }

  lemma GotoKeepsActions(s: State, tid: nat, action: Action)
    requires SlotInv(s) && tid < s.next && ActionOk(s, action)
    ensures
      var t := Goto(s, tid, action);
      forall x :: x in t.actions ==> x < t.next && ActionOk(t, t.actions[x])
  {
    hide SlotInv;
    var t := Goto(s, tid, action);
    Facts(s);
    forall x | x in t.actions ensures x < t.next && ActionOk(t, t.actions[x]) {
      if x != tid { ActionFacts(s, x); }
    }
  }

  lemma GotoKeepsOwners(s: State, tid: nat, action: Action)
    requires Exclusive(s) && Guarded(s) && Driven(s)
    requires TokenOf(action).Some? <==> tid in s.actions && TokenOf(s.actions[tid]).Some?
    requires DrivesOf(action).Some? <==> tid in s.actions && DrivesOf(s.actions[tid]).Some?
    ensures Exclusive(Goto(s, tid, action)) && Guarded(Goto(s, tid, action)) && Driven(Goto(s, tid, action))
  {
    hide TokenOf, DrivesOf;
    var t := Goto(s, tid, action);
    if s.preparing.Some? {
      var x :| x in s.actions && TokenOf(s.actions[x]).Some?;
      assert x in t.actions && TokenOf(t.actions[x]).Some?;
    }
    if s.request.Some? && s.request.value.status == Publishing {
      var x :| x in s.actions && DrivesOf(s.actions[x]).Some?;
      assert x in t.actions && DrivesOf(t.actions[x]).Some?;
    }
  }

  function Occupy(s: State, tid: nat, action: Action, key: Key): State {
    Goto(s, tid, action).(preparing := Some(Slot(s.next, key, false, false)), next := s.next + 1)
  }

  lemma OccupyKeeps(s: State, tid: nat, action: Action, key: Key)
    requires SlotInv(s) && Free(s) && tid < s.next
    requires TokenOf(action) == Some(s.next) && FollowsOf(action).None? && DrivesOf(action).None? && !action.Cancelling?
    ensures SlotInv(Occupy(s, tid, action, key))
  {
    var t := Occupy(s, tid, action, key);
    assert tid in t.actions && TokenOf(t.actions[tid]).Some?;
  }

  lemma ShowKeeps(s: State, r: Request)
    requires SlotInv(s) && Free(s) && r.serial == s.next && r.status != Publishing
    requires (r.local ==> r.status == Unknown) && (r.status == Recovered ==> r.local)
    ensures SlotInv(s.(request := Some(r), next := s.next + 1))
  {}

  /** A request nothing drives may be taken off the screen. */
  lemma HideKeeps(s: State)
    requires SlotInv(s) && s.request.Some? && s.request.value.status != Publishing
    ensures SlotInv(s.(request := None))
  {}

  lemma StatusKeeps(s: State, r: Request)
    requires SlotInv(s) && s.request.Some? && r.serial == s.request.value.serial && r.status != Publishing
    requires s.request.value.status != Publishing
    requires Terminal(s.request.value.status) ==> Terminal(r.status)
    requires r.local == s.request.value.local
    requires (r.local ==> r.status == Unknown || r.status == Recovered) && (r.status == Recovered ==> r.local)
    requires r.key == s.request.value.key
    ensures SlotInv(s.(request := Some(r)))
  {}

  lemma WithoutOk(q: seq<Replay>, key: Key)
    requires QueueOk(q)
    ensures QueueOk(Without(q, key))
  {
    if q != [] { WithoutOk(q[1..], key); }
  }

  lemma EndQueueOk(q: seq<Replay>, hit: Key -> bool)
    requires QueueOk(q)
    ensures QueueOk(EndQueue(q, hit))
  {
    if q != [] { EndQueueOk(q[1..], hit); }
  }

  lemma QueueKeeps(s: State, q: seq<Replay>)
    requires SlotInv(s) && QueueOk(q)
    ensures SlotInv(s.(queue := q))
  {
    if s.preparing.Some? { var x :| x in s.actions && TokenOf(s.actions[x]).Some?; }
  }

  lemma EnqueueKeeps(s: State, r: Replay)
    requires SlotInv(s) && (r.local ==> !r.published)
    ensures SlotInv(Enqueue(s, r))
  {
    WithoutOk(s.queue, r.key);
    QueueKeeps(s, Without(s.queue, r.key) + [r]);
  }

  lemma CountKeeps(s: State)
    requires SlotInv(s)
    ensures SlotInv(s.(next := s.next + 1))
  {}

  lemma DrainKeeps(s: State)
    requires SlotInv(s)
    ensures SlotInv(Drain(s))
  {
    hide SlotInv;
    Facts(s);
    if Free(s) && s.queue != [] {
      var r, t := s.queue[0], s.(queue := s.queue[1..]);
      QueueKeeps(s, s.queue[1..]);
      if r.published {
        CountKeeps(t);
        var u := t.(next := t.next + 1);
        OccupyKeeps(u, t.next, Delivering(r.key, r.owner, Some(u.next), true, true), r.key);
      } else {
        ShowKeeps(t, Request(t.next, r.key, r.owner, Unknown, 0, false, false, r.local));
      }
    }
  }

  /** The state a `finally` leaves before it looks at the queue. */
  function Released(s: State, slot: Option<nat>): State {
    if Holds(s, slot) then s.(preparing := None) else s
  }

  lemma FinishKeeps(s: State, slot: Option<nat>, drain: bool)
    requires SlotInv(Released(s, slot))
    ensures SlotInv(Finish(s, slot, drain))
  {
    DrainKeeps(Released(s, slot));
  }

  /** The owner of the preparation slot gives it back. */
  lemma LeaveKeeps(s: State, tid: nat)
    requires SlotInv(s) && tid in s.actions && DrivesOf(s.actions[tid]).None?
    ensures SlotInv(Released(Drop(s, tid), TokenOf(s.actions[tid])))
  {
    if TokenOf(s.actions[tid]).None? { DropKeeps(s, tid); }
  }

  // ---- The continuations

  lemma AfterLookupKeeps(s: State, tid: nat, ok: bool)
    requires SlotInv(s) && tid in s.actions && s.actions[tid].Looking? && s.actions[tid].found.Some?
    ensures SlotInv(AfterLookup(s, tid, s.actions[tid].key, s.actions[tid].ended, s.actions[tid].found.value, ok))
  {
    hide SlotInv, Without;
    ActionFacts(s, tid);
    Facts(s);
    var key := s.actions[tid].key;
    DropKeeps(s, tid);
    if s.actions[tid].ended { return; }
    match s.actions[tid].found.value
    case Broken => GotoKeeps(s, tid, Retrying(key));
    case Duplicate(k) => GotoKeeps(s, tid, Refusing(key, Some(k), None));
    case Settled(k) =>
      if Free(s) { OccupyKeeps(s, tid, Delivering(key, k, Some(s.next), true, false), key); }
      else { GotoKeeps(s, tid, Delivering(key, k, None, false, false)); }
    case Unsettled(k) =>
      if Free(s) { ShowKeeps(Drop(s, tid), Request(s.next, key, k, Unknown, 0, false, false, false)); }
      else { EnqueueKeeps(Drop(s, tid), Replay(key, k, false, false)); }
    case _ =>
      if !Free(s) || !ok { GotoKeeps(s, tid, Refusing(key, None, None)); }
      else { OccupyKeeps(s, tid, Preparing(key, s.next, None), key); }
  }

  lemma PreparedKeeps(s: State, tid: nat, hold: nat)
    requires SlotInv(s) && tid in s.actions && s.actions[tid].Preparing?
    ensures SlotInv(AfterPrepare(s, tid, s.actions[tid].key, s.actions[tid].token, Prepared(hold)))
  {
    var key, token := s.actions[tid].key, s.actions[tid].token;
    if !Holds(s, Some(token)) || s.preparing.value.ended || s.preparing.value.cancelled {
      GotoKeeps(s, tid, Cancelling(hold, false, Some(key), None, Some(token)));
    } else {
      LeaveKeeps(s, tid);
      ShowKeeps(Released(Drop(s, tid), Some(token)), Request(s.next, key, key, Awaiting, hold, false, false, false));
    }
  }

  lemma UnsettledKeeps(s: State, tid: nat, owner: Key)
    requires SlotInv(s) && tid in s.actions && s.actions[tid].Preparing?
    ensures SlotInv(AfterPrepare(s, tid, s.actions[tid].key, s.actions[tid].token, Unsettled(owner)))
  {
    var key, slot := s.actions[tid].key, Some(s.actions[tid].token);
    LeaveKeeps(s, tid);
    if s.preparing.value.ended || s.preparing.value.cancelled { FinishKeeps(Drop(s, tid), slot, true); }
    else { ShowKeeps(Released(Drop(s, tid), slot), Request(s.next, key, owner, Unknown, 0, false, false, false)); }
  }

  lemma AfterPrepareKeeps(s: State, tid: nat)
    requires SlotInv(s) && tid in s.actions && s.actions[tid].Preparing? && s.actions[tid].found.Some?
    ensures SlotInv(AfterPrepare(s, tid, s.actions[tid].key, s.actions[tid].token, s.actions[tid].found.value))
  {
    var key, slot := s.actions[tid].key, Some(s.actions[tid].token);
    match s.actions[tid].found.value
    case Duplicate(k) => GotoKeeps(s, tid, Refusing(key, Some(k), slot));
    case Settled(k) => GotoKeeps(s, tid, Delivering(key, k, slot, false, true));
    case Unsettled(k) => UnsettledKeeps(s, tid, k);
    case Prepared(h) => PreparedKeeps(s, tid, h);
    case _ =>
      GotoKeeps(s, tid, Answering(key, slot));
      GotoKeeps(s, tid, Refusing(key, None, slot));
      LeaveKeeps(s, tid);
      FinishKeeps(Drop(s, tid), slot, true);
  }

  /** Nothing but the two slots, the queue and the actions matters here. */
  lemma FrameKeeps(s: State, t: State)
    requires SlotInv(s)
    requires t.request == s.request && t.preparing == s.preparing && t.queue == s.queue
    requires t.actions == s.actions && t.next == s.next
    ensures SlotInv(t)
  {
    if s.preparing.Some? { var x :| x in s.actions && TokenOf(s.actions[x]).Some?; }
    if s.request.Some? && s.request.value.status == Publishing { var x :| x in s.actions && DrivesOf(s.actions[x]).Some?; }
  }

  lemma AfterRefusalKeeps(s: State, tid: nat, ok: bool, sent: bool)
    requires SlotInv(s) && tid in s.actions && s.actions[tid].Refusing?
    ensures SlotInv(AfterRefusal(s, tid, s.actions[tid].key, s.actions[tid].recover, s.actions[tid].slot, ok, sent))
  {
    hide SlotInv, Finish, Enqueue, Free;
    var key, recover, slot := s.actions[tid].key, s.actions[tid].recover, s.actions[tid].slot;
    if ok && recover.Some? {
      RecoverKeeps(s, tid, sent);
    } else if ok || recover.None? || slot.None? || (Holds(s, slot) && s.preparing.value.ended) {
      RefusalEnds(s, tid, sent);
    } else {
      RefusalRepeats(s, tid, if Overtaken(s, slot) then Answering(key, slot) else Refusing(key, None, slot), sent);
    }
  }

  lemma RefusalEnds(s: State, tid: nat, sent: bool)
    requires SlotInv(s) && tid in s.actions && s.actions[tid].Refusing?
    ensures
      var slot := s.actions[tid].slot;
      SlotInv(Finish(Errored(Drop(s, tid), s.actions[tid].key, sent), slot, slot.Some?))
  {
    hide SlotInv;
    var t, slot := Errored(Drop(s, tid), s.actions[tid].key, sent), s.actions[tid].slot;
    LeaveKeeps(s, tid);
    FrameKeeps(Released(Drop(s, tid), slot), Released(t, slot));
    FinishKeeps(t, slot, slot.Some?);
  }

  lemma RecoverKeeps(s: State, tid: nat, sent: bool)
    requires SlotInv(s) && tid in s.actions && s.actions[tid].Refusing? && s.actions[tid].recover.Some?
    ensures
      var owner, slot := s.actions[tid].recover.value, s.actions[tid].slot;
      var t := Errored(Drop(s, tid), s.actions[tid].key, sent);
      SlotInv(Finish(if Free(t) then ShowUnknown(t, owner, owner, true) else Enqueue(t, Replay(owner, owner, false, true)), slot, slot.Some?))
  {
    hide SlotInv, Finish, Enqueue;
    var owner, slot := s.actions[tid].recover.value, s.actions[tid].slot;
    var t := Errored(Drop(s, tid), s.actions[tid].key, sent);
    LeaveKeeps(s, tid);
    FrameKeeps(Released(Drop(s, tid), slot), Released(t, slot));
    if Free(t) {
      ShowKeeps(t, Request(t.next, owner, owner, Unknown, 0, false, false, true));
      FinishKeeps(ShowUnknown(t, owner, owner, true), slot, slot.Some?);
    } else {
      EnqueueKeeps(Released(t, slot), Replay(owner, owner, false, true));
      FinishEnqueued(t, Replay(owner, owner, false, true), slot, slot.Some?);
    }
  }

  lemma FinishEnqueued(t: State, r: Replay, slot: Option<nat>, drain: bool)
    requires SlotInv(Enqueue(Released(t, slot), r))
    ensures SlotInv(Finish(Enqueue(t, r), slot, drain))
  {
    hide SlotInv;
    FinishKeeps(Enqueue(t, r), slot, drain);
  }

  lemma RefusalRepeats(s: State, tid: nat, action: Action, sent: bool)
    requires SlotInv(s) && tid in s.actions && s.actions[tid].Refusing?
    requires action.Refusing? || action.Answering?
    requires TokenOf(action) == TokenOf(s.actions[tid])
    ensures SlotInv(Goto(Errored(Drop(s, tid), s.actions[tid].key, sent), tid, action))
  {
    hide SlotInv;
    ActionFacts(s, tid);
    Facts(s);
    GotoKeeps(s, tid, action);
    var u := Goto(Errored(Drop(s, tid), s.actions[tid].key, sent), tid, action);
    assert u.actions == Goto(s, tid, action).actions;
    FrameKeeps(Goto(s, tid, action), u);
  }

  /** The action that drives the request ends with it, or leaves it in another status. */
  lemma UndriveKeeps(s: State, tid: nat, r: Option<Request>)
    requires SlotInv(s) && tid in s.actions && DrivesOf(s.actions[tid]).Some?
    requires r.Some? ==>
               && r.value.serial == s.request.value.serial && !r.value.local
               && r.value.status != Publishing && r.value.status != Recovered
    ensures SlotInv(Drop(s, tid).(request := r))
  {
    var t := Drop(s, tid).(request := r);
    forall x | x in t.actions ensures ActionOk(t, t.actions[x]) { assert ActionOk(s, s.actions[x]); }
  }

  lemma AfterCancelKeeps(s: State, tid: nat)
    requires SlotInv(s) && tid in s.actions && s.actions[tid].Cancelling?
    ensures SlotInv(AfterCancel(s, tid, s.actions[tid].answer, s.actions[tid].clear, s.actions[tid].slot))
  {
    var answer, clear, slot := s.actions[tid].answer, s.actions[tid].clear, s.actions[tid].slot;
    if answer.Some? && (slot.None? || Overtaken(s, slot)) {
      GotoKeeps(s, tid, Answering(answer.value, slot));
    } else if clear.Some? {
      UndriveKeeps(s, tid, None);
      FinishKeeps(Dismiss(Drop(s, tid), clear), slot, true);
    } else {
      LeaveKeeps(s, tid);
      FinishKeeps(Drop(s, tid), slot, true);
    }
  }

  lemma AfterAnswerKeeps(s: State, tid: nat, ok: bool, sent: bool)
    requires SlotInv(s) && tid in s.actions && s.actions[tid].Answering?
    ensures SlotInv(AfterAnswer(s, tid, s.actions[tid].key, s.actions[tid].slot, ok, sent))
  {
    var key, slot := s.actions[tid].key, s.actions[tid].slot;
    var t := Errored(Drop(s, tid), key, sent);
    LeaveKeeps(s, tid);
    FrameKeeps(Released(Drop(s, tid), slot), Released(t, slot));
    FinishKeeps(t, slot, ok || slot.Some?);
  }

  /** A request is shown in place of the action that ends, on a slot it frees. */
  lemma ReplaceByRequest(s: State, tid: nat, r: Request, drain: bool)
    requires SlotInv(s) && tid in s.actions && DrivesOf(s.actions[tid]).None?
    requires s.request.None? && (s.preparing.None? || Holds(s, TokenOf(s.actions[tid])))
    requires r.serial == s.next && !r.local && r.status != Publishing && r.status != Recovered
    ensures SlotInv(Finish(Drop(s, tid).(request := Some(r), next := s.next + 1), TokenOf(s.actions[tid]), drain))
  {
    hide SlotInv, Drain;
    LeaveKeeps(s, tid);
    ShowKeeps(Released(Drop(s, tid), TokenOf(s.actions[tid])), r);
    FinishKeeps(Drop(s, tid).(request := Some(r), next := s.next + 1), TokenOf(s.actions[tid]), drain);
  }

  lemma QueueInstead(s: State, tid: nat, r: Replay, drain: bool)
    requires SlotInv(s) && tid in s.actions && DrivesOf(s.actions[tid]).None? && !r.local
    ensures SlotInv(Finish(Enqueue(Drop(s, tid), r), TokenOf(s.actions[tid]), drain))
  {
    hide SlotInv, Drain, Without;
    LeaveKeeps(s, tid);
    EnqueueKeeps(Released(Drop(s, tid), TokenOf(s.actions[tid])), r);
    FinishKeeps(Enqueue(Drop(s, tid), r), TokenOf(s.actions[tid]), drain);
  }

  lemma FailedDeliveryKeeps(s: State, tid: nat)
    requires SlotInv(s) && tid in s.actions && s.actions[tid].Delivering?
    ensures
      var d := s.actions[tid];
      SlotInv(AfterDelivery(s, tid, d.key, d.owner, d.slot, d.marker, d.drain, false, false))
  {
    hide SlotInv, Finish, Enqueue;
    var d := s.actions[tid];
    var mine := d.marker && Holds(s, d.slot);
    if s.request.None? && (s.preparing.None? || mine) {
      var r := Request(s.next, d.key, d.owner, DeliveryError, 0, mine && s.preparing.value.ended, true, false);
      ReplaceByRequest(s, tid, r, d.drain);
    } else {
      QueueInstead(s, tid, Replay(d.key, d.owner, true, false), d.drain);
    }
  }

  lemma AfterDeliveryKeeps(s: State, tid: nat, ok: bool, sent: bool)
    requires SlotInv(s) && tid in s.actions && s.actions[tid].Delivering?
    ensures
      var d := s.actions[tid];
      SlotInv(AfterDelivery(s, tid, d.key, d.owner, d.slot, d.marker, d.drain, ok, sent))
  {
    hide SlotInv, Finish, Enqueue;
    var d := s.actions[tid];
    var t := Resulted(s, d.key, sent);
    FrameKeeps(s, t);
    ActionFacts(s, tid);
    Facts(s);
    if ok { GotoKeeps(t, tid, Acking(d.key, d.owner, false, d.slot, d.drain, None)); }
    else { FailedDeliveryKeeps(t, tid); }
  }

  lemma AfterAckKeeps(s: State, tid: nat)
    requires SlotInv(s) && tid in s.actions && s.actions[tid].Acking?
    ensures SlotInv(Finish(Dismiss(Drop(s, tid), s.actions[tid].dismiss), s.actions[tid].slot, s.actions[tid].drain))
  {
    var t := s.actions[tid];
    LeaveKeeps(s, tid);
    if t.dismiss.Some? && Shows(s, t.dismiss.value) { HideKeeps(Released(Drop(s, tid), t.slot)); }
    FinishKeeps(Dismiss(Drop(s, tid), t.dismiss), t.slot, t.drain);
  }

  /** An action with neither slot nor request of its own may set the status of the
      request it follows, and report it. */
  lemma NotifyKeeps(s: State, tid: nat, serial: nat)
    requires SlotInv(s) && tid < s.next
    requires tid in s.actions ==> TokenOf(s.actions[tid]).None? && DrivesOf(s.actions[tid]).None?
    requires Shows(s, serial) ==> s.request.value.status == Notifying
    ensures SlotInv(Notify(s, tid, serial))
  {
    if tid in s.actions { DropKeeps(s, tid); }
    var t := Drop(s, tid);
    assert tid !in s.actions ==> t.actions == s.actions;
    if tid !in s.actions { FrameKeeps(s, t); }
    if Shows(s, serial) {
      if s.request.value.ended {
        StatusKeeps(t, s.request.value.(status := DeliveryError));
      } else {
        GotoKeeps(s, tid, Informing(serial, s.request.value.key, s.request.value.owner));
      }
    }
  }

  lemma AfterConfirmKeeps(s: State, tid: nat)
    requires SlotInv(s) && tid in s.actions && s.actions[tid].Confirming? && s.actions[tid].stage.Replied?
    ensures SlotInv(AfterConfirm(s, tid, s.actions[tid].serial, s.actions[tid].hold, s.actions[tid].stage.reply))
  {
    var serial, r := s.actions[tid].serial, s.request.value;
    assert ActionOk(s, s.actions[tid]);
    match s.actions[tid].stage.reply
    case Published =>
      var n := r.(status := Notifying, result := true);
      UndriveKeeps(s, tid, Some(n));
      var t := Drop(s, tid).(request := Some(n));
      NotifyKeeps(t, tid, serial);
      var u := s.(request := Some(n));
      assert Drop(t, tid).actions == Drop(u, tid).actions;
      assert Goto(t, tid, Informing(serial, r.key, r.owner)).actions == Goto(u, tid, Informing(serial, r.key, r.owner)).actions;
    case OutcomeUnknown => UndriveKeeps(s, tid, Some(r.(status := Unknown)));
    case Refused =>
      if r.ended { GotoKeeps(s, tid, Cancelling(s.actions[tid].hold, false, None, Some(serial), None)); }
      else { UndriveKeeps(s, tid, Some(r.(status := Failed))); }
  }

  lemma AfterReconcileKeeps(s: State, tid: nat, resolved: bool)
    requires SlotInv(s) && tid in s.actions && s.actions[tid].Reconciling?
    ensures SlotInv(AfterReconcile(s, tid, s.actions[tid].serial, resolved))
  {
    var serial := s.actions[tid].serial;
    assert ActionOk(s, s.actions[tid]);
    DropKeeps(s, tid);
    if Shows(s, serial) {
      var r := s.request.value;
      if !resolved { StatusKeeps(Drop(s, tid), r.(status := Unknown)); }
      else if r.local { StatusKeeps(Drop(s, tid), r.(status := Recovered)); }
      else {
        StatusKeeps(s, r.(status := Notifying, result := true));
        NotifyKeeps(s.(request := Some(r.(status := Notifying, result := true))), tid, serial);
      }
    }
  }

  lemma AfterInformingKeeps(s: State, tid: nat, ok: bool, sent: bool)
    requires SlotInv(s) && tid in s.actions && s.actions[tid].Informing?
    ensures
      var t := s.actions[tid];
      SlotInv(AfterInforming(s, tid, t.serial, t.key, t.owner, ok, sent))
  {
    var action := s.actions[tid];
    var t := Resulted(s, action.key, sent);
    FrameKeeps(s, t);
    if ok { GotoKeeps(t, tid, Acking(action.key, action.owner, false, None, true, Some(action.serial))); }
    else {
      DropKeeps(t, tid);
      if Shows(s, action.serial) { StatusKeeps(Drop(t, tid), s.request.value.(status := DeliveryError)); }
    }
  }

  lemma AfterRecoveryKeeps(s: State, tid: nat, cleared: bool)
    requires SlotInv(s) && tid in s.actions && s.actions[tid].Recovering?
    ensures SlotInv(AfterRecovery(s, tid, s.actions[tid].serial, cleared))
  {
    assert ActionOk(s, s.actions[tid]);
    DropKeeps(s, tid);
    var t := Dismiss(Drop(s, tid), Some(s.actions[tid].serial));
    if Shows(s, s.actions[tid].serial) { HideKeeps(Drop(s, tid)); }
    DrainKeeps(t);
  }

  lemma RetryKeeps(s: State, tid: nat)
    requires SlotInv(s) && tid in s.actions && s.actions[tid].Retrying?
    ensures SlotInv(Drop(s, tid)) && SlotInv(Goto(s, tid, Looking(s.actions[tid].key, false, None)))
  {
    DropKeeps(s, tid);
    GotoKeeps(s, tid, Looking(s.actions[tid].key, false, None));
  }

  lemma ResumeKeeps(s: State, tid: nat, ok: bool, sent: bool)
    requires SlotInv(s) && tid in s.actions && Returned(s.actions[tid])
    ensures SlotInv(StepResume(s, tid, ok, sent))
  {
    hide SlotInv, Finish, AfterLookup, AfterPrepare, AfterRefusal, AfterCancel, AfterAnswer, AfterDelivery, AfterConfirm,
         AfterReconcile, AfterInforming, AfterRecovery;
    match s.actions[tid]
    case Looking(_, _, _) => AfterLookupKeeps(s, tid, ok);
    case Retrying(_) => RetryKeeps(s, tid);
    case Refusing(_, _, _) => AfterRefusalKeeps(s, tid, ok, sent);
    case Preparing(_, _, _) => AfterPrepareKeeps(s, tid);
    case Cancelling(_, _, _, _, _) => AfterCancelKeeps(s, tid);
    case Answering(_, _) => AfterAnswerKeeps(s, tid, ok, sent);
    case Delivering(_, _, _, _, _) => AfterDeliveryKeeps(s, tid, ok, sent);
    case Acking(_, _, _, _, _, _) => AfterAckKeeps(s, tid);
    case Confirming(_, _, _, _) => AfterConfirmKeeps(s, tid);
    case Informing(_, _, _) => AfterInformingKeeps(s, tid, ok, sent);
    case Reconciling(_, _, resolved) => AfterReconcileKeeps(s, tid, resolved.value);
    case Recovering(_, _, cleared) => AfterRecoveryKeeps(s, tid, cleared.value);
  }

  // ---- The backend and the other events

  /** An action that only learns how its backend call went. */
  lemma ConfirmKeeps(s: State, tid: nat, ok: bool, reply: ConfirmReply)
    requires SlotInv(s) && tid in s.actions && s.actions[tid].Confirming?
    ensures SlotInv(StepConfirm(s, tid, s.actions[tid], ok, reply))
  {
    hide SlotInv;
    ActionFacts(s, tid);
    Facts(s);
    var u := StepConfirm(s, tid, s.actions[tid], ok, reply);
    if u != s {
      var action := s.actions[tid].(stage := u.actions[tid].stage);
      GotoKeeps(s, tid, action);
      FrameKeeps(Goto(s, tid, action), u);
    }
  }

  lemma ReconcileKeeps(s: State, tid: nat, ok: bool, marked: bool, reply: ConfirmReply)
    requires SlotInv(s) && tid in s.actions && s.actions[tid].Reconciling?
    ensures SlotInv(StepReconcile(s, tid, s.actions[tid], ok, marked, reply))
  {
    var u := StepReconcile(s, tid, s.actions[tid], ok, marked, reply);
    GotoKeeps(s, tid, u.actions[tid]);
    hide SlotInv;
    FrameKeeps(Goto(s, tid, u.actions[tid]), u);
  }

  lemma BackendKeeps(s: State, tid: nat, ok: bool, marked: bool, reply: ConfirmReply)
    requires SlotInv(s) && tid in s.actions
    ensures SlotInv(StepBackend(s, tid, ok, marked, reply))
  {
    hide SlotInv, StepConfirm, StepReconcile;
    match s.actions[tid]
    case Confirming(_, _, _, _) => ConfirmKeeps(s, tid, ok, reply);
    case Reconciling(_, _, None) => ReconcileKeeps(s, tid, ok, marked, reply);
    case Cancelling(hold, false, answer, clear, slot) =>
      LearnKeeps(s, tid, Cancelling(hold, true, answer, clear, slot), StepBackend(s, tid, ok, marked, reply));
    case Acking(key, owner, false, slot, drain, dismiss) =>
      LearnKeeps(s, tid, Acking(key, owner, true, slot, drain, dismiss), StepBackend(s, tid, ok, marked, reply));
    case Recovering(serial, owner, None) =>
      LearnKeeps(s, tid, Recovering(serial, owner, Some(ok && (owner in s.journal ==> s.journal[owner]))),
                 StepBackend(s, tid, ok, marked, reply));
    case _ =>
  }

  /** An action learns how its call went, and the backend changes. */
  lemma LearnKeeps(s: State, tid: nat, action: Action, u: State)
    requires SlotInv(s) && tid in s.actions && (ActionOk(s, s.actions[tid]) ==> ActionOk(s, action))
    requires TokenOf(action) == TokenOf(s.actions[tid]) && DrivesOf(action) == DrivesOf(s.actions[tid])
    requires u == Goto(s, tid, action).(hold := u.hold, journal := u.journal, past := u.past)
    ensures SlotInv(u)
  {
    hide SlotInv, ActionOk;
    ActionFacts(s, tid);
    Facts(s);
    GotoKeeps(s, tid, action);
    FrameKeeps(Goto(s, tid, action), u);
  }

  lemma AnswerKeeps(s: State, tid: nat, reply: Reply)
    requires SlotInv(s) && tid in s.actions
    ensures SlotInv(StepAnswer(s, tid, s.actions[tid], reply))
  {
    var t := StepAnswer(s, tid, s.actions[tid], reply);
    match s.actions[tid]
    case Looking(key, ended, _) => GotoKeeps(s, tid, Looking(key, ended, Some(reply)));
    case Preparing(key, token, _) =>
      var u := Goto(s, tid, Preparing(key, token, Some(reply)));
      GotoKeeps(s, tid, Preparing(key, token, Some(reply)));
      FrameKeeps(u, t);
    case _ =>
  }

  lemma WithdrawKeeps(s: State, answer: bool)
    requires SlotInv(s) && s.request.Some? && Cancellable(s.request.value)
    ensures SlotInv(Withdraw(s, answer))
  {
    hide SlotInv;
    Facts(s);
    var r := s.request.value;
    HideKeeps(s);
    var t := s.(request := None);
    CountKeeps(t);
    GotoKeeps(t.(next := s.next + 1), s.next, Cancelling(r.hold, false, if answer then Some(r.key) else None, None, None));
  }

  lemma ApproveKeeps(s: State, expired: bool)
    requires SlotInv(s) && s.request.Some? && s.request.value.status == Awaiting
    ensures SlotInv(StepApprove(s, expired))
  {
    if expired { WithdrawKeeps(s, false); return; }
    var t := StepApprove(s, expired);
    assert DrivesOf(t.actions[s.next]).Some?;
    forall x | x in t.actions ensures ActionOk(t, t.actions[x]) { assert x != s.next ==> ActionOk(s, s.actions[x]); }
    forall x | x in s.actions ensures DrivesOf(s.actions[x]).None? { assert ActionOk(s, s.actions[x]); }
  }

  lemma RetryDeliveryKeeps(s: State)
    requires SlotInv(s) && s.request.Some? && s.request.value.status == DeliveryError
    ensures SlotInv(StepRetry(s))
  {
    CountKeeps(s);
    var t := s.(next := s.next + 1);
    StatusKeeps(t, s.request.value.(status := Notifying));
    NotifyKeeps(SetStatus(t, s.request.value.serial, Notifying), s.next, s.request.value.serial);
  }

  /** A new action that follows the displayed request. */
  lemma FollowKeeps(s: State, action: Action)
    requires SlotInv(s) && s.request.Some? && Terminal(s.request.value.status)
    requires action.Reconciling? || action.Recovering?
    requires FollowsOf(action) == Some(s.request.value.serial) && (action.Recovering? ==> s.request.value.local)
    ensures SlotInv(Goto(s, s.next, action).(next := s.next + 1))
  {
    CountKeeps(s);
    GotoKeeps(s.(next := s.next + 1), s.next, action);
  }

  lemma CloseKeeps(s: State)
    requires SlotInv(s)
    ensures SlotInv(StepClose(s))
  {
    if s.request.Some? && s.request.value.status in {DeliveryError, Unknown, Recovered} {
      HideKeeps(s);
      DrainKeeps(s.(request := None));
    } else { DrainKeeps(s); }
  }

  /** Marking the preparation slot leaves its token alone. */
  lemma MarkKeeps(s: State, slot: Slot)
    requires SlotInv(s) && s.preparing.Some? && slot.token == s.preparing.value.token
    requires (s.preparing.value.ended ==> slot.ended) && (s.preparing.value.cancelled ==> slot.cancelled)
    ensures SlotInv(s.(preparing := Some(slot)))
  {
    var x :| x in s.actions && TokenOf(s.actions[x]).Some?;
  }

  lemma LockKeeps(s: State)
    requires SlotInv(s)
    ensures SlotInv(StepLocked(s)) && SlotInv(StepAccount(s))
  {
    if s.preparing.Some? { MarkKeeps(s, s.preparing.value.(cancelled := true)); }
    var t := CancelPreparing(s);
    if s.request.Some? && Cancellable(s.request.value) { WithdrawKeeps(t, true); }
  }

  lemma EndActionsKeeps(s: State, hit: Key -> bool)
    requires SlotInv(s)
    ensures SlotInv(s.(actions := EndActions(s.actions, hit)))
  {
    var t := s.(actions := EndActions(s.actions, hit));
    forall x | x in t.actions
      ensures x in s.actions && ActionOk(t, t.actions[x])
      ensures TokenOf(t.actions[x]) == TokenOf(s.actions[x]) && DrivesOf(t.actions[x]) == DrivesOf(s.actions[x])
    {
      assert ActionOk(s, s.actions[x]);
    }
    if s.preparing.Some? {
      var x :| x in s.actions && TokenOf(s.actions[x]).Some?;
      assert x in t.actions && TokenOf(t.actions[x]).Some?;
    }
    if s.request.Some? && s.request.value.status == Publishing {
      var x :| x in s.actions && DrivesOf(s.actions[x]).Some?;
      assert x in t.actions && DrivesOf(t.actions[x]).Some?;
    }
  }

  /** A request may learn that its session ended. */
  lemma EndedKeeps(s: State)
    requires SlotInv(s) && s.request.Some?
    ensures SlotInv(s.(request := Some(s.request.value.(ended := true))))
  {
    var t := s.(request := Some(s.request.value.(ended := true)));
    forall x | x in t.actions ensures ActionOk(t, t.actions[x]) { assert ActionOk(s, s.actions[x]); }
    if s.request.value.status == Publishing { var x :| x in s.actions && DrivesOf(s.actions[x]).Some?; assert x in t.actions; }
  }

  lemma MarkEndedKeeps(s: State, hit: Key -> bool)
    requires SlotInv(s)
    ensures SlotInv(MarkEnded(s, hit))
  {
    var t := s.(actions := EndActions(s.actions, hit));
    EndActionsKeeps(s, hit);
    EndQueueOk(s.queue, hit);
    QueueKeeps(t, EndQueue(s.queue, hit));
    var u := t.(queue := EndQueue(s.queue, hit));
    if s.preparing.Some? && hit(s.preparing.value.key) { MarkKeeps(u, s.preparing.value.(ended := true)); }
  }

  lemma EndKeeps(s: State, hit: Key -> bool)
    requires SlotInv(s)
    ensures SlotInv(End(s, hit))
  {
    var marked := MarkEnded(s, hit);
    MarkEndedKeeps(s, hit);
    if s.request.Some? && !s.request.value.local && hit(s.request.value.key) {
      if Cancellable(s.request.value) { WithdrawKeeps(marked, false); } else { EndedKeeps(marked); }
    }
  }

  lemma ArriveKeeps(s: State, key: Key)
    requires SlotInv(s)
    ensures SlotInv(Goto(s, s.next, Looking(key, false, None)).(next := s.next + 1, delivered := s.delivered + {key}))
  {
    CountKeeps(s);
    hide SlotInv;
    var t := s.(next := s.next + 1);
    Facts(s);
    GotoKeeps(t, s.next, Looking(key, false, None));
    FrameKeeps(Goto(t, s.next, Looking(key, false, None)),
               Goto(s, s.next, Looking(key, false, None)).(next := s.next + 1, delivered := s.delivered + {key}));
  }

  lemma RestartKeeps(s: State)
    ensures SlotInv(Reborn(s))
  {}

  /** The cases of Terminal that the user acts on. */
  lemma UserFollows(s: State)
    requires SlotInv(s) && s.request.Some? && (s.request.value.status == Unknown || s.request.value.status == Recovered)
    ensures
      var r := s.request.value;
      && SlotInv(Goto(s, s.next, Reconciling(r.serial, r.owner, None)).(next := s.next + 1))
      && (r.status == Recovered ==> SlotInv(Goto(s, s.next, Recovering(r.serial, r.owner, None)).(next := s.next + 1)))
  {
    hide SlotInv;
    Facts(s);
    FollowKeeps(s, Reconciling(s.request.value.serial, s.request.value.owner, None));
    if s.request.value.status == Recovered { FollowKeeps(s, Recovering(s.request.value.serial, s.request.value.owner, None)); }
  }

  lemma StepKeeps(s: State, e: Event)
    requires SlotInv(s) && Enabled(s, e)
    ensures SlotInv(Next(s, e))
  {
    hide SlotInv, StepResume, StepBackend, StepAnswer, StepApprove, StepRetry, StepClose, Drain, Withdraw, End, StepLocked,
         StepAccount, Reborn, Finds;
    match e
    case Arrive(key) => ArriveKeeps(s, key);
    case Answer(tid, reply) => AnswerKeeps(s, tid, reply);
    case Backend(tid, ok, marked, reply) => BackendKeeps(s, tid, ok, marked, reply);
    case Resume(tid, ok, stray) => ResumeKeeps(s, tid, ok, ok || stray);
    case Approve(expired) => ApproveKeeps(s, expired);
    case Reject => WithdrawKeeps(s, true);
    case RetryDelivery => RetryDeliveryKeeps(s);
    case Reconcile => UserFollows(s);
    case CloseLocally => CloseKeeps(s);
    case Acknowledge => UserFollows(s);
    case AccountChanged => LockKeeps(s);
    case WalletLocked => LockKeeps(s);
    case Surface => DrainKeeps(s);
    case SessionEnded(topic) => EndKeeps(s, (k: Key) => k.topic == topic);
    case Expired(id, passed) => EndKeeps(s, (k: Key) => k.id == id && k in passed);
    case SessionClears => FrameKeeps(s, Next(s, e));
    case FirstPartyHolds => FrameKeeps(s, Next(s, e));
    case FirstPartyEnds => FrameKeeps(s, Next(s, e));
    case Restart => RestartKeeps(s);
  }

  /** Every state of every run. */
  lemma {:induction false} RunKeeps(r: Run, i: nat)
    requires ValidRun(r) && i < |r.states|
    ensures SlotInv(r.states[i])
  {
    if i > 0 {
      RunKeeps(r, i - 1);
      assert ValidStep(r.states[i - 1], r.events[i - 1], r.states[i]);
      StepKeeps(r.states[i - 1], r.events[i - 1]);
    }
  }
}
