/** What the store answers: a request moves from being claimed (it may still be
    refused) to being settled (it may only be given a result), never back. */
module WcStoreAnswers {
  import opened TxTypes
  import opened WcStore
  import S = WcStoreSlots
  import H = WcStoreHolds

  /** The request an action may still refuse, publish or pass on. */
  function ClaimOf(t: Action): Option<Key> {
    match t
    case Looking(key, _, _) => Some(key)
    case Retrying(key) => Some(key)
    case Refusing(key, _, _) => Some(key)
    case Preparing(key, _, _) => Some(key)
    case Answering(key, _) => Some(key)
    case Cancelling(_, _, answer, _, _) => answer
    case _ => None
  }

  /** The lookup failed, or found the request's own outcome. */
  predicate Retained(r: Reply) {
    r.Broken? || r.Settled? || r.Unsettled?
  }

  /** The claimed request an action may answer with an error. */
  function RefusableOf(t: Action): Option<Key> {
    match t
    case Looking(key, _, found) => if found.Some? && !Retained(found.value) then Some(key) else None
    case Retrying(_) => None
    case _ => ClaimOf(t)
  }

  /** A claim no refusal was sent for yet. */
  function OpenOf(t: Action): Option<Key> {
    if t.Refusing? || t.Answering? then None else ClaimOf(t)
  }

  /** The request an action is giving a result. */
  function ResultOf(t: Action): Option<Key> {
    match t
    case Delivering(key, _, _, _, _) => Some(key)
    case Informing(_, key, _) => Some(key)
    case _ => None
  }

  function RequestClaim(s: State): Option<Key> {
    if s.request.Some? && H.Live(s.request.value.status) then Some(s.request.value.key) else None
  }

  function RequestRefusable(s: State): Option<Key> {
    if s.request.Some? && Cancellable(s.request.value) then Some(s.request.value.key) else None
  }

  function RequestResult(s: State): Option<Key> {
    if s.request.Some? && !H.Live(s.request.value.status) && !s.request.value.local then Some(s.request.value.key) else None
  }

  ghost predicate Claimed(s: State, k: Key) {
    RequestClaim(s) == Some(k) || exists tid :: tid in s.actions && ClaimOf(s.actions[tid]) == Some(k)
  }

  ghost predicate Queued(q: seq<Replay>, k: Key) {
    exists r :: r in q && r.key == k && !r.local
  }

  ghost predicate Owed(s: State, k: Key) {
    || RequestResult(s) == Some(k)
    || Queued(s.queue, k)
    || exists tid :: tid in s.actions && ResultOf(s.actions[tid]) == Some(k)
  }

  /** A confirm that has not recorded its block. */
  predicate Unrecorded(t: Action) {
    t.Confirming? && (t.stage.Called? || t.stage.Latched? || t.stage == Replied(Refused))
  }

  predicate OwnAck(t: Action) {
    t.Acking? && t.owner == t.key
  }

  /** The request's record is there, or was dropped after a result was sent. */
  predicate Traced(s: State, k: Key) {
    k in s.journal || k in s.past.droppedElsewhere || k in s.past.results
  }

  predicate ActionAnswerOk(s: State, t: Action) {
    && (RefusableOf(t).Some? ==> RefusableOf(t).value !in s.journal)
    && (OpenOf(t).Some? ==> OpenOf(t).value !in s.past.errors)
    && (Unrecorded(t) ==> t.key !in s.journal)
    && (t.Confirming? && t.stage.Recorded? ==> Traced(s, t.stage.id))
    && (t.Acking? ==> t.key in s.past.results)
  }

  ghost predicate ActionsOk(s: State) {
    forall tid :: tid in s.actions ==> ActionAnswerOk(s, s.actions[tid])
  }

  ghost predicate OneClaim(s: State) {
    && (forall a, b | a in s.actions && b in s.actions && a != b ::
          ClaimOf(s.actions[a]).None? || ClaimOf(s.actions[a]) != ClaimOf(s.actions[b]))
    && (forall a | a in s.actions :: ClaimOf(s.actions[a]).None? || ClaimOf(s.actions[a]) != RequestClaim(s))
  }

  ghost predicate KeysOk(s: State) {
    && (forall k | Claimed(s, k) :: k in s.delivered && k !in s.past.results && !Owed(s, k))
    && (forall k | Owed(s, k) :: k in s.delivered && k !in s.past.errors)
    && (RequestClaim(s).Some? ==> RequestClaim(s).value !in s.past.errors)
    && (RequestRefusable(s).Some? ==> RequestRefusable(s).value !in s.journal)
  }

  predicate HistoryOk(s: State) {
    && (forall k | k in s.past.errors :: k !in s.journal && k !in s.past.results && (k in s.past.handed ==> k in s.past.droppedElsewhere))
    && (forall k | k in s.past.handed :: Traced(s, k))
    && (forall k | k in s.journal && s.journal[k] :: k in s.past.handed)
    && s.past.droppedElsewhere <= s.past.handed
  }

  ghost predicate AnswerInv(s: State) {
    ActionsOk(s) && OneClaim(s) && KeysOk(s) && HistoryOk(s)
  }

  // ---- Steps that only pass requests on

  predicate Inherits(s: State, tid: nat, t: Action) {
    && (ClaimOf(t).Some? ==> tid in s.actions && ClaimOf(s.actions[tid]) == ClaimOf(t))
    && (RefusableOf(t).Some? ==> tid in s.actions && RefusableOf(s.actions[tid]) == RefusableOf(t))
    && (OpenOf(t).Some? ==> tid in s.actions && OpenOf(s.actions[tid]) == OpenOf(t))
    && (t.Confirming? ==> tid in s.actions && s.actions[tid] == t)
    && (t.Acking? ==> t.key in s.past.results || (tid in s.actions && s.actions[tid] == t))
  }

  ghost predicate Gentle(s: State, t: State) {
    && SameHistory(s, t)
    && (RequestClaim(t).None? || RequestClaim(t) == RequestClaim(s))
    && (RequestRefusable(t).None? || RequestRefusable(t) == RequestRefusable(s))
    && (forall tid :: tid in t.actions ==> Inherits(s, tid, t.actions[tid]))
    && (forall k :: Owed(t, k) ==> Owed(s, k) || (Claimed(s, k) && !Claimed(t, k) && k !in s.past.errors))
  }

  lemma GentleClaims(s: State, t: State, k: Key)
    requires Gentle(s, t) && Claimed(t, k)
    ensures Claimed(s, k)
  {
    if RequestClaim(t) != Some(k) {
      var tid :| tid in t.actions && ClaimOf(t.actions[tid]) == Some(k);
      assert Inherits(s, tid, t.actions[tid]);
    }
  }

  lemma GentleKeeps(s: State, t: State)
    requires AnswerInv(s) && Gentle(s, t)
    ensures AnswerInv(t)
  {
    forall tid | tid in t.actions ensures ActionAnswerOk(t, t.actions[tid]) { assert Inherits(s, tid, t.actions[tid]); }
    forall a, b | a in t.actions && b in t.actions && a != b
      ensures ClaimOf(t.actions[a]).None? || ClaimOf(t.actions[a]) != ClaimOf(t.actions[b])
    {
      assert Inherits(s, a, t.actions[a]) && Inherits(s, b, t.actions[b]);
    }
    forall a | a in t.actions ensures ClaimOf(t.actions[a]).None? || ClaimOf(t.actions[a]) != RequestClaim(t) {
      assert Inherits(s, a, t.actions[a]);
    }
    forall k | Claimed(t, k) ensures Claimed(s, k) { GentleClaims(s, t, k); }
    hide Claimed, Owed, Inherits;
  }

  /** One action changes; `passed` is the request it, or the modal, lets go as settled. */
  lemma EditIsGentle(s: State, t: State, tid: nat, passed: Option<Key>)
    requires OneClaim(s) && SameHistory(s, t)
    requires passed.Some? ==>
               || (tid in s.actions && ClaimOf(s.actions[tid]) == passed && (tid in t.actions ==> ClaimOf(t.actions[tid]).None?))
               || (RequestClaim(s) == passed && RequestClaim(t).None?)
    requires passed.Some? ==> passed.value !in s.past.errors
    requires t.actions == s.actions - {tid} || (tid in t.actions && t.actions == s.actions[tid := t.actions[tid]])
    requires tid in t.actions ==> Inherits(s, tid, t.actions[tid])
    requires tid in t.actions && ResultOf(t.actions[tid]).Some? ==>
               ResultOf(t.actions[tid]) == passed || Owed(s, ResultOf(t.actions[tid]).value)
    requires RequestClaim(t).None? || RequestClaim(t) == RequestClaim(s)
    requires RequestRefusable(t).None? || RequestRefusable(t) == RequestRefusable(s)
    requires RequestResult(t).Some? ==> RequestResult(t) == passed || Owed(s, RequestResult(t).value)
    requires forall r :: r in t.queue && !r.local ==> Some(r.key) == passed || r in s.queue || Owed(s, r.key)
    ensures Gentle(s, t)
  {
    forall x | x in t.actions ensures Inherits(s, x, t.actions[x]) {}
    if passed.Some? {
      assert Claimed(s, passed.value) && !Claimed(t, passed.value);
    }
    forall k | Owed(t, k) ensures Owed(s, k) || passed == Some(k) {
      if RequestResult(t) == Some(k) {
      } else if Queued(t.queue, k) {
        var r :| r in t.queue && r.key == k && !r.local;
        assert r in s.queue ==> Queued(s.queue, k);
      } else {
        var x :| x in t.actions && ResultOf(t.actions[x]) == Some(k);
        if x != tid { assert x in s.actions && ResultOf(s.actions[x]) == Some(k); }
      }
    }
  }

  lemma InWithout(q: seq<Replay>, key: Key, r: Replay)
    requires r in Without(q, key)
    ensures r in q
  {
    if q[0].key != key && r != q[0] { InWithout(q[1..], key, r); }
  }

  lemma InEndQueue(q: seq<Replay>, hit: Key -> bool, r: Replay)
    requires r in EndQueue(q, hit)
    ensures r in q
  {
    if r != q[0] { InEndQueue(q[1..], hit, r); }
  }

  /** What a new action, or a changed slot, may start from. */
  predicate Ready(s: State) {
    s.next !in s.actions && S.QueueOk(s.queue)
  }

  lemma FinishIsGentle(s: State, slot: Option<nat>, drain: bool)
    requires OneClaim(s) && Ready(s)
    ensures Gentle(s, Finish(s, slot, drain))
  {
    var t := Finish(s, slot, drain);
    if s.queue != [] {
      assert !s.queue[0].local ==> s.queue[0] in s.queue && Queued(s.queue, s.queue[0].key);
    }
    assert s.actions - {s.next} == s.actions;
    hide OneClaim, Gentle;
    EditIsGentle(s, t, s.next, None);
  }

  lemma FinishKeeps(s: State, slot: Option<nat>, drain: bool)
    requires AnswerInv(s) && Ready(s)
    ensures AnswerInv(Finish(s, slot, drain))
  {
    FinishIsGentle(s, slot, drain);
    GentleKeeps(s, Finish(s, slot, drain));
  }

  lemma EditKeeps(s: State, t: State, tid: nat, passed: Option<Key>)
    requires AnswerInv(s) && SameHistory(s, t)
    requires passed.Some? ==>
               || (tid in s.actions && ClaimOf(s.actions[tid]) == passed && (tid in t.actions ==> ClaimOf(t.actions[tid]).None?))
               || (RequestClaim(s) == passed && RequestClaim(t).None?)
    requires passed.Some? ==> passed.value !in s.past.errors
    requires t.actions == s.actions - {tid} || (tid in t.actions && t.actions == s.actions[tid := t.actions[tid]])
    requires tid in t.actions ==> Inherits(s, tid, t.actions[tid])
    requires tid in t.actions && ResultOf(t.actions[tid]).Some? ==>
               ResultOf(t.actions[tid]) == passed || Owed(s, ResultOf(t.actions[tid]).value)
    requires RequestClaim(t).None? || RequestClaim(t) == RequestClaim(s)
    requires RequestRefusable(t).None? || RequestRefusable(t) == RequestRefusable(s)
    requires RequestResult(t).Some? ==> RequestResult(t) == passed || Owed(s, RequestResult(t).value)
    requires forall r :: r in t.queue && !r.local ==> Some(r.key) == passed || r in s.queue || Owed(s, r.key)
    ensures AnswerInv(t)
  {
    EditIsGentle(s, t, tid, passed);
    GentleKeeps(s, t);
  }

  lemma RequestIsOwed(s: State)
    ensures RequestResult(s).Some? ==> Owed(s, RequestResult(s).value)
  {}

  lemma ActionIsOwed(s: State, tid: nat)
    requires tid in s.actions && ResultOf(s.actions[tid]).Some?
    ensures Owed(s, ResultOf(s.actions[tid]).value)
  {}

  /** Only an action moves; the modal and the queue stay. */
  lemma ActionKeeps(s: State, u: State, tid: nat, passed: Option<Key>)
    requires AnswerInv(s) && SameHistory(s, u) && u.request == s.request && u.queue == s.queue
    requires u.actions == s.actions - {tid} || (tid in u.actions && u.actions == s.actions[tid := u.actions[tid]])
    requires passed.Some? ==>
               tid in s.actions && OpenOf(s.actions[tid]) == passed && (tid in u.actions ==> ClaimOf(u.actions[tid]).None?)
    requires tid in u.actions ==>
               && Inherits(s, tid, u.actions[tid])
               && (ResultOf(u.actions[tid]).Some? ==> ResultOf(u.actions[tid]) == passed || Owed(s, ResultOf(u.actions[tid]).value))
    ensures AnswerInv(u)
  {
    hide AnswerInv, Owed, Inherits;
    RequestIsOwed(s);
    if tid in s.actions { ActionFacts(s, tid); }
    EditKeeps(s, u, tid, passed);
  }

  /** An action ends by showing a settled request, or queueing one. */
  lemma ShowKeeps(s: State, u: State, tid: nat, key: Key)
    requires AnswerInv(s) && SameHistory(s, u) && tid in s.actions && u.actions == s.actions - {tid}
    requires OpenOf(s.actions[tid]) == Some(key) || ResultOf(s.actions[tid]) == Some(key)
    requires (u.queue == s.queue && RequestClaim(u).None? && RequestResult(u) == Some(key))
             || (u.request == s.request && exists r: Replay :: r.key == key && u.queue == Without(s.queue, key) + [r])
    ensures AnswerInv(u)
  {
    RequestIsOwed(s);
    if ResultOf(s.actions[tid]) == Some(key) { ActionIsOwed(s, tid); }
    hide AnswerInv, Owed;
    ActionFacts(s, tid);
    forall r | r in u.queue && !r.local ensures r in s.queue || r.key == key {
      if r !in s.queue && r.key != key { InWithout(s.queue, key, r); }
    }
    EditKeeps(s, u, tid, OpenOf(s.actions[tid]));
  }

  // ---- The continuations

  lemma ReplayKeeps(s: State, tid: nat, owner: Key)
    requires AnswerInv(s) && tid in s.actions && OpenOf(s.actions[tid]).Some?
    ensures
      var key := OpenOf(s.actions[tid]).value;
      && AnswerInv(Enqueue(Drop(s, tid), Replay(key, owner, false, false)))
      && (Free(s) ==> AnswerInv(ShowUnknown(Drop(s, tid), key, owner, false)))
  {
    var key := OpenOf(s.actions[tid]).value;
    hide AnswerInv, Owed, Without;
    ShowKeeps(s, Enqueue(Drop(s, tid), Replay(key, owner, false, false)), tid, key);
    if Free(s) { ShowKeeps(s, ShowUnknown(Drop(s, tid), key, owner, false), tid, key); }
  }

  /** The result of a claimed request is delivered. */
  lemma DeliverKeeps(s: State, tid: nat, owner: Key, slot: Option<nat>, drain: bool)
    requires AnswerInv(s) && tid in s.actions && OpenOf(s.actions[tid]).Some?
    ensures AnswerInv(Deliver(s, tid, OpenOf(s.actions[tid]).value, owner, slot, drain))
  {
    hide AnswerInv, Owed;
    ActionKeeps(s, Deliver(s, tid, OpenOf(s.actions[tid]).value, owner, slot, drain), tid, OpenOf(s.actions[tid]));
  }

  /** A claim stays with its action, which may become one that refuses it if it could. */
  lemma ClaimKeeps(s: State, u: State, tid: nat)
    requires AnswerInv(s) && SameHistory(s, u) && u.request == s.request && u.queue == s.queue
    requires tid in s.actions && tid in u.actions && u.actions == s.actions[tid := u.actions[tid]]
    requires ClaimOf(u.actions[tid]).None? || ClaimOf(u.actions[tid]) == ClaimOf(s.actions[tid])
    requires RefusableOf(u.actions[tid]).None? || RefusableOf(u.actions[tid]) == RefusableOf(s.actions[tid])
    requires OpenOf(u.actions[tid]).None? || OpenOf(u.actions[tid]) == OpenOf(s.actions[tid])
    requires ResultOf(u.actions[tid]).None? && !u.actions[tid].Confirming? && !u.actions[tid].Acking?
    ensures AnswerInv(u)
  {
    hide AnswerInv, Owed;
    ActionKeeps(s, u, tid, None);
  }

  lemma AfterLookupKeeps(s: State, tid: nat, ok: bool)
    requires AnswerInv(s) && tid in s.actions && s.actions[tid].Looking? && s.actions[tid].found.Some?
    ensures AnswerInv(AfterLookup(s, tid, s.actions[tid].key, s.actions[tid].ended, s.actions[tid].found.value, ok))
  {
    var t := s.actions[tid];
    var key := t.key;
    var u := AfterLookup(s, tid, key, t.ended, t.found.value, ok);
    DropKeeps(s, tid);
    hide AnswerInv, Enqueue;
    if t.ended { return; }
    match t.found.value
    case Settled(k) => DeliverKeeps(s, tid, k, None, false);
    case Unsettled(k) => ReplayKeeps(s, tid, k);
    case _ => if tid in u.actions { ClaimKeeps(s, u, tid); }
  }

  lemma DropKeeps(s: State, tid: nat)
    requires AnswerInv(s) && tid in s.actions
    ensures AnswerInv(Drop(s, tid))
  {
    hide AnswerInv, Owed;
    ActionKeeps(s, Drop(s, tid), tid, None);
  }

  /** A refusal is sent, and its claim ends. */
  lemma ErroredKeeps(s: State, tid: nat, key: Key, sent: bool)
    requires AnswerInv(s) && tid in s.actions && RefusableOf(s.actions[tid]) == Some(key)
    ensures AnswerInv(Errored(Drop(s, tid), key, sent))
  {
    hide AnswerInv;
    DropKeeps(s, tid);
    RefusedAlone(s, tid, key);
    OwesNothing(s, Drop(s, tid), tid, key);
    HistoryKeeps(Drop(s, tid), key, sent);
  }

  /** A refusal is sent, or not, and the same action will answer once more. */
  lemma ErroredAgainKeeps(s: State, tid: nat, action: Action, key: Key, sent: bool)
    requires AnswerInv(s) && tid in s.actions && RefusableOf(s.actions[tid]) == Some(key)
    requires (action.Refusing? || action.Answering?) && action.key == key
    ensures AnswerInv(Goto(Errored(Drop(s, tid), key, sent), tid, action))
  {
    hide AnswerInv;
    var t := Goto(s, tid, action);
    RefusedAlone(s, tid, key);
    ClaimKeeps(s, t, tid);
    OwesNothing(s, t, tid, key);
    HistoryKeeps(t, key, sent);
    assert Goto(Errored(Drop(s, tid), key, sent), tid, action).actions == t.actions;
    assert Goto(Errored(Drop(s, tid), key, sent), tid, action) == Errored(t, key, sent);
  }

  /** Nobody else may answer, show or publish a request that is being refused. */
  lemma RefusedAlone(s: State, tid: nat, key: Key)
    requires AnswerInv(s) && tid in s.actions && RefusableOf(s.actions[tid]) == Some(key)
    ensures key !in s.journal && key !in s.past.results && RequestClaim(s) != Some(key) && !Owed(s, key)
    ensures forall x :: x in s.actions && x != tid ==> ClaimOf(s.actions[x]) != Some(key)
  {
    assert ActionAnswerOk(s, s.actions[tid]) && Claimed(s, key);
    hide Owed;
  }

  /** An action that gives no result adds nothing owed. */
  lemma OwesNothing(s: State, u: State, tid: nat, k: Key)
    requires u.request == s.request && u.queue == s.queue
    requires u.actions == s.actions - {tid} || (tid in u.actions && u.actions == s.actions[tid := u.actions[tid]] && ResultOf(u.actions[tid]).None?)
    ensures Owed(u, k) ==> Owed(s, k)
  {
    if x :| x in u.actions && ResultOf(u.actions[x]) == Some(k) {
      assert x in s.actions && ResultOf(s.actions[x]) == Some(k);
    }
  }

  lemma HistoryKeeps(t: State, key: Key, sent: bool)
    requires AnswerInv(t) && RequestClaim(t) != Some(key) && !Owed(t, key) && key !in t.journal && key !in t.past.results
    requires forall x :: x in t.actions ==> OpenOf(t.actions[x]) != Some(key)
    ensures AnswerInv(Errored(t, key, sent))
  {
    var u := Errored(t, key, sent);
    forall k ensures Claimed(u, k) == Claimed(t, k) && Owed(u, k) == Owed(t, k) {}
    hide Claimed, Owed;
    forall x | x in u.actions ensures ActionAnswerOk(u, u.actions[x]) { assert ActionAnswerOk(t, t.actions[x]); }
  }

  /** The retained record of a refused duplicate is shown, or queued, for local
      recovery only: nothing new may be answered. */
  lemma RecoverKeeps(t: State, owner: Key)
    requires AnswerInv(t) && t.next !in t.actions
    ensures AnswerInv(if Free(t) then ShowUnknown(t, owner, owner, true) else Enqueue(t, Replay(owner, owner, false, true)))
  {
    var u := if Free(t) then ShowUnknown(t, owner, owner, true) else Enqueue(t, Replay(owner, owner, false, true));
    hide AnswerInv, Owed;
    forall r | r in u.queue && !r.local ensures r in t.queue {
      if r !in t.queue { InWithout(t.queue, owner, r); }
    }
    RequestIsOwed(t);
    assert t.actions - {t.next} == t.actions;
    EditKeeps(t, u, t.next, None);
  }

  lemma AfterRefusalKeeps(s: State, tid: nat, ok: bool, sent: bool)
    requires AnswerInv(s) && S.SlotInv(s) && tid in s.actions && s.actions[tid].Refusing?
    ensures AnswerInv(AfterRefusal(s, tid, s.actions[tid].key, s.actions[tid].recover, s.actions[tid].slot, ok, sent))
  {
    hide AnswerInv, S.SlotInv, Owed, Finish, Drain, Without;
    S.Facts(s);
    var key, recover, slot := s.actions[tid].key, s.actions[tid].recover, s.actions[tid].slot;
    var t := Errored(Drop(s, tid), key, sent);
    ErroredKeeps(s, tid, key, sent);
    if ok && recover.Some? {
      RecoverKeeps(t, recover.value);
      S.WithoutOk(s.queue, recover.value);
      FinishKeeps(if Free(t) then ShowUnknown(t, recover.value, recover.value, true)
                  else Enqueue(t, Replay(recover.value, recover.value, false, true)), slot, slot.Some?);
    } else if ok || recover.None? || slot.None? || (Holds(s, slot) && s.preparing.value.ended) {
      FinishKeeps(t, slot, slot.Some?);
    } else {
      ErroredAgainKeeps(s, tid, if Overtaken(s, slot) then Answering(key, slot) else Refusing(key, None, slot), key, sent);
    }
  }

  lemma AfterAnswerKeeps(s: State, tid: nat, ok: bool, sent: bool)
    requires AnswerInv(s) && S.SlotInv(s) && tid in s.actions && s.actions[tid].Answering?
    ensures AnswerInv(AfterAnswer(s, tid, s.actions[tid].key, s.actions[tid].slot, ok, sent))
  {
    var key, slot := s.actions[tid].key, s.actions[tid].slot;
    ErroredKeeps(s, tid, key, sent);
    hide AnswerInv, S.SlotInv;
    S.Facts(s);
    FinishKeeps(Errored(Drop(s, tid), key, sent), slot, ok || slot.Some?);
  }

  /** A result is sent for a settled request. */
  lemma ResultedKeeps(s: State, key: Key, sent: bool)
    requires AnswerInv(s) && Owed(s, key)
    ensures AnswerInv(Resulted(s, key, sent))
  {
    var u := Resulted(s, key, sent);
    forall k ensures Claimed(u, k) == Claimed(s, k) && Owed(u, k) == Owed(s, k) {}
    hide Claimed, Owed;
    forall x | x in u.actions ensures ActionAnswerOk(u, u.actions[x]) { assert ActionAnswerOk(s, s.actions[x]); }
  }

  /** The delivery failed and no other request would be displaced. */
  predicate Showable(s: State, d: Action)
    requires d.Delivering?
  {
    s.request.None? && (s.preparing.None? || (d.marker && Holds(s, d.slot)))
  }

  /** A settled request is shown in place of the action that ends. */
  lemma ReplaceByRequest(t: State, tid: nat, r: Request, slot: Option<nat>, drain: bool)
    requires AnswerInv(t) && S.SlotInv(t) && tid in t.actions && t.request.None? && !H.Live(r.status) && !r.local
    requires OpenOf(t.actions[tid]) == Some(r.key) || ResultOf(t.actions[tid]) == Some(r.key)
    ensures AnswerInv(Finish(Drop(t, tid).(request := Some(r), next := t.next + 1), slot, drain))
  {
    var u := Drop(t, tid).(request := Some(r), next := t.next + 1);
    hide AnswerInv, S.SlotInv, Owed, Finish, Without;
    S.Facts(t);
    ShowKeeps(t, u, tid, r.key);
    FinishKeeps(u, slot, drain);
  }

  lemma ShownDeliveryKeeps(t: State, tid: nat)
    requires AnswerInv(t) && S.SlotInv(t) && tid in t.actions && t.actions[tid].Delivering?
    requires Showable(t, t.actions[tid])
    ensures
      var d := t.actions[tid];
      AnswerInv(AfterDelivery(t, tid, d.key, d.owner, d.slot, d.marker, d.drain, false, false))
  {
    hide AnswerInv, S.SlotInv, Finish, Enqueue;
    var d := t.actions[tid];
    var r := Request(t.next, d.key, d.owner, DeliveryError, 0, d.marker && Holds(t, d.slot) && t.preparing.value.ended, true, false);
    ReplaceByRequest(t, tid, r, d.slot, d.drain);
  }

  lemma QueuedDeliveryKeeps(t: State, tid: nat)
    requires AnswerInv(t) && S.SlotInv(t) && tid in t.actions && t.actions[tid].Delivering?
    requires !Showable(t, t.actions[tid])
    ensures
      var d := t.actions[tid];
      AnswerInv(AfterDelivery(t, tid, d.key, d.owner, d.slot, d.marker, d.drain, false, false))
  {
    var d := t.actions[tid];
    var u := Enqueue(Drop(t, tid), Replay(d.key, d.owner, true, false));
    hide AnswerInv, S.SlotInv, Owed, Finish, Without;
    S.Facts(t);
    S.WithoutOk(t.queue, d.key);
    ShowKeeps(t, u, tid, d.key);
    FinishKeeps(u, d.slot, d.drain);
  }

  lemma AfterDeliveryKeeps(s: State, tid: nat, ok: bool, sent: bool)
    requires AnswerInv(s) && S.SlotInv(s) && tid in s.actions && s.actions[tid].Delivering? && (ok ==> sent)
    ensures
      var d := s.actions[tid];
      AnswerInv(AfterDelivery(s, tid, d.key, d.owner, d.slot, d.marker, d.drain, ok, sent))
  {
    hide AnswerInv, S.SlotInv, Owed, Finish, Enqueue, Inherits;
    var d := s.actions[tid];
    var t := Resulted(s, d.key, sent);
    ActionIsOwed(s, tid);
    ResultedKeeps(s, d.key, sent);
    S.FrameKeeps(s, t);
    if ok { AckingKeeps(t, tid, d.slot, d.drain, None); }
    else if Showable(t, d) { ShownDeliveryKeeps(t, tid); }
    else { QueuedDeliveryKeeps(t, tid); }
  }

  /** The response reached the dapp; its record may be dropped. */
  lemma AckingKeeps(t: State, tid: nat, slot: Option<nat>, drain: bool, dismiss: Option<nat>)
    requires AnswerInv(t) && tid in t.actions && (t.actions[tid].Delivering? || t.actions[tid].Informing?)
    requires t.actions[tid].key in t.past.results
    ensures AnswerInv(Goto(t, tid, Acking(t.actions[tid].key, t.actions[tid].owner, false, slot, drain, dismiss)))
  {
    hide AnswerInv, Owed;
    ActionKeeps(t, Goto(t, tid, Acking(t.actions[tid].key, t.actions[tid].owner, false, slot, drain, dismiss)), tid, None);
  }

  lemma AfterCancelKeeps(s: State, tid: nat)
    requires AnswerInv(s) && S.SlotInv(s) && tid in s.actions && s.actions[tid].Cancelling?
    ensures AnswerInv(AfterCancel(s, tid, s.actions[tid].answer, s.actions[tid].clear, s.actions[tid].slot))
  {
    hide AnswerInv, S.SlotInv, Owed, Drain;
    var t := s.actions[tid];
    RequestIsOwed(s);
    S.ActionFacts(s, tid);
    S.Facts(s);
    if t.answer.Some? && (t.slot.None? || Overtaken(s, t.slot)) {
      ActionKeeps(s, Goto(s, tid, Answering(t.answer.value, t.slot)), tid, None);
    } else {
      var u := Dismiss(Drop(s, tid), t.clear);
      EditKeeps(s, u, tid, None);
      FinishKeeps(u, t.slot, true);
    }
  }

  lemma AckedKeeps(s: State, tid: nat)
    requires AnswerInv(s) && S.SlotInv(s) && tid in s.actions && s.actions[tid].Acking?
    ensures AnswerInv(Finish(Dismiss(Drop(s, tid), s.actions[tid].dismiss), s.actions[tid].slot, s.actions[tid].drain))
  {
    var t := s.actions[tid];
    var u := Dismiss(Drop(s, tid), t.dismiss);
    RequestIsOwed(s);
    hide AnswerInv, S.SlotInv, Owed, Finish;
    S.Facts(s);
    EditKeeps(s, u, tid, None);
    FinishKeeps(u, t.slot, t.drain);
  }

  lemma RecoveredKeeps(s: State, tid: nat, cleared: bool)
    requires AnswerInv(s) && S.SlotInv(s) && tid in s.actions && s.actions[tid].Recovering?
    ensures AnswerInv(AfterRecovery(s, tid, s.actions[tid].serial, cleared))
  {
    var u := Dismiss(Drop(s, tid), Some(s.actions[tid].serial));
    RequestIsOwed(s);
    DropKeeps(s, tid);
    hide AnswerInv, S.SlotInv, Owed, Drain;
    S.Facts(s);
    EditKeeps(s, u, tid, None);
    FinishKeeps(u, None, true);
  }

  /** What an action may do to a settled request it follows: set its status. */
  lemma StatusKeeps(s: State, u: State, tid: nat)
    requires AnswerInv(s) && SameHistory(s, u) && u.queue == s.queue && u.actions == s.actions - {tid}
    requires s.request.Some? && u.request.Some? && u.request.value.key == s.request.value.key
    requires u.request.value.local == s.request.value.local
    requires !H.Live(s.request.value.status) && !H.Live(u.request.value.status)
    ensures AnswerInv(u)
  {
    RequestIsOwed(s);
    hide AnswerInv, Owed;
    EditKeeps(s, u, tid, None);
  }

  /** A followed or retried request is given its result. */
  lemma NotifyKeeps(s: State, tid: nat, serial: nat)
    requires AnswerInv(s) && (tid in s.actions ==> ClaimOf(s.actions[tid]).None?)
    requires Shows(s, serial) ==> !H.Live(s.request.value.status) && !s.request.value.local
    ensures AnswerInv(Notify(s, tid, serial))
  {
    RequestIsOwed(s);
    var u := Notify(s, tid, serial);
    hide AnswerInv, Owed;
    if Shows(s, serial) && !s.request.value.ended {
      ActionKeeps(s, u, tid, None);
    } else if Shows(s, serial) {
      StatusKeeps(s, u, tid);
    } else {
      EditKeeps(s, u, tid, None);
    }
  }

  lemma AfterReconcileKeeps(s: State, tid: nat, resolved: bool)
    requires AnswerInv(s) && S.SlotInv(s) && tid in s.actions && s.actions[tid].Reconciling?
    ensures AnswerInv(AfterReconcile(s, tid, s.actions[tid].serial, resolved))
  {
    hide AnswerInv, S.SlotInv;
    var serial := s.actions[tid].serial;
    DropKeeps(s, tid);
    S.ActionFacts(s, tid);
    if Shows(s, serial) {
      var r := s.request.value;
      if !resolved { StatusKeeps(s, Drop(SetStatus(s, serial, Unknown), tid), tid); }
      else if r.local { StatusKeeps(s, Drop(SetStatus(s, serial, Recovered), tid), tid); }
      else {
        var t := s.(request := Some(r.(status := Notifying, result := true)));
        RelabelKeeps(s, t);
        NotifyKeeps(t, tid, serial);
      }
    }
  }

  lemma RelabelKeeps(s: State, u: State)
    requires AnswerInv(s) && SameHistory(s, u) && u.queue == s.queue && u.actions == s.actions
    requires s.request.Some? && u.request.Some? && u.request.value.key == s.request.value.key
    requires u.request.value.local == s.request.value.local
    requires !H.Live(s.request.value.status) && !H.Live(u.request.value.status)
    ensures AnswerInv(u)
  {
    RequestIsOwed(s);
    assert RequestResult(u) == RequestResult(s) && RequestClaim(u) == RequestClaim(s) && RequestRefusable(u) == RequestRefusable(s);
    FrameKeeps(s, u);
  }

  /** The hold and the preparation slot do not matter here. */
  lemma FrameKeeps(s: State, u: State)
    requires AnswerInv(s) && SameHistory(s, u) && u.queue == s.queue && u.actions == s.actions
    requires RequestResult(u) == RequestResult(s) && RequestClaim(u) == RequestClaim(s)
    requires RequestRefusable(u) == RequestRefusable(s)
    ensures AnswerInv(u)
  {
    forall k ensures Claimed(u, k) == Claimed(s, k) && Owed(u, k) == Owed(s, k) {}
    hide Claimed, Owed;
    forall x | x in u.actions ensures ActionAnswerOk(u, u.actions[x]) { assert ActionAnswerOk(s, s.actions[x]); }
  }

  lemma AfterInformingKeeps(s: State, tid: nat, ok: bool, sent: bool)
    requires AnswerInv(s) && S.SlotInv(s) && tid in s.actions && s.actions[tid].Informing? && (ok ==> sent)
    ensures
      var t := s.actions[tid];
      AnswerInv(AfterInforming(s, tid, t.serial, t.key, t.owner, ok, sent))
  {
    var action := s.actions[tid];
    var t := Resulted(s, action.key, sent);
    ActionIsOwed(s, tid);
    ResultedKeeps(s, action.key, sent);
    DropKeeps(t, tid);
    hide AnswerInv, S.SlotInv, Owed;
    S.ActionFacts(s, tid);
    if ok { AckingKeeps(t, tid, None, true, Some(action.serial)); }
    else if Shows(s, action.serial) { StatusKeeps(t, Drop(SetStatus(t, action.serial, DeliveryError), tid), tid); }
  }

  /** The confirm's outcome settles the displayed request. */
  lemma ConcludeKeeps(s: State, u: State, tid: nat)
    requires AnswerInv(s) && SameHistory(s, u) && u.queue == s.queue && tid in s.actions && s.actions[tid].Confirming?
    requires RequestClaim(s).Some? && RequestClaim(u).None? && RequestResult(u) == RequestClaim(s)
    requires u.actions == s.actions - {tid} || (tid in u.actions && u.actions == s.actions[tid := u.actions[tid]] && u.actions[tid].Informing?)
    requires tid in u.actions ==> Some(u.actions[tid].key) == RequestClaim(s)
    ensures AnswerInv(u)
  {
    hide AnswerInv, Owed;
    ClaimFacts(s);
    EditKeeps(s, u, tid, RequestClaim(s));
  }

  /** A confirm that was refused leaves its request refusable. */
  lemma RefusedKeeps(s: State, tid: nat)
    requires AnswerInv(s) && S.SlotInv(s) && tid in s.actions && s.actions[tid].Confirming?
    requires s.actions[tid].stage == Replied(Refused)
    ensures AnswerInv(Drop(SetStatus(s, s.actions[tid].serial, Failed), tid))
  {
    hide S.SlotInv;
    S.ActionFacts(s, tid);
    var u, t := Drop(SetStatus(s, s.actions[tid].serial, Failed), tid), Drop(s, tid);
    assert ActionAnswerOk(s, s.actions[tid]);
    DropKeeps(s, tid);
    forall k ensures Claimed(u, k) == Claimed(t, k) && Owed(u, k) == Owed(t, k) {}
    hide Claimed, Owed;
    forall x | x in u.actions ensures ActionAnswerOk(u, u.actions[x]) { assert ActionAnswerOk(s, s.actions[x]); }
  }

  lemma AfterConfirmKeeps(s: State, tid: nat)
    requires AnswerInv(s) && S.SlotInv(s) && tid in s.actions && s.actions[tid].Confirming?
    requires s.actions[tid].stage.Replied?
    ensures AnswerInv(AfterConfirm(s, tid, s.actions[tid].serial, s.actions[tid].hold, s.actions[tid].stage.reply))
  {
    hide AnswerInv, S.SlotInv, Owed;
    S.ActionFacts(s, tid);
    S.Facts(s);
    hide S.QueueOk;
    var t := s.actions[tid];
    var u := AfterConfirm(s, tid, t.serial, t.hold, t.stage.reply);
    if t.stage.reply != Refused { ConcludeKeeps(s, u, tid); }
    else if s.request.value.ended { ActionKeeps(s, u, tid, None); }
    else { RefusedKeeps(s, tid); }
  }

  lemma ShowPreparedKeeps(s: State, tid: nat, r: Request)
    requires AnswerInv(s) && s.request.None? && tid in s.actions && s.actions[tid].Preparing?
    requires r.key == s.actions[tid].key && r.status == Awaiting && !r.local
    ensures AnswerInv(Drop(s, tid).(request := Some(r), next := s.next + 1))
  {
    var t, u := Drop(s, tid), Drop(s, tid).(request := Some(r), next := s.next + 1);
    assert ActionAnswerOk(s, s.actions[tid]);
    forall k ensures Claimed(u, k) ==> Claimed(s, k) {
      if Claimed(u, k) && r.key != k {
        var x :| x in u.actions && ClaimOf(u.actions[x]) == Some(k);
        assert x in s.actions && ClaimOf(s.actions[x]) == Some(k);
      }
    }
    forall k ensures Owed(u, k) ==> Owed(s, k) {
      if Owed(u, k) && !Queued(u.queue, k) { var x :| x in u.actions && ResultOf(u.actions[x]) == Some(k); assert x in s.actions; }
    }
    hide Claimed, Owed;
    forall x | x in u.actions ensures ActionAnswerOk(u, u.actions[x]) { assert ActionAnswerOk(s, s.actions[x]); }
  }

  lemma ShowThenFinish(s: State, tid: nat, r: Request, slot: Option<nat>)
    requires AnswerInv(s) && S.SlotInv(s) && s.request.None? && tid in s.actions && s.actions[tid].Preparing?
    requires r.key == s.actions[tid].key && r.status == Awaiting && !r.local
    ensures AnswerInv(Finish(Drop(s, tid).(request := Some(r), next := s.next + 1), slot, true))
  {
    ShowPreparedKeeps(s, tid, r);
    hide AnswerInv, S.SlotInv, Finish;
    S.Facts(s);
    FinishKeeps(Drop(s, tid).(request := Some(r), next := s.next + 1), slot, true);
  }

  lemma PreparedKeeps(s: State, tid: nat, hold: nat)
    requires AnswerInv(s) && S.SlotInv(s) && tid in s.actions && s.actions[tid].Preparing?
    ensures AnswerInv(AfterPrepare(s, tid, s.actions[tid].key, s.actions[tid].token, Prepared(hold)))
  {
    hide AnswerInv, S.SlotInv, Finish;
    var key, token := s.actions[tid].key, s.actions[tid].token;
    S.ActionFacts(s, tid);
    S.Facts(s);
    hide S.RequestOk, S.QueueOk;
    if s.preparing.value.ended || s.preparing.value.cancelled {
      var u := Goto(s, tid, Cancelling(hold, false, Some(key), None, Some(token)));
      ClaimKeeps(s, u, tid);
    } else {
      ShowThenFinish(s, tid, Request(s.next, key, key, Awaiting, hold, false, false, false), Some(token));
    }
  }

  lemma UnsettledKeeps(s: State, tid: nat, owner: Key)
    requires AnswerInv(s) && S.SlotInv(s) && tid in s.actions && s.actions[tid].Preparing?
    ensures AnswerInv(AfterPrepare(s, tid, s.actions[tid].key, s.actions[tid].token, Unsettled(owner)))
    ensures AnswerInv(Finish(Drop(s, tid), Some(s.actions[tid].token), true))
  {
    hide AnswerInv, S.SlotInv, Finish, Owed;
    var key, slot := s.actions[tid].key, Some(s.actions[tid].token);
    DropKeeps(s, tid);
    S.ActionFacts(s, tid);
    S.Facts(s);
    FinishKeeps(Drop(s, tid), slot, true);
    ShowKeeps(s, ShowUnknown(Drop(s, tid), key, owner, false), tid, key);
    FinishKeeps(ShowUnknown(Drop(s, tid), key, owner, false), slot, true);
  }

  /** A prepare that failed, or found another session's record, is refused. */
  lemma FailedPrepareKeeps(s: State, tid: nat, recover: Option<Key>)
    requires AnswerInv(s) && tid in s.actions && s.actions[tid].Preparing?
    ensures
      var t := s.actions[tid];
      && AnswerInv(Goto(s, tid, Answering(t.key, Some(t.token))))
      && AnswerInv(Goto(s, tid, Refusing(t.key, recover, Some(t.token))))
  {
    var t := s.actions[tid];
    hide AnswerInv;
    ClaimKeeps(s, Goto(s, tid, Answering(t.key, Some(t.token))), tid);
    ClaimKeeps(s, Goto(s, tid, Refusing(t.key, recover, Some(t.token))), tid);
  }

  lemma AfterPrepareKeeps(s: State, tid: nat)
    requires AnswerInv(s) && S.SlotInv(s) && tid in s.actions && s.actions[tid].Preparing? && s.actions[tid].found.Some?
    ensures AnswerInv(AfterPrepare(s, tid, s.actions[tid].key, s.actions[tid].token, s.actions[tid].found.value))
  {
    hide AnswerInv, S.SlotInv, Finish, Deliver;
    var t := s.actions[tid];
    match t.found.value
    case Settled(k) => DeliverKeeps(s, tid, k, Some(t.token), true);
    case Unsettled(k) => UnsettledKeeps(s, tid, k);
    case Prepared(h) => PreparedKeeps(s, tid, h);
    case Duplicate(k) => FailedPrepareKeeps(s, tid, Some(k));
    case _ =>
      UnsettledKeeps(s, tid, t.key);
      FailedPrepareKeeps(s, tid, None);
  }

  lemma RetryKeeps(s: State, tid: nat)
    requires AnswerInv(s) && tid in s.actions && s.actions[tid].Retrying?
    ensures AnswerInv(Goto(s, tid, Looking(s.actions[tid].key, false, None)))
  {
    hide AnswerInv;
    ClaimKeeps(s, Goto(s, tid, Looking(s.actions[tid].key, false, None)), tid);
  }

  lemma ResumeKeeps(s: State, tid: nat, ok: bool, sent: bool)
    requires AnswerInv(s) && S.SlotInv(s) && tid in s.actions && Returned(s.actions[tid]) && (ok ==> sent)
    ensures AnswerInv(StepResume(s, tid, ok, sent))
  {
    hide AnswerInv, S.SlotInv, Finish, AfterLookup, AfterRefusal, AfterCancel, AfterAnswer, AfterDelivery, AfterConfirm,
         AfterReconcile, AfterInforming, AfterRecovery, AfterPrepare;
    match s.actions[tid]
    case Looking(_, _, _) => AfterLookupKeeps(s, tid, ok);
    case Retrying(_) => if ok { RetryKeeps(s, tid); } else { DropKeeps(s, tid); }
    case Refusing(_, _, _) => AfterRefusalKeeps(s, tid, ok, sent);
    case Preparing(_, _, _) => AfterPrepareKeeps(s, tid);
    case Cancelling(_, _, _, _, _) => AfterCancelKeeps(s, tid);
    case Answering(_, _) => AfterAnswerKeeps(s, tid, ok, sent);
    case Delivering(_, _, _, _, _) => AfterDeliveryKeeps(s, tid, ok, sent);
    case Acking(_, _, _, _, _, _) => AckedKeeps(s, tid);
    case Confirming(_, _, _, _) => AfterConfirmKeeps(s, tid);
    case Informing(_, _, _) => AfterInformingKeeps(s, tid, ok, sent);
    case Reconciling(_, _, resolved) => AfterReconcileKeeps(s, tid, resolved.value);
    case Recovering(_, _, cleared) => RecoveredKeeps(s, tid, cleared.value);
  }

  // ---- The backend

  lemma AnswerKeeps(s: State, tid: nat, reply: Reply)
    requires AnswerInv(s) && tid in s.actions && AnswerEnabled(s, s.actions[tid], reply)
    ensures AnswerInv(StepAnswer(s, tid, s.actions[tid], reply))
  {
    var u := StepAnswer(s, tid, s.actions[tid], reply);
    if s.actions[tid].Looking? {
      FoundKeeps(s, tid, reply);
    } else {
      assert !Retained(Nothing);
      hide AnswerInv, Finds;
      ClaimKeeps(s, u, tid);
    }
  }

  /** The backend moved an action without touching what is claimed or owed. */
  lemma SameClaims(s: State, u: State, tid: nat)
    requires tid in s.actions && tid in u.actions && u.actions == s.actions[tid := u.actions[tid]]
    requires u.request == s.request && u.queue == s.queue
    requires ClaimOf(u.actions[tid]) == ClaimOf(s.actions[tid]) && ResultOf(u.actions[tid]) == ResultOf(s.actions[tid])
    ensures forall k :: Claimed(u, k) == Claimed(s, k) && Owed(u, k) == Owed(s, k)
    ensures OneClaim(s) ==> OneClaim(u)
  {
    forall k ensures Claimed(u, k) == Claimed(s, k) {
      if Claimed(s, k) && RequestClaim(s) != Some(k) {
        var x :| x in s.actions && ClaimOf(s.actions[x]) == Some(k);
        assert x in u.actions && ClaimOf(u.actions[x]) == Some(k);
      }
    }
    forall k ensures Owed(u, k) == Owed(s, k) {
      if exists x :: x in s.actions && ResultOf(s.actions[x]) == Some(k) {
        var x :| x in s.actions && ResultOf(s.actions[x]) == Some(k);
        assert x in u.actions && ResultOf(u.actions[x]) == Some(k);
      }
    }
  }

  /** Only a lookup that found no record of the request makes it refusable. */
  lemma FoundKeeps(s: State, tid: nat, reply: Reply)
    requires AnswerInv(s) && tid in s.actions && s.actions[tid].Looking? && s.actions[tid].found.None?
    requires Finds(s, s.actions[tid].key, reply)
    ensures AnswerInv(Goto(s, tid, Looking(s.actions[tid].key, s.actions[tid].ended, Some(reply))))
  {
    var u := Goto(s, tid, Looking(s.actions[tid].key, s.actions[tid].ended, Some(reply)));
    SameClaims(s, u, tid);
    hide Claimed, Owed, OneClaim;
    forall x | x in u.actions ensures ActionAnswerOk(u, u.actions[x]) { assert ActionAnswerOk(s, s.actions[x]); }
  }

  lemma ActionFacts(s: State, tid: nat)
    requires AnswerInv(s) && tid in s.actions
    ensures ActionAnswerOk(s, s.actions[tid]) && HistoryOk(s)
  {}

  /** The records change, and the handed blocks with them. */
  lemma LedgerKeeps(s: State, u: State, tid: nat)
    requires AnswerInv(s) && tid in s.actions && tid in u.actions && u.actions == s.actions[tid := u.actions[tid]]
    requires u.request == s.request && u.queue == s.queue && u.delivered == s.delivered
    requires u.past.errors == s.past.errors && u.past.results == s.past.results
    requires ClaimOf(u.actions[tid]) == ClaimOf(s.actions[tid]) && ResultOf(u.actions[tid]) == ResultOf(s.actions[tid])
    requires u.journal.Keys <= s.journal.Keys && s.past.droppedElsewhere <= u.past.droppedElsewhere
    requires forall k | k in s.journal :: Traced(u, k)
    requires ActionAnswerOk(u, u.actions[tid]) && HistoryOk(u)
    ensures AnswerInv(u)
  {
    SameClaims(s, u, tid);
    forall x | x in u.actions ensures ActionAnswerOk(u, u.actions[x]) { assert ActionAnswerOk(s, s.actions[x]); }
    hide Claimed, Owed, OneClaim, ActionsOk, HistoryOk;
  }

  lemma ReconcileKeeps(s: State, tid: nat, ok: bool, marked: bool, reply: ConfirmReply)
    requires AnswerInv(s) && tid in s.actions && s.actions[tid].Reconciling?
    ensures AnswerInv(StepReconcile(s, tid, s.actions[tid], ok, marked, reply))
  {
    var u := StepReconcile(s, tid, s.actions[tid], ok, marked, reply);
    assert HistoryOk(u);
    hide AnswerInv;
    LedgerKeeps(s, u, tid);
  }

  lemma AckKeeps(s: State, tid: nat, action: Action, owner: Key, elsewhere: bool)
    requires AnswerInv(s) && tid in s.actions && (s.actions[tid].Acking? || s.actions[tid].Recovering?)
    requires if action.Acking? then s.actions[tid].Acking? && OwnAck(action) == OwnAck(s.actions[tid]) && action.key == s.actions[tid].key else action.Recovering?
    requires !elsewhere ==> OwnAck(s.actions[tid]) && owner == s.actions[tid].key
    ensures AnswerInv(Goto(s, tid, action)) && AnswerInv(BackendAck(Goto(s, tid, action), owner, elsewhere))
  {
    hide AnswerInv;
    ActionFacts(s, tid);
    var t := Goto(s, tid, action);
    LedgerKeeps(s, t, tid);
    var u := BackendAck(t, owner, elsewhere);
    LedgerKeeps(t, u, tid);
  }

  /** While a request is being confirmed nobody else may refuse it. */
  lemma ConfirmedIsUnrefusable(s: State, tid: nat)
    requires AnswerInv(s) && S.SlotInv(s) && tid in s.actions && s.actions[tid].Confirming?
    ensures RequestClaim(s) == Some(s.actions[tid].key) && Claimed(s, s.actions[tid].key) && RequestRefusable(s).None?
    ensures forall x :: x in s.actions ==> ClaimOf(s.actions[x]) != Some(s.actions[tid].key) && (x != tid ==> !s.actions[x].Confirming?)
  {
    assert S.ActionOk(s, s.actions[tid]);
    forall x | x in s.actions && x != tid ensures !s.actions[x].Confirming? { assert S.DrivesOf(s.actions[x]).None?; }
  }

  lemma RecordedActionsOk(s: State, u: State, tid: nat, id: Key)
    requires ActionsOk(s) && tid in s.actions && s.actions[tid].Confirming?
    requires u == Goto(s, tid, s.actions[tid].(stage := Recorded(id))).(journal := s.journal[id := false])
    requires forall x :: x in s.actions ==> ClaimOf(s.actions[x]) != Some(id) && (x != tid ==> !s.actions[x].Confirming?)
    ensures ActionsOk(u)
  {
    forall x | x in u.actions ensures ActionAnswerOk(u, u.actions[x]) { assert ActionAnswerOk(s, s.actions[x]); }
  }

  /** The write-ahead record is the confirmed request's own, and that request can no
      longer be refused by anyone. */
  lemma RecordKeeps(s: State, tid: nat, id: Key)
    requires AnswerInv(s) && S.SlotInv(s) && H.HoldInv(s)
    requires tid in s.actions && s.actions[tid].Confirming? && s.actions[tid].stage == Latched(id)
    ensures AnswerInv(Goto(s, tid, s.actions[tid].(stage := Recorded(id))).(journal := s.journal[id := false]))
  {
    hide AnswerInv, S.SlotInv, H.HoldInv;
    H.ActionFacts(s, tid);
    ActionFacts(s, tid);
    ConfirmedIsUnrefusable(s, tid);
    RecordClaimed(s, tid, id);
  }

  lemma RecordClaimed(s: State, tid: nat, id: Key)
    requires AnswerInv(s) && tid in s.actions && s.actions[tid].Confirming?
    requires RequestClaim(s) == Some(id) && RequestRefusable(s).None?
    requires forall x :: x in s.actions ==> ClaimOf(s.actions[x]) != Some(id) && (x != tid ==> !s.actions[x].Confirming?)
    ensures AnswerInv(Goto(s, tid, s.actions[tid].(stage := Recorded(id))).(journal := s.journal[id := false]))
  {
    hide H.HoldActionOk;
    var u := Goto(s, tid, s.actions[tid].(stage := Recorded(id))).(journal := s.journal[id := false]);
    ClaimFacts(s);
    SameClaims(s, u, tid);
    RecordedActionsOk(s, u, tid, id);
    hide Claimed, Owed, OneClaim, ActionsOk, ActionAnswerOk;
  }

  /** The block is handed over: its request has not been refused, and never will be. */
  lemma HandKeeps(s: State, u: State, tid: nat, id: Key)
    requires AnswerInv(s) && S.SlotInv(s) && H.HoldInv(s)
    requires tid in s.actions && s.actions[tid].Confirming? && s.actions[tid].stage == Recorded(id)
    requires tid in u.actions && u.actions == s.actions[tid := u.actions[tid]] && u.actions[tid].Confirming?
    requires u.actions[tid].stage.Replied?
    requires u.actions[tid].stage.reply != Refused
    requires u.request == s.request && u.queue == s.queue && u.delivered == s.delivered
    requires u.past.errors == s.past.errors && u.past.results == s.past.results
    requires u.past.droppedElsewhere == s.past.droppedElsewhere && u.past.handed == s.past.handed + {id}
    requires u.journal == s.journal || (id in s.journal && u.journal == s.journal[id := true])
    ensures AnswerInv(u)
  {
    hide AnswerInv, S.SlotInv, H.HoldInv;
    ActionFacts(s, tid);
    H.ActionFacts(s, tid);
    S.ActionFacts(s, tid);
    assert RequestClaim(s) == Some(id);
    ClaimFacts(s);
    LedgerKeeps(s, u, tid);
  }

  lemma ClaimFacts(s: State)
    requires AnswerInv(s) && RequestClaim(s).Some?
    ensures RequestClaim(s).value !in s.past.errors && RequestClaim(s).value !in s.past.results
  {
    assert Claimed(s, RequestClaim(s).value);
  }

  /** The confirm is latched or refused: no record changes. */
  lemma LatchKeeps(s: State, u: State, tid: nat)
    requires AnswerInv(s) && SameHistory(s, u) && tid in s.actions && Unrecorded(s.actions[tid])
    requires tid in u.actions && u.actions == s.actions[tid := u.actions[tid]] && Unrecorded(u.actions[tid])
    requires u.actions[tid].key == s.actions[tid].key
    requires u.request == s.request && u.queue == s.queue
    ensures AnswerInv(u)
  {
    assert ActionAnswerOk(s, s.actions[tid]) && HistoryOk(u);
    hide AnswerInv;
    LedgerKeeps(s, u, tid);
  }

  lemma ConfirmKeeps(s: State, tid: nat, ok: bool, reply: ConfirmReply)
    requires AnswerInv(s) && S.SlotInv(s) && H.HoldInv(s) && tid in s.actions && s.actions[tid].Confirming?
    ensures AnswerInv(StepConfirm(s, tid, s.actions[tid], ok, reply))
  {
    hide AnswerInv, S.SlotInv, H.HoldInv;
    var t, u := s.actions[tid], StepConfirm(s, tid, s.actions[tid], ok, reply);
    match t.stage
    case Called => LatchKeeps(s, u, tid);
    case Latched(id) => if reply == Refused { LatchKeeps(s, u, tid); } else { RecordKeeps(s, tid, id); }
    case Recorded(id) => if reply != Refused { HandKeeps(s, u, tid, id); }
    case Replied(_) =>
  }

  lemma CancelKeeps(s: State, tid: nat)
    requires AnswerInv(s) && tid in s.actions && s.actions[tid].Cancelling?
    ensures
      var t := s.actions[tid];
      AnswerInv(BackendCancel(Goto(s, tid, Cancelling(t.hold, true, t.answer, t.clear, t.slot)), t.hold))
  {
    var t := s.actions[tid];
    hide AnswerInv;
    ClaimKeeps(s, BackendCancel(Goto(s, tid, Cancelling(t.hold, true, t.answer, t.clear, t.slot)), t.hold), tid);
  }

  lemma BackendKeeps(s: State, tid: nat, ok: bool, marked: bool, reply: ConfirmReply)
    requires AnswerInv(s) && S.SlotInv(s) && H.HoldInv(s) && tid in s.actions
    ensures AnswerInv(StepBackend(s, tid, ok, marked, reply))
  {
    hide AnswerInv, S.SlotInv, H.HoldInv, StepConfirm, StepReconcile, BackendAck, BackendCancel;
    match s.actions[tid]
    case Confirming(_, _, _, _) => ConfirmKeeps(s, tid, ok, reply);
    case Reconciling(_, _, None) => ReconcileKeeps(s, tid, ok, marked, reply);
    case Cancelling(_, false, _, _, _) => CancelKeeps(s, tid);
    case Acking(key, owner, false, slot, drain, dismiss) =>
      AckKeeps(s, tid, Acking(key, owner, true, slot, drain, dismiss), owner, owner != key);
    case Recovering(serial, owner, None) =>
      AckKeeps(s, tid, Recovering(serial, owner, Some(ok && (owner in s.journal ==> s.journal[owner]))), owner, true);
    case _ =>
  }

  // ---- The other events

  /** What an action starts with: a request just delivered, or the displayed one. */
  predicate Starts(s: State, u: State, claim: Option<Key>) {
    claim.Some? ==>
      || (claim == RequestClaim(s) && RequestClaim(u).None?)
      || (claim.value !in s.delivered && claim.value in u.delivered && claim.value !in s.past.errors && claim.value !in s.past.results)
  }

  lemma StartKeeps(s: State, u: State, tid: nat)
    requires AnswerInv(s) && tid !in s.actions && tid in u.actions && u.actions == s.actions[tid := u.actions[tid]]
    requires u.journal == s.journal && u.past == s.past && u.queue == s.queue && s.delivered <= u.delivered
    requires ResultOf(u.actions[tid]).None? && (RequestResult(u).None? || RequestResult(u) == RequestResult(s))
    requires RequestClaim(u).None? || RequestClaim(u) == RequestClaim(s)
    requires RequestRefusable(u).None? || RequestRefusable(u) == RequestRefusable(s)
    requires Starts(s, u, ClaimOf(u.actions[tid])) && ActionAnswerOk(u, u.actions[tid])
    ensures AnswerInv(u)
  {
    NewAction(s, u, tid);
    StartKeepsKeys(s, u, tid);
    StartKeepsOneClaim(s, u, tid);
    hide KeysOk, OneClaim, Starts, Claimed, Owed;
    forall x | x in u.actions ensures ActionAnswerOk(u, u.actions[x]) { assert x != tid ==> ActionAnswerOk(s, s.actions[x]); }
  }

  lemma StartKeepsKeys(s: State, u: State, tid: nat)
    requires KeysOk(s) && tid in u.actions && u.past == s.past && u.journal == s.journal && s.delivered <= u.delivered
    requires forall k :: Claimed(u, k) ==> Claimed(s, k) || ClaimOf(u.actions[tid]) == Some(k) || RequestClaim(u) == Some(k)
    requires forall k :: Owed(u, k) ==> Owed(s, k)
    requires RequestClaim(u).None? || RequestClaim(u) == RequestClaim(s)
    requires RequestRefusable(u).None? || RequestRefusable(u) == RequestRefusable(s)
    requires Starts(s, u, ClaimOf(u.actions[tid]))
    ensures KeysOk(u)
  {
    assert RequestClaim(s).Some? ==> Claimed(s, RequestClaim(s).value);
    hide Claimed, Owed, ClaimOf, RequestClaim, RequestRefusable;
  }

  lemma StartKeepsOneClaim(s: State, u: State, tid: nat)
    requires OneClaim(s) && KeysOk(s) && tid !in s.actions && tid in u.actions && u.actions == s.actions[tid := u.actions[tid]]
    requires RequestClaim(u).None? || RequestClaim(u) == RequestClaim(s)
    requires Starts(s, u, ClaimOf(u.actions[tid]))
    ensures OneClaim(u)
  {
    hide ClaimOf, RequestClaim;
    if ClaimOf(u.actions[tid]).Some? && ClaimOf(u.actions[tid]) != RequestClaim(s) {
      var key := ClaimOf(u.actions[tid]).value;
      assert !Claimed(s, key);
      Unclaimed(s, key);
    }
  }

  lemma ArriveKeeps(s: State, key: Key)
    requires AnswerInv(s) && s.next !in s.actions && key !in s.delivered && key !in s.past.errors && key !in s.past.results
    ensures AnswerInv(Goto(s, s.next, Looking(key, false, None)).(next := s.next + 1, delivered := s.delivered + {key}))
  {
    hide AnswerInv;
    StartKeeps(s, Goto(s, s.next, Looking(key, false, None)).(next := s.next + 1, delivered := s.delivered + {key}), s.next);
  }

  lemma Unclaimed(s: State, key: Key)
    requires !Claimed(s, key)
    ensures RequestClaim(s) != Some(key) && forall x :: x in s.actions ==> ClaimOf(s.actions[x]) != Some(key)
  {}

  /** A new action adds at most its own claim, and nothing owed. */
  lemma NewAction(s: State, u: State, tid: nat)
    requires tid !in s.actions && tid in u.actions && u.actions == s.actions[tid := u.actions[tid]]
    requires ResultOf(u.actions[tid]).None? && u.queue == s.queue
    requires RequestResult(u).None? || RequestResult(u) == RequestResult(s)
    ensures forall k :: Claimed(u, k) ==> Claimed(s, k) || ClaimOf(u.actions[tid]) == Some(k) || RequestClaim(u) == Some(k)
    ensures forall k :: Owed(u, k) ==> Owed(s, k)
  {
    forall k ensures Claimed(u, k) ==> Claimed(s, k) || ClaimOf(u.actions[tid]) == Some(k) || RequestClaim(u) == Some(k) {
      if Claimed(u, k) && RequestClaim(u) != Some(k) && ClaimOf(u.actions[tid]) != Some(k) {
        var x :| x in u.actions && ClaimOf(u.actions[x]) == Some(k);
        assert x in s.actions && ClaimOf(s.actions[x]) == Some(k);
      }
    }
    forall k ensures Owed(u, k) ==> Owed(s, k) {
      if exists x :: x in u.actions && ResultOf(u.actions[x]) == Some(k) {
        var x :| x in u.actions && ResultOf(u.actions[x]) == Some(k);
        assert x in s.actions && ResultOf(s.actions[x]) == Some(k);
      }
    }
  }

  /** The displayed request's claim passes to its cancellation. */
  lemma WithdrawKeeps(s: State, answer: bool)
    requires AnswerInv(s) && s.next !in s.actions && s.request.Some? && Cancellable(s.request.value)
    ensures AnswerInv(Withdraw(s, answer))
  {
    hide AnswerInv;
    RefusableFacts(s);
    ClaimFacts(s);
    StartKeeps(s, Withdraw(s, answer), s.next);
  }

  lemma RefusableFacts(s: State)
    requires AnswerInv(s)
    ensures RequestRefusable(s).Some? ==> RequestRefusable(s).value !in s.journal
  {}

  lemma ApproveKeeps(s: State, expired: bool)
    requires AnswerInv(s) && s.next !in s.actions && s.request.Some? && s.request.value.status == Awaiting
    ensures AnswerInv(StepApprove(s, expired))
  {
    if expired { WithdrawKeeps(s, false); return; }
    hide AnswerInv, Withdraw;
    RefusableFacts(s);
    StartKeeps(s, StepApprove(s, expired), s.next);
  }

  /** A new action that follows a settled request. */
  lemma WatchKeeps(s: State, action: Action)
    requires AnswerInv(s) && s.next !in s.actions && (action.Reconciling? || action.Recovering?)
    ensures AnswerInv(Goto(s, s.next, action).(next := s.next + 1))
  {
    RequestIsOwed(s);
    hide AnswerInv, Owed;
    EditKeeps(s, Goto(s, s.next, action).(next := s.next + 1), s.next, None);
  }

  lemma RetryingKeeps(s: State)
    requires AnswerInv(s) && s.request.Some? && s.request.value.status == DeliveryError
    ensures AnswerInv(SetStatus(s.(next := s.next + 1), s.request.value.serial, Notifying))
  {
    hide AnswerInv;
    RelabelKeeps(s, SetStatus(s.(next := s.next + 1), s.request.value.serial, Notifying));
  }

  lemma RetryDeliveryKeeps(s: State)
    requires AnswerInv(s) && S.SlotInv(s) && s.request.Some? && s.request.value.status == DeliveryError
    ensures AnswerInv(StepRetry(s))
  {
    hide AnswerInv, S.SlotInv, Notify;
    S.Facts(s);
    RetryingKeeps(s);
    NotifyKeeps(SetStatus(s.(next := s.next + 1), s.request.value.serial, Notifying), s.next, s.request.value.serial);
  }

  lemma CloseKeeps(s: State)
    requires AnswerInv(s) && S.SlotInv(s)
    ensures AnswerInv(StepClose(s)) && AnswerInv(Drain(s))
  {
    FinishKeeps(s, None, true);
    RequestIsOwed(s);
    hide AnswerInv, S.SlotInv, Drain, Owed;
    S.Facts(s);
    if s.request.Some? && s.request.value.status in {DeliveryError, Unknown, Recovered} {
      var t := s.(request := None);
      assert s.actions - {s.next} == s.actions;
      EditKeeps(s, t, s.next, None);
      FinishKeeps(t, None, true);
    }
  }

  lemma CancelPreparingKeeps(s: State)
    requires AnswerInv(s)
    ensures AnswerInv(CancelPreparing(s))
  {
    hide AnswerInv;
    FrameKeeps(s, CancelPreparing(s));
  }

  lemma LockKeeps(s: State)
    requires AnswerInv(s) && S.SlotInv(s)
    ensures AnswerInv(StepLocked(s)) && AnswerInv(StepAccount(s))
  {
    CancelPreparingKeeps(s);
    hide AnswerInv, S.SlotInv;
    S.Facts(s);
    if s.request.Some? && Cancellable(s.request.value) { WithdrawKeeps(CancelPreparing(s), true); }
  }

  lemma MarkEndedKeeps(s: State, hit: Key -> bool)
    requires AnswerInv(s)
    ensures AnswerInv(MarkEnded(s, hit))
  {
    var u := MarkEnded(s, hit);
    forall x | x in u.actions ensures Inherits(s, x, u.actions[x]) {}
    forall k ensures Owed(u, k) ==> Owed(s, k) {
      if Owed(u, k) && RequestResult(u) != Some(k) {
        if Queued(u.queue, k) {
          var r :| r in u.queue && r.key == k && !r.local;
          InEndQueue(s.queue, hit, r);
          assert Queued(s.queue, k);
        } else {
          var x :| x in u.actions && ResultOf(u.actions[x]) == Some(k);
          assert x in s.actions && ResultOf(s.actions[x]) == Some(k);
        }
      }
    }
    assert Gentle(s, u);
    hide AnswerInv, Gentle;
    GentleKeeps(s, u);
  }

  lemma EndKeeps(s: State, hit: Key -> bool)
    requires AnswerInv(s) && S.SlotInv(s)
    ensures AnswerInv(End(s, hit))
  {
    var marked := MarkEnded(s, hit);
    MarkEndedKeeps(s, hit);
    hide AnswerInv, S.SlotInv;
    S.Facts(s);
    if s.request.Some? && !s.request.value.local && hit(s.request.value.key) {
      if Cancellable(s.request.value) { WithdrawKeeps(marked, false); }
      else { FrameKeeps(marked, marked.(request := Some(s.request.value.(ended := true)))); }
    }
  }

  /** The store's own events; the actions rest. */
  lemma StoreStepKeeps(s: State, e: Event)
    requires AnswerInv(s) && S.SlotInv(s) && Enabled(s, e)
    requires !e.Answer? && !e.Backend? && !e.Resume? && !e.Restart?
    ensures AnswerInv(Next(s, e))
  {
    hide AnswerInv, S.SlotInv, StepApprove, StepRetry, StepClose, Drain, Withdraw, End, StepLocked, StepAccount, S.RequestOk, S.QueueOk;
    S.Facts(s);
    match e
    case Arrive(key) => ArriveKeeps(s, key);
    case Approve(expired) => ApproveKeeps(s, expired);
    case Reject => WithdrawKeeps(s, true);
    case RetryDelivery => RetryDeliveryKeeps(s);
    case Reconcile => WatchKeeps(s, Reconciling(s.request.value.serial, s.request.value.owner, None));
    case CloseLocally => CloseKeeps(s);
    case Acknowledge => WatchKeeps(s, Recovering(s.request.value.serial, s.request.value.owner, None));
    case AccountChanged => LockKeeps(s);
    case WalletLocked => LockKeeps(s);
    case Surface => CloseKeeps(s);
    case SessionEnded(topic) => EndKeeps(s, (k: Key) => k.topic == topic);
    case Expired(id, passed) => EndKeeps(s, (k: Key) => k.id == id && k in passed);
    case SessionClears => FrameKeeps(s, Next(s, e));
    case FirstPartyHolds => FrameKeeps(s, Next(s, e));
    case FirstPartyEnds => FrameKeeps(s, Next(s, e));
    case _ => assert false;
  }

  lemma RestartKeeps(s: State)
    requires AnswerInv(s)
    ensures AnswerInv(Reborn(s))
  {}

  lemma StepKeeps(s: State, e: Event)
    requires AnswerInv(s) && S.SlotInv(s) && H.HoldInv(s) && Enabled(s, e)
    ensures AnswerInv(Next(s, e))
  {
    hide AnswerInv, S.SlotInv, H.HoldInv, StepResume, StepBackend, StepAnswer, Reborn;
    match e
    case Answer(tid, reply) => AnswerKeeps(s, tid, reply);
    case Backend(tid, ok, marked, reply) => BackendKeeps(s, tid, ok, marked, reply);
    case Resume(tid, ok, stray) => ResumeKeeps(s, tid, ok, ok || stray);
    case Restart => RestartKeeps(s);
    case _ => StoreStepKeeps(s, e);
  }

  lemma {:induction false} RunKeeps(r: Run, i: nat)
    requires ValidRun(r) && i < |r.states|
    ensures S.SlotInv(r.states[i]) && H.HoldInv(r.states[i]) && AnswerInv(r.states[i])
  {
    H.RunKeeps(r, i);
    if i > 0 {
      RunKeeps(r, i - 1);
      assert ValidStep(r.states[i - 1], r.events[i - 1], r.states[i]);
      StepKeeps(r.states[i - 1], r.events[i - 1]);
    }
  }
}
