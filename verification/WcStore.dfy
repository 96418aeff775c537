/** The WalletConnect store as an event-driven machine, with the part of the backend
    it talks to.  Code between two awaits is one step; an action is a store action
    suspended at an await.  A backend call takes effect in one step and returns to
    the store in a later one. */
module WcStore {
  import opened TxTypes

  datatype Status = Awaiting | Publishing | Notifying | Failed | DeliveryError | Unknown | Recovered

  /** The modal slot.  `serial` is the object's identity; `owner` is the key of the
      record behind the outcome, which differs from `key` for a reissued request. */
  datatype Request = Request(
    serial: nat, key: Key, owner: Key, status: Status, hold: nat, ended: bool, result: bool, local: bool)

  /** The preparation slot. */
  datatype Slot = Slot(token: nat, key: Key, ended: bool, cancelled: bool)

  datatype Replay = Replay(key: Key, owner: Key, published: bool, local: bool)

  /** What a lookup or a prepare answers. */
  datatype Reply =
    | Nothing | Settled(owner: Key) | Unsettled(owner: Key) | Duplicate(owner: Key)
    | Prepared(hold: nat) | Broken

  datatype ConfirmReply = Refused | OutcomeUnknown | Published

  datatype ConfirmStage = Called | Latched(id: Key) | Recorded(id: Key) | Replied(reply: ConfirmReply)

  /** `slot` is the preparation slot an action gives back when it ends, and `drain` says
      whether the replay queue is looked at then; a `marker` is a slot claimed only
      to watch a delivery. */
  datatype Action =
    | Looking(key: Key, ended: bool, found: Option<Reply>)
    | Retrying(key: Key)
    | Refusing(key: Key, recover: Option<Key>, slot: Option<nat>)
    | Preparing(key: Key, token: nat, found: Option<Reply>)
    | Cancelling(hold: nat, done: bool, answer: Option<Key>, clear: Option<nat>, slot: Option<nat>)
    | Answering(key: Key, slot: Option<nat>)
    | Delivering(key: Key, owner: Key, slot: Option<nat>, marker: bool, drain: bool)
    | Acking(key: Key, owner: Key, done: bool, slot: Option<nat>, drain: bool, dismiss: Option<nat>)
    | Confirming(serial: nat, hold: nat, key: Key, stage: ConfirmStage)
    | Informing(serial: nat, key: Key, owner: Key)
    | Reconciling(serial: nat, owner: Key, resolved: Option<bool>)
    | Recovering(serial: nat, owner: Key, cleared: Option<bool>)

  datatype Hold = Hold(id: nat, wc: Option<Key>)

  /** The requests whose block was handed to a node, the records dropped by another
      request's acknowledgement or by local recovery, and the responses that reached a
      dapp. */
  datatype Past = Past(handed: set<Key>, droppedElsewhere: set<Key>, errors: set<Key>, results: set<Key>)

  const NO_PAST := Past({}, {}, {}, {})

  datatype State = State(
    // store
    request: Option<Request>, preparing: Option<Slot>, queue: seq<Replay>, actions: map<nat, Action>, next: nat,
    // relay: the requests delivered in this process, and what each request carries
    delivered: set<Key>, content: Key -> Intent,
    // backend
    hold: Option<Hold>, counter: nat, latch: nat, journal: map<Key, bool>,
    // over all processes
    past: Past)

  function Initial(content: Key -> Intent): State {
    State(None, None, [], map[], 1, {}, content, None, 0, 0, map[], NO_PAST)
  }

  predicate Free(s: State) {
    s.request.None? && s.preparing.None?
  }

  function Drop(s: State, tid: nat): State {
    s.(actions := s.actions - {tid})
  }

  function Goto(s: State, tid: nat, action: Action): State {
    s.(actions := s.actions[tid := action])
  }

  /** The queue without the first entry for a request. */
  function Without(q: seq<Replay>, key: Key): seq<Replay> {
    if q == [] then []
    else if q[0].key == key then q[1..]
    else [q[0]] + Without(q[1..], key)
  }

  /** enqueuePendingReplay: a newer entry for the same request replaces the old. */
  function Enqueue(s: State, r: Replay): State {
    s.(queue := Without(s.queue, r.key) + [r])
  }

  function ShowUnknown(s: State, key: Key, owner: Key, local: bool): State {
    s.(request := Some(Request(s.next, key, owner, Unknown, 0, false, false, local)), next := s.next + 1)
  }

  /** deliverReplayPublished up to its first await: the marker is claimed only when
      both slots are free. */
  function Deliver(s: State, tid: nat, key: Key, owner: Key, slot: Option<nat>, drain: bool): State {
    if Free(s) then
      Goto(s, tid, Delivering(key, owner, Some(s.next), true, drain)).(
        preparing := Some(Slot(s.next, key, false, false)), next := s.next + 1)
    else Goto(s, tid, Delivering(key, owner, slot, false, drain))
  }

  predicate SameHistory(s: State, t: State) {
    t.delivered == s.delivered && t.journal == s.journal && t.past == s.past
  }

  /** drainPendingReplays up to its first await. */
  function Drain(s: State): (t: State)
    ensures SameHistory(s, t) && t.next >= s.next
    ensures t.request == s.request || (s.request.None? && t.request.Some? && t.request.value.status == Unknown)
    ensures t.preparing == s.preparing || (s.preparing.None? && t.preparing.Some? && t.preparing.value.token >= s.next)
  {
    if !Free(s) || s.queue == [] then s
    else
      var r, s' := s.queue[0], s.(queue := s.queue[1..]);
      if r.published then Deliver(s'.(next := s'.next + 1), s'.next, r.key, r.owner, None, true)
      else ShowUnknown(s', r.key, r.owner, r.local)
  }

  predicate Holds(s: State, slot: Option<nat>) {
    slot.Some? && s.preparing.Some? && s.preparing.value.token == slot.value
  }

  /** The `finally` blocks: give back one's own slot, then look at the queue. */
  function Finish(s: State, slot: Option<nat>, drain: bool): (u: State)
    ensures SameHistory(s, u) && u.next >= s.next
    ensures u.request == s.request || (s.request.None? && u.request.Some? && u.request.value.status == Unknown)
    ensures u.preparing == s.preparing || u.preparing.None? || u.preparing.value.token >= s.next
  {
    var t := if Holds(s, slot) then s.(preparing := None) else s;
    if drain then Drain(t) else t
  }

  predicate Shows(s: State, serial: nat) {
    s.request.Some? && s.request.value.serial == serial
  }

  function SetStatus(s: State, serial: nat, status: Status): State {
    if Shows(s, serial) then s.(request := Some(s.request.value.(status := status))) else s
  }

  function Dismiss(s: State, serial: Option<nat>): State {
    if serial.Some? && Shows(s, serial.value) then s.(request := None) else s
  }

  // ---- Backend calls

  function ClearHold(s: State, id: nat): State {
    if s.hold.Some? && s.hold.value.id == id then s.(hold := None) else s
  }

  function BackendCancel(s: State, id: nat): State {
    if s.latch != 0 && id == s.latch then s else ClearHold(s, id)
  }

  predicate Droppable(s: State, owner: Key) {
    owner in s.journal && s.journal[owner]
  }

  /** deletePublished; a record dropped by another request's acknowledgement, or by
      local recovery, is remembered. */
  function BackendAck(s: State, owner: Key, elsewhere: bool): State {
    if Droppable(s, owner)
    then s.(journal := s.journal - {owner},
            past := if elsewhere then s.past.(droppedElsewhere := s.past.droppedElsewhere + {owner}) else s.past)
    else s
  }

  predicate SameIntent(s: State, k: Key, key: Key) {
    k in s.journal && s.content(k) == s.content(key)
  }

  /** The record answering `key`: its own, or one of the same session and intent. */
  predicate Answers(s: State, k: Key, key: Key) {
    k in s.journal && (k == key || (key !in s.journal && k.topic == key.topic && SameIntent(s, k, key)))
  }

  ghost predicate Finds(s: State, key: Key, r: Reply) {
    match r
    case Broken => true
    case Settled(k) => Answers(s, k, key) && s.journal[k]
    case Unsettled(k) => Answers(s, k, key) && !s.journal[k]
    case Duplicate(k) =>
      key !in s.journal && SameIntent(s, k, key) && forall o :: SameIntent(s, o, key) ==> o.topic != key.topic
    case Nothing => key !in s.journal && forall o :: !SameIntent(s, o, key)
    case Prepared(_) => false
  }

  // ---- Continuations

  /** resolveZnnSend after its lookup; `ok`: the policy gates pass, or a failed lookup
      is worth retrying. */
  function AfterLookup(s: State, tid: nat, key: Key, ended: bool, r: Reply, ok: bool): (u: State)
    ensures SameHistory(s, u)
  {
    if ended then Drop(s, tid)
    else match r
         case Broken => if ok then Goto(s, tid, Retrying(key)) else Drop(s, tid)
         case Duplicate(k) => Goto(s, tid, Refusing(key, Some(k), None))
         case Settled(k) => Deliver(s, tid, key, k, None, false)
         case Unsettled(k) =>
           if Free(s) then ShowUnknown(Drop(s, tid), key, k, false)
           else Enqueue(Drop(s, tid), Replay(key, k, false, false))
         case _ =>
           if !Free(s) || !ok then Goto(s, tid, Refusing(key, None, None))
           else Goto(s, tid, Preparing(key, s.next, None)).(
             preparing := Some(Slot(s.next, key, false, false)), next := s.next + 1)
  }

  /** The preparation was cancelled while its session still listens. */
  predicate Overtaken(s: State, slot: Option<nat>) {
    Holds(s, slot) && !s.preparing.value.ended && s.preparing.value.cancelled
  }

  /** resolveZnnSend after its prepare; its own slot tells whether the request was
      overtaken. */
  function AfterPrepare(s: State, tid: nat, key: Key, token: nat, r: Reply): (u: State)
    ensures SameHistory(s, u)
  {
    var mine := Holds(s, Some(token));
    var ended := mine && s.preparing.value.ended;
    var cancelled := mine && s.preparing.value.cancelled;
    match r
    case Duplicate(k) => Goto(s, tid, Refusing(key, Some(k), Some(token)))
    case Settled(k) => Deliver(s, tid, key, k, Some(token), true)
    case Unsettled(k) =>
      if ended || cancelled then Finish(Drop(s, tid), Some(token), true)
      else Finish(ShowUnknown(Drop(s, tid), key, k, false), Some(token), true)
    case Prepared(h) =>
      if !mine || ended || cancelled then Goto(s, tid, Cancelling(h, false, Some(key), None, Some(token)))
      else Finish(Drop(s, tid).(request := Some(Request(s.next, key, key, Awaiting, h, false, false, false)), next := s.next + 1),
                  Some(token), true)
    case _ =>
      if ended then Finish(Drop(s, tid), Some(token), true)
      else if cancelled then Goto(s, tid, Answering(key, Some(token)))
      else Goto(s, tid, Refusing(key, None, Some(token)))
  }

  /** An error response that reached the dapp. */
  function Errored(s: State, key: Key, sent: bool): State {
    if sent then s.(past := s.past.(errors := s.past.errors + {key})) else s
  }

  /** failRequest returned; a cross-session duplicate goes on to recovery.  Within a
      prepare a throwing refusal of a duplicate is caught, and answered once more. */
  function AfterRefusal(s: State, tid: nat, key: Key, recover: Option<Key>, slot: Option<nat>, ok: bool, sent: bool): State {
    var t := Errored(Drop(s, tid), key, sent);
    if ok && recover.Some? then
      Finish(if Free(t) then ShowUnknown(t, recover.value, recover.value, true)
             else Enqueue(t, Replay(recover.value, recover.value, false, true)),
             slot, slot.Some?)
    else if ok || recover.None? || slot.None? || (Holds(s, slot) && s.preparing.value.ended) then Finish(t, slot, slot.Some?)
    else Goto(t, tid, if Overtaken(s, slot) then Answering(key, slot) else Refusing(key, None, slot))
  }

  /** CancelPending returned.  A prepare's own slot decides only now whether its
      request is answered. */
  function AfterCancel(s: State, tid: nat, answer: Option<Key>, clear: Option<nat>, slot: Option<nat>): (u: State)
    ensures SameHistory(s, u)
  {
    if answer.Some? && (slot.None? || Overtaken(s, slot)) then Goto(s, tid, Answering(answer.value, slot))
    else Finish(Dismiss(Drop(s, tid), clear), slot, true)
  }

  function AfterAnswer(s: State, tid: nat, key: Key, slot: Option<nat>, ok: bool, sent: bool): State {
    Finish(Errored(Drop(s, tid), key, sent), slot, ok || slot.Some?)
  }

  /** A result response that reached the dapp. */
  function Resulted(s: State, key: Key, sent: bool): State {
    if sent then s.(past := s.past.(results := s.past.results + {key})) else s
  }

  /** deliverReplayPublished after its response; a failure is shown when no other
      request would be displaced, and queued otherwise. */
  function AfterDelivery(s: State, tid: nat, key: Key, owner: Key, slot: Option<nat>, marker: bool, drain: bool,
                         ok: bool, sent: bool): State {
    var t := Resulted(s, key, sent);
    if ok then Goto(t, tid, Acking(key, owner, false, slot, drain, None))
    else
      var mine := marker && Holds(s, slot);
      Finish(if s.request.None? && (s.preparing.None? || mine)
             then Drop(t, tid).(request := Some(Request(s.next, key, owner, DeliveryError, 0, mine && s.preparing.value.ended, true, false)),
                                next := s.next + 1)
             else Enqueue(Drop(t, tid), Replay(key, owner, true, false)),
             slot, drain)
  }

  /** deliverPublishedResult up to its first await. */
  function Notify(s: State, tid: nat, serial: nat): (u: State)
    ensures SameHistory(s, u)
  {
    if !Shows(s, serial) then Drop(s, tid)
    else if s.request.value.ended then Drop(SetStatus(s, serial, DeliveryError), tid)
    else Goto(s, tid, Informing(serial, s.request.value.key, s.request.value.owner))
  }

  /** The outcome is known: the request leaves its status for `notifying`. */
  function ToNotify(s: State, tid: nat, serial: nat): (u: State)
    ensures SameHistory(s, u)
  {
    if !Shows(s, serial) then Drop(s, tid)
    else Notify(s.(request := Some(s.request.value.(status := Notifying, result := true))), tid, serial)
  }

  function AfterInforming(s: State, tid: nat, serial: nat, key: Key, owner: Key, ok: bool, sent: bool): State {
    var t := Resulted(s, key, sent);
    if ok then Goto(t, tid, Acking(key, owner, false, None, true, Some(serial)))
    else Drop(SetStatus(t, serial, DeliveryError), tid)
  }

  /** approveRequest after its confirm. */
  function AfterConfirm(s: State, tid: nat, serial: nat, hold: nat, r: ConfirmReply): (u: State)
    ensures SameHistory(s, u)
  {
    match r
    case Published => ToNotify(s, tid, serial)
    case OutcomeUnknown => Drop(SetStatus(s, serial, Unknown), tid)
    case Refused =>
      if Shows(s, serial) && s.request.value.ended then Goto(s, tid, Cancelling(hold, false, None, Some(serial), None))
      else Drop(SetStatus(s, serial, Failed), tid)
  }

  function AfterReconcile(s: State, tid: nat, serial: nat, resolved: bool): (u: State)
    ensures SameHistory(s, u)
  {
    if !resolved then Drop(SetStatus(s, serial, Unknown), tid)
    else if Shows(s, serial) && s.request.value.local then Drop(SetStatus(s, serial, Recovered), tid)
    else ToNotify(s, tid, serial)
  }

  function AfterRecovery(s: State, tid: nat, serial: nat, cleared: bool): (u: State)
    ensures SameHistory(s, u)
  {
    if cleared then Drain(Dismiss(Drop(s, tid), Some(serial))) else Drop(s, tid)
  }

  // ---- Backend steps on behalf of an action

  /** A lookup or a prepare runs. */
  function StepAnswer(s: State, tid: nat, t: Action, reply: Reply): State {
    match t
    case Looking(key, ended, _) => Goto(s, tid, Looking(key, ended, Some(reply)))
    case Preparing(key, token, _) =>
      var s' := Goto(s, tid, Preparing(key, token, Some(reply)));
      if reply.Prepared? then s'.(hold := Some(Hold(s.counter + 1, Some(key))), counter := s.counter + 1) else s'
    case _ => s
  }

  /** ConfirmWalletConnectPublish: latch, then (after every re-check) the journal
      write, then the broadcast.  A refusal may or may not have cleared the hold. */
  function StepConfirm(s: State, tid: nat, t: Action, ok: bool, reply: ConfirmReply): State
    requires t.Confirming?
  {
    match t.stage
    case Called =>
      if ok && s.hold.Some? && s.hold.value.id == t.hold && s.hold.value.wc.Some?
      then Goto(s, tid, t.(stage := Latched(s.hold.value.wc.value))).(latch := t.hold)
      else Goto(s, tid, t.(stage := Replied(Refused)))
    case Latched(id) =>
      if reply == Refused then
        var s' := Goto(s, tid, t.(stage := Replied(Refused))).(latch := 0);
        if ok then ClearHold(s', t.hold) else s'
      else Goto(s, tid, t.(stage := Recorded(id))).(journal := s.journal[id := false])
    case Recorded(id) =>
      if reply == Refused then s
      else ClearHold(Goto(s, tid, t.(stage := Replied(reply))).(latch := 0), t.hold).(
          journal := if ok && reply == Published && id in s.journal then s.journal[id := true] else s.journal,
          past := s.past.(handed := s.past.handed + {id}))
    case Replied(_) => s
  }

  /** ReconcileWalletConnectPublication: a settled record answers; otherwise the exact
      block is looked up or sent again. */
  function StepReconcile(s: State, tid: nat, t: Action, ok: bool, marked: bool, reply: ConfirmReply): State
    requires t.Reconciling?
  {
    var settled := Droppable(s, t.owner);
    var s' := Goto(s, tid, t.(resolved := Some(t.owner in s.journal && (if settled then ok else reply == Published))));
    if t.owner !in s.journal || settled || reply == Refused then s'
    else s'.(past := s.past.(handed := s.past.handed + {t.owner}),
             journal := if reply == Published && marked then s.journal[t.owner := true] else s.journal)
  }

  function StepBackend(s: State, tid: nat, ok: bool, marked: bool, reply: ConfirmReply): State
    requires tid in s.actions
  {
    match s.actions[tid]
    case Confirming(_, _, _, _) => StepConfirm(s, tid, s.actions[tid], ok, reply)
    case Reconciling(_, _, None) => StepReconcile(s, tid, s.actions[tid], ok, marked, reply)
    case Cancelling(hold, false, answer, clear, slot) =>
      BackendCancel(Goto(s, tid, Cancelling(hold, true, answer, clear, slot)), hold)
    case Acking(key, owner, false, slot, drain, dismiss) =>
      var s' := Goto(s, tid, Acking(key, owner, true, slot, drain, dismiss));
      if ok then BackendAck(s', owner, owner != key) else s'
    case Recovering(serial, owner, None) =>
      var cleared := ok && (owner in s.journal ==> s.journal[owner]);
      var s' := Goto(s, tid, Recovering(serial, owner, Some(cleared)));
      if cleared then BackendAck(s', owner, true) else s'
    case _ => s
  }

  // ---- Events

  datatype Event =
    | Arrive(key: Key)                                      // session_request
    | Answer(tid: nat, reply: Reply)                        // the backend runs a lookup or prepare
    | Backend(tid: nat, ok: bool, marked: bool, outcome: ConfirmReply)
    | Resume(tid: nat, ok: bool, stray: bool)               // an awaited call returns
    | Approve(expired: bool) | Reject | RetryDelivery | Reconcile | CloseLocally | Acknowledge
    | AccountChanged | WalletLocked | Surface
    | SessionEnded(topic: string) | Expired(id: nat, passed: set<Key>)
    | SessionClears                                         // the backend session callback
    | FirstPartyHolds | FirstPartyEnds
    | Restart

  predicate Cancellable(r: Request) {
    r.status == Awaiting || r.status == Failed
  }

  /** The displayed request goes, its hold is cancelled, then it may be answered. */
  function Withdraw(s: State, answer: bool): State
    requires s.request.Some?
  {
    var r := s.request.value;
    s.(request := None, next := s.next + 1,
       actions := s.actions[s.next := Cancelling(r.hold, false, if answer then Some(r.key) else None, None, None)])
  }

  function CancelPreparing(s: State): State {
    if s.preparing.Some? then s.(preparing := Some(s.preparing.value.(cancelled := true))) else s
  }

  function EndAction(t: Action, hit: Key -> bool): Action {
    match t
    case Looking(key, ended, found) => Looking(key, ended || hit(key), found)
    case _ => t
  }

  function EndActions(actions: map<nat, Action>, hit: Key -> bool): map<nat, Action> {
    map tid | tid in actions && !(actions[tid].Retrying? && hit(actions[tid].key)) :: EndAction(actions[tid], hit)
  }

  function EndQueue(q: seq<Replay>, hit: Key -> bool): seq<Replay> {
    if q == [] then []
    else if hit(q[0].key) && !q[0].local then EndQueue(q[1..], hit)
    else [q[0]] + EndQueue(q[1..], hit)
  }

  /** What session_delete and request expiry mark before they look at the modal. */
  function MarkEnded(s: State, hit: Key -> bool): State {
    s.(actions := EndActions(s.actions, hit), queue := EndQueue(s.queue, hit),
       preparing := if s.preparing.Some? && hit(s.preparing.value.key)
                    then Some(s.preparing.value.(ended := true)) else s.preparing)
  }

  /** session_delete and request expiry differ only in whom they hit. */
  function End(s: State, hit: Key -> bool): State {
    var marked := MarkEnded(s, hit);
    if s.request.None? || s.request.value.local || !hit(s.request.value.key) then marked
    else if Cancellable(s.request.value) then Withdraw(marked, false)
    else marked.(request := Some(s.request.value.(ended := true)))
  }

  ghost predicate AnswerEnabled(s: State, t: Action, reply: Reply) {
    match t
    case Looking(key, _, None) => Finds(s, key, reply)
    case Preparing(key, _, None) =>
      if reply.Prepared? then s.hold.None? && reply.hold == s.counter + 1 && Finds(s, key, Nothing)
      else Finds(s, key, reply) && reply != Nothing
    case _ => false
  }

  predicate Returned(t: Action) {
    match t
    case Looking(_, _, found) => found.Some?
    case Preparing(_, _, found) => found.Some?
    case Confirming(_, _, _, stage) => stage.Replied?
    case Reconciling(_, _, resolved) => resolved.Some?
    case Recovering(_, _, cleared) => cleared.Some?
    case Cancelling(_, done, _, _, _) => done
    case Acking(_, _, done, _, _, _) => done
    case _ => true
  }

  /** Assumed of the relay: a request is delivered at most once per process, and only
      while no response to it has reached its dapp. */
  ghost predicate Enabled(s: State, e: Event) {
    match e
    case Arrive(key) => key !in s.delivered && key !in s.past.errors && key !in s.past.results
    case Answer(tid, reply) => tid in s.actions && AnswerEnabled(s, s.actions[tid], reply)
    case Backend(tid, _, _, _) => tid in s.actions
    case Resume(tid, _, _) => tid in s.actions && Returned(s.actions[tid])
    case Approve(_) => s.request.Some? && s.request.value.status == Awaiting
    case Reject => s.request.Some? && Cancellable(s.request.value)
    case RetryDelivery =>
      s.request.Some? && s.request.value.status == DeliveryError && s.request.value.result && !s.request.value.ended
    case Reconcile => s.request.Some? && s.request.value.status == Unknown
    case Acknowledge => s.request.Some? && s.request.value.status == Recovered
    case FirstPartyHolds => s.hold.None?
    case FirstPartyEnds => s.hold.Some? && s.hold.value.wc.None?
    case _ => true
  }

  function StepResume(s: State, tid: nat, ok: bool, sent: bool): State
    requires tid in s.actions && Returned(s.actions[tid])
  {
    match s.actions[tid]
    case Looking(key, ended, found) => AfterLookup(s, tid, key, ended, found.value, ok)
    case Retrying(key) => if ok then Goto(s, tid, Looking(key, false, None)) else Drop(s, tid)
    case Refusing(key, recover, slot) => AfterRefusal(s, tid, key, recover, slot, ok, sent)
    case Preparing(key, token, found) => AfterPrepare(s, tid, key, token, found.value)
    case Cancelling(_, _, answer, clear, slot) => AfterCancel(s, tid, answer, clear, slot)
    case Answering(key, slot) => AfterAnswer(s, tid, key, slot, ok, sent)
    case Delivering(key, owner, slot, marker, drain) => AfterDelivery(s, tid, key, owner, slot, marker, drain, ok, sent)
    case Acking(_, _, _, slot, drain, dismiss) => Finish(Dismiss(Drop(s, tid), dismiss), slot, drain)
    case Confirming(serial, hold, _, stage) => AfterConfirm(s, tid, serial, hold, stage.reply)
    case Informing(serial, key, owner) => AfterInforming(s, tid, serial, key, owner, ok, sent)
    case Reconciling(serial, _, resolved) => AfterReconcile(s, tid, serial, resolved.value)
    case Recovering(serial, _, cleared) => AfterRecovery(s, tid, serial, cleared.value)
  }

  function StepApprove(s: State, expired: bool): State
    requires s.request.Some?
  {
    var r := s.request.value;
    if expired then Withdraw(s, false)
    else Goto(s, s.next, Confirming(r.serial, r.hold, r.key, Called)).(
           request := Some(r.(status := Publishing)), next := s.next + 1)
  }

  function StepRetry(s: State): State
    requires s.request.Some?
  {
    var serial := s.request.value.serial;
    Notify(SetStatus(s.(next := s.next + 1), serial, Notifying), s.next, serial)
  }

  function StepClose(s: State): State {
    Drain(if s.request.Some? && s.request.value.status in {DeliveryError, Unknown, Recovered} then s.(request := None) else s)
  }

  function StepLocked(s: State): State {
    var s' := CancelPreparing(s);
    if s.request.Some? && !s.request.value.local && Cancellable(s.request.value) then Withdraw(s', true) else s'
  }

  function StepAccount(s: State): State {
    var s' := CancelPreparing(s);
    if s.request.Some? && Cancellable(s.request.value) then Withdraw(s', true) else s'
  }

  function Reborn(s: State): State {
    Initial(s.content).(journal := s.journal, past := s.past)
  }

  function Next(s: State, e: Event): State
    requires Enabled(s, e)
  {
    match e
    case Arrive(key) => Goto(s, s.next, Looking(key, false, None)).(next := s.next + 1, delivered := s.delivered + {key})
    case Answer(tid, reply) => StepAnswer(s, tid, s.actions[tid], reply)
    case Backend(tid, ok, marked, reply) => StepBackend(s, tid, ok, marked, reply)
    case Resume(tid, ok, stray) => StepResume(s, tid, ok, ok || stray)
    case Approve(expired) => StepApprove(s, expired)
    case Reject => Withdraw(s, true)
    case RetryDelivery => StepRetry(s)
    case Reconcile => Goto(s, s.next, Reconciling(s.request.value.serial, s.request.value.owner, None)).(next := s.next + 1)
    case CloseLocally => StepClose(s)
    case Acknowledge => Goto(s, s.next, Recovering(s.request.value.serial, s.request.value.owner, None)).(next := s.next + 1)
    case AccountChanged => StepAccount(s)
    case WalletLocked => StepLocked(s)
    case Surface => Drain(s)
    case SessionEnded(topic) => End(s, (k: Key) => k.topic == topic)
    case Expired(id, passed) => End(s, (k: Key) => k.id == id && k in passed)
    case SessionClears => s.(hold := None)
    case FirstPartyHolds => s.(hold := Some(Hold(s.counter + 1, None)), counter := s.counter + 1)
    case FirstPartyEnds => s.(hold := None)
    case Restart => Reborn(s)
  }

  datatype Run = Run(states: seq<State>, events: seq<Event>)

  ghost predicate ValidStep(s: State, e: Event, s': State) {
    Enabled(s, e) && s' == Next(s, e)
  }

  ghost predicate ValidRun(r: Run) {
    && |r.states| == |r.events| + 1
    && r.states[0] == Initial(r.states[0].content)
    && forall i :: 0 <= i < |r.events| ==> ValidStep(r.states[i], r.events[i], r.states[i + 1])
  }
}
