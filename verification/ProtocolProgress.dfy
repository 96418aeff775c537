/** Nothing legitimate is refused: from every reachable state that is ready for it, an
    undisturbed prepare, confirm, acknowledgement, reconcile or receive goes through,
    and changes exactly what it should. */
module ProtocolProgress {
  import opened TxTypes
  import opened TxHold
  import opened Journal
  import opened Protocol
  import opened ProtocolInvariant
  import opened ProtocolExactlyOnce
  import opened ProtocolRuns

  lemma ReachedKeeps(r: Run, s: State)
    requires Reaches(r, NoClause, s)
    ensures Inv(s) && Once(s)
  {
    AllKept(r);
    RunKeeps(r, |r.states| - 1);
    RunKeepsOnce(r, |r.states| - 1);
  }

  function Resolved(ident: Ident, block: Block): Rec {
    Rec(ident.key.topic, ident.key.id, ident.intent, PublicationState.Published, block)
  }

  /** What a published and resolved transaction leaves behind. */
  function Published(s: State, h: Hold, block: Block): State
    requires s.client.Some? && s.client.value < |s.chainOf|
  {
    s.(journal := if h.wc.None? then s.journal
                  else s.journal[h.wc.value.key := Resolved(h.wc.value, block)],
       puts := if h.wc.None? then s.puts else s.puts + 1,
       accepted := s.accepted + {(s.chainOf[s.client.value], block)},
       log := s.log.(handed := s.log.handed + [Handed(s.boot, ByConfirm(h.id), h.wc, block)]))
  }

  /** A hold of the current session and connection is published by its confirm: the
      node has the block, the record is resolved, and slot and latch are free again. */
  lemma ConfirmGoesThrough(r: Run, s: State, h: Hold, block: Block) returns (r': Run, s': State)
    requires Reaches(r, NoClause, s) && Ready(s, h) && s.pub.Free? && s.mem.slot == Some(h) && ReturnedHold(s, h.id)
    requires |s.journal| < MAX_RECORDS && Finalizes(s, h, block)
    ensures Reaches(r', NoClause, s')
    ensures s' == Published(s, h, block).(mem := Mem(None, s.mem.counter, 0), clock := s'.clock)
  {
    hide Reaches;
    var c;
    r', s', c := ConfirmToLatch(r, NoClause, s, h);
    r', s', c := ConfirmLatched(r', NoClause, s', c, block);
    r', s' := ConfirmToBroadcast(r', NoClause, s', c, true);
    r', s' := ConfirmToMark(r', NoClause, s', c);
    r', s' := ConfirmToEnd(r', NoClause, s', c);
  }

  /** A request that no retained record answers is held for the active account, with
      its identity. */
  lemma PrepareGoesThrough(r: Run, s: State, tid: nat, ident: Ident, chain: nat) returns (r': Run, s': State, h: Hold)
    requires Reaches(r, NoClause, s) && |s.sessions| > 0 && Active(s) == Some(ident.intent.effect.sender)
    requires s.mem.slot.None? && s.pub.Free? && tid !in s.prepares && Fresh(s.journal, ident.key, ident.intent)
    ensures Reaches(r', NoClause, s') && IsHoldOf(h, s, ident, chain) && h.wc == Some(ident)
    ensures s' == s.(mem := Mem(Some(h), h.id, s.mem.latch), clock := s'.clock,
                     log := s.log.(previews := s.log.previews[h.id := ident.intent.effect]))
  {
    hide Reaches, Fresh;
    r', s' := LookUp(r, NoClause, s, tid, ident);
    r', s', h := PrepareRequest(r', NoClause, s', tid, ident, chain);
    assert s'.prepares == s.prepares;
  }

  lemma AckGoesThrough(r: Run, s: State, key: Key) returns (r': Run, s': State)
    requires Reaches(r, NoClause, s) && |s.sessions| > 0 && key in s.journal && s.journal[key].state == PublicationState.Published
    ensures Reaches(r', NoClause, s')
    ensures s' == s.(journal := s.journal - {key}, clock := s.clock + 1,
                     log := s.log.(acked := s.log.acked + {(key, s.journal[key].block)}))
  {
    hide Reaches, StepPublisher, PublisherReady, ChoiceAllowed;
    r' := Go(r, NoClause, s, Ack(key, true));
    s' := Next(s, Ack(key, true));
  }

  /** No older prepare still holds the id of a new hold. */
  lemma NewHoldIsReturned(s: State, id: nat)
    requires Inv(s) && id > s.mem.counter
    ensures forall tid :: tid in s.prepares && s.prepares[tid].stage == Held ==> s.prepares[tid].id != id
  {
  }

  lemma RequestIsPublished(r: Run, s: State, tid: nat, ident: Ident, block: Block) returns (r': Run, s': State)
    requires Reaches(r, NoClause, s) && |s.sessions| > 0 && Active(s) == Some(ident.intent.effect.sender)
    requires s.mem.slot.None? && s.pub.Free? && tid !in s.prepares && Fresh(s.journal, ident.key, ident.intent)
    requires s.client.Some? && |s.journal| < MAX_RECORDS
    requires block.effect == ident.intent.effect && block.chain == s.chainId && block.signer == ident.intent.effect.sender
    ensures Reaches(r', NoClause, s')
    ensures s' == s.(mem := Mem(None, s.mem.counter + 1, 0), clock := s'.clock, puts := s.puts + 1,
                     journal := s.journal[ident.key := Resolved(ident, block)],
                     accepted := s.accepted + {(s.chainId, block)},
                     log := Log(s.log.handed + [Handed(s.boot, ByConfirm(s.mem.counter + 1), Some(ident), block)],
                                s.log.acked, s.log.previews[s.mem.counter + 1 := ident.intent.effect]))
  {
    hide Reaches, Inv, Once, Fresh;
    ReachedKeeps(r, s);
    ConnectedChain(s);
    NewHoldIsReturned(s, s.mem.counter + 1);
    var h;
    r', s', h := PrepareGoesThrough(r, s, tid, ident, s.chainId);
    r', s' := ConfirmGoesThrough(r', s', h, block);
  }

  /** From request to acknowledgement: a fresh request of the active account, on the
      connected chain, ends with its block on the chain, handed over once, no record
      left, and everything else as it was. */
  lemma RequestGoesThrough(r: Run, s: State, tid: nat, ident: Ident, block: Block) returns (r': Run, s': State)
    requires Reaches(r, NoClause, s) && |s.sessions| > 0 && Active(s) == Some(ident.intent.effect.sender)
    requires s.mem.slot.None? && s.pub.Free? && tid !in s.prepares && Fresh(s.journal, ident.key, ident.intent)
    requires s.client.Some? && |s.journal| < MAX_RECORDS
    requires block.effect == ident.intent.effect && block.chain == s.chainId && block.signer == ident.intent.effect.sender
    ensures Reaches(r', NoClause, s')
    ensures s' == s.(mem := Mem(None, s.mem.counter + 1, 0), clock := s'.clock, puts := s.puts + 1,
                     accepted := s.accepted + {(s.chainId, block)},
                     log := Log(s.log.handed + [Handed(s.boot, ByConfirm(s.mem.counter + 1), Some(ident), block)],
                                s.log.acked + {(ident.key, block)}, s.log.previews[s.mem.counter + 1 := ident.intent.effect]))
  {
    hide Reaches, Inv, Once, Fresh, IsHoldOf;
    r', s' := RequestIsPublished(r, s, tid, ident, block);
    r', s' := AckGoesThrough(r', s', ident.key);
    FreshKey(s, ident);
    assert s'.journal == s.journal;
  }

  lemma FreshKey(s: State, ident: Ident)
    requires Fresh(s.journal, ident.key, ident.intent)
    ensures ident.key !in s.journal
  {
  }

  lemma ConnectedChain(s: State)
    requires Inv(s)
    ensures s.client.Some? ==> s.client.value < |s.chainOf| && s.chainOf[s.client.value] == s.chainId
  {
  }

  // ---- Reconcile and receive

  lemma Publishes(r: Run, s: State, x: Choice) returns (r': Run, s': State)
    requires Reaches(r, NoClause, s) && |s.sessions| > 0 && !s.pub.Starting? && PublisherReady(s) && ChoiceAllowed(s, x)
    ensures Reaches(r', NoClause, s') && s' == StepPublisher(s, x).(clock := s.clock + 1)
  {
    hide Reaches, StepPublisher;
    r' := Go(r, NoClause, s, Publish(x));
    s' := Next(s, Publish(x));
  }

  const YES := Choice(true, Template(NO_EFFECT, 0), NO_BLOCK, Ok)
  const ABSENT := YES.(outcome := ErrorRejected)

  lemma ReconcileReads(r: Run, s: State, key: Key) returns (r': Run, s': State)
    requires Reaches(r, NoClause, s) && |s.sessions| > 0 && s.pub.Free?
    requires key in s.journal && s.journal[key].state == Signed
    requires s.client.Some? && s.client.value < |s.chainOf| && s.journal[key].block.chain == s.chainId
    ensures Reaches(r', NoClause, s')
    ensures s' == s.(pub := Reconciling(NeedQuery, key, s.journal[key], s.client.value), clock := s'.clock)
  {
    hide Reaches, StepConfirm, StepReceive, StartConfirm;
    r', s' := Takes(r, s, ReconcileStart(key), Reconciling(NeedRecord, key, NO_REC, 0));
    r', s' := Publishes(r', s', YES);
    r', s' := Publishes(r', s', YES);
  }

  lemma ReconcileMarks(r: Run, s: State, key: Key, rec: Rec, client: nat) returns (r': Run, s': State)
    requires Reaches(r, NoClause, s) && |s.sessions| > 0 && s.pub == Reconciling(NeedMark, key, rec, client) && key in s.journal
    ensures Reaches(r', NoClause, s')
    ensures s' == s.(pub := Free, clock := s.clock + 1,
                     journal := s.journal[key := s.journal[key].(state := PublicationState.Published)])
  {
    hide Reaches, StepConfirm, StepReceive, StartConfirm;
    r', s' := Publishes(r, s, YES);
  }

  /** A reconcile of an unresolved record, connected to its chain, resolves it: a block
      found there is not sent again, and an absent one is sent once, unchanged. */
  lemma ReconcileGoesThrough(r: Run, s: State, key: Key, known: bool) returns (r': Run, s': State)
    requires Reaches(r, NoClause, s) && |s.sessions| > 0 && s.pub.Free?
    requires key in s.journal && s.journal[key].state == Signed && s.client.Some? && s.journal[key].block.chain == s.chainId
    requires known ==> (s.chainId, s.journal[key].block) in s.accepted
    ensures Reaches(r', NoClause, s')
    ensures
      var rec := s.journal[key];
      s' == s.(journal := s.journal[key := rec.(state := PublicationState.Published)], clock := s'.clock,
               accepted := s.accepted + {(s.chainId, rec.block)},
               log := if known then s.log
                      else s.log.(handed := s.log.handed + [Handed(s.boot, ByReconcile, Some(Ident(key, rec.intent)), rec.block)]))
  {
    hide Reaches, Inv, Once, StepConfirm, StepReceive, StartConfirm, Mark;
    ReachedKeeps(r, s);
    ConnectedChain(s);
    var rec, client := s.journal[key], s.client.value;
    r', s' := ReconcileReads(r, s, key);
    if known {
      r', s' := Publishes(r', s', YES);
      assert s.accepted == s.accepted + {(s.chainId, rec.block)};
    } else {
      r', s' := Rebroadcasts(r', s', key, rec, client);
    }
    r', s' := ReconcileMarks(r', s', key, rec, client);
  }

  lemma Rebroadcasts(r: Run, s: State, key: Key, rec: Rec, client: nat) returns (r': Run, s': State)
    requires Reaches(r, NoClause, s) && |s.sessions| > 0 && s.pub == Reconciling(NeedQuery, key, rec, client)
    requires s.client == Some(client) && client < |s.chainOf|
    ensures Reaches(r', NoClause, s')
    ensures s' == s.(pub := Reconciling(NeedMark, key, rec, client), clock := s'.clock,
                     accepted := s.accepted + {(s.chainOf[client], rec.block)},
                     log := s.log.(handed := s.log.handed + [Handed(s.boot, ByReconcile, Some(Ident(key, rec.intent)), rec.block)]))
  {
    hide Reaches, StepConfirm, StepReceive, StartConfirm, Mark;
    r', s' := Publishes(r, s, ABSENT);
    r', s' := Publishes(r', s', YES);
    r', s' := Publishes(r', s', YES);
  }

  /** So does a receive: one block of the active account, on the connected chain. */
  lemma ReceiveGoesThrough(r: Run, s: State, block: Block) returns (r': Run, s': State)
    requires Reaches(r, NoClause, s) && |s.sessions| > 0 && s.pub.Free? && s.client.Some?
    requires Active(s) == Some(block.signer) && block.chain == s.chainId
    ensures Reaches(r', NoClause, s')
    ensures s' == s.(clock := s'.clock, accepted := s.accepted + {(s.chainId, block)},
                     log := s.log.(handed := s.log.handed + [Handed(s.boot, ByReceive, None, block)]))
  {
    hide Reaches, Inv, Once, StepConfirm, StepReconcile, StartConfirm;
    ReachedKeeps(r, s);
    ConnectedChain(s);
    r', s' := ReceiveChecks(r, s, block);
    var x := Choice(true, Template(block.effect, s.chainId), block, Ok);
    r', s' := Publishes(r', s', x);
    r', s' := Publishes(r', s', x);
  }

  lemma ReceiveChecks(r: Run, s: State, block: Block) returns (r': Run, s': State)
    requires Reaches(r, NoClause, s) && |s.sessions| > 0 && s.pub.Free? && s.client.Some?
    ensures Reaches(r', NoClause, s')
    ensures s' == s.(pub := Receiving(NeedKey, s.client.value, s.chainId, 0), clock := s'.clock)
  {
    hide Reaches, StepConfirm, StepReconcile, StartConfirm;
    var x := Choice(true, Template(block.effect, s.chainId), block, Ok);
    r', s' := Takes(r, s, ReceiveStart, Receiving(NeedClient, 0, 0, 0));
    r', s' := Publishes(r', s', x);
    r', s' := Publishes(r', s', x);
  }

  lemma Takes(r: Run, s: State, e: Event, pub: Publisher) returns (r': Run, s': State)
    requires Reaches(r, NoClause, s) && |s.sessions| > 0 && s.pub.Free?
    requires (e.ReceiveStart? && pub == Receiving(NeedClient, 0, 0, 0)) || (e.ReconcileStart? && pub == Reconciling(NeedRecord, e.key, NO_REC, 0))
    ensures Reaches(r', NoClause, s') && s' == s.(pub := pub, clock := s.clock + 1)
  {
    hide Reaches, StepPublisher;
    r' := Go(r, NoClause, s, e);
    s' := Next(s, e);
  }

  // ---- What stops a confirm, and what happens to its hold

  /** Failures that another attempt may outlive: no node, another chain before the
      proof of work, or no consent at the end. */
  predicate Retryable(s: State, stage: ConfirmStage, c: Confirm, x: Choice) {
    || (stage == Keyed && s.client.None?)
    || (stage == Cliented && c.hold.template.chain != s.chainId)
    || (stage == ChainOk2 && !x.ok)
  }

  /** Failures after which the request has to be prepared and reviewed again. */
  predicate Final(s: State, stage: ConfirmStage, c: Confirm, x: Choice)
    requires |s.sessions| > 0
  {
    match stage
    case AddrRead1 => c.addr != Some(c.hold.approved.sender) || Gen(s) != c.hold.gen
    case Live => c.hold.template.effect != c.hold.approved
    case EffectOk => !x.ok || Active(s).None?
    case ChainOk => !x.ok
    case AddrRead2 => c.addr != Some(c.hold.approved.sender) || Gen(s) != c.hold.gen
    case Rechecked => c.block.effect != c.hold.approved
    case Matched => c.block.chain != s.chainId
    case Consented => c.hold.wc.Some? && (!x.ok || (c.hold.wc.value.key !in s.journal && |s.journal| >= MAX_RECORDS))
    case Journaled => x.outcome != Ok
    case _ => false
  }

  /** A retryable failure leaves the hold in its slot, unlatched, and nothing else. */
  lemma RetryableKeepsTheHold(s: State, stage: ConfirmStage, c: Confirm, x: Choice, y: Choice)
    requires |s.sessions| > 0 && s.pub == Confirming(stage, c) && Retryable(s, stage, c, x)
    ensures StepPublisher(s, x) == s.(pub := Confirming(Unlatching, c))
    ensures StepPublisher(StepPublisher(s, x), y) == s.(pub := Free, mem := Mem(s.mem.slot, s.mem.counter, 0))
  {
    hide StepReceive, StepReconcile, StartConfirm;
  }

  /** A final one releases the hold, if it is still in the slot, and hands no block to
      a node that was not handed over already. */
  lemma FinalReleasesTheHold(s: State, stage: ConfirmStage, c: Confirm, x: Choice, y: Choice)
    requires |s.sessions| > 0 && s.pub == Confirming(stage, c) && PublisherReady(s) && Final(s, stage, c, x)
    ensures
      var u := StepPublisher(s, x);
      && u.pub.Confirming? && u.pub.stage == Clearing && u.pub.c.hold == c.hold
      && u.journal == s.journal && (stage != Journaled ==> u.log == s.log)
      && StepPublisher(StepPublisher(u, y), y) == u.(pub := Free, mem := Released(u.mem, c.hold.id))
  {
    FinalClears(s, stage, c, x);
    ClearingEnds(StepPublisher(s, x), StepPublisher(s, x).pub.c, y);
    hide StepPublisher;
  }

  lemma FinalClears(s: State, stage: ConfirmStage, c: Confirm, x: Choice)
    requires |s.sessions| > 0 && s.pub == Confirming(stage, c) && PublisherReady(s) && Final(s, stage, c, x)
    ensures
      var u := StepPublisher(s, x);
      u.pub.Confirming? && u.pub.stage == Clearing && u.pub.c.hold == c.hold && u.journal == s.journal && (stage != Journaled ==> u.log == s.log)
  {
    hide StepReceive, StepReconcile, StartConfirm;
  }

  lemma ClearingEnds(s: State, c: Confirm, y: Choice)
    requires |s.sessions| > 0 && s.pub == Confirming(Clearing, c)
    ensures StepPublisher(StepPublisher(s, y), y) == s.(pub := Free, mem := Released(s.mem, c.hold.id))
  {
    hide StepReceive, StepReconcile, StartConfirm, BeforePow, AfterPow;
  }

  function Following(stage: ConfirmStage): ConfirmStage {
    match stage
    case Snapped => Latched
    case Latched => AddrRead1
    case AddrRead1 => Live
    case Live => EffectOk
    case EffectOk => Keyed
    case Keyed => Cliented
    case Cliented => ChainOk
    case ChainOk => Built
    case Built => AddrRead2
    case AddrRead2 => Rechecked
    case Rechecked => Matched
    case Matched => ChainOk2
    case ChainOk2 => Consented
    case Consented => Journaled
    case Journaled => Accepted
    case Accepted => Clearing
    case Clearing => Unlatching
    case Unlatching => Unlatching
  }

  /** These failures, and the loss of the hold before the latch, are the only ones:
      every other step takes the confirm to its next stage. */
  lemma NothingElseStops(s: State, stage: ConfirmStage, c: Confirm, x: Choice)
    requires |s.sessions| > 0 && s.pub == Confirming(stage, c) && PublisherReady(s) && stage != Unlatching
    requires !Retryable(s, stage, c, x) && !Final(s, stage, c, x) && !(stage == Snapped && s.mem.SlotId() != c.hold.id)
    ensures StepPublisher(s, x).pub.Confirming? && StepPublisher(s, x).pub.stage == Following(stage)
  {
    hide StepReceive, StepReconcile, StartConfirm;
  }

  /** Both session checks read the account of that moment: a confirm whose reviewed
      sender is not the active account then, or whose session has passed, is stopped by
      the check. */
  lemma CheckReadsTheActiveAccount(s: State, stage: ConfirmStage, c: Confirm, x: Choice, y: Choice)
    requires |s.sessions| > 0 && s.pub == Confirming(stage, c) && (stage == Latched || stage == Built)
    ensures
      var u := StepPublisher(StepPublisher(s, x), y).pub;
      u.Confirming? && u.c.hold == c.hold &&
      (if Active(s) == Some(c.hold.approved.sender) && Gen(s) == c.hold.gen then u.stage == if stage == Latched then Live else Rechecked
       else u.stage == Clearing)
  {
    hide StepReceive, StepReconcile, StartConfirm;
  }

  /** A confirm that names another hold than the one in the slot, or comes too late to
      latch it, changes nothing. */
  lemma WrongHoldChangesNothing(s: State, x: Choice)
    requires |s.sessions| > 0
    requires
      || (s.pub.Starting? && (s.pub.want == 0 || s.mem.SlotId() != s.pub.want))
      || (s.pub.Confirming? && s.pub.stage == Snapped && s.mem.SlotId() != s.pub.c.hold.id)
    ensures StepPublisher(s, x) == s.(pub := Free)
  {
    hide StepReceive, StepReconcile;
  }

  /** Without consent a reconcile sends nothing. */
  lemma ConsentGatesTheRebroadcast(s: State, key: Key, rec: Rec, client: nat, x: Choice)
    requires |s.sessions| > 0 && s.pub == Reconciling(NeedConsent, key, rec, client) && !x.ok
    ensures StepPublisher(s, x) == s.(pub := Free)
  {
    hide StepConfirm, StepReceive, StartConfirm;
  }

  /** What the environment may do at any time. */
  lemma EnvironmentIsFree(s: State, id: nat, key: Key, ok: bool)
    requires |s.sessions| > 0
    ensures Enabled(s, CancelCall(id)) && Enabled(s, Disconnect) && Enabled(s, Ack(key, ok)) && Enabled(s, Crash)
    ensures !s.clearDue ==> Enabled(s, Lock) && forall account :: Enabled(s, Unlock(account))
    ensures s.clearDue ==> Enabled(s, ClearCallback)
    ensures s.pub.Free? ==> Enabled(s, ConfirmStart(id)) && Enabled(s, ReceiveStart) && Enabled(s, ReconcileStart(key))
    ensures s.client.None? ==> forall chain :: Enabled(s, Install(chain))
  {
  }

  // ---- Single steps

  /** The proof of work may rewrite the template that is held, but not what was
      approved, nor another hold. */
  lemma BuildTouchesOnlyTheTemplate(s: State, c: Confirm, x: Choice)
    requires |s.sessions| > 0 && s.pub == Confirming(ChainOk, c)
    ensures
      var slot := StepPublisher(s, x).mem.slot;
      if s.mem.slot.Some? && s.mem.slot.value.id == c.hold.id then slot == Some(s.mem.slot.value.(template := x.template))
      else slot == s.mem.slot
  {
    hide StepReceive, StepReconcile, StartConfirm, AfterPow, Commit;
  }

  /** What is displayed for a new hold is what its template moves, from the account the
      prepare read. */
  lemma PreviewIsTheTemplate(s: State, tid: nat, template: Template, approved: Effect)
    requires |s.sessions| > 0 && Enabled(s, PrepareHold(tid, template, approved))
    ensures
      var s' := Next(s, PrepareHold(tid, template, approved));
      && s'.mem.slot.Some? && s'.mem.slot.value.template == template && s'.mem.slot.value.approved == approved
      && s'.log.previews == s.log.previews[s'.mem.slot.value.id := template.effect.(sender := s.prepares[tid].from)]
  {
    hide StepPublisher, PublisherReady, ChoiceAllowed;
  }

  /** A failing mark leaves the record unresolved, for a later reconcile. */
  lemma FailedMarkKeepsTheRecord(s: State, x: Choice)
    requires |s.sessions| > 0 && PublisherReady(s) && !x.ok
    requires (s.pub.Confirming? && s.pub.stage == Accepted) || (s.pub.Reconciling? && s.pub.qstage == NeedMark)
    ensures StepPublisher(s, x).journal == s.journal
  {
    hide StepReceive, StartConfirm, BeforePow, AfterPow;
  }

  /** Without a connection there is no chain; a new client is the latest one, on the
      chain its node reported. */
  lemma ConnectionOutcome(s: State, chain: nat)
    requires |s.sessions| > 0
    ensures Next(s, Disconnect) == s.(client := None, chainId := 0, clock := s.clock + 1)
    ensures
      s.client.None? ==>
        var s' := Next(s, Install(chain));
        s'.client == Some(|s.chainOf|) && s'.chainId == chain && s'.chainOf == s.chainOf + [chain] && s'.mem == s.mem && s'.journal == s.journal
  {
    hide StepPublisher, PublisherReady, ChoiceAllowed;
  }

  /** An abandoned prepare is gone, and has changed nothing else. */
  lemma AbortOutcome(s: State, tid: nat)
    requires |s.sessions| > 0 && tid in s.prepares
    ensures
      var s' := Next(s, PrepareAbort(tid));
      tid !in s'.prepares && s'.mem == s.mem && s'.journal == s.journal && forall t :: t in s.prepares && t != tid ==> t in s'.prepares
  {
    hide StepPublisher, PublisherReady, ChoiceAllowed;
  }

  /** Every session step opens a generation; only a lock and a switch to an account
      still owe the slot its callback. */
  lemma SessionOutcome(s: State, account: Option<Address>)
    requires |s.sessions| > 0 && !s.clearDue
    ensures
      var u, l := Next(s, Unlock(account)), Next(s, Lock);
      && Gen(u) == Gen(s) + 1 && Active(u) == account && !u.clearDue && Gen(l) == Gen(s) + 1 && Active(l) == None && l.clearDue
      && u.mem == s.mem && l.mem == s.mem
    ensures
      Enabled(s, Select(account)) ==>
        var t := Next(s, Select(account));
        Gen(t) == Gen(s) + 1 && Active(t) == account && (t.clearDue <==> account.Some?) && t.mem == s.mem
  {
    hide StepPublisher, PublisherReady, ChoiceAllowed;
  }
}
