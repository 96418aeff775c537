/** What every reachable state keeps, under every interleaving. */
module ProtocolInvariant {
  import opened TxTypes
  import opened TxHold
  import opened Journal
  import opened Protocol

  /** How many checks a confirm has behind it; a confirm on its way out has only
      its latch. */
  function Rank(stage: ConfirmStage): nat {
    match stage
    case Snapped => 0
    case Latched => 1
    case AddrRead1 => 2
    case Live => 3
    case EffectOk => 4
    case Keyed => 5
    case Cliented => 6
    case ChainOk => 7
    case Built => 8
    case AddrRead2 => 9
    case Rechecked => 10
    case Matched => 11
    case ChainOk2 => 12
    case Consented => 13
    case Journaled => 14
    case Accepted => 15
    case Clearing => 1
    case Unlatching => 1
  }

  /** Session history as the holds see it. */
  datatype Past = Past(sessions: seq<Session>, lastSwitch: nat, clock: nat)

  function PastOf(s: State): Past {
    Past(s.sessions, s.lastSwitch, s.clock)
  }

  /** Read at step `start` in generation `gen`: while that generation lasts, no
      session change is later. */
  ghost predicate ReadIn(p: Past, gen: nat, start: nat) {
    && gen < |p.sessions| && start <= p.clock
    && (gen == |p.sessions| - 1 ==> p.lastSwitch <= start)
  }

  /** The hold was made in generation `gen`, whose account is the displayed sender. */
  ghost predicate HoldOk(p: Past, counter: nat, previews: map<nat, Effect>, h: Hold) {
    && 0 < h.id <= counter
    && ReadIn(p, h.gen, h.start) && p.sessions[h.gen] == Unlocked(Some(h.approved.sender))
    && h.id in previews
    && (previews[h.id] == h.approved || previews[h.id] == h.template.effect.(sender := h.approved.sender))
  }

  ghost predicate SlotAgrees(m: Mem, h: Hold) {
    m.slot.Some? && m.slot.value.id == h.id ==>
      m.slot.value.approved == h.approved && m.slot.value.gen == h.gen && m.slot.value.start == h.start
  }

  /** What the checks behind a confirm have established. */
  ghost predicate ChecksOk(p: Past, previews: map<nat, Effect>, rank: nat, c: Confirm) {
    && (rank >= 4 ==> c.hold.id in previews && previews[c.hold.id] == c.hold.approved)
    && (rank >= 5 && |p.sessions| - 1 == c.hold.gen ==> c.signer == c.hold.approved.sender)
    && (rank >= 8 ==> c.block.signer == c.signer)
    && (rank >= 10 ==> c.signer == c.hold.approved.sender && c.quiet <= c.hold.start <= c.recheckAt <= p.clock)
    && (rank >= 11 ==> c.block.effect == c.hold.approved)
  }

  ghost predicate ConnectionOk(client: Option<nat>, chainOf: seq<nat>, rank: nat, c: Confirm) {
    && (rank >= 6 ==> c.client < |chainOf|)
    && (rank >= 12 && client == Some(c.client) ==> c.client < |chainOf| && chainOf[c.client] == c.block.chain)
  }

  ghost predicate RecordedOk(journal: Records<Key>, accepted: set<(nat, Block)>, rank: nat, c: Confirm) {
    && (rank >= 14 && c.hold.wc.Some? ==>
          var ident := c.hold.wc.value;
          ident.key in journal && journal[ident.key] == RecordOf(ident, c.block))
    && (rank == 15 ==> (c.block.chain, c.block) in accepted)
  }

  ghost predicate ConfirmOk(s: State, stage: ConfirmStage, c: Confirm) {
    var rank := Rank(stage);
    && HoldOk(PastOf(s), s.mem.counter, s.log.previews, c.hold)
    && s.mem.latch == (if rank == 0 then 0 else c.hold.id)
    && SlotAgrees(s.mem, c.hold)
    && ChecksOk(PastOf(s), s.log.previews, rank, c)
    && ConnectionOk(s.client, s.chainOf, rank, c)
    && RecordedOk(s.journal, s.accepted, rank, c)
  }

  ghost predicate ReceiveOk(client: Option<nat>, chainOf: seq<nat>, stage: ReceiveStage, rclient: nat, cid: nat) {
    && (stage != NeedClient ==> rclient < |chainOf|)
    && (stage in {NeedKey, NeedSend} && client == Some(rclient) ==> rclient < |chainOf| && chainOf[rclient] == cid)
  }

  /** The record a reconcile read is still the retained one. */
  ghost predicate ReconcileOk(s: State, stage: ReconcileStage, key: Key, rec: Rec, client: nat) {
    && (stage != NeedRecord ==> key in s.journal && s.journal[key] == rec && rec.state == Signed)
    && (stage in {NeedQuery, NeedConsent, NeedPublish} ==>
          client < |s.chainOf| && s.chainOf[client] == rec.block.chain)
    && (stage == NeedMark ==> (rec.block.chain, rec.block) in s.accepted)
  }

  ghost predicate PublisherOk(s: State) {
    match s.pub
    case Free => s.mem.latch == 0
    case Starting(_) => s.mem.latch == 0
    case Confirming(stage, c) => ConfirmOk(s, stage, c)
    case Receiving(stage, client, cid, _) => s.mem.latch == 0 && ReceiveOk(s.client, s.chainOf, stage, client, cid)
    case Reconciling(stage, key, rec, client) => s.mem.latch == 0 && ReconcileOk(s, stage, key, rec, client)
  }

  ghost predicate PrepareOk(past: Past, counter: nat, p: Prepare) {
    && |past.sessions| > 0
    && (p.stage in {LookedKey, LookedTopic, LookedAll, Held} ==> p.wc.Some?)
    && (p.stage in {GenRead, AddrRead, Checked} ==> ReadIn(past, p.gen, p.start))
    && (p.stage == AddrRead && p.gen == |past.sessions| - 1 ==> past.sessions[p.gen] == Unlocked(Some(p.from)))
    && (p.stage == Checked ==> past.sessions[p.gen] == Unlocked(Some(p.from)))
    && (p.stage == Held ==> 0 < p.id <= counter)
  }

  ghost predicate PreparesOk(past: Past, counter: nat, prepares: map<nat, Prepare>) {
    forall tid :: tid in prepares ==> PrepareOk(past, counter, prepares[tid])
  }

  ghost predicate NodeOk(client: Option<nat>, chainId: nat, chainOf: seq<nat>) {
    match client
    case None => chainId == 0
    case Some(c) => c < |chainOf| && chainId == chainOf[c]
  }

  /** Blocks sit on their own chain, and a resolved record's block sits on one. */
  ghost predicate LedgerOk(journal: Records<Key>, accepted: set<(nat, Block)>, acked: set<(Key, Block)>) {
    && (forall p :: p in accepted ==> p.1.chain == p.0)
    && (forall k :: k in journal && journal[k].state == Published ==>
          (journal[k].block.chain, journal[k].block) in accepted)
    && (forall a :: a in acked ==> (a.1.chain, a.1) in accepted)
  }

  /** The invariant of the steps; time is added by Inv. */
  ghost predicate Core(s: State) {
    && |s.sessions| > 0
    && s.mem.Valid()
    && (s.mem.slot.Some? ==> HoldOk(PastOf(s), s.mem.counter, s.log.previews, s.mem.slot.value))
    && PublisherOk(s)
    && PreparesOk(PastOf(s), s.mem.counter, s.prepares)
    && NodeOk(s.client, s.chainId, s.chainOf)
    && LedgerOk(s.journal, s.accepted, s.log.acked)
  }

  ghost predicate Inv(s: State) {
    |s.sessions| > 0 && Core(s) && s.lastSwitch <= s.clock
  }

  lemma TimePasses(s: State)
    requires Core(s)
    ensures Core(s.(clock := s.clock + 1))
  {
  }

  /** A step that moves only the publishing thread. */
  lemma OnlyPublisher(s: State, pub: Publisher)
    requires Core(s) && PublisherOk(s.(pub := pub))
    ensures Core(s.(pub := pub))
  {
  }

  lemma SessionCheckKeeps(s: State, stage: ConfirmStage, c: Confirm, x: Choice)
    requires Core(s) && s.pub == Confirming(stage, c)
    requires stage in {Latched, AddrRead1}
    ensures Core(StepConfirm(s, stage, c, x))
  {
    hide PreparesOk, LedgerOk;
    OnlyPublisher(s, BeforePow(s, stage, c, x).pub);
  }

  lemma EffectCheckKeeps(s: State, stage: ConfirmStage, c: Confirm, x: Choice)
    requires Core(s) && s.pub == Confirming(stage, c)
    requires stage in {Live, EffectOk}
    ensures Core(StepConfirm(s, stage, c, x))
  {
    hide PreparesOk, LedgerOk;
    OnlyPublisher(s, BeforePow(s, stage, c, x).pub);
  }

  lemma ConnectionCheckKeeps(s: State, stage: ConfirmStage, c: Confirm, x: Choice)
    requires Core(s) && s.pub == Confirming(stage, c)
    requires stage in {Keyed, Cliented}
    ensures Core(StepConfirm(s, stage, c, x))
  {
    hide PreparesOk, LedgerOk;
    OnlyPublisher(s, BeforePow(s, stage, c, x).pub);
  }

  lemma RecheckKeeps(s: State, stage: ConfirmStage, c: Confirm, x: Choice)
    requires Core(s) && s.pub == Confirming(stage, c)
    requires stage in {Built, AddrRead2}
    ensures Core(StepConfirm(s, stage, c, x))
  {
    hide PreparesOk, LedgerOk;
    OnlyPublisher(s, AfterPow(s, stage, c, x).pub);
  }

  lemma FinalCheckKeeps(s: State, stage: ConfirmStage, c: Confirm, x: Choice)
    requires Core(s) && s.pub == Confirming(stage, c)
    requires stage in {Rechecked, Matched, ChainOk2}
    ensures Core(StepConfirm(s, stage, c, x))
  {
    hide PreparesOk, LedgerOk;
    OnlyPublisher(s, AfterPow(s, stage, c, x).pub);
  }

  lemma LatchKeeps(s: State, c: Confirm, x: Choice)
    requires Core(s) && s.pub == Confirming(Snapped, c)
    ensures Core(StepConfirm(s, Snapped, c, x))
  {
  }

  lemma BuildKeeps(s: State, c: Confirm, x: Choice)
    requires Core(s) && s.pub == Confirming(ChainOk, c)
    requires x.ok ==> x.block.signer == c.signer
    ensures Core(StepConfirm(s, ChainOk, c, x))
  {
  }

  lemma RecordKeeps(s: State, c: Confirm, ident: Ident)
    requires Core(s) && s.pub == Confirming(Consented, c) && c.hold.wc == Some(ident)
    ensures Core(s.(journal := s.journal[ident.key := RecordOf(ident, c.block)], puts := s.puts + 1,
                    pub := Confirming(Journaled, c)))
  {
    var j := s.journal[ident.key := RecordOf(ident, c.block)];
    assert LedgerOk(j, s.accepted, s.log.acked);
  }

  lemma JournalIs(s: State, c: Confirm, x: Choice)
    ensures var s' := Commit(s, Consented, c, x);
            || s' == s.(pub := Confirming(Clearing, c))
            || (c.hold.wc.None? && s' == s.(pub := Confirming(Journaled, c)))
            || (c.hold.wc.Some? &&
                s' == s.(journal := s.journal[c.hold.wc.value.key := RecordOf(c.hold.wc.value, c.block)],
                         puts := s.puts + 1, pub := Confirming(Journaled, c)))
  {
  }

  lemma JournalKeeps(s: State, c: Confirm, x: Choice)
    requires Core(s) && s.pub == Confirming(Consented, c)
    ensures Core(Commit(s, Consented, c, x))
  {
    JournalIs(s, c, x);
    hide Commit, RecordOf;
    var pub := Commit(s, Consented, c, x).pub;
    if pub.stage == Clearing || c.hold.wc.None? {
      OnlyPublisher(s, pub);
    } else {
      RecordKeeps(s, c, c.hold.wc.value);
    }
  }

  lemma HandKeeps(s: State, c: Confirm, x: Choice)
    requires Core(s) && s.pub == Confirming(Journaled, c)
    requires x.outcome != ErrorRejected ==> s.client == Some(c.client)
    ensures Core(StepConfirm(s, Journaled, c, x))
  {
  }

  lemma MarkKeeps(s: State, c: Confirm, x: Choice)
    requires Core(s) && s.pub == Confirming(Accepted, c)
    ensures Core(StepConfirm(s, Accepted, c, x))
  {
  }

  lemma ReleaseKeeps(s: State, stage: ConfirmStage, c: Confirm, x: Choice)
    requires Core(s) && s.pub == Confirming(stage, c)
    requires stage in {Clearing, Unlatching}
    ensures Core(StepConfirm(s, stage, c, x))
  {
  }
  lemma ReceiveStepKeeps(s: State, stage: ReceiveStage, client: nat, cid: nat, signer: Address, x: Choice)
    requires Core(s) && s.pub == Receiving(stage, client, cid, signer)
    requires PublisherReady(s) && ChoiceAllowed(s, x)
    ensures Core(StepReceive(s, stage, client, cid, signer, x))
  {
    if stage != NeedSend {
      OnlyPublisher(s, StepReceive(s, stage, client, cid, signer, x).pub);
    }
  }

  lemma ReconcileCheckKeeps(s: State, stage: ReconcileStage, key: Key, rec: Rec, client: nat, x: Choice)
    requires Core(s) && s.pub == Reconciling(stage, key, rec, client)
    requires PublisherReady(s) && ChoiceAllowed(s, x)
    requires stage in {NeedRecord, NeedConnection, NeedQuery, NeedConsent}
    ensures Core(StepReconcile(s, stage, key, rec, client, x))
  {
    hide Core, LedgerOk, PreparesOk;
    ReconcileFacts(s, stage, key, rec, client);
    OnlyPublisher(s, StepReconcile(s, stage, key, rec, client, x).pub);
  }

  lemma ReconcileFacts(s: State, stage: ReconcileStage, key: Key, rec: Rec, client: nat)
    requires Core(s) && s.pub == Reconciling(stage, key, rec, client)
    ensures s.mem.latch == 0 && ReconcileOk(s, stage, key, rec, client) && NodeOk(s.client, s.chainId, s.chainOf)
  {
  }

  lemma RebroadcastKeeps(s: State, key: Key, rec: Rec, client: nat, x: Choice)
    requires Core(s) && s.pub == Reconciling(NeedPublish, key, rec, client)
    requires PublisherReady(s) && ChoiceAllowed(s, x)
    ensures Core(StepReconcile(s, NeedPublish, key, rec, client, x))
  {
  }

  lemma ReconcileMarkKeeps(s: State, key: Key, rec: Rec, client: nat, x: Choice)
    requires Core(s) && s.pub == Reconciling(NeedMark, key, rec, client)
    ensures Core(StepReconcile(s, NeedMark, key, rec, client, x))
  {
  }

  lemma PublisherStepKeeps(s: State, x: Choice)
    requires Core(s) && PublisherReady(s) && ChoiceAllowed(s, x)
    ensures Core(StepPublisher(s, x))
  {
    match s.pub
    case Starting(want) => OnlyPublisher(s, StartConfirm(s, want, x).pub);
    case Confirming(stage, c) =>
      match stage {
        case Snapped => LatchKeeps(s, c, x);
        case Latched => SessionCheckKeeps(s, stage, c, x);
        case AddrRead1 => SessionCheckKeeps(s, stage, c, x);
        case Live => EffectCheckKeeps(s, stage, c, x);
        case EffectOk => EffectCheckKeeps(s, stage, c, x);
        case Keyed => ConnectionCheckKeeps(s, stage, c, x);
        case Cliented => ConnectionCheckKeeps(s, stage, c, x);
        case ChainOk => BuildKeeps(s, c, x);
        case Built => RecheckKeeps(s, stage, c, x);
        case AddrRead2 => RecheckKeeps(s, stage, c, x);
        case Rechecked => FinalCheckKeeps(s, stage, c, x);
        case Matched => FinalCheckKeeps(s, stage, c, x);
        case ChainOk2 => FinalCheckKeeps(s, stage, c, x);
        case Consented => JournalKeeps(s, c, x);
        case Journaled => HandKeeps(s, c, x);
        case Accepted => MarkKeeps(s, c, x);
        case Clearing => ReleaseKeeps(s, stage, c, x);
        case Unlatching => ReleaseKeeps(s, stage, c, x);
      }
    case Receiving(stage, client, cid, signer) => ReceiveStepKeeps(s, stage, client, cid, signer, x);
    case Reconciling(stage, key, rec, client) =>
      match stage {
        case NeedPublish => RebroadcastKeeps(s, key, rec, client, x);
        case NeedMark => ReconcileMarkKeeps(s, key, rec, client, x);
        case _ => ReconcileCheckKeeps(s, stage, key, rec, client, x);
      }
  }

  /** A step that moves only one prepare. */
  lemma OnlyPrepare(s: State, tid: nat, p: Prepare)
    requires Core(s) && PrepareOk(PastOf(s), s.mem.counter, p)
    ensures Core(PrepareAt(s, tid, p))
  {
  }

  lemma FewerPrepares(s: State, tid: nat)
    requires Core(s)
    ensures Core(s.(prepares := s.prepares - {tid}))
  {
  }

  lemma PrepareStepKeeps(s: State, e: Event)
    requires Inv(s) && Enabled(s, e)
    requires e.LookupKey? || e.LookupTopic? || e.LookupAll? || e.PrepareStart? || e.PrepareAddr? || e.PrepareCheck?
    ensures Core(Step(s, e))
  {
    OnlyPrepare(s, e.tid, Step(s, e).prepares[e.tid]);
  }

  lemma HoldPendingKeeps(s: State, p: Prepare, template: Template, approved: Effect)
    requires Core(s) && PrepareOk(PastOf(s), s.mem.counter, p) && p.stage == Checked
    requires s.mem.slot.None? && approved.sender == p.from
    ensures
      var (mem, id) := HoldPending(s.mem, template, approved, p.gen, p.start);
      Core(s.(mem := mem, log := s.log.(previews := s.log.previews[id.value := template.effect.(sender := p.from)])))
  {
    var (mem, id) := HoldPending(s.mem, template, approved, p.gen, p.start);
    var s' := s.(mem := mem, log := s.log.(previews := s.log.previews[id.value := template.effect.(sender := p.from)]));
    assert PreparesOk(PastOf(s'), mem.counter, s.prepares);
    assert PublisherOk(s') by {
      if s.pub.Confirming? {
        assert ConfirmOk(s', s.pub.stage, s.pub.c);
      }
    }
  }

  lemma HoldStepKeeps(s: State, e: Event)
    requires Core(s) && Enabled(s, e) && e.PrepareHold?
    ensures Core(Step(s, e))
  {
    var p := s.prepares[e.tid];
    HoldPendingKeeps(s, p, e.template, e.approved);
    var (mem, id) := HoldPending(s.mem, e.template, e.approved, p.gen, p.start);
    var s' := s.(mem := mem, log := s.log.(previews := s.log.previews[id.value := e.template.effect.(sender := p.from)]));
    if p.wc.None? {
      FewerPrepares(s', e.tid);
    } else {
      OnlyPrepare(s', e.tid, p.(stage := Held, id := id.value));
    }
  }

  lemma AttachStepKeeps(s: State, e: Event)
    requires Core(s) && Enabled(s, e) && e.PrepareAttach?
    ensures Core(Step(s, e))
  {
    FewerPrepares(s, e.tid);
  }

  lemma SwitchKeeps(s: State, to: Session, callback: bool)
    requires Inv(s)
    ensures Core(Switch(s, to, callback))
  {
    hide RecordedOk, ConnectionOk, NodeOk, LedgerOk, SlotAgrees, ReceiveOk;
  }

  lemma SessionStepKeeps(s: State, e: Event)
    requires Inv(s) && Enabled(s, e)
    requires e.Unlock? || e.Lock? || e.Select?
    ensures Core(Step(s, e))
  {
    hide Core, Inv, Switch;
    match e
    case Unlock(a) => SwitchKeeps(s, Unlocked(a), false);
    case Lock => SwitchKeeps(s, Locked, true);
    case Select(to) => SwitchKeeps(s, Unlocked(to), to.Some?);
  }

  /** Everything that can empty the slot. */
  lemma ClearStepKeeps(s: State, e: Event)
    requires Core(s) && Enabled(s, e)
    requires e.ClearCallback? || e.CancelCall?
    ensures Core(Step(s, e))
  {
  }

  lemma DisconnectKeeps(s: State)
    requires Core(s)
    ensures Core(s.(client := None, chainId := 0))
  {
    hide HoldOk, ChecksOk, RecordedOk, SlotAgrees, PreparesOk, LedgerOk;
  }

  lemma InstallKeeps(s: State, chain: nat)
    requires Core(s) && s.client.None?
    ensures Core(s.(client := Some(|s.chainOf|), chainId := chain, chainOf := s.chainOf + [chain]))
  {
    hide HoldOk, ChecksOk, RecordedOk, SlotAgrees, PreparesOk, LedgerOk;
  }

  lemma NodeStepKeeps(s: State, e: Event)
    requires Core(s) && Enabled(s, e)
    requires e.Disconnect? || e.Install?
    ensures Core(Step(s, e))
  {
    hide Core;
    if e.Disconnect? { DisconnectKeeps(s); } else { InstallKeeps(s, e.chain); }
  }

  lemma AckStepKeeps(s: State, e: Event)
    requires Core(s) && Enabled(s, e) && e.Ack?
    ensures Core(Step(s, e))
  {
  }

  lemma CrashKeeps(s: State)
    requires Core(s)
    ensures Core(Step(s, Crash))
  {
  }

  lemma StartKeeps(s: State, e: Event)
    requires Core(s) && Enabled(s, e)
    requires e.ConfirmStart? || e.ReceiveStart? || e.ReconcileStart?
    ensures Core(Step(s, e))
  {
    OnlyPublisher(s, Step(s, e).pub);
  }

  lemma AbortStepKeeps(s: State, e: Event)
    requires Core(s) && Enabled(s, e) && e.PrepareAbort?
    ensures Core(Step(s, e))
  {
    FewerPrepares(s, e.tid);
  }

  lemma PublishStepKeeps(s: State, e: Event)
    requires Core(s) && Enabled(s, e) && e.Publish?
    ensures Core(Step(s, e))
  {
    PublisherStepKeeps(s, e.choice);
  }

  lemma CoreStep(s: State, e: Event)
    requires Inv(s) && Enabled(s, e)
    ensures Core(Step(s, e))
  {
    if e.Unlock? || e.Lock? || e.Select? {
      SessionStepKeeps(s, e);
    } else if e.ClearCallback? || e.CancelCall? {
      ClearStepKeeps(s, e);
    } else if e.Disconnect? || e.Install? {
      NodeStepKeeps(s, e);
    } else if e.PrepareHold? {
      HoldStepKeeps(s, e);
    } else if e.PrepareAttach? {
      AttachStepKeeps(s, e);
    } else if e.PrepareAbort? {
      AbortStepKeeps(s, e);
    } else if e.Publish? {
      PublishStepKeeps(s, e);
    } else if e.ConfirmStart? || e.ReceiveStart? || e.ReconcileStart? {
      StartKeeps(s, e);
    } else if e.Ack? {
      AckStepKeeps(s, e);
    } else if e.Crash? {
      CrashKeeps(s);
    } else {
      PrepareStepKeeps(s, e);
    }
  }

  lemma StepTime(s: State, e: Event)
    requires |s.sessions| > 0 && Enabled(s, e) && s.lastSwitch <= s.clock
    ensures Step(s, e).clock == s.clock && Step(s, e).lastSwitch <= s.clock + 1
  {
    if e.Publish? {
      assert PublisherFrame(s, StepPublisher(s, e.choice));
    }
  }

  lemma StepKeeps(s: State, e: Event)
    requires Inv(s) && Enabled(s, e)
    ensures Inv(Next(s, e))
  {
    hide Core, Step, Enabled;
    CoreStep(s, e);
    StepTime(s, e);
    TimePasses(Step(s, e));
  }

  lemma {:induction false} RunKeeps(r: Run, i: nat)
    requires ValidRun(r) && i < |r.states|
    ensures Inv(r.states[i])
  {
    if i > 0 {
      RunKeeps(r, i - 1);
      var s, e, s' := r.states[i - 1], r.events[i - 1], r.states[i];
      assert Enabled(s, e) && s' == Next(s, e) by {
        assert ValidStep(r, i - 1);
      }
      StepKeeps(s, e);
    }
  }
}
