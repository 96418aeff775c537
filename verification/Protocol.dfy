/** Publication as a transition system.  Every transition is one critical
    section or one call into the network, journal or proof of work, so threads
    interleave between any two of them; the event carries whatever the
    environment decides. */
module Protocol {
  import opened TxTypes
  import opened TxHold
  import opened Journal

  /** A prepare call, by how far it got.  First-party prepares skip the lookups
      and the identity. */
  datatype PrepareStage = LookedKey | LookedTopic | LookedAll | GenRead | AddrRead | Checked | Held

  datatype Prepare = Prepare(stage: PrepareStage, wc: Option<Ident>, puts: nat,
                             gen: nat, start: nat, from: Address, id: nat)

  /** A confirm call, by the check it passed last. */
  datatype ConfirmStage =
    | Snapped | Latched | AddrRead1 | Live | EffectOk | Keyed | Cliented | ChainOk
    | Built | AddrRead2 | Rechecked | Matched | ChainOk2 | Consented
    | Journaled | Accepted | Clearing | Unlatching

  /** `recheckAt` is the step of the post-PoW session check and `quiet` the latest
      session change known at that step. */
  datatype Confirm = Confirm(hold: Hold, addr: Option<Address>, signer: Address, client: nat,
                             block: Block, recheckAt: nat, quiet: nat)

  datatype ReceiveStage = NeedClient | NeedChain | NeedKey | NeedSend

  datatype ReconcileStage = NeedRecord | NeedConnection | NeedQuery | NeedConsent | NeedPublish | NeedMark

  /** publishMu together with the thread that holds it. */
  datatype Publisher =
    | Free
    | Starting(want: nat)
    | Confirming(stage: ConfirmStage, c: Confirm)
    | Receiving(rstage: ReceiveStage, rclient: nat, cid: nat, rsigner: Address)
    | Reconciling(qstage: ReconcileStage, key: Key, rec: Rec, qclient: nat)

  /** A node either answers, or fails with the block accepted or not. */
  datatype Outcome = Ok | ErrorAccepted | ErrorRejected

  datatype Choice = Choice(ok: bool, template: Template, block: Block, outcome: Outcome)

  datatype Origin = ByConfirm(hold: nat) | ByReconcile | ByReceive

  /** One attempt to hand a block to a node. */
  datatype Handed = Handed(boot: nat, origin: Origin, wc: Option<Ident>, block: Block)

  /** What the wallet opened with a generation; an account's address may fail to be
      derived. */
  datatype Session = Locked | Unlocked(account: Option<Address>)

  /** What was handed to nodes and acknowledged over all processes, and what this
      process displayed for each hold. */
  datatype Log = Log(handed: seq<Handed>, acked: set<(Key, Block)>, previews: map<nat, Effect>)

  datatype State = State(
    boot: nat, clock: nat,
    // WalletService: every generation so far; the last is current
    sessions: seq<Session>, clearDue: bool, lastSwitch: nat,
    // NodeService: clients are numbered, and every client but the installed one is stopped
    client: Option<nat>, chainId: nat, chainOf: seq<nat>,
    // TxService
    mem: Mem, pub: Publisher, prepares: map<nat, Prepare>,
    // durable
    journal: Records<Key>, accepted: set<(nat, Block)>,
    // history
    puts: nat, log: Log)

  datatype Event =
    | Unlock(account: Option<Address>) | Lock | Select(account: Option<Address>) | ClearCallback
    | Disconnect | Install(chain: nat)
    | LookupKey(tid: nat, ident: Ident) | LookupTopic(tid: nat) | LookupAll(tid: nat)
    | PrepareStart(tid: nat) | PrepareAddr(tid: nat) | PrepareCheck(tid: nat)
    | PrepareHold(tid: nat, template: Template, approved: Effect)
    | PrepareAttach(tid: nat) | PrepareAbort(tid: nat)
    | CancelCall(id: nat)
    | ConfirmStart(want: nat) | ReceiveStart | ReconcileStart(key: Key)
    | Publish(choice: Choice)
    | Ack(key: Key, ok: bool)
    | Crash

  const NO_EFFECT := Effect(0, 0, 0, 0, 0)
  const NO_BLOCK := Block(NO_EFFECT, 0, 0, 0)
  const NO_REC := Rec("", 0, Intent(NO_EFFECT, 0), Signed, NO_BLOCK)

  const INITIAL := State(0, 0, [Locked], false, 0, None, 0, [], EMPTY, Free, map[],
                         map[], {}, 0, Log([], {}, map[]))

  function Gen(s: State): nat
    requires |s.sessions| > 0
  {
    |s.sessions| - 1
  }

  function Active(s: State): Option<Address>
    requires |s.sessions| > 0
  {
    var last := s.sessions[|s.sessions| - 1];
    if last.Unlocked? then last.account else None
  }

  function Switch(s: State, to: Session, callback: bool): State {
    s.(sessions := s.sessions + [to], clearDue := callback, lastSwitch := s.clock + 1)
  }

  function RecordOf(ident: Ident, block: Block): Rec {
    Rec(ident.key.topic, ident.key.id, ident.intent, Signed, block)
  }

  function Hand(s: State, client: nat, origin: Origin, wc: Option<Ident>, block: Block, outcome: Outcome): State
    requires client < |s.chainOf|
  {
    s.(log := s.log.(handed := s.log.handed + [Handed(s.boot, origin, wc, block)]),
       accepted := if outcome == ErrorRejected then s.accepted else s.accepted + {(s.chainOf[client], block)})
  }

  /** The session check made twice by a confirm: it compares the address read one
      step earlier and the generation of now. */
  predicate SessionOk(s: State, c: Confirm)
    requires |s.sessions| > 0
  {
    c.addr.Some? && Gen(s) == c.hold.gen && c.addr.value == c.hold.approved.sender
  }

  function At(s: State, stage: ConfirmStage, c: Confirm): State {
    s.(pub := Confirming(stage, c))
  }

  function StartConfirm(s: State, want: nat, x: Choice): State {
    if !x.ok || s.mem.slot.None? || want == 0 || s.mem.slot.value.id != want then s.(pub := Free)
    else At(s, Snapped, Confirm(s.mem.slot.value, None, 0, 0, NO_BLOCK, 0, 0))
  }

  /** The publishing thread touches nothing outside the hold, the journal and the
      chains. */
  ghost predicate PublisherFrame(s: State, s': State) {
    s' == s.(mem := s'.mem, pub := s'.pub, journal := s'.journal, accepted := s'.accepted,
             puts := s'.puts, log := s.log.(handed := s'.log.handed))
  }

  /** confirmPublishBlock up to the proof of work.  `Clearing` releases the hold on
      the way out, `Unlatching` keeps it. */
  function BeforePow(s: State, stage: ConfirmStage, c: Confirm, x: Choice): (s': State)
    requires |s.sessions| > 0
    ensures s' == s.(mem := s'.mem, pub := s'.pub)
    ensures s'.pub.Free? || (s'.pub.Confirming? && s'.pub.c.hold == c.hold)
  {
    match stage
    case Snapped =>
      var (mem, ok) := Latch(s.mem, c.hold.id);
      if ok then At(s.(mem := mem), Latched, c) else s.(pub := Free)
    case Latched => At(s, AddrRead1, c.(addr := Active(s)))
    case AddrRead1 => At(s, if SessionOk(s, c) then Live else Clearing, c)
    case Live => At(s, if c.hold.template.effect == c.hold.approved then EffectOk else Clearing, c)
    case EffectOk =>
      if x.ok && Active(s).Some? then At(s, Keyed, c.(signer := Active(s).value)) else At(s, Clearing, c)
    case Keyed =>
      if s.client.Some? then At(s, Cliented, c.(client := s.client.value)) else At(s, Unlatching, c)
    case Cliented => At(s, if c.hold.template.chain == s.chainId then ChainOk else Unlatching, c)
    case _ => // ChainOk
      At(s.(mem := Overwrite(s.mem, c.hold.id, x.template)), if x.ok then Built else Clearing, c.(block := x.block))
  }

  /** The checks after the proof of work. */
  function AfterPow(s: State, stage: ConfirmStage, c: Confirm, x: Choice): (s': State)
    requires |s.sessions| > 0
    ensures s' == s.(pub := s'.pub)
    ensures s'.pub.Confirming? && s'.pub.c.hold == c.hold
  {
    match stage
    case Built => At(s, AddrRead2, c.(addr := Active(s)))
    case AddrRead2 =>
      if SessionOk(s, c) then At(s, Rechecked, c.(recheckAt := s.clock, quiet := s.lastSwitch))
      else At(s, Clearing, c)
    case Rechecked => At(s, if c.block.effect == c.hold.approved then Matched else Clearing, c)
    case Matched => At(s, if c.block.chain == s.chainId then ChainOk2 else Clearing, c)
    case _ => At(s, if x.ok then Consented else Unlatching, c) // ChainOk2
  }

  /** Journal, broadcast, mark, clear, unlatch. */
  function Commit(s: State, stage: ConfirmStage, c: Confirm, x: Choice): (s': State)
    requires stage == Journaled ==> c.client < |s.chainOf|
    ensures PublisherFrame(s, s')
    ensures s'.pub.Free? || (s'.pub.Confirming? && s'.pub.c == c)
    ensures stage != Journaled ==> s'.log.handed == s.log.handed
    ensures stage != Consented ==> s'.puts == s.puts
  {
    match stage
    case Consented =>
      if c.hold.wc.None? then At(s, Journaled, c)
      else
        var put := Put(s.journal, c.hold.wc.value.key, RecordOf(c.hold.wc.value, c.block));
        if x.ok && put.Some? then At(s.(journal := put.value, puts := s.puts + 1), Journaled, c)
        else At(s, Clearing, c)
    case Journaled =>
      At(Hand(s, c.client, ByConfirm(c.hold.id), c.hold.wc, c.block, x.outcome),
         if x.outcome == Ok then Accepted else Clearing, c)
    case Accepted =>
      At(if c.hold.wc.Some? then Mark(s, c.hold.wc.value.key, x.ok) else s, Clearing, c)
    case Clearing => At(s.(mem := ClearIf(s.mem, c.hold.id)), Unlatching, c)
    case _ => s.(mem := Unlatch(s.mem), pub := Free) // Unlatching
  }

  predicate Early(stage: ConfirmStage) {
    stage.Snapped? || stage.Latched? || stage.AddrRead1? || stage.Live? || stage.EffectOk? || stage.Keyed? ||
    stage.Cliented? || stage.ChainOk?
  }

  predicate Late(stage: ConfirmStage) {
    stage.Consented? || stage.Journaled? || stage.Accepted? || stage.Clearing? || stage.Unlatching?
  }

  /** One step of confirmPublishBlock. */
  function StepConfirm(s: State, stage: ConfirmStage, c: Confirm, x: Choice): (s': State)
    requires |s.sessions| > 0
    requires stage == Journaled ==> c.client < |s.chainOf|
    ensures PublisherFrame(s, s')
    ensures s'.pub.Free? || (s'.pub.Confirming? && s'.pub.c.hold == c.hold)
    ensures stage != Journaled ==> s'.log.handed == s.log.handed
    ensures stage != Consented ==> s'.puts == s.puts
  {
    if Early(stage) then BeforePow(s, stage, c, x)
    else if Late(stage) then Commit(s, stage, c, x)
    else AfterPow(s, stage, c, x)
  }

  /** A best-effort state change: a failing write leaves the record as it was. */
  function Mark(s: State, key: Key, ok: bool): State {
    var marked := MarkPublished(s.journal, key);
    if ok && marked.Some? then s.(journal := marked.value) else s
  }

  function StepReceive(s: State, stage: ReceiveStage, client: nat, cid: nat, signer: Address, x: Choice): (s': State)
    requires |s.sessions| > 0
    requires stage == NeedSend ==> client < |s.chainOf|
    ensures PublisherFrame(s, s') && s'.mem == s.mem && s'.puts == s.puts
    ensures !s'.pub.Starting? && !s'.pub.Confirming?
    ensures s'.journal == s.journal
  {
    match stage
    case NeedClient =>
      if s.client.None? then s.(pub := Free) else s.(pub := Receiving(NeedChain, s.client.value, 0, 0))
    case NeedChain =>
      if !x.ok || x.template.chain != s.chainId then s.(pub := Free)
      else s.(pub := Receiving(NeedKey, client, x.template.chain, 0))
    case NeedKey =>
      if !x.ok || Active(s).None? then s.(pub := Free)
      else s.(pub := Receiving(NeedSend, client, cid, Active(s).value))
    case NeedSend =>
      if x.ok then Hand(s, client, ByReceive, None, x.block, x.outcome).(pub := Free) else s.(pub := Free)
  }

  function StepReconcile(s: State, stage: ReconcileStage, key: Key, rec: Rec, client: nat, x: Choice): (s': State)
    requires stage in {NeedPublish} ==> client < |s.chainOf|
    ensures PublisherFrame(s, s') && s'.mem == s.mem && s'.puts == s.puts
    ensures !s'.pub.Starting? && !s'.pub.Confirming?
    ensures stage != NeedMark ==> s'.journal == s.journal
  {
    match stage
    case NeedRecord =>
      if !x.ok || key !in s.journal || s.journal[key].state == Published then s.(pub := Free)
      else s.(pub := Reconciling(NeedConnection, key, s.journal[key], 0))
    case NeedConnection =>
      if !x.ok || s.client.None? || rec.block.chain != s.chainId then s.(pub := Free)
      else s.(pub := Reconciling(NeedQuery, key, rec, s.client.value))
    case NeedQuery =>
      if x.outcome == Ok then s.(pub := Reconciling(NeedMark, key, rec, client))
      else if x.outcome == ErrorAccepted then s.(pub := Free)
      else s.(pub := Reconciling(NeedConsent, key, rec, client))
    case NeedConsent =>
      if x.ok then s.(pub := Reconciling(NeedPublish, key, rec, client)) else s.(pub := Free)
    case NeedPublish =>
      var h := Hand(s, client, ByReconcile, Some(Ident(key, rec.intent)), rec.block, x.outcome);
      if x.outcome == Ok then h.(pub := Reconciling(NeedMark, key, rec, client)) else h.(pub := Free)
    case NeedMark => Mark(s, key, x.ok).(pub := Free)
  }

  function StepPublisher(s: State, x: Choice): (s': State)
    requires |s.sessions| > 0 && PublisherReady(s)
    ensures PublisherFrame(s, s')
  {
    match s.pub
    case Free => s
    case Starting(want) => StartConfirm(s, want, x)
    case Confirming(stage, c) => StepConfirm(s, stage, c, x)
    case Receiving(stage, client, cid, signer) => StepReceive(s, stage, client, cid, signer, x)
    case Reconciling(stage, key, rec, client) => StepReconcile(s, stage, key, rec, client, x)
  }

  /** The publishing thread has dialled the client it is about to use. */
  predicate PublisherReady(s: State) {
    match s.pub
    case Free => true
    case Starting(_) => true
    case Confirming(stage, c) => stage == Journaled ==> c.client < |s.chainOf|
    case Receiving(stage, client, _, _) => stage == NeedSend ==> client < |s.chainOf|
    case Reconciling(stage, _, _, client) => stage in {NeedQuery, NeedPublish} ==> client < |s.chainOf|
  }

  /** What the environment may answer: a stopped client never reports acceptance
      or presence, a block is signed by the key it was built with, a receive block
      keeps its template's chain (the code does not check it again), and a block is
      found on a chain only when it was accepted there. */
  predicate ChoiceAllowed(s: State, x: Choice)
    requires PublisherReady(s)
  {
    match s.pub
    case Free => false
    case Starting(_) => true
    case Confirming(stage, c) =>
      && (stage == ChainOk && x.ok ==> x.block.signer == c.signer)
      && (stage == Journaled && x.outcome != ErrorRejected ==> s.client == Some(c.client))
    case Receiving(stage, client, cid, signer) =>
      && (stage == NeedSend && x.ok ==> x.block.chain == cid && x.block.signer == signer)
      && (stage == NeedSend && x.ok && x.outcome != ErrorRejected ==> s.client == Some(client))
    case Reconciling(stage, _, rec, client) =>
      && (stage == NeedQuery && x.outcome == Ok ==> (s.chainOf[client], rec.block) in s.accepted)
      && (stage == NeedPublish && x.outcome != ErrorRejected ==> s.client == Some(client))
  }

  function PrepareAt(s: State, tid: nat, p: Prepare): State {
    s.(prepares := s.prepares[tid := p])
  }

  predicate At?(s: State, tid: nat, stage: PrepareStage) {
    tid in s.prepares && s.prepares[tid].stage == stage
  }

  predicate IsPrepare(e: Event) {
    e.LookupKey? || e.LookupTopic? || e.LookupAll? || e.PrepareStart? || e.PrepareAddr? || e.PrepareCheck? ||
    e.PrepareHold? || e.PrepareAttach? || e.PrepareAbort?
  }

  ghost predicate Enabled(s: State, e: Event)
    requires |s.sessions| > 0
  {
    match e
    case Unlock(_) => !s.clearDue
    case Lock => !s.clearDue
    case Select(to) => !s.clearDue && s.sessions[Gen(s)].Unlocked? && (to.Some? ==> to != Active(s)) // reselecting is no change
    case ClearCallback => s.clearDue
    case Disconnect => true
    case Install(_) => s.client.None?
    case LookupKey(tid, ident) => tid !in s.prepares && ident.key !in s.journal
    case LookupTopic(tid) =>
      At?(s, tid, LookedKey) && s.prepares[tid].wc.Some? &&
      (var ident := s.prepares[tid].wc.value;
       NoSameTopicMatch(s.journal, ident.key.topic, ident.intent, ident.key))
    case LookupAll(tid) =>
      At?(s, tid, LookedTopic) && s.prepares[tid].wc.Some? &&
      (var ident := s.prepares[tid].wc.value;
       NoCrossTopicMatch(s.journal, ident.intent, ident.key, ident.key.topic))
    case PrepareStart(tid) => tid !in s.prepares || s.prepares[tid].stage == LookedAll
    case PrepareAddr(tid) => At?(s, tid, GenRead) && Active(s).Some?
    case PrepareCheck(tid) => At?(s, tid, AddrRead) && s.prepares[tid].gen == Gen(s)
    case PrepareHold(tid, template, approved) =>
      At?(s, tid, Checked) && approved.sender == s.prepares[tid].from && s.mem.slot.None? &&
      (s.prepares[tid].wc.Some? ==>
         template.effect == s.prepares[tid].wc.value.intent.effect &&
         approved == template.effect.(sender := approved.sender))
    case PrepareAttach(tid) => At?(s, tid, Held) && s.prepares[tid].wc.Some?
    case PrepareAbort(tid) => tid in s.prepares
    case CancelCall(_) => true
    case ConfirmStart(_) => s.pub.Free?
    case ReceiveStart => s.pub.Free?
    case ReconcileStart(_) => s.pub.Free?
    case Publish(x) => PublisherReady(s) && ChoiceAllowed(s, x)
    case Ack(_, _) => true
    case Crash => true
  }

  function Step(s: State, e: Event): State
    requires |s.sessions| > 0
    requires Enabled(s, e)
  {
    match e
    case Unlock(a) => Switch(s, Unlocked(a), false)
    case Lock => Switch(s, Locked, true)
    case Select(to) => Switch(s, Unlocked(to), to.Some?) // an underivable address skips the callback
    case ClearCallback => s.(mem := ClearAll(s.mem), clearDue := false)
    case Disconnect => s.(client := None, chainId := 0)
    case Install(chain) =>
      s.(client := Some(|s.chainOf|), chainId := chain, chainOf := s.chainOf + [chain])
    case LookupKey(tid, ident) => PrepareAt(s, tid, Prepare(LookedKey, Some(ident), s.puts, 0, 0, 0, 0))
    case LookupTopic(tid) => PrepareAt(s, tid, s.prepares[tid].(stage := LookedTopic))
    case LookupAll(tid) => PrepareAt(s, tid, s.prepares[tid].(stage := LookedAll))
    case PrepareStart(tid) =>
      if tid in s.prepares then PrepareAt(s, tid, s.prepares[tid].(stage := GenRead, gen := Gen(s), start := s.clock))
      else PrepareAt(s, tid, Prepare(GenRead, None, s.puts, Gen(s), s.clock, 0, 0))
    case PrepareAddr(tid) => PrepareAt(s, tid, s.prepares[tid].(stage := AddrRead, from := Active(s).value))
    case PrepareCheck(tid) => PrepareAt(s, tid, s.prepares[tid].(stage := Checked))
    case PrepareHold(tid, template, approved) =>
      var p := s.prepares[tid];
      var (mem, id) := HoldPending(s.mem, template, approved, p.gen, p.start);
      var s' := s.(mem := mem, log := s.log.(previews := s.log.previews[id.value := template.effect.(sender := p.from)]));
      if p.wc.None? then s'.(prepares := s.prepares - {tid})
      else PrepareAt(s', tid, p.(stage := Held, id := id.value))
    case PrepareAttach(tid) =>
      var p := s.prepares[tid];
      s.(mem := Attach(s.mem, p.id, p.wc.value).0, prepares := s.prepares - {tid})
    case PrepareAbort(tid) => s.(prepares := s.prepares - {tid})
    case CancelCall(id) => s.(mem := Cancel(s.mem, id).0)
    case ConfirmStart(want) => s.(pub := Starting(want))
    case ReceiveStart => s.(pub := Receiving(NeedClient, 0, 0, 0))
    case ReconcileStart(key) => s.(pub := Reconciling(NeedRecord, key, NO_REC, 0))
    case Publish(x) => StepPublisher(s, x)
    case Ack(key, ok) =>
      var gone := DeletePublished(s.journal, key);
      if ok && gone.Some? && key in s.journal
      then s.(journal := gone.value, log := s.log.(acked := s.log.acked + {(key, s.journal[key].block)}))
      else s
    case Crash =>
      s.(boot := s.boot + 1, sessions := [Locked], clearDue := false, lastSwitch := s.clock + 1,
         client := None, chainId := 0, mem := EMPTY, pub := Free, prepares := map[], log := s.log.(previews := map[]))
  }

  function Next(s: State, e: Event): State
    requires |s.sessions| > 0
    requires Enabled(s, e)
  {
    Step(s, e).(clock := s.clock + 1)
  }

  datatype Run = Run(states: seq<State>, events: seq<Event>)

  ghost predicate ValidRun(r: Run) {
    && |r.states| == |r.events| + 1
    && r.states[0] == INITIAL
    && forall i :: 0 <= i < |r.events| ==> ValidStep(r, i)
  }

  ghost predicate ValidStep(r: Run, i: nat)
    requires i < |r.events| && |r.states| == |r.events| + 1
  {
    && |r.states[i].sessions| > 0
    && Enabled(r.states[i], r.events[i])
    && r.states[i + 1] == Next(r.states[i], r.events[i])
  }
}
