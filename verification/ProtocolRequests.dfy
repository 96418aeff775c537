/** A dapp gets what it asked for: at full interleaving, every block handed over for a
    request moves what the request's intent says, signed by the account it names. */
module ProtocolRequests {
  import opened TxTypes
  import opened TxHold
  import opened Journal
  import opened Protocol
  import opened ProtocolInvariant

  predicate Meets(b: Block, intent: Intent) {
    b.effect == intent.effect && b.signer == intent.effect.sender
  }

  /** One of the two effects is the one asked for; the check before the proof of work
      compares them. */
  predicate Either(e: Effect, approved: Effect, intent: Intent) {
    e == intent.effect || approved == intent.effect
  }

  /** A prepare that made the hold and is about to attach its request. */
  predicate Waits(p: Prepare, id: nat) {
    p.stage == Held && p.id == id && p.wc.Some?
  }

  /** So it is for the request of a hold, attached or about to be. */
  ghost predicate HoldAsks(prepares: map<nat, Prepare>, h: Hold, e: Effect) {
    && (h.wc.Some? ==> Either(e, h.approved, h.wc.value.intent))
    && forall tid :: tid in prepares && Waits(prepares[tid], h.id) ==> Either(e, h.approved, prepares[tid].wc.value.intent)
  }

  /** From the first effect check on, the approved effect is the one asked for, also
      for a request attached after the confirm took its copy of the hold. */
  ghost predicate ConfirmAsks(slot: Option<Hold>, prepares: map<nat, Prepare>, stage: ConfirmStage, c: Confirm) {
    && (c.hold.wc.Some? ==> Either(c.hold.template.effect, c.hold.approved, c.hold.wc.value.intent))
    && (c.hold.wc.Some? && Rank(stage) >= 4 ==> c.hold.approved == c.hold.wc.value.intent.effect)
    && (slot.Some? && slot.value.id == c.hold.id ==>
          && (Early(stage) ==> slot.value.template == c.hold.template)
          && (Rank(stage) >= 4 ==> HoldAsks(prepares, slot.value, slot.value.approved)))
  }

  ghost predicate RecordsMeet(j: Records<Key>) {
    forall k :: k in j ==> Meets(j[k].block, j[k].intent)
  }

  ghost predicate HandedMeet(handed: seq<Handed>) {
    forall i :: 0 <= i < |handed| && handed[i].wc.Some? ==> Meets(handed[i].block, handed[i].wc.value.intent)
  }

  ghost predicate SlotAsks(s: State) {
    s.mem.slot.Some? ==> HoldAsks(s.prepares, s.mem.slot.value, s.mem.slot.value.template.effect)
  }

  ghost predicate PubAsks(s: State) {
    s.pub.Confirming? ==> ConfirmAsks(s.mem.slot, s.prepares, s.pub.stage, s.pub.c)
  }

  ghost predicate Asked(s: State) {
    SlotAsks(s) && PubAsks(s) && RecordsMeet(s.journal) && HandedMeet(s.log.handed)
  }

  // ---- Steps outside the publishing thread

  /** Nothing that matters here is added. */
  ghost predicate Less(s: State, u: State) {
    && (u.mem.slot == s.mem.slot || u.mem.slot.None?)
    && (forall tid :: tid in u.prepares && u.prepares[tid].stage == Held ==> tid in s.prepares && u.prepares[tid] == s.prepares[tid])
    && (u.pub == s.pub || !u.pub.Confirming?)
    && (forall k :: k in u.journal ==> k in s.journal && u.journal[k] == s.journal[k])
    && u.log.handed == s.log.handed
  }

  lemma LessAsks(s: State, u: State)
    requires Asked(s) && Less(s, u)
    ensures Asked(u)
  {
  }

  lemma OutsideIsLess(s: State, e: Event)
    requires |s.sessions| > 0 && Enabled(s, e) && !e.Publish? && !e.PrepareHold? && !e.PrepareAttach?
    ensures Less(s, Next(s, e))
  {
    hide StepPublisher, PublisherReady, ChoiceAllowed;
  }

  lemma CounterBoundsHolds(s: State)
    requires Inv(s)
    ensures s.pub.Confirming? ==> s.pub.c.hold.id <= s.mem.counter
    ensures forall tid :: tid in s.prepares && s.prepares[tid].stage == Held ==> s.prepares[tid].id <= s.mem.counter
  {
    hide ChecksOk, ConnectionOk, RecordedOk, LedgerOk, NodeOk, ReadIn;
  }

  lemma HoldKeeps(s: State, e: Event)
    requires Inv(s) && Asked(s) && Enabled(s, e) && e.PrepareHold?
    ensures Asked(Next(s, e))
  {
    hide Core, StepPublisher, PublisherReady, ChoiceAllowed;
    CounterBoundsHolds(s);
  }

  lemma AttachKeeps(s: State, e: Event)
    requires Asked(s) && |s.sessions| > 0 && Enabled(s, e) && e.PrepareAttach?
    ensures Asked(Next(s, e))
  {
    hide StepPublisher, PublisherReady, ChoiceAllowed;
  }

  // ---- The publishing thread

  lemma ConfirmKeeps(s: State, stage: ConfirmStage, c: Confirm, x: Choice)
    requires Inv(s) && Asked(s) && s.pub == Confirming(stage, c) && PublisherReady(s)
    ensures Asked(StepConfirm(s, stage, c, x))
  {
    if Early(stage) {
      EarlyKeeps(s, stage, c, x);
    } else if Late(stage) {
      LateKeeps(s, stage, c, x);
    } else {
      LaterKeeps(s, stage, c, x);
    }
  }

  lemma EarlyKeeps(s: State, stage: ConfirmStage, c: Confirm, x: Choice)
    requires Inv(s) && Asked(s) && s.pub == Confirming(stage, c) && Early(stage)
    ensures Asked(BeforePow(s, stage, c, x))
  {
    hide LedgerOk, NodeOk, PreparesOk, RecordedOk, ConnectionOk, ChecksOk, HoldOk;
  }

  lemma LaterKeeps(s: State, stage: ConfirmStage, c: Confirm, x: Choice)
    requires Inv(s) && Asked(s) && s.pub == Confirming(stage, c) && !Early(stage) && !Late(stage)
    ensures Asked(AfterPow(s, stage, c, x))
  {
    hide Core;
  }

  /** What a confirm that is journaling, or has journaled, knows of its block. */
  lemma BlockIsReviewed(s: State, stage: ConfirmStage, c: Confirm)
    requires Inv(s) && s.pub == Confirming(stage, c)
    ensures stage == Consented ==> c.block.effect == c.hold.approved && c.block.signer == c.block.effect.sender
    ensures stage in {Journaled, Accepted} && c.hold.wc.Some? ==>
              var ident := c.hold.wc.value;
              ident.key in s.journal && s.journal[ident.key] == RecordOf(ident, c.block)
  {
    hide LedgerOk, NodeOk, PreparesOk, ConnectionOk, HoldOk, SlotAgrees;
  }

  lemma LateKeeps(s: State, stage: ConfirmStage, c: Confirm, x: Choice)
    requires Inv(s) && Asked(s) && s.pub == Confirming(stage, c) && Late(stage) && PublisherReady(s)
    ensures Asked(Commit(s, stage, c, x))
  {
    BlockIsReviewed(s, stage, c);
    CommitKeepsHolds(s, stage, c, x);
    CommitKeepsRecords(s, stage, c, x);
    CommitKeepsHanded(s, stage, c, x);
    hide Core, SlotAsks, PubAsks, RecordsMeet, HandedMeet, Commit;
  }

  lemma CommitKeepsHolds(s: State, stage: ConfirmStage, c: Confirm, x: Choice)
    requires SlotAsks(s) && PubAsks(s) && PublisherReady(s) && s.pub == Confirming(stage, c) && Late(stage)
    ensures SlotAsks(Commit(s, stage, c, x)) && PubAsks(Commit(s, stage, c, x))
  {
    hide HoldAsks, Put, MarkPublished;
  }

  lemma CommitKeepsRecords(s: State, stage: ConfirmStage, c: Confirm, x: Choice)
    requires RecordsMeet(s.journal) && PublisherReady(s) && s.pub == Confirming(stage, c) && Late(stage)
    requires stage == Consented && c.hold.wc.Some? ==> Meets(c.block, c.hold.wc.value.intent)
    ensures RecordsMeet(Commit(s, stage, c, x).journal)
  {
  }

  lemma CommitKeepsHanded(s: State, stage: ConfirmStage, c: Confirm, x: Choice)
    requires HandedMeet(s.log.handed) && PublisherReady(s) && s.pub == Confirming(stage, c) && Late(stage)
    requires stage == Journaled && c.hold.wc.Some? ==> Meets(c.block, c.hold.wc.value.intent)
    ensures HandedMeet(Commit(s, stage, c, x).log.handed)
  {
    hide Put, MarkPublished, Meets;
  }

  lemma OthersKeep(s: State, x: Choice)
    requires Inv(s) && Asked(s) && PublisherReady(s) && !s.pub.Confirming?
    ensures Asked(StepPublisher(s, x))
  {
    if s.pub.Starting? {
      StartKeeps(s, x);
    } else if s.pub.Reconciling? {
      ReconcileKeeps(s, x);
    } else {
      hide Core, StepConfirm, StepReconcile, StartConfirm, HoldAsks;
    }
  }

  lemma StartKeeps(s: State, x: Choice)
    requires |s.sessions| > 0 && Asked(s) && s.pub.Starting?
    ensures Asked(StepPublisher(s, x))
  {
    hide StepConfirm, StepReconcile, StepReceive;
  }

  lemma ReconcileKeeps(s: State, x: Choice)
    requires Inv(s) && Asked(s) && PublisherReady(s) && s.pub.Reconciling?
    ensures Asked(StepPublisher(s, x))
  {
    assert s.pub.qstage != NeedRecord ==> s.pub.key in s.journal && s.journal[s.pub.key] == s.pub.rec;
    hide Core, StepConfirm, StepReceive, StartConfirm, HoldAsks;
  }

  lemma StepKeeps(s: State, e: Event)
    requires Inv(s) && Asked(s) && Enabled(s, e)
    ensures Asked(Next(s, e))
  {
    hide Asked, Core, StepConfirm;
    if e.PrepareHold? {
      HoldKeeps(s, e);
    } else if e.PrepareAttach? {
      AttachKeeps(s, e);
    } else if !e.Publish? {
      OutsideIsLess(s, e);
      LessAsks(s, Next(s, e));
    } else {
      if s.pub.Confirming? {
        ConfirmKeeps(s, s.pub.stage, s.pub.c, e.choice);
      } else {
        OthersKeep(s, e.choice);
      }
      TimePassesAsked(StepPublisher(s, e.choice));
    }
  }

  lemma TimePassesAsked(s: State)
    requires Asked(s)
    ensures Asked(s.(clock := s.clock + 1))
  {
  }

  lemma StartAsks()
    ensures Asked(INITIAL)
  {
  }

  lemma {:induction false} RunAsks(r: Run, i: nat)
    requires ValidRun(r) && i < |r.states|
    ensures Asked(r.states[i])
  {
    hide Asked, Core;
    if i == 0 {
      StartAsks();
    } else {
      RunAsks(r, i - 1);
      RunKeeps(r, i - 1);
      assert ValidStep(r, i - 1);
      StepKeeps(r.states[i - 1], r.events[i - 1]);
    }
  }

  /** Whatever the interleaving, and whoever was active when the request was prepared:
      a block handed to a node for a request, by its confirm or by a later reconcile,
      moves exactly what the request asked for, from the account it named and signed by
      it.  So does every retained record. */
  lemma MovesWhatWasAsked(r: Run, i: nat, j: nat)
    requires ValidRun(r) && i < |r.states| && j < |r.states[i].log.handed| && r.states[i].log.handed[j].wc.Some?
    ensures
      var h := r.states[i].log.handed[j];
      h.block.effect == h.wc.value.intent.effect && h.block.signer == h.wc.value.intent.effect.sender
  {
    RunAsks(r, i);
  }

  lemma RecordsSayWhatWasAsked(r: Run, i: nat, k: Key)
    requires ValidRun(r) && i < |r.states| && k in r.states[i].journal
    ensures
      var rec := r.states[i].journal[k];
      rec.block.effect == rec.intent.effect && rec.block.signer == rec.intent.effect.sender
  {
    RunAsks(r, i);
  }
}
