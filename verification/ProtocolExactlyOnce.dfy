/** Exactly-once publication.  It needs one scheduling rule, stated on the steps;
    see ProtocolSchedules for the callers that keep it and for runs without it. */
module ProtocolExactlyOnce {
  import opened TxTypes
  import opened TxHold
  import opened Journal
  import opened Protocol
  import opened ProtocolInvariant
  import opened ProtocolSafety

  predicate CanPut(stage: ConfirmStage) {
    stage !in {Journaled, Accepted, Clearing, Unlatching}
  }

  /** A confirm that one of its own checks is bound to stop: its hold left the slot
      before the latch, or the session moved before the second session check. */
  predicate Doomed(s: State)
    requires s.pub.Confirming? && |s.sessions| > 0
  {
    || (s.pub.stage == Snapped && s.mem.SlotId() != s.pub.c.hold.id)
    || (1 <= Rank(s.pub.stage) <= 9 && s.pub.c.hold.gen < Gen(s))
  }

  /** A WalletConnect confirm that may still write its journal record. */
  predicate Viable(s: State)
    requires |s.sessions| > 0
  {
    s.pub.Confirming? && s.pub.c.hold.wc.Some? && CanPut(s.pub.stage) && !Doomed(s)
  }

  /** The held request whose prepare has not yet attached its identity. */
  predicate HalfAttached(mem: Mem, prepares: map<nat, Prepare>, tid: nat) {
    tid in prepares && prepares[tid].stage == Held && mem.slot.Some? && prepares[tid].id == mem.slot.value.id
  }

  ghost predicate NoneHalfAttached(mem: Mem, prepares: map<nat, Prepare>) {
    forall tid :: !HalfAttached(mem, prepares, tid)
  }

  /** The hold with this id is not one its prepare has yet to identify. */
  ghost predicate ReturnedHold(s: State, id: nat) {
    forall tid :: HalfAttached(s.mem, s.prepares, tid) ==> s.prepares[tid].id != id
  }

  /** The event makes a WalletConnect hold. */
  predicate MakesRequestHold(s: State, e: Event) {
    e.PrepareHold? && e.tid in s.prepares && s.prepares[e.tid].wc.Some?
  }

  /** First clause: no record was written since the lookups behind a new hold. */
  predicate HoldsCurrent(s: State, e: Event) {
    MakesRequestHold(s, e) ==> s.prepares[e.tid].puts == s.puts
  }

  /** Second clause: no viable confirm is in flight when a hold is made. */
  predicate HoldsAlone(s: State, e: Event)
    requires |s.sessions| > 0
  {
    MakesRequestHold(s, e) ==> !Viable(s)
  }

  /** Third clause: a confirm does not name a hold whose prepare has not returned. */
  ghost predicate ConfirmsReturned(s: State, e: Event) {
    e.Publish? && s.pub.Starting? ==> ReturnedHold(s, s.pub.want)
  }

  /** The scheduling rule. */
  ghost predicate Disciplined(s: State, e: Event)
    requires |s.sessions| > 0
  {
    HoldsCurrent(s, e) && HoldsAlone(s, e) && ConfirmsReturned(s, e)
  }

  /** What the lookups of a prepare still tell, if nothing was written since. */
  ghost predicate Known(j: Records<Key>, puts: nat, p: Prepare) {
    p.wc.Some? && p.stage != Held ==>
      var ident := p.wc.value;
      && p.puts <= puts
      && (p.puts == puts ==>
            && ident.key !in j
            && (p.stage == LookedTopic ==> NoSameTopicMatch(j, ident.key.topic, ident.intent, ident.key))
            && (p.stage in {LookedAll, GenRead, AddrRead, Checked} ==> Fresh(j, ident.key, ident.intent)))
  }

  ghost predicate IdentFresh(j: Records<Key>, wc: Option<Ident>) {
    wc.Some? ==> Fresh(j, wc.value.key, wc.value.intent)
  }

  /** The held request is unrecorded, unless its own confirm just recorded it. */
  ghost predicate SlotFresh(s: State) {
    s.mem.slot.Some? ==>
      || IdentFresh(s.journal, s.mem.slot.value.wc)
      || (s.pub.Confirming? && s.pub.c.hold.id == s.mem.slot.value.id && s.pub.stage in {Journaled, Accepted, Clearing})
  }

  ghost predicate ConfirmFresh(s: State) {
    s.pub.Confirming? && CanPut(s.pub.stage) ==> IdentFresh(s.journal, s.pub.c.hold.wc)
  }

  /** A viable confirm owns the slot: no other WalletConnect hold, attached or about
      to be, sits beside it. */
  ghost predicate ViableOwnsSlot(s: State)
    requires |s.sessions| > 0
  {
    Viable(s) && s.mem.slot.Some? && s.mem.slot.value.id != s.pub.c.hold.id ==>
      s.mem.slot.value.wc.None? && NoneHalfAttached(s.mem, s.prepares)
  }

  ghost predicate HeldApart(prepares: map<nat, Prepare>) {
    forall t, t' | t in prepares && t' in prepares && prepares[t].stage == Held && prepares[t'].stage == Held ::
      prepares[t].id == prepares[t'].id ==> t == t'
  }

  ghost predicate HeldOk(s: State) {
    && (forall tid :: HalfAttached(s.mem, s.prepares, tid) ==>
          && s.mem.slot.value.wc.None?
          && IdentFresh(s.journal, s.prepares[tid].wc)
          && !(s.pub.Confirming? && s.pub.c.hold.id == s.prepares[tid].id))
    && HeldApart(s.prepares)
  }

  ghost predicate SameHold(s: State) {
    s.pub.Confirming? && s.mem.slot.Some? && s.mem.slot.value.id == s.pub.c.hold.id ==>
      s.mem.slot.value.wc == s.pub.c.hold.wc
  }

  ghost predicate AllKnown(s: State) {
    forall tid :: tid in s.prepares ==> Known(s.journal, s.puts, s.prepares[tid])
  }

  ghost predicate Once(s: State) {
    && |s.sessions| > 0
    && UniqueIntents(s.journal)
    && SlotFresh(s) && ConfirmFresh(s) && ViableOwnsSlot(s) && HeldOk(s) && SameHold(s) && AllKnown(s)
  }

  /** Records may go or be resolved, but none is added. */
  ghost predicate Shrinks(j: Records<Key>, j': Records<Key>) {
    forall k :: k in j' ==> k in j && j'[k].intent == j[k].intent && j'[k].topic == j[k].topic
  }

  lemma ShrinkKeepsKnown(j: Records<Key>, j': Records<Key>, puts: nat, p: Prepare)
    requires Shrinks(j, j') && Known(j, puts, p)
    ensures Known(j', puts, p)
  {
    if p.wc.Some? {
      var ident := p.wc.value;
      assert forall k :: SameTopicMatch(j', k, ident.key.topic, ident.intent, ident.key) ==>
               SameTopicMatch(j, k, ident.key.topic, ident.intent, ident.key);
    }
  }

  lemma ShrinkKeeps(s: State, j: Records<Key>)
    requires Once(s) && Shrinks(s.journal, j)
    ensures Once(s.(journal := j))
  {
    var s' := s.(journal := j);
    assert forall key, intent :: Fresh(s.journal, key, intent) ==> Fresh(j, key, intent);
    forall tid | tid in s'.prepares ensures Known(s'.journal, s'.puts, s'.prepares[tid]) {
      ShrinkKeepsKnown(s.journal, j, s.puts, s.prepares[tid]);
    }
  }

  /** A confirm moves on, and may write its record only if it could before. */
  lemma OnlyStage(s: State, stage: ConfirmStage, c: Confirm)
    requires Once(s) && s.pub.Confirming? && c.hold == s.pub.c.hold && CanPut(s.pub.stage)
    requires Viable(s.(pub := Confirming(stage, c))) ==> Viable(s)
    ensures Once(s.(pub := Confirming(stage, c)))
  {
    hide Viable, Known, UniqueIntents, HeldApart, IdentFresh;
  }

  /** The one step that adds a record: its confirm is viable, so nobody else holds,
      and its request was fresh. */
  lemma PutKeeps(s: State, c: Confirm, x: Choice)
    requires Inv(s) && Once(s) && s.pub == Confirming(Consented, c)
    ensures Once(StepConfirm(s, Consented, c, x))
  {
    JournalIs(s, c, x);
    hide Commit, Core, Once, RecordOf;
    var s' := StepConfirm(s, Consented, c, x);
    if s'.puts == s.puts {
      OnlyStage(s, s'.pub.stage, c);
    } else {
      RecordKeepsOnce(s, c, c.hold.wc.value);
    }
  }

  lemma RecordKeepsOnce(s: State, c: Confirm, ident: Ident)
    requires Once(s) && s.pub == Confirming(Consented, c) && c.hold.wc == Some(ident)
    ensures Once(s.(journal := s.journal[ident.key := RecordOf(ident, c.block)], puts := s.puts + 1, pub := Confirming(Journaled, c)))
  {
    var s' := s.(journal := s.journal[ident.key := RecordOf(ident, c.block)], puts := s.puts + 1, pub := Confirming(Journaled, c));
    PutKeepsUnique(s.journal, ident.key, RecordOf(ident, c.block));
    assert Viable(s);
    assert HeldOk(s');
  }

  lemma CheckKeepsOnce(s: State, stage: ConfirmStage, c: Confirm, x: Choice)
    requires Inv(s) && Once(s) && s.pub == Confirming(stage, c)
    requires stage in {Latched, AddrRead1, Live, EffectOk, Keyed, Cliented, ChainOk}
    ensures Once(StepConfirm(s, stage, c, x))
  {
    hide Core, Once, AfterPow, Commit;
    if stage == ChainOk {
      BuildKeepsOnce(s, c, x);
    } else {
      var s' := StepConfirm(s, stage, c, x);
      OnlyStage(s, s'.pub.stage, s'.pub.c);
    }
  }

  lemma BuildKeepsOnce(s: State, c: Confirm, x: Choice)
    requires Once(s) && s.pub == Confirming(ChainOk, c)
    ensures Once(StepConfirm(s, ChainOk, c, x))
  {
    hide AfterPow, Commit, Known, UniqueIntents, HeldApart, IdentFresh;
  }

  lemma LatchKeepsOnce(s: State, c: Confirm, x: Choice)
    requires Inv(s) && Once(s) && s.pub == Confirming(Snapped, c)
    ensures Once(StepConfirm(s, Snapped, c, x))
  {
  }

  lemma RecheckKeepsOnce(s: State, stage: ConfirmStage, c: Confirm, x: Choice)
    requires Inv(s) && Once(s) && s.pub == Confirming(stage, c)
    requires stage in {Built, AddrRead2, Rechecked, Matched, ChainOk2}
    ensures Once(StepConfirm(s, stage, c, x))
  {
    hide BeforePow, Commit, NodeOk, LedgerOk, ChecksOk, ConnectionOk, RecordedOk, PreparesOk;
  }

  lemma ReleaseKeepsOnce(s: State, stage: ConfirmStage, c: Confirm, x: Choice)
    requires Inv(s) && Once(s) && s.pub == Confirming(stage, c) && PublisherReady(s)
    requires stage in {Journaled, Clearing, Unlatching}
    ensures Once(StepConfirm(s, stage, c, x))
  {
  }

  /** Resolving a record is a shrink as far as freshness goes. */
  lemma MarkKeepsOnce(s: State, key: Key, ok: bool)
    requires Once(s)
    ensures Once(Mark(s, key, ok))
  {
    ShrinkKeeps(s, Mark(s, key, ok).journal);
  }

  lemma AcceptedKeepsOnce(s: State, c: Confirm, x: Choice)
    requires Once(s) && s.pub == Confirming(Accepted, c)
    ensures Once(Commit(s, Accepted, c, x))
  {
    var s' := At(s, Clearing, c);
    assert Once(s');
    hide Once;
    if c.hold.wc.Some? {
      MarkKeepsOnce(s', c.hold.wc.value.key, x.ok);
      assert Commit(s, Accepted, c, x) == Mark(s', c.hold.wc.value.key, x.ok);
    }
  }

  lemma ConfirmKeepsOnce(s: State, stage: ConfirmStage, c: Confirm, x: Choice)
    requires Inv(s) && Once(s) && s.pub == Confirming(stage, c) && PublisherReady(s)
    ensures Once(StepConfirm(s, stage, c, x))
  {
    hide Core, Once, BeforePow, AfterPow, Commit;
    if stage == Consented {
      PutKeeps(s, c, x);
    } else if stage == Accepted {
      AcceptedKeepsOnce(s, c, x);
      assert StepConfirm(s, stage, c, x) == Commit(s, stage, c, x);
    } else if stage in {Journaled, Clearing, Unlatching} {
      ReleaseKeepsOnce(s, stage, c, x);
    } else if stage == Snapped {
      LatchKeepsOnce(s, c, x);
    } else if stage in {Built, AddrRead2, Rechecked, Matched, ChainOk2} {
      RecheckKeepsOnce(s, stage, c, x);
    } else {
      CheckKeepsOnce(s, stage, c, x);
    }
  }

  lemma OtherPublishersKeepOnce(s: State, x: Choice)
    requires Inv(s) && Once(s) && (s.pub.Receiving? || s.pub.Reconciling?) && PublisherReady(s)
    ensures Once(StepPublisher(s, x))
  {
    if s.pub.Reconciling? && s.pub.qstage == NeedMark {
      MarkKeepsOnce(s, s.pub.key, x.ok);
    }
  }

  lemma StartKeepsOnce(s: State, want: nat, x: Choice)
    requires Inv(s) && Once(s) && s.pub == Starting(want) && ReturnedHold(s, want)
    ensures Once(StartConfirm(s, want, x))
  {
  }

  /** The new hold's id is beyond every id in play. */
  lemma IdsAreNew(s: State)
    requires Inv(s)
    ensures s.pub.Confirming? ==> s.pub.c.hold.id <= s.mem.counter
    ensures forall t :: t in s.prepares && s.prepares[t].stage == Held ==> s.prepares[t].id <= s.mem.counter
  {
  }

  lemma FirstPartyHoldKeepsOnce(s: State, tid: nat, h: Hold, log: Log)
    requires Once(s) && h.id == s.mem.counter + 1 && h.wc.None?
    requires s.pub.Confirming? ==> s.pub.c.hold.id <= s.mem.counter
    requires forall t :: t in s.prepares && s.prepares[t].stage == Held ==> s.prepares[t].id <= s.mem.counter
    ensures Once(s.(mem := Mem(Some(h), h.id, s.mem.latch), log := log, prepares := s.prepares - {tid}))
  {
    var s' := s.(mem := Mem(Some(h), h.id, s.mem.latch), log := log, prepares := s.prepares - {tid});
    assert NoneHalfAttached(s'.mem, s'.prepares);
    assert HeldOk(s');
  }

  lemma RequestHoldKeepsOnce(s: State, tid: nat, h: Hold, p: Prepare, log: Log)
    requires Once(s) && h.id == s.mem.counter + 1 && h.wc.None? && !Viable(s)
    requires s.pub.Confirming? ==> s.pub.c.hold.id <= s.mem.counter
    requires forall t :: t in s.prepares && s.prepares[t].stage == Held ==> s.prepares[t].id <= s.mem.counter
    requires p.stage == Held && p.id == h.id && IdentFresh(s.journal, p.wc) && s.mem.slot.None?
    ensures Once(s.(mem := Mem(Some(h), h.id, s.mem.latch), log := log, prepares := s.prepares[tid := p]))
  {
    var s' := s.(mem := Mem(Some(h), h.id, s.mem.latch), log := log, prepares := s.prepares[tid := p]);
    assert !Viable(s');
    assert forall t :: HalfAttached(s'.mem, s'.prepares, t) ==> t == tid;
  }

  lemma HoldStepIs(s: State, e: Event)
    requires |s.sessions| > 0 && Enabled(s, e) && e.PrepareHold?
    ensures var p, s' := s.prepares[e.tid], Step(s, e);
            && s.mem.slot.None? && s'.mem.slot.Some?
            && (var h := s'.mem.slot.value;
                && h.id == s.mem.counter + 1 && h.wc.None?
                && s' == s.(mem := Mem(Some(h), h.id, s.mem.latch), log := s'.log,
                            prepares := if p.wc.None? then s.prepares - {e.tid}
                                        else s.prepares[e.tid := p.(stage := Held, id := h.id)]))
  {
    hide StepPublisher, PublisherReady, ChoiceAllowed;
  }

  lemma HoldKeepsOnce(s: State, e: Event)
    requires Inv(s) && Once(s) && Enabled(s, e) && Disciplined(s, e) && e.PrepareHold?
    ensures Once(Step(s, e))
  {
    var p := s.prepares[e.tid];
    HoldStepIs(s, e);
    IdsAreNew(s);
    if p.wc.Some? {
      CheckedIsFresh(s, e.tid);
    }
    hide Core, Once, Step;
    var h, log := Step(s, e).mem.slot.value, Step(s, e).log;
    if p.wc.None? {
      FirstPartyHoldKeepsOnce(s, e.tid, h, log);
    } else {
      RequestHoldKeepsOnce(s, e.tid, h, p.(stage := Held, id := h.id), log);
    }
  }

  lemma CheckedIsFresh(s: State, tid: nat)
    requires Once(s) && At?(s, tid, Checked) && s.prepares[tid].puts == s.puts
    ensures IdentFresh(s.journal, s.prepares[tid].wc)
  {
    assert Known(s.journal, s.puts, s.prepares[tid]);
  }

  lemma AttachKeepsOnce(s: State, e: Event)
    requires Inv(s) && Once(s) && Enabled(s, e) && e.PrepareAttach?
    ensures Once(Step(s, e))
  {
    if HalfAttached(s.mem, s.prepares, e.tid) {
      assert !Viable(s);
    } else {
      FewerKeepsOnce(s, e.tid);
    }
  }

  /** A prepare that is not holding anything matters only through what it knows. */
  lemma OnlyKnowledge(s: State, tid: nat, p: Prepare)
    requires Once(s) && p.stage != Held && Known(s.journal, s.puts, p)
    ensures Once(PrepareAt(s, tid, p))
  {
    var s' := PrepareAt(s, tid, p);
    assert forall t :: HalfAttached(s.mem, s'.prepares, t) ==> HalfAttached(s.mem, s.prepares, t);
  }

  lemma FewerKeepsOnce(s: State, tid: nat)
    requires Once(s)
    ensures Once(s.(prepares := s.prepares - {tid}))
  {
    var s' := s.(prepares := s.prepares - {tid});
    assert forall t :: HalfAttached(s.mem, s'.prepares, t) ==> HalfAttached(s.mem, s.prepares, t);
  }

  lemma LookupKeepsOnce(s: State, e: Event)
    requires Inv(s) && Once(s) && Enabled(s, e)
    requires e.LookupKey? || e.LookupTopic? || e.LookupAll? || e.PrepareStart? || e.PrepareAddr? || e.PrepareCheck?
    ensures Once(Step(s, e))
  {
    if e.LookupAll? {
      var ident := s.prepares[e.tid].wc.value;
      LookupIsComplete(s.journal, ident.key, ident.key.topic, ident.intent);
    }
    OnlyKnowledge(s, e.tid, Step(s, e).prepares[e.tid]);
  }

  lemma SwitchKeepsOnce(s: State, to: Session, callback: bool)
    requires Once(s)
    ensures Once(Switch(s, to, callback))
  {
    hide Known, UniqueIntents, HeldApart, IdentFresh;
  }

  /** The slot is emptied, while the latched hold, if any, keeps its latch. */
  lemma ClearKeepsOnce(s: State, s': State)
    requires Once(s) && s' == s.(mem := s'.mem, clearDue := s'.clearDue)
    requires s'.mem.slot == s.mem.slot || s'.mem.slot.None?
    ensures Once(s')
  {
    hide Known, UniqueIntents, HeldApart, IdentFresh;
    assert forall t :: HalfAttached(s'.mem, s'.prepares, t) ==> HalfAttached(s.mem, s.prepares, t);
  }

  lemma SessionKeepsOnce(s: State, e: Event)
    requires Inv(s) && Once(s) && Enabled(s, e)
    requires e.Unlock? || e.Lock? || e.Select? || e.ClearCallback? || e.CancelCall?
    ensures Once(Step(s, e))
  {
    hide Core, Once, Switch;
    match e
    case Unlock(a) => SwitchKeepsOnce(s, Unlocked(a), false);
    case Lock => SwitchKeepsOnce(s, Locked, true);
    case Select(to) => SwitchKeepsOnce(s, Unlocked(to), to.Some?);
    case ClearCallback => ClearKeepsOnce(s, Step(s, e));
    case CancelCall(_) => ClearKeepsOnce(s, Step(s, e));
  }

  lemma OtherKeepsOnce(s: State, e: Event)
    requires Inv(s) && Once(s) && Enabled(s, e)
    requires e.Disconnect? || e.Install? || e.ConfirmStart? || e.ReceiveStart? || e.ReconcileStart? || e.Crash?
    ensures Once(Step(s, e))
  {
    hide Core, Once;
    var s' := Step(s, e);
    if e.Crash? {
      CrashKeepsOnce(s);
    } else if e.Disconnect? || e.Install? {
      NodeKeepsOnce(s, s');
    } else {
      TakenKeepsOnce(s, s'.pub);
    }
  }

  lemma NodeKeepsOnce(s: State, s': State)
    requires Once(s) && s' == s.(client := s'.client, chainId := s'.chainId, chainOf := s'.chainOf)
    ensures Once(s')
  {
    hide Known, UniqueIntents, HeldApart, IdentFresh;
  }

  lemma TakenKeepsOnce(s: State, pub: Publisher)
    requires Once(s) && s.pub.Free? && !pub.Confirming?
    ensures Once(s.(pub := pub))
  {
    hide Known, UniqueIntents, HeldApart, IdentFresh;
  }

  lemma CrashKeepsOnce(s: State)
    requires Once(s)
    ensures Once(Step(s, Crash))
  {
  }

  lemma AckKeepsOnce(s: State, e: Event)
    requires Inv(s) && Once(s) && Enabled(s, e) && e.Ack?
    ensures Once(Step(s, e))
  {
    ShrinkKeeps(s, Step(s, e).journal);
  }

  lemma PublishKeepsOnce(s: State, e: Event)
    requires Inv(s) && Once(s) && Enabled(s, e) && Disciplined(s, e) && e.Publish?
    ensures Once(Step(s, e))
  {
    match s.pub
    case Starting(want) => StartKeepsOnce(s, want, e.choice);
    case Confirming(stage, c) => ConfirmKeepsOnce(s, stage, c, e.choice);
    case Receiving(_, _, _, _) => OtherPublishersKeepOnce(s, e.choice);
    case Reconciling(_, _, _, _) => OtherPublishersKeepOnce(s, e.choice);
  }

  lemma AbortKeepsOnce(s: State, e: Event)
    requires Once(s) && Enabled(s, e) && e.PrepareAbort?
    ensures Once(Step(s, e))
  {
    FewerKeepsOnce(s, e.tid);
  }

  lemma StepKeepsOnce(s: State, e: Event)
    requires Inv(s) && Once(s) && Enabled(s, e) && Disciplined(s, e)
    ensures Once(Step(s, e))
  {
    if e.Publish? {
      PublishKeepsOnce(s, e);
    } else if e.PrepareHold? {
      HoldKeepsOnce(s, e);
    } else if e.PrepareAttach? {
      AttachKeepsOnce(s, e);
    } else if e.PrepareAbort? {
      AbortKeepsOnce(s, e);
    } else if e.Unlock? || e.Lock? || e.Select? || e.ClearCallback? || e.CancelCall? {
      SessionKeepsOnce(s, e);
    } else if e.Ack? {
      AckKeepsOnce(s, e);
    } else if e.LookupKey? || e.LookupTopic? || e.LookupAll? || e.PrepareStart? || e.PrepareAddr? || e.PrepareCheck? {
      LookupKeepsOnce(s, e);
    } else {
      OtherKeepsOnce(s, e);
    }
  }

  lemma TickKeepsOnce(s: State)
    requires Once(s)
    ensures Once(s.(clock := s.clock + 1))
  {
  }

  ghost predicate DisciplinedRun(r: Run) {
    ValidRun(r) && forall i :: 0 <= i < |r.events| ==> DisciplinedStep(r, i)
  }

  ghost predicate DisciplinedStep(r: Run, i: nat)
    requires i < |r.events| && |r.states| == |r.events| + 1
  {
    |r.states[i].sessions| > 0 && Disciplined(r.states[i], r.events[i])
  }

  lemma InitialOnce()
    ensures Once(INITIAL)
  {
  }

  lemma {:induction false} RunKeepsOnce(r: Run, i: nat)
    requires DisciplinedRun(r) && i < |r.states|
    ensures Once(r.states[i])
  {
    InitialOnce();
    hide Core, Once, Enabled, Disciplined, Step;
    if i > 0 {
      RunKeepsOnce(r, i - 1);
      var s, e := r.states[i - 1], r.events[i - 1];
      RunStep(r, i - 1);
      assert DisciplinedStep(r, i - 1);
      StepKeepsOnce(s, e);
      StepTime(s, e);
      TickKeepsOnce(Step(s, e));
    }
  }

  /** A prepare that makes a hold found no retained record under its key, and none
      with its intent under any key or topic. */
  lemma HoldsOnlyFreshRequests(r: Run, i: nat, tid: nat, ident: Ident)
    requires DisciplinedRun(r) && i < |r.events| && r.events[i].PrepareHold? && r.events[i].tid == tid
    requires tid in r.states[i].prepares && r.states[i].prepares[tid].wc == Some(ident)
    ensures Fresh(r.states[i].journal, ident.key, ident.intent)
  {
    RunStep(r, i);
    RunKeepsOnce(r, i);
    assert DisciplinedStep(r, i);
    CheckedIsFresh(r.states[i], tid);
  }

  // ---- Records

  /** A record is never replaced: from one step to the next it stays with its block,
      at most turning from signed to published, or an acknowledgement removes it
      after it was published. */
  lemma RecordLife(s: State, e: Event, key: Key)
    requires Inv(s) && Once(s) && Enabled(s, e) && key in s.journal
    ensures var s' := Next(s, e);
            if key in s'.journal then
              s'.journal[key] == s.journal[key] || s'.journal[key] == s.journal[key].(state := Published)
            else e.Ack? && e.key == key && s.journal[key].state == Published
  {
    if e.Publish? {
      PublishRecordLife(s, e.choice, key);
      hide StepPublisher;
    } else if e.Ack? {
      AckRecordLife(s, e, key);
    } else {
      OthersKeepJournal(s, e);
    }
  }

  lemma OthersKeepJournal(s: State, e: Event)
    requires |s.sessions| > 0 && Enabled(s, e) && !e.Publish? && !e.Ack?
    ensures Next(s, e).journal == s.journal
  {
    if IsPrepare(e) {
      hide Enabled, StepPublisher, HoldPending, Attach, Cancel, ClearAll;
    } else {
      OutsidersKeepJournal(s, e);
    }
  }

  lemma OutsidersKeepJournal(s: State, e: Event)
    requires |s.sessions| > 0 && Enabled(s, e) && !IsPrepare(e) && !e.Publish? && !e.Ack?
    ensures Next(s, e).journal == s.journal
  {
    hide Enabled, StepPublisher, Cancel, ClearAll;
  }

  lemma AckRecordLife(s: State, e: Event, key: Key)
    requires |s.sessions| > 0 && Enabled(s, e) && e.Ack? && key in s.journal
    ensures if key in Next(s, e).journal then Next(s, e).journal[key] == s.journal[key]
            else e.key == key && s.journal[key].state == Published
  {
    hide StepPublisher, PublisherReady, ChoiceAllowed;
  }

  lemma PublishRecordLife(s: State, x: Choice, key: Key)
    requires Inv(s) && Once(s) && PublisherReady(s) && key in s.journal
    ensures var j := StepPublisher(s, x).journal;
            key in j && (j[key] == s.journal[key] || j[key] == s.journal[key].(state := Published))
  {
    match s.pub
    case Starting(want) => assert StartConfirm(s, want, x).journal == s.journal;
    case Confirming(stage, c) => ConfirmRecordLife(s, stage, c, x, key);
    case Reconciling(stage, _, _, _) =>
      if stage == NeedMark {
        assert StepPublisher(s, x).journal == Mark(s, s.pub.key, x.ok).journal;
      }
    case _ =>
  }

  lemma ConfirmRecordLife(s: State, stage: ConfirmStage, c: Confirm, x: Choice, key: Key)
    requires Once(s) && s.pub == Confirming(stage, c) && PublisherReady(s) && key in s.journal
    ensures var j := StepConfirm(s, stage, c, x).journal;
            key in j && (j[key] == s.journal[key] || j[key] == s.journal[key].(state := Published))
  {
    hide BeforePow, AfterPow;
  }

  /** The block a node is handed for a request is the recorded one. */
  lemma HandedIsRecorded(s: State, e: Event, h: Handed)
    requires Inv(s) && Enabled(s, e) && Hands(s, Next(s, e), h) && h.wc.Some?
    ensures h.wc.value.key in s.journal
    ensures var rec := s.journal[h.wc.value.key]; rec.intent == h.wc.value.intent && rec.block == h.block
  {
    WhoHands(s, e, h);
  }

  // ---- Exactly once

  /** A record with this intent and block under this key. */
  predicate Retains(s: State, key: Key, intent: Intent, b: Block) {
    key in s.journal && s.journal[key].intent == intent && s.journal[key].block == b
  }

  predicate Forgets(s: State, e: Event, key: Key, intent: Intent) {
    e.Ack? && e.key == key && key in s.journal && s.journal[key].intent == intent && s.journal[key].state == Published
  }

  // ---- Resolving and acknowledging

  /** The step marks the record of `key` as published, and its write succeeds. */
  predicate Resolves(s: State, e: Event, key: Key) {
    && e.Publish? && e.choice.ok && key in s.journal
    && match s.pub
       case Confirming(stage, c) => stage == Accepted && c.hold.wc.Some? && c.hold.wc.value.key == key
       case Reconciling(stage, k, _, _) => stage == NeedMark && k == key
       case _ => false
  }

  /** After an acceptance the record is resolved: the same block, now published, and no
      other record touched. */
  lemma ResolvingPublishes(s: State, e: Event, key: Key)
    requires |s.sessions| > 0 && Enabled(s, e) && Resolves(s, e, key)
    ensures Next(s, e).journal == s.journal[key := s.journal[key].(state := Published)]
  {
    hide BeforePow, AfterPow, StepReceive, StartConfirm;
  }

  /** An acknowledgement drops a resolved record and keeps any other. */
  lemma AckDropsResolved(s: State, key: Key)
    requires |s.sessions| > 0 && key in s.journal
    ensures Next(s, Ack(key, true)).journal == if s.journal[key].state == Published then s.journal - {key} else s.journal
    ensures Next(s, Ack(key, false)).journal == s.journal
  {
    hide StepPublisher, PublisherReady, ChoiceAllowed;
  }

  lemma {:induction false} ResolvedStays(r: Run, i: nat, j: nat, key: Key, rec: Rec)
    requires DisciplinedRun(r) && i <= j < |r.states| && key in r.states[i].journal && r.states[i].journal[key] == rec && rec.state == Published
    requires forall k | i <= k < j :: !(r.events[k].Ack? && r.events[k].key == key)
    ensures key in r.states[j].journal && r.states[j].journal[key] == rec
  {
    hide Core, Once, Next, Enabled;
    if i < j {
      ResolvedStays(r, i, j - 1, key, rec);
      RunStep(r, j - 1);
      RunKeepsOnce(r, j - 1);
      RecordLife(r.states[j - 1], r.events[j - 1], key);
    }
  }

  /** A record resolved at step `i` is removed by the first acknowledgement after it,
      and its block is then counted as acknowledged. */
  lemma ResolvedCanBeAcked(r: Run, i: nat, j: nat, key: Key)
    requires DisciplinedRun(r) && i < j < |r.events| && key in r.states[i].journal && Resolves(r.states[i], r.events[i], key)
    requires r.events[j] == Ack(key, true) && forall k | i < k < j :: !(r.events[k].Ack? && r.events[k].key == key)
    ensures key !in r.states[j + 1].journal && (key, r.states[i].journal[key].block) in r.states[j + 1].log.acked
  {
    RunStep(r, i);
    RunStep(r, j);
    hide ValidRun, DisciplinedRun, Enabled;
    ResolvingPublishes(r.states[i], r.events[i], key);
    ResolvedStays(r, i + 1, j, key, r.states[i].journal[key].(state := Published));
    AckIsCounted(r.states[j], key);
  }

  lemma AckIsCounted(s: State, key: Key)
    requires |s.sessions| > 0 && key in s.journal && s.journal[key].state == Published
    ensures var s' := Next(s, Ack(key, true)); key !in s'.journal && (key, s.journal[key].block) in s'.log.acked
  {
    hide StepPublisher, PublisherReady, ChoiceAllowed;
  }

  lemma {:induction false} RetainedUntilAcked(r: Run, i: nat, j: nat, key: Key, intent: Intent, b: Block)
    requires DisciplinedRun(r) && i <= j < |r.states| && Retains(r.states[i], key, intent, b)
    requires forall k :: i <= k < j ==> !Forgets(r.states[k], r.events[k], key, intent)
    ensures Retains(r.states[j], key, intent, b)
  {
    hide Core, Once, Next, Enabled;
    if i < j {
      RetainedUntilAcked(r, i, j - 1, key, intent, b);
      RunStep(r, j - 1);
      RunKeepsOnce(r, j - 1);
      RecordLife(r.states[j - 1], r.events[j - 1], key);
    }
  }

  /** From the journal write on - before any broadcast, and across crashes - a node is
      handed for that intent the recorded block and no other, under the recorded
      request, until an acknowledgement deletes the resolved record. */
  lemma OnlyTheRecordedBlock(r: Run, i: nat, j: nat, key: Key, intent: Intent, b: Block, h: Handed)
    requires DisciplinedRun(r) && i <= j < |r.events| && Retains(r.states[i], key, intent, b)
    requires forall k :: i <= k < j ==> !Forgets(r.states[k], r.events[k], key, intent)
    requires Hands(r.states[j], r.states[j + 1], h) && h.wc.Some? && h.wc.value.intent == intent
    ensures h.block == b && h.wc.value.key == key
  {
    hide Core, Enabled, Next;
    RetainedUntilAcked(r, i, j, key, intent, b);
    RunStep(r, j);
    HandedIsRecorded(r.states[j], r.events[j], h);
    RunKeepsOnce(r, j);
  }

  /** Once any block was handed to a node for an intent, every later block handed
      for that intent - whatever request id or topic it arrives under, and across
      crashes - is the same block, until an acknowledgement deletes the resolved
      record. */
  lemma ExactlyOnce(r: Run, i: nat, j: nat, g: Handed, h: Handed)
    requires DisciplinedRun(r) && i <= j < |r.events|
    requires Hands(r.states[i], r.states[i + 1], g) && Hands(r.states[j], r.states[j + 1], h)
    requires g.wc.Some? && h.wc.Some? && g.wc.value.intent == h.wc.value.intent
    ensures g.block == h.block || exists k :: i <= k < j && Forgets(r.states[k], r.events[k], g.wc.value.key, g.wc.value.intent)
  {
    hide Core, Enabled, Next;
    var key, intent := g.wc.value.key, g.wc.value.intent;
    RunStep(r, i);
    HandedIsRecorded(r.states[i], r.events[i], g);
    if forall k :: i <= k < j ==> !Forgets(r.states[k], r.events[k], key, intent) {
      OnlyTheRecordedBlock(r, i, j, key, intent, g.block, h);
    }
  }

  // ---- Durability

  ghost predicate Durable(s: State, h: Handed) {
    h.wc.Some? ==> Retains(s, h.wc.value.key, h.wc.value.intent, h.block) || (h.wc.value.key, h.block) in s.log.acked
  }

  lemma StepKeepsDurable(s: State, e: Event, h: Handed)
    requires Inv(s) && Once(s) && Enabled(s, e) && Durable(s, h)
    ensures Durable(Next(s, e), h)
  {
    if h.wc.Some? {
      if h.wc.value.key in s.journal {
        RecordLife(s, e, h.wc.value.key);
      }
      AckedGrows(s, e);
    }
  }

  lemma AckedGrows(s: State, e: Event)
    requires |s.sessions| > 0 && Enabled(s, e)
    ensures s.log.acked <= Next(s, e).log.acked
  {
    if e.Publish? {
      assert PublisherFrame(s, StepPublisher(s, e.choice));
    }
  }

  /** In every reachable state, crashes included, each block ever handed to a node
      for a request has a durable record holding that exact block, unless the record
      was acknowledged - which needs its block accepted (ResolvedMeansAccepted). */
  lemma {:induction false} WriteAhead(r: Run, i: nat, n: nat)
    requires DisciplinedRun(r) && i < |r.states| && n < |r.states[i].log.handed|
    ensures Durable(r.states[i], r.states[i].log.handed[n])
  {
    hide Core, Once, Enabled, Step;
    if i > 0 {
      var s, e := r.states[i - 1], r.events[i - 1];
      RunStep(r, i - 1);
      RunKeepsOnce(r, i - 1);
      HandedGrows(s, e);
      if n < |s.log.handed| {
        WriteAhead(r, i - 1, n);
        StepKeepsDurable(s, e, s.log.handed[n]);
      } else {
        var h := r.states[i].log.handed[n];
        assert Hands(s, Next(s, e), h);
        if h.wc.Some? {
          HandedIsRecorded(s, e, h);
          RecordLife(s, e, h.wc.value.key);
          WhoHands(s, e, h);
        }
      }
    }
  }

  lemma HandedGrows(s: State, e: Event)
    requires |s.sessions| > 0 && Enabled(s, e)
    ensures Next(s, e).log.handed == s.log.handed || exists h :: Hands(s, Next(s, e), h)
  {
    if e.Publish? {
      PublisherHands(s, e.choice);
      hide StepPublisher;
      if h :| StepPublisher(s, e.choice).log.handed == s.log.handed + [h] {
        assert Hands(s, Next(s, e), h);
      }
    } else {
      OnlyPublishersHand(s, e);
    }
  }

  lemma PublisherHands(s: State, x: Choice)
    requires |s.sessions| > 0 && PublisherReady(s)
    ensures var l := StepPublisher(s, x).log.handed; l == s.log.handed || exists h :: l == s.log.handed + [h]
  {
    match s.pub
    case Confirming(stage, c) => CommitHands(s, stage, c, x);
    case _ =>
  }

  lemma CommitHands(s: State, stage: ConfirmStage, c: Confirm, x: Choice)
    requires |s.sessions| > 0 && (stage == Journaled ==> c.client < |s.chainOf|)
    ensures var l := StepConfirm(s, stage, c, x).log.handed; l == s.log.handed || exists h :: l == s.log.handed + [h]
  {
    hide BeforePow, AfterPow;
  }
}
