/** What holds of every run at full interleaving: chains agree, a broadcast shows
    one reviewed effect of one session, and cancel and publish linearise. */
module ProtocolSafety {
  import opened TxTypes
  import opened TxHold
  import opened Journal
  import opened Protocol
  import opened ProtocolInvariant

  /** The step from `s` to `s'` hands `h` to a node. */
  ghost predicate Hands(s: State, s': State, h: Handed) {
    s'.log.handed == s.log.handed + [h]
  }

  /** A step that ends the signing session, or the process. */
  predicate IsSwitch(e: Event) {
    e.Unlock? || e.Lock? || e.Select? || e.Crash?
  }

  lemma RunStep(r: Run, i: nat)
    requires ValidRun(r) && i < |r.events|
    ensures Inv(r.states[i]) && Enabled(r.states[i], r.events[i])
    ensures r.states[i + 1] == Next(r.states[i], r.events[i])
  {
    RunKeeps(r, i);
    assert ValidStep(r, i);
  }

  // ---- Chain agreement

  /** A block accepted by a node carries that node's chain identifier, although
      client and chain identifier are read in different critical sections. */
  lemma ChainAgreement(r: Run, i: nat, chain: nat, b: Block)
    requires ValidRun(r) && i < |r.states|
    requires (chain, b) in r.states[i].accepted
    ensures b.chain == chain
  {
    RunKeeps(r, i);
    assert (chain, b).1.chain == (chain, b).0;
  }

  /** A record is resolved, and an acknowledgement removes it, only once its exact
      block was accepted on the block's own chain. */
  lemma ResolvedMeansAccepted(r: Run, i: nat, key: Key)
    requires ValidRun(r) && i < |r.states|
    ensures key in r.states[i].journal && r.states[i].journal[key].state == Published ==>
              var b := r.states[i].journal[key].block; (b.chain, b) in r.states[i].accepted
    ensures forall b :: (key, b) in r.states[i].log.acked ==> (b.chain, b) in r.states[i].accepted
  {
    RunKeeps(r, i);
    forall b | (key, b) in r.states[i].log.acked ensures (b.chain, b) in r.states[i].accepted {
      var a := (key, b);
      assert (a.1.chain, a.1) in r.states[i].accepted;
    }
  }

  // ---- One session, one effect

  /** Only the last stage of a confirm, the last of a receive and the rebroadcast
      of a reconcile reach a node. */
  lemma WhoHands(s: State, e: Event, h: Handed)
    requires |s.sessions| > 0 && Enabled(s, e) && Hands(s, Next(s, e), h)
    ensures e.Publish?
    ensures match s.pub {
              case Confirming(stage, c) => stage == Journaled && h == Handed(s.boot, ByConfirm(c.hold.id), c.hold.wc, c.block)
              case Receiving(stage, _, _, _) => stage == NeedSend && h.origin.ByReceive? && h.wc.None?
              case Reconciling(stage, key, rec, _) =>
                stage == NeedPublish && h == Handed(s.boot, ByReconcile, Some(Ident(key, rec.intent)), rec.block)
              case _ => false
            }
  {
    assert Next(s, e).log.handed[|s.log.handed|] == h;
    if !e.Publish? {
      OnlyPublishersHand(s, e);
    }
  }

  lemma OnlyPublishersHand(s: State, e: Event)
    requires |s.sessions| > 0 && Enabled(s, e) && !e.Publish?
    ensures Next(s, e).log.handed == s.log.handed
  {
    hide StepPublisher, PublisherReady, ChoiceAllowed;
  }

  /** Confirm-what-you-sign, write-ahead: a confirmed block moves exactly what the
      preview of its hold displayed, is signed by the displayed sender, and is in
      the journal before a node sees it. */
  lemma BroadcastIsReviewed(s: State, e: Event, h: Handed)
    requires Inv(s) && Enabled(s, e) && Hands(s, Next(s, e), h) && h.origin.ByConfirm?
    ensures h.origin.hold in s.log.previews && h.block.effect == s.log.previews[h.origin.hold]
    ensures h.block.signer == h.block.effect.sender
    ensures h.wc.Some? ==> h.wc.value.key in s.journal && s.journal[h.wc.value.key] == RecordOf(h.wc.value, h.block)
  {
    WhoHands(s, e, h);
  }

  // ---- What the steps outside the publishing thread leave alone

  ghost predicate SlotKeptOrEmptied(s: State, u: State) {
    && (u.mem.slot == s.mem.slot || u.mem.slot.None?)
    && forall tid :: tid in u.prepares && u.prepares[tid].stage == Held ==> tid in s.prepares && u.prepares[tid] == s.prepares[tid]
  }

  lemma SlotOfOthers(s: State, e: Event)
    requires |s.sessions| > 0 && Enabled(s, e) && !e.Publish? && !e.PrepareHold? && !e.PrepareAttach?
    ensures SlotKeptOrEmptied(s, Next(s, e))
  {
    if IsPrepare(e) {
      SlotOfPrepares(s, e);
    } else {
      SlotOfOutsiders(s, e);
    }
  }

  lemma SlotOfPrepares(s: State, e: Event)
    requires |s.sessions| > 0 && Enabled(s, e) && IsPrepare(e) && !e.PrepareHold? && !e.PrepareAttach?
    ensures SlotKeptOrEmptied(s, Next(s, e))
  {
    hide Enabled, StepPublisher, HoldPending, Attach;
  }

  lemma SlotOfOutsiders(s: State, e: Event)
    requires |s.sessions| > 0 && Enabled(s, e) && !IsPrepare(e) && !e.Publish?
    ensures SlotKeptOrEmptied(s, Next(s, e))
  {
    PreparesOfOutsiders(s, e);
    hide Enabled, StepPublisher;
  }

  lemma PreparesOfOutsiders(s: State, e: Event)
    requires |s.sessions| > 0 && Enabled(s, e) && !IsPrepare(e) && !e.Publish?
    ensures Next(s, e).prepares == if e.Crash? then map[] else s.prepares
  {
    hide Enabled, StepPublisher, Cancel;
  }

  lemma PubOfPrepares(s: State, e: Event)
    requires |s.sessions| > 0 && Enabled(s, e) && IsPrepare(e)
    ensures Next(s, e).pub == s.pub
  {
    hide Enabled, StepPublisher, HoldPending, Attach;
  }

  lemma PubOfOutsiders(s: State, e: Event)
    requires |s.sessions| > 0 && Enabled(s, e) && !IsPrepare(e) && !e.Publish?
    ensures var pub := Next(s, e).pub;
            if e.ConfirmStart? then pub == Starting(e.want)
            else (pub == s.pub && !e.Crash?) || pub.Free? || pub.Receiving? || pub.Reconciling?
  {
    hide Enabled, StepPublisher, Cancel;
  }

  /** Starts of the prepares behind the holds still in play. */
  ghost predicate StartOf(s: State, x: nat) {
    || (s.mem.slot.Some? && s.mem.slot.value.start == x)
    || (s.pub.Confirming? && s.pub.c.hold.start == x)
    || (exists tid :: tid in s.prepares && s.prepares[tid].stage in {GenRead, AddrRead, Checked} && s.prepares[tid].start == x)
  }

  lemma StartsPersist(s: State, e: Event, x: nat)
    requires |s.sessions| > 0 && Enabled(s, e) && StartOf(Next(s, e), x)
    ensures StartOf(s, x) || (e.PrepareStart? && x == s.clock)
  {
    if e.Publish? {
      PublisherStartsPersist(s, e.choice, x);
    } else {
      PrepareStartsPersist(s, e, x);
    }
  }

  lemma PrepareStartsPersist(s: State, e: Event, x: nat)
    requires |s.sessions| > 0 && Enabled(s, e) && !e.Publish? && StartOf(Next(s, e), x)
    ensures StartOf(s, x) || (e.PrepareStart? && x == s.clock)
  {
    SlotStarts(s, e);
    hide Step, Enabled;
    var s' := Next(s, e);
    if tid :| tid in s'.prepares && s'.prepares[tid].stage in {GenRead, AddrRead, Checked} && s'.prepares[tid].start == x {
      PrepareKeepsStart(s, e, tid);
    }
  }

  lemma SlotStarts(s: State, e: Event)
    requires |s.sessions| > 0 && Enabled(s, e) && !e.Publish?
    ensures var slot := Next(s, e).mem.slot;
            slot.Some? ==>
              || (s.mem.slot.Some? && slot.value.start == s.mem.slot.value.start)
              || (e.PrepareHold? && At?(s, e.tid, Checked) && slot.value.start == s.prepares[e.tid].start)
    ensures Next(s, e).pub.Confirming? ==> Next(s, e).pub == s.pub
  {
    if IsPrepare(e) { PubOfPrepares(s, e); } else { PubOfOutsiders(s, e); }
    if !e.PrepareHold? && !e.PrepareAttach? {
      SlotOfOthers(s, e);
      hide Step, Enabled;
    } else {
      hide StepPublisher, PublisherReady, ChoiceAllowed;
    }
  }

  lemma PrepareKeepsStart(s: State, e: Event, tid: nat)
    requires |s.sessions| > 0 && Enabled(s, e) && !e.Publish?
    requires tid in Next(s, e).prepares && Next(s, e).prepares[tid].stage in {GenRead, AddrRead, Checked}
    ensures if e == PrepareStart(tid) then Next(s, e).prepares[tid].start == s.clock
            else tid in s.prepares && s.prepares[tid].stage in {GenRead, AddrRead, Checked} &&
                 s.prepares[tid].start == Next(s, e).prepares[tid].start
  {
    if e.PrepareHold? || e.PrepareAttach? || e.PrepareAbort? {
      HoldsEndPrepares(s, e);
    } else if e.LookupKey? || e.LookupTopic? || e.LookupAll? || e.PrepareStart? || e.PrepareAddr? || e.PrepareCheck? {
      ReadsAdvancePrepares(s, e, tid);
    } else {
      PreparesOfOutsiders(s, e);
    }
    hide Step, Enabled;
  }

  lemma ReadsAdvancePrepares(s: State, e: Event, tid: nat)
    requires |s.sessions| > 0 && Enabled(s, e)
    requires e.LookupKey? || e.LookupTopic? || e.LookupAll? || e.PrepareStart? || e.PrepareAddr? || e.PrepareCheck?
    requires tid in Next(s, e).prepares && Next(s, e).prepares[tid].stage in {GenRead, AddrRead, Checked}
    ensures if e == PrepareStart(tid) then Next(s, e).prepares[tid].start == s.clock
            else tid in s.prepares && s.prepares[tid].stage in {GenRead, AddrRead, Checked} &&
                 s.prepares[tid].start == Next(s, e).prepares[tid].start
  {
  }

  lemma HoldsEndPrepares(s: State, e: Event)
    requires |s.sessions| > 0 && Enabled(s, e) && (e.PrepareHold? || e.PrepareAttach? || e.PrepareAbort?)
    ensures forall t :: t in Next(s, e).prepares && Next(s, e).prepares[t].stage != Held ==>
              t in s.prepares && Next(s, e).prepares[t] == s.prepares[t]
  {
    hide StepPublisher, PublisherReady, ChoiceAllowed;
  }

  lemma PublisherStartsPersist(s: State, x: Choice, start: nat)
    requires |s.sessions| > 0 && PublisherReady(s) && ChoiceAllowed(s, x)
    requires StartOf(StepPublisher(s, x), start)
    ensures StartOf(s, start)
  {
    match s.pub
    case Confirming(stage, c) => ConfirmStartsPersist(s, stage, c, x, start);
    case _ => OtherStartsPersist(s, x, start);
  }

  lemma ConfirmStartsPersist(s: State, stage: ConfirmStage, c: Confirm, x: Choice, start: nat)
    requires |s.sessions| > 0 && s.pub == Confirming(stage, c) && (stage == Journaled ==> c.client < |s.chainOf|)
    requires StartOf(StepConfirm(s, stage, c, x), start)
    ensures StartOf(s, start)
  {
    assert StepConfirm(s, stage, c, x).prepares == s.prepares;
    ConfirmSlot(s, stage, c, x);
  }

  lemma OtherStartsPersist(s: State, x: Choice, start: nat)
    requires |s.sessions| > 0 && PublisherReady(s) && !s.pub.Confirming?
    requires StartOf(StepPublisher(s, x), start)
    ensures StartOf(s, start)
  {
    var s' := StepPublisher(s, x);
    assert s'.prepares == s.prepares && s'.mem == s.mem;
  }

  lemma {:induction false} StartsArePrepares(r: Run, i: nat, x: nat)
    requires ValidRun(r) && i < |r.states| && StartOf(r.states[i], x)
    ensures r.states[i].clock == i && x < i && r.events[x].PrepareStart?
  {
    ClockIsIndex(r, i);
    if i > 0 {
      RunStep(r, i - 1);
      ClockIsIndex(r, i - 1);
      StartsPersist(r.states[i - 1], r.events[i - 1], x);
      if StartOf(r.states[i - 1], x) {
        StartsArePrepares(r, i - 1, x);
      }
    }
  }

  lemma {:induction false} ClockIsIndex(r: Run, i: nat)
    requires ValidRun(r) && i < |r.states|
    ensures r.states[i].clock == i
  {
    if i > 0 {
      ClockIsIndex(r, i - 1);
      RunStep(r, i - 1);
      StepTime(r.states[i - 1], r.events[i - 1]);
    }
  }

  /** lastSwitch really is past every session change so far. */
  lemma {:induction false} SwitchesAreCounted(r: Run, i: nat, k: nat)
    requires ValidRun(r) && k < i < |r.states| && IsSwitch(r.events[k])
    ensures k < r.states[i].lastSwitch
  {
    var s, e := r.states[i - 1], r.events[i - 1];
    RunStep(r, i - 1);
    ClockIsIndex(r, i - 1);
    if k < i - 1 {
      SwitchesAreCounted(r, i - 1, k);
      SwitchGrows(s, e);
    }
  }

  lemma SwitchGrows(s: State, e: Event)
    requires |s.sessions| > 0 && Enabled(s, e) && s.lastSwitch <= s.clock
    ensures s.lastSwitch <= Next(s, e).lastSwitch
  {
    if e.Publish? {
      assert PublisherFrame(s, StepPublisher(s, e.choice));
    }
  }

  /** A confirm past its second session check made that check at `recheckAt`. */
  ghost predicate RecheckOf(s: State, hold: Hold, at: nat, quiet: nat) {
    s.pub.Confirming? && Rank(s.pub.stage) >= 10 && s.pub.c.hold == hold && s.pub.c.recheckAt == at && s.pub.c.quiet == quiet
  }

  ghost predicate Rechecks(s: State, hold: Hold) {
    s.pub.Confirming? && s.pub.stage == AddrRead2 && s.pub.c.hold == hold
  }

  lemma RechecksPersist(s: State, e: Event, hold: Hold, at: nat, quiet: nat)
    requires |s.sessions| > 0 && Enabled(s, e) && RecheckOf(Next(s, e), hold, at, quiet)
    ensures RecheckOf(s, hold, at, quiet) || (Rechecks(s, hold) && at == s.clock && quiet == s.lastSwitch)
  {
    if e.Publish? {
      if s.pub.Confirming? {
        ConfirmRechecks(s, s.pub.stage, s.pub.c, e.choice);
      } else {
        OthersNeverRecheck(s, e.choice);
      }
    }
  }

  lemma OthersNeverRecheck(s: State, x: Choice)
    requires |s.sessions| > 0 && PublisherReady(s) && !s.pub.Confirming?
    ensures var s' := StepPublisher(s, x); s'.pub.Confirming? ==> Rank(s'.pub.stage) < 10
  {
  }

  lemma ConfirmRechecks(s: State, stage: ConfirmStage, c: Confirm, x: Choice)
    requires |s.sessions| > 0 && (stage == Journaled ==> c.client < |s.chainOf|)
    ensures var s' := StepConfirm(s, stage, c, x);
            s'.pub.Confirming? && Rank(s'.pub.stage) >= 10 ==>
              if stage == AddrRead2 then s'.pub.c.recheckAt == s.clock && s'.pub.c.quiet == s.lastSwitch
              else Rank(stage) >= 10 && s'.pub.c.recheckAt == c.recheckAt && s'.pub.c.quiet == c.quiet
  {
    EarlyNeverRechecks(s, stage, c, x);
    CommitKeepsRank(s, stage, c, x);
    hide BeforePow, Commit;
  }

  lemma EarlyNeverRechecks(s: State, stage: ConfirmStage, c: Confirm, x: Choice)
    requires |s.sessions| > 0
    ensures var pub := BeforePow(s, stage, c, x).pub; pub.Confirming? ==> Rank(pub.stage) < 10
  {
  }

  lemma CommitKeepsRank(s: State, stage: ConfirmStage, c: Confirm, x: Choice)
    requires stage == Journaled ==> c.client < |s.chainOf|
    ensures var pub := Commit(s, stage, c, x).pub;
            Late(stage) && pub.Confirming? && Rank(pub.stage) >= 10 ==> Rank(stage) >= 10
  {
  }

  lemma {:induction false} RecheckHappened(r: Run, i: nat, hold: Hold, at: nat, quiet: nat)
    requires ValidRun(r) && i < |r.states| && RecheckOf(r.states[i], hold, at, quiet)
    ensures at < i && Rechecks(r.states[at], hold) && quiet == r.states[at].lastSwitch
  {
    if i > 0 {
      RunStep(r, i - 1);
      ClockIsIndex(r, i - 1);
      hide Step, Enabled, StepPublisher;
      RechecksPersist(r.states[i - 1], r.events[i - 1], hold, at, quiet);
      if RecheckOf(r.states[i - 1], hold, at, quiet) {
        RecheckHappened(r, i - 1, hold, at, quiet);
      }
    }
  }

  /** Between the start of the prepare that made a hold and the post-PoW session
      check of the confirm that broadcasts it, the session never changes. */
  lemma OneSessionPerBroadcast(r: Run, j: nat, h: Handed) returns (start: nat, recheck: nat)
    requires ValidRun(r) && j < |r.events|
    requires Hands(r.states[j], r.states[j + 1], h) && h.origin.ByConfirm?
    ensures start < recheck < j
    ensures r.events[start].PrepareStart?
    ensures r.states[recheck].pub.Confirming? && r.states[recheck].pub.stage == AddrRead2
    ensures r.states[recheck].pub.c.hold.id == h.origin.hold
    ensures forall k :: start <= k < recheck ==> !IsSwitch(r.events[k])
  {
    var s := r.states[j];
    RunStep(r, j);
    WhoHands(s, r.events[j], h);
    var c := s.pub.c;
    start, recheck := c.hold.start, c.recheckAt;
    StartsArePrepares(r, j, start);
    RecheckHappened(r, j, c.hold, recheck, c.quiet);
    StartsArePrepares(r, recheck, start);
    forall k | start <= k < recheck ensures !IsSwitch(r.events[k]) {
      if IsSwitch(r.events[k]) {
        SwitchesAreCounted(r, recheck, k);
      }
    }
  }

  // ---- Cancel and publish linearise

  /** An issued hold that is neither held nor latched: it can never be published. */
  ghost predicate Dead(s: State, id: nat) {
    && 0 < id <= s.mem.counter && s.mem.SlotId() != id
    && !(s.pub.Confirming? && Rank(s.pub.stage) >= 1 && s.pub.c.hold.id == id)
  }

  lemma DeadStaysDead(s: State, e: Event, id: nat)
    requires Inv(s) && Enabled(s, e) && Dead(s, id) && !e.Crash?
    ensures Dead(Next(s, e), id)
  {
    if e.Publish? {
      PublisherKeepsDead(s, e.choice, id);
    } else {
      OthersKeepDead(s, e, id);
    }
  }

  lemma OthersKeepDead(s: State, e: Event, id: nat)
    requires |s.sessions| > 0 && Enabled(s, e) && !e.Publish? && !e.Crash?
    requires s.pub.Confirming? ==> s.mem.latch == (if Rank(s.pub.stage) == 0 then 0 else s.pub.c.hold.id)
    ensures Dead(s, id) ==> Dead(Next(s, e), id)
    ensures s.pub.Confirming? ==> Next(s, e).pub == s.pub
    ensures 0 < id <= s.mem.counter && s.mem.SlotId() != id ==> Next(s, e).mem.SlotId() != id
    ensures s.mem.counter <= Next(s, e).mem.counter
  {
    hide StepPublisher, PublisherReady, ChoiceAllowed;
  }

  lemma PublisherKeepsDead(s: State, x: Choice, id: nat)
    requires Inv(s) && PublisherReady(s) && Dead(s, id)
    ensures Dead(StepPublisher(s, x), id)
  {
    match s.pub
    case Confirming(stage, c) => ConfirmKeepsDead(s, stage, c, x, id);
    case _ =>
  }

  /** How a confirm touches the slot: PoW rewrites the template of its own hold, and
      only clearing empties it, only of its own hold. */
  lemma ConfirmSlot(s: State, stage: ConfirmStage, c: Confirm, x: Choice)
    requires |s.sessions| > 0 && (stage == Journaled ==> c.client < |s.chainOf|)
    ensures var m, m' := s.mem, StepConfirm(s, stage, c, x).mem;
            && m'.counter == m.counter
            && (m'.slot.Some? ==> m.slot.Some? && m'.slot.value == m.slot.value.(template := m'.slot.value.template))
            && (m.slot.Some? && m'.slot.None? ==> stage == Clearing && m.slot.value.id == c.hold.id)
  {
    EarlySlot(s, stage, c, x);
    CommitSlot(s, stage, c, x);
    hide BeforePow, AfterPow, Commit;
  }

  lemma EarlySlot(s: State, stage: ConfirmStage, c: Confirm, x: Choice)
    requires |s.sessions| > 0
    ensures var m, m' := s.mem, BeforePow(s, stage, c, x).mem;
            && m'.counter == m.counter && (m'.slot.Some? <==> m.slot.Some?)
            && (m'.slot.Some? ==> m'.slot.value == m.slot.value.(template := m'.slot.value.template))
  {
  }

  lemma CommitSlot(s: State, stage: ConfirmStage, c: Confirm, x: Choice)
    requires Late(stage) ==> (stage == Journaled ==> c.client < |s.chainOf|)
    ensures Late(stage) ==>
              var m, m' := s.mem, Commit(s, stage, c, x).mem;
              && m'.counter == m.counter
              && (m'.slot == m.slot || (m'.slot.None? && stage == Clearing && m.SlotId() == c.hold.id))
  {
  }

  lemma ConfirmKeepsDead(s: State, stage: ConfirmStage, c: Confirm, x: Choice, id: nat)
    requires s.pub == Confirming(stage, c) && (stage == Journaled ==> c.client < |s.chainOf|) && |s.sessions| > 0
    requires Dead(s, id) && 0 < c.hold.id && s.mem.Valid()
    ensures Dead(StepConfirm(s, stage, c, x), id)
  {
    ConfirmSlot(s, stage, c, x);
    if stage == Snapped {
      assert StepConfirm(s, stage, c, x) == BeforePow(s, stage, c, x);
    }
  }

  lemma DeadNeverHands(s: State, e: Event, id: nat, h: Handed)
    requires Inv(s) && Enabled(s, e) && Dead(s, id) && Hands(s, Next(s, e), h)
    ensures h.origin != ByConfirm(id)
  {
    WhoHands(s, e, h);
  }

  lemma {:induction false} DeadUntilCrash(r: Run, i: nat, j: nat, id: nat)
    requires ValidRun(r) && i <= j < |r.states| && Dead(r.states[i], id)
    requires forall k :: i <= k < j ==> !r.events[k].Crash?
    ensures Dead(r.states[j], id)
  {
    if i < j {
      DeadUntilCrash(r, i, j - 1, id);
      RunStep(r, j - 1);
      DeadStaysDead(r.states[j - 1], r.events[j - 1], id);
    }
  }

  /** A cancel of one hold spares every other: the slot, the counter and the latch stay
      as they are, and the publishing thread goes on. */
  lemma CancelSparesOthers(r: Run, i: nat, id: nat)
    requires ValidRun(r) && i < |r.events| && r.events[i] == CancelCall(id) && id != 0
    requires r.states[i].mem.slot.Some? ==> r.states[i].mem.slot.value.id != id
    ensures r.states[i + 1].mem == r.states[i].mem && r.states[i + 1].pub == r.states[i].pub
  {
    RunStep(r, i);
    hide ValidRun, StepPublisher, PublisherReady, ChoiceAllowed;
  }

  /** And it does end the hold it names, or with id 0 whatever hold there is, unless
      that hold is latched. */
  lemma CancelEndsItsOwn(r: Run, i: nat, id: nat)
    requires ValidRun(r) && i < |r.events| && r.events[i] == CancelCall(id) && r.states[i].mem.slot.Some?
    requires id == 0 || r.states[i].mem.slot.value.id == id
    ensures
      var m, m' := r.states[i].mem, r.states[i + 1].mem;
      if m.latch != 0 && (id == 0 || id == m.latch) then m' == m else m' == m.(slot := None)
  {
    RunStep(r, i);
    hide ValidRun, StepPublisher, PublisherReady, ChoiceAllowed;
  }

  /** A cancel that succeeds kills its hold; cancelling with id 0 kills whatever was
      ever issued. */
  lemma CancelKills(s: State, id: nat, issued: nat)
    requires Inv(s) && Cancel(s.mem, id).1
    requires 0 < issued <= s.mem.counter && (id == 0 || id == issued)
    ensures Dead(Next(s, CancelCall(id)), issued)
  {
  }

  /** After a successful cancel of an issued hold no later step of the same process
      broadcasts that hold. */
  lemma CancelIsFinal(r: Run, i: nat, j: nat, id: nat, issued: nat, h: Handed)
    requires ValidRun(r) && i < j < |r.events|
    requires r.events[i] == CancelCall(id) && Cancel(r.states[i].mem, id).1
    requires 0 < issued <= r.states[i].mem.counter && (id == 0 || id == issued)
    requires Hands(r.states[j], r.states[j + 1], h) && h.origin == ByConfirm(issued)
    ensures exists k :: i < k < j && r.events[k].Crash?
  {
    if forall k :: i < k < j ==> !r.events[k].Crash? {
      RunStep(r, i);
      CancelKills(r.states[i], id, issued);
      DeadUntilCrash(r, i + 1, j, issued);
      RunStep(r, j);
      DeadNeverHands(r.states[j], r.events[j], issued, h);
    }
  }

  /** A refused cancel is refused because that publication is under way. */
  lemma CancelRefusedOnlyWhilePublishing(r: Run, i: nat, id: nat)
    requires ValidRun(r) && i < |r.states|
    ensures Cancel(r.states[i].mem, id).1 <==>
            !(r.states[i].pub.Confirming? && Rank(r.states[i].pub.stage) >= 1 && (id == 0 || id == r.states[i].pub.c.hold.id))
  {
    RunKeeps(r, i);
  }

  /** Handed over already: what is left is to mark, clear and unlatch. */
  ghost predicate Spent(s: State, id: nat) {
    || Dead(s, id)
    || (s.pub.Confirming? && s.pub.c.hold.id == id && s.pub.stage in {Accepted, Clearing})
    || (s.pub.Confirming? && s.pub.c.hold.id == id && s.pub.stage == Unlatching && s.mem.SlotId() != id)
  }

  lemma SpentStaysSpent(s: State, e: Event, id: nat)
    requires Inv(s) && Enabled(s, e) && Spent(s, id) && !e.Crash?
    ensures Spent(Next(s, e), id)
  {
    if Dead(s, id) {
      DeadStaysDead(s, e, id);
    } else if e.Publish? {
      ReleaseSpends(s, e.choice, id);
    } else {
      OthersKeepDead(s, e, id);
      hide Step, Enabled;
    }
  }

  lemma ReleaseSpends(s: State, x: Choice, id: nat)
    requires Inv(s) && PublisherReady(s) && Spent(s, id) && s.pub.Confirming? && s.pub.c.hold.id == id
    requires s.pub.stage in {Accepted, Clearing, Unlatching}
    ensures Spent(StepPublisher(s, x), id)
  {
  }

  lemma SpentNeverHands(s: State, e: Event, id: nat, h: Handed)
    requires Inv(s) && Enabled(s, e) && Spent(s, id) && Hands(s, Next(s, e), h)
    ensures h.origin != ByConfirm(id)
  {
    WhoHands(s, e, h);
  }

  lemma HandingSpends(s: State, e: Event, id: nat, h: Handed)
    requires Inv(s) && Enabled(s, e) && Hands(s, Next(s, e), h) && h.origin == ByConfirm(id)
    ensures Spent(Next(s, e), id)
  {
    WhoHands(s, e, h);
  }

  lemma {:induction false} SpentUntilCrash(r: Run, i: nat, j: nat, id: nat)
    requires ValidRun(r) && i <= j < |r.states| && Spent(r.states[i], id)
    requires forall k :: i <= k < j ==> !r.events[k].Crash?
    ensures Spent(r.states[j], id)
  {
    if i < j {
      SpentUntilCrash(r, i, j - 1, id);
      RunStep(r, j - 1);
      SpentStaysSpent(r.states[j - 1], r.events[j - 1], id);
    }
  }

  /** A hold id reaches a node at most once per process. */
  lemma HoldPublishesOnce(r: Run, i: nat, j: nat, id: nat, g: Handed, h: Handed)
    requires ValidRun(r) && i < j < |r.events|
    requires Hands(r.states[i], r.states[i + 1], g) && g.origin == ByConfirm(id)
    requires Hands(r.states[j], r.states[j + 1], h) && h.origin == ByConfirm(id)
    ensures exists k :: i < k < j && r.events[k].Crash?
  {
    if forall k :: i < k < j ==> !r.events[k].Crash? {
      RunStep(r, i);
      HandingSpends(r.states[i], r.events[i], id, g);
      SpentUntilCrash(r, i + 1, j, id);
      RunStep(r, j);
      SpentNeverHands(r.states[j], r.events[j], id, h);
    }
  }

  /** A publishing thread empties the slot only of the hold it confirmed, however
      the slot changed under it. */
  lemma ConfirmClearsOnlyItsOwn(s: State, x: Choice)
    requires Inv(s) && Enabled(s, Publish(x)) && s.mem.slot.Some?
    requires Next(s, Publish(x)).mem.SlotId() != s.mem.SlotId()
    ensures s.pub.Confirming? && s.pub.stage == Clearing && s.pub.c.hold.id == s.mem.SlotId()
    ensures Next(s, Publish(x)).mem.slot.None?
  {
    match s.pub
    case Confirming(stage, c) => ConfirmSlot(s, stage, c, x);
    case _ =>
  }
}
