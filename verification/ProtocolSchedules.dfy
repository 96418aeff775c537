/** Which schedules keep the rule that exactly-once needs, and what happens
    without each of its clauses. */
module ProtocolSchedules {
  import opened TxTypes
  import opened TxHold
  import opened Journal
  import opened Protocol
  import opened ProtocolInvariant
  import opened ProtocolSafety
  import opened ProtocolExactlyOnce

  predicate WcPrepare(s: State, tid: nat) {
    tid in s.prepares && s.prepares[tid].wc.Some?
  }

  ghost predicate WcPreparing(s: State) {
    exists tid :: WcPrepare(s, tid)
  }

  ghost predicate NothingWritten(s: State) {
    forall tid :: WcPrepare(s, tid) ==> s.prepares[tid].puts == s.puts
  }

  // ---- Serial callers: a WalletConnect request is prepared, or confirmed, one at a
  //      time; first-party prepares and confirms come and go as they like

  /** The slot holds a WalletConnect request under this id, its identity attached or
      about to be. */
  ghost predicate RequestHold(s: State, id: nat) {
    && s.mem.slot.Some? && s.mem.slot.value.id == id
    && (s.mem.slot.value.wc.Some? || exists tid :: HalfAttached(s.mem, s.prepares, tid))
  }

  ghost predicate RequestConfirm(s: State) {
    || (s.pub.Starting? && RequestHold(s, s.pub.want))
    || (s.pub.Confirming? && s.pub.c.hold.wc.Some?)
  }

  /** A confirm names an id that was issued, and the confirm of a request does not
      overlap the prepare of one, which LookupKey begins.  The store's own calls never
      do; a first-party confirm names the hold of its own prepare, so the rule leaves
      it free. */
  ghost predicate Serial(s: State, e: Event) {
    && (e.LookupKey? ==> !RequestConfirm(s))
    && (e.ConfirmStart? ==> e.want <= s.mem.counter && (RequestHold(s, e.want) ==> !WcPreparing(s)))
  }

  ghost predicate SerialOk(s: State) {
    && (WcPreparing(s) ==> !RequestConfirm(s))
    && (s.pub.Starting? ==> s.pub.want <= s.mem.counter)
    && NothingWritten(s)
  }

  lemma PreparesComeFromLookups(s: State, e: Event, tid: nat)
    requires |s.sessions| > 0 && Enabled(s, e) && WcPrepare(Next(s, e), tid)
    ensures (e.LookupKey? && e.tid == tid && Next(s, e).prepares[tid].puts == Next(s, e).puts) ||
            (WcPrepare(s, tid) && Next(s, e).prepares[tid].puts == s.prepares[tid].puts)
  {
    if e.Publish? {
      assert PublisherFrame(s, StepPublisher(s, e.choice));
      hide PublisherReady, ChoiceAllowed, StepPublisher;
    } else if IsPrepare(e) {
      hide PublisherReady, ChoiceAllowed, StepPublisher, HoldPending, Attach, NoSameTopicMatch, NoCrossTopicMatch;
    } else {
      PreparesOfOutsiders(s, e);
      hide Step, Enabled;
    }
  }

  lemma OnlyConfirmsWrite(s: State, e: Event)
    requires |s.sessions| > 0 && Enabled(s, e)
    ensures Next(s, e).puts != s.puts ==>
              e.Publish? && s.pub.Confirming? && s.pub.stage == Consented && s.pub.c.hold.wc.Some?
  {
    if e.Publish? {
      PublisherWrites(s, e.choice);
      hide StepPublisher, PublisherReady, ChoiceAllowed;
    } else {
      hide StepPublisher, PublisherReady, ChoiceAllowed, HoldPending, Attach, Cancel;
    }
  }

  lemma PublisherWrites(s: State, x: Choice)
    requires |s.sessions| > 0 && PublisherReady(s)
    ensures StepPublisher(s, x).puts != s.puts ==>
              s.pub.Confirming? && s.pub.stage == Consented && s.pub.c.hold.wc.Some?
  {
    hide BeforePow, AfterPow, StepReceive, StepReconcile;
  }

  /** No step but the prepare of a request turns an issued id into a request's hold. */
  lemma RequestHoldsAreNew(s: State, e: Event, id: nat)
    requires |s.sessions| > 0 && Enabled(s, e) && id <= s.mem.counter
    ensures RequestHold(Next(s, e), id) ==> RequestHold(s, id)
  {
    if e.Publish? {
      SlotOfPublisher(s, e.choice);
      KeepsRequestHolds(s, StepPublisher(s, e.choice), id);
    } else if e.PrepareHold? {
      HoldStepIs(s, e);
    } else if e.PrepareAttach? {
      AttachOnlyCompletes(s, e, id);
    } else {
      SlotOfOthers(s, e);
      KeepsRequestHolds(s, Next(s, e), id);
    }
  }

  lemma KeepsRequestHolds(s: State, u: State, id: nat)
    requires u.mem.slot.Some? ==> s.mem.slot.Some? && u.mem.slot.value.id == s.mem.slot.value.id && u.mem.slot.value.wc == s.mem.slot.value.wc
    requires forall tid :: tid in u.prepares && u.prepares[tid].stage == Held ==> tid in s.prepares && u.prepares[tid] == s.prepares[tid]
    ensures RequestHold(u, id) ==> RequestHold(s, id)
  {
    if RequestHold(u, id) && u.mem.slot.value.wc.None? {
      var tid :| HalfAttached(u.mem, u.prepares, tid);
      assert HalfAttached(s.mem, s.prepares, tid);
    }
  }

  lemma AttachOnlyCompletes(s: State, e: Event, id: nat)
    requires |s.sessions| > 0 && Enabled(s, e) && e.PrepareAttach?
    ensures RequestHold(Next(s, e), id) ==> RequestHold(s, id)
  {
    var u := Next(s, e);
    assert u.mem.slot != s.mem.slot ==> HalfAttached(s.mem, s.prepares, e.tid);
    if u.mem.slot == s.mem.slot {
      KeepsRequestHolds(s, u, id);
    }
  }

  /** The publishing thread leaves identities and prepares alone. */
  lemma SlotOfPublisher(s: State, x: Choice)
    requires |s.sessions| > 0 && PublisherReady(s)
    ensures var u := StepPublisher(s, x);
            && u.prepares == s.prepares && u.mem.counter == s.mem.counter
            && (u.mem.slot.Some? ==>
                  && s.mem.slot.Some? && u.mem.slot.value.id == s.mem.slot.value.id
                  && u.mem.slot.value.wc == s.mem.slot.value.wc)
  {
    hide AfterPow, StepReceive, StepReconcile;
    assert PublisherFrame(s, StepPublisher(s, x));
    match s.pub
    case Confirming(stage, c) => SlotOfConfirm(s, stage, c, x);
    case _ =>
  }

  lemma SlotOfConfirm(s: State, stage: ConfirmStage, c: Confirm, x: Choice)
    requires |s.sessions| > 0 && (stage == Journaled ==> c.client < |s.chainOf|)
    ensures var u := StepConfirm(s, stage, c, x);
            && u.mem.counter == s.mem.counter
            && (u.mem.slot.Some? ==>
                  && s.mem.slot.Some? && u.mem.slot.value.id == s.mem.slot.value.id
                  && u.mem.slot.value.wc == s.mem.slot.value.wc)
  {
    if Early(stage) {
      MemBeforePow(s, stage, c, x);
      hide BeforePow, AfterPow, Commit;
    } else {
      MemOfCommit(s, stage, c, x);
      hide BeforePow, AfterPow, Commit;
    }
  }

  lemma MemBeforePow(s: State, stage: ConfirmStage, c: Confirm, x: Choice)
    requires |s.sessions| > 0
    ensures var mem := BeforePow(s, stage, c, x).mem;
            mem == s.mem || mem == Latch(s.mem, c.hold.id).0 || mem == Overwrite(s.mem, c.hold.id, x.template)
  {
    hide SessionOk, Latch, Overwrite;
  }

  lemma MemOfCommit(s: State, stage: ConfirmStage, c: Confirm, x: Choice)
    requires stage == Journaled ==> c.client < |s.chainOf|
    ensures Late(stage) ==>
              Commit(s, stage, c, x).mem ==
                if stage == Clearing then ClearIf(s.mem, c.hold.id) else if stage == Unlatching then Unlatch(s.mem) else s.mem
  {
    hide Put, MarkPublished, ClearIf, Unlatch, RecordOf;
  }

  lemma StartChangesNoHold(s: State, e: Event)
    requires |s.sessions| > 0 && Enabled(s, e) && e.ConfirmStart?
    ensures RequestHold(Next(s, e), e.want) ==> RequestHold(s, e.want)
  {
    assert Next(s, e).prepares == s.prepares;
  }

  lemma PubOfPublisher(s: State, x: Choice)
    requires |s.sessions| > 0 && PublisherReady(s)
    ensures !StepPublisher(s, x).pub.Starting?
    ensures StepPublisher(s, x).pub.Confirming? && StepPublisher(s, x).pub.c.hold.wc.Some? ==> RequestConfirm(s)
  {
    hide StepConfirm, StepReceive, StepReconcile;
  }

  lemma CounterGrows(s: State, e: Event)
    requires |s.sessions| > 0 && Enabled(s, e)
    ensures !e.Crash? ==> Next(s, e).mem.counter >= s.mem.counter
  {
    if e.Publish? {
      SlotOfPublisher(s, e.choice);
    }
    hide PublisherReady, ChoiceAllowed, StepPublisher, NoSameTopicMatch, NoCrossTopicMatch;
  }

  lemma CallsAreNamed(s: State, e: Event)
    requires |s.sessions| > 0 && Enabled(s, e) && Next(s, e).pub.Starting?
    ensures Next(s, e).mem.counter >= s.mem.counter
    ensures if e.ConfirmStart? then Next(s, e).pub.want == e.want else Next(s, e).pub == s.pub
  {
    CounterGrows(s, e);
    PubOfStep(s, e);
    hide Step, Enabled, StepPublisher;
  }

  lemma PubOfStep(s: State, e: Event)
    requires |s.sessions| > 0 && Enabled(s, e)
    ensures var pub := Next(s, e).pub;
            || (e.ConfirmStart? && pub == Starting(e.want))
            || (!e.Crash? && !e.Publish? && pub == s.pub)
            || (e.Publish? && pub.Confirming? && (pub.c.hold.wc.Some? ==> RequestConfirm(s)))
            || pub.Free? || pub.Receiving? || pub.Reconciling?
  {
    if e.Publish? {
      PubOfPublisher(s, e.choice);
      hide StepPublisher;
    } else if IsPrepare(e) {
      PubOfPrepares(s, e);
      hide Step, Enabled;
    } else {
      PubOfOutsiders(s, e);
      hide Step, Enabled;
    }
  }

  /** A confirm of a request's hold has been one since it was called. */
  lemma RequestConfirmsLast(s: State, e: Event)
    requires |s.sessions| > 0 && SerialOk(s) && Enabled(s, e) && RequestConfirm(Next(s, e))
    ensures RequestConfirm(s) || (e.ConfirmStart? && RequestHold(s, e.want))
  {
    hide Step, Enabled;
    if Next(s, e).pub.Confirming? {
      PubOfStep(s, e);
    } else {
      CallsAreNamed(s, e);
      if e.ConfirmStart? { StartChangesNoHold(s, e); } else { RequestHoldsAreNew(s, e, s.pub.want); }
    }
  }

  lemma SerialKeeps(s: State, e: Event)
    requires |s.sessions| > 0 && SerialOk(s) && Enabled(s, e) && Serial(s, e)
    ensures SerialOk(Next(s, e))
  {
    hide Step, Enabled;
    OnlyConfirmsWrite(s, e);
    if Next(s, e).pub.Starting? {
      CallsAreNamed(s, e);
    }
    forall tid | WcPrepare(Next(s, e), tid)
      ensures Next(s, e).prepares[tid].puts == Next(s, e).puts && !RequestConfirm(Next(s, e))
    {
      PreparesComeFromLookups(s, e, tid);
      if RequestConfirm(Next(s, e)) { RequestConfirmsLast(s, e); }
    }
  }

  /** Only the prepare of a request is ever half attached. */
  lemma HeldIsRequest(s: State)
    requires Inv(s)
    ensures forall tid :: HalfAttached(s.mem, s.prepares, tid) ==> WcPrepare(s, tid)
  {
  }

  lemma SerialIsDisciplined(s: State, e: Event)
    requires Inv(s) && SerialOk(s) && Enabled(s, e)
    ensures Disciplined(s, e)
  {
    if e.PrepareHold? && s.prepares[e.tid].wc.Some? {
      assert WcPrepare(s, e.tid);
    }
    HeldIsRequest(s);
  }

  // ---- Atomic sections: lookup to attach, session change to callback, and
  //      session recheck to journal write run without interruption

  predicate InWindow(s: State) {
    s.pub.Confirming? && s.pub.stage in {Rechecked, Matched, ChainOk2, Consented}
  }

  ghost predicate Atomic(s: State, e: Event) {
    && (s.clearDue ==> e.ClearCallback? || e.Crash?)
    && (InWindow(s) ==> e.Publish? || e.Crash?)
    && (WcPreparing(s) ==> IsPrepare(e) || e.Crash?)
  }

  /** Why the slot is safe then: a latched hold that left it has lost its session. */
  ghost predicate LatchedHoldOrMoved(s: State)
    requires |s.sessions| > 0
  {
    s.pub.Confirming? ==>
      && (s.clearDue ==> s.pub.c.hold.gen < Gen(s))
      && (1 <= Rank(s.pub.stage) <= 9 && s.pub.stage !in {Clearing, Unlatching} && s.mem.SlotId() != s.pub.c.hold.id ==>
            s.pub.c.hold.gen < Gen(s))
      && (InWindow(s) ==> s.mem.SlotId() == s.pub.c.hold.id)
  }

  ghost predicate AtomicOk(s: State)
    requires |s.sessions| > 0
  {
    LatchedHoldOrMoved(s) && NothingWritten(s)
  }

  lemma AtomicKeeps(s: State, e: Event)
    requires Inv(s) && AtomicOk(s) && Enabled(s, e) && Atomic(s, e)
    ensures AtomicOk(Next(s, e))
  {
    OnlyConfirmsWrite(s, e);
    forall tid | WcPrepare(Next(s, e), tid) ensures Next(s, e).prepares[tid].puts == Next(s, e).puts {
      PreparesComeFromLookups(s, e, tid);
    }
    if e.Publish? {
      if s.pub.Confirming? {
        LatchedStaysOrMoved(s, s.pub.stage, s.pub.c, e.choice);
      }
    } else {
      OthersKeepLatched(s, e);
    }
  }

  lemma LatchedStaysOrMoved(s: State, stage: ConfirmStage, c: Confirm, x: Choice)
    requires Inv(s) && LatchedHoldOrMoved(s) && s.pub == Confirming(stage, c) && PublisherReady(s) && !s.clearDue
    ensures LatchedHoldOrMoved(StepConfirm(s, stage, c, x))
  {
    if Early(stage) {
      EarlyStaysOrMoved(s, stage, c, x);
    } else if !Late(stage) {
      RecheckedStays(s, stage, c, x);
    }
  }

  lemma EarlyStaysOrMoved(s: State, stage: ConfirmStage, c: Confirm, x: Choice)
    requires |s.sessions| > 0 && LatchedHoldOrMoved(s) && s.pub == Confirming(stage, c) && !s.clearDue && Early(stage)
    ensures LatchedHoldOrMoved(BeforePow(s, stage, c, x))
  {
  }

  lemma RecheckedStays(s: State, stage: ConfirmStage, c: Confirm, x: Choice)
    requires |s.sessions| > 0 && LatchedHoldOrMoved(s) && s.pub == Confirming(stage, c) && !s.clearDue
    requires !Early(stage) && !Late(stage)
    ensures LatchedHoldOrMoved(AfterPow(s, stage, c, x))
  {
  }

  lemma OthersKeepLatched(s: State, e: Event)
    requires Inv(s) && LatchedHoldOrMoved(s) && Enabled(s, e) && Atomic(s, e) && !e.Publish?
    ensures LatchedHoldOrMoved(Next(s, e))
  {
    if IsPrepare(e) { PreparesKeepLatched(s, e); } else { OutsidersKeepLatched(s, e); }
  }

  lemma PreparesKeepLatched(s: State, e: Event)
    requires Inv(s) && LatchedHoldOrMoved(s) && Enabled(s, e) && Atomic(s, e) && IsPrepare(e)
    ensures LatchedHoldOrMoved(Next(s, e))
  {
    ConfirmIdFacts(s);
    SlotIdOfPrepares(s, e);
    hide Core, Step, Enabled;
  }

  lemma ConfirmIdFacts(s: State)
    requires Inv(s)
    ensures s.pub.Confirming? ==> 0 < s.pub.c.hold.id <= s.mem.counter
  {
  }

  /** A prepare never gives the slot an older id, nor leaves the session or the
      publishing thread changed. */
  lemma SlotIdOfPrepares(s: State, e: Event)
    requires |s.sessions| > 0 && Enabled(s, e) && IsPrepare(e)
    ensures
      var u := Next(s, e);
      && u.pub == s.pub && u.sessions == s.sessions && u.clearDue == s.clearDue
      && (u.mem.SlotId() == s.mem.SlotId() || (s.mem.slot.None? && u.mem.SlotId() == s.mem.counter + 1))
  {
    if e.PrepareHold? {
      HoldStepIs(s, e);
      hide Enabled, Step;
    } else {
      hide Enabled, StepPublisher, HoldPending;
    }
  }

  lemma OutsidersKeepLatched(s: State, e: Event)
    requires Inv(s) && LatchedHoldOrMoved(s) && Enabled(s, e) && Atomic(s, e) && !IsPrepare(e) && !e.Publish?
    ensures LatchedHoldOrMoved(Next(s, e))
  {
    hide StepPublisher, PublisherReady, ChoiceAllowed, HoldPending, Attach, NoSameTopicMatch, NoCrossTopicMatch;
  }

  lemma AtomicIsDisciplined(s: State, e: Event)
    requires Inv(s) && AtomicOk(s) && Enabled(s, e) && Atomic(s, e)
    ensures Disciplined(s, e)
  {
    if e.PrepareHold? && s.prepares[e.tid].wc.Some? {
      assert WcPrepare(s, e.tid);
    }
    HeldIsRequest(s);
  }

  // ---- Both schedules publish exactly once

  ghost predicate SerialRun(r: Run) {
    ValidRun(r) && forall i :: 0 <= i < |r.events| ==> Serial(r.states[i], r.events[i])
  }

  ghost predicate AtomicRun(r: Run) {
    ValidRun(r) && forall i :: 0 <= i < |r.events| ==> Atomic(r.states[i], r.events[i])
  }

  lemma {:induction false} SerialRunKeeps(r: Run, i: nat)
    requires SerialRun(r) && i < |r.states|
    ensures SerialOk(r.states[i])
  {
    if i > 0 {
      SerialRunKeeps(r, i - 1);
      RunStep(r, i - 1);
      SerialKeeps(r.states[i - 1], r.events[i - 1]);
    }
  }

  /** Callers whose request prepares and request confirms never overlap keep the
      rule, however first-party prepares and confirms, sessions, cancels and
      connections interleave. */
  lemma SerialCallersAreDisciplined(r: Run)
    requires SerialRun(r)
    ensures DisciplinedRun(r)
  {
    forall i | 0 <= i < |r.events| ensures DisciplinedStep(r, i) {
      RunStep(r, i);
      RunKeeps(r, i);
      SerialRunKeeps(r, i);
      SerialIsDisciplined(r.states[i], r.events[i]);
    }
  }

  lemma {:induction false} AtomicRunKeeps(r: Run, i: nat)
    requires AtomicRun(r) && i < |r.states|
    ensures |r.states[i].sessions| > 0 && AtomicOk(r.states[i])
  {
    if i > 0 {
      AtomicRunKeeps(r, i - 1);
      RunStep(r, i - 1);
      RunKeeps(r, i);
      AtomicKeeps(r.states[i - 1], r.events[i - 1]);
    }
  }

  /** So do the atomic sections, prepares and confirms overlapping freely. */
  lemma AtomicSectionsAreDisciplined(r: Run)
    requires AtomicRun(r)
    ensures DisciplinedRun(r)
  {
    forall i | 0 <= i < |r.events| ensures DisciplinedStep(r, i) {
      RunStep(r, i);
      AtomicRunKeeps(r, i);
      AtomicIsDisciplined(r.states[i], r.events[i]);
    }
  }

  lemma PracticeIsDisciplined(r: Run)
    requires SerialRun(r) || AtomicRun(r)
    ensures DisciplinedRun(r)
  {
    if SerialRun(r) { SerialCallersAreDisciplined(r); } else { AtomicSectionsAreDisciplined(r); }
  }

  /** Exactly-once for the callers there are: with serial request calls, and equally
      with atomic sections under any overlap, only one block is ever handed to a node
      for an intent until its record is acknowledged. */
  lemma ExactlyOnceInPractice(r: Run, i: nat, j: nat, g: Handed, h: Handed)
    requires (SerialRun(r) || AtomicRun(r)) && i <= j < |r.events|
    requires Hands(r.states[i], r.states[i + 1], g) && Hands(r.states[j], r.states[j + 1], h)
    requires g.wc.Some? && h.wc.Some? && g.wc.value.intent == h.wc.value.intent
    ensures g.block == h.block || exists k :: i <= k < j && Forgets(r.states[k], r.events[k], g.wc.value.key, g.wc.value.intent)
  {
    PracticeIsDisciplined(r);
    ExactlyOnce(r, i, j, g, h);
  }

  /** Durability for the same callers. */
  lemma WriteAheadInPractice(r: Run, i: nat, n: nat)
    requires (SerialRun(r) || AtomicRun(r)) && i < |r.states| && n < |r.states[i].log.handed|
    ensures Durable(r.states[i], r.states[i].log.handed[n])
  {
    PracticeIsDisciplined(r);
    WriteAhead(r, i, n);
  }
}
