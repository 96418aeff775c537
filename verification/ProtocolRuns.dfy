/** Building runs step by step: whole prepares, confirms, receives and reconciles
    that nothing disturbs, from any state that is ready for them. */
module ProtocolRuns {
  import opened TxTypes
  import opened TxHold
  import opened Journal
  import opened Protocol
  import opened ProtocolExactlyOnce

  /** The clause of the scheduling rule that a run may break, if any. */
  datatype Clause = Current | Alone | Returned | NoClause

  /** The event keeps the clauses of the rule other than `but`. */
  ghost predicate Abides(s: State, e: Event, but: Clause)
    requires |s.sessions| > 0
  {
    && (but != Current ==> HoldsCurrent(s, e))
    && (but != Alone ==> HoldsAlone(s, e))
    && (but != Returned ==> ConfirmsReturned(s, e))
  }

  ghost predicate StepAbides(r: Run, i: nat, but: Clause)
    requires i < |r.events| && |r.states| == |r.events| + 1
  {
    |r.states[i].sessions| > 0 && Abides(r.states[i], r.events[i], but)
  }

  /** A run that keeps the clauses other than `but` throughout. */
  ghost predicate AllBut(r: Run, but: Clause) {
    ValidRun(r) && forall i :: 0 <= i < |r.events| ==> StepAbides(r, i, but)
  }

  ghost predicate Reaches(r: Run, but: Clause, s: State) {
    AllBut(r, but) && r.states[|r.states| - 1] == s
  }

  lemma Extend(r: Run, but: Clause, s: State, e: Event) returns (r': Run)
    requires Reaches(r, but, s) && |s.sessions| > 0 && Enabled(s, e) && Abides(s, e, but)
    ensures Reaches(r', but, Next(s, e))
  {
    r' := Run(r.states + [Next(s, e)], r.events + [e]);
    hide Enabled, Next, Abides;
    forall i | 0 <= i < |r'.events| ensures ValidStep(r', i) && StepAbides(r', i, but) {
      if i < |r.events| {
        assert ValidStep(r, i) && StepAbides(r, i, but);
        assert r'.states[i] == r.states[i] && r'.states[i + 1] == r.states[i + 1] && r'.events[i] == r.events[i];
      }
    }
  }

  /** Steps the rule says nothing about. */
  lemma Go(r: Run, but: Clause, s: State, e: Event) returns (r': Run)
    requires Reaches(r, but, s) && |s.sessions| > 0 && Enabled(s, e) && !e.PrepareHold? && !(e.Publish? && s.pub.Starting?)
    ensures Reaches(r', but, Next(s, e))
  {
    hide Reaches, Enabled, Next;
    r' := Extend(r, but, s, e);
  }

  lemma GoConfirm(r: Run, but: Clause, s: State, stage: ConfirmStage, c: Confirm, x: Choice) returns (r': Run, s': State)
    requires Reaches(r, but, s) && |s.sessions| > 0 && s.pub == Confirming(stage, c)
    requires PublisherReady(s) && ChoiceAllowed(s, x)
    ensures Reaches(r', but, s') && s' == StepConfirm(s, stage, c, x).(clock := s.clock + 1)
  {
    hide Reaches, StepConfirm;
    r' := Go(r, but, s, Publish(x));
    s' := Next(s, Publish(x));
  }

  lemma AllKept(r: Run)
    requires AllBut(r, NoClause)
    ensures DisciplinedRun(r)
  {
    forall i | 0 <= i < |r.events| ensures DisciplinedStep(r, i) {
      assert StepAbides(r, i, NoClause);
    }
  }

  /** The hold is of the current session and of the installed connection. */
  ghost predicate Ready(s: State, h: Hold) {
    && |s.sessions| > 0 && Active(s) == Some(h.approved.sender) && Gen(s) == h.gen && h.id != 0
    && h.template == Template(h.approved, s.chainId)
    && s.client.Some? && s.client.value < |s.chainOf|
  }

  /** What the proof of work is expected to make of a hold. */
  predicate Finalizes(s: State, h: Hold, block: Block) {
    block.effect == h.approved && block.chain == s.chainId && block.signer == h.approved.sender
  }

  function Go1(h: Hold, block: Block): Choice {
    Choice(true, h.template, block, Ok)
  }

  // ---- A confirm

  lemma ConfirmStarts(r: Run, but: Clause, s: State, h: Hold) returns (r': Run, s': State)
    requires Reaches(r, but, s) && |s.sessions| > 0 && s.pub.Free? && s.mem.slot == Some(h) && h.id != 0
    ensures Reaches(r', but, s') && s' == s.(pub := Starting(h.id), clock := s.clock + 1)
  {
    hide Reaches;
    r' := Go(r, but, s, ConfirmStart(h.id));
    s' := Next(s, ConfirmStart(h.id));
  }

  lemma ConfirmSnaps(r: Run, but: Clause, s: State, h: Hold) returns (r': Run, s': State, c: Confirm)
    requires Reaches(r, but, s) && |s.sessions| > 0 && s.pub == Starting(h.id) && s.mem.slot == Some(h) && h.id != 0
    requires but == Returned || ReturnedHold(s, h.id)
    ensures Reaches(r', but, s') && c.hold == h && s' == s.(pub := Confirming(Snapped, c), clock := s.clock + 1)
  {
    hide Reaches, StepConfirm, StepReceive, StepReconcile;
    r' := Extend(r, but, s, Publish(Go1(h, NO_BLOCK)));
    s' := Next(s, Publish(Go1(h, NO_BLOCK)));
    c := s'.pub.c;
  }

  /** A confirm of `h` reaches its first session check. */
  lemma ConfirmToLatch(r: Run, but: Clause, s: State, h: Hold) returns (r': Run, s': State, c: Confirm)
    requires Reaches(r, but, s) && |s.sessions| > 0 && s.pub.Free? && s.mem.slot == Some(h) && h.id != 0
    requires but == Returned || ReturnedHold(s, h.id)
    ensures Reaches(r', but, s') && c.hold == h
    ensures s' == s.(pub := Confirming(Latched, c), mem := s.mem.(latch := h.id), clock := s'.clock)
  {
    hide Reaches, AfterPow, Commit, Overwrite, SessionOk;
    r', s' := ConfirmStarts(r, but, s, h);
    r', s', c := ConfirmSnaps(r', but, s', h);
    r', s' := GoConfirm(r', but, s', Snapped, c, Go1(h, NO_BLOCK));
  }

  /** It passes the session and effect checks. */
  lemma ConfirmToEffect(r: Run, but: Clause, s: State, c: Confirm) returns (r': Run, s': State, c': Confirm)
    requires Reaches(r, but, s) && Ready(s, c.hold) && s.pub == Confirming(Latched, c)
    ensures Reaches(r', but, s') && c'.hold == c.hold && s' == s.(pub := Confirming(EffectOk, c'), clock := s'.clock)
  {
    hide Reaches, AfterPow, Commit, Overwrite, Latch;
    r', s' := GoConfirm(r, but, s, Latched, c, Go1(c.hold, NO_BLOCK));
    c' := s'.pub.c;
    r', s' := GoConfirm(r', but, s', AddrRead1, c', Go1(c.hold, NO_BLOCK));
    r', s' := GoConfirm(r', but, s', Live, c', Go1(c.hold, NO_BLOCK));
  }

  /** It reads key, client and chain. */
  lemma ConfirmToChain(r: Run, but: Clause, s: State, c: Confirm) returns (r': Run, s': State, c': Confirm)
    requires Reaches(r, but, s) && Ready(s, c.hold) && s.pub == Confirming(EffectOk, c)
    ensures Reaches(r', but, s') && c'.hold == c.hold && c'.signer == c.hold.approved.sender && Some(c'.client) == s.client
    ensures s' == s.(pub := Confirming(ChainOk, c'), clock := s'.clock)
  {
    hide Reaches, AfterPow, Commit, Overwrite, Latch, SessionOk;
    r', s' := GoConfirm(r, but, s, EffectOk, c, Go1(c.hold, NO_BLOCK));
    c' := s'.pub.c;
    r', s' := GoConfirm(r', but, s', Keyed, c', Go1(c.hold, NO_BLOCK));
    c' := s'.pub.c;
    r', s' := GoConfirm(r', but, s', Cliented, c', Go1(c.hold, NO_BLOCK));
  }

  lemma ConfirmToBuilt(r: Run, but: Clause, s: State, c: Confirm, block: Block) returns (r': Run, s': State, c': Confirm)
    requires Reaches(r, but, s) && |s.sessions| > 0 && s.pub == Confirming(ChainOk, c) && c.signer == block.signer
    requires s.mem.SlotId() == c.hold.id != 0 ==> s.mem.slot.value.template == c.hold.template
    requires c.hold.id != 0
    ensures Reaches(r', but, s') && c' == c.(block := block) && s' == s.(pub := Confirming(Built, c'), clock := s'.clock)
  {
    hide Reaches, AfterPow, Commit, Latch, SessionOk;
    r', s' := GoConfirm(r, but, s, ChainOk, c, Go1(c.hold, block));
    c' := s'.pub.c;
    assert s'.mem == s.mem;
  }

  /** The session is checked again. */
  lemma ConfirmToRecheck(r: Run, but: Clause, s: State, c: Confirm) returns (r': Run, s': State, c': Confirm)
    requires Reaches(r, but, s) && Ready(s, c.hold) && s.pub == Confirming(Built, c)
    ensures Reaches(r', but, s') && c'.hold == c.hold && c'.block == c.block && c'.client == c.client
    ensures s' == s.(pub := Confirming(Rechecked, c'), clock := s'.clock)
  {
    hide Reaches, BeforePow, Commit;
    r', s' := GoConfirm(r, but, s, Built, c, Go1(c.hold, NO_BLOCK));
    c' := s'.pub.c;
    r', s' := GoConfirm(r', but, s', AddrRead2, c', Go1(c.hold, NO_BLOCK));
    c' := s'.pub.c;
  }

  lemma ConfirmToConsent(r: Run, but: Clause, s: State, c: Confirm) returns (r': Run, s': State)
    requires Reaches(r, but, s) && |s.sessions| > 0 && s.pub == Confirming(Rechecked, c) && Finalizes(s, c.hold, c.block)
    ensures Reaches(r', but, s') && s' == s.(pub := Confirming(Consented, c), clock := s'.clock)
  {
    hide Reaches, StepConfirm;
    r', s' := ConfirmMoves(r, but, s, Rechecked, Matched, c);
    r', s' := ConfirmMoves(r', but, s', Matched, ChainOk2, c);
    r', s' := ConfirmMoves(r', but, s', ChainOk2, Consented, c);
  }

  lemma ConfirmMoves(r: Run, but: Clause, s: State, stage: ConfirmStage, stage': ConfirmStage, c: Confirm) returns (r': Run, s': State)
    requires Reaches(r, but, s) && |s.sessions| > 0 && s.pub == Confirming(stage, c) && Finalizes(s, c.hold, c.block)
    requires stage' == match stage { case Rechecked => Matched case Matched => ChainOk2 case _ => Consented }
    requires stage in {Rechecked, Matched, ChainOk2}
    ensures Reaches(r', but, s') && s' == s.(pub := Confirming(stage', c), clock := s.clock + 1)
  {
    hide Reaches, BeforePow, Commit, SessionOk;
    r', s' := GoConfirm(r, but, s, stage, c, Go1(c.hold, NO_BLOCK));
  }

  function Recorded(j: Records<Key>, wc: Option<Ident>, block: Block): Records<Key> {
    if wc.Some? then j[wc.value.key := RecordOf(wc.value, block)] else j
  }

  lemma ConfirmToJournal(r: Run, but: Clause, s: State, c: Confirm) returns (r': Run, s': State)
    requires Reaches(r, but, s) && |s.sessions| > 0 && |s.journal| < MAX_RECORDS && s.pub == Confirming(Consented, c)
    ensures Reaches(r', but, s')
    ensures s' == s.(pub := Confirming(Journaled, c), clock := s'.clock, journal := Recorded(s.journal, c.hold.wc, c.block),
                     puts := if c.hold.wc.Some? then s.puts + 1 else s.puts)
  {
    hide Reaches, BeforePow, AfterPow;
    r', s' := GoConfirm(r, but, s, Consented, c, Go1(c.hold, NO_BLOCK));
  }

  /** The state when `c` was journaled (for a request) and nothing else has happened. */
  function JustJournaled(s: State, c: Confirm): State {
    s.(pub := Confirming(Journaled, c), journal := Recorded(s.journal, c.hold.wc, c.block),
       puts := if c.hold.wc.Some? then s.puts + 1 else s.puts)
  }

  /** A latched hold of the current session passes every check. */
  lemma ConfirmLatched(r: Run, but: Clause, s: State, c: Confirm, block: Block) returns (r': Run, s': State, c': Confirm)
    requires Reaches(r, but, s) && Ready(s, c.hold) && s.pub == Confirming(Latched, c) && Finalizes(s, c.hold, block)
    requires s.mem.SlotId() == c.hold.id ==> s.mem.slot.value.template == c.hold.template
    requires |s.journal| < MAX_RECORDS
    ensures Reaches(r', but, s') && c'.hold == c.hold && c'.block == block && Some(c'.client) == s.client
    ensures s' == JustJournaled(s, c').(clock := s'.clock)
  {
    hide Reaches;
    r', s', c' := ConfirmToEffect(r, but, s, c);
    r', s', c' := ConfirmToChain(r', but, s', c');
    r', s', c' := ConfirmToBuilt(r', but, s', c', block);
    r', s', c' := ConfirmToRecheck(r', but, s', c');
    r', s' := ConfirmToConsent(r', but, s', c');
    r', s' := ConfirmToJournal(r', but, s', c');
  }

  /** The broadcast: the node accepts, or its answer is lost. */
  lemma ConfirmToBroadcast(r: Run, but: Clause, s: State, c: Confirm, ok: bool) returns (r': Run, s': State)
    requires Reaches(r, but, s) && |s.sessions| > 0 && s.pub == Confirming(Journaled, c) && c.client < |s.chainOf|
    requires ok ==> s.client == Some(c.client)
    ensures Reaches(r', but, s')
    ensures s' == s.(pub := Confirming(if ok then Accepted else Clearing, c), clock := s'.clock,
                     accepted := if ok then s.accepted + {(s.chainOf[c.client], c.block)} else s.accepted,
                     log := s.log.(handed := s.log.handed + [Handed(s.boot, ByConfirm(c.hold.id), c.hold.wc, c.block)]))
  {
    hide Reaches, BeforePow, AfterPow;
    r', s' := GoConfirm(r, but, s, Journaled, c, Go1(c.hold, NO_BLOCK).(outcome := if ok then Ok else ErrorRejected));
  }

  lemma ConfirmToMark(r: Run, but: Clause, s: State, c: Confirm) returns (r': Run, s': State)
    requires Reaches(r, but, s) && |s.sessions| > 0 && s.pub == Confirming(Accepted, c)
    requires c.hold.wc.Some? ==> c.hold.wc.value.key in s.journal
    ensures Reaches(r', but, s')
    ensures s' == s.(pub := Confirming(Clearing, c), clock := s'.clock,
                     journal := if c.hold.wc.None? then s.journal
                                else s.journal[c.hold.wc.value.key := s.journal[c.hold.wc.value.key].(state := Published)])
  {
    hide Reaches, BeforePow, AfterPow;
    r', s' := GoConfirm(r, but, s, Accepted, c, Go1(c.hold, NO_BLOCK));
  }

  /** The hold is released, if it is still the one in the slot. */
  function Released(mem: Mem, id: nat): Mem {
    Mem(if mem.SlotId() == id then None else mem.slot, mem.counter, 0)
  }

  lemma ConfirmToEnd(r: Run, but: Clause, s: State, c: Confirm) returns (r': Run, s': State)
    requires Reaches(r, but, s) && |s.sessions| > 0 && s.pub == Confirming(Clearing, c)
    ensures Reaches(r', but, s')
    ensures s' == s.(pub := Free, mem := Released(s.mem, c.hold.id), clock := s'.clock)
  {
    hide Reaches, StepConfirm;
    r', s' := ConfirmClears(r, but, s, c);
    r', s' := ConfirmUnlatches(r', but, s', c);
  }

  lemma ConfirmClears(r: Run, but: Clause, s: State, c: Confirm) returns (r': Run, s': State)
    requires Reaches(r, but, s) && |s.sessions| > 0 && s.pub == Confirming(Clearing, c)
    ensures Reaches(r', but, s')
    ensures s' == s.(pub := Confirming(Unlatching, c), mem := ClearIf(s.mem, c.hold.id), clock := s.clock + 1)
  {
    hide Reaches, BeforePow, AfterPow, ClearIf, Unlatch;
    r', s' := GoConfirm(r, but, s, Clearing, c, Go1(c.hold, NO_BLOCK));
  }

  lemma ConfirmUnlatches(r: Run, but: Clause, s: State, c: Confirm) returns (r': Run, s': State)
    requires Reaches(r, but, s) && |s.sessions| > 0 && s.pub == Confirming(Unlatching, c)
    ensures Reaches(r', but, s') && s' == s.(pub := Free, mem := Unlatch(s.mem), clock := s.clock + 1)
  {
    hide Reaches, BeforePow, AfterPow, ClearIf, Unlatch;
    r', s' := GoConfirm(r, but, s, Unlatching, c, Go1(c.hold, NO_BLOCK));
  }

  // ---- A prepare

  /** One step of a prepare that changes nothing but where that prepare stands. */
  lemma Advance(r: Run, but: Clause, s: State, e: Event, tid: nat, p: Prepare) returns (r': Run, s': State)
    requires Reaches(r, but, s) && |s.sessions| > 0 && Enabled(s, e) && Step(s, e) == PrepareAt(s, tid, p)
    requires e.LookupKey? || e.LookupTopic? || e.LookupAll? || e.PrepareStart? || e.PrepareAddr? || e.PrepareCheck?
    ensures Reaches(r', but, s') && s' == s.(prepares := s.prepares[tid := p], clock := s.clock + 1)
  {
    hide Reaches, Enabled, Step;
    r' := Go(r, but, s, e);
    s' := Next(s, e);
  }

  /** A prepare looks its request up; nothing is held yet. */
  lemma LookUp(r: Run, but: Clause, s: State, tid: nat, ident: Ident) returns (r': Run, s': State)
    requires Reaches(r, but, s) && |s.sessions| > 0 && tid !in s.prepares
    requires Fresh(s.journal, ident.key, ident.intent)
    ensures Reaches(r', but, s')
    ensures s' == s.(prepares := s.prepares[tid := Prepare(LookedAll, Some(ident), s.puts, 0, 0, 0, 0)], clock := s'.clock)
  {
    hide Reaches, StepPublisher, PublisherReady, ChoiceAllowed, HoldPending, Attach, Cancel;
    var p := Prepare(LookedKey, Some(ident), s.puts, 0, 0, 0, 0);
    r', s' := Advance(r, but, s, LookupKey(tid, ident), tid, p);
    r', s' := Advance(r', but, s', LookupTopic(tid), tid, p.(stage := LookedTopic));
    r', s' := Advance(r', but, s', LookupAll(tid), tid, p.(stage := LookedAll));
    assert s'.prepares == s.prepares[tid := p.(stage := LookedAll)];
  }

  lemma CheckSession(r: Run, but: Clause, s: State, tid: nat, p: Prepare, from: Address) returns (r': Run, s': State, p': Prepare)
    requires Reaches(r, but, s) && |s.sessions| > 0 && Active(s) == Some(from)
    requires tid in s.prepares && s.prepares[tid] == p && p.stage == LookedAll
    ensures Reaches(r', but, s') && s' == s.(prepares := s.prepares[tid := p'], clock := s'.clock)
    ensures p' == p.(stage := Checked, gen := Gen(s), start := p'.start, from := from)
  {
    hide Reaches, Step, Enabled;
    r', s', p' := ReadSession(r, but, s, tid, p, from);
    r', s', p' := PassSession(r', but, s', tid, p', from);
    assert s'.prepares == s.prepares[tid := p'];
  }

  lemma ReadSession(r: Run, but: Clause, s: State, tid: nat, p: Prepare, from: Address) returns (r': Run, s': State, p': Prepare)
    requires Reaches(r, but, s) && |s.sessions| > 0 && Active(s) == Some(from)
    requires tid in s.prepares && s.prepares[tid] == p && p.stage == LookedAll
    ensures Reaches(r', but, s') && s' == s.(prepares := s.prepares[tid := p'], clock := s'.clock)
    ensures p' == p.(stage := GenRead, gen := Gen(s), start := p'.start)
  {
    hide Reaches, StepPublisher, PublisherReady, ChoiceAllowed, HoldPending, Attach, Cancel, NoSameTopicMatch, NoCrossTopicMatch;
    p' := p.(stage := GenRead, gen := Gen(s), start := s.clock);
    r', s' := Advance(r, but, s, PrepareStart(tid), tid, p');
  }

  lemma PassSession(r: Run, but: Clause, s: State, tid: nat, p: Prepare, from: Address) returns (r': Run, s': State, p': Prepare)
    requires Reaches(r, but, s) && |s.sessions| > 0 && Active(s) == Some(from)
    requires tid in s.prepares && s.prepares[tid] == p && p.stage == GenRead && p.gen == Gen(s)
    ensures Reaches(r', but, s') && s' == s.(prepares := s.prepares[tid := p'], clock := s'.clock)
    ensures p' == p.(stage := Checked, from := from)
  {
    hide Reaches, StepPublisher, PublisherReady, ChoiceAllowed, HoldPending, Attach, Cancel, NoSameTopicMatch, NoCrossTopicMatch;
    p' := p.(stage := AddrRead, from := from);
    r', s' := Advance(r, but, s, PrepareAddr(tid), tid, p');
    p' := p'.(stage := Checked);
    r', s' := Advance(r', but, s', PrepareCheck(tid), tid, p');
    assert s'.prepares == s.prepares[tid := p'];
  }

  /** The next hold of the process, for this request in this session. */
  predicate IsHoldOf(h: Hold, s: State, ident: Ident, chain: nat)
    requires |s.sessions| > 0
  {
    && h.id == s.mem.counter + 1 && h.gen == Gen(s)
    && h.template == Template(ident.intent.effect, chain) && h.approved == ident.intent.effect
  }

  lemma HoldChecked(r: Run, but: Clause, s: State, tid: nat, p: Prepare, ident: Ident, chain: nat) returns (r': Run, s': State, h: Hold)
    requires Reaches(r, but, s) && |s.sessions| > 0 && s.mem.slot.None? && tid in s.prepares && s.prepares[tid] == p
    requires p.stage == Checked && p.wc == Some(ident) && p.from == ident.intent.effect.sender && p.gen == Gen(s)
    requires but == Current || p.puts == s.puts
    requires but == Alone || s.pub.Free?
    ensures Reaches(r', but, s')
    ensures IsHoldOf(h, s, ident, chain) && h.wc.None?
    ensures s' == s.(mem := Mem(Some(h), h.id, s.mem.latch), clock := s.clock + 1,
                     prepares := s.prepares[tid := p.(stage := Held, id := h.id)], log := s.log.(previews := s.log.previews[h.id := ident.intent.effect]))
  {
    hide Reaches, StepPublisher, PublisherReady, ChoiceAllowed, Attach, Cancel, NoSameTopicMatch, NoCrossTopicMatch;
    r' := Extend(r, but, s, PrepareHold(tid, Template(ident.intent.effect, chain), ident.intent.effect));
    s' := Next(s, PrepareHold(tid, Template(ident.intent.effect, chain), ident.intent.effect));
    h := s'.mem.slot.value;
  }

  /** The checked prepare makes its hold; attaching is left to the caller. */
  lemma MakeHold(r: Run, but: Clause, s: State, tid: nat, ident: Ident, chain: nat) returns (r': Run, s': State, h: Hold)
    requires Reaches(r, but, s) && |s.sessions| > 0 && Active(s) == Some(ident.intent.effect.sender) && s.mem.slot.None?
    requires tid in s.prepares && s.prepares[tid].stage == LookedAll && s.prepares[tid].wc == Some(ident)
    requires but == Current || s.prepares[tid].puts == s.puts
    requires but == Alone || s.pub.Free?
    ensures Reaches(r', but, s')
    ensures IsHoldOf(h, s, ident, chain) && h.wc.None?
    ensures At?(s', tid, Held) && s'.prepares[tid].wc == Some(ident) && s'.prepares[tid].id == h.id
    ensures s' == s.(mem := Mem(Some(h), h.id, s.mem.latch), clock := s'.clock,
                     prepares := s.prepares[tid := s'.prepares[tid]], log := s.log.(previews := s.log.previews[h.id := ident.intent.effect]))
  {
    hide Reaches;
    var p;
    r', s', p := CheckSession(r, but, s, tid, s.prepares[tid], ident.intent.effect.sender);
    r', s', h := HoldChecked(r', but, s', tid, p, ident, chain);
    assert s'.prepares == s.prepares[tid := s'.prepares[tid]];
  }

  lemma AttachHold(r: Run, but: Clause, s: State, tid: nat, ident: Ident, h: Hold) returns (r': Run, s': State)
    requires Reaches(r, but, s) && |s.sessions| > 0 && s.mem.slot == Some(h) && h.id != 0
    requires At?(s, tid, Held) && s.prepares[tid].wc == Some(ident) && s.prepares[tid].id == h.id
    ensures Reaches(r', but, s')
    ensures s' == s.(mem := s.mem.(slot := Some(h.(wc := Some(ident)))), prepares := s.prepares - {tid}, clock := s'.clock)
  {
    hide Reaches, StepPublisher, PublisherReady, ChoiceAllowed, HoldPending, Cancel, NoSameTopicMatch, NoCrossTopicMatch;
    r' := Go(r, but, s, PrepareAttach(tid));
    s' := Next(s, PrepareAttach(tid));
  }

  /** A looked-up request is held and its identity attached. */
  lemma PrepareRequest(r: Run, but: Clause, s: State, tid: nat, ident: Ident, chain: nat) returns (r': Run, s': State, h: Hold)
    requires Reaches(r, but, s) && |s.sessions| > 0 && Active(s) == Some(ident.intent.effect.sender) && s.mem.slot.None?
    requires tid in s.prepares && s.prepares[tid].stage == LookedAll && s.prepares[tid].wc == Some(ident)
    requires but == Current || s.prepares[tid].puts == s.puts
    requires but == Alone || s.pub.Free?
    ensures Reaches(r', but, s')
    ensures IsHoldOf(h, s, ident, chain) && h.wc == Some(ident)
    ensures s' == s.(mem := Mem(Some(h), h.id, s.mem.latch), clock := s'.clock, prepares := s.prepares - {tid},
                     log := s.log.(previews := s.log.previews[h.id := ident.intent.effect]))
  {
    hide Reaches;
    r', s', h := MakeHold(r, but, s, tid, ident, chain);
    r', s' := AttachHold(r', but, s', tid, ident, h);
    h := h.(wc := Some(ident));
    assert s'.prepares == s.prepares - {tid};
  }
}
