/** Runs outside the scheduling rule.  Each breaks one clause of it, keeps the other
    two at every step, and loses the property: two signed blocks for one transfer with
    nothing acknowledged, or a broadcast that never reached the journal. */
module ProtocolRaces {
  import opened TxTypes
  import opened TxHold
  import opened Journal
  import opened Protocol
  import opened ProtocolExactlyOnce
  import opened ProtocolRuns

  const ACCOUNT: Address := 7
  const OTHER_ACCOUNT: Address := 8
  const EFFECT := Effect(ACCOUNT, 1, 2, 100, 3)
  const INTENT := Intent(EFFECT, 1)
  const FIRST := Ident(Key("a", 1), INTENT)
  const SECOND := Ident(Key("a", 2), INTENT)

  function BlockNo(n: nat): Block {
    Block(EFFECT, 1, ACCOUNT, n)
  }

  /** Unlocked on the account, connected to chain 1. */
  ghost predicate Online(s: State) {
    && |s.sessions| > 0 && Active(s) == Some(ACCOUNT)
    && s.client.Some? && s.client.value < |s.chainOf| && s.chainId == 1
  }

  /** The state after `c` was journaled, broadcast and cleared, the answer lost. */
  function AfterLostBroadcast(s: State, c: Confirm): State {
    s.(pub := Free, mem := Released(s.mem, c.hold.id), journal := Recorded(s.journal, c.hold.wc, c.block),
       puts := if c.hold.wc.Some? then s.puts + 1 else s.puts,
       log := s.log.(handed := s.log.handed + [Handed(s.boot, ByConfirm(c.hold.id), c.hold.wc, c.block)]))
  }

  lemma ConfirmAndLose(r: Run, but: Clause, s: State, c: Confirm, n: nat) returns (r': Run, s': State)
    requires Reaches(r, but, s) && Ready(s, c.hold) && s.pub == Confirming(Latched, c)
    requires c.hold.approved == EFFECT && s.chainId == 1
    requires s.mem.SlotId() == c.hold.id ==> s.mem.slot.value.template == c.hold.template
    requires |s.journal| < MAX_RECORDS
    ensures Reaches(r', but, s')
    ensures s' == AfterLostBroadcast(s, c.(block := BlockNo(n))).(clock := s'.clock)
  {
    hide Reaches;
    var c';
    r', s', c' := ConfirmLatched(r, but, s, c, BlockNo(n));
    r', s' := ConfirmToBroadcast(r', but, s', c', false);
    r', s' := ConfirmToEnd(r', but, s', c');
  }

  /** A fresh process, unlocked and connected. */
  lemma Begin(but: Clause, account: Address) returns (r: Run, s: State)
    ensures Reaches(r, but, s)
    ensures s == INITIAL.(sessions := [Locked, Unlocked(Some(account))], lastSwitch := 1, clock := 2,
                          client := Some(0), chainId := 1, chainOf := [1])
  {
    r := Run([INITIAL], []);
    assert Reaches(r, but, INITIAL);
    hide Reaches, StepPublisher, PublisherReady, ChoiceAllowed;
    r := Go(r, but, INITIAL, Unlock(Some(account)));
    s := Next(INITIAL, Unlock(Some(account)));
    r := Go(r, but, s, Install(1));
    s := Next(s, Install(1));
  }

  /** Two different blocks handed over for one intent, and nothing acknowledged. */
  ghost predicate Duplicated(s: State) {
    && s.log.acked == {} && |s.log.handed| == 2
    && s.log.handed[0].wc.Some? && s.log.handed[1].wc.Some? && s.log.handed[0].wc.value.intent == s.log.handed[1].wc.value.intent
    && s.log.handed[0].block != s.log.handed[1].block
  }

  /** Looked up twice, recorded, broadcast and cleared once. */
  lemma FirstPublished() returns (r: Run, s: State)
    ensures Reaches(r, Current, s) && Online(s) && s.pub.Free? && s.mem.slot.None? && s.log.acked == {}
    ensures s.prepares == map[2 := Prepare(LookedAll, Some(SECOND), 0, 0, 0, 0, 0)] && |s.journal| < MAX_RECORDS
    ensures |s.log.handed| == 1 && s.log.handed[0].wc == Some(FIRST) && s.log.handed[0].block == BlockNo(1)
  {
    hide Reaches;
    var h, c;
    r, s := Begin(Current, ACCOUNT);
    r, s := LookUp(r, Current, s, 1, FIRST);
    r, s := LookUp(r, Current, s, 2, SECOND);
    r, s, h := PrepareRequest(r, Current, s, 1, FIRST, 1);
    assert s.prepares == map[2 := Prepare(LookedAll, Some(SECOND), 0, 0, 0, 0, 0)];
    r, s, c := ConfirmToLatch(r, Current, s, h);
    r, s := ConfirmAndLose(r, Current, s, c, 1);
  }

  /** A hold made on a stale lookup: the other request was recorded, broadcast and
      cleared between this prepare's lookups and its hold. */
  lemma StaleLookupDuplicates() returns (r: Run, s: State)
    ensures Reaches(r, Current, s) && Duplicated(s)
  {
    hide Reaches;
    var h, c;
    r, s := FirstPublished();
    r, s, h := PrepareRequest(r, Current, s, 2, SECOND, 1);
    r, s, c := ConfirmToLatch(r, Current, s, h);
    r, s := ConfirmAndLose(r, Current, s, c, 2);
  }

  /** The wallet is on another account, and the user selects this one: the generation
      moves now, the slot is cleared later. */
  lemma Switched() returns (r: Run, s: State)
    ensures Reaches(r, Alone, s)
    ensures s == INITIAL.(sessions := [Locked, Unlocked(Some(OTHER_ACCOUNT)), Unlocked(Some(ACCOUNT))], clearDue := true,
                          lastSwitch := 3, clock := 3, client := Some(0), chainId := 1, chainOf := [1])
  {
    hide Reaches, StepPublisher, PublisherReady, ChoiceAllowed;
    r, s := Begin(Alone, OTHER_ACCOUNT);
    r := Go(r, Alone, s, Select(Some(ACCOUNT)));
    s := Next(s, Select(Some(ACCOUNT)));
  }

  lemma ClearNow(r: Run, but: Clause, s: State) returns (r': Run, s': State)
    requires Reaches(r, but, s) && |s.sessions| > 0 && s.clearDue
    ensures Reaches(r', but, s') && s' == s.(mem := ClearAll(s.mem), clearDue := false, clock := s.clock + 1)
  {
    hide Reaches, ClearAll;
    r' := Go(r, but, s, ClearCallback);
    s' := Next(s, ClearCallback);
  }

  /** A request was prepared and latched in the new session, and only then the delayed
      callback empties the slot. */
  lemma LatchedThenCleared() returns (r: Run, s: State, c: Confirm)
    ensures Reaches(r, Alone, s) && Online(s) && s.pub == Confirming(Latched, c) && s.prepares == map[]
    ensures s.journal == map[] && s.log.handed == [] && s.log.acked == {}
    ensures s.mem.slot.None? && s.mem.counter == c.hold.id
    ensures c.hold.gen == Gen(s) && c.hold.id != 0 && c.hold.approved == EFFECT && c.hold.template == Template(EFFECT, 1) && c.hold.wc == Some(FIRST)
  {
    hide Reaches;
    var h;
    r, s := Switched();
    r, s := LookUp(r, Alone, s, 1, FIRST);
    r, s, h := PrepareRequest(r, Alone, s, 1, FIRST, 1);
    assert s.prepares == map[];
    r, s, c := ConfirmToLatch(r, Alone, s, h);
    r, s := ClearNow(r, Alone, s);
  }

  /** A hold made beside that viable confirm: both are broadcast. */
  lemma DelayedClearDuplicates() returns (r: Run, s: State)
    ensures Reaches(r, Alone, s) && Duplicated(s)
  {
    hide Reaches;
    var h, c;
    r, s, c := LatchedThenCleared();
    r, s := LookUp(r, Alone, s, 2, SECOND);
    r, s, h := PrepareRequest(r, Alone, s, 2, SECOND, 1);
    assert s.prepares == map[];
    r, s := ConfirmAndLose(r, Alone, s, c, 1);
    r, s, c := ConfirmToLatch(r, Alone, s, h);
    r, s := ConfirmAndLose(r, Alone, s, c, 2);
  }

  /** A confirm that picks up a hold before its identity is attached broadcasts a
      WalletConnect request without any record. */
  lemma HalfAttachedIsUnjournaled() returns (r: Run, s: State)
    ensures Reaches(r, Returned, s) && s.journal == map[] && |s.log.handed| == 1
    ensures At?(s, 1, Held) && s.prepares[1].wc == Some(FIRST) && s.log.handed[0].origin == ByConfirm(s.prepares[1].id)
  {
    hide Reaches;
    var h, c;
    r, s := Begin(Returned, ACCOUNT);
    r, s := LookUp(r, Returned, s, 1, FIRST);
    r, s, h := MakeHold(r, Returned, s, 1, FIRST, 1);
    r, s, c := ConfirmToLatch(r, Returned, s, h);
    r, s := ConfirmAndLose(r, Returned, s, c, 1);
  }
}
