/** Values shared by the publication models.  Addresses, token standards and
    call data are only ever compared for equality by the code, so identities
    stand for them. */
module TxTypes {
  type Address = nat
  type Token = nat
  type Data = nat

  datatype Option<+T> = None | Some(value: T)

  /** What a transaction moves: the fields `assertMatches` compares. */
  datatype Effect = Effect(sender: Address, to: Address, zts: Token, amount: int, data: Data)

  /** An unsigned block awaiting proof of work. */
  datatype Template = Template(effect: Effect, chain: nat)

  /** A finalized block: `signer` is the key that signed it, `hash` its identity. */
  datatype Block = Block(effect: Effect, chain: nat, signer: Address, hash: nat)

  datatype Key = Key(topic: string, id: nat)

  /** The validated intent; its journal form is a hash of an injective encoding
      (see JournalCodec). */
  datatype Intent = Intent(effect: Effect, chain: nat)

  datatype Ident = Ident(key: Key, intent: Intent)
}

/** The single hold slot of TxService: the fields guarded by its mutex, one
    function per critical section, and the class whose methods implement them. */
module TxHold {
  import opened TxTypes

  /** `start` is the step at which the prepare read the session generation `gen`. */
  datatype Hold = Hold(id: nat, template: Template, approved: Effect, gen: nat, start: nat, wc: Option<Ident>)

  datatype Mem = Mem(slot: Option<Hold>, counter: nat, latch: nat) {
    function SlotId(): nat {
      if slot.Some? then slot.value.id else 0
    }

    ghost predicate Valid() {
      slot.Some? ==> 0 < slot.value.id <= counter
    }
  }

  const EMPTY := Mem(None, 0, 0)

  function HoldPending(m: Mem, template: Template, approved: Effect, gen: nat, start: nat): (Mem, Option<nat>) {
    if m.slot.Some? then (m, None)
    else
      var id := m.counter + 1;
      (Mem(Some(Hold(id, template, approved, gen, start, None)), id, m.latch), Some(id))
  }

  function Attach(m: Mem, id: nat, ident: Ident): (Mem, bool) {
    if id == 0 || m.SlotId() != id then (m, false)
    else (m.(slot := Some(m.slot.value.(wc := Some(ident)))), true)
  }

  function Latch(m: Mem, id: nat): (Mem, bool) {
    if m.SlotId() != id then (m, false) else (m.(latch := id), true)
  }

  function Unlatch(m: Mem): Mem {
    m.(latch := 0)
  }

  function Cancel(m: Mem, id: nat): (Mem, bool) {
    if m.latch != 0 && (id == 0 || id == m.latch) then (m, false)
    else if id == 0 || m.SlotId() == id then (m.(slot := None), true)
    else (m, true)
  }

  function ClearIf(m: Mem, id: nat): Mem {
    if m.SlotId() == id then m.(slot := None) else m
  }

  function ClearAll(m: Mem): Mem {
    m.(slot := None)
  }

  /** PoW and autofill write into the held template through the shared pointer. */
  function Overwrite(m: Mem, id: nat, template: Template): Mem {
    if m.slot.Some? && m.slot.value.id == id then m.(slot := Some(m.slot.value.(template := template))) else m
  }

  /** The hold fields of TxService and the methods that run under its mutex. */
  class TxService {
    var pending: Option<Template>
    var pendingApproved: Effect
    var pendingGen: nat
    var pendingStart: nat
    var pendingHoldID: nat
    var holdCounter: nat
    var publishingHold: nat
    var pendingWC: Option<Ident>

    ghost predicate Valid()
      reads this
    {
      && (pending.None? <==> pendingHoldID == 0)
      && pendingHoldID <= holdCounter
      && (pending.None? ==> pendingWC.None?)
    }

    ghost function View(): Mem
      reads this
      requires Valid()
    {
      Mem(if pending.None? then None
          else Some(Hold(pendingHoldID, pending.value, pendingApproved, pendingGen, pendingStart, pendingWC)),
          holdCounter, publishingHold)
    }

    constructor ()
      ensures Valid() && View() == EMPTY
    {
      pending, pendingWC, pendingHoldID, holdCounter, publishingHold := None, None, 0, 0, 0;
      pendingApproved, pendingGen, pendingStart := Effect(0, 0, 0, 0, 0), 0, 0;
    }

    method HoldTemplate(template: Template, approved: Effect, gen: nat, start: nat) returns (id: Option<nat>)
      requires Valid()
      modifies this
      ensures Valid() && (View(), id) == HoldPending(old(View()), template, approved, gen, start)
      ensures publishingHold == old(publishingHold)
      ensures old(pending).Some? ==> id.None? && View() == old(View())
      ensures old(pending).None? ==>
                && id == Some(old(holdCounter) + 1) && holdCounter == pendingHoldID == id.value
                && pending == Some(template) && pendingApproved == approved && pendingGen == gen && pendingStart == start
                && pendingWC.None?
    {
      if pending.Some? {
        return None;
      }
      holdCounter := holdCounter + 1;
      pendingHoldID := holdCounter;
      pending, pendingApproved, pendingGen, pendingStart := Some(template), approved, gen, start;
      return Some(pendingHoldID);
    }

    method AttachWalletConnectIdentity(id: nat, ident: Ident) returns (ok: bool)
      requires Valid()
      modifies this
      ensures Valid() && (View(), ok) == Attach(old(View()), id, ident)
      ensures ok <==> id != 0 && old(pendingHoldID) == id
      ensures View() == if ok then old(View()).(slot := Some(old(View()).slot.value.(wc := Some(ident)))) else old(View())
    {
      if id == 0 || pendingHoldID != id {
        return false;
      }
      pendingWC := Some(ident);
      return true;
    }

    /** The confirm's second critical section: latch if the hold is still live. */
    method LatchPublishing(id: nat) returns (ok: bool)
      requires Valid() && id != 0
      modifies this
      ensures Valid() && (View(), ok) == Latch(old(View()), id)
      ensures ok <==> old(pendingHoldID) == id
      ensures View() == if ok then old(View()).(latch := id) else old(View())
    {
      if pendingHoldID != id {
        return false;
      }
      publishingHold := id;
      return true;
    }

    method UnlatchPublishing()
      requires Valid()
      modifies this
      ensures Valid() && View() == Unlatch(old(View()))
      ensures publishingHold == 0 && View().slot == old(View()).slot && holdCounter == old(holdCounter)
    {
      publishingHold := 0;
    }

    /** A cancel spares every hold but the one it names, and the one being published. */
    method CancelPending(id: nat) returns (ok: bool)
      requires Valid()
      modifies this
      ensures Valid() && (View(), ok) == Cancel(old(View()), id)
      ensures !ok <==> old(publishingHold) != 0 && (id == 0 || id == old(publishingHold))
      ensures !ok || (id != 0 && old(pendingHoldID) != id) ==> View() == old(View())
      ensures ok && (id == 0 || old(pendingHoldID) == id) ==> pending.None?
      ensures publishingHold == old(publishingHold) && holdCounter == old(holdCounter)
    {
      if publishingHold != 0 && (id == 0 || id == publishingHold) {
        return false;
      }
      if id != 0 {
        if pendingHoldID == id {
          ClearPendingLocked();
        }
      } else {
        ClearPendingLocked();
      }
      return true;
    }

    method ClearPendingLocked()
      requires Valid()
      modifies this
      ensures Valid() && View() == ClearAll(old(View()))
      ensures pending.None? && pendingHoldID == 0 && pendingWC.None?
      ensures publishingHold == old(publishingHold) && holdCounter == old(holdCounter)
    {
      pending, pendingApproved, pendingGen, pendingStart := None, Effect(0, 0, 0, 0, 0), 0, 0;
      pendingHoldID, pendingWC := 0, None;
    }

    method ClearPendingIf(id: nat)
      requires Valid()
      modifies this
      ensures Valid() && View() == ClearIf(old(View()), id)
      ensures old(pendingHoldID) != id ==> View() == old(View())
      ensures old(pendingHoldID) == id ==> pending.None?
      ensures publishingHold == old(publishingHold) && holdCounter == old(holdCounter)
    {
      if pendingHoldID == id {
        ClearPendingLocked();
      }
    }
  }
}
