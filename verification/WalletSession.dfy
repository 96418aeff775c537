/** The signing session of WalletService: which account a generation stands for. */
module WalletSession {
  import opened TxTypes

  class WalletService {
    /** Key derivation: keystore and account index to address; it may fail. */
    const derive: (nat, nat) -> Option<Address>

    var keystore: Option<nat>
    var active: nat
    var activeWallet: string
    var gen: nat
    /** The active account of every generation so far. */
    ghost var sessions: seq<Option<Address>>

    ghost predicate Valid()
      reads this
    {
      |sessions| == gen + 1 && sessions[gen] == ActiveAddressLocked()
    }

    function ActiveAddressLocked(): Option<Address>
      reads this
    {
      if keystore.None? then None else derive(keystore.value, active)
    }

    constructor (derive: (nat, nat) -> Option<Address>)
      ensures Valid() && sessions == [None]
    {
      this.derive := derive;
      keystore, active, activeWallet, gen := None, 0, "", 0;
      sessions := [None];
    }

    method Unlock(seed: nat, name: string)
      requires Valid()
      modifies this
      ensures Valid() && sessions == old(sessions) + [derive(seed, 0)]
      ensures keystore == Some(seed) && activeWallet == name
    {
      keystore, active, activeWallet := Some(seed), 0, name;
      gen := gen + 1;
      sessions := sessions + [ActiveAddressLocked()];
    }

    /** Locking a locked wallet still ends a generation. */
    method Lock()
      requires Valid()
      modifies this
      ensures Valid() && sessions == old(sessions) + [None]
      ensures keystore.None? && activeWallet == ""
    {
      keystore, activeWallet := None, "";
      gen := gen + 1;
      sessions := sessions + [None];
    }

    /** A selection refused before the switch changes nothing.  After it the account
        is the selected one, in a new generation exactly when it differs, even when
        its address cannot be derived: that failure leaves a generation without an
        account and skips the session callback, which `notify` asks for. */
    method SelectAccount(index: int, revealed: nat, readable: bool, writable: bool)
      returns (account: Option<Address>, notify: bool)
      requires Valid()
      modifies this
      ensures Valid() && keystore == old(keystore) && activeWallet == old(activeWallet)
      ensures if 0 <= index < revealed && old(keystore).Some? && readable && writable then
                && active == index && account == sessions[gen]
                && sessions == (if index != old(active) then old(sessions) + [account] else old(sessions))
                && (notify <==> index != old(active) && account.Some?)
              else
                account.None? && !notify && active == old(active) && sessions == old(sessions)
    {
      if index < 0 || keystore.None? || !readable || index >= revealed || !writable {
        return None, false;
      }
      var changed := active != index;
      active := index;
      account := ActiveAddressLocked();
      if changed {
        gen := gen + 1;
        sessions := sessions + [account];
      }
      if account.None? {
        return None, false;
      }
      notify := changed;
    }

    /** The signing key belongs to the active account, or there is none. */
    method SigningKeyPair(sdkAddress: Address) returns (signer: Option<Address>)
      requires Valid()
      ensures signer.Some? ==> signer == sessions[gen]
      ensures signer.None? <==> sessions[gen].None? || sessions[gen] != Some(sdkAddress)
    {
      if keystore.None? {
        return None;
      }
      var want := ActiveAddressLocked();
      if want.None? || sdkAddress != want.value {
        return None;
      }
      return Some(sdkAddress);
    }
  }
}
