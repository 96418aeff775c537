/** The connection and embedded-node fields of NodeService: one function per
    critical section under its state lock, and the class that implements them. */
module NodeState {
  import opened TxTypes

  type Url = string
  datatype Mode = Remote | Embedded

  const EMBEDDED_URL: Url := "ws://127.0.0.1:35998"

  datatype Settings = Settings(mode: Mode, remoteUrl: Url) {
    function ActiveUrl(): Url {
      if mode == Embedded then EMBEDDED_URL else remoteUrl
    }
  }

  /** An installed client: the endpoint it dialled and the intent it dialled for. */
  datatype Client = Client(url: Url, gen: nat)

  datatype Node = Node(mode: Option<Mode>, client: Option<Client>, connGen: nat, chainId: nat,
                       embedded: Option<nat>, stopping: bool, wedged: bool)

  const FRESH := Node(None, None, 0, 0, None, false, false)

  /** Any teardown is a new connection intent. */
  function Disconnect(n: Node): Node {
    n.(connGen := n.connGen + 1, client := None, chainId := 0)
  }

  function Degrade(n: Node, gen: nat): (Node, bool) {
    if n.connGen != gen then (n, false) else (Disconnect(n), true)
  }

  function Install(n: Node, url: Url, chain: nat, gen: nat): (Node, bool) {
    if n.connGen != gen then (n, false) else (n.(client := Some(Client(url, gen)), chainId := chain), true)
  }

  /** SetNodeMode flips the mode and drops the outgoing connection together. */
  function SwitchMode(n: Node, mode: Mode): Node {
    Disconnect(n.(mode := Some(mode)))
  }

  /** stopEmbedded takes the handle and latches `stopping` together. */
  function TakeEmbedded(n: Node): (Node, Option<nat>) {
    (n.(embedded := None, stopping := n.stopping || n.embedded.Some?), n.embedded)
  }

  function StopLanded(n: Node): Node {
    n.(stopping := false)
  }

  function StopTimedOut(n: Node): Node {
    n.(wedged := true, stopping := false)
  }

  datatype Guard = Refused | Go(handle: Option<nat>)

  /** startEmbedded: both refusals, the teardown and the handle read together. */
  function GuardStart(n: Node): (Node, Guard) {
    if n.wedged || n.stopping then (n, Refused) else (Disconnect(n), Go(n.embedded))
  }

  function MayDelete(n: Node): bool {
    n.embedded.None? && !n.wedged && !n.stopping
  }

  class NodeService {
    var mode: Option<Mode>
    var client: Option<Client>
    var connGen: nat
    var chainID: nat
    var embedded: Option<nat>
    var embeddedStopping: bool
    var embeddedWedged: bool

    ghost function View(): Node
      reads this
    {
      Node(mode, client, connGen, chainID, embedded, embeddedStopping, embeddedWedged)
    }

    constructor ()
      ensures View() == FRESH
    {
      mode, client, connGen, chainID := None, None, 0, 0;
      embedded, embeddedStopping, embeddedWedged := None, false, false;
    }

    method DisconnectLocked()
      modifies this
      ensures View() == Disconnect(old(View()))
      ensures client.None? && chainID == 0 && connGen > old(connGen)
      ensures View() == old(View()).(client := None, chainId := 0, connGen := connGen)
    {
      connGen := connGen + 1;
      client := None;
      chainID := 0;
    }

    method DegradeConnection(gen: nat) returns (mine: bool)
      modifies this
      ensures (View(), mine) == Degrade(old(View()), gen)
      ensures mine <==> old(connGen) == gen
      ensures !mine ==> View() == old(View())
      ensures mine ==> client.None? && chainID == 0 && connGen > gen
      ensures View() == old(View()).(client := client, chainId := chainID, connGen := connGen)
    {
      if connGen != gen {
        return false;
      }
      DisconnectLocked();
      return true;
    }

    method InstallConnection(url: Url, chain: nat, gen: nat) returns (mine: bool)
      modifies this
      ensures (View(), mine) == Install(old(View()), url, chain, gen)
      ensures mine <==> old(connGen) == gen
      ensures !mine ==> View() == old(View())
      ensures mine ==> client == Some(Client(url, gen)) && chainID == chain
      ensures View() == old(View()).(client := client, chainId := chainID)
    {
      if connGen != gen {
        return false;
      }
      client := Some(Client(url, gen));
      chainID := chain;
      return true;
    }

    method BeginSwitch(target: Mode)
      modifies this
      ensures View() == SwitchMode(old(View()), target)
      ensures mode == Some(target) && client.None? && chainID == 0 && connGen > old(connGen)
      ensures View() == old(View()).(mode := mode, client := client, chainId := chainID, connGen := connGen)
    {
      mode := Some(target);
      DisconnectLocked();
    }

    method TakeEmbeddedHandle() returns (handle: Option<nat>)
      modifies this
      ensures (View(), handle) == TakeEmbedded(old(View()))
      ensures handle == old(embedded) && embedded.None?
      ensures handle.Some? ==> embeddedStopping
      ensures handle.None? ==> embeddedStopping == old(embeddedStopping)
      ensures View() == old(View()).(embedded := None, stopping := embeddedStopping)
    {
      handle := embedded;
      embedded := None;
      if handle.Some? {
        embeddedStopping := true;
      }
    }

    method FinishStop(timedOut: bool)
      modifies this
      ensures View() == if timedOut then StopTimedOut(old(View())) else StopLanded(old(View()))
      ensures !embeddedStopping && (timedOut ==> embeddedWedged) && (!timedOut ==> embeddedWedged == old(embeddedWedged))
      ensures View() == old(View()).(stopping := false, wedged := embeddedWedged)
    {
      if timedOut {
        embeddedWedged := true;
      }
      embeddedStopping := false;
    }

    method GuardEmbeddedStart() returns (guard: Guard)
      modifies this
      ensures (View(), guard) == GuardStart(old(View()))
      ensures guard.Refused? <==> old(embeddedWedged) || old(embeddedStopping)
      ensures guard.Refused? ==> View() == old(View())
      ensures guard.Go? ==> guard.handle == old(embedded) && client.None? && chainID == 0 && connGen > old(connGen)
      ensures View() == old(View()).(client := client, chainId := chainID, connGen := connGen)
    {
      if embeddedWedged {
        return Refused;
      }
      if embeddedStopping {
        return Refused;
      }
      DisconnectLocked();
      return Go(embedded);
    }
  }
}

/** The embeddednode package: one node at a time, under a package mutex. */
module EmbeddedPackage {
  import opened TxTypes

  /** Who is inside the package mutex. */
  datatype Holder = Nobody | Start(node: nat) | Stop(node: nat)

  /** `live` is every node process that may be writing its data directory. */
  datatype Package = Package(holder: Holder, current: Option<nat>, live: set<nat>)

  const EMPTY := Package(Nobody, None, {})

  /** Start, once it holds the mutex: refused while a node is current; otherwise the
      node is running, and writing, before Start returns. */
  function EnterStart(p: Package, node: nat): Option<Package> {
    if p.current.Some? then None else Some(p.(holder := Start(node), live := p.live + {node}))
  }

  /** A start that fails stops what it brought up. */
  function LeaveStart(p: Package, node: nat, ok: bool): Package {
    if ok then p.(holder := Nobody, current := Some(node)) else p.(holder := Nobody, live := p.live - {node})
  }

  function EnterStop(p: Package, node: nat): Package {
    p.(holder := Stop(node))
  }

  function LeaveStop(p: Package, node: nat): Package {
    Package(Nobody, if p.current == Some(node) then None else p.current, p.live - {node})
  }

  /** A handle owns its node until it is stopped. */
  class Handle {
    var node: Option<nat>

    constructor (node: nat)
      ensures this.node == Some(node)
    {
      this.node := Some(node);
    }
  }

  class EmbeddedNode {
    var current: Option<nat>
    var live: set<nat>

    ghost function View(): Package
      reads this
    {
      Package(Nobody, current, live)
    }

    constructor ()
      ensures View() == EMPTY
    {
      current, live := None, {};
    }

    /** `created`, `started` and `ready` are the three ways a start can fail. */
    method StartNode(node: nat, created: bool, started: bool, ready: bool) returns (handle: Handle?)
      requires node !in live
      modifies this
      ensures handle != null ==> fresh(handle) && handle.node == Some(node)
      ensures handle != null <==> old(current).None? && created && started && ready
      ensures EnterStart(old(View()), node).None? ==> handle == null && View() == old(View())
      ensures EnterStart(old(View()), node).Some? ==>
                View() == LeaveStart(EnterStart(old(View()), node).value, node, handle != null)
      ensures handle != null ==> current == Some(node) && live == old(live) + {node}
      ensures handle == null ==> current == old(current) && live == old(live)
    {
      if current.Some? || !created {
        assert live + {node} - {node} == live;
        return null;
      }
      live := live + {node};
      if !started || !ready {
        live := live - {node};
        return null;
      }
      current := Some(node);
      handle := new Handle(node);
    }

    /** Idempotent: a second stop of a handle changes nothing. */
    method StopNode(handle: Handle)
      modifies this, handle
      ensures handle.node.None?
      ensures View() == if old(handle.node).Some? then LeaveStop(EnterStop(old(View()), old(handle.node).value), old(handle.node).value)
                        else old(View())
      ensures old(handle.node).Some? ==> live == old(live) - {old(handle.node).value} && current != old(handle.node)
      ensures old(current) != old(handle.node) ==> current == old(current)
      ensures old(handle.node).None? ==> live == old(live)
    {
      if handle.node.None? {
        return;
      }
      var node := handle.node.value;
      live := live - {node};
      if current == Some(node) {
        current := None;
      }
      handle.node := None;
    }
  }
}
