/** Transitions that nothing disturbs go through, from every reachable state whose
    transition lock is free, and leave what they promise. */
module NodeProgress {
  import opened TxTypes
  import opened NodeState
  import opened NodeLifecycle
  import P = EmbeddedPackage

  ghost predicate Reaches(r: Run, s: State) {
    ValidRun(r) && r.states[|r.states| - 1] == s
  }

  lemma Extend(r: Run, s: State, e: Event) returns (r': Run, s': State)
    requires Reaches(r, s) && Enabled(s, e)
    ensures Reaches(r', s') && s' == Next(s, e)
  {
    hide Enabled, Next;
    s' := Next(s, e);
    r' := Run(r.states + [s'], r.events + [e]);
    forall i | 0 <= i < |r'.events| ensures Enabled(r'.states[i], r'.events[i]) && r'.states[i + 1] == Next(r'.states[i], r'.events[i]) {
      if i < |r.events| {
        assert r'.states[i] == r.states[i] && r'.states[i + 1] == r.states[i + 1] && r'.events[i] == r.events[i];
      }
    }
  }

  lemma Moves(r: Run, s: State, x: Choice) returns (r': Run, s': State)
    requires Reaches(r, s) && OpReady(s)
    ensures Reaches(r', s') && s' == StepOp(s, x)
  {
    hide Reaches, StepOp;
    r', s' := Extend(r, s, OpStep(x));
  }

  lemma Begins(r: Run, s: State, op: Op) returns (r': Run, s': State)
    requires Reaches(r, s) && s.op == Idle && Entry(op)
    ensures Reaches(r', s') && s' == s.(op := op)
  {
    hide Reaches;
    r', s' := Extend(r, s, Begin(op));
  }

  /** No stop is in flight, and the package agrees with the handle. */
  ghost predicate Quiet(s: State) {
    && !s.node.stopping && !s.node.wedged && s.waiting.None? && s.due == {}
    && s.pkg.holder == P.Nobody && s.pkg.current == s.node.embedded
    && s.pkg.live == (if s.node.embedded.Some? then {s.node.embedded.value} else {})
  }

  lemma FreeIsQuiet(r: Run, s: State)
    requires Reaches(r, s) && s.op == Idle && !s.node.stopping && !s.node.wedged
    ensures Quiet(s)
  {
    RunKeeps(r, |r.states| - 1);
    assert s.pkg.current.Some? ==> s.pkg.current.value in s.pkg.live;
  }

  /** A dial that is answered installs its client, for a new generation. */
  lemma Dials(r: Run, s: State, url: Url, own: bool, chain: nat) returns (r': Run, s': State)
    requires Reaches(r, s) && s.op == DialWanted(url, own)
    ensures Reaches(r', s')
    ensures
      var gen := s.node.connGen + 1;
      s' == s.(op := Idle, dialled := s.dialled[gen := chain],
               node := s.node.(connGen := gen, client := Some(Client(url, gen)), chainId := chain))
  {
    hide Reaches;
    r', s' := Moves(r, s, Choice(true, chain));
    r', s' := Moves(r', s', Choice(true, chain));
    r', s' := Moves(r', s', Choice(true, chain));
  }

  /** The connection a finished transition leaves. */
  predicate Connected(s: State, s': State, url: Url, chain: nat) {
    && s'.op == Idle && s'.node.client == Some(Client(url, s'.node.connGen)) && s'.node.connGen > s.node.connGen
    && s'.node.chainId == chain && s'.node.mode == Some(s'.settings.mode)
    && !s'.node.stopping && !s'.node.wedged
  }

  lemma Switches(r: Run, s: State, mode: Mode) returns (r': Run, s': State)
    requires Reaches(r, s) && s.op == Idle && Quiet(s)
    ensures Reaches(r', s')
    ensures
      var settings := s.settings.(mode := mode);
      s' == s.(settings := settings, op := ModeSwitched(mode, settings.ActiveUrl()),
               node := s.node.(mode := Some(mode), connGen := s.node.connGen + 1, client := None, chainId := 0))
  {
    hide Reaches;
    var ok := Choice(true, 0);
    r', s' := Begins(r, s, ModeWanted(mode));
    r', s' := Moves(r', s', ok);
    r', s' := Moves(r', s', ok);
    r', s' := Moves(r', s', ok);
  }

  /** A stop that the package lets in and out again frees the handle's node. */
  lemma Stops(r: Run, s: State, node: nat) returns (r': Run, s': State)
    requires Reaches(r, s) && s.waiting == Some(node) && s.due == {node} && s.pkg == P.Package(P.Nobody, Some(node), {node})
    ensures Reaches(r', s')
    ensures s' == s.(waiting := None, due := {}, pkg := P.EMPTY, node := s.node.(stopping := false))
  {
    hide Reaches;
    r', s' := Extend(r, s, StopEnters(node));
    r', s' := Extend(r', s', StopReturns(node));
    assert s'.due == {} && s'.pkg == P.EMPTY;
    r', s' := Extend(r', s', StopSeen);
  }

  /** SetNodeMode(remote): any embedded node is stopped, and the remote endpoint is
      connected. */
  lemma RemoteGoesThrough(r: Run, s: State, chain: nat) returns (r': Run, s': State)
    requires Reaches(r, s) && s.op == Idle && !s.node.stopping && !s.node.wedged
    ensures Reaches(r', s') && Connected(s, s', s.settings.remoteUrl, chain)
    ensures s'.settings == s.settings.(mode := Remote) && s'.node.embedded.None? && s'.pkg == P.EMPTY
  {
    hide Reaches;
    FreeIsQuiet(r, s);
    r', s' := Switches(r, s, Remote);
    r', s' := Moves(r', s', Choice(true, 0));
    if s.node.embedded.Some? {
      r', s' := Stops(r', s', s.node.embedded.value);
    }
    r', s' := Moves(r', s', Choice(true, 0));
    r', s' := Dials(r', s', s.settings.remoteUrl, false, chain);
  }

  /** startEmbedded from its guard: the running node, or a new one, is connected. */
  lemma EmbeddedStarts(r: Run, s: State, chain: nat) returns (r': Run, s': State)
    requires Reaches(r, s) && s.op == Guarding && Quiet(s)
    ensures Reaches(r', s') && s'.op == Idle && s'.settings == s.settings
    ensures s'.node == s.node.(connGen := s.node.connGen + 2, client := Some(Client(EMBEDDED_URL, s.node.connGen + 2)), chainId := chain,
                               embedded := Some(if s.node.embedded.Some? then s.node.embedded.value else s.nextNode))
    ensures s'.pkg == P.Package(P.Nobody, s'.node.embedded, {s'.node.embedded.value})
  {
    hide Reaches;
    var ok := Choice(true, 0);
    r', s' := Moves(r, s, ok);
    if s.node.embedded.None? {
      r', s' := Starts(r', s');
    }
    r', s' := Dials(r', s', EMBEDDED_URL, true, chain);
  }

  lemma Starts(r: Run, s: State) returns (r': Run, s': State)
    requires Reaches(r, s) && s.op == Starting && s.pkg == P.EMPTY
    ensures Reaches(r', s')
    ensures s' == s.(op := DialWanted(EMBEDDED_URL, true), nextNode := s.nextNode + 1, node := s.node.(embedded := Some(s.nextNode)),
                     pkg := P.Package(P.Nobody, Some(s.nextNode), {s.nextNode}))
  {
    hide Reaches;
    var ok := Choice(true, 0);
    r', s' := Moves(r, s, ok);
    r', s' := Moves(r', s', ok);
    r', s' := Moves(r', s', ok);
    assert s'.pkg.live == {s.nextNode};
  }

  /** SetNodeMode(embedded): one embedded node runs, the one that ran already if there
      was one, and it is connected. */
  lemma EmbeddedGoesThrough(r: Run, s: State, chain: nat) returns (r': Run, s': State)
    requires Reaches(r, s) && s.op == Idle && !s.node.stopping && !s.node.wedged
    ensures Reaches(r', s') && Connected(s, s', EMBEDDED_URL, chain)
    ensures s'.settings == s.settings.(mode := Embedded)
    ensures s'.node.embedded == Some(if s.node.embedded.Some? then s.node.embedded.value else s.nextNode)
    ensures s'.pkg.live == {s'.node.embedded.value}
  {
    hide Reaches;
    FreeIsQuiet(r, s);
    r', s' := Switches(r, s, Embedded);
    r', s' := Moves(r', s', Choice(true, 0));
    r', s' := EmbeddedStarts(r', s', chain);
  }

  /** Connect follows the persisted mode and endpoint. */
  lemma ConnectGoesThrough(r: Run, s: State, chain: nat) returns (r': Run, s': State)
    requires Reaches(r, s) && s.op == Idle && !s.node.stopping && !s.node.wedged
    ensures Reaches(r', s') && Connected(s, s', s.settings.ActiveUrl(), chain) && s'.settings == s.settings
  {
    hide Reaches;
    FreeIsQuiet(r, s);
    var ok := Choice(true, 0);
    r', s' := Begins(r, s, ConnectWanted);
    r', s' := Moves(r', s', ok);
    r', s' := Moves(r', s', ok);
    if s.settings.mode == Embedded {
      r', s' := EmbeddedStarts(r', s', chain);
    } else {
      r', s' := Dials(r', s', s.settings.remoteUrl, false, chain);
    }
  }

  /** A new remote endpoint is persisted, and connected at once in remote mode. */
  lemma UrlGoesThrough(r: Run, s: State, url: Url, chain: nat) returns (r': Run, s': State)
    requires Reaches(r, s) && s.op == Idle
    ensures Reaches(r', s') && s'.op == Idle && s'.settings == s.settings.(remoteUrl := url)
    ensures
      if s.settings.mode == Embedded then s'.node == s.node
      else s'.node.client == Some(Client(url, s'.node.connGen)) && s'.node.chainId == chain && s'.node.connGen > s.node.connGen
  {
    hide Reaches;
    var ok := Choice(true, 0);
    r', s' := Begins(r, s, UrlWanted(url));
    r', s' := Moves(r', s', ok);
    if s.settings.mode == Remote {
      r', s' := Moves(r', s', ok);
      r', s' := Dials(r', s', url, false, chain);
    }
  }

  /** A disconnect leaves no client, and the endpoint, mode and handle alone. */
  lemma DisconnectGoesThrough(r: Run, s: State) returns (r': Run, s': State)
    requires Reaches(r, s) && s.op == Idle
    ensures Reaches(r', s')
    ensures s' == s.(node := s.node.(client := None, chainId := 0, connGen := s'.node.connGen)) && s'.node.connGen > s.node.connGen
  {
    hide Reaches;
    r', s' := Begins(r, s, DisconnectWanted);
    r', s' := Moves(r', s', Choice(true, 0));
  }

  /** The data directory may go exactly when no embedded node runs or may still run. */
  lemma DeletesIffNoNode(r: Run, s: State, x: Choice) returns (r': Run, s': State)
    requires Reaches(r, s) && s.op == Idle && x.ok
    ensures Reaches(r', s')
    ensures if s.node.embedded.None? && !s.node.stopping && !s.node.wedged then s' == s.(op := DeleteDecided) else s' == s
  {
    hide Reaches;
    r', s' := Begins(r, s, DeleteWanted);
    r', s' := Moves(r', s', x);
  }

  /** A subscription that fails takes its own connection down again. */
  lemma FailedSubscriptionDisconnects(s: State, gen: nat, own: bool, chain: nat)
    requires s.op == Subscribing(gen, own)
    ensures
      var s' := StepOp(s, Choice(false, chain));
      && (s.node.connGen == gen ==> s'.node.client.None? && s'.node.chainId == 0)
      && (s.node.connGen != gen ==> s'.node == s.node)
      && s'.op == if own then Cleanup else Idle
  {
  }

  /** The three ways in which a connection to one's own node can fail: the dial, a newer
      intent, or the subscription. */
  predicate OwnFails(s: State, x: Choice) {
    || (s.op.Dialing? && s.op.own && (!x.ok || s.op.gen != s.node.connGen))
    || (s.op.Subscribing? && s.op.own && !x.ok)
  }

  /** Whenever startEmbedded cannot connect to its node, it stops it again: no node is
      left running, and no connection of that attempt. */
  lemma FailedStartLeavesNoNode(r: Run, s: State, x: Choice) returns (r': Run, s': State)
    requires Reaches(r, s) && OwnFails(s, x) && s.node.embedded.Some? && !s.node.stopping && !s.node.wedged
    ensures Reaches(r', s') && s'.op == Idle && s'.node.embedded.None? && s'.pkg == P.EMPTY
    ensures s'.settings == s.settings && !s'.node.stopping && !s'.node.wedged
    ensures s.op.gen == s.node.connGen ==> s'.node.client.None?
  {
    hide Reaches, NodeInv, TransitionInv;
    ReachedKeeps(r, s);
    OwnIsQuiet(s);
    var node := s.node.embedded.value;
    r', s' := Moves(r, s, x);
    assert s'.op == Cleanup && s'.node.embedded == s.node.embedded;
    r', s' := CleansUp(r', s', node);
  }

  lemma CleansUp(r: Run, s: State, node: nat) returns (r': Run, s': State)
    requires Reaches(r, s) && s.op == Cleanup && s.node.embedded == Some(node) && s.due == {}
    requires s.pkg == P.Package(P.Nobody, Some(node), {node})
    ensures Reaches(r', s')
    ensures s' == s.(op := Idle, node := s.node.(embedded := None, stopping := false), waiting := None, pkg := P.EMPTY)
  {
    hide Reaches;
    r', s' := Moves(r, s, Choice(true, 0));
    r', s' := Stops(r', s', node);
    r', s' := Moves(r', s', Choice(true, 0));
  }

  lemma ReachedKeeps(r: Run, s: State)
    requires Reaches(r, s)
    ensures NodeInv(s) && TransitionInv(s)
  {
    hide NodeInv, TransitionInv;
    RunKeeps(r, |r.states| - 1);
  }

  lemma OwnIsQuiet(s: State)
    requires NodeInv(s) && TransitionInv(s) && (s.op.Dialing? || s.op.Subscribing?) && s.node.embedded.Some?
    requires !s.node.stopping && !s.node.wedged
    ensures s.waiting.None? && s.due == {} && s.pkg == P.Package(P.Nobody, s.node.embedded, {s.node.embedded.value})
    ensures s.op.Dialing? ==> s.node.client.None?
  {
    assert s.node.embedded.value in s.pkg.live;
  }

  /** SetNodeMode(embedded) is refused at once while the embedded node is wedged, and
      a mode that cannot be persisted is not put in force. */
  lemma RefusedSwitchChangesNothing(s: State, mode: Mode, x: Choice)
    requires (s.op == ModeWanted(mode) && mode == Embedded && s.node.wedged) || (s.op == ModeChecked(mode) && !x.ok)
    ensures StepOp(s, x) == s.(op := Idle)
  {
  }

  /** Shutdown takes the handle and launches its stop whatever a transition is doing. */
  lemma ShutdownLaunchesTheStop(s: State)
    ensures
      var s' := Next(s, OuterStop);
      && s'.node.embedded.None? && s'.op == s.op && s'.settings == s.settings && s'.pkg == s.pkg
      && (s.node.embedded.Some? ==> s'.node.stopping && s'.waiting == s.node.embedded && s'.due == s.due + {s.node.embedded.value})
      && (s.node.embedded.None? ==> s' == s)
  {
  }
}
