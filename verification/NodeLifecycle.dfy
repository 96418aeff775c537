/** Node transitions against stops that ignore the transition lock.  One thread at
    a time holds the transition lock; any number of stopEmbedded calls (shutdown)
    and background degrades run beside it. */
module NodeLifecycle {
  import opened TxTypes
  import opened NodeState
  import P = EmbeddedPackage

  /** The holder of the transition lock, by the section it runs next. */
  datatype Op =
    | Idle
    | ModeWanted(mode: Mode)                  // SetNodeMode: wedge check
    | ModeChecked(mode: Mode)                 // persist
    | ModePersisted(mode: Mode, url: Url)     // flip the mode, drop the connection
    | ModeSwitched(mode: Mode, url: Url)      // leave or enter embedded
    | AwaitStop(url: Url, mine: bool)         // SetNodeMode(remote), past its stop if it launched one
    | ConnectWanted | ConnectRead(mode: Mode, url: Url)
    | UrlWanted(url: Url) | UrlPersisted(url: Url)
    | DisconnectWanted
    | DeleteWanted | DeleteDecided            // about to remove the data directory
    | Guarding                                // startEmbedded's guarded section
    | Starting                                // about to call embeddedStart
    | InStart(node: nat)                      // inside the package, its mutex held
    | Started(node: nat)                      // returned, handle not yet stored
    | DialWanted(url: Url, own: bool)         // setNode; `own` for startEmbedded
    | Dialing(url: Url, gen: nat, own: bool)
    | Subscribing(gen: nat, own: bool)
    | Cleanup                                 // startEmbedded stops what it started
    | AwaitCleanup(mine: bool)

  datatype State = State(
    settings: Settings, node: Node, op: Op, pkg: P.Package,
    waiting: Option<nat>,   // the node a stopEmbedded call is still waiting for
    due: set<nat>,          // nodes whose Stop was launched and has not returned
    nextNode: nat,
    dialled: map<nat, nat>) // the chain identifier the dial of a generation was answered with

  datatype Choice = Choice(ok: bool, chain: nat)

  datatype Event =
    | Begin(op: Op)
    | OpStep(choice: Choice)
    | OuterStop                    // shutdown: stopEmbedded without the transition lock
    | StopEnters(stopped: nat) | StopReturns(stopped: nat)
    | StopSeen | StopTimeout       // the waiting call's bounded select
    | DegradeCall(gen: nat)

  ghost predicate Init(s: State) {
    s == State(s.settings, FRESH, Idle, P.EMPTY, None, {}, 0, map[])
  }

  predicate Entry(op: Op) {
    op.ModeWanted? || op.ConnectWanted? || op.UrlWanted? || op.DisconnectWanted? || op.DeleteWanted?
  }

  /** stopEmbedded up to its wait. */
  function LaunchStop(s: State): State {
    var (node, handle) := TakeEmbedded(s.node);
    if handle.None? then s.(node := node)
    else s.(node := node, waiting := handle, due := s.due + {handle.value})
  }

  function At(s: State, op: Op): State {
    s.(op := op)
  }

  /** What the lock holder does next.  `choice.ok` is the outcome of the disk write,
      the start, the dial or the subscription of that section. */
  function StepOp(s: State, x: Choice): State {
    match s.op
    case Idle => s
    case ModeWanted(mode) =>
      if mode == Embedded && s.node.wedged then At(s, Idle) else At(s, ModeChecked(mode))
    case ModeChecked(mode) =>
      if !x.ok then At(s, Idle)
      else
        var settings := s.settings.(mode := mode);
        s.(settings := settings, op := ModePersisted(mode, settings.ActiveUrl()))
    case ModePersisted(mode, url) => s.(node := SwitchMode(s.node, mode), op := ModeSwitched(mode, url))
    case ModeSwitched(mode, url) =>
      if mode == Embedded then At(s, Guarding) else At(LaunchStop(s), AwaitStop(url, s.node.embedded.Some?))
    case AwaitStop(url, _) => At(s, DialWanted(url, false))
    case ConnectWanted =>
      if x.ok then At(s, ConnectRead(s.settings.mode, s.settings.ActiveUrl())) else At(s, Idle)
    case ConnectRead(mode, url) =>
      At(s.(node := s.node.(mode := Some(mode))), if mode == Embedded then Guarding else DialWanted(url, false))
    case UrlWanted(url) =>
      if !x.ok then At(s, Idle)
      else
        var s' := s.(settings := s.settings.(remoteUrl := url));
        if s.settings.mode == Remote then At(s', UrlPersisted(url)) else At(s', Idle)
    case UrlPersisted(url) => At(s, DialWanted(url, false))
    case DisconnectWanted => At(s.(node := Disconnect(s.node)), Idle)
    case DeleteWanted => if MayDelete(s.node) && x.ok then At(s, DeleteDecided) else At(s, Idle)
    case DeleteDecided => At(s, Idle)
    case Guarding =>
      var (node, guard) := GuardStart(s.node);
      (match guard
       case Refused => At(s.(node := node), Idle)
       case Go(h) => At(s.(node := node), if h.Some? then DialWanted(EMBEDDED_URL, true) else Starting))
    case Starting =>
      if !x.ok then At(s, Idle)
      else (match P.EnterStart(s.pkg, s.nextNode)
            case None => At(s, Idle)
            case Some(pkg) => s.(pkg := pkg, nextNode := s.nextNode + 1, op := InStart(s.nextNode)))
    case InStart(node) =>
      s.(pkg := P.LeaveStart(s.pkg, node, x.ok), op := if x.ok then Started(node) else Idle)
    case Started(node) => At(s.(node := s.node.(embedded := Some(node))), DialWanted(EMBEDDED_URL, true))
    case DialWanted(url, own) =>
      At(s.(node := Disconnect(s.node)), Dialing(url, s.node.connGen + 1, own))
    case Dialing(url, gen, own) =>
      if !x.ok then At(s, if own then Cleanup else Idle)
      else
        var (node, mine) := Install(s.node, url, x.chain, gen);
        At(s.(node := node, dialled := s.dialled[gen := x.chain]), if mine then Subscribing(gen, own) else if own then Cleanup else Idle)
    case Subscribing(gen, own) =>
      if x.ok then At(s, Idle)
      else At(s.(node := Degrade(s.node, gen).0), if own then Cleanup else Idle)
    case Cleanup => At(LaunchStop(s), AwaitCleanup(s.node.embedded.Some?))
    case AwaitCleanup(_) => At(s, Idle)
  }

  /** The lock holder waits for a stop it launched, and for the package mutex. */
  predicate OpReady(s: State) {
    match s.op
    case Idle => false
    case AwaitStop(_, mine) => mine ==> s.waiting.None?
    case AwaitCleanup(mine) => mine ==> s.waiting.None?
    case Starting => s.pkg.holder == P.Nobody
    case _ => true
  }

  predicate Enabled(s: State, e: Event) {
    match e
    case Begin(op) => s.op == Idle && Entry(op)
    case OpStep(_) => OpReady(s)
    case OuterStop => true
    case StopEnters(stopped) => stopped in s.due && s.pkg.holder == P.Nobody
    case StopReturns(stopped) => s.pkg.holder == P.Stop(stopped)
    case StopSeen => s.waiting.Some? && s.waiting.value !in s.due
    case StopTimeout => s.waiting.Some?
    case DegradeCall(_) => true
  }

  function Next(s: State, e: Event): State
    requires Enabled(s, e)
  {
    match e
    case Begin(op) => At(s, op)
    case OpStep(x) => StepOp(s, x)
    case OuterStop => LaunchStop(s)
    case StopEnters(stopped) => s.(pkg := P.EnterStop(s.pkg, stopped))
    case StopReturns(stopped) => s.(pkg := P.LeaveStop(s.pkg, stopped), due := s.due - {stopped})
    case StopSeen => s.(node := StopLanded(s.node), waiting := None)
    case StopTimeout => s.(node := StopTimedOut(s.node), waiting := None)
    case DegradeCall(gen) => s.(node := Degrade(s.node, gen).0)
  }

  datatype Run = Run(states: seq<State>, events: seq<Event>)

  ghost predicate ValidRun(r: Run) {
    && |r.states| == |r.events| + 1 && Init(r.states[0])
    && forall i :: 0 <= i < |r.events| ==> Enabled(r.states[i], r.events[i]) && r.states[i + 1] == Next(r.states[i], r.events[i])
  }

  // ---- The embedded node

  /** The one node that may be running, and why. */
  function Owned(s: State): set<nat> {
    s.due + (if s.node.embedded.Some? then {s.node.embedded.value} else {}) +
    (match s.op case InStart(n) => {n} case Started(n) => {n} case _ => {})
  }

  predicate BringingUp(op: Op) {
    op.Starting? || op.InStart? || op.Started?
  }

  /** The flags cover every stop in flight, and no start overlaps one. */
  ghost predicate StopsCovered(s: State) {
    && (s.node.stopping <==> s.waiting.Some?)
    && (s.due != {} ==> s.node.stopping || s.node.wedged)
    && (s.node.stopping || s.node.wedged ==> s.node.embedded.None? && !BringingUp(s.op))
    && (BringingUp(s.op) ==> s.node.embedded.None?)
    && (forall m, n :: m in s.due && n in s.due ==> m == n)
    && (s.waiting.Some? && s.due != {} ==> s.due == {s.waiting.value})
  }

  ghost predicate PackageOk(s: State) {
    && s.pkg.live == Owned(s)
    && (forall n :: n in s.pkg.live ==> n < s.nextNode)
    && (match s.pkg.holder
        case Nobody => !s.op.InStart?
        case Start(n) => s.op == InStart(n)
        case Stop(n) => n in s.due && !s.op.InStart?)
    && (if s.op.InStart? then s.pkg.current.None?
        else forall n :: s.pkg.current == Some(n) <==> n in s.pkg.live)
  }

  ghost predicate DeleteOk(s: State) {
    s.op.DeleteDecided? ==> s.node.embedded.None? && s.due == {}
  }

  ghost predicate NodeInv(s: State) {
    StopsCovered(s) && PackageOk(s) && DeleteOk(s)
  }

  // ---- Modes and connections

  predicate Switching(op: Op) {
    op.ModePersisted?
  }

  /** In-memory mode and settings agree, except while a new mode is being put in
      force. */
  ghost predicate ModeOk(s: State) {
    && (s.node.mode.Some? && !Switching(s.op) ==> s.node.mode.value == s.settings.mode)
    && (match s.op
        case ModePersisted(m, url) => s.settings.mode == m && url == s.settings.ActiveUrl()
        case ModeSwitched(m, url) => s.settings.mode == m && url == s.settings.ActiveUrl()
        case AwaitStop(url, _) => s.settings.mode == Remote && url == s.settings.ActiveUrl()
        case ConnectRead(m, url) => s.settings.mode == m && url == s.settings.ActiveUrl()
        case UrlPersisted(url) => s.settings.mode == Remote && url == s.settings.ActiveUrl()
        case DialWanted(url, own) => url == s.settings.ActiveUrl() && (own <==> s.settings.mode == Embedded)
        case Dialing(url, _, own) => url == s.settings.ActiveUrl() && (own <==> s.settings.mode == Embedded)
        case Subscribing(_, own) => own <==> s.settings.mode == Embedded
        case _ => BringingUp(s.op) || s.op in {Guarding, Cleanup} || s.op.AwaitCleanup? ==> s.settings.mode == Embedded)
  }

  /** Remote settings leave no embedded handle, but for a switch that has yet to
      drop it. */
  ghost predicate RemoteOk(s: State) {
    s.settings.mode == Remote && s.node.embedded.Some? ==>
      s.op.ModePersisted? || s.op.ModeSwitched?
  }

  /** A connection reaches the configured endpoint, but for a transition that has yet
      to drop it. */
  ghost predicate UrlOk(s: State) {
    s.node.client.Some? && !(s.op.ModePersisted? || s.op.UrlPersisted? || (s.op.DialWanted? && !s.op.own)) ==>
      s.node.client.value.url == s.settings.ActiveUrl()
  }

  ghost predicate ConnectionOk(s: State) {
    && (s.node.client.Some? ==> s.node.client.value.gen == s.node.connGen)
    && (s.node.client.None? ==> s.node.chainId == 0)
    && (s.node.client.Some? ==>
          s.node.client.value.gen in s.dialled && s.node.chainId == s.dialled[s.node.client.value.gen])
    && (s.op.Dialing? ==> s.op.gen <= s.node.connGen && s.node.client.None?)
    && (s.op.Subscribing? && s.node.client.Some? ==> s.node.client.value.gen == s.op.gen)
    && (s.op in {Starting, Cleanup} || s.op.AwaitCleanup? || s.op.ModeSwitched? || s.op.AwaitStop? || s.op.InStart? || s.op.Started? ==>
          s.node.client.None?)
  }

  ghost predicate TransitionInv(s: State) {
    ModeOk(s) && RemoteOk(s) && UrlOk(s) && ConnectionOk(s)
  }

  lemma InitInv(s: State)
    requires Init(s)
    ensures NodeInv(s) && TransitionInv(s)
  {
  }

  lemma StopStepKeeps(s: State, e: Event)
    requires NodeInv(s) && Enabled(s, e)
    requires e.OuterStop? || e.StopEnters? || e.StopReturns? || e.StopSeen? || e.StopTimeout? || e.DegradeCall? || e.Begin?
    ensures NodeInv(Next(s, e))
  {
  }

  predicate Bringing(op: Op) {
    BringingUp(op) || op.Guarding? || op.Cleanup? || op.ModeSwitched?
  }

  lemma BringUpKeeps(s: State, x: Choice)
    requires NodeInv(s) && OpReady(s) && BringingUp(s.op)
    ensures NodeInv(StepOp(s, x))
  {
  }

  lemma GuardKeeps(s: State, x: Choice)
    requires NodeInv(s) && OpReady(s) && Bringing(s.op) && !BringingUp(s.op)
    ensures NodeInv(StepOp(s, x))
  {
  }

  /** The other sections leave handles, flags and package alone. */
  lemma SettledKeeps(s: State, x: Choice)
    requires NodeInv(s) && OpReady(s) && !Bringing(s.op)
    ensures NodeInv(StepOp(s, x))
  {
    SettledFrame(s, x);
    hide StepOp, OpReady;
  }

  lemma SettledFrame(s: State, x: Choice)
    requires OpReady(s) && !Bringing(s.op)
    ensures
      var s' := StepOp(s, x);
      && s'.pkg == s.pkg && s'.due == s.due && s'.waiting == s.waiting && s'.nextNode == s.nextNode
      && s'.node.embedded == s.node.embedded && s'.node.stopping == s.node.stopping && s'.node.wedged == s.node.wedged
      && !BringingUp(s'.op) && (s'.op.DeleteDecided? ==> MayDelete(s.node))
  {
    hide Disconnect, Install, Degrade;
    if s.op.Dialing? || s.op.DialWanted? || s.op.Subscribing? || s.op.DisconnectWanted? || s.op.ModePersisted? {
      DialFrame(s, x);
      hide StepOp;
    }
  }

  lemma DialFrame(s: State, x: Choice)
    requires s.op.Dialing? || s.op.DialWanted? || s.op.Subscribing? || s.op.DisconnectWanted? || s.op.ModePersisted?
    ensures
      var s' := StepOp(s, x);
      && s'.pkg == s.pkg && s'.due == s.due && s'.waiting == s.waiting && s'.nextNode == s.nextNode
      && s'.node.embedded == s.node.embedded && s'.node.stopping == s.node.stopping && s'.node.wedged == s.node.wedged
      && !BringingUp(s'.op) && !s'.op.DeleteDecided?
  {
  }

  lemma TransitionStopKeeps(s: State, e: Event)
    requires TransitionInv(s) && Enabled(s, e) && !e.OpStep?
    ensures TransitionInv(Next(s, e))
  {
  }

  predicate Choosing(op: Op) {
    op.ModeWanted? || op.ModeChecked? || op.ModePersisted? || op.ModeSwitched? || op.AwaitStop? || op.ConnectWanted? || op.ConnectRead? ||
    op.UrlWanted? || op.UrlPersisted? || op.DisconnectWanted? || op.DeleteWanted? || op.DeleteDecided?
  }

  lemma ChoosingKeeps(s: State, x: Choice)
    requires TransitionInv(s) && OpReady(s) && Choosing(s.op)
    ensures TransitionInv(StepOp(s, x))
  {
  }

  lemma EmbeddedKeeps(s: State, x: Choice)
    requires TransitionInv(s) && OpReady(s) && (BringingUp(s.op) || s.op in {Guarding, Cleanup} || s.op.AwaitCleanup?)
    ensures TransitionInv(StepOp(s, x))
  {
  }

  lemma DialKeeps(s: State, x: Choice)
    requires TransitionInv(s) && OpReady(s) && (s.op.DialWanted? || s.op.Dialing? || s.op.Subscribing?)
    ensures TransitionInv(StepOp(s, x))
  {
  }

  lemma StepKeeps(s: State, e: Event)
    requires NodeInv(s) && TransitionInv(s) && Enabled(s, e)
    ensures NodeInv(Next(s, e)) && TransitionInv(Next(s, e))
  {
    match e
    case OpStep(x) =>
      if BringingUp(s.op) {
        BringUpKeeps(s, x);
      } else if Bringing(s.op) {
        GuardKeeps(s, x);
      } else {
        SettledKeeps(s, x);
      }
      if Choosing(s.op) {
        ChoosingKeeps(s, x);
      } else if s.op.DialWanted? || s.op.Dialing? || s.op.Subscribing? {
        DialKeeps(s, x);
      } else {
        EmbeddedKeeps(s, x);
      }
      hide NodeInv, TransitionInv;
    case _ =>
      StopStepKeeps(s, e);
      TransitionStopKeeps(s, e);
      hide NodeInv, TransitionInv;
  }

  lemma {:induction false} RunKeeps(r: Run, i: nat)
    requires ValidRun(r) && i < |r.states|
    ensures NodeInv(r.states[i]) && TransitionInv(r.states[i])
  {
    if i == 0 {
      InitInv(r.states[0]);
    } else {
      RunKeeps(r, i - 1);
      StepKeeps(r.states[i - 1], r.events[i - 1]);
    }
  }

  // ---- Single instance

  /** At most one embedded node is ever running, and the package's own guard always
      agrees: it names exactly that node, except inside a start. */
  lemma OneEmbeddedNode(r: Run, i: nat, m: nat, n: nat)
    requires ValidRun(r) && i < |r.states|
    requires m in r.states[i].pkg.live && n in r.states[i].pkg.live
    ensures m == n
    ensures !r.states[i].op.InStart? ==> r.states[i].pkg.current == Some(m)
  {
    RunKeeps(r, i);
  }

  /** When the lock holder calls embeddedStart, no stop holds - or will ever again
      want - the package mutex, no node is running, and the package's guard is
      clear: the call neither blocks nor is refused. */
  lemma StartNeverBlocks(r: Run, i: nat)
    requires ValidRun(r) && i < |r.states| && r.states[i].op.Starting?
    ensures r.states[i].pkg.holder == P.Nobody && r.states[i].due == {} && r.states[i].pkg.live == {}
    ensures P.EnterStart(r.states[i].pkg, r.states[i].nextNode).Some?
  {
    RunKeeps(r, i);
    var s := r.states[i];
    assert Owned(s) == {};
    assert forall n :: n in s.pkg.live ==> n in Owned(s);
    assert s.pkg.current == None || exists n :: s.pkg.current == Some(n);
  }

  /** No stop begins while a start is inside the package. */
  lemma NoStopDuringStart(r: Run, i: nat)
    requires ValidRun(r) && i < |r.states| && r.states[i].op.InStart?
    ensures r.states[i].due == {} && r.states[i].pkg.holder == P.Start(r.states[i].op.node)
  {
    RunKeeps(r, i);
  }

  /** DeleteEmbeddedData removes the data directory under no live node. */
  lemma DeleteIsSafe(r: Run, i: nat)
    requires ValidRun(r) && i < |r.states| && r.states[i].op.DeleteDecided?
    ensures r.states[i].pkg.live == {}
  {
    RunKeeps(r, i);
    assert Owned(r.states[i]) == {};
  }

  /** A stop that timed out rules out every later start and delete. */
  lemma {:induction false} WedgeIsForever(r: Run, i: nat, j: nat)
    requires ValidRun(r) && i <= j < |r.states| && r.states[i].node.wedged
    ensures r.states[j].node.wedged && !BringingUp(r.states[j].op) && !MayDelete(r.states[j].node)
  {
    hide NodeInv, TransitionInv, Enabled, Next, ValidRun, BringingUp, MayDelete;
    RunKeeps(r, j);
    StepOf(r, j);
    if i < j {
      WedgeIsForever(r, i, j - 1);
      WedgeStays(r.states[j - 1], r.events[j - 1]);
    }
    WedgedIsIdle(r.states[j]);
  }

  lemma StepOf(r: Run, j: nat)
    requires ValidRun(r) && j < |r.states|
    ensures 0 < j ==> |r.events| >= j && Enabled(r.states[j - 1], r.events[j - 1]) && r.states[j] == Next(r.states[j - 1], r.events[j - 1])
  {}

  lemma WedgedIsIdle(s: State)
    requires NodeInv(s) && s.node.wedged
    ensures !BringingUp(s.op) && !MayDelete(s.node)
  {}

  lemma WedgeStays(s: State, e: Event)
    requires Enabled(s, e) && s.node.wedged
    ensures Next(s, e).node.wedged
  {
  }

  // ---- Transition consistency

  /** Whenever the transition lock is free, a set in-memory mode is the persisted
      one, persisted remote leaves no embedded handle, and an installed client was
      dialled at the configured endpoint. */
  lemma TransitionsAreConsistent(r: Run, i: nat)
    requires ValidRun(r) && i < |r.states| && r.states[i].op == Idle
    ensures var s := r.states[i];
            && (s.node.mode.Some? ==> s.node.mode.value == s.settings.mode)
            && (s.settings.mode == Remote ==> s.node.embedded.None?)
            && (s.node.client.Some? ==> s.node.client.value.url == s.settings.ActiveUrl())
  {
    RunKeeps(r, i);
  }

  /** In every state an installed client is of the current intent, and without one
      the chain identifier reads zero. */
  lemma ClientIsCurrent(r: Run, i: nat)
    requires ValidRun(r) && i < |r.states|
    ensures var n := r.states[i].node;
            if n.client.Some? then n.client.value.gen == n.connGen else n.chainId == 0
  {
    RunKeeps(r, i);
  }

  /** An installed client's chain identifier is the one its own dial was answered with,
      whatever dials, teardowns and degrades came between. */
  lemma ClientHasItsChain(r: Run, i: nat)
    requires ValidRun(r) && i < |r.states| && r.states[i].node.client.Some?
    ensures
      var s := r.states[i];
      s.node.client.value.gen in s.dialled && s.node.chainId == s.dialled[s.node.client.value.gen]
  {
    RunKeeps(r, i);
  }

  /** A background degrade of a superseded connection changes nothing; one of the
      current connection leaves no client. */
  lemma DegradeSparesOthers(s: State, gen: nat)
    ensures
      var s' := Next(s, DegradeCall(gen));
      if gen == s.node.connGen then s'.node.client.None? && s'.node.chainId == 0 && s'.node.connGen > gen
      else s' == s
  {
  }

  /** An install that succeeds replaces no client: the one before it was torn down,
      so two connections never overlap. */
  lemma InstallReplacesNothing(r: Run, i: nat)
    requires ValidRun(r) && i < |r.events| && r.states[i].op.Dialing?
    ensures r.states[i].node.client.None?
  {
    RunKeeps(r, i);
  }

  /** Only the holder of the transition lock installs a client. */
  lemma OnlyTransitionsInstall(s: State, e: Event)
    requires Enabled(s, e) && Next(s, e).node.client.Some? && Next(s, e).node.client != s.node.client
    ensures e.OpStep? && s.op.Dialing? && s.op.gen == s.node.connGen
  {
  }
}
