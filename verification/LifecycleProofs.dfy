/** What every sequential run of the life cycle keeps, in the middle of an operation and between operations. */
module LifecycleProofs {
  import opened Wrappers
  import opened LifecycleSpec

  /** The announced states follow this automaton. */
  predicate MayFollow(s: CoreState, t: CoreState) {
    match s
    case Stopped => t.Starting? || t.Stopped?
    case Starting => t.Started? || t.Stopped?
    case Started => t.Stopping? || t.Starting? || t.Stopped?
    case Stopping => t.Stopped? || t.Starting?
  }

  ghost predicate Word(events: seq<Info>) {
    forall i | 0 <= i < |events| - 1 :: MayFollow(events[i].state, events[i + 1].state)
  }

  /** A started core has a box. */
  ghost predicate StartedHasBox(m: Moment) {
    m.core.Started? ==> m.box.Some?
  }

  /** Only the current command server serves, and what it serves is the current box, whose closing was not begun. */
  ghost predicate ServesCurrent(m: Moment) {
    forall s | s in m.serving :: m.server == Some(s) && m.box == Some(m.serving[s]) && m.serving[s] !in m.closing
  }

  ghost predicate AtMostOneLive(m: Moment) {
    forall a, b | a in m.live && b in m.live :: a == b
  }

  /** What is claimed of a run, besides that a started core has a box: what the servers serve; the announcements; when
      closing a box never fails, the accounting of boxes; and, however closings end, that no two boxes are live. */
  datatype Claim = Claim(serves: bool, words: bool, accounts: bool, single: bool)

  const ANY_RUN := Claim(false, false, false, false)

  ghost predicate GoodMoment(m: Moment, claim: Claim) {
    && StartedHasBox(m)
    && (claim.serves ==> ServesCurrent(m))
    && (claim.accounts || claim.single ==> AtMostOneLive(m))
  }

  function BoxSet(m: Moment): set<nat> {
    if m.box.Some? then {m.box.value} else {}
  }

  ghost predicate Held(w: World, claim: Claim) {
    && (forall m | m in w.past :: GoodMoment(m, claim))
    && GoodMoment(w.now, claim)
    && (forall b | b in w.now.live :: b < w.nextId) && (forall b | b in w.now.closing :: b < w.nextId)
    && (w.now.box.Some? ==> w.now.box.value in w.now.live)
    && (w.now.server.Some? ==> w.now.server.value < w.nextId) && (forall s | s in w.servers.open :: s < w.nextId)
    && w.started == w.closed + |w.now.live|
    && |w.events| > 0 && w.events[|w.events| - 1].state == w.now.core
    && (claim.words ==> Word(w.events))
    && (claim.accounts ==> w.now.live == BoxSet(w.now))
  }

  /** The claim's condition on the outside world. */
  ghost predicate Allows(o: Oracle, claim: Claim) {
    claim.accounts ==> forall n :: o(n, CloseBox).Fine?
  }

  ghost predicate Quiet(w: World) {
    w.now.serving == map[]
  }

  // ---------------------------------------------------------------- single steps

  lemma WordExtends(events: seq<Info>, info: Info)
    requires |events| > 0
    ensures Word(events + [info]) <==> Word(events) && MayFollow(events[|events| - 1].state, info.state)
  {
    var longer := events + [info];
    assert forall i | 0 <= i < |events| :: longer[i] == events[i];
    assert longer[|events| - 1 + 1] == info;
  }

  lemma StatusKeeps(w: World, state: CoreState, claim: Claim, message: Message := Empty)
    requires Held(w, claim)
    requires state.Started? ==> w.now.box.Some?
    requires claim.words ==> MayFollow(w.now.core, state)
    ensures Held(SetCoreStatus(w, state, message), claim)
  {
    if claim.words {
      WordExtends(w.events, Info(state, message));
    }
  }

  lemma CallKeeps(w: World, o: Oracle, call: Call, claim: Claim)
    requires Held(w, claim)
    ensures Held(CallOut(w, o, call).w, claim)
  {
  }

  lemma ServerCloseKeeps(w: World, o: Oracle, claim: Claim)
    requires Held(w, claim) && w.now.server.Some?
    ensures var after := ShutServer(w, o).w;
            Held(after, claim) && after == w.(clock := after.clock, servers := after.servers)
  {
  }

  lemma ServerStartKeeps(w: World, o: Oracle, claim: Claim)
    requires Held(w, claim) && w.now.server.Some?
    ensures var after := OpenServer(w, o).w;
            Held(after, claim) && after == w.(clock := after.clock, servers := after.servers)
  {
  }

  lemma UnserveKeeps(w: World, o: Oracle, claim: Claim)
    requires Held(w, claim)
    ensures var n := UnserveIfAny(w, o);
            && Held(n.w, claim)
            && n.w.now.core == w.now.core && n.w.now.box == w.now.box && n.w.now.server == w.now.server
            && (claim.serves && !n.verdict.Panicked? ==> Quiet(n.w))
  {
  }

  lemma ServerChangeKeeps(w: World, server: Option<nat>, nextId: nat, claim: Claim)
    requires Held(w, claim) && nextId >= w.nextId && (server.Some? ==> server.value < nextId)
    requires claim.serves ==> Quiet(w)
    ensures Held(Moved(w.(nextId := nextId), w.now.(server := server)), claim)
  {
  }

  lemma CloseKeeps(w: World, o: Oracle, claim: Claim)
    requires Held(w, claim) && w.now.box.Some? && Allows(o, claim)
    requires claim.serves ==> Quiet(w)
    ensures var n := CloseCurrent(w, o);
            && n.w.now.core == w.now.core && n.w.now.box == w.now.box && n.w.now.server == w.now.server
            && n.w.now.serving == w.now.serving
            && (!n.verdict.Fine? ==> Held(n.w, claim))
            && (!w.now.core.Started? ==> Held(DropBox(n.w), claim))
            && (claim.accounts ==> n.verdict.Fine?)
  {
    if CloseCurrent(w, o).verdict.Fine? {
      ClosedKeeps(w, o, claim);
    } else {
      BegunKeeps(w, o, claim);
      hide CloseCurrent;
    }
  }

  lemma ClosedKeeps(w: World, o: Oracle, claim: Claim)
    requires Held(w, claim) && w.now.box.Some? && (claim.serves ==> Quiet(w)) && CloseCurrent(w, o).verdict.Fine?
    ensures !w.now.core.Started? ==> Held(DropBox(CloseCurrent(w, o).w), claim)
  {
  }

  lemma BegunKeeps(w: World, o: Oracle, claim: Claim)
    requires Held(w, claim) && w.now.box.Some? && (claim.serves ==> Quiet(w)) && !CloseCurrent(w, o).verdict.Fine?
    requires !claim.accounts
    ensures Held(CloseCurrent(w, o).w, claim)
    ensures !w.now.core.Started? ==> Held(DropBox(CloseCurrent(w, o).w), claim)
  {
  }

  // ---------------------------------------------------------------- StopAndAlert and Stop

  lemma StopAndAlertKeeps(w: World, o: Oracle, claim: Claim)
    requires Held(w, claim) && Allows(o, claim)
    ensures var n := StopAndAlert(w, o);
            Held(n.w, claim) && (!n.verdict.Panicked? ==> AtRestStopped(n.w, claim))
  {
    hide Held, SetCoreStatus, UnserveIfAny, CloseCurrent, CallOut, DropBox, Quiet, ShutServer;
    var w0 := SetCoreStatus(w, Stopped, UnexpectedError);
    StatusKeeps(w, Stopped, claim, UnexpectedError);
    StatusFrame(w, Stopped, UnexpectedError);
    var n0 := CallOut(w0, o, DeactivateTunnel);
    CallKeeps(w0, o, DeactivateTunnel, claim);
    CallFrame(w0, o, DeactivateTunnel);
    if !n0.verdict.Panicked? {
      var n1 := UnserveIfAny(n0.w, o);
      UnserveKeeps(n0.w, o, claim);
      if !n1.verdict.Panicked? {
        var w3 := n1.w;
        if n1.w.now.box.Some? {
          CloseKeeps(n1.w, o, claim);
          DropFrame(CloseCurrent(n1.w, o).w);
          w3 := DropBox(CloseCurrent(n1.w, o).w);
          QuietFrame(n1.w, w3);
        }
        if w3.now.server.Some? {
          ServerCloseKeeps(w3, o, claim);
          QuietFrame(w3, ShutServer(w3, o).w);
        }
      }
    }
  }

  /** A stopped core between operations: no box, and nothing is served. */
  ghost predicate AtRestStopped(w: World, claim: Claim) {
    w.now.core.Stopped? && w.now.box.None? && (claim.serves ==> Quiet(w))
  }

  lemma StatusFrame(w: World, state: CoreState, message: Message := Empty)
    ensures var after := SetCoreStatus(w, state, message);
            && after.now == w.now.(core := state) && after.started == w.started && after.nextId == w.nextId
            && after.configPath == w.configPath && after.events == w.events + [Info(state, message)]
            && after.servers == w.servers
  {
  }

  lemma CallFrame(w: World, o: Oracle, call: Call)
    ensures CallOut(w, o, call).w == w.(clock := w.clock + 1)
  {
  }

  lemma DropFrame(w: World)
    ensures DropBox(w).now == w.now.(box := None)
  {
  }

  lemma UnserveFrame(w: World, o: Oracle)
    ensures var after := UnserveIfAny(w, o).w;
            && after.now.core == w.now.core && after.now.box == w.now.box && after.now.server == w.now.server
            && after.configPath == w.configPath && after.started == w.started && after.events == w.events
            && after.now.live == w.now.live && after.nextId == w.nextId && after.servers == w.servers
  {
  }

  lemma CloseFrame(w: World, o: Oracle)
    requires w.now.box.Some?
    ensures var after := CloseCurrent(w, o).w;
            && after.now.core == w.now.core && after.now.box == w.now.box && after.now.server == w.now.server
            && after.configPath == w.configPath && after.started == w.started && after.events == w.events
            && after.nextId == w.nextId && after.servers == w.servers
  {
  }

  lemma QuietFrame(w: World, after: World)
    requires w.now.serving == after.now.serving
    ensures Quiet(w) == Quiet(after)
  {
  }

  /** Between operations: never starting; a stopped core has no box; only a started one serves; and when closing never
      fails, a core that got stuck stopping has no box either. */
  ghost predicate AtRest(w: World, claim: Claim) {
    && !w.now.core.Starting?
    && (w.now.core.Stopped? ==> w.now.box.None?)
    && (claim.serves && !w.now.core.Started? ==> Quiet(w))
    && (claim.accounts && w.now.core.Stopping? ==> w.now.box.None?)
  }

  lemma GuardKeeps(r: Result, o: Oracle, claim: Claim)
    requires Held(r.w, claim) && Allows(o, claim)
    requires !r.end.Panicking? ==> AtRest(r.w, claim)
    ensures Held(Guarded(r, o).w, claim)
    ensures !Guarded(r, o).end.Panicking? ==> AtRest(Guarded(r, o).w, claim)
    ensures Guarded(r, o).end.Recovered? && !r.end.Recovered? ==> AtRestStopped(Guarded(r, o).w, claim)
    ensures Guarded(r, o).end.Returned? ==> Guarded(r, o) == r
  {
    hide Held, Quiet, StopAndAlert;
    if r.end.Panicking? {
      StopAndAlertKeeps(r.w, o, claim);
    }
  }

  /** How a stop may end before its panics are recovered from. */
  ghost predicate StopEnds(r: Result, claim: Claim) {
    && Held(r.w, claim)
    && !r.end.Recovered?
    && (r.end.Returned? ==>
          && AtRest(r.w, claim) && !r.w.now.core.Started? && !r.end.reply.message.InstanceNotFound?
          && (!r.end.reply.isError ==> AtRestStopped(r.w, claim)))
  }

  lemma StopBodyKeeps(w: World, o: Oracle, claim: Claim)
    requires Held(w, claim) && AtRest(w, claim) && Allows(o, claim)
    ensures StopEnds(StopBody(w, o), claim)
  {
    assert w.now.core.Started? ==> w.now.box.Some?;
    hide Held, SetCoreStatus, UnserveIfAny, CallOut, Quiet, FinishStop;
    if w.now.core.Started? {
      var w0 := SetCoreStatus(w, Stopping);
      StatusKeeps(w, Stopping, claim);
      StatusFrame(w, Stopping);
      var n0 := CallOut(w0, o, DeactivateTunnel);
      CallKeeps(w0, o, DeactivateTunnel, claim);
      CallFrame(w0, o, DeactivateTunnel);
      if !n0.verdict.Panicked? {
        var n1 := UnserveIfAny(n0.w, o);
        UnserveKeeps(n0.w, o, claim);
        if !n1.verdict.Panicked? {
          hide StopEnds;
          FinishStopKeeps(n1.w, o, claim);
        }
      }
    }
  }

  lemma FinishStopKeeps(w: World, o: Oracle, claim: Claim)
    requires Held(w, claim) && Allows(o, claim) && w.now.core.Stopping? && w.now.box.Some?
    requires claim.serves ==> Quiet(w)
    ensures StopEnds(FinishStop(w, o), claim)
  {
    hide Held, SetCoreStatus, CloseCurrent, DropBox, Quiet, DropServer, CallOut, ShutServer;
    var n2 := CloseCurrent(w, o);
    CloseKeeps(w, o, claim);
    QuietFrame(w, n2.w);
    if n2.verdict.Fine? {
      var w3 := DropBox(n2.w);
      DropFrame(n2.w);
      QuietFrame(n2.w, w3);
      StoppedKeeps(w3, claim);
      if w3.now.server.Some? {
        var w4 := ShutServer(w3, o).w;
        ServerCloseKeeps(w3, o, claim);
        QuietFrame(w3, w4);
        ServerDropKeeps(w4, claim);
        StoppedKeeps(DropServer(w4), claim);
      }
    }
  }

  /** Announcing that the core has stopped, once it has no box. */
  lemma StoppedKeeps(w: World, claim: Claim)
    requires Held(w, claim) && w.now.core.Stopping? && w.now.box.None?
    requires claim.serves ==> Quiet(w)
    ensures Held(SetCoreStatus(w, Stopped), claim) && AtRestStopped(SetCoreStatus(w, Stopped), claim)
  {
    hide Held, SetCoreStatus, Quiet;
    StatusKeeps(w, Stopped, claim);
    StatusFrame(w, Stopped);
    QuietFrame(w, SetCoreStatus(w, Stopped));
  }

  lemma StopKeeps(w: World, o: Oracle, claim: Claim)
    requires Held(w, claim) && AtRest(w, claim) && Allows(o, claim)
    ensures var r := Stop(w, o);
            && Held(r.w, claim)
            && (!r.end.Panicking? ==> AtRest(r.w, claim) && !r.w.now.core.Started?)
            && (r.end.Returned? ==> !r.end.reply.message.InstanceNotFound?)
            && (r.end.Recovered? || (r.end.Returned? && !r.end.reply.isError) ==> AtRestStopped(r.w, claim))
  {
    hide Held, Quiet, StopBody, Guarded;
    StopBodyKeeps(w, o, claim);
    GuardKeeps(StopBody(w, o), o, claim);
    assert Guarded(StopBody(w, o), o).end.Returned? || Guarded(StopBody(w, o), o).end.Recovered?
           || Guarded(StopBody(w, o), o).end.Panicking?;
  }

  // ---------------------------------------------------------------- StartService

  /** A start that returns no error. */
  predicate Succeeds(r: Result) {
    r.end.Returned? && !r.end.reply.isError
  }

  /** Where StartService may be entered, for how it ends: a start that succeeds needs a core that is starting; one that
      makes a server or starts a box needs that nothing is served; and one that starts a box needs that there is
      none. */
  ghost predicate Fits(w: World, r: Result, claim: Claim) {
    && (claim.words && Succeeds(r) ==> w.now.core.Starting?)
    && (claim.serves && (r.w.now.server != w.now.server || r.w.started != w.started) ==> Quiet(w))
    && (claim.accounts && r.w.started != w.started ==> w.now.box.None?)
  }

  /** A start that starts a box needs that none is live. */
  ghost predicate Alone(w: World, r: Result, claim: Claim) {
    claim.single && r.w.started != w.started ==> w.now.live == {}
  }

  ghost predicate StageKeeps(s: Stage, claim: Claim) {
    match s
    case Passed(w') => Held(w', claim)
    case Ended(r) => EndKeeps(r, claim)
  }

  /** A stage that ends the start without a panic leaves the core stopped. */
  ghost predicate EndKeeps(r: Result, claim: Claim) {
    && Held(r.w, claim) && !r.end.Recovered?
    && (r.end.Returned? ==> AtRestStopped(r.w, claim) && r.end.reply.isError && !r.end.reply.message.InstanceNotFound?)
  }

  lemma HaltKeeps(w: World, o: Oracle, message: Message, claim: Claim)
    requires Held(w, claim) && Allows(o, claim) && !message.InstanceNotFound?
    ensures EndKeeps(Halt(w, o, message), claim)
  {
    hide Held, Quiet, StopAndAlert, SetCoreStatus;
    StatusKeeps(w, Stopped, claim, message);
    StopAndAlertKeeps(SetCoreStatus(w, Stopped, message), o, claim);
  }

  /** What StopAndAlert, and so the end of a stage, never touches. */
  lemma StopAndAlertFrame(w: World, o: Oracle)
    ensures var after := StopAndAlert(w, o).w; after.now.server == w.now.server && after.started == w.started
  {
    hide SetCoreStatus, UnserveIfAny, CloseCurrent;
    var w0 := SetCoreStatus(w, Stopped, UnexpectedError);
    StatusFrame(w, Stopped, UnexpectedError);
    var n0 := CallOut(w0, o, DeactivateTunnel);
    UnserveFrame(n0.w, o);
    var n1 := UnserveIfAny(n0.w, o);
    if n1.w.now.box.Some? {
      CloseFrame(n1.w, o);
    }
  }

  lemma JudgeFrame(n: Next, o: Oracle, message: Message)
    ensures match Judge(n, o, message)
            case Passed(w') => w' == n.w
            case Ended(r) => r.w.now.server == n.w.now.server && r.w.started == n.w.started
  {
    hide StopAndAlert, SetCoreStatus;
    StatusFrame(n.w, Stopped, message);
    StopAndAlertFrame(SetCoreStatus(n.w, Stopped, message), o);
  }

  lemma JudgedKeeps(n: Next, o: Oracle, message: Message, claim: Claim)
    requires Held(n.w, claim) && Allows(o, claim) && !message.InstanceNotFound?
    ensures StageKeeps(Judge(n, o, message), claim)
  {
    hide Held, Quiet, Halt;
    HaltKeeps(n.w, o, message, claim);
  }

  /** A library call as a stage. */
  lemma JudgedCallKeeps(w: World, o: Oracle, call: Call, message: Message, claim: Claim)
    requires Held(w, claim) && Allows(o, claim) && !message.InstanceNotFound?
    ensures StageKeeps(Judge(CallOut(w, o, call), o, message), claim)
    ensures Judge(CallOut(w, o, call), o, message).Passed? ==>
              Judge(CallOut(w, o, call), o, message).w == w.(clock := w.clock + 1)
  {
    hide Held, Quiet, Halt;
    var n := CallOut(w, o, call);
    CallKeeps(w, o, call, claim);
    HaltKeeps(n.w, o, message, claim);
  }

  lemma PathChangeKeeps(w: World, path: string, claim: Claim)
    requires Held(w, claim)
    ensures Held(w.(configPath := path), claim)
  {
  }

  /** Configuring changes nothing but the clock and the path. */
  ghost predicate OnlyConfigured(w: World, after: World) {
    after == w.(clock := after.clock, configPath := after.configPath)
  }

  lemma ConfigureKeeps(w: World, req: Request, o: Oracle, claim: Claim)
    requires Held(w, claim) && Allows(o, claim)
    ensures StageKeeps(Configure(w, req, o), claim)
    ensures Configure(w, req, o).Passed? ==> OnlyConfigured(w, Configure(w, req, o).w)
  {
    hide Held, Judge, EndKeeps;
    PathChangeKeeps(w, req.path, claim);
    JudgedCallKeeps(w.(configPath := req.path), o, ReadConfig(req.path), ErrorReadingConfig, claim);
    match ReadStage(w, req, o) {
      case Ended(_) =>
      case Passed(w1) =>
        JudgedCallKeeps(w1, o, ParseOptions, ErrorParsingConfig, claim);
        match Judge(CallOut(w1, o, ParseOptions), o, ErrorParsingConfig) {
          case Ended(_) =>
          case Passed(w2) =>
            PanicKeeps(w2, claim);
            JudgedCallKeeps(w2, o, BuildOptions, ErrorBuildingConfig, claim);
            match BuildStage(w2, req, o) {
              case Ended(_) =>
              case Passed(w3) =>
                SaveKeeps(w3, o, claim);
            }
        }
    }
  }

  lemma PanicKeeps(w: World, claim: Claim)
    requires Held(w, claim)
    ensures EndKeeps(Result(w, Panicking), claim)
  {
  }

  lemma SaveKeeps(w: World, o: Oracle, claim: Claim)
    requires Held(w, claim)
    ensures StageKeeps(SaveStage(w, o), claim)
  {
    var n := CallOut(w, o, SaveConfig);
    CallKeeps(w, o, SaveConfig, claim);
    PathChangeKeeps(n.w, if n.w.configPath == "" then CURRENT_CONFIG else n.w.configPath, claim);
  }

  /** The world a stage leaves, whether it passed or ended. */
  function After(s: Stage): World {
    match s case Passed(w) => w case Ended(r) => r.w
  }

  lemma ServerStageKeeps(w: World, req: Request, o: Oracle, claim: Claim)
    requires Held(w, claim) && Allows(o, claim)
    requires claim.serves && After(ServerStage(w, req, o)).now.server != w.now.server ==> Quiet(w)
    ensures StageKeeps(ServerStage(w, req, o), claim)
  {
    hide Held, Judge, EndKeeps, Quiet, StageKeeps, CallOut, OpenServer;
    if !req.commandServer {
      PassKeeps(w, claim);
    } else {
      var n := CallOut(w, o, NewLogger);
      if n.verdict.Panicked? {
        CallKeeps(w, o, NewLogger, claim);
        PanicKeeps(n.w, claim);
        PanicIsStage(n.w, claim);
      } else {
        NewServerKeeps(w, o, claim);
        ServerStartKeeps(MadeServer(n.w), o, claim);
        JudgedKeeps(OpenServer(MadeServer(n.w), o), o, StartCommandServer, claim);
      }
    }
  }

  lemma PassKeeps(w: World, claim: Claim)
    requires Held(w, claim)
    ensures StageKeeps(Passed(w), claim)
  {
  }

  lemma PanicIsStage(w: World, claim: Claim)
    requires EndKeeps(Result(w, Panicking), claim)
    ensures StageKeeps(Ended(Result(w, Panicking)), claim)
  {
  }

  lemma NewServerKeeps(w: World, o: Oracle, claim: Claim)
    requires Held(w, claim)
    requires var made := MadeServer(CallOut(w, o, NewLogger).w);
             claim.serves && After(Judge(OpenServer(made, o), o, StartCommandServer)).now.server != w.now.server
             ==> Quiet(w)
    ensures Held(MadeServer(CallOut(w, o, NewLogger).w), claim)
  {
    var n := CallOut(w, o, NewLogger);
    assert w.now.server != Some(n.w.nextId);
    CallKeeps(w, o, NewLogger, claim);
    QuietFrame(w, n.w);
    hide Held, Judge, Quiet;
    JudgeFrame(OpenServer(MadeServer(n.w), o), o, StartCommandServer);
    ServerChangeKeeps(n.w, Some(n.w.nextId), n.w.nextId + 1, claim);
  }

  /** A passed server stage leaves the box, what is served, and the counts alone. */
  lemma ServerStageFrame(w: World, req: Request, o: Oracle)
    ensures match ServerStage(w, req, o)
            case Passed(w') =>
              && w'.now == w.now.(server := w'.now.server) && w'.started == w.started && w'.events == w.events
              && (if req.commandServer then w'.now.server == Some(w.nextId) && w'.nextId == w.nextId + 1
                  else w' == w)
            case Ended(r) => r.w.started == w.started
  {
    hide Judge;
    if req.commandServer {
      var n := CallOut(w, o, NewLogger);
      JudgeFrame(OpenServer(MadeServer(n.w), o), o, StartCommandServer);
    }
  }

  /** A box that has started becomes live, then current; it was never closed, and nothing serves it yet. */
  lemma NewBoxKeeps(w: World, claim: Claim)
    requires Held(w, claim) && (claim.serves ==> Quiet(w)) && (claim.accounts ==> w.now.box.None?)
             && (claim.single ==> w.now.live == {})
    ensures var running := Moved(w.(nextId := w.nextId + 1, started := w.started + 1),
                                 w.now.(live := w.now.live + {w.nextId}));
            var after := Moved(running, running.now.(box := Some(w.nextId)));
            Held(after, claim) && w.nextId !in after.now.closing
  {
  }

  lemma BoxStageKeeps(w: World, o: Oracle, claim: Claim)
    requires Held(w, claim) && Allows(o, claim)
    requires BoxStage(w, o).Passed? ==> (claim.serves ==> Quiet(w)) && (claim.accounts ==> w.now.box.None?)
                                        && (claim.single ==> w.now.live == {})
    ensures match BoxStage(w, o)
            case Ended(r) => EndKeeps(r, claim)
            case Passed(w2) => Held(w2, claim) && w2.now.box.Some? && w2.now.box.value !in w2.now.closing
  {
    hide Held, EndKeeps, Quiet;
    JudgedCallKeeps(w, o, NewBox, CreateService, claim);
    match Judge(CallOut(w, o, NewBox), o, CreateService) {
      case Ended(_) =>
      case Passed(w1) =>
        var box := w1.nextId;
        IdsGrow(w1, claim);
        JudgedCallKeeps(w1.(nextId := box + 1), o, StartBox, StartServiceFailed, claim);
        var counted := w1.(clock := w1.clock + 1);
        CallKeeps(w1, o, StartBox, claim);
        QuietFrame(w, counted);
        if BoxStage(w, o).Passed? {
          NewBoxKeeps(counted, claim);
        }
    }
  }

  /** A passed box stage has started one more box, under a new identity; one that ends has started none. */
  lemma BoxStageFrame(w: World, o: Oracle)
    ensures match BoxStage(w, o)
            case Passed(w') =>
              && w'.now == w.now.(box := Some(w.nextId), live := w.now.live + {w.nextId})
              && w'.started == w.started + 1 && w'.events == w.events
            case Ended(r) => r.w.started == w.started && r.w.now.server == w.now.server
  {
    hide Judge;
    var n := CallOut(w, o, NewBox);
    JudgeFrame(n, o, CreateService);
    if Judge(n, o, CreateService).Passed? {
      JudgeFrame(CallOut(n.w.(nextId := n.w.nextId + 1), o, StartBox), o, StartServiceFailed);
    }
  }

  lemma IdsGrow(w: World, claim: Claim)
    requires Held(w, claim)
    ensures Held(w.(nextId := w.nextId + 1), claim)
  {
  }

  lemma ServeKeeps(w: World, req: Request, o: Oracle, claim: Claim)
    requires Held(w, claim) && w.now.box.Some? && w.now.box.value !in w.now.closing
    requires req.commandServer ==> w.now.server.Some?
    requires claim.serves ==> Quiet(w)
    ensures StageKeeps(ServeStage(w, req, o), claim)
  {
  }

  lemma ServeFrame(w: World, req: Request, o: Oracle)
    requires w.now.box.Some? && (req.commandServer ==> w.now.server.Some?)
    ensures match ServeStage(w, req, o)
            case Passed(w') =>
              && w'.now == w.now.(serving := w'.now.serving)
              && w'.now.serving == (if req.commandServer then w.now.serving[w.now.server.value := w.now.box.value]
                                    else w.now.serving)
              && w'.started == w.started && w'.events == w.events
            case Ended(r) => r.end.Panicking? && r.w.now == w.now && r.w.started == w.started && r.w.events == w.events
  {
  }

  /** Where a launch ends shows how far it came. */
  lemma LaunchFrame(w: World, req: Request, o: Oracle)
    ensures var r := Launch(w, req, o);
            match ServerStage(w, req, o)
            case Ended(e) => r == e
            case Passed(w1) =>
              && r.w.now.server == w1.now.server
              && r.w.started == w.started + (if BoxStage(w1, o).Passed? then 1 else 0)
  {
    hide ServerStage, BoxStage, ServeStage, SetCoreStatus;
    ServerStageFrame(w, req, o);
    match ServerStage(w, req, o) {
      case Ended(_) =>
      case Passed(w1) =>
        BoxStageFrame(w1, o);
        match BoxStage(w1, o) {
          case Ended(_) =>
          case Passed(w2) =>
            ServeFrame(w2, req, o);
            match ServeStage(w2, req, o) {
              case Ended(_) =>
              case Passed(w3) => StatusFrame(w3, Started);
            }
        }
    }
  }

  lemma LaunchKeeps(w: World, req: Request, o: Oracle, claim: Claim)
    requires Held(w, claim) && Allows(o, claim)
    requires Fits(w, Launch(w, req, o), claim) && Alone(w, Launch(w, req, o), claim)
    ensures ServiceKeeps(Launch(w, req, o), claim)
  {
    hide Held, ServerStage, BoxStage, ServeStage, Quiet, SetCoreStatus;
    LaunchFrame(w, req, o);
    ServerStageFrame(w, req, o);
    ServerStageKeeps(w, req, o, claim);
    match ServerStage(w, req, o) {
      case Ended(_) =>
      case Passed(w1) =>
        QuietFrame(w, w1);
        BoxStageKeeps(w1, o, claim);
        BoxStageFrame(w1, o);
        match BoxStage(w1, o) {
          case Ended(_) =>
          case Passed(w2) =>
            QuietFrame(w1, w2);
            ServeKeeps(w2, req, o, claim);
            ServeFrame(w2, req, o);
            match ServeStage(w2, req, o) {
              case Ended(_) =>
              case Passed(w3) =>
                StatusKeeps(w3, Started, claim);
                StatusFrame(w3, Started);
            }
        }
    }
  }

  /** StartService ends started with a box, or stopped and at rest, or in a panic. */
  ghost predicate ServiceKeeps(r: Result, claim: Claim) {
    && Held(r.w, claim) && !r.end.Recovered?
    && (r.end.Returned? ==> AtRest(r.w, claim) && !r.end.reply.message.InstanceNotFound?
                            && (r.w.now.core.Started? <==> !r.end.reply.isError)
                            && (r.w.now.core.Started? || AtRestStopped(r.w, claim)))
  }

  lemma StartServiceKeeps(w: World, req: Request, o: Oracle, claim: Claim)
    requires Held(w, claim) && Allows(o, claim)
    requires Fits(w, StartService(w, req, o), claim) && Alone(w, StartService(w, req, o), claim)
    ensures ServiceKeeps(StartService(w, req, o), claim)
  {
    hide Held, Configure, Launch, Quiet;
    ConfigureKeeps(w, req, o, claim);
    match Configure(w, req, o) {
      case Ended(r) =>
      case Passed(w1) =>
        QuietFrame(w, w1);
        LaunchKeeps(w1, req, o, claim);
    }
  }

  // ---------------------------------------------------------------- the other entry points

  ghost predicate EntersAlone(entry: Option<World>, req: Request, o: Oracle, claim: Claim) {
    entry.Some? ==> Alone(entry.value, StartService(entry.value, req, o), claim)
  }

  /** However the operation enters StartService, if it then starts a box no other is live. */
  ghost predicate StartsAlone(w: World, op: Operation, o: Oracle, claim: Claim) {
    EntersAlone(Entry(w, op, o), RequestOf(op), o, claim)
  }

  lemma BeginKeeps(w: World, req: Request, o: Oracle, claim: Claim)
    requires Held(w, claim) && AtRest(w, claim) && !w.now.core.Started? && Allows(o, claim)
    requires EntersAlone(EntryOfBegin(w, o), req, o, claim)
    ensures ServiceKeeps(Begin(w, req, o), claim)
  {
    hide Held, SetCoreStatus, StartService, Quiet;
    var w0 := SetCoreStatus(w, Starting);
    StatusKeeps(w, Starting, claim);
    StatusFrame(w, Starting);
    QuietFrame(w, w0);
    var n := CallOut(w0, o, MemoryLimit);
    CallKeeps(w0, o, MemoryLimit, claim);
    CallFrame(w0, o, MemoryLimit);
    QuietFrame(w0, n.w);
    if !n.verdict.Panicked? {
      StartServiceKeeps(n.w, req, o, claim);
    }
  }

  /** An operation keeps the claim at every moment and, unless it ends the process, leaves the core at rest. */
  ghost predicate OperationKeeps(r: Result, claim: Claim) {
    && Held(r.w, claim)
    && (!r.end.Panicking? ==> AtRest(r.w, claim))
    && (r.end.Returned? ==> !r.end.reply.message.InstanceNotFound?)
  }

  lemma StartKeeps(w: World, req: Request, o: Oracle, claim: Claim)
    requires Held(w, claim) && AtRest(w, claim) && Allows(o, claim)
    requires StartsAlone(w, OpStart(req), o, claim)
    ensures OperationKeeps(Start(w, req, o), claim)
    ensures Start(w, req, o).end.Returned? ==>
              (Start(w, req, o).w.now.core.Started? <==> !Start(w, req, o).end.reply.isError)
  {
    hide Held, Quiet, Begin, Stop, Guarded, EntersAlone, EntryOfBegin;
    if w.now.core.Stopped? {
      BeginKeeps(w, req, o, claim);
    } else {
      StopKeeps(w, o, claim);
      if !Stop(w, o).end.Panicking? {
        BeginKeeps(Stop(w, o).w, req, o, claim);
      }
    }
    GuardKeeps(StartBody(w, req, o), o, claim);
  }

  lemma RestartKeeps(w: World, req: Request, o: Oracle, claim: Claim)
    requires Held(w, claim) && AtRest(w, claim) && Allows(o, claim)
    requires StartsAlone(w, OpRestart(req), o, claim)
    ensures OperationKeeps(Restart(w, req, o), claim)
  {
    assert w.now.core.Started? ==> w.now.box.Some?;
    hide Held, Quiet, Begin, Stop, Guarded, EntersAlone, EntryOfBegin;
    if w.now.core.Started? {
      StopKeeps(w, o, claim);
      var end := Stop(w, o).end;
      if end.Recovered? || (end.Returned? && !end.reply.isError) {
        BeginKeeps(Stop(w, o).w, req, o, claim);
      }
    }
    GuardKeeps(RestartBody(w, req, o), o, claim);
  }

  lemma ReloadKeeps(w: World, o: Oracle, claim: Claim)
    requires Held(w, claim) && AtRest(w, claim) && Allows(o, claim)
    requires StartsAlone(w, OpReload, o, claim)
    ensures OperationKeeps(ServiceReload(w, o), claim)
  {
    hide Held, Quiet, ClearForReload, StartService;
    ClearKeeps(w, o, claim);
    var n := ClearForReload(w, o);
    if !n.verdict.Panicked? {
      StartServiceKeeps(n.w, RELOAD, o, claim);
    }
  }

  lemma ClearKeeps(w: World, o: Oracle, claim: Claim)
    requires Held(w, claim) && AtRest(w, claim) && Allows(o, claim)
    ensures var n := ClearForReload(w, o);
            Held(n.w, claim) && (!n.verdict.Panicked? ==>
                                   n.w.now.core.Starting? && n.w.now.box.None? && (claim.serves ==> Quiet(n.w)))
  {
    hide Held, Quiet, SetCoreStatus, UnserveIfAny, CloseCurrent, DropBox, DropServer;
    var w0 := SetCoreStatus(w, Starting);
    StatusKeeps(w, Starting, claim);
    StatusFrame(w, Starting);
    var n1 := UnserveIfAny(w0, o);
    UnserveKeeps(w0, o, claim);
    if !n1.verdict.Panicked? {
      var w1 := n1.w;
      if n1.w.now.server.Some? {
        w1 := DropServer(n1.w);
        ServerDropKeeps(n1.w, claim);
      }
      if w1.now.box.Some? {
        CloseKeeps(w1, o, claim);
        var n2 := CloseCurrent(w1, o);
        DropFrame(n2.w);
        QuietFrame(w1, DropBox(n2.w));
      }
    }
  }

  lemma ServerDropKeeps(w: World, claim: Claim)
    requires Held(w, claim)
    requires claim.serves ==> Quiet(w)
    ensures Held(DropServer(w), claim) && DropServer(w).now == w.now.(server := None)
    ensures claim.serves ==> Quiet(DropServer(w))
  {
    ServerChangeKeeps(w, None, w.nextId, claim);
    assert DropServer(w) == Moved(w.(nextId := w.nextId), w.now.(server := None));
  }

  lemma GuardedCallKeeps(w: World, o: Oracle, call: Call, claim: Claim)
    requires Held(w, claim) && AtRest(w, claim) && Allows(o, claim)
    ensures OperationKeeps(GuardedCall(w, o, call), claim)
  {
    hide Held, Quiet, Guarded;
    var n := CallOut(w, o, call);
    CallKeeps(w, o, call, claim);
    QuietFrame(w, n.w);
    GuardKeeps(Result(n.w, if n.verdict.Panicked? then Panicking
                      else Returned(Reply(n.w.now.core, Empty, n.verdict.Failed?))), o, claim);
  }

  lemma OptionsSetKeeps(w: World, claim: Claim)
    requires Held(w, claim) && AtRest(w, claim)
    ensures Held(w.(optionsSet := true), claim) && AtRest(w.(optionsSet := true), claim)
  {
  }

  lemma PerformKeeps(w: World, op: Operation, o: Oracle, claim: Claim)
    requires Held(w, claim) && AtRest(w, claim) && Allows(o, claim)
    requires op.OpStartService? ==> Fits(w, StartService(w, op.req, o), claim)
    requires StartsAlone(w, op, o, claim)
    ensures OperationKeeps(Perform(w, op, o), claim)
  {
    hide Held, AtRest, Start, Stop, Restart, ServiceReload, GuardedCall, StartService, EntryOfBegin, ClearForReload;
    match op {
      case OpStart(req) => StartKeeps(w, req, o, claim);
      case OpStop => StopKeeps(w, o, claim);
      case OpRestart(req) => RestartKeeps(w, req, o, claim);
      case OpReload => ReloadKeeps(w, o, claim);
      case OpParse => GuardedCallKeeps(w, o, ParseContent, claim);
      case OpGenerate =>
        OptionsSetKeeps(w, claim);
        GuardedCallKeeps(w.(optionsSet := true), o, GenerateContent, claim);
      case OpChangeOptions => OptionsSetKeeps(w, claim);
      case OpStartService(req) =>
        StartServiceKeeps(w, req, o, claim);
    }
  }

  // ---------------------------------------------------------------- whole runs

  ghost predicate NoDirectStarts(ops: seq<Operation>) {
    forall op | op in ops :: !op.OpStartService?
  }

  /** The k-th operation is a direct call of StartService, and the process has not ended before it. */
  ghost predicate DirectStart(ops: seq<Operation>, k: nat, o: Oracle)
    requires k < |ops|
  {
    ops[k].OpStartService? && !Run(ops[..k], o).end.Panicking?
  }

  /** Every direct start of the run is entered where it may be. */
  ghost predicate DirectStartsFit(ops: seq<Operation>, o: Oracle, claim: Claim) {
    forall k: nat | k < |ops| && DirectStart(ops, k, o) ::
      Fits(Run(ops[..k], o).w, StartService(Run(ops[..k], o).w, ops[k].req, o), claim)
  }

  /** Every operation of the run that starts a box does so while none is live, if that is claimed. */
  ghost predicate AllStartAlone(ops: seq<Operation>, o: Oracle, claim: Claim) {
    forall k: nat | k < |ops| && !Run(ops[..k], o).end.Panicking? :: StartsAlone(Run(ops[..k], o).w, ops[k], o, claim)
  }

  lemma AnyStartsAlone(ops: seq<Operation>, o: Oracle, claim: Claim)
    requires !claim.single
    ensures AllStartAlone(ops, o, claim) && forall w, op :: StartsAlone(w, op, o, claim)
  {
    hide Run, Entry, StartService;
  }

  lemma AloneBefore(ops: seq<Operation>, o: Oracle, claim: Claim)
    requires AllStartAlone(ops, o, claim) && ops != []
    ensures AllStartAlone(ops[..|ops| - 1], o, claim)
    ensures var before := Run(ops[..|ops| - 1], o);
            !before.end.Panicking? ==> StartsAlone(before.w, ops[|ops| - 1], o, claim)
  {
    hide Run, StartsAlone;
    var n := |ops| - 1;
    forall k: nat | k < n && !Run(ops[..n][..k], o).end.Panicking?
      ensures StartsAlone(Run(ops[..n][..k], o).w, ops[..n][k], o, claim)
    {
      assert ops[..n][..k] == ops[..k] && ops[..n][k] == ops[k];
    }
  }

  lemma {:induction false} RunKeeps(ops: seq<Operation>, o: Oracle, claim: Claim)
    requires Allows(o, claim) && DirectStartsFit(ops, o, claim) && AllStartAlone(ops, o, claim)
    ensures OperationKeeps(Run(ops, o), claim)
  {
    hide Held, AtRest, Perform, Fits, StartService, DirectStartsFit, OperationKeeps, Allows, AllStartAlone, StartsAlone;
    if ops == [] {
      NothingKeeps(claim);
    } else {
      var n := |ops| - 1;
      FitsBefore(ops, o, claim);
      AloneBefore(ops, o, claim);
      RunKeeps(ops[..n], o, claim);
      var before := Run(ops[..n], o);
      if !before.end.Panicking? {
        LastFits(ops, o, claim);
        AtRestBefore(before, claim);
        PerformKeeps(before.w, ops[n], o, claim);
      }
    }
  }

  lemma NothingKeeps(claim: Claim)
    ensures OperationKeeps(Result(START, Recovered), claim)
  {
  }

  lemma AtRestBefore(r: Result, claim: Claim)
    requires OperationKeeps(r, claim) && !r.end.Panicking?
    ensures Held(r.w, claim) && AtRest(r.w, claim)
  {
  }

  lemma FitsBefore(ops: seq<Operation>, o: Oracle, claim: Claim)
    requires DirectStartsFit(ops, o, claim) && ops != []
    ensures DirectStartsFit(ops[..|ops| - 1], o, claim)
  {
    hide Run, Fits, StartService;
    var n := |ops| - 1;
    forall k: nat | k < n && DirectStart(ops[..n], k, o)
      ensures Fits(Run(ops[..n][..k], o).w, StartService(Run(ops[..n][..k], o).w, ops[..n][k].req, o), claim)
    {
      assert ops[..n][..k] == ops[..k] && ops[..n][k] == ops[k];
      assert DirectStart(ops, k, o);
    }
  }

  lemma LastFits(ops: seq<Operation>, o: Oracle, claim: Claim)
    requires DirectStartsFit(ops, o, claim) && ops != [] && !Run(ops[..|ops| - 1], o).end.Panicking?
    ensures var (w, op) := (Run(ops[..|ops| - 1], o).w, ops[|ops| - 1]);
            op.OpStartService? ==> Fits(w, StartService(w, op.req, o), claim)
  {
    hide Run, Fits, StartService;
    assert ops[|ops| - 1].OpStartService? ==> DirectStart(ops, |ops| - 1, o);
  }

  lemma AnythingFits(ops: seq<Operation>, o: Oracle)
    ensures DirectStartsFit(ops, o, ANY_RUN)
  {
  }

  lemma AnyRunKeeps(ops: seq<Operation>, o: Oracle)
    ensures OperationKeeps(Run(ops, o), ANY_RUN)
  {
    hide OperationKeeps, Run, DirectStartsFit, AllStartAlone;
    AnythingFits(ops, o);
    AnyStartsAlone(ops, o, ANY_RUN);
    RunKeeps(ops, o, ANY_RUN);
  }

  /** In every sequential run over all entry points, with any errors and panics: at every moment, even inside an
      operation, a started core has a box; between operations a stopped core has none and no operation has ended while
      starting; and no operation ever answers that the instance was not found. */
  lemma StartedCoreHasBox(ops: seq<Operation>, o: Oracle)
    ensures var r := Run(ops, o);
            && (forall m | m in r.w.past :: m.core.Started? ==> m.box.Some?)
            && (!r.end.Panicking? ==>
                  && !r.w.now.core.Starting?
                  && (r.w.now.core.Started? ==> r.w.now.box.Some?)
                  && (r.w.now.core.Stopped? ==> r.w.now.box.None?))
            && (r.end.Returned? ==> !r.end.reply.message.InstanceNotFound?)
  {
    hide Run;
    AnyRunKeeps(ops, o);
  }

  /** Every direct start of the run finds nothing served. */
  ghost predicate DirectStartsUnserved(ops: seq<Operation>, o: Oracle) {
    forall k: nat | k < |ops| && DirectStart(ops, k, o) :: Quiet(Run(ops[..k], o).w)
  }

  /** Every direct start of the run finds no box. */
  ghost predicate DirectStartsWithoutBox(ops: seq<Operation>, o: Oracle) {
    forall k: nat | k < |ops| && DirectStart(ops, k, o) :: Run(ops[..k], o).w.now.box.None?
  }

  /** When direct starts find nothing served, with any errors and panics: at no moment does a command server, old or
      new, serve a box that is closed, being closed or replaced; and between operations a served box is the current box
      of a started core. */
  lemma NoServerServesClosedBox(ops: seq<Operation>, o: Oracle)
    requires DirectStartsUnserved(ops, o)
    ensures var r := Run(ops, o);
            && (forall m, s | m in r.w.past && s in m.serving ::
                  m.server == Some(s) && m.box == Some(m.serving[s]) && m.serving[s] !in m.closing)
            && (!r.end.Panicking? ==> forall s | s in r.w.now.serving ::
                    r.w.now.core.Started? && r.w.now.box == Some(r.w.now.serving[s]))
  {
    var claim := Claim(true, false, false, false);
    assert DirectStartsFit(ops, o, claim) by {
      hide Run, StartService, Quiet;
    }
    hide Run, AllStartAlone;
    AnyStartsAlone(ops, o, claim);
    RunKeeps(ops, o, claim);
    forall m, s | m in Run(ops, o).w.past && s in m.serving
      ensures m.server == Some(s) && m.box == Some(m.serving[s]) && m.serving[s] !in m.closing
    {
      assert GoodMoment(m, claim);
    }
  }

  /** Without direct starts the announced states, from the initial one on, are a word of the automaton, and the last
      one is the core's state. */
  lemma AnnouncedStatesFollowAutomaton(ops: seq<Operation>, o: Oracle)
    requires NoDirectStarts(ops)
    ensures var w := Run(ops, o).w;
            Word(w.events) && |w.events| > 0 && w.events[|w.events| - 1].state == w.now.core
  {
    var claim := Claim(false, true, false, false);
    assert DirectStartsFit(ops, o, claim) by {
      hide Run, StartService;
    }
    hide Run, AllStartAlone;
    AnyStartsAlone(ops, o, claim);
    RunKeeps(ops, o, claim);
  }

  /** When closing a box never fails and direct starts find no box: boxes started are boxes closed plus the current one,
      and at no moment are two boxes live. */
  lemma BoxesAreAccountedFor(ops: seq<Operation>, o: Oracle)
    requires DirectStartsWithoutBox(ops, o) && forall n :: o(n, CloseBox).Fine?
    ensures var w := Run(ops, o).w;
            && w.started == w.closed + (if w.now.box.Some? then 1 else 0)
            && w.now.live == BoxSet(w.now)
            && forall m, a, b | m in w.past && a in m.live && b in m.live :: a == b
  {
    var claim := Claim(false, false, true, false);
    assert DirectStartsFit(ops, o, claim) by {
      hide Run, StartService;
    }
    hide Run, AllStartAlone;
    AnyStartsAlone(ops, o, claim);
    RunKeeps(ops, o, claim);
    var w := Run(ops, o).w;
    forall m, a, b | m in w.past && a in m.live && b in m.live ensures a == b {
      assert GoodMoment(m, claim) && AtMostOneLive(m);
    }
  }

  /** A direct start that is called only while the core is stopped finds neither a box nor anything served. */
  lemma StoppedCoreMayBeStarted(ops: seq<Operation>, o: Oracle)
    requires forall k: nat | k < |ops| && DirectStart(ops, k, o) :: Run(ops[..k], o).w.now.core.Stopped?
    ensures DirectStartsUnserved(ops, o) && DirectStartsWithoutBox(ops, o)
  {
    hide Run, Held, Quiet, StartService;
    forall k: nat | k < |ops| && DirectStart(ops, k, o)
      ensures Quiet(Run(ops[..k], o).w) && Run(ops[..k], o).w.now.box.None?
    {
      StoppedIsUnserved(ops, k, o);
    }
  }

  lemma {:induction false} StoppedIsUnserved(ops: seq<Operation>, k: nat, o: Oracle)
    requires forall i: nat | i < |ops| && DirectStart(ops, i, o) :: Run(ops[..i], o).w.now.core.Stopped?
    requires k <= |ops| && !Run(ops[..k], o).end.Panicking? && Run(ops[..k], o).w.now.core.Stopped?
    ensures Quiet(Run(ops[..k], o).w) && Run(ops[..k], o).w.now.box.None?
    decreases k
  {
    hide Run, Held, Quiet, StartService;
    var claim := Claim(true, false, false, false);
    forall i: nat | i < |ops[..k]| && DirectStart(ops[..k], i, o)
      ensures Fits(Run(ops[..k][..i], o).w, StartService(Run(ops[..k][..i], o).w, ops[..k][i].req, o), claim)
    {
      assert ops[..k][..i] == ops[..i] && ops[..k][i] == ops[i];
      assert DirectStart(ops, i, o);
      StoppedIsUnserved(ops, i, o);
    }
    hide AllStartAlone;
    AnyStartsAlone(ops[..k], o, claim);
    RunKeeps(ops[..k], o, claim);
  }

  /** Start, whenever it returns at all, returns no error exactly when it leaves the core started. */
  lemma StartReportsTheCore(ops: seq<Operation>, req: Request, o: Oracle)
    requires !Run(ops, o).end.Panicking?
    ensures var r := Start(Run(ops, o).w, req, o);
            r.end.Returned? ==> (r.w.now.core.Started? <==> !r.end.reply.isError)
  {
    AnyRunKeeps(ops, o);
    AnyStartsAlone(ops, o, ANY_RUN);
    StartKeeps(Run(ops, o).w, req, o, ANY_RUN);
  }

  /** In every run at all, also with direct starts and with closings that fail: the current box is live, and the boxes
      started are the boxes closed plus the live ones. */
  lemma NoBoxIsForgotten(ops: seq<Operation>, o: Oracle)
    ensures var w := Run(ops, o).w;
            w.started == w.closed + |w.now.live| && BoxSet(w.now) <= w.now.live
  {
    AnyRunKeeps(ops, o);
  }

  // ---------------------------------------------------------------- where the claims end

  /** The handler asks for the configuration at an empty path. As long as reading an empty path fails, a reload never
      brings the core up again: it returns an error, the core is stopped, and the path that was active is forgotten. */
  lemma ReloadStopsTheCore(ops: seq<Operation>, o: Oracle)
    requires !Run(ops, o).end.Panicking? && forall n :: o(n, ReadConfig("")).Failed?
    ensures var r := ServiceReload(Run(ops, o).w, o);
            r.end.Returned? ==> r.end.reply == Reply(Stopped, ErrorReadingConfig, true) && r.w.now.core.Stopped?
                                && r.w.now.box.None? && r.w.configPath == ""
  {
    AnyRunKeeps(ops, o);
    var w := Run(ops, o).w;
    hide Run;
    AnyStartsAlone(ops, o, ANY_RUN);
    ReloadKeeps(w, o, ANY_RUN);
    hide Held, UnserveIfAny, CloseCurrent, SetCoreStatus;
    ReloadHalts(w, o);
  }

  lemma StopAndAlertClears(w: World, o: Oracle)
    ensures var n := StopAndAlert(w, o);
            n.w.configPath == w.configPath
            && (!n.verdict.Panicked? ==> n.w.now.core.Stopped? && n.w.now.box.None?)
  {
    hide SetCoreStatus, UnserveIfAny, CloseCurrent;
    var w0 := SetCoreStatus(w, Stopped, UnexpectedError);
    StatusFrame(w, Stopped, UnexpectedError);
    var n0 := CallOut(w0, o, DeactivateTunnel);
    UnserveFrame(n0.w, o);
    var n1 := UnserveIfAny(n0.w, o);
    if n1.w.now.box.Some? {
      CloseFrame(n1.w, o);
    }
  }

  lemma HaltClears(w: World, o: Oracle, message: Message)
    ensures var r := Halt(w, o, message);
            r.end.Returned? ==> r.end.reply == Reply(Stopped, message, true) && r.w.now.core.Stopped?
                                && r.w.now.box.None? && r.w.configPath == w.configPath
  {
    hide StopAndAlert, SetCoreStatus;
    StatusFrame(w, Stopped, message);
    StopAndAlertClears(SetCoreStatus(w, Stopped, message), o);
  }

  /** Without a readable configuration at the empty path, the reload's start ends at once. */
  lemma ReadFails(w: World, o: Oracle)
    requires forall n :: o(n, ReadConfig("")).Failed?
    ensures var w1 := w.(configPath := "");
            StartService(w, RELOAD, o) == Halt(w1.(clock := w1.clock + 1), o, ErrorReadingConfig)
  {
    hide Halt, Launch, BuildStage, SaveStage;
    var n := CallOut(w.(configPath := ""), o, ReadConfig(""));
    assert n.verdict.Failed?;
  }

  lemma ReloadHalts(w: World, o: Oracle)
    requires forall n :: o(n, ReadConfig("")).Failed?
    ensures var r := ServiceReload(w, o);
            r.end.Returned? ==> r.end.reply == Reply(Stopped, ErrorReadingConfig, true) && r.w.now.core.Stopped?
                                && r.w.now.box.None? && r.w.configPath == ""
  {
    hide UnserveIfAny, CloseCurrent, SetCoreStatus, StartService, Halt, DropBox, DropServer;
    var n1 := UnserveIfAny(SetCoreStatus(w, Starting), o);
    if !n1.verdict.Panicked? {
      var w1 := if n1.w.now.server.Some? then DropServer(n1.w) else n1.w;
      var n2 := if w1.now.box.Some? then CloseCurrent(w1, o) else Next(w1, Fine);
      if !n2.verdict.Panicked? {
        var w2 := if n2.w.now.box.Some? then DropBox(n2.w) else n2.w;
        ReadFails(w2, o);
        var w3 := w2.(configPath := "");
        HaltClears(w3.(clock := w3.clock + 1), o, ErrorReadingConfig);
      }
    }
  }
}
