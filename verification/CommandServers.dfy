/** What becomes of the command servers: which operations lose one that still listens, and which close one twice. */
module CommandServers {
  import opened Wrappers
  import opened LifecycleSpec
  import opened LifecycleProofs

  /** The current command server, if it listens. */
  function OpenCurrent(w: World): set<nat> {
    if w.now.server.Some? && w.now.server.value in w.servers.open then {w.now.server.value} else {}
  }

  /** The current command server was closed before: closing it again closes it twice. */
  predicate ClosedBefore(w: World) {
    w.now.server.Some? && w.now.server.value in w.servers.shut
  }

  /** The servers that listen though no variable holds them: nobody can close them any more. */
  function Lost(w: World): set<nat> {
    w.servers.open - OpenCurrent(w)
  }

  // ---------------------------------------------------------------- stopping loses none, but may close one twice

  /** The alert closes the server and keeps the variable: it loses no server, and it closes one again exactly when the
      current one was closed before. */
  lemma AlertClosesAgainIff(w: World, o: Oracle)
    ensures var n := StopAndAlert(w, o);
            && n.w.now.server == w.now.server && n.w.nextId == w.nextId && Lost(n.w) == Lost(w)
            && n.w.servers.shut >= w.servers.shut
            && (!n.verdict.Panicked? ==>
                  n.w.servers.again == w.servers.again + (if ClosedBefore(w) then 1 else 0))
  {
    hide SetCoreStatus, UnserveIfAny, CloseCurrent, ShutServer;
    var w0 := SetCoreStatus(w, Stopped, UnexpectedError);
    StatusFrame(w, Stopped, UnexpectedError);
    var n0 := CallOut(w0, o, DeactivateTunnel);
    UnserveFrame(n0.w, o);
    var n1 := UnserveIfAny(n0.w, o);
    if n1.w.now.box.Some? {
      CloseFrame(n1.w, o);
    }
    var w3 := if n1.w.now.box.Some? then DropBox(CloseCurrent(n1.w, o).w) else n1.w;
    if w3.now.server.Some? {
      ShutLosesNone(w3, o);
    }
  }

  lemma ShutLosesNone(w: World, o: Oracle)
    requires w.now.server.Some?
    ensures var after := ShutServer(w, o).w;
            && after == w.(clock := after.clock, servers := after.servers) && Lost(after) == Lost(w)
            && after.servers.shut >= w.servers.shut
            && after.servers.again == w.servers.again + (if w.now.server.value in w.servers.shut then 1 else 0)
            && (ShutServer(w, o).verdict.Fine? ==> OpenCurrent(after) == {})
  {
  }

  /** A stop that works leaves no command server, and closes the one there was, again if it was closed before. */
  lemma FinishStopClosesAgainIff(w: World, o: Oracle)
    requires w.now.box.Some?
    ensures var r := FinishStop(w, o);
            && Lost(r.w) == Lost(w) && r.w.nextId == w.nextId
            && (r.end.Returned? && !r.end.reply.isError ==>
                  && r.w.now.server.None? && r.w.servers.open == w.servers.open - OpenCurrent(w)
                  && r.w.servers.again == w.servers.again
                                          + (if ClosedBefore(w) then 1 else 0))
  {
    hide SetCoreStatus, CloseCurrent, ShutServer;
    CloseFrame(w, o);
    var w3 := DropBox(CloseCurrent(w, o).w);
    StatusFrame(w3, Stopped);
    if w3.now.server.Some? {
      ShutLosesNone(w3, o);
      StatusFrame(DropServer(ShutServer(w3, o).w), Stopped);
    }
  }

  /** The same for Stop; however it ends, no server is lost. */
  lemma StopClosesAgainIff(w: World, o: Oracle)
    ensures var r := Stop(w, o);
            && Lost(r.w) == Lost(w) && r.w.nextId == w.nextId
            && (r.end.Returned? && !r.end.reply.isError ==>
                  && r.w.now.server.None? && r.w.servers.open == w.servers.open - OpenCurrent(w)
                  && r.w.servers.again == w.servers.again
                                          + (if ClosedBefore(w) then 1 else 0))
  {
    hide SetCoreStatus, UnserveIfAny, FinishStop, StopAndAlert, Lost, OpenCurrent;
    SameServers(w, w);
    if w.now.core.Started? && w.now.box.Some? {
      StatusFrame(w, Stopping);
      var n0 := CallOut(SetCoreStatus(w, Stopping), o, DeactivateTunnel);
      SameServers(w, n0.w);
      UnserveFrame(n0.w, o);
      var n1 := UnserveIfAny(n0.w, o);
      SameServers(w, n1.w);
      FinishStopClosesAgainIff(n1.w, o);
    }
    AlertClosesAgainIff(StopBody(w, o).w, o);
  }

  lemma SameServers(w: World, after: World)
    requires w.now.server == after.now.server && w.servers == after.servers
    ensures Lost(w) == Lost(after) && OpenCurrent(w) == OpenCurrent(after)
  {
  }

  // ---------------------------------------------------------------- starting loses the server it replaces

  /** What a step adds to the lost servers, when it changes the variable. */
  function Replaced(w: World, after: World): set<nat> {
    if after.now.server != w.now.server then OpenCurrent(w) else {}
  }

  lemma JudgeLosesNone(n: Next, o: Oracle, message: Message)
    ensures var after := After(Judge(n, o, message));
            && Lost(after) == Lost(n.w) && after.now.server == n.w.now.server && after.nextId == n.w.nextId
            && (Judge(n, o, message).Passed? ==> after == n.w)
  {
    hide SetCoreStatus, StopAndAlert, Lost;
    var w := SetCoreStatus(n.w, Stopped, message);
    StatusFrame(n.w, Stopped, message);
    SameServers(n.w, w);
    AlertClosesAgainIff(w, o);
  }

  lemma CallLosesNone(w: World, o: Oracle, call: Call, message: Message)
    ensures var s := Judge(CallOut(w, o, call), o, message);
            && Lost(After(s)) == Lost(w) && After(s).now.server == w.now.server
            && (s.Passed? ==> s.w == w.(clock := w.clock + 1))
  {
    hide Judge, Lost;
    var n := CallOut(w, o, call);
    JudgeLosesNone(n, o, message);
    SameServers(w, n.w);
  }

  lemma ConfigureLosesNone(w: World, req: Request, o: Oracle)
    ensures var s := Configure(w, req, o);
            && Lost(After(s)) == Lost(w) && After(s).now.server == w.now.server
            && (s.Passed? ==> OnlyConfigured(w, s.w))
  {
    hide Judge, Lost, CallOut;
    forall u, call, message
      ensures var s := Judge(CallOut(u, o, call), o, message);
              && Lost(After(s)) == Lost(u) && After(s).now.server == u.now.server
              && (s.Passed? ==> s.w == u.(clock := u.clock + 1))
    {
      CallLosesNone(u, o, call, message);
    }
    forall u: World, after | OnlyConfigured(u, after) ensures Lost(u) == Lost(after) {
      SameServers(u, after);
    }
    forall u, call ensures OnlyConfigured(u, CallOut(u, o, call).w) {
      CallFrame(u, o, call);
    }
    ReadLosesNone(w, req, o);
  }

  lemma ReadLosesNone(w: World, req: Request, o: Oracle)
    ensures var s := ReadStage(w, req, o);
            && Lost(After(s)) == Lost(w) && After(s).now.server == w.now.server
            && (s.Passed? ==> OnlyConfigured(w, s.w))
  {
    hide Judge, Lost;
    var w1 := w.(configPath := req.path);
    SameServers(w, w1);
    CallLosesNone(w1, o, ReadConfig(req.path), ErrorReadingConfig);
  }

  lemma ServerStageLoses(w: World, req: Request, o: Oracle)
    requires Held(w, ANY_RUN)
    ensures var after := After(ServerStage(w, req, o)); Lost(after) == Lost(w) + Replaced(w, after)
  {
    if req.commandServer {
      hide Judge;
      var n := OpenServer(MadeServer(CallOut(w, o, NewLogger).w), o);
      NewServerLoses(w, o);
      JudgeLosesNone(n, o, StartCommandServer);
      hide OpenServer;
    }
  }

  lemma NewServerLoses(w: World, o: Oracle)
    requires Held(w, ANY_RUN)
    ensures var made := OpenServer(MadeServer(CallOut(w, o, NewLogger).w), o).w;
            Lost(made) == Lost(w) + OpenCurrent(w) && made.now.server == Some(w.nextId) != w.now.server
  {
  }

  lemma BoxStageLosesNone(w: World, o: Oracle)
    ensures Lost(After(BoxStage(w, o))) == Lost(w) && After(BoxStage(w, o)).now.server == w.now.server
  {
    hide Judge, Lost, Moved;
    CallLosesNone(w, o, NewBox, CreateService);
    var s := Judge(CallOut(w, o, NewBox), o, CreateService);
    if s.Passed? {
      var w1 := s.w.(nextId := s.w.nextId + 1);
      SameServers(w, w1);
      CallLosesNone(w1, o, StartBox, StartServiceFailed);
      var t := Judge(CallOut(w1, o, StartBox), o, StartServiceFailed);
      if t.Passed? {
        BoxStartedServers(t.w, s.w.nextId);
        SameServers(w, BoxStage(w, o).w);
      }
    }
  }

  lemma BoxStartedServers(w: World, box: nat)
    ensures var running := Moved(w.(started := w.started + 1), w.now.(live := w.now.live + {box}));
            var after := Moved(running, running.now.(box := Some(box)));
            after.servers == w.servers && after.now.server == w.now.server
  {
  }

  lemma ServeLosesNone(w: World, req: Request, o: Oracle)
    requires w.now.box.Some? && (req.commandServer ==> w.now.server.Some?)
    ensures var after := After(ServeStage(w, req, o)); after.servers == w.servers && after.now.server == w.now.server
  {
  }

  lemma LaunchLoses(w: World, req: Request, o: Oracle)
    requires Held(w, ANY_RUN)
    ensures var after := Launch(w, req, o).w; Lost(after) == Lost(w) + Replaced(w, after)
  {
    hide Held, ServerStage, BoxStage, ServeStage, SetCoreStatus, Lost, OpenCurrent;
    ServerStageLoses(w, req, o);
    if ServerStage(w, req, o).Passed? {
      var w1 := ServerStage(w, req, o).w;
      BoxStageLosesNone(w1, o);
      if BoxStage(w1, o).Passed? {
        var w2 := BoxStage(w1, o).w;
        ServeLosesNone(w2, req, o);
        var w3 := After(ServeStage(w2, req, o));
        SameServers(w2, w3);
        StatusFrame(w3, Started);
        SameServers(w3, SetCoreStatus(w3, Started));
      }
    }
  }

  /** However a start ends, it loses a command server exactly when it replaces one that listens. */
  lemma StartServiceLoses(w: World, req: Request, o: Oracle)
    requires Held(w, ANY_RUN)
    ensures var after := StartService(w, req, o).w; Lost(after) == Lost(w) + Replaced(w, after)
  {
    hide Held, Configure, Launch, Lost, OpenCurrent;
    ConfigureLosesNone(w, req, o);
    ConfigureKeeps(w, req, o, ANY_RUN);
    if Configure(w, req, o).Passed? {
      var w1 := Configure(w, req, o).w;
      SameServers(w, w1);
      LaunchLoses(w1, req, o);
    }
  }

  // ---------------------------------------------------------------- every operation

  /** The handler of a reload lets go of the server without closing it. */
  lemma ClearLoses(w: World, o: Oracle)
    ensures var n := ClearForReload(w, o);
            && Lost(n.w) == Lost(w) + Replaced(w, n.w)
            && (!n.verdict.Panicked? ==> n.w.now.server.None? && Replaced(w, n.w) == OpenCurrent(w))
  {
    hide SetCoreStatus, UnserveIfAny, CloseCurrent;
    var w0 := SetCoreStatus(w, Starting);
    StatusFrame(w, Starting);
    UnserveFrame(w0, o);
    var n1 := UnserveIfAny(w0, o);
    var w1 := if n1.w.now.server.Some? then DropServer(n1.w) else n1.w;
    if w1.now.box.Some? {
      CloseFrame(w1, o);
    }
  }

  /** The servers an operation loses: a reload the one it lets go, any start the one it replaces, if they listen. */
  function OperationLoses(w: World, op: Operation, o: Oracle): set<nat> {
    (if op.OpReload? then Replaced(w, ClearForReload(w, o).w) else {})
    + match Entry(w, op, o)
      case Some(e) => Replaced(e, StartService(e, RequestOf(op), o).w)
      case None => {}
  }

  lemma GuardLosesNone(r: Result, o: Oracle)
    ensures Lost(Guarded(r, o).w) == Lost(r.w)
  {
    hide Lost, StopAndAlert;
    AlertClosesAgainIff(r.w, o);
  }

  /** From a state between operations: what entering StartService over Begin loses. */
  lemma BeginLoses(w: World, req: Request, o: Oracle)
    requires Held(w, ANY_RUN)
    ensures Lost(Begin(w, req, o).w)
         == Lost(w) + match EntryOfBegin(w, o)
                      case Some(e) => Replaced(e, StartService(e, req, o).w)
                      case None => {}
  {
    hide Held, SetCoreStatus, StartService, Lost, OpenCurrent, Replaced;
    StatusKeeps(w, Starting, ANY_RUN);
    var w0 := SetCoreStatus(w, Starting);
    CallKeeps(w0, o, MemoryLimit, ANY_RUN);
    var n := CallOut(w0, o, MemoryLimit);
    StatusFrame(w, Starting);
    SameServers(w, n.w);
    StartServiceLoses(n.w, req, o);
  }

  lemma StartLoses(w: World, req: Request, o: Oracle)
    requires Held(w, ANY_RUN) && AtRest(w, ANY_RUN)
    ensures Lost(Start(w, req, o).w) == Lost(w) + OperationLoses(w, OpStart(req), o)
    ensures Lost(Restart(w, req, o).w) == Lost(w) + OperationLoses(w, OpRestart(req), o)
  {
    hide Held, AtRest, Stop, Begin, Guarded, EntryOfBegin, Lost, Replaced, StartService;
    StopClosesAgainIff(w, o);
    StopKeeps(w, o, ANY_RUN);
    BeginLoses(w, req, o);
    BeginLoses(Stop(w, o).w, req, o);
    GuardLosesNone(StartBody(w, req, o), o);
    GuardLosesNone(RestartBody(w, req, o), o);
  }

  lemma ReloadLoses(w: World, o: Oracle)
    requires Held(w, ANY_RUN) && AtRest(w, ANY_RUN)
    ensures Lost(ServiceReload(w, o).w) == Lost(w) + OperationLoses(w, OpReload, o)
    ensures !ServiceReload(w, o).end.Panicking? ==> Lost(ServiceReload(w, o).w) == Lost(w) + OpenCurrent(w)
  {
    hide Held, AtRest, ClearForReload, StartService, Lost;
    ClearLoses(w, o);
    ClearKeeps(w, o, ANY_RUN);
    var n := ClearForReload(w, o);
    if !n.verdict.Panicked? {
      StartServiceLoses(n.w, RELOAD, o);
    }
  }

  /** However an operation ends, it loses these servers and no others, and gets none back. */
  lemma PerformLoses(w: World, op: Operation, o: Oracle)
    requires Held(w, ANY_RUN) && AtRest(w, ANY_RUN)
    ensures Lost(Perform(w, op, o).w) == Lost(w) + OperationLoses(w, op, o)
  {
    hide Held, AtRest, Lost, Replaced, Start, Stop, Restart, ServiceReload, StartService, ClearForReload, EntryOfBegin,
      Guarded;
    var chosen := w.(optionsSet := true);
    SameServers(w, chosen);
    match op
    case OpStart(req) => StartLoses(w, req, o);
    case OpStop => StopClosesAgainIff(w, o);
    case OpRestart(req) => StartLoses(w, req, o);
    case OpReload => ReloadLoses(w, o);
    case OpParse => GuardedCallLosesNone(w, o, ParseContent);
    case OpGenerate => GuardedCallLosesNone(chosen, o, GenerateContent);
    case OpChangeOptions =>
    case OpStartService(req) => StartServiceLoses(w, req, o);
  }

  lemma GuardedCallLosesNone(w: World, o: Oracle, call: Call)
    ensures Lost(GuardedCall(w, o, call).w) == Lost(w)
  {
    hide Lost, Guarded;
    var n := CallOut(w, o, call);
    SameServers(w, n.w);
    GuardLosesNone(Result(n.w, if n.verdict.Panicked? then Panicking
                          else Returned(Reply(n.w.now.core, Empty, n.verdict.Failed?))), o);
  }

  // ---------------------------------------------------------------- whole runs

  ghost predicate NoneLoses(ops: seq<Operation>, o: Oracle) {
    forall k: nat | k < |ops| && !Run(ops[..k], o).end.Panicking? :: OperationLoses(Run(ops[..k], o).w, ops[k], o) == {}
  }

  /** In every run, with any errors and panics: every command server that listens is the current one, if and only if no
      reload found one that listens and no start replaced one. */
  lemma {:induction false} NoServerLostIff(ops: seq<Operation>, o: Oracle)
    ensures Lost(Run(ops, o).w) == {} <==> NoneLoses(ops, o)
  {
    hide Run, Lost, OperationLoses, NoneLoses;
    if ops == [] {
      NothingLost(o);
    } else {
      NoServerLostIff(ops[..|ops| - 1], o);
      RunLoses(ops, o);
      NoneLosesNext(ops, o);
    }
  }

  lemma NothingLost(o: Oracle)
    ensures Lost(Run([], o).w) == {} && NoneLoses([], o)
  {
  }

  lemma RunLoses(ops: seq<Operation>, o: Oracle)
    requires ops != []
    ensures var before := Run(ops[..|ops| - 1], o);
            if before.end.Panicking? then Run(ops, o) == before
            else Lost(Run(ops, o).w) == Lost(before.w) + OperationLoses(before.w, ops[|ops| - 1], o)
  {
    hide Perform, Lost, OperationLoses, Held, AtRest;
    var before := Run(ops[..|ops| - 1], o);
    AnyRunKeeps(ops[..|ops| - 1], o);
    if !before.end.Panicking? {
      PerformLoses(before.w, ops[|ops| - 1], o);
    }
  }

  lemma NoneLosesNext(ops: seq<Operation>, o: Oracle)
    requires ops != []
    ensures var before := Run(ops[..|ops| - 1], o);
            NoneLoses(ops, o) <==> && NoneLoses(ops[..|ops| - 1], o)
                                   && (before.end.Panicking? || OperationLoses(before.w, ops[|ops| - 1], o) == {})
  {
    hide Run, OperationLoses;
    var n := |ops| - 1;
    assert forall k: nat | k < n :: ops[..n][..k] == ops[..k] && ops[..n][k] == ops[k];
  }
}
