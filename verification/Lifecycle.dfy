/** The package's variables as an object whose methods change them step by step, proved to do exactly what the functions
    of LifecycleSpec say; so what LifecycleProofs shows of every run holds of the object. */
module Lifecycle {
  import opened Wrappers
  import opened LifecycleSpec
  import opened LifecycleProofs

  /** How a method that models one stage reports it: nothing when the start goes on, else how it ended. */
  ghost predicate Reports(s: Stage, w: World, ended: Option<Ending>) {
    match s
    case Passed(w') => ended.None? && w == w'
    case Ended(r) => ended == Some(r.end) && w == r.w
  }

  class Core {
    /** How library calls end; what a call did before is seen only through this. */
    const o: Oracle

    var coreState: CoreState
    var box: Option<nat>
    var oldCommandServer: Option<nat>
    var activeConfigPath: string
    var optionsSet: bool

    /** The calls made and the objects made so far. */
    var clock: nat
    var nextId: nat

    /** The state of the library's objects, and the history. */
    ghost var serving: map<nat, nat>
    ghost var live: set<nat>
    ghost var closing: set<nat>
    ghost var past: seq<Moment>
    ghost var events: seq<Info>
    ghost var started: nat
    ghost var closed: nat
    ghost var servers: Servers

    ghost function Current(): Moment
      reads this
    {
      Moment(coreState, box, oldCommandServer, serving, live, closing)
    }

    ghost function Whole(): World
      reads this
    {
      World(Current(), past, events, started, closed, servers, clock, nextId, activeConfigPath, optionsSet)
    }

    constructor (oracle: Oracle)
      ensures Whole() == START && o == oracle
    {
      o := oracle;
      coreState, box, oldCommandServer := Stopped, None, None;
      activeConfigPath, optionsSet := "", false;
      clock, nextId := 0, 0;
      serving, live, closing := map[], {}, {};
      past := [Moment(Stopped, None, None, map[], {}, {})];
      events := [Info(Stopped, Empty)];
      started, closed, servers := 0, 0, Servers({}, {}, 0);
    }

    // -------------------------------------------------------------- single steps

    /** A change of the variables is over: the moment enters the history. */
    ghost method Remember()
      modifies this`past
      ensures Whole() == old(Whole()).(past := old(past) + [old(Current())])
    {
      past := past + [Current()];
    }

    method CallLibrary(call: Call) returns (verdict: Verdict)
      modifies this`clock
      ensures Next(Whole(), verdict) == CallOut(old(Whole()), o, call)
    {
      verdict := o(clock, call);
      clock := clock + 1;
    }

    method SetCoreStatus(state: CoreState, message: Message := Empty)
      modifies this`coreState, this`events, this`past
      ensures Whole() == LifecycleSpec.SetCoreStatus(old(Whole()), state, message)
    {
      coreState := state;
      events := events + [Info(state, message)];
      Remember();
    }

    /** oldCommandServer.SetService(nil), when there is a command server. */
    method UnserveIfAny() returns (verdict: Verdict)
      modifies this`clock, this`serving, this`past
      ensures Next(Whole(), verdict) == LifecycleSpec.UnserveIfAny(old(Whole()), o)
    {
      verdict := Fine;
      if oldCommandServer.Some? {
        verdict := CallLibrary(ClearService);
        if !verdict.Panicked? {
          verdict := Fine;
          serving := serving - {oldCommandServer.value};
          Remember();
        }
      }
    }

    /** Box.Close(). */
    method CloseBox() returns (verdict: Verdict)
      requires box.Some?
      modifies this
      ensures Next(Whole(), verdict) == CloseCurrent(old(Whole()), o)
      ensures box == old(box)
    {
      verdict := CallLibrary(Call.CloseBox);
      closing := closing + {box.value};
      if verdict.Fine? {
        closed := closed + 1;
        live := live - {box.value};
      }
      Remember();
    }

    /** oldCommandServer.Close(). */
    method CloseServer() returns (verdict: Verdict)
      requires oldCommandServer.Some?
      modifies this`clock, this`servers
      ensures Next(Whole(), verdict) == ShutServer(old(Whole()), o)
    {
      verdict := CallLibrary(Call.CloseServer);
      if oldCommandServer.value in servers.shut {
        servers := servers.(again := servers.again + 1);
      }
      if verdict.Fine? {
        servers := servers.(open := servers.open - {oldCommandServer.value},
        shut := servers.shut + {oldCommandServer.value});
      }
    }

    method DropBox()
      modifies this
      ensures Whole() == LifecycleSpec.DropBox(old(Whole()))
    {
      box := None;
      Remember();
    }

    method DropServer()
      modifies this
      ensures Whole() == LifecycleSpec.DropServer(old(Whole()))
    {
      oldCommandServer := None;
      Remember();
    }

    // -------------------------------------------------------------- stopping

    method StopAndAlert() returns (verdict: Verdict)
      modifies this
      ensures Next(Whole(), verdict) == LifecycleSpec.StopAndAlert(old(Whole()), o)
    {
      hide LifecycleSpec.SetCoreStatus, CallOut, LifecycleSpec.UnserveIfAny, CloseCurrent, ShutServer,
        LifecycleSpec.DropBox;
      SetCoreStatus(Stopped, UnexpectedError);
      verdict := CallLibrary(DeactivateTunnel);
      if verdict.Panicked? { return; }
      verdict := UnserveIfAny();
      if verdict.Panicked? { return; }
      if box.Some? {
        verdict := CloseBox();
        if verdict.Panicked? { return; }
        DropBox();
      }
      verdict := Fine;
      if oldCommandServer.Some? {
        verdict := CloseServer();
        verdict := if verdict.Panicked? then Panicked else Fine;
      }
    }

    /** The deferred DeferPanicToError. */
    method Recover(end: Ending) returns (after: Ending)
      modifies this
      ensures Result(Whole(), after) == Guarded(Result(old(Whole()), end), o)
    {
      hide LifecycleSpec.StopAndAlert;
      after := end;
      if end.Panicking? {
        var verdict := StopAndAlert();
        after := if verdict.Panicked? then Panicking else Recovered;
      }
    }

    method StopBody() returns (end: Ending)
      modifies this
      ensures Result(Whole(), end) == LifecycleSpec.StopBody(old(Whole()), o)
    {
      hide LifecycleSpec.SetCoreStatus, CallOut, LifecycleSpec.UnserveIfAny, LifecycleSpec.FinishStop;
      if !coreState.Started? { return Returned(Reply(coreState, InstanceNotStarted, true)); }
      if box.None? { return Returned(Reply(coreState, InstanceNotFound, true)); }
      SetCoreStatus(Stopping);
      var verdict := CallLibrary(DeactivateTunnel);
      if verdict.Panicked? { return Panicking; }
      verdict := UnserveIfAny();
      if verdict.Panicked? { return Panicking; }
      end := FinishStop();
    }

    /** custom.go:290-311. */
    method FinishStop() returns (end: Ending)
      requires box.Some?
      modifies this
      ensures Result(Whole(), end) == LifecycleSpec.FinishStop(old(Whole()), o)
    {
      hide LifecycleSpec.SetCoreStatus, CloseCurrent, ShutServer, LifecycleSpec.DropBox, LifecycleSpec.DropServer;
      var verdict := CloseBox();
      if verdict.Panicked? { return Panicking; }
      if verdict.Failed? { return Returned(Reply(Stopping, UnexpectedError, true)); }
      DropBox();
      if oldCommandServer.Some? {
        verdict := CloseServer();
        if verdict.Panicked? { return Panicking; }
        if verdict.Failed? { return Returned(Reply(Stopping, UnexpectedError, true)); }
        DropServer();
      }
      SetCoreStatus(Stopped);
      end := Returned(Reply(Stopped, Empty, false));
    }

    method Stop() returns (end: Ending)
      modifies this
      ensures Result(Whole(), end) == LifecycleSpec.Stop(old(Whole()), o)
    {
      hide LifecycleSpec.StopBody, Guarded;
      end := StopBody();
      end := Recover(end);
    }

    // -------------------------------------------------------------- starting

    /** An error of a start: announced with its message, and once more by StopAndAlert. */
    method Halt(message: Message) returns (end: Ending)
      modifies this
      ensures Result(Whole(), end) == LifecycleSpec.Halt(old(Whole()), o, message)
    {
      hide LifecycleSpec.SetCoreStatus, LifecycleSpec.StopAndAlert;
      SetCoreStatus(Stopped, message);
      var verdict := StopAndAlert();
      end := if verdict.Panicked? then Panicking else Returned(Reply(Stopped, message, true));
    }

    /** A library call whose error ends the start. */
    method Attempt(call: Call, message: Message) returns (ended: Option<Ending>)
      modifies this
      ensures Reports(Judge(CallOut(old(Whole()), o, call), o, message), Whole(), ended)
      ensures ended.None? ==> Whole() == old(Whole()).(clock := old(clock) + 1)
    {
      hide LifecycleSpec.Halt;
      var verdict := CallLibrary(call);
      ended := Check(verdict, message);
    }

    method Check(verdict: Verdict, message: Message) returns (ended: Option<Ending>)
      modifies this
      ensures Reports(Judge(Next(old(Whole()), verdict), o, message), Whole(), ended)
      ensures ended.None? ==> Whole() == old(Whole())
    {
      hide LifecycleSpec.Halt;
      if verdict.Panicked? { return Some(Panicking); }
      if verdict.Fine? { return None; }
      var end := Halt(message);
      ended := Some(end);
    }

    method Read(req: Request) returns (ended: Option<Ending>)
      modifies this
      ensures Reports(ReadStage(old(Whole()), req, o), Whole(), ended)
    {
      hide CallOut, Judge;
      if req.content != "" { return None; }
      activeConfigPath := req.path;
      ended := Attempt(ReadConfig(activeConfigPath), ErrorReadingConfig);
    }

    method Build(req: Request) returns (ended: Option<Ending>)
      modifies this
      ensures Reports(BuildStage(old(Whole()), req, o), Whole(), ended)
    {
      hide CallOut, Judge;
      if req.rawConfig { return None; }
      if !optionsSet { return Some(Panicking); }
      ended := Attempt(BuildOptions, ErrorBuildingConfig);
    }

    method Save() returns (ended: Option<Ending>)
      modifies this
      ensures Reports(SaveStage(old(Whole()), o), Whole(), ended)
    {
      var verdict := CallLibrary(SaveConfig);
      if verdict.Panicked? { return Some(Panicking); }
      if activeConfigPath == "" {
        activeConfigPath := CURRENT_CONFIG;
      }
      ended := None;
    }

    method Configure(req: Request) returns (ended: Option<Ending>)
      modifies this
      ensures Reports(LifecycleSpec.Configure(old(Whole()), req, o), Whole(), ended)
    {
      hide CallOut, Judge, ReadStage, BuildStage, SaveStage;
      ended := Read(req);
      if ended.Some? { return; }
      ended := Attempt(ParseOptions, ErrorParsingConfig);
      if ended.Some? { return; }
      ended := Build(req);
      if ended.Some? { return; }
      ended := Save();
    }

    method StartCommandServer(req: Request) returns (ended: Option<Ending>)
      modifies this
      ensures Reports(ServerStage(old(Whole()), req, o), Whole(), ended)
    {
      hide Judge;
      if !req.commandServer { return None; }
      var verdict := CallLibrary(NewLogger);
      if verdict.Panicked? { return Some(Panicking); }
      oldCommandServer := Some(nextId);
      nextId := nextId + 1;
      Remember();
      verdict := CallLibrary(Call.StartServer);
      if verdict.Fine? {
        servers := servers.(open := servers.open + {oldCommandServer.value});
      }
      ended := Check(verdict, Message.StartCommandServer);
    }

    method StartBox() returns (ended: Option<Ending>)
      modifies this
      ensures Reports(BoxStage(old(Whole()), o), Whole(), ended)
    {
      hide Judge, CallOut, Moved;
      ended := Attempt(NewBox, CreateService);
      if ended.Some? { return; }
      var instance := nextId;
      nextId := nextId + 1;
      ended := Attempt(Call.StartBox, StartServiceFailed);
      if ended.Some? { return; }
      Hold(instance);
    }

    /** Box = instance, once it has started. */
    method Hold(instance: nat)
      modifies this`box, this`started, this`live, this`past
      ensures var w := old(Whole());
              var running := Moved(w.(started := w.started + 1), w.now.(live := w.now.live + {instance}));
              Whole() == Moved(running, running.now.(box := Some(instance)))
    {
      started := started + 1;
      live := live + {instance};
      Remember();
      box := Some(instance);
      Remember();
    }

    method Serve(req: Request) returns (ended: Option<Ending>)
      requires box.Some? && (req.commandServer ==> oldCommandServer.Some?)
      modifies this
      ensures Reports(ServeStage(old(Whole()), req, o), Whole(), ended)
    {
      if !req.commandServer { return None; }
      var verdict := CallLibrary(SetService);
      if verdict.Panicked? { return Some(Panicking); }
      serving := serving[oldCommandServer.value := box.value];
      Remember();
      ended := None;
    }

    method Launch(req: Request) returns (end: Ending)
      modifies this
      ensures Result(Whole(), end) == LifecycleSpec.Launch(old(Whole()), req, o)
    {
      hide LifecycleSpec.SetCoreStatus, ServerStage, BoxStage, ServeStage;
      var ended := StartCommandServer(req);
      if ended.Some? { return ended.value; }
      ended := StartBox();
      if ended.Some? { return ended.value; }
      ended := Serve(req);
      if ended.Some? { return ended.value; }
      SetCoreStatus(Started);
      end := Returned(Reply(Started, Empty, false));
    }

    method StartService(req: Request) returns (end: Ending)
      modifies this
      ensures Result(Whole(), end) == LifecycleSpec.StartService(old(Whole()), req, o)
    {
      hide LifecycleSpec.Configure, LifecycleSpec.Launch;
      var ended := Configure(req);
      if ended.Some? { return ended.value; }
      end := Launch(req);
    }

    method Begin(req: Request) returns (end: Ending)
      modifies this
      ensures Result(Whole(), end) == LifecycleSpec.Begin(old(Whole()), req, o)
    {
      hide LifecycleSpec.SetCoreStatus, CallOut, LifecycleSpec.StartService;
      SetCoreStatus(Starting);
      var verdict := CallLibrary(MemoryLimit);
      if verdict.Panicked? { return Panicking; }
      end := StartService(req);
    }

    // -------------------------------------------------------------- the other entry points

    method Start(req: Request) returns (end: Ending)
      modifies this
      ensures Result(Whole(), end) == LifecycleSpec.Start(old(Whole()), req, o)
    {
      hide LifecycleSpec.Stop, LifecycleSpec.Begin, Guarded;
      if coreState.Stopped? {
        end := Begin(req);
      } else {
        end := Stop();
        if !end.Panicking? {
          end := Begin(req);
        }
      }
      end := Recover(end);
    }

    method Restart(req: Request) returns (end: Ending)
      modifies this
      ensures Result(Whole(), end) == LifecycleSpec.Restart(old(Whole()), req, o)
    {
      hide LifecycleSpec.Stop, LifecycleSpec.Begin, Guarded;
      if !coreState.Started? {
        end := Returned(Reply(coreState, InstanceNotStarted, true));
      } else if box.None? {
        end := Returned(Reply(coreState, InstanceNotFound, true));
      } else {
        end := Stop();
        if end.Recovered? || (end.Returned? && !end.reply.isError) {
          end := Begin(req);
        }
      }
      end := Recover(end);
    }

    method ServiceReload() returns (end: Ending)
      modifies this
      ensures Result(Whole(), end) == LifecycleSpec.ServiceReload(old(Whole()), o)
    {
      hide LifecycleSpec.SetCoreStatus, LifecycleSpec.UnserveIfAny, CloseCurrent, LifecycleSpec.DropBox,
        LifecycleSpec.DropServer, LifecycleSpec.StartService;
      SetCoreStatus(Starting);
      var verdict := UnserveIfAny();
      if verdict.Panicked? { return Panicking; }
      if oldCommandServer.Some? {
        DropServer();
      }
      if box.Some? {
        verdict := CloseBox();
        if verdict.Panicked? { return Panicking; }
        DropBox();
      }
      end := StartService(RELOAD);
    }

    /** Parse and GenerateConfig, as far as they touch the core. */
    method GuardedCall(call: Call) returns (end: Ending)
      modifies this
      ensures Result(Whole(), end) == LifecycleSpec.GuardedCall(old(Whole()), o, call)
    {
      hide Guarded;
      var verdict := CallLibrary(call);
      end := if verdict.Panicked? then Panicking else Returned(Reply(coreState, Empty, verdict.Failed?));
      end := Recover(end);
    }

    method Perform(op: Operation) returns (end: Ending)
      modifies this
      ensures Result(Whole(), end) == LifecycleSpec.Perform(old(Whole()), op, o)
    {
      hide LifecycleSpec.Start, LifecycleSpec.Stop, LifecycleSpec.Restart, LifecycleSpec.ServiceReload,
        LifecycleSpec.GuardedCall, LifecycleSpec.StartService;
      match op
      case OpStart(req) => end := Start(req);
      case OpStop => end := Stop();
      case OpRestart(req) => end := Restart(req);
      case OpReload => end := ServiceReload();
      case OpParse => end := GuardedCall(ParseContent);
      case OpGenerate =>
        optionsSet := true;
        end := GuardedCall(GenerateContent);
      case OpChangeOptions =>
        optionsSet := true;
        end := Returned(Reply(coreState, Empty, false));
      case OpStartService(req) => end := StartService(req);
    }

    /** Requests served one after the other, until one ends the process. */
    method ServeAll(ops: seq<Operation>) returns (end: Ending)
      requires Whole() == START
      modifies this
      ensures Result(Whole(), end) == Run(ops, o)
      ensures forall m | m in past :: StartedHasBox(m)
      ensures !end.Panicking? ==>
                !coreState.Starting? && (coreState.Started? ==> box.Some?) && (coreState.Stopped? ==> box.None?)
      ensures NoDirectStarts(ops) ==> Word(events)
      ensures DirectStartsUnserved(ops, o) ==> forall m | m in past :: ServesCurrent(m)
      ensures DirectStartsWithoutBox(ops, o) && (forall n :: o(n, Call.CloseBox).Fine?) ==>
                started == closed + (if box.Some? then 1 else 0) && forall m | m in past :: AtMostOneLive(m)
    {
      hide LifecycleSpec.Perform, StartedHasBox, ServesCurrent, AtMostOneLive, Word,
        NoDirectStarts, DirectStartsUnserved, DirectStartsWithoutBox;
      end := Recovered;
      var i := 0;
      while i < |ops| && !end.Panicking?
        invariant 0 <= i <= |ops|
        invariant Result(Whole(), end) == Run(ops[..i], o)
      {
        end := Perform(ops[i]);
        i := i + 1;
        assert ops[..i][..i - 1] == ops[..i - 1];
      }
      RunPanicked(ops, i, o);
      Conclude(ops, o);
    }
  }

  /** A run that panicked stays where it was. */
  lemma {:induction false} RunPanicked(ops: seq<Operation>, i: nat, o: Oracle)
    requires i <= |ops| && (i < |ops| ==> Run(ops[..i], o).end.Panicking?)
    ensures Run(ops, o) == Run(ops[..i], o)
  {
    if i == |ops| {
      assert ops[..i] == ops;
    } else {
      assert ops[..|ops| - 1][..i] == ops[..i];
      RunPanicked(ops[..|ops| - 1], i, o);
    }
  }

  lemma Conclude(ops: seq<Operation>, o: Oracle)
    ensures var r := Run(ops, o);
            && (forall m | m in r.w.past :: StartedHasBox(m))
            && (!r.end.Panicking? ==> !r.w.now.core.Starting? && (r.w.now.core.Started? ==> r.w.now.box.Some?)
                                      && (r.w.now.core.Stopped? ==> r.w.now.box.None?))
            && (NoDirectStarts(ops) ==> Word(r.w.events))
            && (DirectStartsUnserved(ops, o) ==> forall m | m in r.w.past :: ServesCurrent(m))
            && (DirectStartsWithoutBox(ops, o) && (forall n :: o(n, Call.CloseBox).Fine?) ==>
                  && r.w.started == r.w.closed + (if r.w.now.box.Some? then 1 else 0)
                  && forall m | m in r.w.past :: AtMostOneLive(m))
  {
    hide Run, DirectStartsUnserved, DirectStartsWithoutBox;
    StartedCoreHasBox(ops, o);
    if NoDirectStarts(ops) {
      AnnouncedStatesFollowAutomaton(ops, o);
    }
    if DirectStartsUnserved(ops, o) {
      NoServerServesClosedBox(ops, o);
    }
    if DirectStartsWithoutBox(ops, o) && forall n :: o(n, Call.CloseBox).Fine? {
      BoxesAreAccountedFor(ops, o);
    }
  }
}
