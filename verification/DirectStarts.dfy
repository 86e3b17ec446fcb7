/** Where the claims about the life cycle end: exactly which direct calls of StartService, and which starts after a
    closing that failed, break them. */
module DirectStarts {
  import opened Wrappers
  import opened LifecycleSpec
  import opened LifecycleProofs

  // ---------------------------------------------------------------- what one start does

  /** The identity of the box a start makes: the next one, after that of the command server if it makes one. */
  function BoxMade(w: World, req: Request): nat {
    w.nextId + (if req.commandServer then 1 else 0)
  }

  /** A start that succeeds replaces the box by a new live one; a command server, if asked for, is new too and serves
      it. Nothing is closed, and what was served before is served still. */
  lemma SuccessShape(w: World, req: Request, o: Oracle)
    requires Succeeds(StartService(w, req, o))
    ensures var (r, box) := (StartService(w, req, o), BoxMade(w, req));
            && r.w.now == Moment(Started, Some(box), if req.commandServer then Some(w.nextId) else w.now.server,
                                 if req.commandServer then w.now.serving[w.nextId := box] else w.now.serving,
                                 w.now.live + {box}, w.now.closing)
            && r.w.events == w.events + [Info(Started, Empty)]
  {
    hide Configure, ServerStage, BoxStage, ServeStage, SetCoreStatus;
    ConfigureFails(w, req, o);
    var w1 := Configure(w, req, o).w;
    ServerFails(w1, req, o);
    ServerStageFrame(w1, req, o);
    var w2 := ServerStage(w1, req, o).w;
    BoxFails(w2, o);
    BoxStageFrame(w2, o);
    var w3 := BoxStage(w2, o).w;
    ServeFrame(w3, req, o);
    StatusFrame(ServeStage(w3, req, o).w, Started);
  }

  /** A start that does not succeed announces nothing and panics, or announces its reason and then the alert. */
  ghost predicate FailsAfter(events: seq<Info>, r: Result) {
    || (r.end.Panicking? && r.w.events == events)
    || (exists message :: r.w.events == events + [Info(Stopped, message), Info(Stopped, UnexpectedError)]
                          && (r.end.Panicking? || r.end == Returned(Reply(Stopped, message, true))))
  }

  ghost predicate StageFails(w: World, s: Stage) {
    s.Ended? ==> FailsAfter(w.events, s.r)
  }

  lemma StopAndAlertEvents(w: World, o: Oracle)
    ensures StopAndAlert(w, o).w.events == w.events + [Info(Stopped, UnexpectedError)]
  {
    hide SetCoreStatus, UnserveIfAny, CloseCurrent;
    StatusFrame(w, Stopped, UnexpectedError);
    var n0 := CallOut(SetCoreStatus(w, Stopped, UnexpectedError), o, DeactivateTunnel);
    UnserveFrame(n0.w, o);
    var n1 := UnserveIfAny(n0.w, o);
    if n1.w.now.box.Some? {
      CloseFrame(n1.w, o);
    }
  }

  lemma NextFails(n: Next, o: Oracle, message: Message)
    ensures StageFails(n.w, Judge(n, o, message))
  {
    hide StopAndAlert, SetCoreStatus;
    StatusFrame(n.w, Stopped, message);
    StopAndAlertEvents(SetCoreStatus(n.w, Stopped, message), o);
  }

  lemma CallFails(w: World, o: Oracle, call: Call, message: Message)
    ensures var s := Judge(CallOut(w, o, call), o, message);
            StageFails(w, s) && (s.Passed? ==> s.w.events == w.events && s.w.now == w.now)
  {
    hide StopAndAlert, SetCoreStatus;
    NextFails(CallOut(w, o, call), o, message);
  }

  lemma ConfigureFails(w: World, req: Request, o: Oracle)
    ensures StageFails(w, Configure(w, req, o))
    ensures Configure(w, req, o).Passed? ==> OnlyConfigured(w, Configure(w, req, o).w)
  {
    hide Judge, FailsAfter;
    ReadStageFails(w, req, o);
    var s1 := ReadStage(w, req, o);
    if s1.Passed? {
      CallFails(s1.w, o, ParseOptions, ErrorParsingConfig);
      JudgeFrame(CallOut(s1.w, o, ParseOptions), o, ErrorParsingConfig);
      var s2 := Judge(CallOut(s1.w, o, ParseOptions), o, ErrorParsingConfig);
      if s2.Passed? {
        BuildStageFails(s2.w, req, o);
        var s3 := BuildStage(s2.w, req, o);
        if s3.Passed? {
          PanicFails(CallOut(s3.w, o, SaveConfig).w);
        }
      }
    }
  }

  lemma PanicFails(w: World)
    ensures FailsAfter(w.events, Result(w, Panicking))
  {
  }

  lemma ReadStageFails(w: World, req: Request, o: Oracle)
    ensures StageFails(w, ReadStage(w, req, o))
    ensures ReadStage(w, req, o).Passed? ==> OnlyConfigured(w, ReadStage(w, req, o).w)
  {
    hide Judge;
    CallFails(w.(configPath := req.path), o, ReadConfig(req.path), ErrorReadingConfig);
    JudgeFrame(CallOut(w.(configPath := req.path), o, ReadConfig(req.path)), o, ErrorReadingConfig);
  }

  lemma BuildStageFails(w: World, req: Request, o: Oracle)
    ensures StageFails(w, BuildStage(w, req, o))
    ensures BuildStage(w, req, o).Passed? ==> OnlyConfigured(w, BuildStage(w, req, o).w)
  {
    hide Judge;
    PanicFails(w);
    CallFails(w, o, BuildOptions, ErrorBuildingConfig);
    JudgeFrame(CallOut(w, o, BuildOptions), o, ErrorBuildingConfig);
  }

  lemma ServerFails(w: World, req: Request, o: Oracle)
    ensures StageFails(w, ServerStage(w, req, o))
  {
    hide Judge;
    var n := CallOut(w, o, NewLogger);
    PanicFails(n.w);
    NextFails(OpenServer(MadeServer(n.w), o), o, StartCommandServer);
  }

  lemma BoxFails(w: World, o: Oracle)
    ensures StageFails(w, BoxStage(w, o))
  {
    hide Judge;
    CallFails(w, o, NewBox, CreateService);
    var s := Judge(CallOut(w, o, NewBox), o, CreateService);
    if s.Passed? {
      CallFails(s.w.(nextId := s.w.nextId + 1), o, StartBox, StartServiceFailed);
    }
  }

  /** Every start that fails with an error announces the reason it replies with and then the alert, and nothing else;
      one that panics announces that or nothing. */
  lemma FailureShape(w: World, req: Request, o: Oracle)
    requires !Succeeds(StartService(w, req, o))
    ensures FailsAfter(w.events, StartService(w, req, o))
  {
    hide Configure, ServerStage, BoxStage, ServeStage, SetCoreStatus;
    ConfigureFails(w, req, o);
    if Configure(w, req, o).Passed? {
      var w1 := Configure(w, req, o).w;
      ServerFails(w1, req, o);
      ServerStageFrame(w1, req, o);
      if ServerStage(w1, req, o).Passed? {
        var w2 := ServerStage(w1, req, o).w;
        BoxFails(w2, o);
        BoxStageFrame(w2, o);
        if BoxStage(w2, o).Passed? {
          ServeFrame(BoxStage(w2, o).w, req, o);
        }
      }
    }
  }

  // ---------------------------------------------------------------- exactly when one start keeps a property

  /** A start that succeeds keeps "the live boxes are the current one" exactly when no box is live on entry: where that
      property holds, when there is no box. The same condition keeps two boxes from being live. */
  lemma StartKeepsAccountsIff(w: World, req: Request, o: Oracle)
    requires Held(w, ANY_RUN) && Succeeds(StartService(w, req, o))
    ensures var after := StartService(w, req, o).w.now;
            && (after.live == BoxSet(after) <==> w.now.live == {})
            && (AtMostOneLive(after) <==> w.now.live == {})
            && (w.now.live == BoxSet(w.now) ==> (after.live == BoxSet(after) <==> w.now.box.None?))
  {
    SuccessShape(w, req, o);
    hide StartService;
    var box := BoxMade(w, req);
    assert box !in w.now.live && box in w.now.live + {box};
    if b :| b in w.now.live {
      assert b in w.now.live + {box};
    }
  }

  /** A start that succeeds keeps "only the current command server serves, and it serves the current box" exactly when
      nothing is served on entry. */
  lemma StartKeepsServingIff(w: World, req: Request, o: Oracle)
    requires Held(w, ANY_RUN) && ServesCurrent(w.now) && Succeeds(StartService(w, req, o))
    ensures ServesCurrent(StartService(w, req, o).w.now) <==> Quiet(w)
  {
    SuccessShape(w, req, o);
    hide StartService;
    var after := StartService(w, req, o).w.now;
    if s :| s in w.now.serving {
      assert s != w.nextId && after.serving[s] == w.now.serving[s];
    }
  }

  /** The announcements stay a word of the automaton exactly when the start fails or the core is starting. */
  lemma StartKeepsWordIff(w: World, req: Request, o: Oracle)
    requires Held(w, ANY_RUN) && Word(w.events)
    ensures var r := StartService(w, req, o);
            Word(r.w.events) <==> !Succeeds(r) || w.now.core.Starting?
  {
    var r := StartService(w, req, o);
    if Succeeds(r) {
      SuccessShape(w, req, o);
      WordExtends(w.events, Info(Started, Empty));
    } else {
      FailureShape(w, req, o);
      if r.w.events != w.events {
        var message :| r.w.events == w.events + [Info(Stopped, message), Info(Stopped, UnexpectedError)];
        var once := w.events + [Info(Stopped, message)];
        WordExtends(w.events, Info(Stopped, message));
        WordExtends(once, Info(Stopped, UnexpectedError));
        assert r.w.events == once + [Info(Stopped, UnexpectedError)];
      }
    }
  }

  /** Between operations a core is never starting: there a direct start keeps the word exactly when it fails. */
  lemma DirectStartKeepsWordIff(w: World, req: Request, o: Oracle)
    requires Held(w, ANY_RUN) && AtRest(w, ANY_RUN) && Word(w.events)
    ensures Word(StartService(w, req, o).w.events) <==> !Succeeds(StartService(w, req, o))
  {
    hide Held, Word, StartService;
    StartKeepsWordIff(w, req, o);
  }

  // ---------------------------------------------------------------- starts after a closing that failed

  /** The core as Start finds it once it has stopped one that was not stopped. */
  function Halted(w: World, o: Oracle): World {
    if w.now.core.Stopped? then w else Stop(w, o).w
  }

  /** Start, and whatever its stop has met: a start that succeeds leaves one live box, the current one, exactly when the
      stop has left none. A core that is stuck stopping is not stopped again, so its box is left over. */
  lemma StartLeavesOneBoxIff(w: World, req: Request, o: Oracle)
    requires Held(w, ANY_RUN) && AtRest(w, ANY_RUN) && Succeeds(Start(w, req, o))
    ensures var after := Start(w, req, o).w.now;
            && (after.live == BoxSet(after) <==> Halted(w, o).now.live == {})
            && (AtMostOneLive(after) <==> Halted(w, o).now.live == {})
            && (w.now.core.Stopping? ==> Halted(w, o) == w)
            && (w.now.core.Stopping? && w.now.box.Some? ==>
                  after.live != BoxSet(after) && w.now.box.value in after.live)
  {
    HaltedKeeps(w, o);
    var w1 := Halted(w, o);
    hide Held, Stop, StartService, SetCoreStatus;
    StuckIsNotStopped(w, o);
    assert Start(w, req, o) == StartBody(w, req, o) == Begin(w1, req, o);
    StatusFrame(w1, Starting);
    BeginHeld(w1, o);
    var w2 := CallOut(SetCoreStatus(w1, Starting), o, MemoryLimit).w;
    assert Begin(w1, req, o) == StartService(w2, req, o);
    StartKeepsAccountsIff(w2, req, o);
    SuccessShape(w2, req, o);
    BoxIsLive(w);
  }

  lemma HaltedKeeps(w: World, o: Oracle)
    requires Held(w, ANY_RUN) && AtRest(w, ANY_RUN)
    ensures Held(Halted(w, o), ANY_RUN)
  {
    hide Held, Stop;
    StopKeeps(w, o, ANY_RUN);
  }

  lemma StuckIsNotStopped(w: World, o: Oracle)
    ensures w.now.core.Stopping? ==> Stop(w, o).w == w && !Stop(w, o).end.Panicking?
  {
  }

  lemma BeginHeld(w: World, o: Oracle)
    requires Held(w, ANY_RUN)
    ensures Held(CallOut(SetCoreStatus(w, Starting), o, MemoryLimit).w, ANY_RUN)
  {
    hide Held, SetCoreStatus;
    StatusKeeps(w, Starting, ANY_RUN);
    CallKeeps(SetCoreStatus(w, Starting), o, MemoryLimit, ANY_RUN);
  }

  lemma BoxIsLive(w: World)
    requires Held(w, ANY_RUN)
    ensures w.now.box.Some? ==> w.now.box.value in w.now.live
  {
  }

  // ---------------------------------------------------------------- whole runs: history only grows

  ghost predicate Grows(w: World, after: World) {
    w.past <= after.past && w.events <= after.events
  }

  lemma ChainLaws()
    ensures forall w :: Grows(w, w)
    ensures forall a, b, c | Grows(a, b) && Grows(b, c) :: Grows(a, c)
  {
  }

  lemma ServerStepGrows(w: World, o: Oracle)
    requires w.now.server.Some?
    ensures Grows(w, ShutServer(w, o).w) && Grows(w, OpenServer(w, o).w)
  {
    hide Grows;
    SameHistoryGrows(w, ShutServer(w, o).w);
    SameHistoryGrows(w, OpenServer(w, o).w);
  }

  lemma StepLaws(o: Oracle)
    ensures forall w, call :: Grows(w, CallOut(w, o, call).w)
    ensures forall w, state, message :: Grows(w, SetCoreStatus(w, state, message))
    ensures forall w :: Grows(w, UnserveIfAny(w, o).w) && Grows(w, DropBox(w)) && Grows(w, DropServer(w))
    ensures forall w: World | w.now.box.Some? :: Grows(w, CloseCurrent(w, o).w)
  {
  }

  lemma GrowthLaws(o: Oracle)
    ensures forall w :: Grows(w, w)
    ensures forall a, b, c | Grows(a, b) && Grows(b, c) :: Grows(a, c)
    ensures forall w, call :: Grows(w, CallOut(w, o, call).w)
    ensures forall w, state, message :: Grows(w, SetCoreStatus(w, state, message))
    ensures forall w :: Grows(w, UnserveIfAny(w, o).w) && Grows(w, DropBox(w)) && Grows(w, DropServer(w))
    ensures forall w: World | w.now.box.Some? :: Grows(w, CloseCurrent(w, o).w)
    ensures forall w: World | w.now.server.Some? :: Grows(w, ShutServer(w, o).w)
  {
    hide Grows, CallOut, SetCoreStatus, UnserveIfAny, DropBox, DropServer, CloseCurrent, ShutServer, OpenServer;
    ChainLaws();
    StepLaws(o);
    forall w: World | w.now.server.Some? ensures Grows(w, ShutServer(w, o).w) {
      ServerStepGrows(w, o);
    }
  }

  lemma GrowsOn(a: World, b: World, c: World)
    requires Grows(a, b) && Grows(b, c)
    ensures Grows(a, c)
  {
  }

  lemma StopAndAlertGrows(w: World, o: Oracle)
    ensures Grows(w, StopAndAlert(w, o).w)
  {
    GrowthLaws(o);
    hide Grows, SetCoreStatus, UnserveIfAny, CloseCurrent, ShutServer, DropBox, CallOut;
  }

  lemma JudgeGrows(n: Next, o: Oracle, message: Message)
    ensures Grows(n.w, After(Judge(n, o, message)))
  {
    GrowthLaws(o);
    hide Grows, SetCoreStatus, StopAndAlert;
    StopAndAlertGrows(SetCoreStatus(n.w, Stopped, message), o);
  }

  lemma GuardGrows(r: Result, o: Oracle)
    ensures Grows(r.w, Guarded(r, o).w)
  {
    GrowthLaws(o);
    StopAndAlertGrows(r.w, o);
    hide Grows, StopAndAlert;
  }

  lemma FinishStopGrows(w: World, o: Oracle)
    requires w.now.box.Some?
    ensures Grows(w, FinishStop(w, o).w)
  {
    GrowthLaws(o);
    hide Grows, SetCoreStatus, CloseCurrent, ShutServer, DropBox, DropServer, CallOut;
  }

  lemma StopGrows(w: World, o: Oracle)
    ensures Grows(w, Stop(w, o).w)
  {
    hide Grows, Guarded, FinishStop, SetCoreStatus, UnserveIfAny;
    StopBodyGrows(w, o);
    GuardGrows(StopBody(w, o), o);
    GrowsOn(w, StopBody(w, o).w, Stop(w, o).w);
  }

  lemma StopBodyGrows(w: World, o: Oracle)
    ensures Grows(w, StopBody(w, o).w)
  {
    var w0 := SetCoreStatus(w, Stopping);
    var w1 := CallOut(w0, o, DeactivateTunnel).w;
    var w2 := UnserveIfAny(w1, o).w;
    assert Grows(w, w) && Grows(w, w1) && Grows(w1, w2);
    GrowsOn(w, w1, w2);
    StatusFrame(w, Stopping);
    UnserveFrame(w1, o);
    hide Grows, FinishStop, SetCoreStatus, UnserveIfAny, CallOut;
    if w2.now.box.Some? {
      FinishStopGrows(w2, o);
      GrowsOn(w, w2, FinishStop(w2, o).w);
    }
  }

  /** A call that ends a start that has only configured so far. */
  lemma ConfiguringGrows(w: World, w1: World, o: Oracle, call: Call, message: Message)
    requires OnlyConfigured(w, w1)
    ensures Grows(w, After(Judge(CallOut(w1, o, call), o, message)))
  {
    hide Grows, Judge, CallOut;
    SameHistoryGrows(w, w1);
    CallStageGrows(w1, o, call, message);
    GrowsOn(w, w1, After(Judge(CallOut(w1, o, call), o, message)));
  }

  lemma ConfigureGrows(w: World, req: Request, o: Oracle)
    ensures Grows(w, After(Configure(w, req, o)))
  {
    hide Grows, Judge;
    ReadStageFails(w, req, o);
    ConfiguringGrows(w, w.(configPath := req.path), o, ReadConfig(req.path), ErrorReadingConfig);
    var s1 := ReadStage(w, req, o);
    if s1.Passed? {
      ConfiguringGrows(w, s1.w, o, ParseOptions, ErrorParsingConfig);
      JudgeFrame(CallOut(s1.w, o, ParseOptions), o, ErrorParsingConfig);
      var s2 := Judge(CallOut(s1.w, o, ParseOptions), o, ErrorParsingConfig);
      if s2.Passed? {
        SameHistoryGrows(w, s2.w);
        ConfiguringGrows(w, s2.w, o, BuildOptions, ErrorBuildingConfig);
        BuildStageFails(s2.w, req, o);
        var s3 := BuildStage(s2.w, req, o);
        if s3.Passed? {
          SameHistoryGrows(w, After(SaveStage(s3.w, o)));
        }
      }
    }
  }

  lemma ServerGrows(w: World, req: Request, o: Oracle)
    ensures Grows(w, After(ServerStage(w, req, o)))
  {
    hide Grows, Judge, OpenServer;
    GrowsSelf(w);
    CallGrows(w, o, NewLogger);
    if req.commandServer {
      var made := MadeServer(CallOut(w, o, NewLogger).w);
      var n := OpenServer(made, o);
      NewServerGrows(w, o);
      ServerStepGrows(made, o);
      JudgeGrows(n, o, StartCommandServer);
      GrowsOn(w, made, n.w);
      GrowsOn(w, n.w, After(Judge(n, o, StartCommandServer)));
    }
  }

  lemma CallGrows(w: World, o: Oracle, call: Call)
    ensures Grows(w, CallOut(w, o, call).w)
  {
  }

  lemma NewServerGrows(w: World, o: Oracle)
    ensures Grows(w, MadeServer(CallOut(w, o, NewLogger).w))
  {
  }

  lemma GrowsSelf(w: World)
    ensures Grows(w, w)
  {
  }

  lemma CallStageGrows(w: World, o: Oracle, call: Call, message: Message)
    ensures var s := Judge(CallOut(w, o, call), o, message);
            Grows(w, After(s)) && (s.Passed? ==> s.w == w.(clock := w.clock + 1))
  {
    var n := CallOut(w, o, call);
    assert Grows(w, n.w);
    JudgeFrame(n, o, message);
    JudgeGrows(n, o, message);
    hide Grows, Judge;
    GrowsOn(w, n.w, After(Judge(n, o, message)));
  }

  lemma SameHistoryGrows(w: World, after: World)
    requires w.past == after.past && w.events == after.events
    ensures Grows(w, after)
  {
  }

  lemma BoxGrows(w: World, o: Oracle)
    ensures Grows(w, After(BoxStage(w, o)))
  {
    hide Grows, Judge, CallOut, Moved;
    CallStageGrows(w, o, NewBox, CreateService);
    var s := Judge(CallOut(w, o, NewBox), o, CreateService);
    if s.Passed? {
      var w1 := s.w.(nextId := s.w.nextId + 1);
      SameHistoryGrows(w, w1);
      CallStageGrows(w1, o, StartBox, StartServiceFailed);
      var t := Judge(CallOut(w1, o, StartBox), o, StartServiceFailed);
      GrowsOn(w, w1, After(t));
      if t.Passed? {
        BoxStartedGrows(t.w, s.w.nextId);
        GrowsOn(w, t.w, BoxStage(w, o).w);
      }
    }
  }

  lemma BoxStartedGrows(w: World, box: nat)
    ensures var running := Moved(w.(started := w.started + 1), w.now.(live := w.now.live + {box}));
            Grows(w, Moved(running, running.now.(box := Some(box))))
  {
  }

  lemma ServeGrows(w: World, req: Request, o: Oracle)
    requires w.now.box.Some? && (req.commandServer ==> w.now.server.Some?)
    ensures Grows(w, After(ServeStage(w, req, o)))
  {
  }

  /** What the later stages of a launch add to the history. */
  lemma LaunchGrowsOn(w: World, req: Request, o: Oracle)
    ensures var s := ServerStage(w, req, o);
            && Grows(After(s), Launch(w, req, o).w)
            && (s.Passed? && BoxStage(s.w, o).Passed? ==> Grows(BoxStage(s.w, o).w, Launch(w, req, o).w))
  {
    GrowthLaws(o);
    hide Grows, ServerStage, BoxStage, ServeStage, SetCoreStatus, Launch;
    match ServerStage(w, req, o) {
      case Ended(e) => LaunchFrame(w, req, o);
      case Passed(w1) =>
        BoxGrows(w1, o);
        LaunchAfterServer(w, req, o);
        if BoxStage(w1, o).Passed? {
          var w2 := BoxStage(w1, o).w;
          ServeGrows(w2, req, o);
          GrowsOn(w1, w2, Launch(w, req, o).w);
        }
    }
  }

  lemma LaunchAfterServer(w: World, req: Request, o: Oracle)
    requires ServerStage(w, req, o).Passed?
    ensures var w1 := ServerStage(w, req, o).w;
            if BoxStage(w1, o).Passed? then Grows(BoxStage(w1, o).w, Launch(w, req, o).w)
            else Launch(w, req, o) == BoxStage(w1, o).r
  {
    hide ServerStage, BoxStage;
    var w1 := ServerStage(w, req, o).w;
    if BoxStage(w1, o).Passed? {
      ServeGrows(BoxStage(w1, o).w, req, o);
    }
  }

  lemma LaunchGrows(w: World, req: Request, o: Oracle)
    ensures Grows(w, Launch(w, req, o).w)
  {
    hide Grows, ServerStage, Launch;
    ServerGrows(w, req, o);
    LaunchGrowsOn(w, req, o);
    GrowsOn(w, After(ServerStage(w, req, o)), Launch(w, req, o).w);
  }

  lemma StartServiceGrows(w: World, req: Request, o: Oracle)
    ensures Grows(w, StartService(w, req, o).w)
  {
    GrowthLaws(o);
    ConfigureGrows(w, req, o);
    hide Grows, Configure, Launch;
    if Configure(w, req, o).Passed? {
      LaunchGrows(Configure(w, req, o).w, req, o);
    }
  }

  lemma BeginGrows(w: World, req: Request, o: Oracle)
    ensures Grows(w, Begin(w, req, o).w)
  {
    GrowthLaws(o);
    StartServiceGrows(CallOut(SetCoreStatus(w, Starting), o, MemoryLimit).w, req, o);
    hide Grows, StartService, SetCoreStatus, CallOut;
  }

  lemma StartGrows(w: World, req: Request, o: Oracle)
    ensures Grows(w, Start(w, req, o).w) && Grows(w, Restart(w, req, o).w)
  {
    GrowthLaws(o);
    hide Grows, Stop, Begin, Guarded;
    StopGrows(w, o);
    BeginGrows(w, req, o);
    BeginGrows(Stop(w, o).w, req, o);
    GuardGrows(StartBody(w, req, o), o);
    GuardGrows(RestartBody(w, req, o), o);
  }

  lemma ClearGrows(w: World, o: Oracle)
    ensures Grows(w, ClearForReload(w, o).w)
  {
    hide Grows, SetCoreStatus, UnserveIfAny, CloseCurrent, DropBox, DropServer, CallOut;
    StepLaws(o);
    var w0 := SetCoreStatus(w, Starting);
    assert Grows(w, w0);
    var n1 := UnserveIfAny(w0, o);
    GrowsOn(w, w0, n1.w);
    if !n1.verdict.Panicked? {
      var w1 := if n1.w.now.server.Some? then DropServer(n1.w) else n1.w;
      GrowsSelf(n1.w);
      GrowsOn(w, n1.w, w1);
      var n2 := if w1.now.box.Some? then CloseCurrent(w1, o) else Next(w1, Fine);
      GrowsSelf(w1);
      GrowsOn(w, w1, n2.w);
      GrowsOn(w, n2.w, DropBox(n2.w));
    }
  }

  lemma ReloadGrows(w: World, o: Oracle)
    ensures Grows(w, ServiceReload(w, o).w)
  {
    hide Grows, StartService, ClearForReload;
    ClearGrows(w, o);
    var n := ClearForReload(w, o);
    StartServiceGrows(n.w, RELOAD, o);
    GrowsOn(w, n.w, StartService(n.w, RELOAD, o).w);
  }

  lemma GuardedCallGrows(w: World, o: Oracle, call: Call)
    ensures Grows(w, GuardedCall(w, o, call).w)
  {
    GrowthLaws(o);
    hide Grows, Guarded;
    var n := CallOut(w, o, call);
    GuardGrows(Result(n.w, if n.verdict.Panicked? then Panicking
                      else Returned(Reply(n.w.now.core, Empty, n.verdict.Failed?))), o);
  }

  /** No operation takes anything out of the history. */
  lemma PerformGrows(w: World, op: Operation, o: Oracle)
    ensures Grows(w, Perform(w, op, o).w)
  {
    GrowthLaws(o);
    var chosen := w.(optionsSet := true);
    assert Grows(w, chosen);
    hide Grows, Start, Stop, Restart, ServiceReload, GuardedCall, StartService;
    match op
    case OpStart(req) => StartGrows(w, req, o);
    case OpStop => StopGrows(w, o);
    case OpRestart(req) => StartGrows(w, req, o);
    case OpReload => ReloadGrows(w, o);
    case OpParse => GuardedCallGrows(w, o, ParseContent);
    case OpGenerate => GuardedCallGrows(chosen, o, GenerateContent);
    case OpChangeOptions =>
    case OpStartService(req) => StartServiceGrows(w, req, o);
  }

  // ---------------------------------------------------------------- whole runs: exactly which direct starts fit

  /** What is claimed of a run, as its history shows it. */
  ghost predicate Shown(w: World, claim: Claim) {
    (forall m | m in w.past :: GoodMoment(m, claim)) && (claim.words ==> Word(w.events))
  }

  lemma ShownBefore(w: World, after: World, claim: Claim)
    requires Grows(w, after) && Shown(after, claim)
    ensures Shown(w, claim)
  {
    forall m | m in w.past ensures GoodMoment(m, claim) {
      assert m in after.past;
    }
    if claim.words {
      assert forall i | 0 <= i < |w.events| :: w.events[i] == after.events[i];
    }
  }

  lemma ConfigureFrame(w: World, req: Request, o: Oracle)
    ensures match Configure(w, req, o)
            case Passed(w') => OnlyConfigured(w, w')
            case Ended(r) => r.w.now.server == w.now.server && r.w.started == w.started
  {
    hide Judge;
    forall u, call, message
      ensures var s := Judge(CallOut(u, o, call), o, message);
              && (s.Passed? ==> s.w == CallOut(u, o, call).w)
              && After(s).now.server == u.now.server && After(s).started == u.started
    {
      JudgeFrame(CallOut(u, o, call), o, message);
    }
  }

  /** A start that has made a command server went through this moment. */
  lemma ServerMoment(w: World, req: Request, o: Oracle)
    requires StartService(w, req, o).w.now.server != w.now.server
    ensures w.now.(server := Some(w.nextId)) in StartService(w, req, o).w.past
  {
    hide Configure, ServerStage, Launch;
    ConfigureFrame(w, req, o);
    var w1 := Configure(w, req, o).w;
    LaunchFrame(w1, req, o);
    LaunchGrowsOn(w1, req, o);
    ServerStageMoment(w1, req, o);
  }

  lemma ServerStageMoment(w: World, req: Request, o: Oracle)
    requires After(ServerStage(w, req, o)).now.server != w.now.server
    ensures w.now.(server := Some(w.nextId)) in After(ServerStage(w, req, o)).past
  {
    hide Judge;
    var n := CallOut(w, o, NewLogger);
    var made := MadeServer(n.w);
    JudgeGrows(OpenServer(made, o), o, StartCommandServer);
    assert made.past[|made.past| - 1] == w.now.(server := Some(w.nextId));
  }

  /** A start that has started a box went through the moment at which that box became the current one. */
  lemma BoxMoment(w: World, req: Request, o: Oracle)
    requires StartService(w, req, o).w.started != w.started
    ensures exists m :: m in StartService(w, req, o).w.past && m.serving == w.now.serving
                        && m.box == Some(BoxMade(w, req)) && m.live == w.now.live + {BoxMade(w, req)}
  {
    hide Configure, ServerStage, Launch, BoxStage;
    ConfigureFrame(w, req, o);
    var w1 := Configure(w, req, o).w;
    LaunchFrame(w1, req, o);
    LaunchGrowsOn(w1, req, o);
    ServerStageFrame(w1, req, o);
    var w2 := ServerStage(w1, req, o).w;
    BoxStageFrame(w2, o);
    BoxStageMoment(w2, o);
    var m := BoxStage(w2, o).w.now;
    assert m in StartService(w, req, o).w.past;
  }

  lemma BoxStageMoment(w: World, o: Oracle)
    requires BoxStage(w, o).Passed?
    ensures BoxStage(w, o).w.now in BoxStage(w, o).w.past
  {
    hide Judge;
  }

  lemma NewBoxIsNew(w: World, req: Request)
    requires Held(w, ANY_RUN)
    ensures BoxMade(w, req) !in w.now.live && BoxSet(w.now) <= w.now.live
  {
  }

  lemma ServerMadeFits(w: World, req: Request, o: Oracle, claim: Claim)
    requires Held(w, claim) && Shown(StartService(w, req, o).w, claim) && claim.serves
    requires StartService(w, req, o).w.now.server != w.now.server
    ensures Quiet(w)
  {
    HeldForAny(w, claim);
    ServerMoment(w, req, o);
    hide StartService;
    var m := w.now.(server := Some(w.nextId));
    assert GoodMoment(m, claim);
    assert forall s | s in w.now.serving :: s in m.serving && w.now.server == Some(s) && s < w.nextId;
    assert w.now.serving.Keys == {};
  }

  lemma BoxMadeFits(w: World, req: Request, o: Oracle, claim: Claim)
    requires Held(w, claim) && Shown(StartService(w, req, o).w, claim)
    requires StartService(w, req, o).w.started != w.started
    ensures (claim.serves ==> Quiet(w)) && (claim.accounts ==> w.now.box.None?)
  {
    HeldForAny(w, claim);
    NewBoxIsNew(w, req);
    BoxMoment(w, req, o);
    hide StartService, BoxMade, Held;
    var m :| m in StartService(w, req, o).w.past && m.serving == w.now.serving && m.box == Some(BoxMade(w, req))
             && m.live == w.now.live + {BoxMade(w, req)};
    assert GoodMoment(m, claim);
    assert BoxMade(w, req) in m.live && (w.now.box.Some? ==> w.now.box.value in m.live);
    if claim.serves {
      assert forall s | s in w.now.serving :: w.now.box == Some(w.now.serving[s]) && m.box == Some(m.serving[s]);
      assert w.now.serving.Keys == {};
    }
  }

  /** A start that leaves no trace of harm in the history fitted. */
  lemma ShownStartFits(w: World, req: Request, o: Oracle, claim: Claim)
    requires Held(w, claim) && Shown(StartService(w, req, o).w, claim)
    ensures Fits(w, StartService(w, req, o), claim)
  {
    HeldForAny(w, claim);
    hide StartService, Held, Quiet;
    var r := StartService(w, req, o);
    if claim.words {
      StartKeepsWordIff(w, req, o);
    }
    if r.w.started != w.started {
      BoxMadeFits(w, req, o, claim);
    }
    if claim.serves && r.w.now.server != w.now.server {
      ServerMadeFits(w, req, o, claim);
    }
  }

  lemma HeldForAny(w: World, claim: Claim)
    requires Held(w, claim)
    ensures Held(w, ANY_RUN) && (claim.words ==> Word(w.events)) && (claim.serves ==> ServesCurrent(w.now))
    ensures claim.accounts ==> w.now.live == BoxSet(w.now)
  {
    forall m | m in w.past ensures GoodMoment(m, ANY_RUN) {
      assert GoodMoment(m, claim);
    }
  }

  /** In every run, with any errors and panics (and with closings that work, for the accounting): each of these is kept
      at every moment if and only if every direct start fits. So the announcements are a word exactly when no direct
      start succeeds; only the current box is served exactly when no direct start makes a server or starts a box while
      one is served; and no two boxes are live exactly when no direct start starts a box over another. */
  lemma {:induction false} RunKeepsIff(ops: seq<Operation>, o: Oracle, claim: Claim)
    requires Allows(o, claim) && !claim.single
    ensures Shown(Run(ops, o).w, claim) <==> DirectStartsFit(ops, o, claim)
  {
    hide Shown, Held, Fits, Allows, StartService;
    if DirectStartsFit(ops, o, claim) {
      hide Run, DirectStartsFit, AllStartAlone;
      AnyStartsAlone(ops, o, claim);
      RunKeeps(ops, o, claim);
      HeldIsShown(Run(ops, o).w, claim);
    }
    if Shown(Run(ops, o).w, claim) && ops != [] {
      hide Run;
      RunGrows(ops, o);
      ShownBefore(Run(ops[..|ops| - 1], o).w, Run(ops, o).w, claim);
      RunKeepsIff(ops[..|ops| - 1], o, claim);
      ShownRunFits(ops, o, claim);
    }
  }

  lemma ShownRunFits(ops: seq<Operation>, o: Oracle, claim: Claim)
    requires Allows(o, claim) && !claim.single && ops != []
    requires DirectStartsFit(ops[..|ops| - 1], o, claim) && Shown(Run(ops, o).w, claim)
    ensures DirectStartsFit(ops, o, claim)
  {
    hide Shown, Held, Fits, Allows, StartService, Run;
    forall k: nat | k < |ops| && DirectStart(ops, k, o)
      ensures Fits(Run(ops[..k], o).w, StartService(Run(ops[..k], o).w, ops[k].req, o), claim)
    {
      if k < |ops| - 1 {
        EarlierStartFits(ops, k, o, claim);
      } else {
        LastStartFits(ops, o, claim);
      }
    }
  }

  lemma EarlierStartFits(ops: seq<Operation>, k: nat, o: Oracle, claim: Claim)
    requires k < |ops| - 1 && DirectStart(ops, k, o) && DirectStartsFit(ops[..|ops| - 1], o, claim)
    ensures Fits(Run(ops[..k], o).w, StartService(Run(ops[..k], o).w, ops[k].req, o), claim)
  {
    hide Fits, StartService, Run;
    var init := ops[..|ops| - 1];
    assert init[..k] == ops[..k] && init[k] == ops[k];
    assert DirectStart(init, k, o);
  }

  lemma LastStartFits(ops: seq<Operation>, o: Oracle, claim: Claim)
    requires Allows(o, claim) && !claim.single && ops != [] && DirectStart(ops, |ops| - 1, o)
    requires DirectStartsFit(ops[..|ops| - 1], o, claim) && Shown(Run(ops, o).w, claim)
    ensures var w := Run(ops[..|ops| - 1], o).w; Fits(w, StartService(w, ops[|ops| - 1].req, o), claim)
  {
    hide Shown, Held, Fits, Allows, StartService, Run, DirectStartsFit, AllStartAlone;
    AnyStartsAlone(ops[..|ops| - 1], o, claim);
    RunKeeps(ops[..|ops| - 1], o, claim);
    RunOfLast(ops, o);
    ShownStartFits(Run(ops[..|ops| - 1], o).w, ops[|ops| - 1].req, o, claim);
  }

  lemma RunOfLast(ops: seq<Operation>, o: Oracle)
    requires ops != [] && DirectStart(ops, |ops| - 1, o)
    ensures Run(ops, o) == StartService(Run(ops[..|ops| - 1], o).w, ops[|ops| - 1].req, o)
  {
    hide StartService;
  }

  lemma RunGrows(ops: seq<Operation>, o: Oracle)
    requires ops != []
    ensures Grows(Run(ops[..|ops| - 1], o).w, Run(ops, o).w)
  {
    hide Perform, Grows;
    GrowthLaws(o);
    PerformGrows(Run(ops[..|ops| - 1], o).w, ops[|ops| - 1], o);
  }

  lemma HeldIsShown(w: World, claim: Claim)
    requires Held(w, claim)
    ensures Shown(w, claim)
  {
  }

  // ---------------------------------------------------------------- whole runs: exactly when two boxes are live

  const SINGLE := Claim(false, false, false, true)

  /** With any errors and panics, closings that fail among them: at most one box is live at every moment of a run, if
      and only if no operation, however it enters StartService, starts a box while one is live. */
  lemma {:induction false} OneBoxLiveIff(ops: seq<Operation>, o: Oracle)
    ensures (forall m | m in Run(ops, o).w.past :: AtMostOneLive(m)) <==> AllStartAlone(ops, o, SINGLE)
  {
    hide Run, AllStartAlone, AtMostOneLive;
    if AllStartAlone(ops, o, SINGLE) {
      SingleKeeps(ops, o);
    }
    if ops != [] && forall m | m in Run(ops, o).w.past :: AtMostOneLive(m) {
      OneLiveBefore(ops, o);
      OneBoxLiveIff(ops[..|ops| - 1], o);
      LastStartsAlone(ops, o);
      StartsAloneOn(ops, o);
    } else if ops == [] {
      NoOperationStarts(o);
    }
  }

  lemma NoOperationStarts(o: Oracle)
    ensures AllStartAlone([], o, SINGLE)
  {
  }

  lemma SingleKeeps(ops: seq<Operation>, o: Oracle)
    requires AllStartAlone(ops, o, SINGLE)
    ensures forall m | m in Run(ops, o).w.past :: AtMostOneLive(m)
  {
    hide Run, AllStartAlone, StartService, AtMostOneLive, Quiet;
    RunKeeps(ops, o, SINGLE);
    assert forall m | m in Run(ops, o).w.past :: GoodMoment(m, SINGLE);
  }

  lemma OneLiveBefore(ops: seq<Operation>, o: Oracle)
    requires ops != [] && forall m | m in Run(ops, o).w.past :: AtMostOneLive(m)
    ensures forall m | m in Run(ops[..|ops| - 1], o).w.past :: AtMostOneLive(m)
  {
    hide Run, AtMostOneLive;
    RunGrows(ops, o);
  }

  lemma StartsAloneOn(ops: seq<Operation>, o: Oracle)
    requires ops != [] && AllStartAlone(ops[..|ops| - 1], o, SINGLE)
    requires var before := Run(ops[..|ops| - 1], o);
             !before.end.Panicking? ==> StartsAlone(before.w, ops[|ops| - 1], o, SINGLE)
    ensures AllStartAlone(ops, o, SINGLE)
  {
    hide Run, StartsAlone;
    var n := |ops| - 1;
    forall k: nat | k < |ops| && !Run(ops[..k], o).end.Panicking?
      ensures StartsAlone(Run(ops[..k], o).w, ops[k], o, SINGLE)
    {
      if k < n {
        assert ops[..n][..k] == ops[..k] && ops[..n][k] == ops[k];
      }
    }
  }

  /** Two live boxes that an operation leads to show in the history. */
  lemma LastStartsAlone(ops: seq<Operation>, o: Oracle)
    requires ops != [] && forall m | m in Run(ops, o).w.past :: AtMostOneLive(m)
    ensures var before := Run(ops[..|ops| - 1], o);
            !before.end.Panicking? ==> StartsAlone(before.w, ops[|ops| - 1], o, SINGLE)
  {
    var (before, op) := (Run(ops[..|ops| - 1], o), ops[|ops| - 1]);
    if !before.end.Panicking? {
      assert Run(ops, o) == Perform(before.w, op, o) by {
        hide Perform;
      }
      hide Run, Perform, Entry, StartService, AtMostOneLive;
      AnyRunKeeps(ops[..|ops| - 1], o);
      EntryHeld(before.w, op, o);
      EntryGrows(before.w, op, o);
      if Entry(before.w, op, o).Some? {
        StartsAloneIfShown(Entry(before.w, op, o).value, RequestOf(op), o);
      }
    }
  }

  lemma StartsAloneIfShown(w: World, req: Request, o: Oracle)
    requires Held(w, ANY_RUN) && forall m | m in StartService(w, req, o).w.past :: AtMostOneLive(m)
    ensures Alone(w, StartService(w, req, o), SINGLE)
  {
    if StartService(w, req, o).w.started != w.started {
      NewBoxIsNew(w, req);
      BoxMoment(w, req, o);
      hide StartService, BoxMade, Held;
      var m :| m in StartService(w, req, o).w.past && m.live == w.now.live + {BoxMade(w, req)};
      assert AtMostOneLive(m) && BoxMade(w, req) in m.live;
      assert forall b | b in w.now.live :: b in m.live && b == BoxMade(w, req);
      assert w.now.live == {};
    }
  }

  lemma EntryHeld(w: World, op: Operation, o: Oracle)
    requires Held(w, ANY_RUN) && AtRest(w, ANY_RUN)
    ensures Entry(w, op, o).Some? ==> Held(Entry(w, op, o).value, ANY_RUN)
  {
    hide Held, Stop, ClearForReload;
    StopKeeps(w, o, ANY_RUN);
    ClearKeeps(w, o, ANY_RUN);
    BeginHeld(w, o);
    BeginHeld(Stop(w, o).w, o);
    hide SetCoreStatus, CallOut;
  }

  /** What an operation does once it has entered StartService stays in its history. */
  lemma EntryGrows(w: World, op: Operation, o: Oracle)
    ensures Entry(w, op, o).Some? ==>
              Grows(StartService(Entry(w, op, o).value, RequestOf(op), o).w, Perform(w, op, o).w)
  {
    hide Grows, Stop, ClearForReload, StartService, Guarded, CallOut, SetCoreStatus;
    if Entry(w, op, o).Some? {
      var r := StartService(Entry(w, op, o).value, RequestOf(op), o);
      GuardGrows(r, o);
      GrowsSelf(r.w);
    }
  }

  // ---------------------------------------------------------------- runs that show it

  const RAW := Request("{}", "", true, false)
  const RAW_SERVED := Request("{}", "", true, true)

  /** Every library call works, but perhaps not the closing of a box. */
  ghost predicate CallsWork(o: Oracle) {
    forall n, c | c != CloseBox :: o(n, c).Fine?
  }

  lemma RawStartSucceeds(w: World, req: Request, o: Oracle)
    requires CallsWork(o) && req.content != "" && req.rawConfig
    ensures Succeeds(StartService(w, req, o))
  {
    hide Halt;
    var w1 := w.(clock := w.clock + 1);
    assert Judge(CallOut(w, o, ParseOptions), o, ErrorParsingConfig) == Passed(w1);
    assert SaveStage(w1, o).Passed?;
    assert Configure(w, req, o) == SaveStage(w1, o);
    LaunchSucceeds(SaveStage(w1, o).w, req, o);
  }

  lemma LaunchSucceeds(w: World, req: Request, o: Oracle)
    requires CallsWork(o)
    ensures Succeeds(Launch(w, req, o))
  {
    hide Halt;
    assert ServerStage(w, req, o).Passed?;
    var w1 := ServerStage(w, req, o).w;
    assert Judge(CallOut(w1, o, NewBox), o, CreateService).Passed?;
    assert BoxStage(w1, o).Passed?;
    hide ServerStage, BoxStage;
  }

  lemma StartIsHeld()
    ensures Held(START, ANY_RUN) && AtRest(START, ANY_RUN)
  {
  }

  /** The first two direct starts of a process, in a row. */
  lemma TwoStarts(req: Request, o: Oracle) returns (w: World)
    requires CallsWork(o) && req.content != "" && req.rawConfig
    ensures w == StartService(START, req, o).w && Held(w, ANY_RUN)
    ensures Succeeds(StartService(START, req, o)) && Succeeds(StartService(w, req, o))
    ensures Run([OpStartService(req)], o) == StartService(START, req, o)
    ensures Run([OpStartService(req), OpStartService(req)], o) == StartService(w, req, o)
  {
    hide StartService, Held;
    RawStartSucceeds(START, req, o);
    w := StartService(START, req, o).w;
    RawStartSucceeds(w, req, o);
    var ops := [OpStartService(req), OpStartService(req)];
    assert ops[..1] == [OpStartService(req)] && ops[..1][..0] == [];
    RunOfLast(ops[..1], o);
    RunOfLast(ops, o);
    AnyRunKeeps([OpStartService(req)], o);
  }

  /** The very first direct start goes from stopped to started, which the automaton does not allow. */
  lemma DirectStartLeavesAutomaton(o: Oracle)
    requires CallsWork(o)
    ensures !Word(Run([OpStartService(RAW)], o).w.events)
  {
    hide StartService, Held, Word, Run;
    var w := TwoStarts(RAW, o);
    StartIsHeld();
    StartIsWord();
    StartKeepsWordIff(START, RAW, o);
  }

  lemma StartIsWord()
    ensures Word(START.events)
  {
  }

  /** The second one replaces a box that nobody closes any more. */
  lemma DirectStartsLeaveTwoBoxes(o: Oracle)
    requires CallsWork(o)
    ensures |Run([OpStartService(RAW), OpStartService(RAW)], o).w.now.live| == 2
  {
    hide StartService, Held, Run;
    var w := TwoStarts(RAW, o);
    SuccessShape(START, RAW, o);
    SuccessShape(w, RAW, o);
    NewBoxIsNew(w, RAW);
    assert w.now.live == {BoxMade(START, RAW)};
  }

  /** With a command server, the first server goes on serving the box that was replaced. */
  lemma DirectStartsServeReplacedBox(o: Oracle)
    requires CallsWork(o)
    ensures var now := Run([OpStartService(RAW_SERVED), OpStartService(RAW_SERVED)], o).w.now;
            && 0 in now.serving && now.server != Some(0) && now.box != Some(now.serving[0])
            && now.serving[0] in now.live
  {
    hide StartService, Run;
    var w := TwoStarts(RAW_SERVED, o);
    SuccessShape(START, RAW_SERVED, o);
    SuccessShape(w, RAW_SERVED, o);
    assert w.now.server == Some(0) && w.now.serving == map[0 := 1];
  }

  /** With closings that fail: the stop leaves the core stopping, and the next start replaces the box not closed. */
  lemma FailedClosingLeavesTwoBoxes(o: Oracle)
    requires CallsWork(o) && forall n :: o(n, CloseBox).Failed?
    ensures |Run([OpStart(RAW), OpStop, OpStart(RAW)], o).w.now.live| == 2
  {
    hide Begin, Stop, Held, BoxMade;
    var ops := [OpStart(RAW), OpStop, OpStart(RAW)];
    assert ops[..2][..1][..0] == [] && ops[..2][..1] == [OpStart(RAW)] && ops[..2][1] == OpStop;
    AnyRunKeeps(ops[..2], o);
    var w0, r1 := BeginSucceeds(START, o);
    assert Run(ops[..2][..1], o) == r1;
    StuckStop(r1.w, o);
    var r2 := Stop(r1.w, o);
    assert Run(ops[..2], o) == r2;
    StuckStop(r2.w, o);
    var w2, r3 := BeginSucceeds(r2.w, o);
    assert Run(ops, o) == r3;
    NewBoxIsNew(r2.w, RAW);
    assert r2.w.now.live == {BoxMade(w0, RAW)};
    assert BoxMade(w2, RAW) == BoxMade(r2.w, RAW) by { BoxMadeAgain(w2, r2.w); }
  }

  lemma BoxMadeAgain(a: World, b: World)
    requires a.nextId == b.nextId
    ensures BoxMade(a, RAW) == BoxMade(b, RAW)
  {
  }

  lemma BeginSucceeds(w: World, o: Oracle) returns (w1: World, r: Result)
    requires CallsWork(o)
    ensures r == Begin(w, RAW, o) && Succeeds(r) && w1.nextId == w.nextId
    ensures r.w.now == w.now.(core := Started, box := Some(BoxMade(w1, RAW)), live := w.now.live + {BoxMade(w1, RAW)})
  {
    hide StartService, SetCoreStatus;
    StatusFrame(w, Starting);
    w1 := CallOut(SetCoreStatus(w, Starting), o, MemoryLimit).w;
    r := Begin(w, RAW, o);
    RawStartSucceeds(w1, RAW, o);
    SuccessShape(w1, RAW, o);
  }

  /** A stop whose closing fails, without a command server; and the stop of a core that is stuck. */
  lemma StuckStop(w: World, o: Oracle)
    requires CallsWork(o) && forall n :: o(n, CloseBox).Failed?
    requires w.now.server.None? && w.now.box.Some? && (w.now.core.Started? || w.now.core.Stopping?)
    ensures var r := Stop(w, o);
            && r.w.now.core.Stopping? && r.w.now.box == w.now.box && r.w.now.server.None? && r.w.now.live == w.now.live
            && r.w.nextId == w.nextId && r.end.Returned?
            && (w.now.core.Stopping? ==> r.w == w)
  {
  }
}
