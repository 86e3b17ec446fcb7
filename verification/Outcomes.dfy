/** How the operations of the life cycle end, read off the calls they make: each call by name, in order, with what its
    failure means. Nothing here refers to the stages by which the operations are defined. */
module Outcomes {
  import opened Wrappers
  import opened LifecycleSpec
  import opened LifecycleProofs

  /** A call to come: whether its error is ignored, else the message of its failure; and whether a command server is
      there when it is made. */
  datatype PlannedCall = PlannedCall(call: Call, errorIgnored: bool, message: Message, server: bool)

  function Needed(call: Call, message: Message, server: bool := false): PlannedCall {
    PlannedCall(call, false, message, server)
  }

  function Tried(call: Call, server: bool := false): PlannedCall {
    PlannedCall(call, true, Empty, server)
  }

  predicate Works(step: PlannedCall, verdict: Verdict) {
    verdict.Fine? || (verdict.Failed? && step.errorIgnored)
  }

  /** The first call of the plan that does not work, when the calls are made from the given clock on. */
  function FirstBad(plan: seq<PlannedCall>, clock: nat, o: Oracle): (k: Option<nat>)
    ensures k.Some? ==> k.value < |plan| && !Works(plan[k.value], o(clock + k.value, plan[k.value].call))
    ensures forall i: nat | i < |plan| && (k.None? || i < k.value) :: Works(plan[i], o(clock + i, plan[i].call))
  {
    if plan == [] then None
    else if !Works(plan[0], o(clock, plan[0].call)) then Some(0)
    else
      match FirstBad(plan[1..], clock + 1, o)
      case None => None
      case Some(k) => Some(k + 1)
  }

  /** Where the first bad call of a plan is that follows a plan of some calls. */
  function Shifted(k: Option<nat>, calls: nat): Option<nat> {
    match k case Some(i) => Some(i + calls) case None => None
  }

  lemma FirstAndRest(a: seq<PlannedCall>, b: seq<PlannedCall>)
    requires a != []
    ensures a == [a[0]] + a[1..] && a + b == [a[0]] + (a[1..] + b)
  {
  }

  lemma {:induction false} FirstBadOfConcat(a: seq<PlannedCall>, b: seq<PlannedCall>, clock: nat, o: Oracle)
    ensures FirstBad(a + b, clock, o)
         == if FirstBad(a, clock, o).Some? then FirstBad(a, clock, o) else Shifted(FirstBad(b, clock + |a|, o), |a|)
    decreases |a|, 1
  {
    hide FirstBad, Works;
    if a == [] {
      assert a + b == b;
      NothingBad(clock, o);
    } else {
      FirstAndRest(a, b);
      ConcatNext(a[0], a[1..], b, clock, o);
    }
  }

  lemma ConcatNext(first: PlannedCall, rest: seq<PlannedCall>, b: seq<PlannedCall>, clock: nat, o: Oracle)
    ensures FirstBad([first] + (rest + b), clock, o)
         == if FirstBad([first] + rest, clock, o).Some? then FirstBad([first] + rest, clock, o)
            else Shifted(FirstBad(b, clock + (1 + |rest|), o), 1 + |rest|)
    decreases |rest|, 2
  {
    hide FirstBad, Works;
    FirstBadOfConcat(rest, b, clock + 1, o);
    FirstBadNext(first, rest, clock, o);
    FirstBadNext(first, rest + b, clock, o);
    assert clock + 1 + |rest| == clock + (1 + |rest|);
  }

  lemma FirstBadNext(step: PlannedCall, rest: seq<PlannedCall>, clock: nat, o: Oracle)
    ensures FirstBad([step] + rest, clock, o)
         == if !Works(step, o(clock, step.call)) then Some(0)
            else Shifted(FirstBad(rest, clock + 1, o), 1)
  {
    hide Works;
    assert ([step] + rest)[1..] == rest;
  }

  lemma NothingBad(clock: nat, o: Oracle)
    ensures FirstBad([], clock, o) == None
  {
  }

  /** The same for a call that is made only under a condition. */
  lemma FirstBadIf(made: bool, step: PlannedCall, rest: seq<PlannedCall>, clock: nat, o: Oracle)
    ensures FirstBad((if made then [step] else []) + rest, clock, o)
         == if made && !Works(step, o(clock, step.call)) then Some(0)
            else var calls := if made then 1 else 0; Shifted(FirstBad(rest, clock + calls, o), calls)
  {
    hide Works, FirstBad;
    if made {
      FirstBadNext(step, rest, clock, o);
    } else {
      assert [] + rest == rest;
    }
  }

  /** No call of the plan fails to work. */
  predicate AllWork(plan: seq<PlannedCall>, clock: nat, o: Oracle) {
    FirstBad(plan, clock, o).None?
  }

  lemma AllWorkIf(made: bool, call: Call, rest: seq<PlannedCall>, clock: nat, o: Oracle)
    ensures AllWork((if made then [Tried(call)] else []) + rest, clock, o)
       <==> (made ==> !o(clock, call).Panicked?) && AllWork(rest, clock + (if made then 1 else 0), o)
  {
    FirstBadIf(made, Tried(call), rest, clock, o);
    hide FirstBad;
  }

  lemma NothingToWork(clock: nat, o: Oracle)
    ensures AllWork([], clock, o)
  {
  }

  // ---------------------------------------------------------------- the alert

  function AlertPlan(server: bool, box: bool): seq<PlannedCall> {
    (if true then [Tried(DeactivateTunnel)] else [])
    + ((if server then [Tried(ClearService)] else [])
       + ((if box then [Tried(CloseBox)] else [])
          + ((if server then [Tried(CloseServer)] else []) + [])))
  }

  function AlertPlanOf(w: World): seq<PlannedCall> {
    AlertPlan(w.now.server.Some?, w.now.box.Some?)
  }

  /** What the steps change of the clock and the other variables. */
  lemma StepClocks(w: World, o: Oracle, state: CoreState, message: Message)
    ensures SetCoreStatus(w, state, message).clock == w.clock
            && SetCoreStatus(w, state, message).optionsSet == w.optionsSet
    ensures var n := UnserveIfAny(w, o);
            && n.w.optionsSet == w.optionsSet
            && (w.now.server.None? ==> n == Next(w, Fine))
            && (w.now.server.Some? ==> n.w.clock == w.clock + 1 && !n.verdict.Failed?
                                       && (n.verdict.Panicked? <==> o(w.clock, ClearService).Panicked?))
    ensures w.now.box.Some? ==>
              var n := CloseCurrent(w, o);
              n.w.clock == w.clock + 1 && n.verdict == o(w.clock, CloseBox) && n.w.optionsSet == w.optionsSet
    ensures w.now.server.Some? ==>
              var n := ShutServer(w, o);
              && n.w.clock == w.clock + 1 && n.verdict == o(w.clock, CloseServer)
              && n.w == w.(clock := n.w.clock, servers := n.w.servers)
  {
  }

  lemma FinishAlertFrame(w: World, o: Oracle)
    ensures var n := FinishAlert(w, o);
            && !n.verdict.Failed? && n.w.events == w.events && n.w.now.core == w.now.core
            && n.w.optionsSet == w.optionsSet && n.w.configPath == w.configPath
            && (!n.verdict.Panicked? ==> n.w.now.box.None?)
  {
    hide CloseCurrent, ShutServer;
    StepClocks(w, o, Stopped, UnexpectedError);
    if w.now.box.Some? {
      CloseFrame(w, o);
      StepClocks(DropBox(CloseCurrent(w, o).w), o, Stopped, UnexpectedError);
    }
  }

  lemma FinishAlertOutcome(w: World, o: Oracle)
    ensures var (server, box) := (w.now.server.Some?, w.now.box.Some?);
            var plan := (if box then [Tried(CloseBox)] else []) + ((if server then [Tried(CloseServer)] else []) + []);
            && (FinishAlert(w, o).verdict.Panicked? <==> !AllWork(plan, w.clock, o))
            && (!FinishAlert(w, o).verdict.Panicked? ==>
                  FinishAlert(w, o).w.clock == w.clock + (if box then 1 else 0) + (if server then 1 else 0))
  {
    hide CloseCurrent, ShutServer, AllWork, Tried;
      var (server, box) := (w.now.server.Some?, w.now.box.Some?);
    AllWorkIf(box, CloseBox, (if server then [Tried(CloseServer)] else []) + [], w.clock, o);
    StepClocks(w, o, Stopped, UnexpectedError);
    if box {
      CloseFrame(w, o);
    }
    var w3 := if box then DropBox(CloseCurrent(w, o).w) else w;
    AllWorkIf(server, CloseServer, [], w3.clock, o);
    NothingToWork(w3.clock + (if server then 1 else 0), o);
    StepClocks(w3, o, Stopped, UnexpectedError);
  }

  /** The alert announces itself and ends with the core stopped and no box, unless it panics. */
  lemma AlertFrame(w: World, o: Oracle)
    ensures var n := StopAndAlert(w, o);
            && !n.verdict.Failed? && n.w.events == w.events + [Info(Stopped, UnexpectedError)]
            && n.w.optionsSet == w.optionsSet && n.w.configPath == w.configPath
            && (!n.verdict.Panicked? ==> n.w.now.core.Stopped? && n.w.now.box.None?)
  {
    hide SetCoreStatus, UnserveIfAny, FinishAlert;
    StepClocks(w, o, Stopped, UnexpectedError);
    StatusFrame(w, Stopped, UnexpectedError);
    var n0 := CallOut(SetCoreStatus(w, Stopped, UnexpectedError), o, DeactivateTunnel);
    StepClocks(n0.w, o, Stopped, UnexpectedError);
    UnserveFrame(n0.w, o);
    FinishAlertFrame(UnserveIfAny(n0.w, o).w, o);
  }

  /** The alert ends well exactly when none of its calls panics; then it has made them all. */
  lemma AlertOutcome(w: World, o: Oracle)
    ensures StopAndAlert(w, o).verdict.Panicked? <==> !AllWork(AlertPlanOf(w), w.clock, o)
    ensures !StopAndAlert(w, o).verdict.Panicked? ==> StopAndAlert(w, o).w.clock == w.clock + |AlertPlanOf(w)|
  {
    hide SetCoreStatus, UnserveIfAny, FinishAlert, AllWork, Tried;
      var (server, box) := (w.now.server.Some?, w.now.box.Some?);
    var closing := (if box then [Tried(CloseBox)] else []) + ((if server then [Tried(CloseServer)] else []) + []);
    var serving := (if server then [Tried(ClearService)] else []) + closing;
    AllWorkIf(true, DeactivateTunnel, serving, w.clock, o);
    StepClocks(w, o, Stopped, UnexpectedError);
    StatusFrame(w, Stopped, UnexpectedError);
    var n0 := CallOut(SetCoreStatus(w, Stopped, UnexpectedError), o, DeactivateTunnel);
    AllWorkIf(server, ClearService, closing, n0.w.clock, o);
    StepClocks(n0.w, o, Stopped, UnexpectedError);
    UnserveFrame(n0.w, o);
    FinishAlertOutcome(UnserveIfAny(n0.w, o).w, o);
  }

  // ---------------------------------------------------------------- StartService

  function ReadPlan(req: Request, server: bool): seq<PlannedCall> {
    if req.content == "" then [Needed(ReadConfig(req.path), ErrorReadingConfig, server)] else []
  }

  function ParsePlan(req: Request, server: bool): seq<PlannedCall> {
    ReadPlan(req, server) + [Needed(ParseOptions, ErrorParsingConfig, server)]
  }

  function BuildPlan(req: Request, server: bool): seq<PlannedCall> {
    if req.rawConfig then [] else [Needed(BuildOptions, ErrorBuildingConfig, server)]
  }

  function ServerPlan(req: Request, server: bool): seq<PlannedCall> {
    if req.commandServer then [Tried(NewLogger, server), Needed(StartServer, StartCommandServer, true)] else []
  }

  function BoxPlan(server: bool): seq<PlannedCall> {
    [Needed(NewBox, CreateService, server), Needed(StartBox, StartServiceFailed, server)]
  }

  function ServePlan(req: Request): seq<PlannedCall> {
    if req.commandServer then [Tried(SetService, true)] else []
  }

  /** The calls a start makes when all of them work: reading unless the content is given, parsing, building unless the
      configuration is raw, saving, the command server if asked for, the box, and serving it. */
  function StartPlan(req: Request, server: bool): seq<PlannedCall> {
    (ParsePlan(req, server) + (BuildPlan(req, server) + [Tried(SaveConfig, server)]))
    + (ServerPlan(req, server) + (BoxPlan(server || req.commandServer) + ServePlan(req)))
  }

  /** How an operation ends whose call did not work: in a panic, when the call panicked; else it announces the message
      of the call and the alert, and replies with the message, unless a call of the alert panics. */
  ghost predicate EndsAt(events: seq<Info>, box: bool, step: PlannedCall, clock: nat, r: Result, o: Oracle) {
    var verdict := o(clock, step.call);
    && (verdict.Panicked? ==> r.end.Panicking? && r.w.events == events)
    && (verdict.Failed? ==>
          && r.w.events == events + [Info(Stopped, step.message), Info(Stopped, UnexpectedError)]
          && r.end == if AllWork(AlertPlan(step.server, box), clock + 1, o)
                      then Returned(Reply(Stopped, step.message, true)) else Panicking)
  }

  ghost predicate Follows(w: World, plan: seq<PlannedCall>, s: Stage, o: Oracle) {
    match FirstBad(plan, w.clock, o)
    case None => s.Passed? && s.w.clock == w.clock + |plan| && s.w.events == w.events
                 && s.w.optionsSet == w.optionsSet
    case Some(k) => s.Ended? && EndsAt(w.events, w.now.box.Some?, plan[k], w.clock + k, s.r, o)
                    && s.r.w.optionsSet == w.optionsSet
  }

  lemma FollowsOn(w: World, p: seq<PlannedCall>, s: Stage, q: seq<PlannedCall>, t: Stage, o: Oracle)
    requires Follows(w, p, s, o)
    requires s.Ended? ==> t == s
    requires s.Passed? ==> Follows(s.w, q, t, o) && (s.w.now.box.Some? == w.now.box.Some? || AllTried(q))
    ensures Follows(w, p + q, t, o)
  {
    FirstBadOfConcat(p, q, w.clock, o);
    hide FirstBad;
  }

  /** Only a panic ends such a plan early. */
  predicate AllTried(plan: seq<PlannedCall>) {
    forall step | step in plan :: step.errorIgnored
  }

  lemma FirstBadOne(step: PlannedCall, clock: nat, o: Oracle)
    ensures FirstBad([step], clock, o) == if Works(step, o(clock, step.call)) then None else Some(0)
  {
    FirstBadNext(step, [], clock, o);
    NothingBad(clock + 1, o);
    assert [step] + [] == [step];
    hide FirstBad, Works;
  }

  lemma NothingFollows(w: World, o: Oracle)
    ensures Follows(w, [], Passed(w), o)
  {
  }

  /** What a stage's plan looks at. */
  lemma SameFollows(w: World, w1: World, plan: seq<PlannedCall>, s: Stage, o: Oracle)
    requires Follows(w1, plan, s, o)
    requires w.clock == w1.clock && w.events == w1.events && w.optionsSet == w1.optionsSet && w.now == w1.now
    ensures Follows(w, plan, s, o)
  {
    hide FirstBad, EndsAt;
  }

  /** A call that is judged. */
  lemma NextFollows(w: World, n: Next, call: Call, message: Message, o: Oracle)
    requires n.verdict == o(w.clock, call) && n.w.clock == w.clock + 1 && n.w.events == w.events
    requires n.w.optionsSet == w.optionsSet && n.w.now == w.now
    ensures Follows(w, [Needed(call, message, w.now.server.Some?)], Judge(n, o, message), o)
  {
    FirstBadOne(Needed(call, message, w.now.server.Some?), w.clock, o);
    var u := SetCoreStatus(n.w, Stopped, message);
    StatusFrame(n.w, Stopped, message);
    StepClocks(n.w, o, Stopped, message);
    AlertOutcome(u, o);
    AlertFrame(u, o);
    hide FirstBad, SetCoreStatus, StopAndAlert, AllWork, AlertPlan;
    assert w.events + [Info(Stopped, message), Info(Stopped, UnexpectedError)]
        == u.events + [Info(Stopped, UnexpectedError)];
  }

  lemma CallFollows(w: World, call: Call, message: Message, o: Oracle)
    ensures Follows(w, [Needed(call, message, w.now.server.Some?)], Judge(CallOut(w, o, call), o, message), o)
  {
    hide Follows, Judge;
    NextFollows(w, CallOut(w, o, call), call, message, o);
  }

  /** A call whose error does not matter. */
  lemma TriedFollows(w: World, call: Call, s: Stage, o: Oracle)
    requires if o(w.clock, call).Panicked? then s.Ended? && s.r.end.Panicking? && s.r.w.events == w.events
                                                && s.r.w.optionsSet == w.optionsSet
             else s.Passed? && s.w.clock == w.clock + 1 && s.w.events == w.events && s.w.optionsSet == w.optionsSet
    ensures Follows(w, [Tried(call, w.now.server.Some?)], s, o)
  {
    FirstBadOne(Tried(call, w.now.server.Some?), w.clock, o);
    hide FirstBad;
  }

  lemma ReadFollows(w: World, req: Request, o: Oracle)
    ensures Follows(w, ReadPlan(req, w.now.server.Some?), ReadStage(w, req, o), o)
  {
    hide Follows, Judge;
    NothingFollows(w, o);
    var w1 := w.(configPath := req.path);
    CallFollows(w1, ReadConfig(req.path), ErrorReadingConfig, o);
    SameFollows(w, w1, [Needed(ReadConfig(req.path), ErrorReadingConfig, w.now.server.Some?)],
                Judge(CallOut(w1, o, ReadConfig(req.path)), o, ErrorReadingConfig), o);
  }

  /** Reading and parsing. */
  function Parsed(w: World, req: Request, o: Oracle): Stage {
    match ReadStage(w, req, o)
    case Ended(r) => Ended(r)
    case Passed(w1) => Judge(CallOut(w1, o, ParseOptions), o, ErrorParsingConfig)
  }

  lemma ParseFollows(w: World, req: Request, o: Oracle)
    ensures Follows(w, ParsePlan(req, w.now.server.Some?), Parsed(w, req, o), o)
    ensures Parsed(w, req, o).Passed? ==> OnlyConfigured(w, Parsed(w, req, o).w)
  {
    hide Follows, Judge, ReadPlan;
    var server := w.now.server.Some?;
    ReadFollows(w, req, o);
    var s := ReadStage(w, req, o);
    ReadOnlyConfigures(w, req, o);
    if s.Passed? {
      CallFollows(s.w, ParseOptions, ErrorParsingConfig, o);
      JudgeFrame(CallOut(s.w, o, ParseOptions), o, ErrorParsingConfig);
    }
    FollowsOn(w, ReadPlan(req, server), s, [Needed(ParseOptions, ErrorParsingConfig, server)], Parsed(w, req, o), o);
  }

  lemma ReadOnlyConfigures(w: World, req: Request, o: Oracle)
    ensures ReadStage(w, req, o).Passed? ==>
              var w1 := ReadStage(w, req, o).w;
              OnlyConfigured(w, w1) && w1.configPath == (if req.content == "" then req.path else w.configPath)
  {
    hide Judge;
    var w1 := w.(configPath := req.path);
    JudgeFrame(CallOut(w1, o, ReadConfig(req.path)), o, ErrorReadingConfig);
  }

  lemma BuildFollows(w: World, req: Request, o: Oracle)
    requires req.rawConfig || w.optionsSet
    ensures Follows(w, BuildPlan(req, w.now.server.Some?), BuildStage(w, req, o), o)
    ensures BuildStage(w, req, o).Passed? ==> OnlyConfigured(w, BuildStage(w, req, o).w)
  {
    hide Follows, Judge;
    NothingFollows(w, o);
    CallFollows(w, BuildOptions, ErrorBuildingConfig, o);
    JudgeFrame(CallOut(w, o, BuildOptions), o, ErrorBuildingConfig);
  }

  lemma SaveFollows(w: World, o: Oracle)
    ensures Follows(w, [Tried(SaveConfig, w.now.server.Some?)], SaveStage(w, o), o)
  {
    hide Follows;
    TriedFollows(w, SaveConfig, SaveStage(w, o), o);
  }

  /** Building and saving. */
  function Saved(w: World, req: Request, o: Oracle): Stage {
    match BuildStage(w, req, o)
    case Ended(r) => Ended(r)
    case Passed(w1) => SaveStage(w1, o)
  }

  lemma SavedFollows(w: World, req: Request, o: Oracle)
    requires req.rawConfig || w.optionsSet
    ensures var server := w.now.server.Some?;
            Follows(w, BuildPlan(req, server) + [Tried(SaveConfig, server)], Saved(w, req, o), o)
  {
    hide Follows, BuildStage, SaveStage, BuildPlan;
    var server := w.now.server.Some?;
    BuildFollows(w, req, o);
    var s := BuildStage(w, req, o);
    if s.Passed? {
      SaveFollows(s.w, o);
    }
    FollowsOn(w, BuildPlan(req, server), s, [Tried(SaveConfig, server)], Saved(w, req, o), o);
  }

  lemma ConfigureFollows(w: World, req: Request, o: Oracle)
    requires req.rawConfig || w.optionsSet
    ensures var server := w.now.server.Some?;
            Follows(w, ParsePlan(req, server) + (BuildPlan(req, server) + [Tried(SaveConfig, server)]),
                    Configure(w, req, o), o)
  {
    hide Follows, ReadStage, BuildStage, SaveStage, ParsePlan, BuildPlan, Judge;
    var server := w.now.server.Some?;
    ParseFollows(w, req, o);
    var s := Parsed(w, req, o);
    if s.Passed? {
      SavedFollows(s.w, req, o);
    }
    FollowsOn(w, ParsePlan(req, server), s, BuildPlan(req, server) + [Tried(SaveConfig, server)],
              Configure(w, req, o), o);
  }

  lemma ServerFollows(w: World, req: Request, o: Oracle)
    ensures Follows(w, ServerPlan(req, w.now.server.Some?), ServerStage(w, req, o), o)
  {
    hide Follows, Judge, OpenServer;
    NothingFollows(w, o);
    if req.commandServer {
      var n := CallOut(w, o, NewLogger);
      var made := MadeServer(n.w);
      var logged := if n.verdict.Panicked? then Ended(Result(n.w, Panicking)) else Passed(made);
      TriedFollows(w, NewLogger, logged, o);
      OpenClocks(made, o);
      NextFollows(made, OpenServer(made, o), StartServer, StartCommandServer, o);
      FollowsOn(w, [Tried(NewLogger, w.now.server.Some?)], logged, [Needed(StartServer, StartCommandServer, true)],
                ServerStage(w, req, o), o);
      assert [Tried(NewLogger, w.now.server.Some?)] + [Needed(StartServer, StartCommandServer, true)]
          == ServerPlan(req, w.now.server.Some?);
    }
  }

  lemma OpenClocks(w: World, o: Oracle)
    requires w.now.server.Some?
    ensures var n := OpenServer(w, o);
            && n.verdict == o(w.clock, StartServer) && n.w.clock == w.clock + 1 && n.w.events == w.events
            && n.w.optionsSet == w.optionsSet && n.w.now == w.now
  {
  }

  lemma BoxFollows(w: World, o: Oracle)
    ensures Follows(w, BoxPlan(w.now.server.Some?), BoxStage(w, o), o)
  {
    hide Follows, Judge, CallOut;
    var server := w.now.server.Some?;
    CallFollows(w, NewBox, CreateService, o);
    var s := Judge(CallOut(w, o, NewBox), o, CreateService);
    JudgeFrame(CallOut(w, o, NewBox), o, CreateService);
    CallFrame(w, o, NewBox);
    if s.Passed? {
      StartBoxFollows(s.w, o);
    }
    FollowsOn(w, [Needed(NewBox, CreateService, server)], s, [Needed(StartBox, StartServiceFailed, server)],
              BoxStage(w, o), o);
    assert [Needed(NewBox, CreateService, server)] + [Needed(StartBox, StartServiceFailed, server)] == BoxPlan(server);
  }

  /** The second half of the box stage. */
  function BoxStarted(w: World, o: Oracle): Stage {
    match Judge(CallOut(w.(nextId := w.nextId + 1), o, StartBox), o, StartServiceFailed)
    case Ended(r) => Ended(r)
    case Passed(w2) =>
      var running := Moved(w2.(started := w2.started + 1), w2.now.(live := w2.now.live + {w.nextId}));
      Passed(Moved(running, running.now.(box := Some(w.nextId))))
  }

  lemma StartBoxFollows(w: World, o: Oracle)
    ensures Follows(w, [Needed(StartBox, StartServiceFailed, w.now.server.Some?)], BoxStarted(w, o), o)
  {
    hide Judge;
    var w1 := w.(nextId := w.nextId + 1);
    CallFollows(w1, StartBox, StartServiceFailed, o);
    FirstBadOne(Needed(StartBox, StartServiceFailed, w.now.server.Some?), w.clock, o);
    JudgeFrame(CallOut(w1, o, StartBox), o, StartServiceFailed);
    hide FirstBad, EndsAt;
  }

  lemma ServeFollows(w: World, req: Request, o: Oracle)
    requires w.now.box.Some? && (req.commandServer ==> w.now.server.Some?)
    ensures Follows(w, ServePlan(req), ServeStage(w, req, o), o)
  {
    hide Follows;
    NothingFollows(w, o);
    if req.commandServer {
      TriedFollows(w, SetService, ServeStage(w, req, o), o);
    }
  }

  /** The box and serving it. */
  function Boxed(w: World, req: Request, o: Oracle): Stage
    requires req.commandServer ==> w.now.server.Some?
  {
    match BoxStage(w, o)
    case Ended(r) => Ended(r)
    case Passed(w1) => ServeStage(w1, req, o)
  }

  lemma BoxedFollows(w: World, req: Request, o: Oracle)
    requires req.commandServer ==> w.now.server.Some?
    ensures Follows(w, BoxPlan(w.now.server.Some?) + ServePlan(req), Boxed(w, req, o), o)
  {
    hide Follows, BoxStage, ServeStage, BoxPlan;
    BoxFollows(w, o);
    var s := BoxStage(w, o);
    if s.Passed? {
      ServeFollows(s.w, req, o);
    }
    FollowsOn(w, BoxPlan(w.now.server.Some?), s, ServePlan(req), Boxed(w, req, o), o);
  }

  /** Everything after the configuration, but the last announcement. */
  function Launched(w: World, req: Request, o: Oracle): Stage {
    match ServerStage(w, req, o)
    case Ended(r) => Ended(r)
    case Passed(w1) => Boxed(w1, req, o)
  }

  lemma LaunchedFollows(w: World, req: Request, o: Oracle)
    ensures var server := w.now.server.Some?;
            Follows(w, ServerPlan(req, server) + (BoxPlan(server || req.commandServer) + ServePlan(req)),
                    Launched(w, req, o), o)
  {
    hide Follows, ServerStage, Boxed, BoxPlan, ServerPlan, ServePlan;
    var server := w.now.server.Some?;
    ServerFollows(w, req, o);
    ServerStageFrame(w, req, o);
    var s := ServerStage(w, req, o);
    if s.Passed? {
      BoxedFollows(s.w, req, o);
    }
    FollowsOn(w, ServerPlan(req, server), s, BoxPlan(server || req.commandServer) + ServePlan(req),
              Launched(w, req, o), o);
  }

  /** A whole start, but the last announcement. */
  function Served(w: World, req: Request, o: Oracle): Stage {
    match Configure(w, req, o)
    case Ended(r) => Ended(r)
    case Passed(w1) => Launched(w1, req, o)
  }

  lemma ServedFollows(w: World, req: Request, o: Oracle)
    requires req.rawConfig || w.optionsSet
    ensures Follows(w, StartPlan(req, w.now.server.Some?), Served(w, req, o), o)
  {
    hide Follows, Configure, Launched, ParsePlan, BuildPlan, ServerPlan, BoxPlan, ServePlan;
    var server := w.now.server.Some?;
    ConfigureFollows(w, req, o);
    ConfigureKeepsNow(w, req, o);
    var s := Configure(w, req, o);
    if s.Passed? {
      LaunchedFollows(s.w, req, o);
    }
    FollowsOn(w, ParsePlan(req, server) + (BuildPlan(req, server) + [Tried(SaveConfig, server)]), s,
              ServerPlan(req, server) + (BoxPlan(server || req.commandServer) + ServePlan(req)), Served(w, req, o), o);
  }

  lemma ConfigureKeepsNow(w: World, req: Request, o: Oracle)
    ensures Configure(w, req, o).Passed? ==> OnlyConfigured(w, Configure(w, req, o).w)
  {
    hide Judge;
    ParseFollows(w, req, o);
    if Parsed(w, req, o).Passed? {
      JudgeFrame(CallOut(Parsed(w, req, o).w, o, BuildOptions), o, ErrorBuildingConfig);
    }
  }

  lemma ServedStarts(w: World, req: Request, o: Oracle)
    ensures StartService(w, req, o)
         == match Served(w, req, o)
            case Ended(r) => r
            case Passed(w') => Result(SetCoreStatus(w', Started), Returned(Reply(Started, Empty, false)))
  {
    hide Configure, ServerStage, BoxStage, ServeStage, SetCoreStatus;
  }

  /** A start succeeds exactly when every call of its plan works at its clock; then it has made them all. Otherwise the
      first call that does not work decides how it ends: by its panic, or by the announcement and the reply that carry
      its own message. */
  lemma StartOutcome(w: World, req: Request, o: Oracle)
    requires req.rawConfig || w.optionsSet
    ensures var (r, plan) := (StartService(w, req, o), StartPlan(req, w.now.server.Some?));
            match FirstBad(plan, w.clock, o)
            case None =>
              && r.end == Returned(Reply(Started, Empty, false)) && r.w.clock == w.clock + |plan|
              && r.w.events == w.events + [Info(Started, Empty)] && r.w.now.core.Started?
            case Some(k) => EndsAt(w.events, w.now.box.Some?, plan[k], w.clock + k, r, o)
    ensures StartService(w, req, o).w.optionsSet == w.optionsSet
  {
    hide Served, StartService, StartPlan, FirstBad, EndsAt, SetCoreStatus;
    ServedFollows(w, req, o);
    ServedStarts(w, req, o);
    if Served(w, req, o).Passed? {
      StatusFrame(Served(w, req, o).w, Started);
      StepClocks(Served(w, req, o).w, o, Started, Empty);
    }
  }

  /** A request that is not raw needs options: when none were ever set, the start panics at building, unless reading or
      parsing fails first. */
  lemma StartWithoutOptions(w: World, req: Request, o: Oracle)
    requires !req.rawConfig && !w.optionsSet
    ensures var (r, plan) := (StartService(w, req, o), ParsePlan(req, w.now.server.Some?));
            match FirstBad(plan, w.clock, o)
            case None => r.end.Panicking? && r.w.events == w.events && r.w.clock == w.clock + |plan|
            case Some(k) => EndsAt(w.events, w.now.box.Some?, plan[k], w.clock + k, r, o)
    ensures StartService(w, req, o).w.optionsSet == w.optionsSet
  {
    hide ReadStage, Judge, ParsePlan, FirstBad, EndsAt, Launch;
    ParseFollows(w, req, o);
  }

  /** The path a start leaves: the one it read from, or the one that was active; the working copy if there is none. */
  lemma StartPath(w: World, req: Request, o: Oracle)
    ensures var r := StartService(w, req, o);
            var path := if req.content == "" then req.path else w.configPath;
            r.end.Returned? && !r.end.reply.isError ==>
              r.w.configPath == if path == "" then "current-config.json" else path
  {
    hide ReadStage, Judge, ServerStage, BoxStage, ServeStage, SetCoreStatus;
    ReadOnlyConfigures(w, req, o);
    var s := ReadStage(w, req, o);
    if s.Passed? {
      JudgeFrame(CallOut(s.w, o, ParseOptions), o, ErrorParsingConfig);
      JudgeFrame(CallOut(s.w.(clock := s.w.clock + 1), o, BuildOptions), o, ErrorBuildingConfig);
    }
    EndedStages(w, req, o);
    if Configure(w, req, o).Passed? {
      hide Launch;
      LaunchPath(Configure(w, req, o).w, req, o);
    }
  }

  lemma StagePaths(w: World, req: Request, o: Oracle)
    ensures ServerStage(w, req, o).Passed? ==> ServerStage(w, req, o).w.configPath == w.configPath
    ensures BoxStage(w, o).Passed? ==> BoxStage(w, o).w.configPath == w.configPath
    ensures w.now.box.Some? && (req.commandServer ==> w.now.server.Some?) && ServeStage(w, req, o).Passed? ==>
              ServeStage(w, req, o).w.configPath == w.configPath
  {
    hide Judge;
    JudgeFrame(OpenServer(MadeServer(CallOut(w, o, NewLogger).w), o), o, StartCommandServer);
    var n := CallOut(w, o, NewBox);
    JudgeFrame(n, o, CreateService);
    JudgeFrame(CallOut(n.w.(nextId := n.w.nextId + 1), o, StartBox), o, StartServiceFailed);
  }

  lemma LaunchPath(w: World, req: Request, o: Oracle)
    ensures var r := Launch(w, req, o); r.end.Returned? && !r.end.reply.isError ==> r.w.configPath == w.configPath
  {
    hide ServerStage, BoxStage, ServeStage, SetCoreStatus;
    StagePaths(w, req, o);
    EndedStages(w, req, o);
    if ServerStage(w, req, o).Passed? {
      var w1 := ServerStage(w, req, o).w;
      StagePaths(w1, req, o);
      EndedStages(w1, req, o);
      if BoxStage(w1, o).Passed? {
        var w2 := BoxStage(w1, o).w;
        StagePaths(w2, req, o);
        EndedStages(w2, req, o);
        StatusFrame(After(ServeStage(w2, req, o)), Started);
      }
    }
  }

  /** A stage that ends a start ends it with an error or in a panic. */
  lemma EndedStages(w: World, req: Request, o: Oracle)
    ensures ServerStage(w, req, o).Ended? ==> !Succeeds(ServerStage(w, req, o).r)
    ensures BoxStage(w, o).Ended? ==> !Succeeds(BoxStage(w, o).r)
    ensures Configure(w, req, o).Ended? ==> !Succeeds(Configure(w, req, o).r)
    ensures w.now.box.Some? && (req.commandServer ==> w.now.server.Some?) && ServeStage(w, req, o).Ended? ==>
              !Succeeds(ServeStage(w, req, o).r)
  {
    hide StopAndAlert, SetCoreStatus, OpenServer;
  }

  // ---------------------------------------------------------------- Stop

  /** Closing the box and then the server must work. */
  function ClosePlan(server: bool): seq<PlannedCall> {
    [Needed(CloseBox, UnexpectedError)] + ((if server then [Needed(CloseServer, UnexpectedError)] else []) + [])
  }

  /** Telling the tunnel and the command server only must not panic. */
  function StopPlan(server: bool): seq<PlannedCall> {
    [Tried(DeactivateTunnel)] + ((if server then [Tried(ClearService)] else []) + ClosePlan(server))
  }

  /** How the body of a stop ends, before its panics are recovered from. */
  ghost predicate StopsLike(w: World, plan: seq<PlannedCall>, r: Result, o: Oracle) {
    match FirstBad(plan, w.clock, o)
    case None =>
      && r.end == Returned(Reply(Stopped, Empty, false)) && r.w.now.box.None? && r.w.now.server.None?
      && r.w.events == w.events + [Info(Stopped, Empty)] && r.w.clock == w.clock + |plan|
    case Some(k) =>
      && r.w.events == w.events && r.w.now.core == w.now.core && r.w.now.server == w.now.server
      && r.w.clock == w.clock + k + 1
      && (r.w.now.box.Some? <==> !plan[k].call.CloseServer?)
      && r.end == if o(w.clock + k, plan[k].call).Panicked? then Panicking
                  else Returned(Reply(Stopping, UnexpectedError, true))
  }

  lemma FinishStopOutcome(w: World, o: Oracle)
    requires w.now.box.Some?
    ensures StopsLike(w, ClosePlan(w.now.server.Some?), FinishStop(w, o), o)
  {
    hide CloseCurrent, ShutServer, FirstBad, SetCoreStatus;
    var server := w.now.server.Some?;
    FirstBadNext(Needed(CloseBox, UnexpectedError),
                 (if server then [Needed(CloseServer, UnexpectedError)] else []) + [], w.clock, o);
    StepClocks(w, o, Stopped, Empty);
    CloseFrame(w, o);
    var w3 := DropBox(CloseCurrent(w, o).w);
    FirstBadIf(server, Needed(CloseServer, UnexpectedError), [], w3.clock, o);
    NothingBad(w3.clock + (if server then 1 else 0), o);
    StepClocks(w3, o, Stopped, Empty);
    StatusFrame(w3, Stopped);
    if server {
      var w4 := DropServer(ShutServer(w3, o).w);
      StatusFrame(w4, Stopped);
      StepClocks(w4, o, Stopped, Empty);
    }
  }

  /** One call before the rest, made under a condition: it works and the rest follows, or its panic ends the stop. */
  lemma StopsAfter(w: World, made: bool, call: Call, n: Next, rest: seq<PlannedCall>, r: Result, o: Oracle)
    requires n.w.events == w.events && n.w.now.core == w.now.core && n.w.now.server == w.now.server
    requires n.w.now.box.Some? && !call.CloseServer?
    requires if made then n.w.clock == w.clock + 1 && (n.verdict.Panicked? <==> o(w.clock, call).Panicked?)
             else n.w.clock == w.clock && !n.verdict.Panicked?
    requires if n.verdict.Panicked? then r == Result(n.w, Panicking) else StopsLike(n.w, rest, r, o)
    ensures StopsLike(w, (if made then [Tried(call)] else []) + rest, r, o)
  {
    FirstBadIf(made, Tried(call), rest, w.clock, o);
    hide FirstBad;
  }

  lemma StopBodyOutcome(w: World, o: Oracle)
    requires w.now.core.Started? && w.now.box.Some?
    ensures StopsLike(SetCoreStatus(w, Stopping), StopPlan(w.now.server.Some?), StopBody(w, o), o)
  {
    hide UnserveIfAny, FinishStop, SetCoreStatus, ClosePlan, StopsLike;
    var server := w.now.server.Some?;
    var w0 := SetCoreStatus(w, Stopping);
    StatusFrame(w, Stopping);
    StepClocks(w, o, Stopping, Empty);
    var n0 := CallOut(w0, o, DeactivateTunnel);
    StepClocks(n0.w, o, Stopped, Empty);
    UnserveFrame(n0.w, o);
    var n1 := UnserveIfAny(n0.w, o);
    var serving := (if server then [Tried(ClearService)] else []) + ClosePlan(server);
    FinishStopOutcome(n1.w, o);
    if !n0.verdict.Panicked? {
      StopsAfter(n0.w, server, ClearService, n1, ClosePlan(server), StopBody(w, o), o);
    }
    StopsAfter(w0, true, DeactivateTunnel, n0, serving, StopBody(w, o), o);
  }

  /** How a stop of a started core ends. */
  ghost predicate StopsAs(w: World, plan: seq<PlannedCall>, r: Result, o: Oracle) {
    match FirstBad(plan, w.clock, o)
    case None =>
      && r.end == Returned(Reply(Stopped, Empty, false)) && r.w.now.core.Stopped? && r.w.now.box.None?
      && r.w.events == w.events + [Info(Stopping, Empty), Info(Stopped, Empty)]
      && r.w.now.server.None? && r.w.clock == w.clock + |plan|
    case Some(k) =>
      if o(w.clock + k, plan[k].call).Panicked? then
        && r.w.events == w.events + [Info(Stopping, Empty), Info(Stopped, UnexpectedError)]
        && r.end == if AllWork(AlertPlan(w.now.server.Some?, !plan[k].call.CloseServer?), w.clock + k + 1, o)
                    then Recovered else Panicking
      else
        && r.end == Returned(Reply(Stopping, UnexpectedError, true)) && r.w.now.core.Stopping?
        && r.w.events == w.events + [Info(Stopping, Empty)]
  }

  /** A core that is not started is not touched. A started one is stopped exactly when every call of the plan works; a
      closing that fails leaves it stopping, with an error; and a panic turns the stop into the alert. */
  lemma StopOutcome(w: World, o: Oracle)
    ensures !w.now.core.Started? ==> Stop(w, o) == Result(w, Returned(Reply(w.now.core, InstanceNotStarted, true)))
    ensures w.now.core.Started? && w.now.box.None? ==>
              Stop(w, o) == Result(w, Returned(Reply(w.now.core, InstanceNotFound, true)))
    ensures w.now.core.Started? && w.now.box.Some? ==> StopsAs(w, StopPlan(w.now.server.Some?), Stop(w, o), o)
  {
    hide StopsAs;
    if w.now.core.Started? && w.now.box.Some? {
      hide StopBody, StopPlan, StopsLike, SetCoreStatus;
      StopBodyOutcome(w, o);
      StopEndsStopped(w, o);
      StatusFrame(w, Stopping);
      StepClocks(w, o, Stopping, Empty);
      GuardedStop(w, SetCoreStatus(w, Stopping), StopPlan(w.now.server.Some?), StopBody(w, o), o);
    }
  }

  lemma GuardedStop(w: World, w0: World, plan: seq<PlannedCall>, r: Result, o: Oracle)
    requires StopsLike(w0, plan, r, o) && w0.now == w.now.(core := Stopping) && w0.clock == w.clock
    requires w0.events == w.events + [Info(Stopping, Empty)]
    requires r.end.Returned? && !r.end.reply.isError ==> r.w.now.core.Stopped?
    ensures StopsAs(w, plan, Guarded(r, o), o)
  {
    hide FirstBad, StopAndAlert, AllWork, AlertPlan;
    AlertOutcome(r.w, o);
    AlertFrame(r.w, o);
  }

  lemma StopEndsStopped(w: World, o: Oracle)
    ensures StopBody(w, o).end.Returned? && !StopBody(w, o).end.reply.isError ==> StopBody(w, o).w.now.core.Stopped?
  {
    hide UnserveIfAny, CloseCurrent, ShutServer;
  }

  // ---------------------------------------------------------------- Start, Restart, reload, and the guarded calls

  /** The calls of a start from an entry point that announces it. */
  function BeginPlan(req: Request, server: bool): seq<PlannedCall> {
    [Tried(MemoryLimit, server)] + StartPlan(req, server)
  }

  /** How an announced start ends whose panics are recovered from. */
  ghost predicate BeginsAs(from: World, req: Request, r: Result, o: Oracle) {
    var (plan, server) := (BeginPlan(req, from.now.server.Some?), from.now.server.Some?);
    var events := from.events + [Info(Starting, Empty)];
    match FirstBad(plan, from.clock, o)
    case None => r.end == Returned(Reply(Started, Empty, false)) && r.w.events == events + [Info(Started, Empty)]
    case Some(k) =>
      if o(from.clock + k, plan[k].call).Failed?
         && AllWork(AlertPlan(plan[k].server, from.now.box.Some?), from.clock + k + 1, o)
      then
        && r.end == Returned(Reply(Stopped, plan[k].message, true))
        && r.w.events == events + [Info(Stopped, plan[k].message), Info(Stopped, UnexpectedError)]
      else !r.end.Returned? && events < r.w.events && r.w.events[|r.w.events| - 1] == Info(Stopped, UnexpectedError)
  }

  lemma BeginOutcome(w: World, req: Request, o: Oracle)
    requires req.rawConfig || w.optionsSet
    ensures BeginsAs(w, req, Guarded(Begin(w, req, o), o), o)
  {
    hide FirstBad, SetCoreStatus, StartService, StartPlan, AllWork, AlertPlan, StopAndAlert;
    var w0 := SetCoreStatus(w, Starting);
    StatusFrame(w, Starting);
    StepClocks(w, o, Starting, Empty);
    var n := CallOut(w0, o, MemoryLimit);
    FirstBadNext(Tried(MemoryLimit, w.now.server.Some?), StartPlan(req, w.now.server.Some?), w.clock, o);
    StartOutcome(n.w, req, o);
    var r := Begin(w, req, o);
    AlertFrame(r.w, o);
  }

  /** What recovering from a panic leaves. */
  ghost predicate RecoversAs(panicked: Result, r: Result, o: Oracle) {
    && r.w.events == panicked.w.events + [Info(Stopped, UnexpectedError)]
    && r.end == if AllWork(AlertPlanOf(panicked.w), panicked.w.clock, o) then Recovered else Panicking
  }

  lemma RecoverOutcome(r: Result, o: Oracle)
    requires r.end.Panicking?
    ensures RecoversAs(r, Guarded(r, o), o)
  {
    hide StopAndAlert, AllWork, AlertPlanOf;
    AlertOutcome(r.w, o);
    AlertFrame(r.w, o);
  }

  /** A stopped core is started at once; any other is stopped first, and started whatever came of that, unless the stop
      let a panic through: then the alert comes once more. */
  lemma OpStartOutcome(w: World, req: Request, o: Oracle)
    requires req.rawConfig || w.optionsSet
    ensures w.now.core.Stopped? ==> BeginsAs(w, req, Start(w, req, o), o)
    ensures !w.now.core.Stopped? && !Stop(w, o).end.Panicking? ==> BeginsAs(Stop(w, o).w, req, Start(w, req, o), o)
    ensures !w.now.core.Stopped? && Stop(w, o).end.Panicking? ==> RecoversAs(Stop(w, o), Start(w, req, o), o)
  {
    hide BeginsAs, RecoversAs, Begin, Stop, Guarded;
    StopKeepsOptions(w, o);
    BeginOutcome(w, req, o);
    BeginOutcome(Stop(w, o).w, req, o);
    if Stop(w, o).end.Panicking? {
      RecoverOutcome(Stop(w, o), o);
    }
  }

  /** A core that is not started is not touched; one whose stop reports an error stays as the stop left it; and a stop
      that worked, or recovered from a panic, is followed by a start. */
  lemma RestartOutcome(w: World, req: Request, o: Oracle)
    requires req.rawConfig || w.optionsSet
    ensures !w.now.core.Started? ==>
              Restart(w, req, o) == Result(w, Returned(Reply(w.now.core, InstanceNotStarted, true)))
    ensures w.now.core.Started? && w.now.box.None? ==>
              Restart(w, req, o) == Result(w, Returned(Reply(w.now.core, InstanceNotFound, true)))
    ensures w.now.core.Started? && w.now.box.Some? ==>
              var stopped := Stop(w, o);
              match stopped.end
              case Panicking => RecoversAs(stopped, Restart(w, req, o), o)
              case Recovered => BeginsAs(stopped.w, req, Restart(w, req, o), o)
              case Returned(reply) =>
                if reply.isError then Restart(w, req, o) == stopped else BeginsAs(stopped.w, req, Restart(w, req, o), o)
  {
    hide BeginsAs, RecoversAs, Begin, Stop, Guarded;
    StopKeepsOptions(w, o);
    BeginOutcome(Stop(w, o).w, req, o);
    if Stop(w, o).end.Panicking? {
      RecoverOutcome(Stop(w, o), o);
    }
    ReturnedIsKept(RestartBody(w, req, o), o);
  }

  lemma ReturnedIsKept(r: Result, o: Oracle)
    ensures !r.end.Panicking? ==> Guarded(r, o) == r
  {
  }

  /** A reload unserves and closes, which only must not panic, and then starts from the empty path. */
  function ReloadPlan(server: bool, box: bool): seq<PlannedCall> {
    (if server then [Tried(ClearService)] else [])
    + ((if box then [Tried(CloseBox)] else []) + StartPlan(Request("", "", false, true), false))
  }

  lemma ReloadOutcome(w: World, o: Oracle)
    requires w.optionsSet
    ensures var (r, plan) := (ServiceReload(w, o), ReloadPlan(w.now.server.Some?, w.now.box.Some?));
            var events := w.events + [Info(Starting, Empty)];
            match FirstBad(plan, w.clock, o)
            case None =>
              r.end == Returned(Reply(Started, Empty, false)) && r.w.events == events + [Info(Started, Empty)]
            case Some(k) => EndsAt(events, false, plan[k], w.clock + k, r, o)
  {
    hide FirstBad, ClearForReload, StartService, StartPlan, EndsAt, Works, ReloadPlan;
    var start := StartPlan(Request("", "", false, true), false);
    ReloadPlanBad(w, o);
    ClearOutcome(w, o);
    var n := ClearForReload(w, o);
    if !n.verdict.Panicked? {
      StartOutcome(n.w, RELOAD, o);
    } else {
      PanicEndsAt(w, o);
    }
  }

  /** The calls before the start, and where those of the start stand in the plan. */
  lemma ReloadPlanBad(w: World, o: Oracle)
    ensures var server := w.now.server.Some?;
            var box := w.now.box.Some?;
            var (plan, start) := (ReloadPlan(server, box), StartPlan(Request("", "", false, true), false));
            var clock := w.clock + (if server then 1 else 0);
            var calls := (if server then 1 else 0) + (if box then 1 else 0);
            && (forall k: nat | k < |start| :: k + calls < |plan| && plan[k + calls] == start[k])
            && (if (server && o(w.clock, ClearService).Panicked?) || (box && o(clock, CloseBox).Panicked?) then
                  var bad := FirstBad(plan, w.clock, o);
                  bad.Some? && o(w.clock + bad.value, plan[bad.value].call).Panicked?
                else FirstBad(plan, w.clock, o) == Shifted(FirstBad(start, w.clock + calls, o), calls))
  {
    hide FirstBad, StartPlan, ReloadPlan;
    ReloadPlanIndex(w.now.server.Some?, w.now.box.Some?, StartPlan(Request("", "", false, true), false));
    ClearPlanBad(w, StartPlan(Request("", "", false, true), false), o);
    ReloadPlanIs(w.now.server.Some?, w.now.box.Some?);
  }

  /** The calls of a reload before another plan. */
  function BeforeStart(server: bool, box: bool, start: seq<PlannedCall>): seq<PlannedCall> {
    (if server then [Tried(ClearService)] else []) + ((if box then [Tried(CloseBox)] else []) + start)
  }

  lemma ReloadPlanIs(server: bool, box: bool)
    ensures ReloadPlan(server, box) == BeforeStart(server, box, StartPlan(Request("", "", false, true), false))
  {
    hide StartPlan;
  }

  lemma ReloadPlanIndex(server: bool, box: bool, start: seq<PlannedCall>)
    ensures var calls := (if server then 1 else 0) + (if box then 1 else 0);
            var plan := BeforeStart(server, box, start);
            forall k: nat | k < |start| :: k + calls < |plan| && plan[k + calls] == start[k]
  {
  }

  lemma ClearPlanBad(w: World, start: seq<PlannedCall>, o: Oracle)
    ensures var server := w.now.server.Some?;
            var box := w.now.box.Some?;
            var plan := BeforeStart(server, box, start);
            var clock := w.clock + (if server then 1 else 0);
            var calls := (if server then 1 else 0) + (if box then 1 else 0);
            if (server && o(w.clock, ClearService).Panicked?) || (box && o(clock, CloseBox).Panicked?) then
              var bad := FirstBad(plan, w.clock, o);
              bad.Some? && o(w.clock + bad.value, plan[bad.value].call).Panicked?
            else FirstBad(plan, w.clock, o) == Shifted(FirstBad(start, w.clock + calls, o), calls)
  {
    hide FirstBad;
    var server := w.now.server.Some?;
    var box := w.now.box.Some?;
    FirstBadIf(server, Tried(ClearService), (if box then [Tried(CloseBox)] else []) + start, w.clock, o);
    FirstBadIf(box, Tried(CloseBox), start, w.clock + (if server then 1 else 0), o);
  }

  lemma ClearOutcome(w: World, o: Oracle)
    ensures var n := ClearForReload(w, o);
            var (server, box) := (w.now.server.Some?, w.now.box.Some?);
            var clock := w.clock + (if server then 1 else 0);
            && n.w.events == w.events + [Info(Starting, Empty)] && n.w.optionsSet == w.optionsSet
            && (n.verdict.Panicked? <==> (server && o(w.clock, ClearService).Panicked?)
                                         || (box && o(clock, CloseBox).Panicked?))
            && (!n.verdict.Panicked? ==> n.w.clock == clock + (if box then 1 else 0) && n.w.now.server.None?
                                         && n.w.now.box.None?)
  {
    hide SetCoreStatus, UnserveIfAny, CloseCurrent;
    var w0 := SetCoreStatus(w, Starting);
    StatusFrame(w, Starting);
    StepClocks(w, o, Starting, Empty);
    StepClocks(w0, o, Starting, Empty);
    UnserveFrame(w0, o);
    var n1 := UnserveIfAny(w0, o);
    var w1 := if n1.w.now.server.Some? then DropServer(n1.w) else n1.w;
    StepClocks(w1, o, Starting, Empty);
    if w1.now.box.Some? {
      CloseFrame(w1, o);
    }
  }

  lemma PanicEndsAt(w: World, o: Oracle)
    requires ClearForReload(w, o).verdict.Panicked?
    ensures var events := w.events + [Info(Starting, Empty)];
            var r := ServiceReload(w, o);
            forall step: PlannedCall, clock | o(clock, step.call).Panicked? :: EndsAt(events, false, step, clock, r, o)
  {
    ClearOutcome(w, o);
    hide ClearForReload, StartService, AllWork, AlertPlan;
  }

  /** Parsing and generating leave the core alone, but for a panic. */
  lemma GuardedCallOutcome(w: World, o: Oracle, call: Call)
    ensures var (r, after) := (GuardedCall(w, o, call), w.(clock := w.clock + 1));
            match o(w.clock, call)
            case Fine => r == Result(after, Returned(Reply(w.now.core, Empty, false)))
            case Failed => r == Result(after, Returned(Reply(w.now.core, Empty, true)))
            case Panicked => RecoversAs(Result(after, Panicking), r, o)
  {
    hide StopAndAlert, RecoversAs;
    RecoverOutcome(Result(w.(clock := w.clock + 1), Panicking), o);
  }

  // ---------------------------------------------------------------- the options

  lemma StopKeepsOptions(w: World, o: Oracle)
    ensures Stop(w, o).w.optionsSet == w.optionsSet
  {
    hide SetCoreStatus, UnserveIfAny, CloseCurrent, ShutServer, StopAndAlert;
    StepClocks(w, o, Stopping, Empty);
    StatusFrame(w, Stopping);
    var n0 := CallOut(SetCoreStatus(w, Stopping), o, DeactivateTunnel);
    StepClocks(n0.w, o, Stopped, Empty);
    UnserveFrame(n0.w, o);
    var n1 := UnserveIfAny(n0.w, o);
    if w.now.box.Some? {
      StepClocks(n1.w, o, Stopped, Empty);
      CloseFrame(n1.w, o);
      var w3 := DropBox(CloseCurrent(n1.w, o).w);
      StepClocks(w3, o, Stopped, Empty);
      if w3.now.server.Some? {
        StepClocks(DropServer(ShutServer(w3, o).w), o, Stopped, Empty);
      }
    }
    AlertFrame(StopBody(w, o).w, o);
  }

  lemma StartKeepsOptions(w: World, req: Request, o: Oracle)
    ensures StartService(w, req, o).w.optionsSet == w.optionsSet
    ensures Begin(w, req, o).w.optionsSet == w.optionsSet
  {
    hide StartService, SetCoreStatus, FirstBad, EndsAt;
    forall u: World ensures StartService(u, req, o).w.optionsSet == u.optionsSet {
      if req.rawConfig || u.optionsSet {
        StartOutcome(u, req, o);
      } else {
        StartWithoutOptions(u, req, o);
      }
    }
    StepClocks(w, o, Starting, Empty);
  }

  /** Options are set by generating a configuration and by changing the options, and by nothing else. */
  lemma PerformOptions(w: World, op: Operation, o: Oracle)
    ensures Perform(w, op, o).w.optionsSet == (w.optionsSet || op.OpGenerate? || op.OpChangeOptions?)
  {
    hide StartService, Begin, Stop, StopAndAlert, ClearForReload;
    StopKeepsOptions(w, o);
    ClearOutcome(w, o);
    forall u, req ensures StartService(u, req, o).w.optionsSet == u.optionsSet
                          && Begin(u, req, o).w.optionsSet == u.optionsSet
    {
      StartKeepsOptions(u, req, o);
    }
    forall u ensures StopAndAlert(u, o).w.optionsSet == u.optionsSet {
      AlertFrame(u, o);
    }
  }

  /** The k-th operation of the run is made, and sets options. */
  ghost predicate SetsOptions(ops: seq<Operation>, k: nat, o: Oracle)
    requires k < |ops|
  {
    !Run(ops[..k], o).end.Panicking? && (ops[k].OpGenerate? || ops[k].OpChangeOptions?)
  }

  /** So a build panics for want of options exactly until an operation of the run has set them. */
  lemma {:induction false} OptionsSetIff(ops: seq<Operation>, o: Oracle)
    ensures Run(ops, o).w.optionsSet <==> exists k: nat :: k < |ops| && SetsOptions(ops, k, o)
  {
    hide Run, SetsOptions;
    if ops == [] {
      NoOptionsAtFirst(o);
    } else {
      var n := |ops| - 1;
      OptionsSetIff(ops[..n], o);
      OptionsAfter(ops, o);
      forall k: nat | k < n ensures SetsOptions(ops[..n], k, o) == SetsOptions(ops, k, o) {
        EarlierSetsOptions(ops, k, o);
      }
    }
  }

  lemma NoOptionsAtFirst(o: Oracle)
    ensures !Run([], o).w.optionsSet
  {
  }

  lemma EarlierSetsOptions(ops: seq<Operation>, k: nat, o: Oracle)
    requires k < |ops| - 1
    ensures SetsOptions(ops[..|ops| - 1], k, o) == SetsOptions(ops, k, o)
  {
    hide Run;
    assert ops[..|ops| - 1][..k] == ops[..k];
  }

  lemma OptionsAfter(ops: seq<Operation>, o: Oracle)
    requires ops != []
    ensures Run(ops, o).w.optionsSet
       <==> Run(ops[..|ops| - 1], o).w.optionsSet || SetsOptions(ops, |ops| - 1, o)
  {
    hide Perform;
    PerformOptions(Run(ops[..|ops| - 1], o).w, ops[|ops| - 1], o);
  }
}
