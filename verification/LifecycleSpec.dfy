/** The life cycle of the core (v2/custom.go, v2/coreinfo.go, v2/old_command_server.go) as functions over the package's
    variables. Every call into a library is answered by an oracle, so one proof covers every pattern of errors and
    panics. */
module LifecycleSpec {
  import opened Wrappers

  datatype CoreState = Stopped | Starting | Started | Stopping

  datatype Message = Empty | ErrorReadingConfig | ErrorParsingConfig | ErrorBuildingConfig | StartCommandServer
                   | CreateService | StartServiceFailed | UnexpectedError | InstanceNotStarted | InstanceNotFound

  datatype Call = ReadConfig(path: string) | ParseOptions | BuildOptions | SaveConfig | NewLogger | StartServer
                | NewBox | StartBox | SetService | ClearService | CloseBox | CloseServer | DeactivateTunnel
                | MemoryLimit | ParseContent | GenerateContent

  datatype Verdict = Fine | Failed | Panicked

  /** How the n-th library call of the process ends. */
  type Oracle = (nat, Call) -> Verdict

  datatype Request = Request(content: string, path: string, rawConfig: bool, commandServer: bool)

  /** The package's variables and the objects behind them at one moment: the state, the current box and command server,
      the box each server serves, the boxes that were started and not yet closed, and those whose closing was begun. */
  datatype Moment = Moment(core: CoreState, box: Option<nat>, server: Option<nat>, serving: map<nat, nat>,
                           live: set<nat>, closing: set<nat>)

  /** What an announcement of the state carries, and what an operation replies with; the text is left out. */
  datatype Info = Info(state: CoreState, message: Message)

  /** The command servers that listen, those that were closed, and how often one was closed that had been closed. */
  datatype Servers = Servers(open: set<nat>, shut: set<nat>, again: nat)

  /** A moment with its history: all moments up to now, the announcements to the observers (from the initial state
      on), how many boxes were started and closed, the command servers, and the other package variables. */
  datatype World = World(now: Moment, past: seq<Moment>, events: seq<Info>, started: nat, closed: nat, servers: Servers,
                         clock: nat, nextId: nat, configPath: string, optionsSet: bool)

  const START: World :=
    var m := Moment(Stopped, None, None, map[], {}, {});
    World(m, [m], [Info(Stopped, Empty)], 0, 0, Servers({}, {}, 0), 0, 0, "", false)

  datatype Reply = Reply(state: CoreState, message: Message, isError: bool)

  /** A call returns, or it recovers from a panic and returns nothing, or the panic goes on to the caller. */
  datatype Ending = Returned(reply: Reply) | Recovered | Panicking

  datatype Result = Result(w: World, end: Ending)

  datatype Next = Next(w: World, verdict: Verdict)

  // ---------------------------------------------------------------- single steps

  function Moved(w: World, m: Moment): World {
    w.(now := m, past := w.past + [m])
  }

  function CallOut(w: World, o: Oracle, call: Call): Next {
    Next(w.(clock := w.clock + 1), o(w.clock, call))
  }

  function SetCoreStatus(w: World, state: CoreState, message: Message := Empty): World {
    Moved(w.(events := w.events + [Info(state, message)]), w.now.(core := state))
  }

  /** oldCommandServer.SetService(nil). */
  function Unserve(w: World, o: Oracle): Next
    requires w.now.server.Some?
  {
    var n := CallOut(w, o, ClearService);
    if n.verdict.Panicked? then n
    else Next(Moved(n.w, n.w.now.(serving := n.w.now.serving - {w.now.server.value})), Fine)
  }

  function UnserveIfAny(w: World, o: Oracle): Next {
    if w.now.server.Some? then Unserve(w, o) else Next(w, Fine)
  }

  /** Box.Close(); the variable still holds the box. */
  function CloseCurrent(w: World, o: Oracle): Next
    requires w.now.box.Some?
  {
    var box := w.now.box.value;
    var n := CallOut(w, o, CloseBox);
    var begun := n.w.now.(closing := n.w.now.closing + {box});
    if n.verdict.Fine? then Next(Moved(n.w.(closed := w.closed + 1), begun.(live := begun.live - {box})), Fine)
    else Next(Moved(n.w, begun), n.verdict)
  }

  /** oldCommandServer.Close(); the variable still holds the server. */
  function ShutServer(w: World, o: Oracle): Next
    requires w.now.server.Some?
  {
    var (server, n) := (w.now.server.value, CallOut(w, o, CloseServer));
    var called := w.servers.(again := w.servers.again + (if server in w.servers.shut then 1 else 0));
    Next(n.w.(servers := if n.verdict.Fine? then called.(open := called.open - {server}, shut := called.shut + {server})
         else called), n.verdict)
  }

  /** oldCommandServer.Start(). */
  function OpenServer(w: World, o: Oracle): Next
    requires w.now.server.Some?
  {
    var n := CallOut(w, o, StartServer);
    if !n.verdict.Fine? then n
    else Next(n.w.(servers := w.servers.(open := w.servers.open + {w.now.server.value})), Fine)
  }

  function DropBox(w: World): World {
    Moved(w, w.now.(box := None))
  }

  function DropServer(w: World): World {
    Moved(w, w.now.(server := None))
  }

  // ---------------------------------------------------------------- StopAndAlert and Stop

  /** Every caller passes the same message. The errors of closing are ignored, and the command server variable keeps the
      closed server. */
  function StopAndAlert(w: World, o: Oracle): Next {
    var n0 := CallOut(SetCoreStatus(w, Stopped, UnexpectedError), o, DeactivateTunnel);
    if n0.verdict.Panicked? then n0
    else
      var n1 := UnserveIfAny(n0.w, o);
      if n1.verdict.Panicked? then n1 else FinishAlert(n1.w, o)
  }

  /** The rest of the alert, once nothing is served: closing the box and the command server. */
  function FinishAlert(w: World, o: Oracle): Next {
    var n2 := if w.now.box.Some? then CloseCurrent(w, o) else Next(w, Fine);
    if n2.verdict.Panicked? then n2
    else
      var w3 := if n2.w.now.box.Some? then DropBox(n2.w) else n2.w;
      if w3.now.server.None? then Next(w3, Fine)
      else
        var n4 := ShutServer(w3, o);
        Next(n4.w, if n4.verdict.Panicked? then Panicked else Fine)
  }

  /** DeferPanicToError: a panic that arrives is turned into StopAndAlert; one out of StopAndAlert itself goes on. */
  function Guarded(r: Result, o: Oracle): Result {
    if !r.end.Panicking? then r
    else
      var n := StopAndAlert(r.w, o);
      Result(n.w, if n.verdict.Panicked? then Panicking else Recovered)
  }

  function StopBody(w: World, o: Oracle): Result {
    if !w.now.core.Started? then Result(w, Returned(Reply(w.now.core, InstanceNotStarted, true)))
    else if w.now.box.None? then Result(w, Returned(Reply(w.now.core, InstanceNotFound, true)))
    else
      var n0 := CallOut(SetCoreStatus(w, Stopping), o, DeactivateTunnel);
      if n0.verdict.Panicked? then Result(n0.w, Panicking)
      else
        var n1 := UnserveIfAny(n0.w, o);
        if n1.verdict.Panicked? then Result(n1.w, Panicking) else FinishStop(n1.w, o)
  }

  /** The rest of StopBody, once the box is no longer served: closing the box and then the command server. */
  function FinishStop(w: World, o: Oracle): Result
    requires w.now.box.Some?
  {
    var n2 := CloseCurrent(w, o);
    if n2.verdict.Panicked? then Result(n2.w, Panicking)
    else if n2.verdict.Failed? then Result(n2.w, Returned(Reply(Stopping, UnexpectedError, true)))
    else
      var w3 := DropBox(n2.w);
      if w3.now.server.None? then Result(SetCoreStatus(w3, Stopped), Returned(Reply(Stopped, Empty, false)))
      else
        var n4 := ShutServer(w3, o);
        if n4.verdict.Panicked? then Result(n4.w, Panicking)
        else if n4.verdict.Failed? then Result(n4.w, Returned(Reply(Stopping, UnexpectedError, true)))
        else Result(SetCoreStatus(DropServer(n4.w), Stopped), Returned(Reply(Stopped, Empty, false)))
  }

  function Stop(w: World, o: Oracle): Result {
    Guarded(StopBody(w, o), o)
  }

  // ---------------------------------------------------------------- StartService

  /** A stage lets the start go on, or ends it. */
  datatype Stage = Passed(w: World) | Ended(r: Result)

  /** An error of a stage: the stop is announced with the stage's message, and once more by StopAndAlert. */
  function Halt(w: World, o: Oracle, message: Message): Result {
    var n := StopAndAlert(SetCoreStatus(w, Stopped, message), o);
    Result(n.w, if n.verdict.Panicked? then Panicking else Returned(Reply(Stopped, message, true)))
  }

  function Judge(n: Next, o: Oracle, message: Message): Stage {
    match n.verdict
    case Fine => Passed(n.w)
    case Failed => Ended(Halt(n.w, o, message))
    case Panicked => Ended(Result(n.w, Panicking))
  }

  const CURRENT_CONFIG := "current-config.json"

  function ReadStage(w: World, req: Request, o: Oracle): Stage {
    if req.content != "" then Passed(w)
    else Judge(CallOut(w.(configPath := req.path), o, ReadConfig(req.path)), o, ErrorReadingConfig)
  }

  /** Building dereferences the options; when none were ever set this panics. */
  function BuildStage(w: World, req: Request, o: Oracle): Stage {
    if req.rawConfig then Passed(w)
    else if !w.optionsSet then Ended(Result(w, Panicking))
    else Judge(CallOut(w, o, BuildOptions), o, ErrorBuildingConfig)
  }

  /** Saving the configuration may fail without consequence. */
  function SaveStage(w: World, o: Oracle): Stage {
    var n := CallOut(w, o, SaveConfig);
    if n.verdict.Panicked? then Ended(Result(n.w, Panicking))
    else Passed(n.w.(configPath := if n.w.configPath == "" then CURRENT_CONFIG else n.w.configPath))
  }

  /** startCommandServer: the variable is overwritten before the new server starts. */
  function ServerStage(w: World, req: Request, o: Oracle): (s: Stage)
    ensures s.Passed? && req.commandServer ==> s.w.now.server.Some?
  {
    if !req.commandServer then Passed(w)
    else
      var n := CallOut(w, o, NewLogger);
      if n.verdict.Panicked? then Ended(Result(n.w, Panicking))
      else
        Judge(OpenServer(MadeServer(n.w), o), o, StartCommandServer)
  }

  /** The variable holds a new command server that is not started yet. */
  function MadeServer(w: World): World {
    Moved(w.(nextId := w.nextId + 1), w.now.(server := Some(w.nextId)))
  }

  /** NewService and instance.Start(); a box that starts is live before the variable holds it. */
  function BoxStage(w: World, o: Oracle): (s: Stage)
    ensures s.Passed? ==> s.w.now.box.Some? && s.w.now.server == w.now.server
  {
    match Judge(CallOut(w, o, NewBox), o, CreateService)
    case Ended(r) => Ended(r)
    case Passed(w1) =>
      var box := w1.nextId;
      match Judge(CallOut(w1.(nextId := box + 1), o, StartBox), o, StartServiceFailed)
      case Ended(r) => Ended(r)
      case Passed(w2) =>
        var running := Moved(w2.(started := w2.started + 1), w2.now.(live := w2.now.live + {box}));
        Passed(Moved(running, running.now.(box := Some(box))))
  }

  function ServeStage(w: World, req: Request, o: Oracle): Stage
    requires w.now.box.Some? && (req.commandServer ==> w.now.server.Some?)
  {
    if !req.commandServer then Passed(w)
    else
      var n := CallOut(w, o, SetService);
      if n.verdict.Panicked? then Ended(Result(n.w, Panicking))
      else Passed(Moved(n.w, n.w.now.(serving := n.w.now.serving[w.now.server.value := w.now.box.value])))
  }

  /** Reading, parsing, building and saving the configuration. */
  function Configure(w: World, req: Request, o: Oracle): Stage {
    match ReadStage(w, req, o)
    case Ended(r) => Ended(r)
    case Passed(w1) =>
      match Judge(CallOut(w1, o, ParseOptions), o, ErrorParsingConfig)
      case Ended(r) => Ended(r)
      case Passed(w2) =>
        match BuildStage(w2, req, o)
        case Ended(r) => Ended(r)
        case Passed(w3) => SaveStage(w3, o)
  }

  /** Starting the command server, the box, and serving it. */
  function Launch(w: World, req: Request, o: Oracle): Result {
    match ServerStage(w, req, o)
    case Ended(r) => r
    case Passed(w1) =>
      match BoxStage(w1, o)
      case Ended(r) => r
      case Passed(w2) =>
        match ServeStage(w2, req, o)
        case Ended(r) => r
        case Passed(w3) => Result(SetCoreStatus(w3, Started), Returned(Reply(Started, Empty, false)))
  }

  function StartService(w: World, req: Request, o: Oracle): Result {
    match Configure(w, req, o)
    case Ended(r) => r
    case Passed(w1) => Launch(w1, req, o)
  }

  // ---------------------------------------------------------------- the other entry points

  /** Announce the start, set the memory limit, start. */
  function Begin(w: World, req: Request, o: Oracle): Result {
    var n := CallOut(SetCoreStatus(w, Starting), o, MemoryLimit);
    if n.verdict.Panicked? then Result(n.w, Panicking) else StartService(n.w, req, o)
  }

  /** A core that is not stopped is stopped first; whether that worked is not looked at. */
  function StartBody(w: World, req: Request, o: Oracle): Result {
    if w.now.core.Stopped? then Begin(w, req, o)
    else
      var stopped := Stop(w, o);
      if stopped.end.Panicking? then stopped else Begin(stopped.w, req, o)
  }

  function Start(w: World, req: Request, o: Oracle): Result {
    Guarded(StartBody(w, req, o), o)
  }

  /** A stop that recovered from a panic returns no error, and the restart goes on. */
  function RestartBody(w: World, req: Request, o: Oracle): Result {
    if !w.now.core.Started? then Result(w, Returned(Reply(w.now.core, InstanceNotStarted, true)))
    else if w.now.box.None? then Result(w, Returned(Reply(w.now.core, InstanceNotFound, true)))
    else
      var stopped := Stop(w, o);
      if stopped.end.Panicking? || (stopped.end.Returned? && stopped.end.reply.isError) then stopped
      else Begin(stopped.w, req, o)
  }

  function Restart(w: World, req: Request, o: Oracle): Result {
    Guarded(RestartBody(w, req, o), o)
  }

  const RELOAD := Request("", "", false, true)

  /** What the handler of the command server does before it starts again: it lets go of the server without closing it,
      and closes the box without looking at errors. */
  function ClearForReload(w: World, o: Oracle): Next {
    var n1 := UnserveIfAny(SetCoreStatus(w, Starting), o);
    if n1.verdict.Panicked? then n1
    else
      var w1 := if n1.w.now.server.Some? then DropServer(n1.w) else n1.w;
      var n2 := if w1.now.box.Some? then CloseCurrent(w1, o) else Next(w1, Fine);
      if n2.verdict.Panicked? then n2 else Next(if n2.w.now.box.Some? then DropBox(n2.w) else n2.w, Fine)
  }

  /** The handler of the command server; nothing recovers from a panic here. */
  function ServiceReload(w: World, o: Oracle): Result {
    var n := ClearForReload(w, o);
    if n.verdict.Panicked? then Result(n.w, Panicking) else StartService(n.w, RELOAD, o)
  }

  /** Parse and GenerateConfig touch the core only when they panic. */
  function GuardedCall(w: World, o: Oracle, call: Call): Result {
    var n := CallOut(w, o, call);
    Guarded(Result(n.w, if n.verdict.Panicked? then Panicking
                   else Returned(Reply(n.w.now.core, Empty, n.verdict.Failed?))), o)
  }

  datatype Operation =
    | OpStart(req: Request) | OpStop | OpRestart(req: Request) | OpReload | OpParse | OpGenerate | OpChangeOptions
    | OpStartService(req: Request)

  function Perform(w: World, op: Operation, o: Oracle): Result {
    match op
    case OpStart(req) => Start(w, req, o)
    case OpStop => Stop(w, o)
    case OpRestart(req) => Restart(w, req, o)
    case OpReload => ServiceReload(w, o)
    case OpParse => GuardedCall(w, o, ParseContent)
    case OpGenerate => GuardedCall(w.(optionsSet := true), o, GenerateContent)
    case OpChangeOptions => Result(w.(optionsSet := true), Returned(Reply(w.now.core, Empty, false)))
    case OpStartService(req) => StartService(w, req, o)
  }

  /** The request an operation starts with, if it starts. */
  function RequestOf(op: Operation): Request {
    match op
    case OpStart(req) => req
    case OpRestart(req) => req
    case OpStartService(req) => req
    case _ => RELOAD
  }

  function EntryOfBegin(w: World, o: Oracle): Option<World> {
    var n := CallOut(SetCoreStatus(w, Starting), o, MemoryLimit);
    if n.verdict.Panicked? then None else Some(n.w)
  }

  /** The world in which an operation enters StartService, if it does. */
  function Entry(w: World, op: Operation, o: Oracle): Option<World> {
    match op
    case OpStart(_) =>
      if w.now.core.Stopped? then EntryOfBegin(w, o)
      else
        var stopped := Stop(w, o);
        if stopped.end.Panicking? then None else EntryOfBegin(stopped.w, o)
    case OpRestart(_) =>
      if !w.now.core.Started? || w.now.box.None? then None
      else
        var stopped := Stop(w, o);
        if stopped.end.Panicking? || (stopped.end.Returned? && stopped.end.reply.isError) then None
        else EntryOfBegin(stopped.w, o)
    case OpReload =>
      var n := ClearForReload(w, o);
      if n.verdict.Panicked? then None else Some(n.w)
    case OpStartService(_) => Some(w)
    case _ => None
  }

  /** A sequential run from the start of the process; a panic nobody recovers from ends it. */
  function Run(ops: seq<Operation>, o: Oracle): Result {
    if ops == [] then Result(START, Recovered)
    else
      var before := Run(ops[..|ops| - 1], o);
      if before.end.Panicking? then before else Perform(before.w, ops[|ops| - 1], o)
  }
}
