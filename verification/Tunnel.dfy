/** config/admin_service_commander.go: starting the tunnel service with a failover, and stopping it. */
module Tunnel {
  import opened Wrappers

  /** The calls that leave the process, in the order they are made. */
  datatype Call = CheckPort | StopRpc | StartRpc | ExitRpc | InstallCommand | RunCommand

  /** Whether the n-th call succeeds; for CheckPort, whether the service's port is in use. */
  type Answers = nat -> bool

  /** What a request returns and the calls made up to then. */
  datatype Result = Result(ok: bool, calls: seq<Call>)

  /** startTunnelRequest. The reply of the first Stop is ignored. */
  function StartTunnelRequest(install: bool, answers: Answers, calls: seq<Call>): (r: Result)
    ensures calls <= r.calls
    decreases install, 1
  {
    var checked := calls + [CheckPort];
    if !answers(|calls|) then
      if install then RunTunnelService(answers, checked) else Result(false, checked)
    else
      var stopped := checked + [StopRpc];
      var started := stopped + [StartRpc];
      if answers(|stopped|) then Result(true, started)
      else if install then RunTunnelService(answers, started + [ExitRpc])
      else Result(false, started)
  }

  /** runTunnelService: install, or run when that fails, and then ask again without installing. */
  function RunTunnelService(answers: Answers, calls: seq<Call>): (r: Result)
    ensures calls <= r.calls
    decreases true, 0
  {
    var installed := calls + [InstallCommand];
    var ran := if answers(|calls|) then installed else installed + [RunCommand];
    StartTunnelRequest(false, answers, ran)
  }

  function Count(calls: seq<Call>, call: Call): nat {
    if calls == [] then 0
    else Count(calls[..|calls| - 1], call) + (if calls[|calls| - 1] == call then 1 else 0)
  }

  /** The position of the last Start RPC. */
  function LastStart(calls: seq<Call>): Option<nat> {
    if calls == [] then None
    else if calls[|calls| - 1].StartRpc? then Some(|calls| - 1)
    else LastStart(calls[..|calls| - 1])
  }

  lemma CountNext(calls: seq<Call>, next: Call, call: Call)
    ensures Count(calls + [next], call) == Count(calls, call) + (if next == call then 1 else 0)
    ensures LastStart(calls + [next]) == if next.StartRpc? then Some(|calls|) else LastStart(calls)
  {
    assert (calls + [next])[..|calls|] == calls;
  }

  /** A request that may not install asks once: it checks the port and, if it is in use, stops and starts. */
  lemma RequestWithoutInstall(answers: Answers, calls: seq<Call>, kind: Call)
    ensures var r := StartTunnelRequest(false, answers, calls);
            var asked := answers(|calls|);
            && r.ok == (asked && answers(|calls| + 2))
            && LastStart(r.calls) == (if asked then Some(|calls| + 2) else LastStart(calls))
            && Count(r.calls, kind) == Count(calls, kind) + (if kind.CheckPort? then 1 else 0)
                                       + (if asked && (kind.StopRpc? || kind.StartRpc?) then 1 else 0)
  {
    var checked := calls + [CheckPort];
    var stopped := checked + [StopRpc];
    CountNext(calls, CheckPort, kind);
    CountNext(checked, StopRpc, kind);
    CountNext(stopped, StartRpc, kind);
  }

  /** The calls of one kind that running the service and asking again can add. */
  function RetryBudget(kind: Call): nat {
    if kind.ExitRpc? then 0 else 1
  }

  lemma ServiceRunThenRequest(answers: Answers, calls: seq<Call>, kind: Call)
    ensures var r := RunTunnelService(answers, calls);
            && Count(r.calls, kind) <= Count(calls, kind) + RetryBudget(kind)
            && (kind.ExitRpc? ==> Count(r.calls, kind) == Count(calls, kind))
            && (if LastStart(r.calls) == LastStart(calls) then !r.ok
                else LastStart(r.calls).Some? && (r.ok <==> answers(LastStart(r.calls).value)))
  {
    var installed := calls + [InstallCommand];
    var ran := if answers(|calls|) then installed else installed + [RunCommand];
    CountNext(calls, InstallCommand, kind);
    CountNext(installed, RunCommand, kind);
    LastStartIsEarlier(calls);
    hide Count, LastStart;
    RequestWithoutInstall(answers, ran, kind);
  }

  lemma {:induction false} LastStartIsEarlier(calls: seq<Call>)
    ensures LastStart(calls).Some? ==> LastStart(calls).value < |calls| && calls[LastStart(calls).value].StartRpc?
    ensures LastStart(calls).None? <==> Count(calls, StartRpc) == 0
  {
    if calls != [] {
      LastStartIsEarlier(calls[..|calls| - 1]);
    }
  }

  /** At most two starts, one exit and two commands, one of each kind. */
  function Budget(kind: Call): nat {
    match kind
    case CheckPort => 2
    case StopRpc => 2
    case StartRpc => 2
    case ExitRpc => 1
    case InstallCommand => 1
    case RunCommand => 1
  }

  /** For every pattern of port checks, RPC and command failures no kind of call exceeds its budget, the service is told
      to exit exactly when it was running and the first start failed, and the result is a success exactly when some
      start was asked for and the last one succeeded. */
  lemma FailoverIsBounded(answers: Answers, kind: Call)
    ensures var r := StartTunnelRequest(true, answers, []);
            && Count(r.calls, kind) <= Budget(kind)
            && (kind.ExitRpc? ==> Count(r.calls, kind) == if answers(0) && !answers(2) then 1 else 0)
            && (r.ok <==> LastStart(r.calls).Some? && answers(LastStart(r.calls).value))
  {
    var checked := [] + [CheckPort];
    var stopped := checked + [StopRpc];
    var started := stopped + [StartRpc];
    CountNext([], CheckPort, kind);
    CountNext(checked, StopRpc, kind);
    CountNext(stopped, StartRpc, kind);
    CountNext(started, ExitRpc, kind);
    assert Count([], kind) == 0 && LastStart([]).None?;
    hide Count, LastStart, RunTunnelService;
    assert |stopped| == 2;
    if !answers(0) {
      assert StartTunnelRequest(true, answers, []) == RunTunnelService(answers, checked);
      ServiceRunThenRequest(answers, checked, kind);
    } else if answers(2) {
      assert StartTunnelRequest(true, answers, []) == Result(true, started);
    } else {
      assert StartTunnelRequest(true, answers, []) == RunTunnelService(answers, started + [ExitRpc]);
      ServiceRunThenRequest(answers, started + [ExitRpc], kind);
    }
  }

  /** stopTunnelRequest: a Stop that fails is sent once more, and its second reply is ignored. */
  function StopTunnelRequest(answers: Answers): (r: Result)
    ensures r.ok == answers(0)
    ensures forall call | call in r.calls :: call.StopRpc?
    ensures |r.calls| == if r.ok then 1 else 2
  {
    if answers(0) then Result(true, [StopRpc]) else Result(false, [StopRpc, StopRpc])
  }

  /** The package state: whether the service is believed to run. */
  class Commander {
    var tunnelServiceRunning: bool

    constructor ()
      ensures !tunnelServiceRunning
    {
      tunnelServiceRunning := false;
    }

    /** The request with failover runs in the background, and its result does not reach the caller. */
    method Activate(answers: Answers) returns (ok: bool, background: Result)
      modifies this
      ensures tunnelServiceRunning && ok
      ensures background == StartTunnelRequest(true, answers, [])
    {
      tunnelServiceRunning := true;
      background := StartTunnelRequest(true, answers, []);
      ok := true;
    }

    /** A stop is sent in any case, in the background when the flag is clear. The flag is cleared only by a stop that
        fails: after one that succeeds it still says that the service runs. */
    method Deactivate(answers: Answers) returns (ok: bool, calls: seq<Call>)
      modifies this
      ensures tunnelServiceRunning == (old(tunnelServiceRunning) && StopTunnelRequest(answers).ok)
      ensures ok == (old(tunnelServiceRunning) ==> StopTunnelRequest(answers).ok)
      ensures calls == StopTunnelRequest(answers).calls
    {
      var r := StopTunnelRequest(answers);
      if tunnelServiceRunning {
        if !r.ok {
          tunnelServiceRunning := false;
        }
        return r.ok, r.calls;
      }
      return true, r.calls;
    }
  }

  // ---------------------------------------------------------------- the calls written out

  /** One request without installing: the port is checked, and if it is in use a stop and a start are sent. */
  function AskOnce(inUse: bool): seq<Call> {
    if inUse then [CheckPort, StopRpc, StartRpc] else [CheckPort]
  }

  /** Installing, and running only if that failed; then the second request. */
  function InstallAndAsk(installed: bool, inUse: bool): seq<Call> {
    Commands(installed) + AskOnce(inUse)
  }

  /** Every call of an activation, in order, for every pattern of answers: a service that is running is stopped and
      started, and told to exit if that fails; then, or if none is running, it is installed and asked again. */
  lemma FailoverTrace(answers: Answers)
    ensures var r := StartTunnelRequest(true, answers, []);
            if answers(0) && answers(2) then r == Result(true, [CheckPort, StopRpc, StartRpc])
            else
              var first := if answers(0) then [CheckPort, StopRpc, StartRpc, ExitRpc] else [CheckPort];
              var installed := answers(|first|);
              var again := |first| + (if installed then 1 else 2);
              && r.calls == first + InstallAndAsk(installed, answers(again))
              && r.ok == (answers(again) && answers(again + 2))
  {
    hide StartTunnelRequest, RunTunnelService, InstallAndAsk;
    FirstRequestIs(answers);
    ServiceTrace(answers, [CheckPort]);
    ServiceTrace(answers, [CheckPort, StopRpc, StartRpc, ExitRpc]);
  }

  lemma FirstRequestIs(answers: Answers)
    ensures StartTunnelRequest(true, answers, [])
         == if !answers(0) then RunTunnelService(answers, [CheckPort])
            else if answers(2) then Result(true, [CheckPort, StopRpc, StartRpc])
            else RunTunnelService(answers, [CheckPort, StopRpc, StartRpc, ExitRpc])
  {
    hide RunTunnelService;
    var checked := [] + [CheckPort];
    assert checked == [CheckPort] && checked + [StopRpc] == [CheckPort, StopRpc];
    assert checked + [StopRpc] + [StartRpc] == [CheckPort, StopRpc, StartRpc];
    assert checked + [StopRpc] + [StartRpc] + [ExitRpc] == [CheckPort, StopRpc, StartRpc, ExitRpc];
  }

  lemma Appended(a: seq<Call>, b: seq<Call>, c: seq<Call>)
    ensures (a + b) + c == a + (b + c)
  {
  }

  lemma SecondRequestIs(answers: Answers, calls: seq<Call>)
    ensures StartTunnelRequest(false, answers, calls)
         == if answers(|calls|) then Result(answers(|calls| + 2), calls + [CheckPort] + [StopRpc] + [StartRpc])
            else Result(false, calls + [CheckPort])
  {
    hide RunTunnelService;
  }

  lemma ThreeCalls(calls: seq<Call>)
    ensures calls + [CheckPort] + [StopRpc] + [StartRpc] == calls + [CheckPort, StopRpc, StartRpc]
  {
    Appended(calls, [CheckPort], [StopRpc]);
    Appended(calls, [CheckPort] + [StopRpc], [StartRpc]);
    assert [CheckPort] + [StopRpc] + [StartRpc] == [CheckPort, StopRpc, StartRpc];
  }

  lemma RequestTrace(answers: Answers, calls: seq<Call>)
    ensures var r := StartTunnelRequest(false, answers, calls);
            r.calls == calls + AskOnce(answers(|calls|)) && r.ok == (answers(|calls|) && answers(|calls| + 2))
  {
    hide StartTunnelRequest, RunTunnelService;
    SecondRequestIs(answers, calls);
    ThreeCalls(calls);
  }

  /** What running the service does before it asks again. */
  function Commands(installed: bool): seq<Call> {
    if installed then [InstallCommand] else [InstallCommand, RunCommand]
  }

  lemma RunIs(answers: Answers, calls: seq<Call>)
    ensures RunTunnelService(answers, calls)
         == StartTunnelRequest(false, answers, calls + Commands(answers(|calls|)))
  {
    hide StartTunnelRequest;
    Appended(calls, [InstallCommand], [RunCommand]);
    assert [InstallCommand] + [RunCommand] == [InstallCommand, RunCommand];
  }

  lemma InstallAndAskIs(installed: bool, inUse: bool)
    ensures InstallAndAsk(installed, inUse) == Commands(installed) + AskOnce(inUse)
    ensures |Commands(installed)| == if installed then 1 else 2
  {
  }

  lemma ServiceTrace(answers: Answers, calls: seq<Call>)
    ensures var installed := answers(|calls|);
            var again := |calls| + (if installed then 1 else 2);
            && RunTunnelService(answers, calls).calls == calls + InstallAndAsk(installed, answers(again))
            && RunTunnelService(answers, calls).ok == (answers(again) && answers(again + 2))
  {
    hide AskOnce, StartTunnelRequest, RunTunnelService, Commands, InstallAndAsk;
    var installed := answers(|calls|);
    var again := |calls| + (if installed then 1 else 2);
    InstallAndAskIs(installed, answers(again));
    RunIs(answers, calls);
    RequestTrace(answers, calls + Commands(installed));
    Appended(calls, Commands(installed), AskOnce(answers(again)));
  }
}
