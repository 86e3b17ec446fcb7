/** patchConfig in config/parser.go: the outbounds are patched by a batch of two workers whose results are kept by
    tag. */
module Parser {
  import opened Wrappers
  import opened Options
  import opened Warp

  const WORKERS := 2

  datatype Phase = Waiting | Running | Done

  /** One task per outbound: the key its result is stored under, and that result. */
  datatype Task = Task(key: string, value: Outbound)

  datatype Batch = Batch(phases: seq<Phase>, results: map<string, Outbound>)

  function Started(tasks: seq<Task>): Batch {
    Batch(seq(|tasks|, i => Waiting), map[])
  }

  function RunningCount(phases: seq<Phase>): nat {
    if phases == [] then 0
    else RunningCount(phases[..|phases| - 1]) + (if phases[|phases| - 1].Running? then 1 else 0)
  }

  /** A worker slot is taken. */
  ghost predicate Begins(tasks: seq<Task>, s: Batch, s': Batch, i: nat) {
    && i < |tasks| == |s.phases| && s.phases[i].Waiting? && RunningCount(s.phases) < WORKERS
    && s' == s.(phases := s.phases[i := Running])
  }

  /** A task that is done stores its result under its key, over an earlier result of the same key. */
  ghost predicate Finishes(tasks: seq<Task>, s: Batch, s': Batch, i: nat) {
    && i < |tasks| == |s.phases| && s.phases[i].Running?
    && s' == Batch(s.phases[i := Done], s.results[tasks[i].key := tasks[i].value])
  }

  ghost predicate Step(tasks: seq<Task>, s: Batch, s': Batch) {
    exists i: nat :: Begins(tasks, s, s', i) || Finishes(tasks, s, s', i)
  }

  /** Some interleaving of n steps leads to s. */
  ghost predicate Reached(tasks: seq<Task>, s: Batch, n: nat)
    decreases n
  {
    if n == 0 then s == Started(tasks)
    else exists before :: Reached(tasks, before, n - 1) && Step(tasks, before, s)
  }

  ghost predicate AllDone(tasks: seq<Task>, s: Batch) {
    |s.phases| == |tasks| && forall i | 0 <= i < |tasks| :: s.phases[i].Done?
  }

  /** The stored results are results of tasks that are done, and every done task's key has one. */
  ghost predicate ResultsOfDone(tasks: seq<Task>, s: Batch) {
    && |s.phases| == |tasks|
    && (forall i | 0 <= i < |tasks| && s.phases[i].Done? :: tasks[i].key in s.results)
    && (forall key | key in s.results ::
          exists i :: 0 <= i < |tasks| && s.phases[i].Done? && tasks[i].key == key && tasks[i].value == s.results[key])
  }

  lemma {:induction false} ReachedResults(tasks: seq<Task>, s: Batch, n: nat)
    requires Reached(tasks, s, n)
    ensures ResultsOfDone(tasks, s)
    decreases n
  {
    hide ResultsOfDone, Step;
    if n == 0 {
      NothingDone(tasks);
    } else {
      var before :| Reached(tasks, before, n - 1) && Step(tasks, before, s);
      ReachedResults(tasks, before, n - 1);
      StepKeepsResults(tasks, before, s);
    }
  }

  lemma NothingDone(tasks: seq<Task>)
    ensures ResultsOfDone(tasks, Started(tasks))
  {
  }

  lemma StepKeepsResults(tasks: seq<Task>, s: Batch, s': Batch)
    requires ResultsOfDone(tasks, s) && Step(tasks, s, s')
    ensures ResultsOfDone(tasks, s')
  {
    hide RunningCount;
    var i: nat :| Begins(tasks, s, s', i) || Finishes(tasks, s, s', i);
    forall key | key in s'.results
      ensures exists j :: 0 <= j < |tasks| && s'.phases[j].Done? && tasks[j].key == key
                          && tasks[j].value == s'.results[key]
    {
      if Finishes(tasks, s, s', i) && key == tasks[i].key {
        assert s'.phases[i].Done?;
      } else {
        var j :| 0 <= j < |tasks| && s.phases[j].Done? && tasks[j].key == key && tasks[j].value == s.results[key];
        assert s'.phases[j].Done?;
      }
    }
  }

  /** The batch delivers each task its own result. */
  ghost predicate Delivers(tasks: seq<Task>, s: Batch) {
    forall i | 0 <= i < |tasks| :: tasks[i].key in s.results && s.results[tasks[i].key] == tasks[i].value
  }

  ghost predicate SameKeySameValue(tasks: seq<Task>) {
    forall i, j | 0 <= i < |tasks| && 0 <= j < |tasks| && tasks[i].key == tasks[j].key ::
      tasks[i].value == tasks[j].value
  }

  lemma {:induction false} CountAfterChange(phases: seq<Phase>, i: nat, p: Phase)
    requires i < |phases|
    ensures RunningCount(phases[i := p])
         == RunningCount(phases) - (if phases[i].Running? then 1 else 0) + (if p.Running? then 1 else 0)
  {
    var n := |phases| - 1;
    if i == n {
      assert phases[i := p][..n] == phases[..n];
    } else {
      CountAfterChange(phases[..n], i, p);
      assert phases[i := p][..n] == phases[..n][i := p];
    }
  }

  /** No interleaving has more than two tasks under way. */
  lemma {:induction false} TwoWorkersAtMost(tasks: seq<Task>, s: Batch, n: nat)
    requires Reached(tasks, s, n)
    ensures RunningCount(s.phases) <= 2
    decreases n
  {
    if n == 0 {
      NothingRuns(s.phases);
    } else {
      var before :| Reached(tasks, before, n - 1) && Step(tasks, before, s);
      TwoWorkersAtMost(tasks, before, n - 1);
      var i: nat :| Begins(tasks, before, s, i) || Finishes(tasks, before, s, i);
      CountAfterChange(before.phases, i, s.phases[i]);
    }
  }

  // ---------------------------------------------------------------- the interleaving without overlap

  /** The batch after some tasks have run one after the other, in the given order. */
  function OneByOne(tasks: seq<Task>, order: seq<nat>): (s: Batch)
    requires forall k | 0 <= k < |order| :: order[k] < |tasks|
    ensures |s.phases| == |tasks|
  {
    if order == [] then Started(tasks)
    else
      var (s, i) := (OneByOne(tasks, order[..|order| - 1]), order[|order| - 1]);
      Batch(s.phases[i := Done], s.results[tasks[i].key := tasks[i].value])
  }

  ghost predicate Distinct(order: seq<nat>) {
    forall i, j | 0 <= i < j < |order| :: order[i] != order[j]
  }

  lemma NothingRuns(phases: seq<Phase>)
    requires forall p | p in phases :: !p.Running?
    ensures RunningCount(phases) == 0
  {
    if phases != [] {
      NothingRuns(phases[..|phases| - 1]);
    }
  }

  lemma {:induction false} OneByOnePhases(tasks: seq<Task>, order: seq<nat>, i: nat)
    requires forall k | 0 <= k < |order| :: order[k] < |tasks|
    requires i < |tasks|
    ensures OneByOne(tasks, order).phases[i] == if i in order then Done else Waiting
  {
    if order != [] {
      OneByOnePhases(tasks, order[..|order| - 1], i);
      assert order == order[..|order| - 1] + [order[|order| - 1]];
    }
  }

  /** The last task of the order while it runs. */
  function During(tasks: seq<Task>, s: Batch, i: nat): Batch
    requires i < |tasks| == |s.phases|
  {
    s.(phases := s.phases[i := Running])
  }

  lemma NextBegins(tasks: seq<Task>, s: Batch, i: nat)
    requires i < |tasks| == |s.phases| && s.phases[i].Waiting? && forall p | p in s.phases :: !p.Running?
    ensures Step(tasks, s, During(tasks, s, i))
  {
    NothingRuns(s.phases);
    hide RunningCount;
    assert Begins(tasks, s, During(tasks, s, i), i);
  }

  lemma NextFinishes(tasks: seq<Task>, s: Batch, i: nat)
    requires i < |tasks| == |s.phases|
    ensures Step(tasks, During(tasks, s, i),
                 Batch(s.phases[i := Done], s.results[tasks[i].key := tasks[i].value]))
  {
    assert s.phases[i := Running][i := Done] == s.phases[i := Done];
    assert Finishes(tasks, During(tasks, s, i),
                    Batch(s.phases[i := Done], s.results[tasks[i].key := tasks[i].value]), i);
  }

  lemma ReachedNext(tasks: seq<Task>, s: Batch, s': Batch, n: nat)
    requires Reached(tasks, s, n) && Step(tasks, s, s')
    ensures Reached(tasks, s', n + 1)
  {
  }

  lemma NothingReached(tasks: seq<Task>)
    ensures Reached(tasks, OneByOne(tasks, []), 0)
  {
  }

  /** Every order of the tasks is an interleaving of the batch. */
  lemma {:induction false} OneByOneReached(tasks: seq<Task>, order: seq<nat>)
    requires (forall k | 0 <= k < |order| :: order[k] < |tasks|) && Distinct(order)
    ensures Reached(tasks, OneByOne(tasks, order), 2 * |order|)
  {
    hide During, Step, Reached;
    if order == [] {
      NothingReached(tasks);
    } else {
      var (init, i) := (order[..|order| - 1], order[|order| - 1]);
      var s := OneByOne(tasks, init);
      OneByOneReached(tasks, init);
      forall k: nat | k < |tasks| ensures s.phases[k] == if k in init then Done else Waiting {
        OneByOnePhases(tasks, init, k);
      }
      assert i !in init;
      NextBegins(tasks, s, i);
      NextFinishes(tasks, s, i);
      ReachedNext(tasks, s, During(tasks, s, i), 2 * |order| - 2);
      ReachedNext(tasks, During(tasks, s, i), OneByOne(tasks, order), 2 * |order| - 1);
    }
  }

  /** Every complete interleaving delivers each task its own result if tasks with one key agree, and none does if they
      do not. */
  lemma EveryInterleavingDeliversIff(tasks: seq<Task>, s: Batch, n: nat)
    requires Reached(tasks, s, n) && AllDone(tasks, s)
    ensures Delivers(tasks, s) <==> SameKeySameValue(tasks)
  {
    ReachedResults(tasks, s, n);
  }

  /** All tasks, with task i as the last one. */
  function WithLast(size: nat, i: nat): seq<nat>
    requires i < size
  {
    seq(size, k => if k < i then k else if k < size - 1 then k + 1 else i)
  }

  lemma WithLastIsOrder(size: nat, i: nat)
    requires i < size
    ensures Distinct(WithLast(size, i)) && forall k: nat :: k in WithLast(size, i) <==> k < size
  {
    forall k: nat | k < size ensures k in WithLast(size, i) {
      assert WithLast(size, i)[if k < i then k else if k == i then size - 1 else k - 1] == k;
    }
  }

  /** Any task's result can be the one that its key keeps: some complete interleaving ends with that task. */
  lemma AnyResultCanSurvive(tasks: seq<Task>, i: nat) returns (s: Batch, n: nat)
    requires i < |tasks|
    ensures Reached(tasks, s, n) && AllDone(tasks, s)
    ensures tasks[i].key in s.results && s.results[tasks[i].key] == tasks[i].value
  {
    var order := WithLast(|tasks|, i);
    WithLastIsOrder(|tasks|, i);
    assert order[|order| - 1] == i;
    s, n := OneByOne(tasks, order), 2 * |order|;
    OneByOneReached(tasks, order);
    forall k: nat | k < |tasks| ensures s.phases[k].Done? {
      OneByOnePhases(tasks, order, k);
    }
  }

  // ---------------------------------------------------------------- patchConfig

  /** patchWarp as the parser calls it: not final, and with a nil map. */
  function ParserPatch(env: Env, base: Outbound, warps: Option<(WarpKeys, WarpKeys)>, draw: PatchDraw)
    : Outcome<Outbound>
    requires draw.Valid()
  {
    match Patched(env, base, warps, false, None, draw)
    case Ok((b, _)) => Ok(b)
    case Err(e) => Err(e)
    case Panic(p) => Panic(p)
  }

  ghost predicate ValidPatchDraws(outs: seq<Outbound>, draws: seq<PatchDraw>) {
    |draws| == |outs| && forall d | d in draws :: d.Valid()
  }

  ghost predicate NoTaskFails(env: Env, outs: seq<Outbound>, warps: Option<(WarpKeys, WarpKeys)>, draws: seq<PatchDraw>)
    requires ValidPatchDraws(outs, draws)
  {
    forall i | 0 <= i < |outs| :: ParserPatch(env, outs[i], warps, draws[i]).Ok?
  }

  ghost function PatchedInOrder(env: Env, outs: seq<Outbound>, warps: Option<(WarpKeys, WarpKeys)>,
                                draws: seq<PatchDraw>): seq<Outbound>
    requires ValidPatchDraws(outs, draws) && NoTaskFails(env, outs, warps, draws)
  {
    seq(|outs|, i requires 0 <= i < |outs| => ParserPatch(env, outs[i], warps, draws[i]).value)
  }

  ghost function TasksOf(env: Env, outs: seq<Outbound>, warps: Option<(WarpKeys, WarpKeys)>, draws: seq<PatchDraw>)
    : seq<Task>
    requires ValidPatchDraws(outs, draws) && NoTaskFails(env, outs, warps, draws)
  {
    seq(|outs|, i requires 0 <= i < |outs| => Task(outs[i].tag, ParserPatch(env, outs[i], warps, draws[i]).value))
  }

  /** The loop that puts the results back, outbound by outbound, under the tag each still has. */
  method StoreResults(outs: array<Outbound>, results: map<string, Outbound>)
    requires forall i | 0 <= i < outs.Length :: outs[i].tag in results
    modifies outs
    ensures forall i | 0 <= i < outs.Length :: outs[i] == results[old(outs[i].tag)]
  {
    for i := 0 to outs.Length
      invariant forall j | 0 <= j < i :: outs[j] == results[old(outs[j].tag)]
      invariant forall j | i <= j < outs.Length :: outs[j] == old(outs[j])
    {
      var base := outs[i];
      outs[i] := results[base.tag];
    }
  }

  /** The list StoreResults leaves. */
  ghost function Stored(outs: seq<Outbound>, results: map<string, Outbound>): seq<Outbound>
    requires forall o | o in outs :: o.tag in results
  {
    seq(|outs|, i requires 0 <= i < |outs| => results[outs[i].tag])
  }

  /** Outbounds with one tag are patched to the same outbound; so it is when tags are distinct. */
  ghost predicate SharedTagsAgree(env: Env, outs: seq<Outbound>, warps: Option<(WarpKeys, WarpKeys)>,
                                  draws: seq<PatchDraw>)
    requires ValidPatchDraws(outs, draws) && NoTaskFails(env, outs, warps, draws)
  {
    forall i, j | 0 <= i < |outs| && 0 <= j < |outs| && outs[i].tag == outs[j].tag ::
      PatchedInOrder(env, outs, warps, draws)[i] == PatchedInOrder(env, outs, warps, draws)[j]
  }

  lemma DistinctTagsAgree(env: Env, outs: seq<Outbound>, warps: Option<(WarpKeys, WarpKeys)>, draws: seq<PatchDraw>)
    requires ValidPatchDraws(outs, draws) && NoTaskFails(env, outs, warps, draws)
    requires forall i, j | 0 <= i < j < |outs| :: outs[i].tag != outs[j].tag
    ensures SharedTagsAgree(env, outs, warps, draws)
  {
    hide PatchedInOrder;
    forall i, j | 0 <= i < |outs| && 0 <= j < |outs| && outs[i].tag == outs[j].tag ensures i == j {
    }
  }

  /** Every complete interleaving gives what patching one outbound after the other gives, in order, if and only if
      outbounds with one tag are patched to the same outbound. */
  lemma BatchIsSequentialIff(env: Env, outs: seq<Outbound>, warps: Option<(WarpKeys, WarpKeys)>, draws: seq<PatchDraw>,
                             s: Batch, n: nat)
    requires ValidPatchDraws(outs, draws) && NoTaskFails(env, outs, warps, draws)
    requires Reached(TasksOf(env, outs, warps, draws), s, n) && AllDone(TasksOf(env, outs, warps, draws), s)
    ensures forall o | o in outs :: o.tag in s.results
    ensures Stored(outs, s.results) == PatchedInOrder(env, outs, warps, draws)
       <==> SharedTagsAgree(env, outs, warps, draws)
  {
    hide ParserPatch, Reached;
    var tasks := TasksOf(env, outs, warps, draws);
    var inOrder := PatchedInOrder(env, outs, warps, draws);
    ReachedResults(tasks, s, n);
    EveryInterleavingDeliversIff(tasks, s, n);
    assert forall i | 0 <= i < |outs| :: tasks[i].key == outs[i].tag && tasks[i].value == inOrder[i];
    assert SameKeySameValue(tasks) <==> SharedTagsAgree(env, outs, warps, draws);
    forall o | o in outs ensures o.tag in s.results {
      var i :| 0 <= i < |outs| && outs[i] == o;
      assert tasks[i].key in s.results;
    }
    StoredIffDelivered(tasks, outs, inOrder, s);
  }

  lemma StoredIffDelivered(tasks: seq<Task>, outs: seq<Outbound>, inOrder: seq<Outbound>, s: Batch)
    requires |tasks| == |outs| == |inOrder| && forall o | o in outs :: o.tag in s.results
    requires forall i | 0 <= i < |outs| :: tasks[i].key == outs[i].tag && tasks[i].value == inOrder[i]
    ensures Stored(outs, s.results) == inOrder <==> Delivers(tasks, s)
  {
    if Stored(outs, s.results) == inOrder {
      forall i | 0 <= i < |tasks| ensures tasks[i].key in s.results && s.results[tasks[i].key] == tasks[i].value {
        assert outs[i] in outs && Stored(outs, s.results)[i] == inOrder[i];
      }
    }
  }

  /** Some complete interleaving leaves this list in place of the outbounds. */
  ghost predicate CanLeave(tasks: seq<Task>, outs: seq<Outbound>, left: seq<Outbound>) {
    exists s, n :: Reached(tasks, s, n) && AllDone(tasks, s) && (forall o | o in outs :: o.tag in s.results)
                   && Stored(outs, s.results) == left
  }

  /** Two different outbounds with one tag that patching leaves alone: every complete interleaving puts the same one of
      the two in both places, and which one it is depends on the interleaving. */
  lemma SharedTagKeepsOne(env: Env, a: Outbound, b: Outbound, warps: Option<(WarpKeys, WarpKeys)>,
                          draws: seq<PatchDraw>)
    requires a.tag == b.tag && a != b && !a.typ.Custom? && !b.typ.Custom?
    requires ValidPatchDraws([a, b], draws)
    ensures NoTaskFails(env, [a, b], warps, draws)
    ensures var tasks := TasksOf(env, [a, b], warps, draws);
            && (forall s, n | Reached(tasks, s, n) && AllDone(tasks, s) ::
                  a.tag in s.results && (Stored([a, b], s.results) == [a, a] || Stored([a, b], s.results) == [b, b]))
            && CanLeave(tasks, [a, b], [a, a]) && CanLeave(tasks, [a, b], [b, b])
  {
    hide Reached;
    var tasks := TasksOf(env, [a, b], warps, draws);
    assert tasks[0].value == a && tasks[1].value == b && tasks[0].key == tasks[1].key;
    forall s, n | Reached(tasks, s, n) && AllDone(tasks, s)
      ensures a.tag in s.results && (Stored([a, b], s.results) == [a, a] || Stored([a, b], s.results) == [b, b])
    {
      ReachedResults(tasks, s, n);
      assert tasks[0].key in s.results;
    }
    var s0, n0 := AnyResultCanSurvive(tasks, 0);
    assert Stored([a, b], s0.results) == [a, a];
    var s1, n1 := AnyResultCanSurvive(tasks, 1);
    assert Stored([a, b], s1.results) == [b, b];
  }

  // ---------------------------------------------------------------- what the parser's patch does

  /** The parser only expands Warp entries. A WireGuard outbound, its own or a new one, keeps its host, even a
      placeholder, its port and its detour; and nothing is stored. */
  lemma ParserOnlyExpands(env: Env, base: Outbound, warps: Option<(WarpKeys, WarpKeys)>, draw: PatchDraw)
    requires draw.Valid()
    ensures !base.typ.Custom? || base.warp.None? ==> ParserPatch(env, base, warps, draw) == Ok(base)
    ensures base.typ.Custom? && base.warp.Some? && ParserPatch(env, base, warps, draw).Ok? && warps.Some? ==>
              var (after, e) := (ParserPatch(env, base, warps, draw).value, base.warp.value);
              && after.typ.WireGuardType? && after.tag == base.tag && after.wg.detour == e.detour
              && after.wg.server == (if e.host == "" then "auto4" else e.host)
              && after.wg.port == e.port.Asserted() && after.wg.mtu == 1330
  {
    hide WarpWireGuard, Finished;
    if base.typ.Custom? && base.warp.Some? && warps.Some? {
      ExpandedFields(env, base, warps.value.0, warps.value.1, draw);
    }
  }
}
