/** The reference graph of the emitted outbounds: selector members, url-test members and detours, by tag. */
module Graph {
  import opened Wrappers
  import opened Strings
  import opened Options
  import opened Warp
  import opened Outbounds

  function References(out: Outbound): seq<string> {
    if out.typ.Selector? || out.typ.UrlTest? then out.members
    else if DetourOf(out) != "" then [DetourOf(out)]
    else []
  }

  ghost predicate Closed(outs: seq<Outbound>) {
    forall o, t | o in outs && t in References(o) :: t in TagsOf(outs)
  }

  ghost predicate RankedBy(outs: seq<Outbound>, rank: string -> nat) {
    forall o, t | o in outs && t in References(o) :: rank(t) < rank(o.tag)
  }

  /** Some ranking of the tags falls along every reference. */
  ghost predicate Acyclic(outs: seq<Outbound>) {
    exists rank: string -> nat :: RankedBy(outs, rank)
  }

  ghost predicate Edge(outs: seq<Outbound>, from: string, to: string) {
    exists o :: o in outs && o.tag == from && to in References(o)
  }

  ghost predicate Path(outs: seq<Outbound>, tags: seq<string>) {
    forall i | 0 <= i < |tags| - 1 :: Edge(outs, tags[i], tags[i + 1])
  }

  lemma {:induction false} RankFallsAlongPath(outs: seq<Outbound>, rank: string -> nat, tags: seq<string>)
    requires RankedBy(outs, rank) && Path(outs, tags) && |tags| > 1
    ensures rank(tags[|tags| - 1]) < rank(tags[0])
  {
    assert Edge(outs, tags[0], tags[1]);
    if |tags| > 2 {
      forall i | 0 <= i < |tags[1..]| - 1 ensures Edge(outs, tags[1..][i], tags[1..][i + 1]) {
        assert Edge(outs, tags[i + 1], tags[i + 2]);
      }
      RankFallsAlongPath(outs, rank, tags[1..]);
    }
  }

  /** In an acyclic configuration no outbound refers to itself, directly or through others. */
  lemma NoReferenceCycle(outs: seq<Outbound>, tags: seq<string>)
    requires Acyclic(outs) && Path(outs, tags) && |tags| > 1
    ensures tags[0] != tags[|tags| - 1]
  {
    var rank :| RankedBy(outs, rank);
    RankFallsAlongPath(outs, rank, tags);
  }

  // ---------------------------------------------------------------- a built configuration

  /** One successful run of setOutbounds, seen through its input. */
  datatype Build = Build(env: Env, opt: ConfigOptions, ips: StaticIps, input: seq<Outbound>, draws: seq<InputDraw>,
                         warpDraw: PatchDraw)
  {
    ghost predicate Ok() {
      && ValidDraws(input, draws) && warpDraw.Valid()
      && WarpOutbounds(env, opt, input, warpDraw).Ok?
      && Gather(env, opt, ProxyOverWarp(opt, input), ips, input, draws).Ok?
    }

    ghost function Gathered(): Gathered
      requires Ok()
    {
      Gather(env, opt, ProxyOverWarp(opt, input), ips, input, draws).value
    }

    ghost function Outs(): seq<Outbound>
      requires Ok()
    {
      Emitted(WarpOutbounds(env, opt, input, warpDraw).value, Gathered())
    }

    ghost function Kept(): seq<Outbound> {
      KeptInputs(input)
    }
  }

  /** A build succeeds if and only if the Warp outbound it asks for can be generated and each input outbound is accepted
      on its own: outbounds do not make each other fail. */
  lemma BuildSucceedsIff(b: Build)
    requires ValidDraws(b.input, b.draws) && b.warpDraw.Valid()
    ensures b.Ok() <==> (WarpEmitted(b.opt, b.input) ==> ConfiguredWarp(b.env, b.opt).Ok?)
                        && AllAccepted(b.env, b.opt, b.input, b.draws)
  {
    hide Gather, AllAccepted, ConfiguredWarp, WarpEmitted, WarpOutbounds;
    WarpOutboundShape(b.env, b.opt, b.input, b.warpDraw);
    if !WarpEmitted(b.opt, b.input) {
      NoWarpAsked(b);
    }
    GatherOkIff(b.env, b.opt, ProxyOverWarp(b.opt, b.input), b.ips, b.input, b.draws);
  }

  lemma NoWarpAsked(b: Build)
    requires b.warpDraw.Valid() && !WarpEmitted(b.opt, b.input)
    ensures WarpOutbounds(b.env, b.opt, b.input, b.warpDraw) == Ok([])
  {
  }

  /** Any list of outbounds without Warp entries builds. */
  lemma PlainInputBuilds(env: Env, opt: ConfigOptions, ips: StaticIps, input: seq<Outbound>) returns (b: Build)
    requires WarpEmitted(opt, input) ==> ConfiguredWarp(env, opt).Ok?
    requires forall out | out in input :: !out.typ.Custom? || out.warp.None?
    ensures b.Ok() && b.env == env && b.opt == opt && b.ips == ips && b.input == input
  {
    hide WarpEmitted, ConfiguredWarp, PatchDraw.Valid;
    var draw := SomeDraw();
    b := Build(env, opt, ips, input, seq(|input|, i => InputDraw(draw, true)), draw);
    BuildSucceedsIff(b);
  }

  /** What each emitted outbound is, in terms of the input alone. */
  ghost predicate Emits(b: Build, o: Outbound) {
    || (o.typ.Selector? && o.tag == SELECT_TAG && o.members == [URL_TEST_TAG] + Visible(TagsOf(b.Kept())))
    || (o.typ.UrlTest? && o.tag == URL_TEST_TAG && o.members == Visible(TagsOf(b.Kept())))
    || (WarpEmitted(b.opt, b.input) && o.typ.WireGuardType? && o.tag == WARP_TAG
        && DetourOf(o) == if WarpOverProxy(b.opt, b.input) then SELECT_TAG else DIRECT_TAG)
    || (exists k :: k in b.Kept() && KeptFrom(b.opt, ProxyOverWarp(b.opt, b.input), o, k))
    || o in FIXED_OUTBOUNDS
  }

  predicate IsFixedTag(tag: string) {
    tag == DNS_OUT_TAG || tag == DIRECT_TAG || tag == DIRECT_FRAGMENT_TAG || tag == BYPASS_TAG || tag == BLOCK_TAG
  }

  /** The tags of a built configuration: the fixed ones, Warp's if it is emitted, and those of the kept inputs. */
  ghost predicate EmitsTag(b: Build, tag: string) {
    || tag == SELECT_TAG || tag == URL_TEST_TAG || IsFixedTag(tag)
    || (WarpEmitted(b.opt, b.input) && tag == WARP_TAG)
    || tag in TagsOf(b.Kept())
  }

  lemma EmittedOutbounds(b: Build, o: Outbound)
    requires b.Ok() && o in b.Outs()
    ensures Emits(b, o)
  {
    hide Gather, KeptInputs, KeptFrom, Visible, WarpOutbounds, ConfiguredWarp, WarpOverProxy, ProxyOverWarp;
    KeptInOrder(b.env, b.opt, ProxyOverWarp(b.opt, b.input), b.ips, b.input, b.draws);
    WarpOutboundShape(b.env, b.opt, b.input, b.warpDraw);
    if !WarpEmitted(b.opt, b.input) {
      NoWarpAsked(b);
    }
    var g := Gather(b.env, b.opt, ProxyOverWarp(b.opt, b.input), b.ips, b.input, b.draws).value;
    if o in g.kept {
      var i :| 0 <= i < |g.kept| && g.kept[i] == o;
      assert KeptInputs(b.input)[i] in b.Kept();
    }
  }

  lemma TagsOfConcat(a: seq<Outbound>, b: seq<Outbound>)
    ensures TagsOf(a + b) == TagsOf(a) + TagsOf(b)
  {
  }

  lemma TagsOfEmitted(warp: seq<Outbound>, g: Gathered)
    ensures TagsOf(Emitted(warp, g))
         == [SELECT_TAG, URL_TEST_TAG] + TagsOf(warp) + TagsOf(g.kept)
            + [DNS_OUT_TAG, DIRECT_TAG, DIRECT_FRAGMENT_TAG, BYPASS_TAG, BLOCK_TAG]
  {
    var groups := [Plain(Selector, SELECT_TAG).(members := [URL_TEST_TAG] + g.tags),
                   Plain(UrlTest, URL_TEST_TAG).(members := g.tags)];
    assert TagsOf(groups) == [SELECT_TAG, URL_TEST_TAG];
    assert TagsOf(FIXED_OUTBOUNDS) == [DNS_OUT_TAG, DIRECT_TAG, DIRECT_FRAGMENT_TAG, BYPASS_TAG, BLOCK_TAG];
    hide TagsOf;
    TagsOfConcat(groups, warp);
    TagsOfConcat(groups + warp, g.kept);
    TagsOfConcat(groups + warp + g.kept, FIXED_OUTBOUNDS);
  }

  lemma GatheredTags(b: Build)
    requires b.Ok()
    ensures TagsOf(b.Gathered().kept) == TagsOf(b.Kept())
  {
    hide Gather, KeptInputs, Visible, WarpOutbounds, WarpStays, FinalType, OwnDetour, DetourOf;
    KeptInOrder(b.env, b.opt, ProxyOverWarp(b.opt, b.input), b.ips, b.input, b.draws);
  }

  lemma WarpTags(b: Build)
    requires b.Ok()
    ensures TagsOf(WarpOutbounds(b.env, b.opt, b.input, b.warpDraw).value)
         == if WarpEmitted(b.opt, b.input) then [WARP_TAG] else []
  {
    hide Gather, WarpOutbounds, ConfiguredWarp, WarpOverProxy, ProxyOverWarp;
    WarpOutboundShape(b.env, b.opt, b.input, b.warpDraw);
    if !WarpEmitted(b.opt, b.input) {
      NoWarpAsked(b);
    }
  }

  lemma EmittedTags(b: Build, tag: string)
    requires b.Ok()
    ensures tag in TagsOf(b.Outs()) <==> EmitsTag(b, tag)
  {
    hide Gather, KeptInputs, WarpOutbounds, WarpEmitted, TagsOf, Emitted;
    GatheredTags(b);
    WarpTags(b);
    TagsOfEmitted(WarpOutbounds(b.env, b.opt, b.input, b.warpDraw).value, b.Gathered());
  }

  lemma KeptAreEmitted(b: Build, k: Outbound) returns (o: Outbound)
    requires b.Ok() && k in b.Kept()
    ensures o in b.Outs() && KeptFrom(b.opt, ProxyOverWarp(b.opt, b.input), o, k)
  {
    hide Gather, KeptInputs, KeptFrom, WarpOutbounds, ConfiguredWarp, WarpOverProxy, ProxyOverWarp;
    KeptInOrder(b.env, b.opt, ProxyOverWarp(b.opt, b.input), b.ips, b.input, b.draws);
    var i :| 0 <= i < |b.Kept()| && b.Kept()[i] == k;
    o := Gather(b.env, b.opt, ProxyOverWarp(b.opt, b.input), b.ips, b.input, b.draws).value.kept[i];
  }

  lemma VisibleTagsAreKept(b: Build, tag: string)
    requires tag in Visible(TagsOf(b.Kept()))
    ensures tag in TagsOf(b.Kept())
  {
    hide KeptInputs, Visible, TagsOf;
    VisibleMembers(TagsOf(b.Kept()), tag);
  }

  lemma FixedOutbounds(o: Outbound)
    requires o in FIXED_OUTBOUNDS
    ensures References(o) == [] && IsFixedTag(o.tag) && !o.typ.Selector? && !o.typ.UrlTest?
  {
  }

  ghost predicate OwnEdge(b: Build, from: string, to: string) {
    exists k :: k in b.Kept() && k.tag == from && to == OwnDetour(k) && to != ""
  }

  /** The outbound gets a detour from the compiler. */
  ghost predicate Redirected(b: Build, k: Outbound) {
    OwnDetour(k) == "" && TakesDetour(FinalType(k)) && ProxyOverWarp(b.opt, b.input)
  }

  ghost predicate AddedEdge(b: Build, from: string, to: string) {
    to == WARP_TAG && exists k :: k in b.Kept() && k.tag == from && Redirected(b, k)
  }

  /** The edges of the graph in terms of options and input alone. */
  ghost predicate InputEdge(b: Build, from: string, to: string) {
    || (from == SELECT_TAG && (to == URL_TEST_TAG || to in Visible(TagsOf(b.Kept()))))
    || (from == URL_TEST_TAG && to in Visible(TagsOf(b.Kept())))
    || (from == WARP_TAG && WarpOverProxy(b.opt, b.input) && to == SELECT_TAG)
    || (from == WARP_TAG && ProxyOverWarp(b.opt, b.input) && to == DIRECT_TAG)
    || OwnEdge(b, from, to)
    || AddedEdge(b, from, to)
  }

  lemma ReferencesOfEmitted(b: Build, o: Outbound, t: string)
    requires b.Ok() && o in b.Outs() && t in References(o)
    ensures InputEdge(b, o.tag, t)
  {
    EmittedOutbounds(b, o);
    hide Build.Outs, KeptInputs, Visible, TagsOf, WarpStays, FinalType, OwnDetour, DetourOf, TakesDetour, OwnEdge,
      AddedEdge, KeptFrom;
    if k :| k in b.Kept() && KeptFrom(b.opt, ProxyOverWarp(b.opt, b.input), o, k) {
      KeptReferences(b, k, o, t);
    } else if o in FIXED_OUTBOUNDS {
      FixedOutbounds(o);
    }
  }

  lemma KeptReferences(b: Build, k: Outbound, o: Outbound, t: string)
    requires k in b.Kept() && KeptFrom(b.opt, ProxyOverWarp(b.opt, b.input), o, k) && t in References(o)
    ensures OwnEdge(b, o.tag, t) || AddedEdge(b, o.tag, t)
  {
    KeptIsNoGroup(b, k, o);
    hide KeptInputs, WarpStays, FinalType, OwnDetour, DetourOf, TakesDetour;
    assert k.tag == o.tag;
  }

  /** A built configuration refers only to what it emits, if and only if each kept input's own detour does. A detour
      to Warp that the compiler adds itself never dangles. */
  lemma ClosedIff(b: Build)
    requires b.Ok()
    ensures Closed(b.Outs()) <==> forall k | k in b.Kept() :: OwnDetour(k) == "" || EmitsTag(b, OwnDetour(k))
  {
    hide Build.Outs, KeptInputs, TagsOf, WarpStays, References, OwnDetour, FinalType, TakesDetour, Visible;
    if forall k | k in b.Kept() :: OwnDetour(k) == "" || EmitsTag(b, OwnDetour(k)) {
      forall o, t | o in b.Outs() && t in References(o) ensures t in TagsOf(b.Outs()) {
        ReferencesOfEmitted(b, o, t);
        if t in Visible(TagsOf(b.Kept())) {
          VisibleTagsAreKept(b, t);
        }
        EmittedTags(b, t);
      }
    }
    if Closed(b.Outs()) {
      forall k | k in b.Kept() && OwnDetour(k) != "" ensures EmitsTag(b, OwnDetour(k)) {
        DetourEdge(b, k);
        EmittedTags(b, OwnDetour(k));
      }
    }
  }

  lemma DetourEdge(b: Build, k: Outbound)
    requires b.Ok() && k in b.Kept()
    ensures OwnDetour(k) != "" ==> Edge(b.Outs(), k.tag, OwnDetour(k))
    ensures Redirected(b, k) ==> Edge(b.Outs(), k.tag, WARP_TAG)
  {
    var o := KeptAreEmitted(b, k);
    KeptIsNoGroup(b, k, o);
    hide Build.Outs, KeptInputs, FinalType, OwnDetour, DetourOf, TakesDetour, ProxyOverWarp;
    assert References(o) == if DetourOf(o) != "" then [DetourOf(o)] else [];
  }

  lemma KeptIsNoGroup(b: Build, k: Outbound, o: Outbound)
    requires k in b.Kept() && KeptFrom(b.opt, ProxyOverWarp(b.opt, b.input), o, k)
    ensures !o.typ.Selector? && !o.typ.UrlTest?
  {
    KeptTypes(b.input, k);
  }

  lemma {:induction false} KeptTypes(input: seq<Outbound>, k: Outbound)
    requires k in KeptInputs(input)
    ensures !Dropped(FinalType(k))
  {
    if k in KeptInputs(input[..|input| - 1]) {
      KeptTypes(input[..|input| - 1], k);
    }
  }

  // ---------------------------------------------------------------- acyclicity

  /** No kept input carries a tag the compiler gives to an outbound that takes part in the graph. */
  ghost predicate NoReservedTags(b: Build) {
    forall k | k in b.Kept() ::
      && k.tag != SELECT_TAG && k.tag != URL_TEST_TAG && !IsFixedTag(k.tag)
      && (WarpEmitted(b.opt, b.input) ==> k.tag != WARP_TAG)
  }

  ghost predicate OwnDetoursRankedBy(b: Build, rank: string -> nat) {
    forall k | k in b.Kept() && OwnDetour(k) != "" :: rank(OwnDetour(k)) < rank(k.tag)
  }

  ghost function HighestRank(tags: seq<string>, rank: string -> nat): (m: nat)
    ensures forall t | t in tags :: rank(t) <= m
  {
    if tags == [] then 0
    else
      var m := HighestRank(tags[1..], rank);
      if rank(tags[0]) > m then rank(tags[0]) else m
  }

  /** A ranking of the whole graph from one of the input's own detours: url test and selector go above every kept
      outbound; Warp goes below them all or on top, according to the mode. */
  ghost function FullRank(b: Build, rank: string -> nat): string -> nat {
    var m := HighestRank(TagsOf(b.Kept()), rank);
    t => if t == SELECT_TAG then m + 4
      else if t == URL_TEST_TAG then m + 3
      else if t == WARP_TAG && WarpOverProxy(b.opt, b.input) then m + 5
      else if t == WARP_TAG && ProxyOverWarp(b.opt, b.input) then 1
      else if IsFixedTag(t) then 0
      else rank(t) + 2
  }

  lemma FullRankFits(b: Build, rank: string -> nat)
    requires b.Ok() && NoReservedTags(b) && OwnDetoursRankedBy(b, rank) && NoDetourToGroups(b)
    ensures RankedBy(b.Outs(), FullRank(b, rank))
  {
    hide Build.Outs, KeptInputs, TagsOf, WarpStays, References, OwnDetour, HighestRank, Visible, FinalType, TakesDetour;
    KeptTagsListed(b);
    forall o, t | o in b.Outs() && t in References(o) ensures FullRank(b, rank)(t) < FullRank(b, rank)(o.tag) {
      ReferencesOfEmitted(b, o, t);
      if t in Visible(TagsOf(b.Kept())) {
        VisibleTagsAreKept(b, t);
      }
    }
  }

  lemma KeptTagsListed(b: Build)
    ensures forall k | k in b.Kept() :: k.tag in TagsOf(b.Kept())
    ensures forall t | t in TagsOf(b.Kept()) :: exists k :: k in b.Kept() && k.tag == t
  {
    forall k | k in b.Kept() ensures k.tag in TagsOf(b.Kept()) {
      var i :| 0 <= i < |b.Kept()| && b.Kept()[i] == k;
      assert TagsOf(b.Kept())[i] == k.tag;
    }
  }

  /** No kept input goes over the selector, the url test or an emitted Warp outbound by a detour of its own. */
  ghost predicate NoDetourToGroups(b: Build) {
    forall k | k in b.Kept() ::
      && OwnDetour(k) != SELECT_TAG && OwnDetour(k) != URL_TEST_TAG
      && (WarpEmitted(b.opt, b.input) ==> OwnDetour(k) != WARP_TAG)
  }

  /** When the input carries no reserved tag and does not itself detour to the groups or to Warp, the built graph is
      acyclic exactly when the input's own detours are, in every Warp mode and whether or not they dangle. */
  lemma AcyclicIffOwnDetoursAre(b: Build)
    requires b.Ok() && NoReservedTags(b) && NoDetourToGroups(b)
    ensures Acyclic(b.Outs()) <==> exists rank :: OwnDetoursRankedBy(b, rank)
  {
    hide Build.Outs, KeptInputs, TagsOf, FullRank, References, OwnDetour;
    if rank :| OwnDetoursRankedBy(b, rank) {
      FullRankFits(b, rank);
    }
    if Acyclic(b.Outs()) {
      var rank :| RankedBy(b.Outs(), rank);
      forall k | k in b.Kept() && OwnDetour(k) != "" ensures rank(OwnDetour(k)) < rank(k.tag) {
        DetourEdge(b, k);
      }
      assert OwnDetoursRankedBy(b, rank);
    }
  }

  // ---------------------------------------------------------------- an input without detours

  /** The tags of an input without detours that close a cycle: the group tags always, Warp's tag when Warp goes over
      the proxies, and Warp's tag or "direct", which Warp goes through, when the proxies go over Warp. */
  ghost predicate NoClashingTags(b: Build) {
    forall k | k in b.Kept() ::
      && k.tag != SELECT_TAG && k.tag != URL_TEST_TAG
      && (WarpOverProxy(b.opt, b.input) ==> k.tag != WARP_TAG)
      && (ProxyOverWarp(b.opt, b.input) && TakesDetour(FinalType(k)) ==> k.tag != WARP_TAG && k.tag != DIRECT_TAG)
  }

  ghost function PlainRank(b: Build): string -> nat {
    t => if t == SELECT_TAG then 4
      else if t == URL_TEST_TAG then 3
      else if t == WARP_TAG then (if WarpOverProxy(b.opt, b.input) then 5 else 1)
      else if t == DIRECT_TAG then 0
      else 2
  }

  lemma PlainRankFits(b: Build)
    requires b.Ok() && NoClashingTags(b)
    requires forall k | k in b.Kept() :: OwnDetour(k) == ""
    ensures RankedBy(b.Outs(), PlainRank(b))
  {
    hide Build.Outs, KeptInputs, TagsOf, WarpStays, References, OwnDetour, FinalType, TakesDetour, Visible;
    KeptTagsListed(b);
    forall o, t | o in b.Outs() && t in References(o) ensures PlainRank(b)(t) < PlainRank(b)(o.tag) {
      ReferencesOfEmitted(b, o, t);
      if t in Visible(TagsOf(b.Kept())) {
        VisibleTagsAreKept(b, t);
      }
    }
  }

  lemma GroupEdges(b: Build, tag: string)
    requires b.Ok()
    ensures Edge(b.Outs(), SELECT_TAG, URL_TEST_TAG)
    ensures tag in Visible(TagsOf(b.Kept())) ==> Edge(b.Outs(), SELECT_TAG, tag) && Edge(b.Outs(), URL_TEST_TAG, tag)
  {
    hide Gather, KeptInputs, KeptFrom, WarpOutbounds, WarpStays, Visible, Emitted, TagsOf, Edge;
    KeptInOrder(b.env, b.opt, ProxyOverWarp(b.opt, b.input), b.ips, b.input, b.draws);
    var g := Gather(b.env, b.opt, ProxyOverWarp(b.opt, b.input), b.ips, b.input, b.draws).value;
    EdgesOfGroups(WarpOutbounds(b.env, b.opt, b.input, b.warpDraw).value, g, tag);
  }

  lemma EdgesOfGroups(warp: seq<Outbound>, g: Gathered, tag: string)
    ensures Edge(Emitted(warp, g), SELECT_TAG, URL_TEST_TAG)
    ensures tag in g.tags ==> Edge(Emitted(warp, g), SELECT_TAG, tag) && Edge(Emitted(warp, g), URL_TEST_TAG, tag)
  {
    var outs := Emitted(warp, g);
    assert outs[0] == Plain(Selector, SELECT_TAG).(members := [URL_TEST_TAG] + g.tags);
    assert outs[1] == Plain(UrlTest, URL_TEST_TAG).(members := g.tags);
    assert outs[0] in outs && outs[1] in outs;
    assert URL_TEST_TAG in References(outs[0]);
  }

  lemma WarpEdge(b: Build)
    requires b.Ok() && WarpEmitted(b.opt, b.input)
    ensures Edge(b.Outs(), WARP_TAG, if WarpOverProxy(b.opt, b.input) then SELECT_TAG else DIRECT_TAG)
  {
    WarpOutboundShape(b.env, b.opt, b.input, b.warpDraw);
    hide Gather, WarpOutbounds, WarpStays;
    var o := WarpOutbounds(b.env, b.opt, b.input, b.warpDraw).value[0];
    assert o in b.Outs() && References(o) == [DetourOf(o)];
  }

  lemma UnmarkedIsVisible(tag: string)
    requires '\U{a7}' !in tag
    ensures !Hidden(tag)
  {
    var mark := "\U{a7}hide\U{a7}";
    if Contains(tag, mark) {
      ContainsNeedsFirst(tag, mark);
      assert false;
    }
  }

  lemma CompilerTagsAreVisible()
    ensures !Hidden(SELECT_TAG) && !Hidden(URL_TEST_TAG) && !Hidden(WARP_TAG)
  {
    hide Hidden;
    UnmarkedIsVisible(SELECT_TAG);
    UnmarkedIsVisible(URL_TEST_TAG);
    UnmarkedIsVisible(WARP_TAG);
  }

  /** The graph of a built configuration, edge by edge, is the one that options and input describe. */
  lemma EdgeIff(b: Build, from: string, to: string)
    requires b.Ok()
    ensures Edge(b.Outs(), from, to) <==> InputEdge(b, from, to)
  {
    hide Build.Outs, KeptInputs, TagsOf, Visible, WarpStays, FinalType, OwnDetour, TakesDetour, References;
    if o :| o in b.Outs() && o.tag == from && to in References(o) {
      ReferencesOfEmitted(b, o, to);
    }
    hide Edge;
    GroupEdges(b, to);
    if WarpEmitted(b.opt, b.input) {
      WarpEdge(b);
    }
    ModesDiffer(b);
    if k :| k in b.Kept() && k.tag == from && to == OwnDetour(k) && to != "" {
      DetourEdge(b, k);
    }
    if k :| k in b.Kept() && k.tag == from && Redirected(b, k) {
      DetourEdge(b, k);
    }
  }

  lemma ModesDiffer(b: Build)
    ensures !(WarpOverProxy(b.opt, b.input) && ProxyOverWarp(b.opt, b.input))
  {
  }

  ghost predicate InputRankedBy(b: Build, rank: string -> nat) {
    forall from, to | InputEdge(b, from, to) :: rank(to) < rank(from)
  }

  /** Without any condition on tags and detours: the built graph is acyclic exactly when the edges that options and
      input describe are. */
  lemma AcyclicIffInputIs(b: Build)
    requires b.Ok()
    ensures Acyclic(b.Outs()) <==> exists rank :: InputRankedBy(b, rank)
  {
    hide Build.Outs, InputEdge, References, Build.Ok;
    forall rank ensures RankedBy(b.Outs(), rank) <==> InputRankedBy(b, rank) {
      if RankedBy(b.Outs(), rank) {
        forall from, to | InputEdge(b, from, to) ensures rank(to) < rank(from) {
          EdgeIff(b, from, to);
        }
      }
      if InputRankedBy(b, rank) {
        forall o, t | o in b.Outs() && t in References(o) ensures rank(t) < rank(o.tag) {
          assert Edge(b.Outs(), o.tag, t);
          EdgeIff(b, o.tag, t);
        }
      }
    }
  }

  lemma EdgeFalls(outs: seq<Outbound>, rank: string -> nat, from: string, to: string)
    requires RankedBy(outs, rank) && Edge(outs, from, to)
    ensures rank(to) < rank(from)
  {
  }

  lemma ClashingTagClosesCycle(b: Build, rank: string -> nat, k: Outbound)
    requires b.Ok() && k in b.Kept() && OwnDetour(k) == "" && RankedBy(b.Outs(), rank)
    ensures k.tag != SELECT_TAG && k.tag != URL_TEST_TAG
    ensures WarpOverProxy(b.opt, b.input) ==> k.tag != WARP_TAG
    ensures ProxyOverWarp(b.opt, b.input) && TakesDetour(FinalType(k)) ==> k.tag != WARP_TAG && k.tag != DIRECT_TAG
  {
    hide Build.Outs, Build.Ok, KeptInputs, RankedBy, Edge, TagsOf, Visible, Hidden, WarpStays, OwnDetour, FinalType,
      TakesDetour;
    KeptTagsListed(b);
    CompilerTagsAreVisible();
    ModesDiffer(b);
    VisibleMembers(TagsOf(b.Kept()), k.tag);
    GroupEdges(b, k.tag);
    forall from, to | Edge(b.Outs(), from, to) ensures rank(to) < rank(from) {
      EdgeFalls(b.Outs(), rank, from, to);
    }
    if WarpEmitted(b.opt, b.input) {
      WarpEdge(b);
    }
    DetourEdge(b, k);
  }

  /** An input without detours always gives a closed graph, and an acyclic one exactly when no tag clashes. */
  lemma DetourlessInputIff(b: Build)
    requires b.Ok()
    requires forall k | k in b.Kept() :: OwnDetour(k) == ""
    ensures Closed(b.Outs())
    ensures Acyclic(b.Outs()) <==> NoClashingTags(b)
  {
    ClosedIff(b);
    hide Build.Outs, KeptInputs, PlainRank, OwnDetour, FinalType, TakesDetour, Build.Ok;
    if NoClashingTags(b) {
      PlainRankFits(b);
    }
    if Acyclic(b.Outs()) {
      var rank :| RankedBy(b.Outs(), rank);
      forall k | k in b.Kept()
        ensures k.tag != SELECT_TAG && k.tag != URL_TEST_TAG
        ensures WarpOverProxy(b.opt, b.input) ==> k.tag != WARP_TAG
        ensures ProxyOverWarp(b.opt, b.input) && TakesDetour(FinalType(k)) ==> k.tag != WARP_TAG && k.tag != DIRECT_TAG
      {
        ClashingTagClosesCycle(b, rank, k);
      }
    }
  }

  // ---------------------------------------------------------------- what stands behind a tag

  /** The type the compiler gives the outbounds of its own. */
  predicate HasOwnType(o: Outbound) {
    match o.tag
    case "select" => o.typ.Selector?
    case "auto" => o.typ.UrlTest?
    case "dns-out" => o.typ.DnsOut?
    case "direct" => o.typ.Direct?
    case "direct-fragment" => o.typ.Direct?
    case "bypass" => o.typ.Direct?
    case "block" => o.typ.Block?
    case _ => o.typ.WireGuardType? && o.tag == "Hiddify Warp \U{2705}"
  }

  /** Every emitted outbound that no kept input shares its tag with is of the type its tag stands for. */
  lemma OwnTypes(b: Build, o: Outbound)
    requires b.Ok() && o in b.Outs() && o.tag !in TagsOf(b.Kept())
    ensures HasOwnType(o)
  {
    EmittedOutbounds(b, o);
    KeptTagsListed(b);
    hide Build.Outs, Build.Ok, KeptInputs, TagsOf, WarpOverProxy, ProxyOverWarp, WarpEmitted, DetourOf, Visible,
      OwnDetour;
    assert o in FIXED_OUTBOUNDS ==> HasOwnType(o) by {
      FixedTypes(o);
    }
    if k :| k in b.Kept() && KeptFrom(b.opt, ProxyOverWarp(b.opt, b.input), o, k) {
      assert k.tag == o.tag;
    }
  }

  lemma FixedTypes(o: Outbound)
    ensures o in FIXED_OUTBOUNDS ==> HasOwnType(o)
  {
  }

  /** Each of the compiler's own tags is there in every build. */
  lemma OwnTagIsThere(b: Build, tag: string)
    requires b.Ok()
    requires tag == "select" || tag == "auto" || tag == "dns-out" || tag == "direct" || tag == "direct-fragment"
             || tag == "bypass" || tag == "block"
    ensures exists o :: o in b.Outs() && o.tag == tag
  {
    hide Build.Outs, Build.Ok, KeptInputs, TagsOf, WarpEmitted;
    EmittedTags(b, tag);
    TagIsThere(b.Outs(), tag);
  }

  lemma TagIsThere(outs: seq<Outbound>, tag: string)
    requires tag in TagsOf(outs)
    ensures exists o :: o in outs && o.tag == tag
  {
    var i :| 0 <= i < |outs| && TagsOf(outs)[i] == tag;
    assert outs[i] in outs;
  }

  /** Warp and the proxies refer to each other as the mode says: Warp over the proxies goes over the selector; the other
      way round Warp goes direct, and every kept outbound but Xray without a detour of its own goes over Warp. Without
      either mode no Warp outbound is added. */
  lemma ModeEdges(b: Build)
    requires b.Ok()
    ensures var (warp, stays) := ("Hiddify Warp \U{2705}", b.opt.warp.enable && BringsNoAccount(b.opt, b.input));
            && (stays && b.opt.warp.mode == "warp_over_proxy" ==> Edge(b.Outs(), warp, "select"))
            && (stays && b.opt.warp.mode == "proxy_over_warp" ==>
                  && Edge(b.Outs(), warp, "direct")
                  && forall k | k in b.Kept() && OwnDetour(k) == "" && !k.typ.Xray? :: Edge(b.Outs(), k.tag, warp))
            && (!stays || (b.opt.warp.mode != "warp_over_proxy" && b.opt.warp.mode != "proxy_over_warp") ==>
                  (warp in TagsOf(b.Outs()) <==> warp in TagsOf(b.Kept())))
  {
    ModesAre(b.opt, b.input);
    hide Build.Outs, Build.Ok, KeptInputs, TagsOf, OwnDetour, BringsNoAccount, Edge, WarpStays;
    var warp := WARP_TAG;
    EmittedTags(b, warp);
    if WarpEmitted(b.opt, b.input) {
      WarpEdge(b);
      forall k | k in b.Kept() && OwnDetour(k) == "" && !k.typ.Xray? && ProxyOverWarp(b.opt, b.input)
        ensures Edge(b.Outs(), k.tag, warp)
      {
        KeptTypes(b.input, k);
        KeptTakeDetour(k);
        DetourEdge(b, k);
      }
    }
    assert warp != SELECT_TAG && warp != URL_TEST_TAG && !IsFixedTag(warp) by {
      assert warp[0] != 's' && warp[0] != 'a' && warp[0] != 'd' && warp[0] != 'b';
    }
  }

  /** The emitted list: the two groups, Warp, the kept inputs in their order, and the fixed outbounds. */
  lemma OutsInOrder(b: Build)
    requires b.Ok()
    ensures TagsOf(b.Outs())
         == ["select", "auto"] + (if WarpEmitted(b.opt, b.input) then ["Hiddify Warp \U{2705}"] else [])
            + TagsOf(b.Kept()) + ["dns-out", "direct", "direct-fragment", "bypass", "block"]
  {
    hide Gather, KeptInputs, WarpOutbounds, WarpEmitted, TagsOf, Emitted;
    GatheredTags(b);
    WarpTags(b);
    TagsOfEmitted(WarpOutbounds(b.env, b.opt, b.input, b.warpDraw).value, b.Gathered());
  }
}
