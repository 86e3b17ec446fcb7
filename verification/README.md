# Verified model of the Hiddify core

The Hiddify core turns the options of a user and a list of proxies into a sing-box configuration, and starts and stops
sing-box with it. This project models that logic in Dafny and proves what it promises. Wherever the code changes state
step by step, a class or a method with loops does the same steps and is proved equal to a specification function; the
properties are proved about those functions.

**The configuration compiler.**

| file | what it models |
|---|---|
| `Strings.dfy` | `strings.Split`, `Join`, `Contains`, `TrimPrefix`, `ToLower`, `strconv.Atoi`, with the laws of split and join |
| `Rules.dfy` | `config/rules.go`: a user rule, and the route and DNS rules made from it |
| `Matching.dfy` | what a sing-box rule matches, and what a user rule means when it is read item by item |
| `Options.dfy` | tags, the options that are read, and library answers that are fixed during one build |
| `Routing.dfy`, `Dns.dfy` | `setRoutingOptions`, `setFakeDns`, `addForceDirect`: rule lists, plain decisions, and why they agree |
| `RandomString.dfy` | `generateRandomString` over base64 |
| `IpUtils.dfy`, `WarpEndpoint.dfy` | random addresses of a prefix; Warp blocks, ports and endpoints |
| `Warp.dfy` | `config/warp.go`: Warp entries, WireGuard outbounds, static addresses |
| `Outbounds.dfy`, `Graph.dfy` | `setOutbounds`: the emitted outbounds and their reference graph |
| `Builder.dfy` | `BuildConfig` as an object that is filled pass by pass, with the main-proxy tag that outlives a build |
| `Parser.dfy` | `patchConfig`: the two-worker batch over all its interleavings |
| `Tricks.dfy` | `config/outbound.go`: the TLS-trick and multiplex passes over a JSON object |

**The life cycle.** `LifecycleSpec.dfy` has the steps of `v2/custom.go`, `v2/coreinfo.go` and `v2/old_command_server.go`
over the package's variables. An oracle decides how each library call ends (fine, error, panic), so one theorem covers
every pattern of failures. Every intermediate moment is recorded, so invariants are stated in the middle of operations
too. `LifecycleProofs.dfy` has the theorems about whole runs and `Outcomes.dfy` says call by call how each operation
ends. `DirectStarts.dfy` says exactly which calls of `StartService` and which failed closings break the theorems,
`CommandServers.dfy` which operations lose a command server that still listens or close one twice, and `Lifecycle.dfy`
has the object whose methods are proved to take exactly those steps.

**The tunnel service.** `Tunnel.dfy` models the failover of `config/admin_service_commander.go`.

## What the code does that may surprise

The model follows the code in all of these.

- A user rule with outbound "proxy" is routed to `dns-out` (config/config.go:533-534), and a rule with an unknown
  outbound is emitted with an empty target, and its DNS rule with an empty server; `Builder.RouteTargetsEmittedIff` and
  `Dns.DnsServersExistIff` say exactly when every target and every server exists.
- The rule for forced direct names is put first without being checked for validity. The remote DNS host is added without
  a "full:" prefix; when it is the only name, the rule has no condition (`Dns.RemoteNameAloneIsInvalid`,
  `Builder.FirstDnsRuleIsValidIff`).
- Under fake DNS a "proxy" rule without any domain still yields a valid DNS rule, because its inbound is a condition: it
  takes every query of the two user inbounds (`Dns.DnsRulesDecide`).
- `route.Final` is the main-proxy tag of the previous build; it can name an outbound that is not emitted
  (`Builder.FinalNamesEmittedIff`, `Builder.FinalCanDangle`).
- An input outbound may use a tag that the compiler uses too. `Graph.DetourlessInputIff` says exactly which tags then
  close a cycle. Detours of the input to a tag nobody emits are kept (`Graph.ClosedIff`).
- Xray outbounds get no detour over Warp.
- A Warp client id that decodes to two bytes panics (`Warp.WarpWireGuardShape`).
- A random address may leave its prefix when the prefix contains `::ffff:0:0` (`IpUtils.StaysInPrefixIff`).
- The port of a rule keeps the low 16 bits of a number out of range.
- Two outbounds with one tag lose one of them in the parser; which one depends on timing (`Parser.SharedTagKeepsOne`).
- A reload asks for the configuration at the empty path: as long as reading it fails, a reload stops the core
  (`LifecycleProofs.ReloadStopsTheCore`).
- The port of a Warp entry is read as a 16-bit number, which a number decoded from JSON never is
  (`Warp.ParsedPortIsIgnored`).
- A reload lets go of the command server without closing it, and the alert closes it but keeps the variable
  (`CommandServers.NoServerLostIff`, `CommandServers.AlertClosesAgainIff`).
- `StartService` does not look at the box and the server there are: `DirectStarts` says exactly when that does harm.
- The user's padding settings overwrite those of an outbound (`Tricks.OwnTricksSurviveIff`).
- The flag `tunnelServiceRunning` is cleared only by a stop that fails.

## Model

| member | source | states |
|---|---|---|
| `Strings.JoinOfSplit` | config/rules.go:42-42 | splitting at commas loses nothing, and no part contains a comma |
| `Strings.SplitOfJoin` | config/config.go:114-121 | the items of the joined texts are the items of the single texts and no others |
| `Strings.OccursIff` | config/config.go:85-85 | a text contains another exactly when it is that one with something around it |
| `Strings.SecondAfterIs` | config/config.go:84-87 | what is left of an address behind its scheme, up to and with a second separator |
| `Strings.AtoiOfDecimal` | config/rules.go:91-91 | a number is read back from its decimal digits, signed or not, exactly when it fits 64 bits |
| `Strings.AtoiRefuses` | config/rules.go:91-91 | any other character refuses the text |
| `Strings.NoDigitsNoNumber` | config/rules.go:91-91 | so does the lack of digits |
| `Strings.LoweredLetters` | config/rules.go:64-70 | capitals become their small letters and nothing else changes |
| `Rules.MakeDomainRule` | config/rules.go:59-74 | each of the five lists is extended by the patterns of its kind in item order, and nothing else changes |
| `Rules.MakeIpRule` | config/rules.go:76-85 | geoip items and all other items go to their two lists in order, and nothing else changes |
| `Rules.MakePortRule` | config/rules.go:87-96 | ranges and numbers go to their two lists in order; other items are dropped |
| `Rules.MakeRule` | config/rules.go:20-38 | the loops compute the compiled rule that the decision theorems speak of |
| `Rules.MakeDnsRule` | config/rules.go:40-57 | the same for the DNS rule, which splits an empty text too |
| `Rules.PickedMembers` | config/rules.go:44-54 | a pattern is in the list of a kind if and only if some item of that kind carries it |
| `Rules.PickedInOrder` | config/rules.go:60-72 | lists follow the item order: the list of a concatenation is the concatenation of the lists |
| `Rules.ListLengths` | config/rules.go:60-72 | each recognised item lands in exactly one of the five lists |
| `Rules.RouteAndDnsRulesAgree` | config/rules.go:20-74 | both rules of a user rule have the same five lists, as long as the recognised items together, also for an empty text |
| `Rules.PrefixedItems` | config/rules.go:60-72 | the five prefixes, what each stands for, and which patterns are lowered |
| `Rules.UnrecognisedIff` | config/rules.go:60-72 | an item is not recognised exactly when it has none of the five prefixes |
| `Rules.OneDomainRules` | config/rules.go:20-38 | the whole route rule of a user rule with one domain item, for each kind |
| `Rules.OneConditionRules` | config/rules.go:20-38 | the same for address, port range, network and protocol |
| `Rules.OnePortRule` | config/rules.go:87-96 | a port given by its number is that number's low 16 bits |
| `Matching.CompiledIsValidIff` | config/config.go:537-545 | the compiled rule is emitted if and only if the user rule gives a condition that is understood |
| `Matching.CompiledMatchesIff` | config/rules.go:20-38 | the compiled rule matches a connection if and only if the user rule, read item by item, applies to it |
| `Routing.UserRulesDecide` | config/config.go:526-545 | first-match over the compiled user rules is the first user rule that has a condition and applies |
| `Routing.HeadRulesDecide` | config/config.go:470-524 | DNS traffic, then own processes under tun, then private addresses when the LAN is bypassed |
| `Routing.TailRulesDecide` | config/config.go:577-699 | ads to block, then the region to direct, else what follows |
| `Routing.RouteRulesDecide` | config/config.go:465-712 | for all options and connections, first-match over the route list is the plain decision |
| `Routing.HeadTakes` | config/config.go:470-524 | DNS traffic goes to "dns-out", own processes under tun and private addresses to "bypass", whatever the rules |
| `Routing.FirstUserRuleTakes` | config/config.go:526-545 | for any other connection the first user rule that has a condition and applies decides: "bypass", "block", "dns-out" for "proxy", and no outbound for anything else |
| `Routing.NoUserRuleTakes` | config/config.go:577-702 | without one: "block" for the six ad rule sets, "direct" for the region, else Final |
| `Dns.ForcedNameGoesDirect` | config/config.go:114-123 | a query for a forced name is answered by dns-direct, whatever rules follow and in whatever order names are joined |
| `Dns.ForcedRuleIsValidIff` | config/config.go:119-123 | the unchecked first rule has a condition if and only if some joined name carries a recognised item |
| `Dns.RemoteNameAloneIsInvalid` | config/config.go:88-91 | the remote DNS host alone gives a first rule without any condition, which matches every query |
| `Dns.ServerNameIsRecognised` | config/outbound.go:154-159 | a server name always carries a recognised item, even when it contains a comma |
| `Dns.UserDnsRulesDecide` | config/config.go:547-563 | the one or two DNS rules of a user rule, filtered for validity, answer as the user rule says |
| `Dns.DnsRulesDecide` | config/config.go:433-463 | first-match over the user, test, region and fake-IP DNS rules is the plain decision, for all options and queries |
| `Dns.BuiltDnsRulesDecide` | config/config.go:83-126 | the same with the forced rule in front: exactly which queries it takes away, and that it leaves the others alone |
| `Dns.FirstUserRuleAnswers` | config/config.go:547-563 | the first user rule that answers a query decides: "dns-direct", "dns-block", "dns-remote" for "proxy", "dns-fake" for its fake form, and no server for any other outbound |
| `Dns.NoUserRuleAnswers` | config/config.go:566-725 | without one, or without DNS routing: test host, region, fake IP for the tunnel, remote server |
| `Dns.CacheSettings` | config/config.go:547-574 | which rules turn the cache off, and that only the test host's rewrites the TTL, to 3000 |
| `Dns.RemoteNamesAre` | config/config.go:84-91 | the remote host is forced exactly when the text behind the scheme parses to a name; an address adds nothing |
| `Dns.RemoteNamesAreCut` | config/config.go:84-91 | the same when a second separator cuts the text |
| `RandomString.EncodeShape` | config/config.go:839-843 | m bytes become ceil(8m/6) letters followed by padding only |
| `RandomString.LettersAre` | config/config.go:840-840 | the alphabet by code points |
| `RandomString.BytesNeededIs` | config/config.go:829-830 | the bytes drawn are enough for the characters, and one less would not be |
| `RandomString.DecodeOfEncode` | config/config.go:839-840 | decoding an encoding gives back the bytes |
| `RandomString.GenerateRandomString` | config/config.go:828-844 | for every length the slice is in bounds, has that length and holds no padding |
| `RandomString.LetterAt` | config/config.go:839-840 | letter p of an encoding writes exactly bits 6p to 6p + 5 of the bytes |
| `RandomString.SameTextIff` | config/config.go:828-844 | for every length two draws give the same text if and only if their first six bits per character agree |
| `RandomString.LoweredNameIsPlain` | config/warp.go:193-193 | the lower-cased name has the wanted length, no comma, and is its own lower-case form |
| `IpUtils.FillBytesRoundTrip` | pkg/iputils/iputils.go:50-57 | the 16-byte form exists if and only if the number fits, and reads back as the number |
| `IpUtils.BytesOfBytes` | pkg/iputils/iputils.go:50-57 | reading bytes as a number and writing it again gives the bytes |
| `IpUtils.As16` | pkg/iputils/iputils.go:47-50 | every valid address has a 16-byte form that reads as its number |
| `IpUtils.BlockFits` | pkg/iputils/iputils.go:36-54 | start plus any draw stays inside the address space of the family |
| `IpUtils.DrawnAddress` | pkg/iputils/iputils.go:22-64 | the result is start plus draw, inside the prefix, and only then unmapped |
| `IpUtils.FailsOnlyForInvalidOrMapped` | pkg/iputils/iputils.go:22-64 | it fails exactly for an invalid prefix or one starting at a mapped address, and never panics |
| `IpUtils.StaysInPrefixIff` | pkg/iputils/iputils.go:22-64 | every draw stays in the prefix and its family if and only if the prefix does not contain ::ffff:0:0 |
| `IpUtils.EveryAddressReachable` | pkg/iputils/iputils.go:43-63 | every address of the prefix that is not mapped is the result of some draw |
| `IpUtils.DrawsAreInjective` | pkg/iputils/iputils.go:43-63 | different draws below the size give different addresses |
| `IpUtils.ContainsIff` | pkg/iputils/iputils.go:22-64 | an address is in a prefix exactly when it is of its family and its first bits are those of the prefix, bit by bit |
| `IpUtils.FullLengthPrefix` | pkg/iputils/iputils.go:36-63 | a prefix of full length yields its one address for every draw |
| `IpUtils.BytesOfIpv4` | pkg/iputils/iputils.go:47-50 | the sixteen bytes of an IPv4 address, highest first |
| `IpUtils.MappedAre` | pkg/iputils/iputils.go:63-63 | which addresses are mapped, and what unmapping leaves |
| `WarpEndpoint.WarpPrefixesAreProper` | pkg/warp/endpoint.go:11-23 | each Warp block meets the conditions under which random addresses stay inside |
| `WarpEndpoint.WarpBlocksHold` | pkg/warp/endpoint.go:11-23 | the blocks hold exactly the 256 addresses of each of the seven IPv4 blocks, and the IPv6 addresses with one of two beginnings |
| `WarpEndpoint.EveryPortIsDrawn` | pkg/warp/endpoint.go:45-108 | each of the 54 ports is the result of some draw |
| `WarpEndpoint.RandomWarpPrefix` | pkg/warp/endpoint.go:25-43 | the loop returns the first drawn block of a wanted family and ends as soon as one is drawn; without a family it panics |
| `WarpEndpoint.RandomWarpEndpoint` | pkg/warp/endpoint.go:110-117 | it always succeeds with an address of a Warp block, of a wanted family, and a Warp port |
| `Warp.WireGuardToSingbox` | config/warp.go:32-66 | outcome for every client id length and local address, and the addresses in order |
| `Warp.GenerateWarpSingbox` | config/warp.go:90-116 | the reassignments of the parameters amount to the specified defaults |
| `Warp.WarpWireGuardShape` | config/warp.go:32-116 | it panics exactly for a two-byte client id; a result has a host, three reserved bytes, its account's key and complete fake-packet settings |
| `Warp.GeneratedFields` | config/warp.go:32-116 | exactly when an account gives an outbound, and every field of it |
| `Warp.ExpandedFields` | config/warp.go:149-184 | which account a Warp entry takes, and every field of the outbound it becomes |
| `Warp.OnlyEntriesExpand` | config/warp.go:149-150 | anything else is left as it is |
| `Warp.FinalFields` | config/warp.go:186-219 | placeholders and blocked hosts are replaced, by a fixed address over a detour and else by a new name; host and MTU otherwise, and all other fields, stay |
| `Warp.WarpTarget.Patch` | config/warp.go:148-226 | the outbound and the address map updated in place end as specified, for every outcome; after a panic an expansion that succeeded stays and the map is untouched |
| `Warp.WarpTarget.Expand` | config/warp.go:149-184 | a Warp entry becomes a WireGuard outbound in place, or the error leaves the outbound alone |
| `Warp.WarpTarget.Finish` | config/warp.go:186-222 | host, port, MTU and fake packets updated in place end as specified |
| `Warp.StaticAddressesStored` | config/warp.go:186-206 | an automatic or blocked host without a detour gets a new plain name with the asked-for addresses, all in Warp blocks, other entries unchanged |
| `Warp.NilMapWriteIff` | config/warp.go:186-206 | a nil map is written to exactly for a final detour-less WireGuard outbound that needs a name |
| `Warp.PatchKeeps` | config/warp.go:148-226 | tag, members and the fields of other types never change; key and detour come from the expansion |
| `Warp.FinalOutboundIsConcrete` | config/warp.go:186-219 | a final outbound has a host that is no placeholder and a port; behind a detour it sends no fake packets and its MTU shrinks, else both stay |
| `Warp.ParsedPortIsIgnored` | config/warp.go:153-153 | the port of a Warp entry that was decoded from JSON is never used: the outbound gets a random Warp port |
| `Outbounds.WarpOutboundShape` | config/config.go:152-167 | the Warp outbound is emitted when asked for unless generating it fails: the nil map it is patched with is never written |
| `Outbounds.ModesAre` | config/config.go:135-162 | which mode is on, from the options and the accounts the input brings |
| `Outbounds.MainTagIs` | config/config.go:132-163 | the main-proxy tag a build leaves, from options and input |
| `Outbounds.EmittedWarpFields` | config/config.go:152-165 | every field of the emitted Warp outbound |
| `Outbounds.KeptIff` | config/config.go:179-192 | which inputs are kept, by type |
| `Outbounds.KeptTakeDetour` | config/config.go:729-778 | of those, all but Xray outbounds take a detour over Warp |
| `Outbounds.HiddenIff` | config/config.go:187-189 | which tags are left out of the groups |
| `Outbounds.KeptInOrder` | config/config.go:168-193 | kept outbounds are the kept inputs in input order with unchanged tags, and but for WireGuard unchanged up to an added detour; the groups list those not hidden |
| `Outbounds.ServerNamesGathered` | config/config.go:169-176 | a name is forced if and only if some input outbound ends up with that host name, kept or dropped |
| `Outbounds.NewNamesHoldFamilies` | config/config.go:168-176 | at the end of the loop each name made up holds exactly the families that the last outbound with that name asked for; all other entries are as before |
| `Outbounds.NewNamesHaveAddresses` | config/config.go:168-176 | each name made up is the server of its outbound and has addresses, also when it was drawn twice |
| `Outbounds.WarpKeyIsUnique` | config/config.go:135-167 | when Warp is emitted no outbound from the input has its private key, given that other accounts have other keys |
| `Outbounds.FirstAccountEntryBlocksWarp` | config/config.go:135-151 | a first-account entry keeps Warp out both as it stands and as the parser expands it |
| `Outbounds.GatherOkIff` | config/config.go:168-193 | the loop succeeds if and only if each input outbound is accepted on its own; the shared map is never nil there |
| `Graph.BuildSucceedsIff` | config/config.go:128-263 | a build succeeds if and only if the Warp outbound it asks for can be generated and every input outbound is accepted |
| `Graph.PlainInputBuilds` | config/config.go:128-263 | every list of outbounds without Warp entries has a successful build, so the theorems about builds speak of it |
| `Graph.EmittedTags` | config/config.go:223-259 | the emitted tags are the fixed ones, Warp's when it is emitted, and those of the kept inputs |
| `Graph.OutsInOrder` | config/config.go:223-259 | the tags of the emitted list in order |
| `Graph.OwnTypes` | config/config.go:195-259 | an outbound under a tag of the compiler that no kept input shares is of the type the tag stands for: "block" blocks, "direct", "bypass" and "direct-fragment" are direct, "dns-out" is DNS |
| `Graph.OwnTagIsThere` | config/config.go:195-259 | each of those tags is there in every build |
| `Graph.ModeEdges` | config/config.go:152-167 | in each mode, what Warp goes over and what goes over Warp; without a mode no Warp outbound is added |
| `Graph.EdgeIff` | config/config.go:158-234 | edge by edge, the graph is the one that options and input describe: groups to visible kept inputs, Warp to the selector or to direct, own detours, and added ones |
| `Graph.ClosedIff` | config/config.go:128-263 | every reference is to an emitted outbound if and only if each kept input's own detour is |
| `Graph.AcyclicIffInputIs` | config/config.go:128-263 | with no condition on tags or detours, the graph is acyclic if and only if the edges that options and input describe are |
| `Graph.AcyclicIffOwnDetoursAre` | config/config.go:128-263 | in every Warp mode, when no kept input carries a tag of the compiler or itself detours to the selector, the url test or an emitted Warp outbound, the graph is acyclic if and only if the input's own detours, dangling or not, are well-founded |
| `Graph.DetourlessInputIff` | config/config.go:128-263 | without detours in the input the graph is closed, and acyclic if and only if no input tag clashes |
| `Graph.NoReferenceCycle` | config/config.go:128-263 | in an acyclic configuration no path of references returns to its start |
| `Builder.Compiler.SetRoutingOptions` | config/config.go:465-727 | the appended route and DNS rules are the specified lists, and Final is the tag found on entry |
| `Builder.Compiler.SetFakeDns` | config/config.go:433-463 | one rule is appended after all others, under fake DNS only |
| `Builder.Compiler.AddForceDirect` | config/config.go:83-126 | for some order of the map's keys the forced rule is put first, if there is a name at all |
| `Builder.Compiler.PatchOutbound` | config/outbound.go:133-180 | the patched outbound, the server name to force, and the addresses added to the shared map |
| `Builder.Compiler.AddWarp` | config/config.go:152-165 | the Warp outbound with its detour, and when the main-proxy tag changes |
| `Builder.Compiler.SetOutbounds` | config/config.go:128-263 | outcome, outbounds, addresses, DNS rules and the main-proxy tag after the pass, failed or not |
| `Builder.Compiler.BuildConfig` | config/config.go:60-82 | the whole result of a build, and that Final is the tag left by the build before it in any sequence of builds |
| `Builder.KeepsWarp` | config/config.go:135-151 | the scan with its early exits turns Warp off if and only if some input outbound brings the account |
| `Builder.AddUserRules` | config/config.go:526-564 | one loop builds both lists of rules |
| `Builder.AddGlobalRules` | config/config.go:566-699 | the interleaved appends give the test, ad and region rules in order |
| `Builder.ServerNameGoesDirect` | config/config.go:83-126 | in a built configuration a query for the server of any input outbound is answered by dns-direct, for every order of the map |
| `Builder.FirstDnsRuleIsValidIff` | config/config.go:83-126 | the first DNS rule has a condition if and only if some server is a host name or the remote host carries an item |
| `Builder.ForcedNamesAre` | config/config.go:83-126 | the forced keys of a build are "full:" with each server that is a name, and the remote host if it is one; no others |
| `Builder.AddressesForceNothing` | config/config.go:83-126 | with addresses only nothing is forced and every query is decided by the options |
| `Builder.DecisionEndsAt` | config/config.go:223-259 | what is blocked ends at outbounds of type block, what bypasses or goes direct at direct ones, what goes to dns-out at the DNS one |
| `Builder.ResolvedAddressesStay` | config/config.go:427-430 | the addresses resolved for the DNS trick host are in the options at the end of every build |
| `Builder.FinalNamesEmittedIff` | config/config.go:70-76 | over any sequence of builds, exactly when Final names an emitted outbound |
| `Builder.FinalCanDangle` | config/config.go:700-702 | a build with Warp over the proxies, then one without: Final names nothing |
| `Builder.RouteTargetsEmittedIff` | config/config.go:526-545 | every route rule has an emitted target if and only if the conditioned user rules name known outbounds |
| `Dns.DnsServersExistIff` | config/config.go:547-563 | every DNS rule of a build names a server of the configuration if and only if DNS routing is off or each user rule with a domain names a known outbound |
| `Parser.ReachedResults` | config/parser.go:95-106 | in every reachable state the stored results are those of finished tasks |
| `Parser.TwoWorkersAtMost` | config/parser.go:95-95 | no interleaving has more than two tasks under way |
| `Parser.OneByOneReached` | config/parser.go:95-106 | every order of the tasks, one after the other, is an interleaving of the batch |
| `Parser.EveryInterleavingDeliversIff` | config/parser.go:95-114 | every complete interleaving gives each task its own result if tasks with one key agree, and none does if they do not |
| `Parser.AnyResultCanSurvive` | config/parser.go:95-114 | any task's result is the one kept for its key in some complete interleaving |
| `Parser.StoreResults` | config/parser.go:110-112 | the loop puts under each position the result stored for the tag it had |
| `Parser.ParserOnlyExpands` | config/parser.go:98-99 | the parser expands Warp entries and does nothing else: placeholders, ports and detours stay |
| `Parser.BatchIsSequentialIff` | config/parser.go:95-114 | every complete interleaving gives the sequential patching of the list, in order, if and only if outbounds with one tag are patched to the same outbound |
| `Parser.DistinctTagsAgree` | config/parser.go:95-114 | distinct tags meet that condition |
| `Parser.SharedTagKeepsOne` | config/parser.go:95-114 | of two different plain outbounds with one tag every complete interleaving puts the same one in both places, and either can be the one |
| `Tricks.OutboundObject.PatchTlsTricks` | config/outbound.go:29-101 | object and base tricks after the pass, or the panic, for every kind of outbound |
| `Tricks.OutboundObject.PatchMux` | config/outbound.go:14-27 | the multiplex entry is set in place only for the four types and only when enabled |
| `Tricks.PassesFrame` | config/outbound.go:14-115 | both passes change five keys of the object and two of its TLS object at most |
| `Tricks.ExemptOutbounds` | config/outbound.go:31-36 | reality VLESS, group, block and DNS outbounds keep everything but multiplex |
| `Tricks.MuxWrites` | config/outbound.go:14-27 | multiplex is written for VMess, VLESS, Trojan and Shadowsocks when it is on, with these values, and else left |
| `Tricks.FragmentsWritten` | config/outbound.go:103-115 | fragments and fast open are written for direct outbounds and those that get tricks, with these values, and else left |
| `Tricks.XrayFragments` | config/outbound.go:50-62 | the Xray form of fragments, when it is left, and exactly when the pass panics |
| `Tricks.TricksWritten` | config/outbound.go:67-93 | which outbounds get tricks, which values, and the fingerprint that comes with padding |
| `Tricks.TricksWrittenThrough` | config/outbound.go:77-86 | when the outbound itself is changed through its tricks, and to what |
| `Tricks.SwitchesOffKeepObject` | config/outbound.go:29-101 | with every switch off nothing changes, but that an eligible object gets its own tricks written out |
| `Tricks.OwnTricksSurviveIff` | config/outbound.go:77-93 | an outbound's own tricks survive exactly when mixed case is on already or not asked for, and padding is off or already random and of the size asked for |
| `Tricks.TlsPassIdempotent` | config/outbound.go:29-101 | a second TLS pass changes nothing, also from the base the first pass wrote through |
| `Tricks.PassesIdempotent` | config/outbound.go:161-166 | both passes together are idempotent |
| `LifecycleProofs.StopAndAlertKeeps` | v2/custom.go:26-44 | StopAndAlert keeps every invariant at every moment and ends stopped, without a box, serving nothing |
| `LifecycleProofs.StartServiceKeeps` | v2/custom.go:73-155 | it ends started with a box, or stopped at rest with an error, or in a panic, keeping every invariant on the way |
| `LifecycleProofs.StopKeeps` | v2/custom.go:263-313 | a stop keeps every invariant; when it reports no error or recovered from a panic the core is stopped at rest |
| `LifecycleProofs.PerformKeeps` | v2/custom.go:50-350 | every entry point keeps the invariants and ends at rest unless the process ends |
| `LifecycleProofs.StartedCoreHasBox` | v2/custom.go:26-350 | in every run with any failures: a started core has a box at every moment, a stopped one has none between operations, nothing ends starting, and the instance-not-found replies never occur |
| `LifecycleProofs.NoServerServesClosedBox` | v2/old_command_server.go:16-33 | in runs whose direct StartService calls, if any, find nothing served: at no moment does any command server serve a closed, closing or replaced box; between operations only a started core's current box is served |
| `LifecycleProofs.AnnouncedStatesFollowAutomaton` | v2/coreinfo.go:15-34 | in runs without direct StartService calls the announced states are a word of the automaton and the last one is the core's state |
| `LifecycleProofs.BoxesAreAccountedFor` | v2/custom.go:32-35 | when closing never fails, in runs whose direct StartService calls, if any, find no box: boxes started are boxes closed plus the current one, and no moment has two live boxes |
| `LifecycleProofs.StoppedCoreMayBeStarted` | v2/custom.go:70-72 | direct calls made only while the core is stopped find neither a box nor anything served, so both results hold for them |
| `LifecycleProofs.NoBoxIsForgotten` | v2/custom.go:140-147 | in every run at all, boxes started are boxes closed plus the live ones, and the current box is live |
| `LifecycleProofs.StartReportsTheCore` | v2/custom.go:50-69 | a start that returns reports no error if and only if the core is started |
| `LifecycleProofs.ReloadStopsTheCore` | v2/old_command_server.go:16-33 | when the empty path cannot be read a reload leaves the core stopped, its path forgotten, and an error |
| `DirectStarts.RunKeepsIff` | v2/custom.go:26-350 | in every run at all, each of the three properties holds at every moment if and only if every direct call fits it: it fails (automaton), it makes no server and starts no box while one is served (serving), it starts no box over another (accounting, closings that work) |
| `DirectStarts.StartKeepsAccountsIff` | v2/custom.go:73-155 | a start that succeeds keeps the live boxes to the current one if and only if none is live on entry: where they were in order, if and only if there is no box |
| `DirectStarts.StartKeepsServingIff` | v2/custom.go:147-150 | a start that succeeds keeps only the current box served if and only if nothing is served on entry |
| `DirectStarts.StartKeepsWordIff` | v2/custom.go:73-155 | a start keeps the announcements a word if and only if it fails or the core is starting |
| `DirectStarts.DirectStartKeepsWordIff` | v2/custom.go:70-72 | from every state between operations a direct start leaves the automaton if and only if it succeeds |
| `DirectStarts.SuccessShape` | v2/custom.go:126-154 | all that a start that succeeds changes: a new box, live and current, served by a new server if one was asked for; nothing is closed and old servers go on serving |
| `DirectStarts.FailureShape` | v2/custom.go:73-146 | a start that fails announces the reason it replies with and then the alert, and nothing else |
| `Outcomes.StartOutcome` | v2/custom.go:73-155 | a start succeeds exactly when every call of its written-out plan works at its clock; else the first that does not decides, by its panic or with its own message in announcement and reply |
| `Outcomes.StartWithoutOptions` | v2/custom.go:98-100 | a request that is not raw panics at building when options were never set, unless reading or parsing fails first |
| `Outcomes.OptionsSetIff` | v2/custom.go:204-234 | options are set in a run exactly once an operation that sets them was made |
| `Outcomes.StartPath` | v2/custom.go:76-114 | the configuration path a start leaves |
| `Outcomes.StopOutcome` | v2/custom.go:263-313 | the same for a stop: which calls must work, the replies of its errors, and when a panic becomes the alert |
| `Outcomes.AlertOutcome` | v2/custom.go:26-44 | the alert ends well exactly when none of its calls panics, and has then made them all |
| `Outcomes.OpStartOutcome` | v2/custom.go:50-69 | a start from each state, with its announcement, its stop and its recovery |
| `Outcomes.RestartOutcome` | v2/custom.go:317-350 | a restart for each way its stop can end |
| `Outcomes.ReloadOutcome` | v2/old_command_server.go:16-33 | a reload succeeds exactly when its calls do not panic and every call of a start from the empty path works |
| `Outcomes.GuardedCallOutcome` | v2/custom.go:160-258 | parsing and generating for each way the call can end |
| `DirectStarts.StartLeavesOneBoxIff` | v2/custom.go:50-69 | Start, when it succeeds, leaves one live box if and only if its own stop has left none; from a core stuck stopping with a box it never does |
| `DirectStarts.OneBoxLiveIff` | v2/custom.go:26-350 | in every run, with closings that fail too, at most one box is live at every moment if and only if no operation starts a box while one is live |
| `DirectStarts.DirectStartLeavesAutomaton` | v2/custom.go:70-72 | a run that shows it: the first direct start |
| `DirectStarts.DirectStartsLeaveTwoBoxes` | v2/custom.go:147-147 | a run that shows it: two direct starts leave two live boxes |
| `DirectStarts.DirectStartsServeReplacedBox` | v2/old_command_server.go:48-53 | a run that shows it: after two direct starts the first server serves the replaced, live box |
| `DirectStarts.FailedClosingLeavesTwoBoxes` | v2/custom.go:290-297 | a run that shows it: a start, a stop whose closing fails, and a start leave two live boxes |
| `CommandServers.AlertClosesAgainIff` | v2/custom.go:36-38 | the alert keeps the variable and loses no server; when it ends, it has closed one twice if and only if the current one was closed before |
| `CommandServers.StopClosesAgainIff` | v2/custom.go:299-309 | a stop loses no server however it ends; one that works leaves none and closed one twice if and only if the current one was closed before |
| `CommandServers.StartServiceLoses` | v2/custom.go:115-124 | however a start ends, it leaves a server listening that no variable holds if and only if it replaced one that listens |
| `CommandServers.ReloadLoses` | v2/old_command_server.go:20-23 | a reload that does not panic leaves the server it found, if that listens, listening with no variable to close it by; it loses no other |
| `CommandServers.PerformLoses` | v2/custom.go:26-350 | exactly which servers any operation leaves listening so, and that none ever comes back |
| `CommandServers.NoServerLostIff` | v2/old_command_server.go:16-53 | in every run the only server that listens is the current one, if and only if no reload found one that listens and no start replaced one |
| `Lifecycle.Core.constructor` | v2/custom.go:18-24 | the package's variables begin as the runs of the theorems do |
| `Lifecycle.Core.SetCoreStatus` | v2/coreinfo.go:15-34 | the state is set and announced with its message type as one step |
| `Lifecycle.Core.StopAndAlert` | v2/custom.go:26-44 | the variables after it, for every outcome of its calls |
| `Lifecycle.Core.Recover` | v2/custom.go:51-54 | a panic becomes a stop, and one out of that stop goes on |
| `Lifecycle.Core.Start` | v2/custom.go:50-69 | the variables and the ending of a start, including the stop before it |
| `Lifecycle.Core.StartService` | v2/custom.go:73-155 | the same for every stage at which it can end |
| `Lifecycle.Core.Stop` | v2/custom.go:263-313 | the same for a stop |
| `Lifecycle.Core.Restart` | v2/custom.go:317-350 | the same for a restart, which goes on after a stop that recovered |
| `Lifecycle.Core.StartCommandServer` | v2/old_command_server.go:48-53 | the variable is overwritten before the server is known to start |
| `Lifecycle.Core.ServiceReload` | v2/old_command_server.go:16-33 | the variables and the ending of a reload |
| `Lifecycle.Core.GuardedCall` | v2/custom.go:160-258 | parsing and generating leave the core alone unless they panic |
| `Lifecycle.Core.ServeAll` | v2/custom.go:26-350 | the object serving any requests ends as the run says, and its own history has the invariants |
| `Tunnel.StartTunnelRequest` | config/admin_service_commander.go:79-113 | it ends for every pattern of answers; calls are only added |
| `Tunnel.RequestWithoutInstall` | config/admin_service_commander.go:79-113 | without the right to install it asks once and reports the one start |
| `Tunnel.ServiceRunThenRequest` | config/admin_service_commander.go:156-169 | running the service adds at most one call of each kind and no exit |
| `Tunnel.FailoverIsBounded` | config/admin_service_commander.go:79-169 | two starts, one exit and one of each command at most; success if and only if the last start asked for succeeded |
| `Tunnel.FailoverTrace` | config/admin_service_commander.go:79-169 | every call of an activation, in order, for every pattern of answers |
| `Tunnel.StopTunnelRequest` | config/admin_service_commander.go:115-134 | only stops are sent, a second one exactly when the first fails, and the result is that of the first |
| `Tunnel.Commander.Activate` | config/admin_service_commander.go:30-38 | the flag is set and success reported, whatever the failover request it starts in the background yields |
| `Tunnel.Commander.Deactivate` | config/admin_service_commander.go:42-59 | a stop is sent in any case; the flag is cleared only by one that fails while it is set |

## Left out

- Strings.ToLower: maps ASCII letters only; other letters are left as they are.
- Options.Env: DNS lookups, `net.ParseIP`, `netip.ParsePrefix` and `url.Parse` are functions that are given; the
  theorems hold for all of them.
- Outbounds.InputDraw: patchOutbound's marshalling of an outbound to JSON and back is the identity or an error.
- Tricks.OutboundObject: the passes are modelled over the JSON object; that the emitted outbound carries them after the
  JSON round trip is not part of the compiler's graph model. A tricks pointer is stored by value.
- IpUtils.RandomIpFromPrefix: random numbers are arguments, and the generator's distribution is not modelled.
- WarpEndpoint.RandomWarpPrefix: requires draws of which one has the wanted family; endless draws that miss it forever
  are not modelled.
- RandomString.GenerateRandomString: the fallback text "hiddify" for a failing random source is not modelled.
- Warp.WarpKeys: the client id is given as decoded bytes; decoding it and the registration of devices with the Warp
  service are inputs.
- Tunnel.StartTunnelRequest: a failing `grpc.Dial` is not modelled.
- Tunnel.Commander.Activate: what runs in the background is modelled as the calls it makes, not its interleaving with
  other requests; the same holds for the stop that `Deactivate` sends in the background.
- Parser.BatchIsSequential: a task that fails cancels the batch; only batches without a failing task are modelled. The
  detection and conversion of subscription formats before `patchConfig` are not modelled.
- Lifecycle.Core.SetCoreStatus: the text of an announcement is not modelled, nor is the copy sent over the Flutter bridge.
- Builder.Compiler.PatchOutbound: the TLS-trick and multiplex passes are proved over the JSON object in `Tricks`; the
  outbound of the graph model does not carry what they write.
- LifecycleSpec.Oracle: `SetService(box)` and the observers do not fail except by panicking; log output, the Flutter
  bridge and delays are not modelled. An object that failed to start is not live.
- LifecycleSpec.Run: operations are sequential; concurrent requests on the package's unguarded variables, and the
  unsynchronised restarts of `updateConfigInterval`, are not modelled.
- The selector's Default field: it is the url-test tag, or a literal that names no outbound.
- Log, Clash API, inbounds, DNS servers, rule-set downloads, fake-IP ranges and timing options: constants copied into the
  configuration.
- EnableFullConfig: it copies the input's inbounds, DNS and route; setDns and setRoutingOptions replace the latter two,
  and inbounds are not modelled.
- The single-object JSON branch of `ParseConfigContent`.
- gRPC and protobuf code, the mobile and desktop bridges, commands, certificates and profile storage.
