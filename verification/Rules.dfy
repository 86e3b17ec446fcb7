/** config/rules.go: a user rule, the route rule and the DNS rule compiled from it, and what they match. */
module Rules {
  import opened Wrappers
  import opened Strings

  datatype Rule = Rule(ruleSetUrl: string, domains: string, ip: string, port: string,
                       network: string, protocol: string, outbound: string)

  datatype DefaultRule = DefaultRule(
    inbound: seq<string>, network: seq<string>, protocol: seq<string>,
    domain: seq<string>, domainSuffix: seq<string>, domainKeyword: seq<string>, domainRegex: seq<string>,
    geosite: seq<string>, geoip: seq<string>, ipCidr: seq<string>, ipIsPrivate: bool,
    port: seq<int>, portRange: seq<string>, processName: seq<string>, ruleSet: seq<string>,
    outbound: string)
  {
    /** option.DefaultRule.IsValid: some condition is present; the outbound is not a condition. */
    predicate IsValid() {
      this != EMPTY_RULE.(outbound := outbound)
    }
  }

  datatype DefaultDnsRule = DefaultDnsRule(
    inbound: seq<string>, domain: seq<string>, domainSuffix: seq<string>, domainKeyword: seq<string>,
    domainRegex: seq<string>, geosite: seq<string>, ruleSet: seq<string>,
    server: string, disableCache: bool, rewriteTtl: Option<nat>)
  {
    /** option.DefaultDNSRule.IsValid: server, cache and TTL settings are not conditions. */
    predicate IsValid() {
      this != EMPTY_DNS_RULE.(server := server, disableCache := disableCache, rewriteTtl := rewriteTtl)
    }
  }

  const EMPTY_RULE := DefaultRule([], [], [], [], [], [], [], [], [], [], false, [], [], [], [], "")
  const EMPTY_DNS_RULE := DefaultDnsRule([], [], [], [], [], [], [], "", false, None)

  // ---------------------------------------------------------------- items of a rule text

  datatype DomainKind = Geosite | Full | Suffix | Regexp | Keyword

  function KindPrefix(kind: DomainKind): string {
    match kind
    case Geosite => "geosite:"
    case Full => "full:"
    case Suffix => "domain:"
    case Regexp => "regexp:"
    case Keyword => "keyword:"
  }

  /** The kind a domain item is recognised as, if any. */
  function Classify(item: string): Option<DomainKind> {
    if HasPrefix(item, "geosite:") then Some(Geosite)
    else if HasPrefix(item, "full:") then Some(Full)
    else if HasPrefix(item, "domain:") then Some(Suffix)
    else if HasPrefix(item, "regexp:") then Some(Regexp)
    else if HasPrefix(item, "keyword:") then Some(Keyword)
    else None
  }

  /** The pattern a recognised item carries: geosite names keep their case, the others are lowered. */
  function Pattern(item: string, kind: DomainKind): string {
    var bare := TrimPrefix(item, KindPrefix(kind));
    if kind.Geosite? then bare else ToLower(bare)
  }

  /** The patterns of one kind, in the order of the items. */
  function Picked(items: seq<string>, kind: DomainKind): seq<string> {
    if items == [] then []
    else
      var last := items[|items| - 1];
      Picked(items[..|items| - 1], kind) + (if Classify(last) == Some(kind) then [Pattern(last, kind)] else [])
  }

  function Recognised(items: seq<string>): nat {
    if items == [] then 0
    else Recognised(items[..|items| - 1]) + (if Classify(items[|items| - 1]).Some? then 1 else 0)
  }

  function GeoIps(items: seq<string>): seq<string> {
    if items == [] then []
    else
      var last := items[|items| - 1];
      GeoIps(items[..|items| - 1]) + (if HasPrefix(last, "geoip:") then [TrimPrefix(last, "geoip:")] else [])
  }

  function Cidrs(items: seq<string>): seq<string> {
    if items == [] then []
    else
      var last := items[|items| - 1];
      Cidrs(items[..|items| - 1]) + (if HasPrefix(last, "geoip:") then [] else [last])
  }

  function PortRanges(items: seq<string>): seq<string> {
    if items == [] then []
    else
      var last := items[|items| - 1];
      PortRanges(items[..|items| - 1]) + (if Contains(last, ":") then [last] else [])
  }

  /** The port number of an item; the conversion to uint16 keeps the low 16 bits of a number out of range. */
  function PortOf(item: string): Option<int> {
    if Contains(item, ":") then None
    else match Atoi(item) case Some(i) => Some(i % 0x1_0000) case None => None
  }

  function Ports(items: seq<string>): seq<int> {
    if items == [] then []
    else
      var port := PortOf(items[|items| - 1]);
      Ports(items[..|items| - 1]) + (if port.Some? then [port.value] else [])
  }

  // ---------------------------------------------------------------- the compiled rules

  function ItemsUnlessEmpty(text: string): seq<string> {
    if |text| > 0 then Split(text, ',') else []
  }

  /** What MakeRule computes, list by list. */
  function Compiled(r: Rule): DefaultRule {
    var domains := ItemsUnlessEmpty(r.domains);
    var ips := ItemsUnlessEmpty(r.ip);
    var ports := ItemsUnlessEmpty(r.port);
    EMPTY_RULE.(
    domain := Picked(domains, Full), domainSuffix := Picked(domains, Suffix),
    domainKeyword := Picked(domains, Keyword), domainRegex := Picked(domains, Regexp),
    geosite := Picked(domains, Geosite),
    geoip := GeoIps(ips), ipCidr := Cidrs(ips),
    port := Ports(ports), portRange := PortRanges(ports),
    network := if |r.network| > 0 then [r.network] else [],
    protocol := ItemsUnlessEmpty(r.protocol))
  }

  /** What MakeDNSRule computes: the domain items only, split even when the text is empty. */
  function CompiledDns(r: Rule): DefaultDnsRule {
    var domains := Split(r.domains, ',');
    EMPTY_DNS_RULE.(
    domain := Picked(domains, Full), domainSuffix := Picked(domains, Suffix),
    domainKeyword := Picked(domains, Keyword), domainRegex := Picked(domains, Regexp),
    geosite := Picked(domains, Geosite))
  }

  /** One more item extends the list of its kind by its pattern and leaves the other lists alone. */
  lemma PickedNext(list: seq<string>, i: nat, kind: DomainKind)
    requires i < |list|
    ensures Picked(list[..i + 1], kind)
         == Picked(list[..i], kind) + (if Classify(list[i]) == Some(kind) then [Pattern(list[i], kind)] else [])
  {
    assert list[..i + 1][..i] == list[..i];
  }

  /** The same for a list that is appended to others. */
  lemma AppendedNext(base: seq<string>, list: seq<string>, i: nat, kind: DomainKind)
    requires i < |list|
    ensures base + Picked(list[..i + 1], kind)
         == base + Picked(list[..i], kind)
            + (if Classify(list[i]) == Some(kind) then [Pattern(list[i], kind)] else [])
  {
    PickedNext(list, i, kind);
  }

  ghost predicate WithDomains(options: DefaultRule, list: seq<string>, rule: DefaultRule) {
    && rule.geosite == options.geosite + Picked(list, Geosite)
    && rule.domain == options.domain + Picked(list, Full)
    && rule.domainSuffix == options.domainSuffix + Picked(list, Suffix)
    && rule.domainRegex == options.domainRegex + Picked(list, Regexp)
    && rule.domainKeyword == options.domainKeyword + Picked(list, Keyword)
    && options == rule.(geosite := options.geosite, domain := options.domain, domainSuffix := options.domainSuffix,
                  domainRegex := options.domainRegex, domainKeyword := options.domainKeyword)
  }

  method MakeDomainRule(options: DefaultRule, list: seq<string>) returns (rule: DefaultRule)
    ensures WithDomains(options, list, rule)
  {
    rule := options;
    for i := 0 to |list|
      invariant WithDomains(options, list[..i], rule)
    {
      var item := list[i];
      AppendedNext(options.geosite, list, i, Geosite);
      AppendedNext(options.domain, list, i, Full);
      AppendedNext(options.domainSuffix, list, i, Suffix);
      AppendedNext(options.domainRegex, list, i, Regexp);
      AppendedNext(options.domainKeyword, list, i, Keyword);
      if HasPrefix(item, "geosite:") {
        rule := rule.(geosite := rule.geosite + [TrimPrefix(item, "geosite:")]);
      } else if HasPrefix(item, "full:") {
        rule := rule.(domain := rule.domain + [ToLower(TrimPrefix(item, "full:"))]);
      } else if HasPrefix(item, "domain:") {
        rule := rule.(domainSuffix := rule.domainSuffix + [ToLower(TrimPrefix(item, "domain:"))]);
      } else if HasPrefix(item, "regexp:") {
        rule := rule.(domainRegex := rule.domainRegex + [ToLower(TrimPrefix(item, "regexp:"))]);
      } else if HasPrefix(item, "keyword:") {
        rule := rule.(domainKeyword := rule.domainKeyword + [ToLower(TrimPrefix(item, "keyword:"))]);
      }
    }
    assert list[..|list|] == list;
  }

  method MakeIpRule(options: DefaultRule, list: seq<string>) returns (rule: DefaultRule)
    ensures rule == options.(geoip := options.geoip + GeoIps(list), ipCidr := options.ipCidr + Cidrs(list))
  {
    rule := options;
    for i := 0 to |list|
      invariant rule == options.(geoip := options.geoip + GeoIps(list[..i]),
                        ipCidr := options.ipCidr + Cidrs(list[..i]))
    {
      var item := list[i];
      assert list[..i + 1][..i] == list[..i];
      if HasPrefix(item, "geoip:") {
        rule := rule.(geoip := rule.geoip + [TrimPrefix(item, "geoip:")]);
      } else {
        rule := rule.(ipCidr := rule.ipCidr + [item]);
      }
    }
    assert list[..|list|] == list;
  }

  method MakePortRule(options: DefaultRule, list: seq<string>) returns (rule: DefaultRule)
    ensures rule == options.(port := options.port + Ports(list), portRange := options.portRange + PortRanges(list))
  {
    hide Contains, Atoi;
    rule := options;
    for i := 0 to |list|
      invariant rule == options.(port := options.port + Ports(list[..i]),
                        portRange := options.portRange + PortRanges(list[..i]))
    {
      var item := list[i];
      assert list[..i + 1][..i] == list[..i];
      if Contains(item, ":") {
        rule := rule.(portRange := rule.portRange + [item]);
      } else {
        var number := Atoi(item);
        if number.Some? {
          rule := rule.(port := rule.port + [number.value % 0x1_0000]);
        }
      }
    }
    assert list[..|list|] == list;
  }

  /** A rule without domain items is the empty rule with those items' lists put in. */
  lemma EmptyRuleWithDomains(list: seq<string>, rule: DefaultRule)
    requires WithDomains(EMPTY_RULE, list, rule)
    ensures rule == EMPTY_RULE.(
                    domain := Picked(list, Full), domainSuffix := Picked(list, Suffix),
                    domainKeyword := Picked(list, Keyword), domainRegex := Picked(list, Regexp),
                    geosite := Picked(list, Geosite))
  {
  }

  lemma NoItemsNoLists()
    ensures forall kind :: Picked([], kind) == []
    ensures GeoIps([]) == Cidrs([]) == PortRanges([]) == []
    ensures Ports([]) == []
  {
  }

  method MakeRule(r: Rule) returns (rule: DefaultRule)
    ensures rule == Compiled(r)
  {
    NoItemsNoLists();
    hide Split, Picked, GeoIps, Cidrs, Ports, PortRanges;
    rule := EMPTY_RULE;
    if |r.domains| > 0 {
      rule := MakeDomainRule(rule, Split(r.domains, ','));
    }
    EmptyRuleWithDomains(ItemsUnlessEmpty(r.domains), rule);
    if |r.ip| > 0 {
      rule := MakeIpRule(rule, Split(r.ip, ','));
    }
    assert rule.geoip == GeoIps(ItemsUnlessEmpty(r.ip)) && rule.ipCidr == Cidrs(ItemsUnlessEmpty(r.ip));
    if |r.port| > 0 {
      rule := MakePortRule(rule, Split(r.port, ','));
    }
    assert rule.port == Ports(ItemsUnlessEmpty(r.port)) && rule.portRange == PortRanges(ItemsUnlessEmpty(r.port));
    if |r.network| > 0 {
      rule := rule.(network := rule.network + [r.network]);
    }
    if |r.protocol| > 0 {
      rule := rule.(protocol := rule.protocol + Split(r.protocol, ','));
    }
  }

  ghost predicate WithNames(list: seq<string>, rule: DefaultDnsRule) {
    && rule.geosite == Picked(list, Geosite) && rule.domain == Picked(list, Full)
    && rule.domainSuffix == Picked(list, Suffix) && rule.domainRegex == Picked(list, Regexp)
    && rule.domainKeyword == Picked(list, Keyword)
    && EMPTY_DNS_RULE == rule.(geosite := [], domain := [], domainSuffix := [], domainRegex := [], domainKeyword := [])
  }

  method MakeDnsRule(r: Rule) returns (rule: DefaultDnsRule)
    ensures rule == CompiledDns(r)
  {
    NoItemsNoLists();
    hide Picked, Split;
    rule := EMPTY_DNS_RULE;
    var domains := Split(r.domains, ',');
    for i := 0 to |domains|
      invariant WithNames(domains[..i], rule)
    {
      var item := domains[i];
      PickedNext(domains, i, Geosite);
      PickedNext(domains, i, Full);
      PickedNext(domains, i, Suffix);
      PickedNext(domains, i, Regexp);
      PickedNext(domains, i, Keyword);
      if HasPrefix(item, "geosite:") {
        rule := rule.(geosite := rule.geosite + [TrimPrefix(item, "geosite:")]);
      } else if HasPrefix(item, "full:") {
        rule := rule.(domain := rule.domain + [ToLower(TrimPrefix(item, "full:"))]);
      } else if HasPrefix(item, "domain:") {
        rule := rule.(domainSuffix := rule.domainSuffix + [ToLower(TrimPrefix(item, "domain:"))]);
      } else if HasPrefix(item, "regexp:") {
        rule := rule.(domainRegex := rule.domainRegex + [ToLower(TrimPrefix(item, "regexp:"))]);
      } else if HasPrefix(item, "keyword:") {
        rule := rule.(domainKeyword := rule.domainKeyword + [ToLower(TrimPrefix(item, "keyword:"))]);
      }
    }
    assert domains[..|domains|] == domains;
  }

  // ---------------------------------------------------------------- properties of the lists

  lemma {:induction false} PickedMembers(items: seq<string>, kind: DomainKind, pattern: string)
    ensures pattern in Picked(items, kind) <==>
            exists item :: item in items && Classify(item) == Some(kind) && Pattern(item, kind) == pattern
  {
    if items != [] {
      var init, last := items[..|items| - 1], items[|items| - 1];
      PickedMembers(init, kind, pattern);
      assert items == init + [last];
    }
  }

  lemma {:induction false} PickedNonempty(items: seq<string>, kind: DomainKind)
    ensures Picked(items, kind) != [] <==> exists item :: item in items && Classify(item) == Some(kind)
  {
    if items != [] {
      var init, last := items[..|items| - 1], items[|items| - 1];
      PickedNonempty(init, kind);
      assert items == init + [last];
    }
  }

  /** Each recognised item lands in exactly one of the five lists. */
  lemma {:induction false} ListLengths(items: seq<string>)
    ensures |Picked(items, Geosite)| + |Picked(items, Full)| + |Picked(items, Suffix)|
            + |Picked(items, Regexp)| + |Picked(items, Keyword)| == Recognised(items)
  {
    if items != [] {
      ListLengths(items[..|items| - 1]);
    }
  }

  /** Lists are built in item order: the list of a concatenation is the concatenation of the lists. */
  lemma {:induction false} PickedInOrder(a: seq<string>, b: seq<string>, kind: DomainKind)
    ensures Picked(a + b, kind) == Picked(a, kind) + Picked(b, kind)
  {
    hide Classify, Pattern;
    if b == [] {
      assert a + b == a;
    } else {
      var init := b[..|b| - 1];
      PickedInOrder(a, init, kind);
      assert (a + b)[..|a + b| - 1] == a + init;
    }
  }

  /** MakeRule and MakeDNSRule read the domain text alike, also when it is empty and only one of them splits it. */
  lemma RouteAndDnsRulesAgree(r: Rule)
    ensures var (route, dns) := (Compiled(r), CompiledDns(r));
            && route.geosite == dns.geosite && route.domain == dns.domain
            && route.domainSuffix == dns.domainSuffix && route.domainRegex == dns.domainRegex
            && route.domainKeyword == dns.domainKeyword
            && |dns.geosite| + |dns.domain| + |dns.domainSuffix| + |dns.domainRegex| + |dns.domainKeyword|
               == Recognised(Split(r.domains, ','))
  {
    ListLengths(Split(r.domains, ','));
    if r.domains == "" {
      assert Split("", ',') == [""];
      assert [""][..0] == [];
      forall kind ensures Picked([""], kind) == [] == Picked([], kind) {
      }
    }
  }

  // ---------------------------------------------------------------- what the items mean, text by text

  lemma GeositeItem(text: string)
    ensures Classify("geosite:" + text) == Some(Geosite) && Pattern("geosite:" + text, Geosite) == text
  {
    assert ("geosite:" + text)[8..] == text;
    hide ToLower;
  }

  lemma FullItem(text: string)
    ensures Classify("full:" + text) == Some(Full) && Pattern("full:" + text, Full) == ToLower(text)
  {
    hide ToLower;
    assert ("full:" + text)[0] == 'f' && ("full:" + text)[5..] == text;
  }

  lemma SuffixItem(text: string)
    ensures Classify("domain:" + text) == Some(Suffix) && Pattern("domain:" + text, Suffix) == ToLower(text)
  {
    hide ToLower;
    assert ("domain:" + text)[0] == 'd' && ("domain:" + text)[7..] == text;
  }

  lemma RegexpItem(text: string)
    ensures Classify("regexp:" + text) == Some(Regexp) && Pattern("regexp:" + text, Regexp) == ToLower(text)
  {
    hide ToLower;
    assert ("regexp:" + text)[0] == 'r' && ("regexp:" + text)[7..] == text;
  }

  lemma KeywordItem(text: string)
    ensures Classify("keyword:" + text) == Some(Keyword) && Pattern("keyword:" + text, Keyword) == ToLower(text)
  {
    hide ToLower;
    assert ("keyword:" + text)[0] == 'k' && ("keyword:" + text)[8..] == text;
  }

  /** The five kinds of item by their prefixes; anything else is not recognised. */
  lemma PrefixedItems(text: string)
    ensures Classify("geosite:" + text) == Some(Geosite) && Pattern("geosite:" + text, Geosite) == text
    ensures Classify("full:" + text) == Some(Full) && Pattern("full:" + text, Full) == ToLower(text)
    ensures Classify("domain:" + text) == Some(Suffix) && Pattern("domain:" + text, Suffix) == ToLower(text)
    ensures Classify("regexp:" + text) == Some(Regexp) && Pattern("regexp:" + text, Regexp) == ToLower(text)
    ensures Classify("keyword:" + text) == Some(Keyword) && Pattern("keyword:" + text, Keyword) == ToLower(text)
  {
    hide Classify, Pattern, ToLower;
    GeositeItem(text);
    FullItem(text);
    SuffixItem(text);
    RegexpItem(text);
    KeywordItem(text);
  }

  lemma UnrecognisedIff(item: string)
    ensures Classify(item).None?
       <==> !("geosite:" <= item) && !("full:" <= item) && !("domain:" <= item) && !("regexp:" <= item)
            && !("keyword:" <= item)
  {
  }

  const NO_RULE := Rule("", "", "", "", "", "", "")

  /** The route rule of a user rule with one domain item, for each kind of item. */
  lemma OneDomainRules(text: string)
    requires ',' !in text
    ensures Compiled(NO_RULE.(domains := "geosite:" + text)) == EMPTY_RULE.(geosite := [text])
    ensures Compiled(NO_RULE.(domains := "full:" + text)) == EMPTY_RULE.(domain := [ToLower(text)])
    ensures Compiled(NO_RULE.(domains := "domain:" + text)) == EMPTY_RULE.(domainSuffix := [ToLower(text)])
    ensures Compiled(NO_RULE.(domains := "regexp:" + text)) == EMPTY_RULE.(domainRegex := [ToLower(text)])
    ensures Compiled(NO_RULE.(domains := "keyword:" + text)) == EMPTY_RULE.(domainKeyword := [ToLower(text)])
  {
    PrefixedItems(text);
    hide Split, Picked, GeoIps, Cidrs, Ports, PortRanges, Classify, Pattern, ToLower, Compiled;
    OneDomainRule("geosite:" + text);
    OneDomainRule("full:" + text);
    OneDomainRule("domain:" + text);
    OneDomainRule("regexp:" + text);
    OneDomainRule("keyword:" + text);
  }

  lemma OneDomainRule(item: string)
    requires item != "" && ',' !in item
    ensures var (rule, kind) := (Compiled(NO_RULE.(domains := item)), Classify(item));
            rule == match kind
                    case None => EMPTY_RULE
                    case Some(Geosite) => EMPTY_RULE.(geosite := [Pattern(item, Geosite)])
                    case Some(Full) => EMPTY_RULE.(domain := [Pattern(item, Full)])
                    case Some(Suffix) => EMPTY_RULE.(domainSuffix := [Pattern(item, Suffix)])
                    case Some(Regexp) => EMPTY_RULE.(domainRegex := [Pattern(item, Regexp)])
                    case Some(Keyword) => EMPTY_RULE.(domainKeyword := [Pattern(item, Keyword)])
  {
    hide Split, Picked, GeoIps, Cidrs, Ports, PortRanges, Classify, Pattern;
    OneDomainItem(item);
    NoItemsNoLists();
  }

  lemma OneIpRule(item: string)
    requires item != "" && ',' !in item
    ensures Compiled(NO_RULE.(ip := item))
         == if "geoip:" <= item then EMPTY_RULE.(geoip := [item[6..]]) else EMPTY_RULE.(ipCidr := [item])
  {
    SplitWithoutSeparator(item, ',');
    OneIpItem(item);
    NoItemsNoLists();
    hide Split, Picked, GeoIps, Cidrs, Ports, PortRanges;
  }

  lemma OnePortText(item: string)
    requires item != "" && ',' !in item
    ensures Compiled(NO_RULE.(port := item))
         == if Contains(item, ":") then EMPTY_RULE.(portRange := [item])
            else match PortOf(item) case Some(port) => EMPTY_RULE.(port := [port]) case None => EMPTY_RULE
  {
    SplitWithoutSeparator(item, ',');
    OnePortItem(item);
    NoItemsNoLists();
    hide Split, Picked, GeoIps, Cidrs, Ports, PortRanges, Contains, Atoi;
  }

  lemma OneOtherRule(text: string)
    requires text != "" && ',' !in text
    ensures Compiled(NO_RULE.(network := text)) == EMPTY_RULE.(network := [text])
    ensures Compiled(NO_RULE.(protocol := text)) == EMPTY_RULE.(protocol := [text])
  {
    SplitWithoutSeparator(text, ',');
    NoItemsNoLists();
    hide Split, Picked, GeoIps, Cidrs, Ports, PortRanges;
  }

  /** The same for the other conditions. */
  lemma OneConditionRules(text: string)
    requires text != "" && ',' !in text
    ensures Compiled(NO_RULE.(ip := "geoip:" + text)) == EMPTY_RULE.(geoip := [text])
    ensures !("geoip:" <= text) ==> Compiled(NO_RULE.(ip := text)) == EMPTY_RULE.(ipCidr := [text])
    ensures Contains(text, ":") ==> Compiled(NO_RULE.(port := text)) == EMPTY_RULE.(portRange := [text])
    ensures Compiled(NO_RULE.(network := text)) == EMPTY_RULE.(network := [text])
    ensures Compiled(NO_RULE.(protocol := text)) == EMPTY_RULE.(protocol := [text])
  {
    hide Compiled, Contains;
    assert ("geoip:" + text)[6..] == text;
    OneIpRule("geoip:" + text);
    OneIpRule(text);
    OnePortText(text);
    OneOtherRule(text);
  }

  /** A port given by its number keeps its low 16 bits. */
  lemma OnePortRule(n: nat)
    requires n < 0x8000_0000_0000_0000
    ensures Compiled(NO_RULE.(port := Decimal(n))) == EMPTY_RULE.(port := [n % 0x1_0000])
  {
    hide Contains, Atoi, Decimal, Compiled;
    AtoiOfDecimal(n);
    DigitsHaveNoColon(Decimal(n));
    OnePortText(Decimal(n));
  }

  lemma DigitsHaveNoColon(text: string)
    requires forall i | 0 <= i < |text| :: '0' <= text[i] <= '9'
    ensures !Contains(text, ":") && ',' !in text
  {
    if Contains(text, ":") {
      ContainsNeedsFirst(text, ":");
      assert false;
    }
  }

  lemma OneDomainItem(item: string)
    requires ',' !in item
    ensures Split(item, ',') == [item]
    ensures forall kind :: Picked([item], kind) == if Classify(item) == Some(kind) then [Pattern(item, kind)] else []
  {
    SplitWithoutSeparator(item, ',');
    hide Classify, Pattern, Split;
    assert [item][..0] == [];
    forall kind ensures Picked([item], kind) == if Classify(item) == Some(kind) then [Pattern(item, kind)] else [] {
      assert Picked([item], kind)
          == Picked([], kind) + (if Classify(item) == Some(kind) then [Pattern(item, kind)] else []);
    }
  }

  lemma OneIpItem(item: string)
    ensures GeoIps([item]) == if "geoip:" <= item then [item[6..]] else []
    ensures Cidrs([item]) == if "geoip:" <= item then [] else [item]
  {
    assert [item][..0] == [];
  }

  lemma OnePortItem(item: string)
    ensures PortRanges([item]) == if Contains(item, ":") then [item] else []
    ensures Ports([item]) == match PortOf(item) case Some(port) => [port] case None => []
  {
    assert [item][..0] == [];
    hide Contains, Atoi;
  }
}
