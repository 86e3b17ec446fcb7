/** What a route rule and a DNS rule match (sing-box's rule semantics), and what a user rule means on its own. */
module Matching {
  import opened Wrappers
  import opened Strings
  import opened Rules

  /** One connection or DNS query. The pattern sets hold, for each kind of pattern, the texts that match it:
      they range over every possible matcher. */
  datatype Connection = Connection(
    inbound: string, network: string, protocol: string, process: string, port: int, host: string,
    toPrivateIp: bool, geosites: set<string>, suffixes: set<string>, keywords: set<string>, regexes: set<string>,
    geoips: set<string>, cidrs: set<string>, portRanges: set<string>, ruleSets: set<string>)

  predicate Meets(patterns: seq<string>, hits: set<string>) {
    exists p :: p in patterns && p in hits
  }

  predicate HasAddressGroup(r: DefaultRule) {
    r.domain != [] || r.domainSuffix != [] || r.domainKeyword != [] || r.domainRegex != [] || r.geosite != []
    || r.geoip != [] || r.ipCidr != [] || r.ipIsPrivate
  }

  predicate AddressGroupMeets(r: DefaultRule, c: Connection) {
    c.host in r.domain || Meets(r.domainSuffix, c.suffixes) || Meets(r.domainKeyword, c.keywords)
    || Meets(r.domainRegex, c.regexes) || Meets(r.geosite, c.geosites)
    || Meets(r.geoip, c.geoips) || Meets(r.ipCidr, c.cidrs) || (r.ipIsPrivate && c.toPrivateIp)
  }

  /** A disjunction inside the address group and inside the port group, a conjunction across groups. */
  predicate Matches(r: DefaultRule, c: Connection) {
    && (r.inbound != [] ==> c.inbound in r.inbound)
    && (r.network != [] ==> c.network in r.network)
    && (r.protocol != [] ==> c.protocol in r.protocol)
    && (r.processName != [] ==> c.process in r.processName)
    && (r.ruleSet != [] ==> Meets(r.ruleSet, c.ruleSets))
    && (HasAddressGroup(r) ==> AddressGroupMeets(r, c))
    && (r.port != [] || r.portRange != [] ==> c.port in r.port || Meets(r.portRange, c.portRanges))
  }

  predicate DnsMatches(r: DefaultDnsRule, c: Connection) {
    && (r.inbound != [] ==> c.inbound in r.inbound)
    && (r.ruleSet != [] ==> Meets(r.ruleSet, c.ruleSets))
    && (r.domain != [] || r.domainSuffix != [] || r.domainKeyword != [] || r.domainRegex != [] || r.geosite != [] ==>
          c.host in r.domain || Meets(r.domainSuffix, c.suffixes) || Meets(r.domainKeyword, c.keywords)
          || Meets(r.domainRegex, c.regexes) || Meets(r.geosite, c.geosites))
  }

  /** The outbound of the first rule that matches, else the final one. */
  function FirstMatch(rules: seq<DefaultRule>, final: string, c: Connection): string {
    if rules == [] then final
    else if Matches(rules[0], c) then rules[0].outbound
    else FirstMatch(rules[1..], final, c)
  }

  function FirstDnsMatch(rules: seq<DefaultDnsRule>, final: string, c: Connection): string {
    if rules == [] then final
    else if DnsMatches(rules[0], c) then rules[0].server
    else FirstDnsMatch(rules[1..], final, c)
  }

  lemma {:induction false} FirstMatchOfConcat(a: seq<DefaultRule>, b: seq<DefaultRule>, final: string, c: Connection)
    ensures FirstMatch(a + b, final, c) == FirstMatch(a, FirstMatch(b, final, c), c)
  {
    hide Matches;
    if a == [] {
      assert a + b == b;
    } else {
      FirstMatchOfConcat(a[1..], b, final, c);
      assert (a + b)[1..] == a[1..] + b;
    }
  }

  // ---------------------------------------------------------------- a user rule read item by item

  predicate DomainItemMeets(item: string, c: Connection) {
    match Classify(item)
    case None => false
    case Some(Full) => Pattern(item, Full) == c.host
    case Some(Suffix) => Pattern(item, Suffix) in c.suffixes
    case Some(Keyword) => Pattern(item, Keyword) in c.keywords
    case Some(Regexp) => Pattern(item, Regexp) in c.regexes
    case Some(Geosite) => Pattern(item, Geosite) in c.geosites
  }

  predicate IpItemMeets(item: string, c: Connection) {
    if HasPrefix(item, "geoip:") then TrimPrefix(item, "geoip:") in c.geoips else item in c.cidrs
  }

  predicate PortItemGiven(item: string) {
    Contains(item, ":") || PortOf(item).Some?
  }

  predicate PortItemMeets(item: string, c: Connection) {
    if Contains(item, ":") then item in c.portRanges else PortOf(item) == Some(c.port)
  }

  predicate DomainGiven(r: Rule) {
    exists item :: item in Split(r.domains, ',') && Classify(item).Some?
  }

  predicate PortGiven(r: Rule) {
    r.port != "" && exists item :: item in Split(r.port, ',') && PortItemGiven(item)
  }

  /** The user rule has some condition the compiler understands. */
  predicate Conditioned(r: Rule) {
    DomainGiven(r) || r.ip != "" || PortGiven(r) || r.network != "" || r.protocol != ""
  }

  /** The user rule applies: every kind of condition it gives is met by some item of that kind. */
  predicate Applies(r: Rule, c: Connection) {
    && (DomainGiven(r) || r.ip != "" ==>
          || (exists item :: item in Split(r.domains, ',') && DomainItemMeets(item, c))
          || (r.ip != "" && exists item :: item in Split(r.ip, ',') && IpItemMeets(item, c)))
    && (PortGiven(r) ==> exists item :: item in Split(r.port, ',') && PortItemMeets(item, c))
    && (r.network != "" ==> c.network == r.network)
    && (r.protocol != "" ==> c.protocol in Split(r.protocol, ','))
  }

  lemma {:induction false} GeoIpMembers(items: seq<string>, p: string)
    ensures p in GeoIps(items) <==>
            exists item :: item in items && HasPrefix(item, "geoip:") && TrimPrefix(item, "geoip:") == p
  {
    if items != [] {
      GeoIpMembers(items[..|items| - 1], p);
      assert items == items[..|items| - 1] + [items[|items| - 1]];
    }
  }

  lemma {:induction false} CidrMembers(items: seq<string>, p: string)
    ensures p in Cidrs(items) <==> p in items && !HasPrefix(p, "geoip:")
  {
    if items != [] {
      CidrMembers(items[..|items| - 1], p);
      assert items == items[..|items| - 1] + [items[|items| - 1]];
    }
  }

  lemma {:induction false} IpListsNonempty(items: seq<string>)
    ensures |GeoIps(items)| + |Cidrs(items)| == |items|
  {
    if items != [] {
      IpListsNonempty(items[..|items| - 1]);
    }
  }

  lemma {:induction false} PortMembers(items: seq<string>, port: int, range: string)
    ensures port in Ports(items) <==> exists item :: item in items && PortOf(item) == Some(port)
    ensures range in PortRanges(items) <==> range in items && Contains(range, ":")
  {
    if items != [] {
      PortMembers(items[..|items| - 1], port, range);
      assert items == items[..|items| - 1] + [items[|items| - 1]];
    }
  }

  lemma DomainListsMeet(items: seq<string>, c: Connection)
    ensures (c.host in Picked(items, Full) || Meets(Picked(items, Suffix), c.suffixes)
             || Meets(Picked(items, Keyword), c.keywords) || Meets(Picked(items, Regexp), c.regexes)
             || Meets(Picked(items, Geosite), c.geosites))
       <==> exists item :: item in items && DomainItemMeets(item, c)
  {
    hide Picked, Classify, Pattern;
    forall kind, p ensures p in Picked(items, kind) <==>
                           exists item :: item in items && Classify(item) == Some(kind) && Pattern(item, kind) == p
    {
      PickedMembers(items, kind, p);
    }
    if item :| item in items && DomainItemMeets(item, c) {
      var kind := Classify(item).value;
      assert Pattern(item, kind) in Picked(items, kind);
    }
  }

  lemma DomainListsGiven(items: seq<string>)
    ensures Picked(items, Full) != [] || Picked(items, Suffix) != [] || Picked(items, Keyword) != []
            || Picked(items, Regexp) != [] || Picked(items, Geosite) != []
       <==> exists item :: item in items && Classify(item).Some?
  {
    hide Picked, Classify;
    forall kind ensures Picked(items, kind) != [] <==> exists item :: item in items && Classify(item) == Some(kind) {
      PickedNonempty(items, kind);
    }
    if item :| item in items && Classify(item).Some? {
      var kind := Classify(item).value;
      assert Picked(items, kind) != [];
      assert kind == Full || kind == Suffix || kind == Keyword || kind == Regexp || kind == Geosite;
    }
  }

  lemma IpListsMeet(items: seq<string>, c: Connection)
    ensures (Meets(GeoIps(items), c.geoips) || Meets(Cidrs(items), c.cidrs))
       <==> exists item :: item in items && IpItemMeets(item, c)
  {
    forall p ensures p in GeoIps(items) <==>
                     exists item :: item in items && HasPrefix(item, "geoip:") && TrimPrefix(item, "geoip:") == p
    {
      GeoIpMembers(items, p);
    }
    forall p ensures p in Cidrs(items) <==> p in items && !HasPrefix(p, "geoip:") {
      CidrMembers(items, p);
    }
    if item :| item in items && IpItemMeets(item, c) {
      assert if HasPrefix(item, "geoip:") then TrimPrefix(item, "geoip:") in GeoIps(items) else item in Cidrs(items);
    }
  }

  lemma PortListsMeet(items: seq<string>, c: Connection)
    ensures (c.port in Ports(items) || Meets(PortRanges(items), c.portRanges))
       <==> exists item :: item in items && PortItemMeets(item, c)
  {
    hide Ports, PortRanges, Contains, Atoi, PortOf;
    forall port, range
      ensures port in Ports(items) <==> exists item :: item in items && PortOf(item) == Some(port)
      ensures range in PortRanges(items) <==> range in items && Contains(range, ":")
    {
      PortMembers(items, port, range);
    }
    if item :| item in items && PortItemMeets(item, c) {
      assert item in PortRanges(items) || c.port in Ports(items);
    }
    if c.port in Ports(items) {
      var item :| item in items && PortOf(item) == Some(c.port);
      PortsHaveNoColon(item);
      assert PortItemMeets(item, c);
    }
    if range :| range in PortRanges(items) && range in c.portRanges {
      assert PortItemMeets(range, c);
    }
  }

  lemma PortsHaveNoColon(item: string)
    ensures PortOf(item).Some? ==> !Contains(item, ":")
  {
  }

  lemma PortListsGiven(items: seq<string>)
    ensures (Ports(items) != [] || PortRanges(items) != []) <==> exists item :: item in items && PortItemGiven(item)
  {
    hide Ports, PortRanges, Contains, Atoi, PortOf;
    if Ports(items) != [] {
      PortMembers(items, Ports(items)[0], "");
      var item :| item in items && PortOf(item) == Some(Ports(items)[0]);
      assert PortItemGiven(item);
    }
    if PortRanges(items) != [] {
      PortMembers(items, 0, PortRanges(items)[0]);
      assert PortItemGiven(PortRanges(items)[0]);
    }
    if item :| item in items && PortItemGiven(item) {
      PortMembers(items, if PortOf(item).Some? then PortOf(item).value else 0, item);
    }
  }

  /** The compiled rule is emitted exactly when the user rule gives a condition. */
  lemma CompiledIsValidIff(r: Rule)
    ensures Compiled(r).IsValid() <==> Conditioned(r)
  {
    hide Split, Picked, Classify, GeoIps, Cidrs, Ports, PortRanges, PortItemGiven;
    RouteAndDnsRulesAgree(r);
    var domains := Split(r.domains, ',');
    DomainListsGiven(domains);
    NoItemsNoLists();
    IpListsNonempty(Split(r.ip, ','));
    PortListsGiven(Split(r.port, ','));
  }

  const ANY_CONNECTION := Connection("", "", "", "", 0, "", false, {}, {}, {}, {}, {}, {}, {}, {})

  /** The compiled rule matches a connection exactly when the user rule, read item by item, applies to it. */
  lemma CompiledMatchesIff(r: Rule, c: Connection)
    ensures Matches(Compiled(r), c) <==> Applies(r, c)
  {
    hide Split, Picked, Classify, GeoIps, Cidrs, Ports, PortRanges, PortItemGiven, PortItemMeets, IpItemMeets,
      DomainItemMeets, Meets;
    RouteAndDnsRulesAgree(r);
    var domains := Split(r.domains, ',');
    DomainListsGiven(domains);
    DomainListsMeet(domains, c);
    NoItemsNoLists();
    NothingMeetsNothing(c);
    IpListsNonempty(Split(r.ip, ','));
    IpListsMeet(Split(r.ip, ','), c);
    PortListsGiven(Split(r.port, ','));
    PortListsMeet(Split(r.port, ','), c);
  }

  lemma NothingMeetsNothing(c: Connection)
    ensures !Meets([], c.geoips) && !Meets([], c.cidrs) && !Meets([], c.portRanges)
  {
  }
}
