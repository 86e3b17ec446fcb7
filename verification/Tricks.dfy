/** config/outbound.go: the TLS-trick and multiplex passes over an outbound's JSON object. */
module Tricks {
  import opened Wrappers
  import opened Warp

  datatype TlsTricks = TlsTricks(mixedCaseSni: bool, paddingMode: string, paddingSize: string)

  const NO_TRICKS := TlsTricks(false, "", "")

  datatype Json =
    | Null
    | Bool(b: bool)
    | Text(text: string)
    | Number(n: int)
    | List(items: seq<Json>)
    | Object(fields: JsonMap)
    | TricksValue(tricks: TlsTricks)
    | FragmentValue(size: string, sleep: string)
    | MuxValue(padding: bool, maxStreams: int, protocol: string)

  type JsonMap = map<string, Json>

  datatype Transport = Websocket | Grpc | HttpUpgrade | OtherTransport

  /** The TLS options of one protocol; no tricks stand for a nil pointer. */
  datatype Tls = Tls(enabled: bool, reality: bool, tricks: Option<TlsTricks>)

  datatype Base = Base(typ: OutType, vless: Option<Tls>, vlessTransport: Option<Transport>,
                       trojan: Option<Tls>, trojanTransport: Option<Transport>,
                       vmess: Option<Tls>, vmessTransport: Option<Transport>)

  datatype Settings = Settings(enableFragment: bool, fragmentSize: string, fragmentSleep: string, mixedSniCase: bool,
                               enablePadding: bool, paddingSize: string,
                               muxEnable: bool, muxPadding: bool, muxMaxStreams: int, muxProtocol: string)

  /** isOutboundReality: only VLESS is looked at. */
  predicate IsReality(base: Base) {
    base.typ.Vless? && base.vless.Some? && base.vless.value.reality
  }

  predicate IsGroupBlockOrDns(typ: OutType) {
    typ.Selector? || typ.UrlTest? || typ.Block? || typ.DnsOut?
  }

  /** The first protocol with TLS options, and its transport. */
  function TlsOf(base: Base): Option<(Tls, Option<Transport>)> {
    if base.vless.Some? then Some((base.vless.value, base.vlessTransport))
    else if base.trojan.Some? then Some((base.trojan.value, base.trojanTransport))
    else if base.vmess.Some? then Some((base.vmess.value, base.vmessTransport))
    else None
  }

  function WithTricks(base: Base, tricks: Option<TlsTricks>): Base {
    if base.vless.Some? then base.(vless := Some(base.vless.value.(tricks := tricks)))
    else if base.trojan.Some? then base.(trojan := Some(base.trojan.value.(tricks := tricks)))
    else if base.vmess.Some? then base.(vmess := Some(base.vmess.value.(tricks := tricks)))
    else base
  }

  /** TLS is on, over a transport the tricks are meant for. */
  predicate Eligible(base: Base) {
    var t := TlsOf(base);
    t.Some? && t.value.0.enabled && t.value.1.Some? && !t.value.1.value.OtherTransport?
  }

  /** What an outbound already says about Xray fragments: nothing usable, something, or not an object. */
  predicate XrayFragmentUnset(obj: JsonMap) {
    "xray_fragment" !in obj || obj["xray_fragment"].Null?
    || (obj["xray_fragment"].Object? && var f := obj["xray_fragment"].fields;
                                     "packets" in f && f["packets"] == Text(""))
  }

  predicate XrayFragmentPanics(obj: JsonMap) {
    "xray_fragment" in obj && !obj["xray_fragment"].Null? && !obj["xray_fragment"].Object?
  }

  function XrayFragment(s: Settings): Json {
    Object(map["packets" := Text("tlshello"), "length" := Text(s.fragmentSize), "interval" := Text(s.fragmentSleep)])
  }

  function Fragmented(s: Settings, obj: JsonMap): JsonMap {
    if s.enableFragment then
      obj["tcp_fast_open" := Bool(false)]["tls_fragment" := FragmentValue(s.fragmentSize, s.fragmentSleep)]
    else obj
  }

  function NewTricks(s: Settings, tricks: Option<TlsTricks>): TlsTricks {
    var t := tricks.GetOr(NO_TRICKS);
    var mixed := t.(mixedCaseSni := t.mixedCaseSni || s.mixedSniCase);
    if s.enablePadding then mixed.(paddingMode := "random", paddingSize := s.paddingSize) else mixed
  }

  function TrickedTls(s: Settings, fields: JsonMap, tricks: TlsTricks): JsonMap {
    var padded := if s.enablePadding then
                    fields["utls" := Object(map["enabled" := Bool(true), "fingerprint" := Text("custom")])]
                  else fields;
    padded["tls_tricks" := TricksValue(tricks)]
  }

  /** What patchOutboundTLSTricks leaves in the object. */
  function TlsPatched(base: Base, s: Settings, obj: JsonMap): Outcome<JsonMap> {
    if IsGroupBlockOrDns(base.typ) || IsReality(base) then Ok(obj)
    else if base.typ.Xray? && s.enableFragment && XrayFragmentPanics(obj) then Panic("interface conversion")
    else
      var xray := if base.typ.Xray? && s.enableFragment && XrayFragmentUnset(obj)
                  then obj["xray_fragment" := XrayFragment(s)] else obj;
      if base.typ.Direct? then Ok(Fragmented(s, xray))
      else if Eligible(base) && "tls" in xray && xray["tls"].Object? then
        var tricks := NewTricks(s, TlsOf(base).value.0.tricks);
        Ok(Fragmented(s, xray)["tls" := Object(TrickedTls(s, xray["tls"].fields, tricks))])
      else Ok(xray)
  }

  /** The pass also writes through the base's own tricks pointer, when there is one. */
  function BaseAfter(base: Base, s: Settings, obj: JsonMap): Base {
    if !IsGroupBlockOrDns(base.typ) && !IsReality(base) && !base.typ.Direct? && Eligible(base)
       && "tls" in obj && obj["tls"].Object? && TlsOf(base).value.0.tricks.Some?
    then WithTricks(base, Some(NewTricks(s, TlsOf(base).value.0.tricks)))
    else base
  }

  predicate TakesMux(typ: OutType) {
    typ.Vmess? || typ.Vless? || typ.Trojan? || typ.Shadowsocks?
  }

  function MuxPatched(base: Base, s: Settings, obj: JsonMap): JsonMap {
    if TakesMux(base.typ) && s.muxEnable
    then obj["multiplex" := MuxValue(s.muxPadding, s.muxMaxStreams, s.muxProtocol)] else obj
  }

  /** Both passes, as patchOutbound runs them. */
  function Passes(base: Base, s: Settings, obj: JsonMap): Outcome<JsonMap> {
    match TlsPatched(base, s, obj)
    case Ok(patched) => Ok(MuxPatched(base, s, patched))
    case other => other
  }

  /** The object being patched, and the outbound it was made from. */
  class OutboundObject {
    var base: Base
    var obj: JsonMap

    constructor (base: Base, obj: JsonMap)
      ensures this.base == base && this.obj == obj
    {
      this.base, this.obj := base, obj;
    }

    method PatchMux(s: Settings)
      modifies this`obj
      ensures obj == MuxPatched(base, s, old(obj))
    {
      if TakesMux(base.typ) {
        if s.muxEnable {
          obj := obj["multiplex" := MuxValue(s.muxPadding, s.muxMaxStreams, s.muxProtocol)];
        }
      }
    }

    method PatchFragment(s: Settings)
      modifies this`obj
      ensures obj == Fragmented(s, old(obj))
    {
      if s.enableFragment {
        obj := obj["tcp_fast_open" := Bool(false)];
        obj := obj["tls_fragment" := FragmentValue(s.fragmentSize, s.fragmentSleep)];
      }
    }

    method PatchTlsTricks(s: Settings) returns (r: Outcome<()>)
      modifies this
      ensures match TlsPatched(old(base), s, old(obj))
              case Ok(o) => r == Ok(()) && obj == o && base == BaseAfter(old(base), s, old(obj))
              case Err(e) => r == Err(e)
              case Panic(p) => r == Panic(p)
    {
      hide IsReality, XrayFragmentUnset, XrayFragmentPanics, XrayFragment, NewTricks, TrickedTls;
      if base.typ.Selector? || base.typ.UrlTest? || base.typ.Block? || base.typ.DnsOut? {
        return Ok(());
      }
      if IsReality(base) {
        return Ok(());
      }
      var tls := TlsOf(base);
      if base.typ.Xray? {
        if s.enableFragment {
          if XrayFragmentPanics(obj) {
            return Panic("interface conversion");
          }
          if XrayFragmentUnset(obj) {
            obj := obj["xray_fragment" := XrayFragment(s)];
          }
        }
      }
      if base.typ.Direct? {
        PatchFragment(s);
        return Ok(());
      }
      if tls.None? || !tls.value.0.enabled || tls.value.1.None? {
        return Ok(());
      }
      if tls.value.1.value.OtherTransport? {
        return Ok(());
      }
      if "tls" in obj && obj["tls"].Object? {
        var fields := obj["tls"].fields;
        PatchFragment(s);
        var tricks;
        tricks, fields := WriteTricks(s, tls.value.0.tricks, fields);
        obj := obj["tls" := Object(fields)];
        if tls.value.0.tricks.Some? {
          base := WithTricks(base, Some(tricks));
        }
      }
      r := Ok(());
    }
  }

  /** outbound.go:77-93. */
  method WriteTricks(s: Settings, own: Option<TlsTricks>, outTls: JsonMap) returns (tricks: TlsTricks, fields: JsonMap)
    ensures tricks == NewTricks(s, own) && fields == TrickedTls(s, outTls, tricks)
  {
    fields := outTls;
    tricks := own.GetOr(NO_TRICKS);
    tricks := tricks.(mixedCaseSni := tricks.mixedCaseSni || s.mixedSniCase);
    if s.enablePadding {
      tricks := tricks.(paddingMode := "random", paddingSize := s.paddingSize);
      fields := fields["utls" := Object(map["enabled" := Bool(true), "fingerprint" := Text("custom")])];
    }
    fields := fields["tls_tricks" := TricksValue(tricks)];
  }

  // ---------------------------------------------------------------- frame, exemptions, idempotence

  const TOUCHED := {"multiplex", "xray_fragment", "tcp_fast_open", "tls_fragment", "tls"}
  const TOUCHED_TLS := {"tls_tricks", "utls"}

  function TlsFields(obj: JsonMap): JsonMap {
    if "tls" in obj && obj["tls"].Object? then obj["tls"].fields else map[]
  }

  /** The passes change an object only at five keys, and its TLS object only at two. */
  lemma PassesFrame(base: Base, s: Settings, obj: JsonMap)
    requires Passes(base, s, obj).Ok?
    ensures var after := Passes(base, s, obj).value;
            && after - TOUCHED == obj - TOUCHED
            && ("tls" in after <==> "tls" in obj)
            && ("tls" in obj && !obj["tls"].Object? ==> after["tls"] == obj["tls"])
            && ("tls" in obj && obj["tls"].Object? ==> after["tls"].Object?)
            && TlsFields(after) - TOUCHED_TLS == TlsFields(obj) - TOUCHED_TLS
  {
  }

  /** Reality VLESS and group, block and DNS outbounds keep everything but multiplex. */
  lemma ExemptOutbounds(base: Base, s: Settings, obj: JsonMap)
    requires IsGroupBlockOrDns(base.typ) || IsReality(base)
    ensures TlsPatched(base, s, obj) == Ok(obj)
    ensures IsGroupBlockOrDns(base.typ) ==> Passes(base, s, obj) == Ok(obj)
    ensures Passes(base, s, obj).Ok? && Passes(base, s, obj).value - {"multiplex"} == obj - {"multiplex"}
  {
  }

  lemma BaseAfterKeepsShape(base: Base, s: Settings, obj: JsonMap)
    ensures var b := BaseAfter(base, s, obj);
            && b.typ == base.typ && IsReality(b) == IsReality(base) && Eligible(b) == Eligible(base)
            && (TlsOf(b).Some? <==> TlsOf(base).Some?)
            && (TlsOf(b).Some? ==> NewTricks(s, TlsOf(b).value.0.tricks) == NewTricks(s, TlsOf(base).value.0.tricks))
  {
  }

  /** Running the TLS pass twice gives what running it once gives, both for the base as it was and for the base the
      first run wrote through. */
  lemma TlsPassIdempotent(base: Base, s: Settings, obj: JsonMap)
    requires TlsPatched(base, s, obj).Ok?
    ensures var after := TlsPatched(base, s, obj).value;
            TlsPatched(base, s, after) == Ok(after) && TlsPatched(BaseAfter(base, s, obj), s, after) == Ok(after)
  {
    var after := TlsPatched(base, s, obj).value;
    BaseAfterKeepsShape(base, s, obj);
    if IsGroupBlockOrDns(base.typ) || IsReality(base) {
    } else if base.typ.Direct? {
      FragmentedTwice(s, obj);
    } else if Eligible(base) && "tls" in obj && obj["tls"].Object? {
      TrickedTwice(base, s, obj);
    }
  }

  lemma FragmentedTwice(s: Settings, obj: JsonMap)
    ensures Fragmented(s, Fragmented(s, obj)) == Fragmented(s, obj)
  {
  }

  lemma TrickedTwice(base: Base, s: Settings, obj: JsonMap)
    requires !IsGroupBlockOrDns(base.typ) && !IsReality(base) && !base.typ.Direct? && Eligible(base)
    requires "tls" in obj && obj["tls"].Object?
    requires TlsPatched(base, s, obj).Ok?
    ensures var after := TlsPatched(base, s, obj).value; TlsPatched(base, s, after) == Ok(after)
  {
    var after := TlsPatched(base, s, obj).value;
    var tricks := NewTricks(s, TlsOf(base).value.0.tricks);
    var fields := obj["tls"].fields;
    assert TrickedTls(s, TrickedTls(s, fields, tricks), tricks) == TrickedTls(s, fields, tricks);
    assert Fragmented(s, after)["tls" := after["tls"]] == after;
  }

  lemma MuxPassIdempotent(base: Base, s: Settings, obj: JsonMap)
    ensures MuxPatched(base, s, MuxPatched(base, s, obj)) == MuxPatched(base, s, obj)
  {
  }

  lemma MuxLeavesTlsPassInput(base: Base, s: Settings, obj: JsonMap)
    requires TlsPatched(base, s, obj).Ok?
    ensures TlsPatched(base, s, MuxPatched(base, s, obj)) == Ok(MuxPatched(base, s, TlsPatched(base, s, obj).value))
  {
    var mux := MuxValue(s.muxPadding, s.muxMaxStreams, s.muxProtocol);
    var muxed := obj["multiplex" := mux];
    assert Fragmented(s, muxed) == Fragmented(s, obj)["multiplex" := mux];
    if Eligible(base) && "tls" in obj && obj["tls"].Object? {
      var tls := Object(TrickedTls(s, obj["tls"].fields, NewTricks(s, TlsOf(base).value.0.tricks)));
      UpdatesCommute(Fragmented(s, obj), "multiplex", mux, "tls", tls);
    }
  }

  lemma UpdatesCommute(obj: JsonMap, a: string, x: Json, b: string, y: Json)
    requires a != b
    ensures obj[a := x][b := y] == obj[b := y][a := x]
  {
  }

  /** Both passes together are idempotent. */
  lemma PassesIdempotent(base: Base, s: Settings, obj: JsonMap)
    requires Passes(base, s, obj).Ok?
    ensures Passes(base, s, Passes(base, s, obj).value) == Passes(base, s, obj)
  {
    hide TlsPatched, MuxPatched;
    var once := TlsPatched(base, s, obj).value;
    TlsPassIdempotent(base, s, obj);
    MuxLeavesTlsPassInput(base, s, once);
    MuxPassIdempotent(base, s, once);
  }

  /** With every switch off, an object keeps everything; an eligible one only gets its own tricks written out. */
  lemma SwitchesOffKeepObject(base: Base, s: Settings, obj: JsonMap)
    requires !s.enableFragment && !s.mixedSniCase && !s.enablePadding && !s.muxEnable
    ensures var r := Passes(base, s, obj);
            && r.Ok?
            && r.value - {"tls"} == obj - {"tls"}
            && (r.value == obj
                || (Eligible(base) && "tls" in obj && obj["tls"].Object?
                    && r.value == obj["tls" := Object(obj["tls"].fields["tls_tricks" :=
                                                      TricksValue(TlsOf(base).value.0.tricks.GetOr(NO_TRICKS))])]))
  {
    hide Eligible;
  }

  /** An outbound's own tricks survive a pass exactly when the settings ask for nothing else: mixed case is on already
      or not asked for, and padding is off or already random and of the size asked for. Else they are overwritten. */
  lemma OwnTricksSurviveIff(s: Settings, tricks: Option<TlsTricks>)
    ensures var own := tricks.GetOr(NO_TRICKS);
            NewTricks(s, tricks) == own
            <==> && (own.mixedCaseSni || !s.mixedSniCase)
                 && (!s.enablePadding || (own.paddingMode == "random" && own.paddingSize == s.paddingSize))
  {
  }

  // ---------------------------------------------------------------- what the passes write, key by key

  predicate GetsTricks(base: Base, obj: JsonMap) {
    var exempt := base.typ.Selector? || base.typ.UrlTest? || base.typ.Block? || base.typ.DnsOut? || base.typ.Direct?
                  || (base.typ.Vless? && base.vless.Some? && base.vless.value.reality);
    var (tls, transport) := if base.vless.Some? then (base.vless, base.vlessTransport)
                            else if base.trojan.Some? then (base.trojan, base.trojanTransport)
                            else (base.vmess, base.vmessTransport);
    && !exempt && tls.Some? && tls.value.enabled && transport.Some?
    && (transport.value.Websocket? || transport.value.Grpc? || transport.value.HttpUpgrade?)
    && "tls" in obj && obj["tls"].Object?
  }

  /** The tricks of the outbound's own TLS options. */
  function OwnTricks(base: Base): TlsTricks {
    var tls := if base.vless.Some? then base.vless else if base.trojan.Some? then base.trojan else base.vmess;
    if tls.Some? && tls.value.tricks.Some? then tls.value.tricks.value else TlsTricks(false, "", "")
  }

  predicate SameAt(key: string, a: JsonMap, b: JsonMap) {
    (key in a <==> key in b) && (key in a ==> a[key] == b[key])
  }

  /** Multiplexing is written for VMess, VLESS, Trojan and Shadowsocks, when it is on. */
  lemma MuxWrites(base: Base, s: Settings, obj: JsonMap)
    requires Passes(base, s, obj).Ok?
    ensures var after := Passes(base, s, obj).value;
            if s.muxEnable && (base.typ.Vmess? || base.typ.Vless? || base.typ.Trojan? || base.typ.Shadowsocks?)
            then "multiplex" in after && after["multiplex"] == MuxValue(s.muxPadding, s.muxMaxStreams, s.muxProtocol)
            else SameAt("multiplex", after, obj)
  {
  }

  /** Fragments are written, and fast open turned off, when fragmenting is on, for direct outbounds and for those that
      get tricks. */
  lemma FragmentsWritten(base: Base, s: Settings, obj: JsonMap)
    requires Passes(base, s, obj).Ok?
    ensures var after := Passes(base, s, obj).value;
            if s.enableFragment && (base.typ.Direct? || GetsTricks(base, obj)) then
              && "tls_fragment" in after && after["tls_fragment"] == FragmentValue(s.fragmentSize, s.fragmentSleep)
              && "tcp_fast_open" in after && after["tcp_fast_open"] == Bool(false)
            else SameAt("tls_fragment", after, obj) && SameAt("tcp_fast_open", after, obj)
  {
  }

  /** Xray outbounds get their own form of fragments, unless they say something about it themselves; anything else than
      an object there is a panic. */
  lemma XrayFragments(base: Base, s: Settings, obj: JsonMap)
    ensures var asked := base.typ.Xray? && s.enableFragment;
            var given := "xray_fragment" in obj && !obj["xray_fragment"].Null?;
            && (Passes(base, s, obj).Ok? <==> !(asked && given && !obj["xray_fragment"].Object?))
            && (Passes(base, s, obj).Ok? ==>
                  var after := Passes(base, s, obj).value;
                  var unset := !given || (obj["xray_fragment"].Object?
                                          && var f := obj["xray_fragment"].fields;
                                          "packets" in f && f["packets"] == Text(""));
                  if asked && unset then
                    && "xray_fragment" in after
                    && after["xray_fragment"] == Object(map["packets" := Text("tlshello"),
                                                            "length" := Text(s.fragmentSize),
                                                            "interval" := Text(s.fragmentSleep)])
                  else SameAt("xray_fragment", after, obj))
  {
  }

  /** The TLS object gets the outbound's tricks with the settings laid over them, and with padding the custom
      fingerprint; no other outbound's is touched. */
  lemma TricksWritten(base: Base, s: Settings, obj: JsonMap)
    requires Passes(base, s, obj).Ok?
    ensures var after := Passes(base, s, obj).value;
            if !GetsTricks(base, obj) then SameAt("tls", after, obj)
            else
              && "tls" in after && after["tls"].Object?
              && var (own, fields) := (OwnTricks(base), after["tls"].fields);
              && "tls_tricks" in fields
              && fields["tls_tricks"] == TricksValue(if s.enablePadding then
                                                       TlsTricks(own.mixedCaseSni || s.mixedSniCase, "random",
                                                                 s.paddingSize)
                                                     else own.(mixedCaseSni := own.mixedCaseSni || s.mixedSniCase))
              && (if s.enablePadding then
                    "utls" in fields
                    && fields["utls"] == Object(map["enabled" := Bool(true), "fingerprint" := Text("custom")])
                  else SameAt("utls", fields, obj["tls"].fields))
  {
  }

  /** The outbound the object was made from gets the same tricks, when it has tricks of its own to write them
      through. */
  lemma TricksWrittenThrough(base: Base, s: Settings, obj: JsonMap)
    ensures var (after, own) := (BaseAfter(base, s, obj), OwnTricks(base));
            var tls := if base.vless.Some? then base.vless else if base.trojan.Some? then base.trojan else base.vmess;
            if GetsTricks(base, obj) && tls.value.tricks.Some? then
              && (own.mixedCaseSni || s.mixedSniCase <==> OwnTricks(after).mixedCaseSni)
              && (if s.enablePadding then
                    OwnTricks(after).paddingMode == "random" && OwnTricks(after).paddingSize == s.paddingSize
                  else OwnTricks(after).paddingMode == own.paddingMode
                       && OwnTricks(after).paddingSize == own.paddingSize)
            else after == base
  {
  }
}
