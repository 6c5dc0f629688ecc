/** How the two sides come to the same relay encoding without ever asking each other: the agent
    announces itself in its register URL, the gateway answers with one header, and each derives
    the encoding of every WebSocket from what it then knows. Letters and spaces are ASCII. */
module ProxyMode {
  import opened Options
  import M = Messages

  const LEGACY_FRAMED := "legacy_framed"
  const TRANSPARENT_TUNNEL := "transparent_tunnel"

  // ----- canonical forms -----

  predicate IsSpace(c: char) { c == ' ' || c == '\t' || c == '\n' || c == '\r' || c == 11 as char || c == 12 as char }

  function LowerChar(c: char): char {
    if 'A' <= c <= 'Z' then (c as int - 'A' as int + 'a' as int) as char else c
  }

  function TrimLeft(s: string): string {
    if s != "" && IsSpace(s[0]) then TrimLeft(s[1..]) else s
  }

  function TrimRight(s: string): string {
    if s != "" && IsSpace(s[|s| - 1]) then TrimRight(s[..|s| - 1]) else s
  }

  function Canon(s: string): string {
    var t := TrimRight(TrimLeft(s));
    seq(|t|, i requires 0 <= i < |t| => LowerChar(t[i]))
  }

  function NormalizeProxyMode(raw: string): Option<string> {
    var value := Canon(raw);
    if value == "" || value == "legacy" || value == LEGACY_FRAMED then Some(LEGACY_FRAMED)
    else if value == "transparent" || value == TRANSPARENT_TUNNEL then Some(TRANSPARENT_TUNNEL)
    else None
  }

  function NormalizeTargetKind(raw: string): Option<string> {
    var value := Canon(raw);
    if value == "" || value == "unknown" then Some("unknown")
    else if value == "http" || value == "https" then Some("http")
    else if value == "tcp" then Some("tcp")
    else if value == "ws" || value == "wss" then Some("ws")
    else None
  }

  function OrElse(o: Option<string>, fallback: string): string {
    if o.Some? then o.value else fallback
  }

  /** The canonical words are canonical. */
  lemma CanonFixed(s: string)
    requires s in {LEGACY_FRAMED, TRANSPARENT_TUNNEL, "unknown", "http", "tcp", "ws", "framed", "raw"}
    ensures Canon(s) == s
  {
    assert s != "" && !IsSpace(s[0]) && !IsSpace(s[|s| - 1]);
    forall i | 0 <= i < |s| ensures LowerChar(s[i]) == s[i] {}
  }

  /** Normalising is idempotent: what one side wrote, the other reads back unchanged. */
  lemma NormalizedReadsBack(raw: string)
    ensures var mode := NormalizeProxyMode(raw); mode.Some? ==> NormalizeProxyMode(mode.value) == mode
    ensures var kind := NormalizeTargetKind(raw); kind.Some? ==> NormalizeTargetKind(kind.value) == kind
  {
    if NormalizeProxyMode(raw).Some? { CanonFixed(NormalizeProxyMode(raw).value); }
    if NormalizeTargetKind(raw).Some? { CanonFixed(NormalizeTargetKind(raw).value); }
  }

  // ----- the agent's half -----

  type Query = map<string, string>

  function Get(q: Query, key: string): string { if key in q then q[key] else "" }

  function TargetKindFromScheme(scheme: string): string {
    var s := Canon(scheme);
    if s == "http" || s == "https" then "http"
    else if s == "tcp" then "tcp"
    else if s == "ws" || s == "wss" then "ws"
    else "unknown"
  }

  predicate IsTcpTarget(scheme: string) { Canon(scheme) == "tcp" }

  predicate IsWebSocketTarget(scheme: string) { Canon(scheme) == "ws" || Canon(scheme) == "wss" }

  predicate ModeFitsTarget(mode: string, scheme: string) {
    mode == TRANSPARENT_TUNNEL ==> IsTcpTarget(scheme) || IsWebSocketTarget(scheme)
  }

  predicate IsBlank(s: string) { TrimRight(TrimLeft(s)) == "" }

  /** The query part of `BuildRegisterURL`, on top of whatever the register host brought along: three
      entries of its own, everything else as it was, and a gateway that reads the query finds the
      kind and the mode that were meant, whatever the register host said about them. */
  method BuildRegisterQuery(given: Query, uuid: string, proxyMode: string, targetKind: string)
    returns (q: Option<Query>)
    ensures q.None? <==> NormalizeTargetKind(targetKind).None?
    ensures q.Some? ==> q.value == RegisterQuery(given, uuid, proxyMode, NormalizeTargetKind(targetKind).value)
    ensures q.Some? ==> "uuid" in q.value && q.value["uuid"] == uuid
    ensures q.Some? ==> Get(q.value, "proxy_mode") == if IsBlank(proxyMode) then Get(given, "proxy_mode") else proxyMode
    ensures q.Some? && !IsBlank(proxyMode) ==>
              NormalizeProxyMode(Get(q.value, "proxy_mode")) == NormalizeProxyMode(proxyMode)
    ensures q.Some? ==>
              var kind := NormalizeTargetKind(targetKind).value;
              if kind == "unknown" then Get(q.value, "target_kind") == Get(given, "target_kind")
              else Get(q.value, "target_kind") == kind == RegisteredKind(q.value)
    ensures q.Some? ==>
              forall k :: k !in {"uuid", "proxy_mode", "target_kind"} ==>
                (k in q.value <==> k in given) && (k in given ==> q.value[k] == given[k])
  {
    NormalizedReadsBack(targetKind);
    var query := given["uuid" := uuid];
    if !IsBlank(proxyMode) {
      query := query["proxy_mode" := proxyMode];
    }
    var kind := NormalizeTargetKind(targetKind);
    if kind.None? {
      return None;
    }
    if kind.value != "unknown" {
      query := query["target_kind" := kind.value];
    }
    q := Some(query);
  }

  function RegisterQuery(given: Query, uuid: string, proxyMode: string, kind: string): Query {
    var withUuid := given["uuid" := uuid];
    var withMode := if IsBlank(proxyMode) then withUuid else withUuid["proxy_mode" := proxyMode];
    if kind != "unknown" then withMode["target_kind" := kind] else withMode
  }

  /** `NewRemoteForward` for a target of the given scheme: the query it will register with. */
  function NewRemoteForward(given: Query, uuid: string, proxyMode: string, scheme: string): Option<Query> {
    var mode := NormalizeProxyMode(proxyMode);
    if mode.None? || TargetKindFromScheme(scheme) == "unknown" || !ModeFitsTarget(mode.value, scheme) then None
    else Some(RegisterQuery(given, uuid, mode.value, TargetKindFromScheme(scheme)))
  }

  // ----- the gateway's half -----

  datatype Policy = Policy(enabled: bool, forceLegacy: bool, allowed: set<string>, prefixes: seq<string>)

  predicate TransparentAllowed(p: Policy, uuid: string) {
    uuid != "" && (uuid in p.allowed || exists i :: 0 <= i < |p.prefixes| && p.prefixes[i] <= uuid)
  }

  function ResolveProxyMode(p: Policy, uuid: string, requested: string): string {
    if requested != TRANSPARENT_TUNNEL then LEGACY_FRAMED
    else if p.forceLegacy then LEGACY_FRAMED
    else if !p.enabled then LEGACY_FRAMED
    else if !TransparentAllowed(p, uuid) then LEGACY_FRAMED
    else TRANSPARENT_TUNNEL
  }

  /** What the gateway makes of a register query; the mode also goes back in a header. */
  function EffectiveMode(p: Policy, q: Query): string {
    ResolveProxyMode(p, Get(q, "uuid"), OrElse(NormalizeProxyMode(Get(q, "proxy_mode")), LEGACY_FRAMED))
  }

  function RegisteredKind(q: Query): string {
    OrElse(NormalizeTargetKind(Get(q, "target_kind")), "unknown")
  }

  // ----- the encodings -----

  /** Unsupported is the agent's WsOpenErr. */
  datatype Encoding = Framed | Raw | Unsupported

  function GatewayEncoding(mode: string, kind: string): Encoding {
    if mode == TRANSPARENT_TUNNEL && kind == "ws" then Raw else Framed
  }

  /** The mode the agent reads from the handshake header. */
  function NegotiatedMode(header: string): string {
    if IsBlank(header) then LEGACY_FRAMED else OrElse(NormalizeProxyMode(header), LEGACY_FRAMED)
  }

  function AgentEncoding(mode: string, scheme: string, kind: string): Encoding {
    if mode != TRANSPARENT_TUNNEL then Framed
    else if IsTcpTarget(scheme) then Framed
    else if IsWebSocketTarget(scheme) then (if Canon(kind) == "ws" then Raw else Framed)
    else Unsupported
  }

  lemma NegotiatedIsEffective(p: Policy, q: Query)
    ensures NegotiatedMode(EffectiveMode(p, q)) == EffectiveMode(p, q)
  {
    var m := EffectiveMode(p, q);
    CanonFixed(m);
  }

  /** Whatever an agent registered with and wherever it forwards to, the two sides pick the same
      encoding exactly when the effective mode is legacy, or the target is a WebSocket, or it is
      TCP and was not announced as a WebSocket. */
  lemma EncodingsAgreeExactlyWhen(p: Policy, q: Query, scheme: string)
    ensures var mode := EffectiveMode(p, q);
            var kind := RegisteredKind(q);
            AgentEncoding(NegotiatedMode(mode), scheme, kind) == GatewayEncoding(mode, kind) <==>
            mode == LEGACY_FRAMED || IsWebSocketTarget(scheme) || (IsTcpTarget(scheme) && kind != "ws")
  {
    NegotiatedIsEffective(p, q);
    var kind := RegisteredKind(q);
    CanonFixed(kind);
  }

  /** The condition does fail: an agent that announces a WebSocket and forwards to TCP, wherever the
      gateway allows the transparent mode. The gateway goes raw, the agent framed, and no stream opens. */
  lemma ModesCanDisagree(p: Policy, uuid: string) returns (q: Query, scheme: string)
    requires p.enabled && !p.forceLegacy && TransparentAllowed(p, uuid)
    ensures var mode, kind := EffectiveMode(p, q), RegisteredKind(q);
            && Get(q, "uuid") == uuid
            && GatewayEncoding(mode, kind) == Raw && AgentEncoding(NegotiatedMode(mode), scheme, kind) == Framed
            && Open(Raw, Reported(Framed)).ResetSent?
  {
    q := map["uuid" := uuid, "proxy_mode" := TRANSPARENT_TUNNEL, "target_kind" := "ws"];
    scheme := "tcp";
    CanonFixed(TRANSPARENT_TUNNEL);
    CanonFixed("ws");
    CanonFixed("tcp");
    CanonFixed("framed");
    NegotiatedIsEffective(p, q);
  }

  /** An agent built by `NewRemoteForward` always meets that condition: for every target, mode,
      policy, allowlist and register host, and the encoding is never one it does not support. */
  lemma BuiltAgentsAgree(p: Policy, given: Query, uuid: string, proxyMode: string, scheme: string)
    requires NewRemoteForward(given, uuid, proxyMode, scheme).Some?
    ensures var q := NewRemoteForward(given, uuid, proxyMode, scheme).value;
            var mode := EffectiveMode(p, q);
            var chosen := AgentEncoding(NegotiatedMode(mode), scheme, RegisteredKind(q));
            chosen == GatewayEncoding(mode, RegisteredKind(q)) && !chosen.Unsupported?
  {
    var q := NewRemoteForward(given, uuid, proxyMode, scheme).value;
    var requested := NormalizeProxyMode(proxyMode).value;
    NormalizedReadsBack(proxyMode);
    CanonFixed(requested);
    CanonFixed(TargetKindFromScheme(scheme));
    assert Get(q, "target_kind") == TargetKindFromScheme(scheme);
    assert !IsBlank(requested);
    assert Get(q, "proxy_mode") == requested;
    EncodingsAgreeExactlyWhen(p, q, scheme);
  }

  // ----- the last check -----

  /** The first frame the agent sends on a WebSocket stream. */
  datatype Opening = OpenOK(relayMode: string) | OpenErr | OtherFrame

  datatype Verdict = Relay | ResetSent | Declined

  predicate IsFramedRelayMode(mode: string) { Canon(mode) == "" || Canon(mode) == "framed" }

  predicate IsRawRelayMode(mode: string) { Canon(mode) == "raw" }

  /** The gateway's WebSocket handlers up to their first relayed byte. */
  function Open(expected: Encoding, first: Opening): Verdict {
    match first
    case OpenErr => Declined
    case OtherFrame => ResetSent
    case OpenOK(mode) =>
      if (if expected.Raw? then IsRawRelayMode(mode) else IsFramedRelayMode(mode)) then Relay else ResetSent
  }

  function Reported(e: Encoding): Opening {
    match e
    case Framed => OpenOK("framed")
    case Raw => OpenOK("raw")
    case Unsupported => OpenErr
  }

  /** A report and a choice as the tunnel's machines know them. */
  function ReportedMode(report: string): M.Mode {
    if IsFramedRelayMode(report) then M.Framed else if IsRawRelayMode(report) then M.Raw else M.Neither
  }

  function ExpectedMode(e: Encoding): M.RelayMode { if e.Raw? then M.Raw else M.Framed }

  /** The check by words is the comparison of modes that the machines make; and an agent that reports
      what it does is let through exactly when it does what the gateway chose. */
  lemma ReportDecides(expected: Encoding, actual: Encoding, report: string)
    requires !expected.Unsupported?
    ensures Open(expected, OpenOK(report)).Relay? <==> ReportedMode(report) == ExpectedMode(expected)
    ensures Open(expected, Reported(actual)).Relay? <==> actual == expected
  {
    CanonFixed("framed");
    CanonFixed("raw");
  }

  /** So an agent built by `NewRemoteForward` that reports what it does is never refused for its mode. */
  lemma BuiltAgentsAreAccepted(p: Policy, given: Query, uuid: string, proxyMode: string, scheme: string)
    requires NewRemoteForward(given, uuid, proxyMode, scheme).Some?
    ensures var q := NewRemoteForward(given, uuid, proxyMode, scheme).value;
            var mode := EffectiveMode(p, q);
            Open(GatewayEncoding(mode, RegisteredKind(q)),
                 Reported(AgentEncoding(NegotiatedMode(mode), scheme, RegisteredKind(q)))).Relay?
  {
    var q := NewRemoteForward(given, uuid, proxyMode, scheme).value;
    var mode := EffectiveMode(p, q);
    BuiltAgentsAgree(p, given, uuid, proxyMode, scheme);
    ReportDecides(GatewayEncoding(mode, RegisteredKind(q)), GatewayEncoding(mode, RegisteredKind(q)), "");
  }
}
