/** The preflight over a generated environment: one method per numbered check, each adding its findings. */
module Doctor {
  import opened CredentialGraph
  import opened EnvKeys
  import opened OrderedMap
  import opened Text
  import opened Topology
  import opened Wrappers

  datatype Severity = Error | Warning

  datatype Code =
    | AddressingMismatch | AwsEndpointMissing | AwsEndpointNotLocal | AwsEndpointServiceOverride
    | ProductionEndpointNotTls | TlsCaNotTrusted | AwsCredentialsLookReal
    | CredentialMissing | CredentialMismatch | CredentialAliased
    | DatabaseUrlMissing | KafkaBrokersMissing | AdapterStubbed | ModelProviderCredentialInEnv
    | TlsVerificationDisabled

  /** A finding with the keys its message names. */
  datatype Finding = Finding(severity: Severity, code: Code, about: seq<string>)

  type Env = OMap<string>

  /** The slot of a credential in the flat file. */
  function Slot(edge: Edge, service: ServiceName): string { Prefixed(service, edge.envVar) }

  function SlotValue(env: Env, edge: Edge, service: ServiceName): string { GetOrEmpty(env, Slot(edge, service)) }

  // ---------------------------------------------------------------- 0, 1, 1b, 2, 6, 8: single questions

  function AddressingFindings(env: Env, consumedBy: Option<Addressing>): seq<Finding> {
    var found := GetOrEmpty(env, "STACK_ADDRESSING");
    var addressing := if found == "" then "compose" else found;
    if consumedBy.Some? && addressing != AddressingText(consumedBy.value)
    then [Finding(Error, AddressingMismatch, ["STACK_ADDRESSING"])] else []
  }

  predicate UsesAws(env: Env) {
    exists s: ServiceName :: GetOrEmpty(env, Prefixed(s, "KMS_MODE")) == "aws"
  }

  function EndpointFindings(env: Env, isLocal: string -> bool): seq<Finding> {
    var endpoint := GetOrEmpty(env, "AWS_ENDPOINT_URL");
    if endpoint == "" then (if UsesAws(env) then [Finding(Error, AwsEndpointMissing, ["AWS_ENDPOINT_URL"])] else [])
    else if !isLocal(endpoint) then [Finding(Error, AwsEndpointNotLocal, ["AWS_ENDPOINT_URL"])] else []
  }

  function ProductionFindings(env: Env): seq<Finding> {
    if GetOrEmpty(env, "STACK_MODE") != "production" then []
    else
      (if "https://" <= GetOrEmpty(env, "AWS_ENDPOINT_URL") then []
       else [Finding(Error, ProductionEndpointNotTls, ["AWS_ENDPOINT_URL"])])
      + (if GetOrEmpty(env, "NODE_EXTRA_CA_CERTS") != "" then []
         else [Finding(Error, TlsCaNotTrusted, ["NODE_EXTRA_CA_CERTS"])])
  }

  const ACCESS_KEY_PREFIXES :=
    ["AKIA", "ASIA", "ABIA", "ACCA", "AIDA", "AROA", "AIPA", "ANPA", "ANVA", "APKA", "AGPA"]

  predicate CapitalOrDigit(c: char) { 'A' <= c <= 'Z' || '0' <= c <= '9' }

  predicate CredentialsLookReal(accessKeyId: string, secretAccessKey: string) {
    || (|accessKeyId| >= 16 && accessKeyId[..4] in ACCESS_KEY_PREFIXES
        && forall i :: 4 <= i < |accessKeyId| ==> CapitalOrDigit(accessKeyId[i]))
    || (accessKeyId != "test" && |secretAccessKey| >= 40)
  }

  function AwsCredentialFindings(env: Env): seq<Finding> {
    if CredentialsLookReal(GetOrEmpty(env, "AWS_ACCESS_KEY_ID"), GetOrEmpty(env, "AWS_SECRET_ACCESS_KEY"))
    then [Finding(Error, AwsCredentialsLookReal, ["AWS_ACCESS_KEY_ID", "AWS_SECRET_ACCESS_KEY"])] else []
  }

  function KafkaFindings(env: Env): seq<Finding> {
    if GetOrEmpty(env, "KAFKA_BROKERS") == "" then [Finding(Error, KafkaBrokersMissing, ["KAFKA_BROKERS"])] else []
  }

  function TlsFindings(env: Env): seq<Finding> {
    if Get(env, "NODE_TLS_REJECT_UNAUTHORIZED") == Some("0")
    then [Finding(Error, TlsVerificationDisabled, ["NODE_TLS_REJECT_UNAUTHORIZED"])] else []
  }

  // ---------------------------------------------------------------- 1a and 7a: scans over the keys

  /** `/^AWS_ENDPOINT_URL_./`; the dot matches no line terminator. */
  predicate EndpointOverride(key: string) {
    && "AWS_ENDPOINT_URL_" < key
    && key[17] != '\n' && key[17] != '\r' && key[17] != '\U{2028}' && key[17] != '\U{2029}'
  }

  /** `/^ANTHROPIC_/i` */
  predicate ProviderCredential(key: string) {
    |key| >= 10 && ToLower(key[..10]) == "anthropic_"
  }

  function OverrideFindings(env: Env): seq<Finding> {
    if env == [] then []
    else
      var n := |env| - 1;
      OverrideFindings(env[..n]) +
      if EndpointOverride(env[n].0) then [Finding(Error, AwsEndpointServiceOverride, [env[n].0])] else []
  }

  function ProviderFindings(env: Env): seq<Finding> {
    if env == [] then []
    else
      var n := |env| - 1;
      ProviderFindings(env[..n]) +
      if ProviderCredential(env[n].0) then [Finding(Warning, ModelProviderCredentialInEnv, [env[n].0])] else []
  }

  method ScanOverrides(env: Env) returns (findings: seq<Finding>)
    ensures findings == OverrideFindings(env)
  {
    hide EndpointOverride;
    findings := [];
    for i := 0 to |env|
      invariant findings == OverrideFindings(env[..i])
    {
      assert env[..i + 1][..i] == env[..i];
      if EndpointOverride(env[i].0) {
        findings := findings + [Finding(Error, AwsEndpointServiceOverride, [env[i].0])];
      }
    }
    assert env[..|env|] == env;
  }

  method ScanProviders(env: Env) returns (findings: seq<Finding>)
    ensures findings == ProviderFindings(env)
  {
    hide ProviderCredential;
    findings := [];
    for i := 0 to |env|
      invariant findings == ProviderFindings(env[..i])
    {
      assert env[..i + 1][..i] == env[..i];
      if ProviderCredential(env[i].0) {
        findings := findings + [Finding(Warning, ModelProviderCredentialInEnv, [env[i].0])];
      }
    }
    assert env[..|env|] == env;
  }

  // ---------------------------------------------------------------- 3: the graph restated against the file

  function HolderFindings(env: Env, edge: Edge, holders: seq<ServiceName>): seq<Finding> {
    if holders == [] then []
    else
      var n := |holders| - 1;
      HolderFindings(env, edge, holders[..n]) +
      if SlotValue(env, edge, holders[n]) != SlotValue(env, edge, edge.callee)
      then [Finding(Error, CredentialMismatch, [Slot(edge, holders[n]), Slot(edge, edge.callee)])] else []
  }

  function EdgeFindings(env: Env, edge: Edge): seq<Finding> {
    if edge.holders == [] then []
    else if SlotValue(env, edge, edge.callee) == "" then
      [Finding(Error, CredentialMissing, [Slot(edge, edge.callee)])]
    else HolderFindings(env, edge, edge.holders)
  }

  function GraphFindings(env: Env, graph: Graph): seq<Finding> {
    if graph == [] then []
    else GraphFindings(env, graph[..|graph| - 1]) + EdgeFindings(env, graph[|graph| - 1])
  }

  method CheckEdge(env: Env, edge: Edge) returns (findings: seq<Finding>)
    ensures findings == EdgeFindings(env, edge)
  {
    hide SlotValue, Slot;
    var expected := SlotValue(env, edge, edge.callee);
    findings := [];
    if edge.holders == [] { return; }
    if expected == "" {
      return [Finding(Error, CredentialMissing, [Slot(edge, edge.callee)])];
    }
    for h := 0 to |edge.holders|
      invariant findings == HolderFindings(env, edge, edge.holders[..h])
    {
      var holder := edge.holders[h];
      assert edge.holders[..h + 1][..h] == edge.holders[..h];
      var held := SlotValue(env, edge, holder);
      if held != expected {
        findings := findings + [Finding(Error, CredentialMismatch, [Slot(edge, holder), Slot(edge, edge.callee)])];
      }
    }
    assert edge.holders[..|edge.holders|] == edge.holders;
  }

  method CheckGraph(env: Env, graph: Graph) returns (findings: seq<Finding>)
    ensures findings == GraphFindings(env, graph)
  {
    hide EdgeFindings;
    findings := [];
    for i := 0 to |graph|
      invariant findings == GraphFindings(env, graph[..i])
    {
      assert graph[..i + 1][..i] == graph[..i];
      var more := CheckEdge(env, graph[i]);
      findings := findings + more;
    }
    assert graph[..|graph|] == graph;
  }

  // ---------------------------------------------------------------- 4: no service's inbound value outbound

  const SERVICE_NAMES :=
    [AiAssistant, Assets, Audit, Documents, Identity, Notifications, Plaid, Profile, Settlement, Vault]

  function OutboundFindings(env: Env, service: ServiceName, inbound: Edge, outbound: seq<Edge>): seq<Finding> {
    if outbound == [] then []
    else
      var n := |outbound| - 1;
      OutboundFindings(env, service, inbound, outbound[..n]) +
      if SlotValue(env, outbound[n], service) == SlotValue(env, inbound, service)
      then [Finding(Error, CredentialAliased, [Slot(inbound, service), Slot(outbound[n], service)])] else []
  }

  function InboundFindings(env: Env, service: ServiceName, inbound: seq<Edge>, outbound: seq<Edge>): seq<Finding> {
    if inbound == [] then []
    else
      var n := |inbound| - 1;
      InboundFindings(env, service, inbound[..n], outbound) +
      if SlotValue(env, inbound[n], service) == "" then [] else OutboundFindings(env, service, inbound[n], outbound)
  }

  function DirectionFindings(env: Env, graph: Graph, services: seq<ServiceName>): seq<Finding> {
    if services == [] then []
    else
      var n := |services| - 1;
      DirectionFindings(env, graph, services[..n]) +
      InboundFindings(env, services[n], Inbound(graph, services[n]), Outbound(graph, services[n]))
  }

  method CheckInbound(env: Env, service: ServiceName, inbound: Edge, outbound: seq<Edge>) returns (findings: seq<Finding>)
    ensures findings == OutboundFindings(env, service, inbound, outbound)
  {
    hide SlotValue, Slot;
    findings := [];
    for i := 0 to |outbound|
      invariant findings == OutboundFindings(env, service, inbound, outbound[..i])
    {
      assert outbound[..i + 1][..i] == outbound[..i];
      if SlotValue(env, outbound[i], service) == SlotValue(env, inbound, service) {
        findings := findings +
          [Finding(Error, CredentialAliased, [Slot(inbound, service), Slot(outbound[i], service)])];
      }
    }
    assert outbound[..|outbound|] == outbound;
  }

  method CheckService(env: Env, graph: Graph, service: ServiceName) returns (findings: seq<Finding>)
    ensures findings == InboundFindings(env, service, Inbound(graph, service), Outbound(graph, service))
  {
    hide SlotValue, OutboundFindings, Inbound, Outbound;
    findings := [];
    var inbound, outbound := Inbound(graph, service), Outbound(graph, service);
    for i := 0 to |inbound|
      invariant findings == InboundFindings(env, service, inbound[..i], outbound)
    {
      assert inbound[..i + 1][..i] == inbound[..i];
      if SlotValue(env, inbound[i], service) != "" {
        var more := CheckInbound(env, service, inbound[i], outbound);
        findings := findings + more;
      }
    }
    assert inbound[..|inbound|] == inbound;
  }

  method CheckDirections(env: Env, graph: Graph) returns (findings: seq<Finding>)
    ensures findings == DirectionFindings(env, graph, SERVICE_NAMES)
  {
    hide InboundFindings, Inbound, Outbound;
    findings := [];
    for i := 0 to |SERVICE_NAMES|
      invariant findings == DirectionFindings(env, graph, SERVICE_NAMES[..i])
    {
      assert SERVICE_NAMES[..i + 1][..i] == SERVICE_NAMES[..i];
      var more := CheckService(env, graph, SERVICE_NAMES[i]);
      findings := findings + more;
    }
    assert SERVICE_NAMES[..|SERVICE_NAMES|] == SERVICE_NAMES;
  }

  // ---------------------------------------------------------------- 4b: no value shared by two callees

  /** Groups the callee slots of held edges by their value. */
  function ByValue(env: Env, graph: Graph): OMap<seq<string>> {
    if graph == [] then []
    else
      var n := |graph| - 1;
      var before := ByValue(env, graph[..n]);
      var value := SlotValue(env, graph[n], graph[n].callee);
      if graph[n].holders == [] || value == "" then before
      else Set(before, value, VarsWith(before, value) + [Slot(graph[n], graph[n].callee)])
  }

  /** `byValue.get(value) ?? []` */
  function VarsWith(byValue: OMap<seq<string>>, value: string): seq<string> {
    var found := Get(byValue, value);
    if found.Some? then found.value else []
  }

  function SharedFindings(byValue: OMap<seq<string>>): seq<Finding> {
    if byValue == [] then []
    else
      var n := |byValue| - 1;
      SharedFindings(byValue[..n]) +
      if |byValue[n].1| > 1 then [Finding(Error, CredentialAliased, byValue[n].1)] else []
  }

  method CheckShared(env: Env, graph: Graph) returns (findings: seq<Finding>)
    ensures findings == SharedFindings(ByValue(env, graph))
  {
    hide SlotValue, Slot, Set, VarsWith;
    var byValue := [];
    for i := 0 to |graph|
      invariant byValue == ByValue(env, graph[..i])
    {
      var edge := graph[i];
      assert graph[..i + 1][..i] == graph[..i];
      var value := SlotValue(env, edge, edge.callee);
      if edge.holders != [] && value != "" {
        byValue := Set(byValue, value, VarsWith(byValue, value) + [Slot(edge, edge.callee)]);
      }
    }
    assert graph[..|graph|] == graph;
    findings := [];
    for i := 0 to |byValue|
      invariant findings == SharedFindings(byValue[..i])
    {
      assert byValue[..i + 1][..i] == byValue[..i];
      if |byValue[i].1| > 1 {
        findings := findings + [Finding(Error, CredentialAliased, byValue[i].1)];
      }
    }
    assert byValue[..|byValue|] == byValue;
  }

  // ---------------------------------------------------------------- 5 and 7: tables

  function DatabaseFindings(env: Env, services: seq<StackService>): seq<Finding> {
    if services == [] then []
    else
      var n := |services| - 1;
      var key := Prefixed(services[n].name, "DATABASE_URL");
      DatabaseFindings(env, services[..n]) +
      if GetOrEmpty(env, key) == "" then [Finding(Error, DatabaseUrlMissing, [key])] else []
  }

  method CheckDatabases(env: Env) returns (findings: seq<Finding>)
    ensures findings == DatabaseFindings(env, SERVICES)
  {
    hide Prefixed;
    findings := [];
    for i := 0 to |SERVICES|
      invariant findings == DatabaseFindings(env, SERVICES[..i])
    {
      assert SERVICES[..i + 1][..i] == SERVICES[..i];
      var key := Prefixed(SERVICES[i].name, "DATABASE_URL");
      if GetOrEmpty(env, key) == "" {
        findings := findings + [Finding(Error, DatabaseUrlMissing, [key])];
      }
    }
    assert SERVICES[..|SERVICES|] == SERVICES;
  }

  /** Which service's variable must hold what for no adapter to be a stub. */
  const ADAPTERS := [
    (Own(Documents, ObjectStoreMode), "s3"),
    (Own(Documents, ScannerMode), "clamd"),
    (Own(Documents, OcrMode), "tesseract"),
    (Own(Vault, NotifyMode), "http"),
    (Own(Settlement, NotifyMode), "http"),
    (Own(Profile, NotifyMode), "http"),
    (Own(Notifications, EmailMode), "ses")
  ]

  function AdapterFindings(env: Env, adapters: seq<(EnvKey, string)>): seq<Finding> {
    if adapters == [] then []
    else
      var n := |adapters| - 1;
      var key := KeyText(adapters[n].0);
      AdapterFindings(env, adapters[..n]) +
      if GetOrEmpty(env, key) != adapters[n].1 then [Finding(Warning, AdapterStubbed, [key])] else []
  }

  method CheckAdapters(env: Env) returns (findings: seq<Finding>)
    ensures findings == AdapterFindings(env, ADAPTERS)
  {
    hide KeyText;
    findings := [];
    for i := 0 to |ADAPTERS|
      invariant findings == AdapterFindings(env, ADAPTERS[..i])
    {
      assert ADAPTERS[..i + 1][..i] == ADAPTERS[..i];
      var (key, expected) := ADAPTERS[i];
      if GetOrEmpty(env, KeyText(key)) != expected {
        findings := findings + [Finding(Warning, AdapterStubbed, [KeyText(key)])];
      }
    }
    assert ADAPTERS[..|ADAPTERS|] == ADAPTERS;
  }

  // ---------------------------------------------------------------- the whole preflight

  function CredentialFindings(env: Env, graph: Graph): seq<Finding> {
    GraphFindings(env, graph) + DirectionFindings(env, graph, SERVICE_NAMES) + SharedFindings(ByValue(env, graph))
  }

  function Findings(env: Env, graph: Graph, consumedBy: Option<Addressing>, isLocal: string -> bool): seq<Finding> {
    AddressingFindings(env, consumedBy) + EndpointFindings(env, isLocal) + OverrideFindings(env)
    + ProductionFindings(env) + AwsCredentialFindings(env)
    + CredentialFindings(env, graph)
    + DatabaseFindings(env, SERVICES) + KafkaFindings(env) + AdapterFindings(env, ADAPTERS)
    + ProviderFindings(env) + TlsFindings(env)
  }

  method Diagnose(env: Env, graph: Graph, consumedBy: Option<Addressing>, isLocal: string -> bool)
      returns (findings: seq<Finding>)
    ensures findings == Findings(env, graph, consumedBy, isLocal)
  {
    hide *;
    findings := AddressingFindings(env, consumedBy) + EndpointFindings(env, isLocal);
    var overrides := ScanOverrides(env);
    findings := findings + overrides + ProductionFindings(env) + AwsCredentialFindings(env);
    var edges := CheckGraph(env, graph);
    var directions := CheckDirections(env, graph);
    var aliases := CheckShared(env, graph);
    findings := findings + (edges + directions + aliases);
    var databases := CheckDatabases(env);
    findings := findings + databases + KafkaFindings(env);
    var adapters := CheckAdapters(env);
    var providers := ScanProviders(env);
    findings := findings + adapters + providers + TlsFindings(env);
    FindingsAre(env, graph, consumedBy, isLocal);
  }

  lemma FindingsAre(env: Env, graph: Graph, consumedBy: Option<Addressing>, isLocal: string -> bool)
    ensures Findings(env, graph, consumedBy, isLocal) ==
      AddressingFindings(env, consumedBy) + EndpointFindings(env, isLocal) + OverrideFindings(env)
      + ProductionFindings(env) + AwsCredentialFindings(env)
      + (GraphFindings(env, graph) + DirectionFindings(env, graph, SERVICE_NAMES) + SharedFindings(ByValue(env, graph)))
      + DatabaseFindings(env, SERVICES) + KafkaFindings(env) + AdapterFindings(env, ADAPTERS)
      + ProviderFindings(env) + TlsFindings(env)
  {
  }
}
