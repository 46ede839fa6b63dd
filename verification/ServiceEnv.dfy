/** The exact process environment of one service, taken from the flat file. */
module ServiceEnv {
  import opened CredentialGraph
  import opened EnvKeys
  import opened OrderedMap
  import opened Topology
  import opened Wrappers

  /** What a variable of the process is set from. */
  datatype Source = File(key: EnvKey) | FileOrEmpty(key: EnvKey) | Literal(text: string) | PeerUrl(peer: ServiceName)

  datatype Want = Want(name: string, source: Source)

  /** The process environment, or the message of the error thrown. */
  type Process = Result<map<string, string>, string>

  function FromFile(env: OMap<string>, key: string): Result<string, string> {
    var found := Get(env, key);
    if found.None? then Err("generated environment is missing " + key) else Ok(found.value)
  }

  function Fetch(env: OMap<string>, addressing: Addressing, source: Source): Result<string, string> {
    match source
    case File(k) => FromFile(env, KeyText(k))
    case FileOrEmpty(k) => Ok(GetOrEmpty(env, KeyText(k)))
    case Literal(text) => Ok(text)
    case PeerUrl(peer) => ServiceUrl(peer, addressing)
  }

  /** `out[name] = value`, where a value that threw ends the construction with its error. */
  function Assign(out: Process, name: string, value: Result<string, string>): Process {
    if out.Err? then out
    else if value.Err? then Err(value.error)
    else Ok(out.value[name := value.value])
  }

  /** The assignments in order; the first that throws decides. */
  function Gather(env: OMap<string>, addressing: Addressing, wanted: seq<Want>): Process {
    if wanted == [] then Ok(map[])
    else
      var n := |wanted| - 1;
      Assign(Gather(env, addressing, wanted[..n]), wanted[n].name, Fetch(env, addressing, wanted[n].source))
  }

  // ---------------------------------------------------------------- what a service wants

  function Peers(service: ServiceName): seq<ServiceName> {
    match service
    case Identity => [Notifications]
    case Profile => [Identity, Notifications, Settlement]
    case Assets => [Identity, Settlement]
    case Plaid => [Identity]
    case Documents => [Identity, Settlement]
    case Vault => [Identity, Settlement, Notifications]
    case Settlement => [Identity, Notifications, Documents]
    case Notifications => []
    case AiAssistant => [Identity, Assets, Documents, Profile]
    case Audit => []
  }

  /** A variable of the service under its own name, without the prefix. */
  function OwnWant(s: ServiceName, v: Var): Want { Want(VarText(v), File(Own(s, v))) }

  function SharedWant(g: Global): Want { Want(GlobalText(g), File(Shared(g))) }

  function HttpWants(service: StackService): seq<Want> {
    if service.port.None? then []
    else [Want("NODE_ENV", File(Shared(StackMode))), Want("PORT", Literal(service.port.value))]
  }

  function KmsWants(service: StackService): seq<Want> {
    if KmsKeyIdFor(service).None? then []
    else [
      OwnWant(service.name, KmsModeVar), OwnWant(service.name, KmsMasterKeyVar), OwnWant(service.name, AwsKmsKeyIdVar),
      SharedWant(AwsRegion), SharedWant(AwsEndpointUrl), SharedWant(AwsAccessKeyId), SharedWant(AwsSecretAccessKey),
      SharedWant(NodeExtraCaCerts)
    ]
  }

  function PeerWant(peer: ServiceName): Want { Want(Prefixed(peer, "URL"), PeerUrl(peer)) }

  function PeerWants(peers: seq<ServiceName>): seq<Want> {
    seq(|peers|, i requires 0 <= i < |peers| => PeerWant(peers[i]))
  }

  function InboundWants(service: ServiceName, edges: seq<Edge>): seq<Want> {
    seq(|edges|, i requires 0 <= i < |edges| =>
      Want(edges[i].envVar, FileOrEmpty(Credential(service, edges[i].envVar))))
  }

  function OutboundWants(service: ServiceName, edges: seq<Edge>): seq<Want> {
    seq(|edges|, i requires 0 <= i < |edges| => Want(edges[i].envVar, File(Credential(service, edges[i].envVar))))
  }

  function OwnWants(s: ServiceName): seq<Want> {
    match s
    case Identity => [OwnWant(s, EmailIndexKey), SharedWant(RpId), SharedWant(RpOrigin), SharedWant(RpName)]
    case Profile => [OwnWant(s, EmailIndexKey), OwnWant(s, NotifyMode)]
    case Plaid => [OwnWant(s, ItemIndexKey), Want("PLAID_MODE", File(Own(s, ModeVar)))]
    case Documents => [
      OwnWant(s, ObjectStoreMode), SharedWant(ObjectStoreBucket), OwnWant(s, SearchIndexKey), OwnWant(s, ScannerMode),
      OwnWant(s, ClamdHost), OwnWant(s, OcrMode), OwnWant(s, OcrUrl)]
    case Vault => [OwnWant(s, NotifyMode)]
    case Settlement => [OwnWant(s, NotifyMode)]
    case Notifications => [OwnWant(s, EmailMode), SharedWant(SesFromAddress)]
    case AiAssistant => [OwnWant(s, LlmMode)]
    case Assets => []
    case Audit => []
  }

  function BaseWants(service: StackService): seq<Want> {
    [OwnWant(service.name, DatabaseUrlVar), SharedWant(KafkaBrokers)]
    + HttpWants(service) + KmsWants(service)
  }

  function CredentialWants(graph: Graph, s: ServiceName): seq<Want> {
    InboundWants(s, Inbound(graph, s)) + OutboundWants(s, Outbound(graph, s))
  }

  function Wanted(graph: Graph, service: StackService): seq<Want> {
    BaseWants(service) + PeerWants(Peers(service.name)) + CredentialWants(graph, service.name) + OwnWants(service.name)
  }

  // ---------------------------------------------------------------- the construction

  lemma GatherOne(env: OMap<string>, addressing: Addressing, done: seq<Want>, want: Want)
    ensures Gather(env, addressing, done + [want]) ==
            Assign(Gather(env, addressing, done), want.name, Fetch(env, addressing, want.source))
  {
    hide Assign, Fetch;
    assert (done + [want])[..|done|] == done;
  }

  method SetAll(env: OMap<string>, addressing: Addressing, before: Process, ghost done: seq<Want>, wants: seq<Want>)
      returns (out: Process)
    requires before == Gather(env, addressing, done)
    ensures out == Gather(env, addressing, done + wants)
  {
    hide Assign, Fetch, Gather;
    out := before;
    assert done + wants[..0] == done;
    for i := 0 to |wants|
      invariant out == Gather(env, addressing, done + wants[..i])
    {
      GatherOne(env, addressing, done + wants[..i], wants[i]);
      assert done + wants[..i] + [wants[i]] == done + wants[..i + 1];
      out := Assign(out, wants[i].name, Fetch(env, addressing, wants[i].source));
    }
    assert done + wants[..|wants|] == done + wants;
  }

  method SetBase(env: OMap<string>, addressing: Addressing, service: StackService) returns (out: Process)
    ensures out == Gather(env, addressing, BaseWants(service))
  {
    hide Gather, HttpWants, KmsWants;
    GatherNone(env, addressing);
    var base := [OwnWant(service.name, DatabaseUrlVar), SharedWant(KafkaBrokers)];
    out := SetAll(env, addressing, Ok(map[]), [], base);
    assert [] + base == base;
    if service.port.Some? {
      out := SetAll(env, addressing, out, base, HttpWants(service));
    } else {
      NoWants(service);
      assert base + HttpWants(service) == base;
    }
    if KmsKeyIdFor(service).Some? {
      out := SetAll(env, addressing, out, base + HttpWants(service), KmsWants(service));
    } else {
      NoWants(service);
      assert base + HttpWants(service) + KmsWants(service) == base + HttpWants(service);
    }
  }

  lemma NoWants(service: StackService)
    ensures service.port.None? ==> HttpWants(service) == []
    ensures KmsKeyIdFor(service).None? ==> KmsWants(service) == []
  {
  }

  lemma GatherNone(env: OMap<string>, addressing: Addressing)
    ensures Gather(env, addressing, []) == Ok(map[])
  {
  }

  method SetPeers(env: OMap<string>, addressing: Addressing, before: Process, ghost done: seq<Want>, peers: seq<ServiceName>)
      returns (out: Process)
    requires before == Gather(env, addressing, done)
    ensures out == Gather(env, addressing, done + PeerWants(peers))
  {
    hide Assign, Gather, Prefixed, ServiceUrl;
    out := before;
    assert done + PeerWants(peers[..0]) == done;
    for i := 0 to |peers|
      invariant out == Gather(env, addressing, done + PeerWants(peers[..i]))
    {
      GatherOne(env, addressing, done + PeerWants(peers[..i]), PeerWant(peers[i]));
      assert done + PeerWants(peers[..i]) + [PeerWant(peers[i])] == done + PeerWants(peers[..i + 1]);
      out := Assign(out, Prefixed(peers[i], "URL"), ServiceUrl(peers[i], addressing));
    }
    assert peers[..|peers|] == peers;
  }

  method SetInbound(env: OMap<string>, addressing: Addressing, before: Process, ghost done: seq<Want>, s: ServiceName,
      edges: seq<Edge>) returns (out: Process)
    requires before == Gather(env, addressing, done)
    ensures out == Gather(env, addressing, done + InboundWants(s, edges))
  {
    hide Assign, Gather, Prefixed, GetOrEmpty;
    out := before;
    assert done + InboundWants(s, edges[..0]) == done;
    for i := 0 to |edges|
      invariant out == Gather(env, addressing, done + InboundWants(s, edges[..i]))
    {
      var envVar := edges[i].envVar;
      var want := Want(envVar, FileOrEmpty(Credential(s, envVar)));
      GatherOne(env, addressing, done + InboundWants(s, edges[..i]), want);
      assert done + InboundWants(s, edges[..i]) + [want] == done + InboundWants(s, edges[..i + 1]);
      out := Assign(out, envVar, Ok(GetOrEmpty(env, Prefixed(s, envVar))));
    }
    assert edges[..|edges|] == edges;
  }

  method SetOutbound(env: OMap<string>, addressing: Addressing, before: Process, ghost done: seq<Want>, s: ServiceName,
      edges: seq<Edge>) returns (out: Process)
    requires before == Gather(env, addressing, done)
    ensures out == Gather(env, addressing, done + OutboundWants(s, edges))
  {
    hide Assign, Gather, Prefixed, FromFile;
    out := before;
    assert done + OutboundWants(s, edges[..0]) == done;
    for i := 0 to |edges|
      invariant out == Gather(env, addressing, done + OutboundWants(s, edges[..i]))
    {
      var envVar := edges[i].envVar;
      var want := Want(envVar, File(Credential(s, envVar)));
      GatherOne(env, addressing, done + OutboundWants(s, edges[..i]), want);
      assert done + OutboundWants(s, edges[..i]) + [want] == done + OutboundWants(s, edges[..i + 1]);
      out := Assign(out, envVar, FromFile(env, Prefixed(s, envVar)));
    }
    assert edges[..|edges|] == edges;
  }

  method ServiceProcessEnv(graph: Graph, service: StackService, env: OMap<string>, addressing: Addressing)
      returns (out: Process)
    ensures out == Gather(env, addressing, Wanted(graph, service))
  {
    hide Gather, BaseWants, PeerWants, InboundWants, OutboundWants, OwnWants, Peers, Inbound, Outbound;
    var s := service.name;
    var base, peers := BaseWants(service), PeerWants(Peers(s));
    var inbound, outbound := InboundWants(s, Inbound(graph, s)), OutboundWants(s, Outbound(graph, s));
    out := SetBase(env, addressing, service);
    out := SetPeers(env, addressing, out, base, Peers(s));
    out := SetInbound(env, addressing, out, base + peers, s, Inbound(graph, s));
    out := SetOutbound(env, addressing, out, base + peers + inbound, s, Outbound(graph, s));
    out := SetAll(env, addressing, out, base + peers + inbound + outbound, OwnWants(s));
    assert base + peers + inbound + outbound + OwnWants(s) == Wanted(graph, service);
  }

  // ---------------------------------------------------------------- which services are started

  predicate OmittedInProduction(service: ServiceName) { service.Plaid? || service.AiAssistant? }

  function PlannedServices(env: OMap<string>, services: seq<StackService>): seq<StackService> {
    if services == [] then []
    else
      (if Get(env, "STACK_MODE") == Some("production") && OmittedInProduction(services[0].name) then []
       else [services[0]]) + PlannedServices(env, services[1..])
  }
}
