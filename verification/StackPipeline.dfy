/** The pieces together: what is generated, printed and parsed back passes the preflight, starts every
    service, and gives both ends of every edge the same credential. */
module StackPipeline {
  import opened CredentialGraph
  import opened Doctor
  import opened DoctorLaws
  import opened EnvFile
  import opened EnvGeneration
  import opened EnvKeys
  import opened EnvLookup
  import opened EnvPrinting
  import opened OrderedMap
  import opened Readdressing
  import opened ServiceEnv
  import opened Text
  import opened Topology
  import opened Wrappers

  /** The secret mint never repeats itself and never returns an empty value. */
  ghost predicate SecretsApart(mints: Mints) {
    && (forall i: nat, j: nat :: i != j ==> mints.secrets(i) != mints.secrets(j))
    && (forall i: nat :: mints.secrets(i) != "")
  }

  /** The endpoints the generator writes are recognised as local. */
  ghost predicate KnowsLocal(isLocal: string -> bool) {
    forall addressing, mode :: isLocal(NetworkFor(addressing, mode).awsEndpoint)
  }

  // ---------------------------------------------------------------- reading single keys

  lemma PlannedValue(plan: Plan, mints: Mints, k: EnvKey)
    requires WellFormed(plan.graph) && Planned(plan.graph, k)
    ensures Get(Environment(plan, mints), KeyText(k)) == Some(Resolve(ValueOf(plan, k), mints))
    ensures GetOrEmpty(Environment(plan, mints), KeyText(k)) == Resolve(ValueOf(plan, k), mints)
  {
    hide WellFormed, Planned, ProperKey, KeyText, ValueOf, Resolve, Environment, Get;
    PlannedIsProper(plan.graph, k);
    Lookup(plan, mints, k);
  }

  lemma SharedRead(plan: Plan, mints: Mints, g: Global)
    requires WellFormed(plan.graph)
    ensures GetOrEmpty(Environment(plan, mints), GlobalText(g)) == GlobalValue(plan.mode, plan.addressing, g)
  {
    PlannedValue(plan, mints, Shared(g));
    hide WellFormed, Environment, GetOrEmpty, GlobalText, GlobalValue;
  }

  lemma OwnRead(plan: Plan, mints: Mints, s: ServiceName, v: Var)
    requires WellFormed(plan.graph) && Written(s, v)
    ensures GetOrEmpty(Environment(plan, mints), Prefixed(s, VarText(v))) ==
            Resolve(OwnValue(plan.mode, plan.addressing, s, v), mints)
  {
    PlannedValue(plan, mints, Own(s, v));
    hide WellFormed, Environment, GetOrEmpty, Prefixed, OwnValue, VarText, Written, Resolve;
  }

  /** A key with no service's prefix that is not a shared name is nowhere in the file. */
  lemma ForeignKey(plan: Plan, mints: Mints, i: nat, key: string)
    requires i < |Environment(plan, mints)| && Environment(plan, mints)[i].0 == key
    requires |key| >= 3 && ServiceOf(key) == None
    ensures exists g :: GlobalText(g) == key
  {
    hide Environment, Planned, ValueOf, Resolve, Prefixed, ServiceOf;
    var k := KeysKnown(plan, mints, i);
    match k {
      case Shared(g) => assert GlobalText(g) == key;
      case Own(s, v) => PrefixedFound(s, VarText(v));
      case Credential(s, envVar) => PrefixedFound(s, envVar);
    }
  }

  // ---------------------------------------------------------------- the credential slots

  lemma SlotIsPlanned(graph: Graph, i: nat, s: ServiceName)
    requires WellFormed(graph) && i < |graph| && graph[i].holders != [] && Takes(graph[i], s)
    ensures Planned(graph, Credential(s, graph[i].envVar))
    ensures Get(Granted(graph, s), graph[i].envVar) == Some(Held(graph[..i]))
  {
    hide WellFormed, Takes, Granted, Held, Get;
    SlotIsGranted(graph, s, i);
  }

  /** Every slot of a held edge holds that edge's secret. */
  lemma SlotHoldsSecret(plan: Plan, mints: Mints, i: nat, s: ServiceName)
    requires WellFormed(plan.graph) && i < |plan.graph| && plan.graph[i].holders != [] && Takes(plan.graph[i], s)
    ensures SlotValue(Environment(plan, mints), plan.graph[i], s) == mints.secrets(Held(plan.graph[..i]))
    ensures Get(Environment(plan, mints), Slot(plan.graph[i], s)).Some?
  {
    hide WellFormed, Takes, Held, Get, GetOrEmpty, Environment, Granted, Planned, Prefixed;
    SlotIsPlanned(plan.graph, i, s);
    PlannedValue(plan, mints, Credential(s, plan.graph[i].envVar));
  }

  /** The slot of an edge nobody holds stays empty. */
  lemma UnheldSlotIsEmpty(plan: Plan, mints: Mints, i: nat, s: ServiceName)
    requires WellFormed(plan.graph) && i < |plan.graph| && plan.graph[i].holders == [] && Takes(plan.graph[i], s)
    ensures SlotValue(Environment(plan, mints), plan.graph[i], s) == ""
  {
    hide Takes, Get, Environment, Granted, Prefixed, Unreserved, Trimmed;
    var k := Credential(s, plan.graph[i].envVar);
    assert WellNamed(plan.graph[i]);
    Lookup(plan, mints, k);
    if Planned(plan.graph, k) {
      GetSome(Granted(plan.graph, s), k.envVar);
      var j := GrantedIsSlot(plan.graph, s, k.envVar);
      OneEdgePerSlot(plan.graph, i, j, s);
      assert false;
    }
  }

  lemma OneEdgePerSlot(graph: Graph, i: nat, j: nat, s: ServiceName)
    requires WellFormed(graph) && i < |graph| && j < |graph| && Takes(graph[i], s) && Takes(graph[j], s)
    requires graph[i].envVar == graph[j].envVar
    ensures i == j
  {
    hide Takes;
  }

  lemma GraphPasses(plan: Plan, mints: Mints)
    requires WellFormed(plan.graph) && SecretsApart(mints)
    ensures GraphFindings(Environment(plan, mints), plan.graph) == []
  {
    hide WellFormed, Environment, SlotValue, GraphFindings, EdgeFindings, Held;
    var env, graph := Environment(plan, mints), plan.graph;
    forall i | 0 <= i < |graph| ensures EdgeFindings(env, graph[i]) == [] {
      EdgeSilent(env, graph[i]);
      if graph[i].holders != [] {
        SlotHoldsSecret(plan, mints, i, graph[i].callee);
        forall s | s in graph[i].holders ensures SlotValue(env, graph[i], s) == SlotValue(env, graph[i], graph[i].callee) {
          SlotHoldsSecret(plan, mints, i, s);
        }
      }
    }
    GraphSilent(env, graph);
  }

  lemma SharedPasses(plan: Plan, mints: Mints)
    requires WellFormed(plan.graph) && SecretsApart(mints)
    ensures SharedFindings(ByValue(Environment(plan, mints), plan.graph)) == []
  {
    hide WellFormed, Environment, SlotValue, SharedFindings, ByValue, Held;
    var env, graph := Environment(plan, mints), plan.graph;
    forall i, j | 0 <= i < j < |graph| && graph[i].holders != [] && graph[j].holders != []
      ensures !SameKey(env, graph[i], graph[j])
    {
      SlotHoldsSecret(plan, mints, i, graph[i].callee);
      SlotHoldsSecret(plan, mints, j, graph[j].callee);
      SecretsAreOwn(graph, i, j);
    }
    SharedIffUnshared(env, graph);
  }

  lemma OwnDirectionsPass(plan: Plan, mints: Mints, a: Edge, b: Edge, s: ServiceName)
    requires WellFormed(plan.graph) && SecretsApart(mints)
    requires a in plan.graph && b in plan.graph && a.callee == s && Holds(b, s)
    ensures OwnDirections(Environment(plan, mints), s, a, b)
  {
    hide Environment, SlotValue, Held, Separate, Unreserved, Trimmed;
    var graph := plan.graph;
    var i :| 0 <= i < |graph| && graph[i] == a;
    var j :| 0 <= j < |graph| && graph[j] == b;
    assert WellNamed(graph[i]);
    assert i != j;
    if a.holders == [] {
      UnheldSlotIsEmpty(plan, mints, i, s);
    } else {
      SlotHoldsSecret(plan, mints, i, s);
      SlotHoldsSecret(plan, mints, j, s);
      SecretsAreOwn(graph, i, j);
    }
  }

  lemma CredentialsPass(plan: Plan, mints: Mints)
    requires WellFormed(plan.graph) && SecretsApart(mints)
    ensures CredentialFindings(Environment(plan, mints), plan.graph) == []
  {
    hide WellFormed, SecretsApart, Environment, GraphFindings, SharedFindings, ByValue, DirectionFindings,
      OwnDirections, Holds;
    GraphPasses(plan, mints);
    SharedPasses(plan, mints);
    forall a, b, s | a in plan.graph && b in plan.graph && a.callee == s && Holds(b, s)
      ensures OwnDirections(Environment(plan, mints), s, a, b)
    {
      OwnDirectionsPass(plan, mints, a, b, s);
    }
    DirectionsSilent(Environment(plan, mints), plan.graph);
  }

  // ---------------------------------------------------------------- the other checks

  lemma AddressingPasses(plan: Plan, mints: Mints)
    requires WellFormed(plan.graph)
    ensures AddressingFindings(Environment(plan, mints), Some(plan.addressing)) == []
  {
    SharedRead(plan, mints, StackAddressing);
    hide WellFormed, Environment, GetOrEmpty;
  }

  lemma EndpointPasses(plan: Plan, mints: Mints, isLocal: string -> bool)
    requires WellFormed(plan.graph) && KnowsLocal(isLocal)
    ensures EndpointFindings(Environment(plan, mints), isLocal) == []
  {
    hide WellFormed, Environment, GetOrEmpty, UsesAws, NetworkFor, Plain;
    SharedRead(plan, mints, AwsEndpointUrl);
    EndpointWritten(plan);
    assert isLocal(NetworkFor(plan.addressing, plan.mode).awsEndpoint);
  }

  lemma EndpointWritten(plan: Plan)
    ensures NetworkFor(plan.addressing, plan.mode).awsEndpoint != ""
    ensures GlobalText(AwsEndpointUrl) == "AWS_ENDPOINT_URL"
  {
  }

  lemma ProductionPasses(plan: Plan, mints: Mints)
    requires WellFormed(plan.graph)
    ensures ProductionFindings(Environment(plan, mints)) == []
  {
    hide WellFormed, Environment, GetOrEmpty, NetworkFor, TlsCaPathFor, ModeText;
    SharedRead(plan, mints, StackMode);
    SharedRead(plan, mints, AwsEndpointUrl);
    SharedRead(plan, mints, NodeExtraCaCerts);
    HttpsInProduction(plan.addressing);
  }

  lemma HttpsInProduction(addressing: Addressing)
    ensures "https://" <= NetworkFor(addressing, Production).awsEndpoint
    ensures TlsCaPathFor(addressing) != ""
    ensures ModeText(Development) != "production"
  {
  }

  lemma AwsCredentialsPass(plan: Plan, mints: Mints)
    requires WellFormed(plan.graph)
    ensures AwsCredentialFindings(Environment(plan, mints)) == []
  {
    SharedRead(plan, mints, AwsAccessKeyId);
    SharedRead(plan, mints, AwsSecretAccessKey);
    hide WellFormed, Environment, GetOrEmpty;
  }

  lemma KafkaPasses(plan: Plan, mints: Mints)
    requires WellFormed(plan.graph)
    ensures KafkaFindings(Environment(plan, mints)) == []
  {
    SharedRead(plan, mints, KafkaBrokers);
    NetworkPlain(plan.addressing, plan.mode);
    hide WellFormed, Environment, GetOrEmpty, NetworkFor;
  }

  lemma DatabasesPass(plan: Plan, mints: Mints)
    requires WellFormed(plan.graph)
    ensures DatabaseFindings(Environment(plan, mints), SERVICES) == []
  {
    hide WellFormed, Environment, GetOrEmpty, Prefixed, DatabaseFindings, Record;
    forall s ensures GetOrEmpty(Environment(plan, mints), Prefixed(s, "DATABASE_URL")) != "" {
      OwnRead(plan, mints, s, DatabaseUrlVar);
    }
    EveryDatabase(Environment(plan, mints));
  }

  lemma AdapterPlanned(plan: Plan, i: nat)
    requires i < |ADAPTERS|
    ensures Planned(plan.graph, ADAPTERS[i].0) && ValueOf(plan, ADAPTERS[i].0) == Fixed(ADAPTERS[i].1)
  {
  }

  lemma AdaptersPass(plan: Plan, mints: Mints)
    requires WellFormed(plan.graph)
    ensures AdapterFindings(Environment(plan, mints), ADAPTERS) == []
  {
    hide WellFormed, Environment, GetOrEmpty, KeyText, Planned, ValueOf, AdapterFindings;
    forall i | 0 <= i < |ADAPTERS|
      ensures GetOrEmpty(Environment(plan, mints), KeyText(ADAPTERS[i].0)) == ADAPTERS[i].1
    {
      AdapterPlanned(plan, i);
      PlannedValue(plan, mints, ADAPTERS[i].0);
    }
    AdaptersSilent(Environment(plan, mints), ADAPTERS);
  }

  lemma NoSharedOverride(g: Global)
    ensures !EndpointOverride(GlobalText(g))
  {
    var t := GlobalText(g);
    if |t| > 17 {
      assert t[0] != 'A' || t[4] != 'E';
      assert "AWS_ENDPOINT_URL_"[0] == 'A' && "AWS_ENDPOINT_URL_"[4] == 'E';
    }
  }

  lemma NoSharedProvider(g: Global)
    ensures !ProviderCredential(GlobalText(g)) && GlobalText(g) != "NODE_TLS_REJECT_UNAUTHORIZED"
  {
    var t := GlobalText(g);
    if |t| >= 10 {
      assert t[1] != 'N' && t[1] != 'n';
      assert t[..10][1] == t[1];
      assert "anthropic_"[1] == 'n';
    }
  }

  lemma OverridesPass(plan: Plan, mints: Mints)
    ensures OverrideFindings(Environment(plan, mints)) == []
  {
    hide Environment, GlobalText, OverrideFindings;
    var env := Environment(plan, mints);
    forall i | 0 <= i < |env| ensures !EndpointOverride(env[i].0) {
      if EndpointOverride(env[i].0) {
        OverrideIsForeign(env[i].0);
        ForeignKey(plan, mints, i, env[i].0);
        var g :| GlobalText(g) == env[i].0;
        NoSharedOverride(g);
        assert false;
      }
    }
    OverridesSilent(env);
  }

  lemma OverrideIsForeign(key: string)
    requires EndpointOverride(key)
    ensures |key| >= 3 && ServiceOf(key) == None
  {
    assert key[1] == "AWS_ENDPOINT_URL_"[1];
    assert key[0] == "AWS_ENDPOINT_URL_"[0];
  }

  lemma ProviderIsForeign(key: string)
    requires ProviderCredential(key)
    ensures |key| >= 3 && ServiceOf(key) == None
  {
    assert LowerChar(key[..10][0]) == ToLower(key[..10])[0] == 'a';
    assert LowerChar(key[..10][1]) == ToLower(key[..10])[1] == 'n';
    assert key[0] == 'A' || key[0] == 'a';
    assert key[1] == 'N' || key[1] == 'n';
  }

  lemma ProvidersPass(plan: Plan, mints: Mints)
    ensures ProviderFindings(Environment(plan, mints)) == []
  {
    hide Environment, GlobalText, ProviderFindings, ProviderCredential, ServiceOf;
    var env := Environment(plan, mints);
    forall i | 0 <= i < |env| ensures !ProviderCredential(env[i].0) {
      if ProviderCredential(env[i].0) {
        ProviderIsForeign(env[i].0);
        ForeignKey(plan, mints, i, env[i].0);
        var g :| GlobalText(g) == env[i].0;
        NoSharedProvider(g);
        assert false;
      }
    }
    ProvidersSilent(env);
  }

  lemma TlsPasses(plan: Plan, mints: Mints)
    ensures TlsFindings(Environment(plan, mints)) == []
  {
    hide Environment, GlobalText, Get;
    var env, key := Environment(plan, mints), "NODE_TLS_REJECT_UNAUTHORIZED";
    if Get(env, key).Some? {
      GetSome(env, key);
      var i :| 0 <= i < |env| && env[i].0 == key;
      ForeignKey(plan, mints, i, key);
      var g :| GlobalText(g) == key;
      NoSharedProvider(g);
      assert false;
    }
  }

  // ---------------------------------------------------------------- end to end

  /** The preflight of the parsed file, asked by the addressing it was made for, finds nothing. */
  lemma GeneratedFilePasses(plan: Plan, mints: Mints, isLocal: string -> bool)
    requires WellFormed(plan.graph) && CleanMints(mints) && SecretsApart(mints) && KnowsLocal(isLocal)
    ensures Findings(Parsed(Rendered(Generated(plan, mints), plan.mode)), plan.graph, Some(plan.addressing), isLocal) == []
  {
    hide *;
    FileGivesEnvironment(plan, mints);
    AddressingPasses(plan, mints);
    EndpointPasses(plan, mints, isLocal);
    OverridesPass(plan, mints);
    ProductionPasses(plan, mints);
    AwsCredentialsPass(plan, mints);
    CredentialsPass(plan, mints);
    DatabasesPass(plan, mints);
    KafkaPasses(plan, mints);
    AdaptersPass(plan, mints);
    ProvidersPass(plan, mints);
    TlsPasses(plan, mints);
    NoFindings(Environment(plan, mints), plan.graph, Some(plan.addressing), isLocal);
  }

  // ---------------------------------------------------------------- processes

  /** Every variable of a service's process comes from a shared key or from a key of that service. */
  predicate OwnSource(source: Source, s: ServiceName) {
    match source
    case File(k) => k.Shared? || k.service == s
    case FileOrEmpty(k) => k.Shared? || k.service == s
    case _ => true
  }

  /** The file a want reads is written, and a peer it addresses has a port. */
  predicate Satisfied(graph: Graph, source: Source) {
    match source
    case File(k) => Planned(graph, k)
    case PeerUrl(peer) => !peer.Audit?
    case _ => true
  }

  lemma FirstWantsSatisfied(graph: Graph, service: StackService, w: Want)
    requires w in BaseWants(service) && w !in KmsWants(service)
    ensures Satisfied(graph, w.source) && OwnSource(w.source, service.name)
  {
    hide KmsWants;
  }

  lemma KmsWantSatisfied(graph: Graph, service: StackService, w: Want)
    requires Record(service.name) == service && w in KmsWants(service)
    ensures Satisfied(graph, w.source) && OwnSource(w.source, service.name)
  {
    hide Record, GlobalText, VarText;
    var wants := KmsWants(service);
    var i :| 0 <= i < |wants| && wants[i] == w;
  }

  lemma PeerWantSatisfied(graph: Graph, s: ServiceName, w: Want)
    requires w in PeerWants(Peers(s))
    ensures Satisfied(graph, w.source) && OwnSource(w.source, s)
  {
    hide Prefixed;
    assert forall p :: p in Peers(s) ==> !p.Audit?;
  }

  lemma OwnWantAt(s: ServiceName, i: nat)
    requires i < |OwnWants(s)|
    ensures var source := OwnWants(s)[i].source;
            source.File? &&
            (source.key.Shared? || (source.key.Own? && source.key.service == s && Written(s, source.key.variable)))
  {
    hide GlobalText, VarText, Record;
  }

  lemma OwnWantSatisfied(graph: Graph, s: ServiceName, w: Want)
    requires w in OwnWants(s)
    ensures Satisfied(graph, w.source) && OwnSource(w.source, s)
  {
    hide OwnWants, Written, Granted, Get;
    var wants := OwnWants(s);
    var i :| 0 <= i < |wants| && wants[i] == w;
    OwnWantAt(s, i);
  }

  lemma CredentialWantsSatisfied(graph: Graph, s: ServiceName, w: Want)
    requires WellFormed(graph) && w in CredentialWants(graph, s)
    ensures Satisfied(graph, w.source) && OwnSource(w.source, s)
  {
    hide WellFormed, Inbound, Outbound, Planned, Granted, Get, Held;
    var inbound, outbound := Inbound(graph, s), Outbound(graph, s);
    if w in OutboundWants(s, outbound) {
      var j :| 0 <= j < |outbound| && OutboundWants(s, outbound)[j] == w;
      OutboundAre(graph, s, outbound[j]);
      assert outbound[j] in outbound;
      var i :| 0 <= i < |graph| && graph[i] == outbound[j];
      SlotIsPlanned(graph, i, s);
    }
  }

  lemma WantsSatisfied(graph: Graph, service: StackService, w: Want)
    requires WellFormed(graph) && Record(service.name) == service && w in Wanted(graph, service)
    ensures Satisfied(graph, w.source) && OwnSource(w.source, service.name)
  {
    hide WellFormed, BaseWants, KmsWants, PeerWants, Peers, OwnWants, CredentialWants, Satisfied, OwnSource, Record;
    if w in KmsWants(service) {
      KmsWantSatisfied(graph, service, w);
    } else if w in BaseWants(service) {
      FirstWantsSatisfied(graph, service, w);
    } else if w in PeerWants(Peers(service.name)) {
      PeerWantSatisfied(graph, service.name, w);
    } else if w in CredentialWants(graph, service.name) {
      CredentialWantsSatisfied(graph, service.name, w);
    } else {
      OwnWantSatisfied(graph, service.name, w);
    }
  }

  lemma {:induction false} GatherSucceeds(env: Env, addressing: Addressing, wanted: seq<Want>)
    requires forall w :: w in wanted ==> Fetch(env, addressing, w.source).Ok?
    ensures Gather(env, addressing, wanted).Ok?
    decreases |wanted|
  {
    hide Fetch;
    if wanted != [] {
      assert wanted[|wanted| - 1] in wanted;
      GatherSucceeds(env, addressing, wanted[..|wanted| - 1]);
    }
  }

  lemma PeerHasUrl(peer: ServiceName, addressing: Addressing)
    requires !peer.Audit?
    ensures ServiceUrl(peer, addressing).Ok?
  {
  }

  lemma SatisfiedFetches(plan: Plan, mints: Mints, source: Source)
    requires WellFormed(plan.graph) && Satisfied(plan.graph, source)
    ensures Fetch(Environment(plan, mints), plan.addressing, source).Ok?
  {
    hide WellFormed, Environment, Planned, KeyText, Get, GetOrEmpty, ServiceUrl, ValueOf, Resolve;
    match source {
      case File(k) => PlannedValue(plan, mints, k);
      case PeerUrl(peer) => PeerHasUrl(peer, plan.addressing);
      case _ =>
    }
  }

  /** Building the process environment of any service from the parsed file never throws. */
  lemma EveryServiceStarts(plan: Plan, mints: Mints, s: ServiceName)
    requires WellFormed(plan.graph) && CleanMints(mints)
    ensures Gather(Parsed(Rendered(Generated(plan, mints), plan.mode)), plan.addressing, Wanted(plan.graph, Record(s))).Ok?
  {
    hide WellFormed, CleanMints, Environment, Fetch, Gather, Wanted, Record, Parsed, Rendered, Generated, Satisfied;
    FileGivesEnvironment(plan, mints);
    RecordOf(s);
    forall w | w in Wanted(plan.graph, Record(s)) ensures Fetch(Environment(plan, mints), plan.addressing, w.source).Ok? {
      WantsSatisfied(plan.graph, Record(s), w);
      SatisfiedFetches(plan, mints, w.source);
    }
    GatherSucceeds(Environment(plan, mints), plan.addressing, Wanted(plan.graph, Record(s)));
  }

  lemma RecordOf(s: ServiceName)
    ensures Record(s).name == s && Record(Record(s).name) == Record(s)
  {
    PlaceFinds(s);
  }

  /** No variable of a process is filled from another service's key. */
  lemma OnlyOwnKeys(graph: Graph, s: ServiceName, w: Want)
    requires WellFormed(graph) && w in Wanted(graph, Record(s))
    ensures OwnSource(w.source, s)
  {
    hide WellFormed, Wanted, Record, OwnSource, Satisfied;
    RecordOf(s);
    WantsSatisfied(graph, Record(s), w);
  }

  // ---------------------------------------------------------------- both ends of an edge

  /** A variable that the later assignments all set alike holds that value. */
  lemma {:induction false} GatherSettles(env: Env, addressing: Addressing, xs: seq<Want>, ys: seq<Want>,
      name: string, v: string)
    requires Gather(env, addressing, xs + ys).Ok?
    requires forall i :: 0 <= i < |ys| && ys[i].name == name && Fetch(env, addressing, ys[i].source).Ok? ==>
               Fetch(env, addressing, ys[i].source) == Ok(v)
    requires exists i :: 0 <= i < |ys| && ys[i].name == name
    ensures name in Gather(env, addressing, xs + ys).value && Gather(env, addressing, xs + ys).value[name] == v
    decreases |ys|
  {
    hide Fetch;
    var n := |ys| - 1;
    assert (xs + ys)[..|xs| + n] == xs + ys[..n];
    if ys[n].name != name {
      var i :| 0 <= i < |ys| && ys[i].name == name;
      assert ys[..n][i].name == name;
      GatherSettles(env, addressing, xs, ys[..n], name, v);
    }
  }

  /** The name a process gives an own or shared key, but for `PLAID_MODE`. */
  predicate NamedAfter(w: Want) {
    w.source.File? &&
    match w.source.key
    case Shared(g) => GlobalText(g) == w.name
    case Own(_, v) => VarText(v) == w.name
    case _ => false
  }

  lemma OwnWantName(s: ServiceName, i: nat)
    requires i < |OwnWants(s)|
    ensures OwnWants(s)[i].name == "PLAID_MODE" || NamedAfter(OwnWants(s)[i])
  {
    hide GlobalText, VarText;
  }

  lemma OwnWantReserved(s: ServiceName, w: Want)
    requires w in OwnWants(s)
    ensures !Unreserved(w.name)
  {
    hide OwnWants, GlobalText, VarText;
    var wants := OwnWants(s);
    var i :| 0 <= i < |wants| && wants[i] == w;
    OwnWantName(s, i);
  }

  lemma CredentialWantFetches(env: Env, addressing: Addressing, graph: Graph, s: ServiceName, w: Want)
    requires w in CredentialWants(graph, s) && Fetch(env, addressing, w.source).Ok?
    ensures Fetch(env, addressing, w.source) == Ok(GetOrEmpty(env, Prefixed(s, w.name)))
  {
    hide Inbound, Outbound, Prefixed, Get;
  }

  lemma EdgeIsWanted(graph: Graph, i: nat, s: ServiceName) returns (k: nat)
    requires i < |graph| && Takes(graph[i], s)
    ensures k < |CredentialWants(graph, s)| && CredentialWants(graph, s)[k].name == graph[i].envVar
  {
    hide Inbound, Outbound;
    var inbound, outbound := Inbound(graph, s), Outbound(graph, s);
    InboundAre(graph, s, graph[i]);
    OutboundAre(graph, s, graph[i]);
    assert graph[i] in graph;
    if graph[i].callee == s {
      k :| 0 <= k < |inbound| && inbound[k] == graph[i];
    } else {
      var j :| 0 <= j < |outbound| && outbound[j] == graph[i];
      k := |inbound| + j;
    }
  }

  /** The process of a service gets, for each of its edges, what the file has in its slot. */
  lemma ProcessGetsSlot(env: Env, addressing: Addressing, graph: Graph, i: nat, s: ServiceName)
    requires WellFormed(graph) && i < |graph| && Takes(graph[i], s)
    requires Gather(env, addressing, Wanted(graph, Record(s))).Ok?
    ensures var out := Gather(env, addressing, Wanted(graph, Record(s))).value;
            graph[i].envVar in out && out[graph[i].envVar] == SlotValue(env, graph[i], s)
  {
    hide Takes, Separate, Fetch, Gather, Record, BaseWants, PeerWants, Peers, CredentialWants, OwnWants, Unreserved,
      GetOrEmpty, Prefixed;
    RecordOf(s);
    var xs := BaseWants(Record(s)) + PeerWants(Peers(s));
    var credentials, own := CredentialWants(graph, s), OwnWants(s);
    var ys := credentials + own;
    var name, v := graph[i].envVar, SlotValue(env, graph[i], s);
    assert WellNamed(graph[i]);
    assert xs + ys == Wanted(graph, Record(s));
    var k := EdgeIsWanted(graph, i, s);
    assert ys[k].name == name;
    forall j | 0 <= j < |ys| && ys[j].name == name && Fetch(env, addressing, ys[j].source).Ok?
      ensures Fetch(env, addressing, ys[j].source) == Ok(v)
    {
      if j < |credentials| {
        assert ys[j] == credentials[j];
        CredentialWantFetches(env, addressing, graph, s, ys[j]);
      } else {
        assert ys[j] == own[j - |credentials|];
        OwnWantReserved(s, ys[j]);
      }
    }
    GatherSettles(env, addressing, xs, ys, name, v);
  }

  /** In any file that passes check 3, also a hand-edited one, a holder's process presents exactly the
      credential its callee's process expects. */
  lemma BothEndsAgree(env: Env, addressing: Addressing, graph: Graph, i: nat, holder: ServiceName)
    requires WellFormed(graph) && GraphFindings(env, graph) == []
    requires i < |graph| && holder in graph[i].holders
    requires Gather(env, addressing, Wanted(graph, Record(holder))).Ok?
    requires Gather(env, addressing, Wanted(graph, Record(graph[i].callee))).Ok?
    ensures var presented := Gather(env, addressing, Wanted(graph, Record(holder))).value;
            var expected := Gather(env, addressing, Wanted(graph, Record(graph[i].callee))).value;
            && graph[i].envVar in presented && graph[i].envVar in expected
            && presented[graph[i].envVar] == expected[graph[i].envVar] != ""
  {
    hide WellFormed, Gather, Record, Wanted, SlotValue, GraphFindings, EdgeFindings;
    ProcessGetsSlot(env, addressing, graph, i, holder);
    ProcessGetsSlot(env, addressing, graph, i, graph[i].callee);
    GraphSilent(env, graph);
    EdgeSilent(env, graph[i]);
  }

  /** End to end: both processes of an edge start with the one secret minted for it. */
  lemma BothEndsGetTheSecret(plan: Plan, mints: Mints, i: nat, s: ServiceName)
    requires WellFormed(plan.graph) && CleanMints(mints) && SecretsApart(mints)
    requires i < |plan.graph| && plan.graph[i].holders != [] && Takes(plan.graph[i], s)
    ensures var env := Parsed(Rendered(Generated(plan, mints), plan.mode));
            var out := Gather(env, plan.addressing, Wanted(plan.graph, Record(s)));
            out.Ok? && plan.graph[i].envVar in out.value
            && out.value[plan.graph[i].envVar] == mints.secrets(Held(plan.graph[..i]))
  {
    hide *;
    FileGivesEnvironment(plan, mints);
    EveryServiceStarts(plan, mints, s);
    ProcessGetsSlot(Environment(plan, mints), plan.addressing, plan.graph, i, s);
    SlotHoldsSecret(plan, mints, i, s);
  }

  // ---------------------------------------------------------------- which services run

  lemma {:induction false} PlannedAre(env: Env, services: seq<StackService>, service: StackService)
    ensures service in PlannedServices(env, services) <==>
            service in services && !(Get(env, "STACK_MODE") == Some("production") && OmittedInProduction(service.name))
  {
    hide Get, OmittedInProduction;
    if services != [] {
      PlannedAre(env, services[1..], service);
      assert service in services <==> service == services[0] || service in services[1..];
    }
  }

  /** The supervisor and compose agree: a service is started exactly when its generated compose profile, if
      it has one, is an ordinary one. */
  lemma SupervisorAgreesWithCompose(plan: Plan, mints: Mints, s: ServiceName)
    requires WellFormed(plan.graph)
    ensures var env := Environment(plan, mints);
            Record(s) in PlannedServices(env, SERVICES) <==>
            (Written(s, ProfileVar) ==>
               GetOrEmpty(env, Prefixed(s, VarText(ProfileVar))) == if s.Plaid? then "plaid" else "services")
  {
    hide WellFormed, Environment, Get, GetOrEmpty, PlannedServices, Prefixed, Record, VarText;
    var env := Environment(plan, mints);
    PlaceFinds(s);
    RecordOf(s);
    RecordListed(s);
    PlannedAre(env, SERVICES, Record(s));
    EnvironmentComplete(plan.graph, plan.mode, plan.addressing, plan.addressing, mints);
    if Written(s, ProfileVar) { OwnRead(plan, mints, s, ProfileVar); }
    ProfilesDiffer(plan.mode, s);
  }

  lemma RecordListed(s: ServiceName)
    ensures Record(s) in SERVICES
  {
  }

  lemma ProfilesDiffer(mode: Mode, s: ServiceName)
    ensures ModeText(mode) == "production" <==> mode.Production?
    ensures s.Plaid? ==> (ComposeProfile(mode, s) == "plaid" <==> mode.Development?)
    ensures s.AiAssistant? ==> (ComposeProfile(mode, s) == "services" <==> mode.Development?)
  {
  }
}
