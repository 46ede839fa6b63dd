/** The preflight says exactly what is true: which findings there are, what each of them names, and which stop
    the stack. */
module DoctorReports {
  import opened CredentialGraph
  import opened Doctor
  import opened DoctorLaws
  import opened EnvKeys
  import opened OrderedMap
  import opened Text
  import opened Topology
  import opened Wrappers

  // ---------------------------------------------------------------- what each finding says

  predicate Named(f: Finding, severity: Severity, about: seq<string>) { f.severity == severity && f.about == about }

  /** Somebody needs this credential and its callee's slot is empty. */
  predicate MissingAt(env: Env, f: Finding, edge: Edge) {
    && edge.holders != [] && SlotValue(env, edge, edge.callee) == ""
    && Named(f, Error, [Slot(edge, edge.callee)])
  }

  /** The callee's slot is filled and this holder's is not the same. */
  predicate MismatchAt(env: Env, f: Finding, edge: Edge, s: ServiceName) {
    && s in edge.holders && SlotValue(env, edge, edge.callee) != ""
    && SlotValue(env, edge, s) != SlotValue(env, edge, edge.callee)
    && Named(f, Error, [Slot(edge, s), Slot(edge, edge.callee)])
  }

  /** One value in both directions of one service. */
  predicate CollapseAt(env: Env, f: Finding, inbound: Edge, outbound: Edge, s: ServiceName) {
    && inbound.callee == s && Holds(outbound, s)
    && SlotValue(env, inbound, s) != "" && SlotValue(env, outbound, s) == SlotValue(env, inbound, s)
    && Named(f, Error, [Slot(inbound, s), Slot(outbound, s)])
  }

  /** The callees' slots of held edges that hold `value`, in graph order. */
  function Sharers(env: Env, graph: Graph, value: string): seq<string> {
    if graph == [] then []
    else
      var edge := graph[|graph| - 1];
      Sharers(env, graph[..|graph| - 1], value) +
      if edge.holders != [] && SlotValue(env, edge, edge.callee) == value then [Slot(edge, edge.callee)] else []
  }

  /** Several callees accept one value. */
  predicate SharedAt(env: Env, graph: Graph, f: Finding, value: string) {
    value != "" && |Sharers(env, graph, value)| > 1 && Named(f, Error, Sharers(env, graph, value))
  }

  predicate HasKey(env: Env, key: string) { exists i :: 0 <= i < |env| && env[i].0 == key }

  predicate StubbedAt(env: Env, f: Finding, i: nat) {
    && i < |ADAPTERS| && GetOrEmpty(env, KeyText(ADAPTERS[i].0)) != ADAPTERS[i].1
    && Named(f, Warning, [KeyText(ADAPTERS[i].0)])
  }

  predicate OverrideAt(env: Env, f: Finding, key: string) {
    HasKey(env, key) && EndpointOverride(key) && Named(f, Error, [key])
  }

  predicate ProviderAt(env: Env, f: Finding, key: string) {
    HasKey(env, key) && ProviderCredential(key) && Named(f, Warning, [key])
  }

  /** The name of the shared endpoint, an underscore, and at least one character that ends no line. */
  lemma OverrideIsText(key: string)
    ensures EndpointOverride(key) <==>
            exists c: char, rest: string ::
              key == "AWS_ENDPOINT_URL_" + [c] + rest && c !in ['\n', '\r', '\U{2028}', '\U{2029}']
  {
    if EndpointOverride(key) {
      assert key == "AWS_ENDPOINT_URL_" + [key[17]] + key[18..];
    }
  }

  /** `anthropic_` in front, in any mixture of cases. */
  lemma ProviderIsText(key: string)
    ensures ProviderCredential(key) <==>
            |key| >= 10 && forall i :: 0 <= i < 10 ==> key[i] == "anthropic_"[i] || key[i] == "ANTHROPIC_"[i]
  {
    LettersOfProvider();
    if |key| >= 10 {
      var lower := ToLower(key[..10]);
      forall i | 0 <= i < 10
        ensures lower[i] == "anthropic_"[i] <==> key[i] == "anthropic_"[i] || key[i] == "ANTHROPIC_"[i]
      {
        assert lower[i] == LowerChar(key[i]);
      }
      assert |"anthropic_"| == 10;
    }
  }

  lemma LettersOfProvider()
    ensures forall i :: 0 <= i < 10 ==>
              var c := "anthropic_"[i]; LowerChar("ANTHROPIC_"[i]) == c && ('a' <= c <= 'z' || c == '_')
    ensures forall i :: 0 <= i < 10 ==>
              var c := "anthropic_"[i]; if c == '_' then "ANTHROPIC_"[i] == '_' else "ANTHROPIC_"[i] == c - 'a' + 'A'
  {
  }

  /** An access key id of the cloud's own shape: a known prefix and at least twelve capitals or digits; or a long
      secret beside any id but the dummy one. */
  lemma LooksRealIsText(id: string, secret: string)
    ensures CredentialsLookReal(id, secret) <==>
            || (exists prefix, tail: string ::
                  prefix in ACCESS_KEY_PREFIXES && id == prefix + tail && |tail| >= 12
                  && forall i :: 0 <= i < |tail| ==> 'A' <= tail[i] <= 'Z' || '0' <= tail[i] <= '9')
            || (id != "test" && |secret| >= 40)
  {
    PrefixesAreShort();
    if |id| >= 16 { assert id == id[..4] + id[4..]; }
    forall prefix, tail: string | prefix in ACCESS_KEY_PREFIXES && id == prefix + tail
      ensures id[..4] == prefix && id[4..] == tail
    {
    }
  }

  lemma PrefixesAreShort()
    ensures forall p :: p in ACCESS_KEY_PREFIXES ==> |p| == 4
  {
  }

  predicate NoDatabaseAt(env: Env, f: Finding, s: ServiceName) {
    GetOrEmpty(env, Prefixed(s, "DATABASE_URL")) == "" && Named(f, Error, [Prefixed(s, "DATABASE_URL")])
  }

  ghost predicate SaysOfFile(env: Env, consumedBy: Option<Addressing>, isLocal: string -> bool, f: Finding) {
    var endpoint, production := GetOrEmpty(env, "AWS_ENDPOINT_URL"), GetOrEmpty(env, "STACK_MODE") == "production";
    match f.code
    case AddressingMismatch => !AddressedFor(env, consumedBy) && Named(f, Error, ["STACK_ADDRESSING"])
    case AwsEndpointMissing =>
      && endpoint == "" && (exists s: ServiceName :: GetOrEmpty(env, Prefixed(s, "KMS_MODE")) == "aws")
      && Named(f, Error, ["AWS_ENDPOINT_URL"])
    case AwsEndpointNotLocal => endpoint != "" && !isLocal(endpoint) && Named(f, Error, ["AWS_ENDPOINT_URL"])
    case AwsEndpointServiceOverride => exists key :: OverrideAt(env, f, key)
    case ProductionEndpointNotTls => production && !("https://" <= endpoint) && Named(f, Error, ["AWS_ENDPOINT_URL"])
    case TlsCaNotTrusted =>
      production && GetOrEmpty(env, "NODE_EXTRA_CA_CERTS") == "" && Named(f, Error, ["NODE_EXTRA_CA_CERTS"])
    case AwsCredentialsLookReal =>
      && CredentialsLookReal(GetOrEmpty(env, "AWS_ACCESS_KEY_ID"), GetOrEmpty(env, "AWS_SECRET_ACCESS_KEY"))
      && Named(f, Error, ["AWS_ACCESS_KEY_ID", "AWS_SECRET_ACCESS_KEY"])
    case DatabaseUrlMissing => exists s :: NoDatabaseAt(env, f, s)
    case KafkaBrokersMissing => GetOrEmpty(env, "KAFKA_BROKERS") == "" && Named(f, Error, ["KAFKA_BROKERS"])
    case AdapterStubbed => exists i :: StubbedAt(env, f, i)
    case ModelProviderCredentialInEnv => exists key :: ProviderAt(env, f, key)
    case TlsVerificationDisabled =>
      Get(env, "NODE_TLS_REJECT_UNAUTHORIZED") == Some("0") && Named(f, Error, ["NODE_TLS_REJECT_UNAUTHORIZED"])
    case _ => false
  }

  ghost predicate SaysOfGraph(env: Env, graph: Graph, f: Finding) {
    match f.code
    case CredentialMissing => exists edge :: edge in graph && MissingAt(env, f, edge)
    case CredentialMismatch => exists edge, s :: edge in graph && MismatchAt(env, f, edge, s)
    case CredentialAliased =>
      || (exists a, b, s :: a in graph && b in graph && CollapseAt(env, f, a, b, s))
      || (exists value :: SharedAt(env, graph, f, value))
    case _ => false
  }

  // ---------------------------------------------------------------- check 3

  lemma {:induction false} HolderReports(env: Env, edge: Edge, holders: seq<ServiceName>, f: Finding)
    ensures f in HolderFindings(env, edge, holders) <==>
            f.code.CredentialMismatch? &&
            exists s :: s in holders && SlotValue(env, edge, s) != SlotValue(env, edge, edge.callee)
                        && Named(f, Error, [Slot(edge, s), Slot(edge, edge.callee)])
    decreases |holders|
  {
    hide SlotValue, Slot;
    if holders != [] {
      var n := |holders| - 1;
      HolderReports(env, edge, holders[..n], f);
      assert forall s :: s in holders <==> s in holders[..n] || s == holders[n];
    }
  }

  lemma EdgeReports(env: Env, edge: Edge, f: Finding)
    ensures f in EdgeFindings(env, edge) <==>
            || (f.code.CredentialMissing? && MissingAt(env, f, edge))
            || (f.code.CredentialMismatch? && exists s :: MismatchAt(env, f, edge, s))
  {
    hide SlotValue, Slot;
    HolderReports(env, edge, edge.holders, f);
    if s :| f.code.CredentialMismatch? && MismatchAt(env, f, edge, s) {
      assert f in HolderFindings(env, edge, edge.holders);
    }
    if f in EdgeFindings(env, edge) && f.code.CredentialMismatch? {
      var s :| s in edge.holders && SlotValue(env, edge, s) != SlotValue(env, edge, edge.callee)
               && Named(f, Error, [Slot(edge, s), Slot(edge, edge.callee)]);
      assert MismatchAt(env, f, edge, s);
    }
  }

  lemma {:induction false} GraphReports(env: Env, graph: Graph, f: Finding)
    ensures f in GraphFindings(env, graph) <==> exists edge :: edge in graph && f in EdgeFindings(env, edge)
    decreases |graph|
  {
    hide EdgeFindings;
    if graph != [] {
      var n := |graph| - 1;
      GraphReports(env, graph[..n], f);
      assert forall e :: e in graph <==> e in graph[..n] || e == graph[n];
    }
  }

  lemma CheckThreeReports(env: Env, graph: Graph, f: Finding)
    ensures f in GraphFindings(env, graph) <==>
            || (f.code.CredentialMissing? && exists edge :: edge in graph && MissingAt(env, f, edge))
            || (f.code.CredentialMismatch? && exists edge, s :: edge in graph && MismatchAt(env, f, edge, s))
  {
    hide EdgeFindings, GraphFindings, MissingAt, MismatchAt;
    GraphReports(env, graph, f);
    forall edge ensures f in EdgeFindings(env, edge) <==>
                        || (f.code.CredentialMissing? && MissingAt(env, f, edge))
                        || (f.code.CredentialMismatch? && exists s :: MismatchAt(env, f, edge, s)) {
      EdgeReports(env, edge, f);
    }
  }

  // ---------------------------------------------------------------- check 4

  lemma {:induction false} OutboundReports(env: Env, s: ServiceName, inbound: Edge, outbound: seq<Edge>, f: Finding)
    ensures f in OutboundFindings(env, s, inbound, outbound) <==>
            f.code.CredentialAliased? &&
            exists e :: e in outbound && SlotValue(env, e, s) == SlotValue(env, inbound, s)
                        && Named(f, Error, [Slot(inbound, s), Slot(e, s)])
    decreases |outbound|
  {
    hide SlotValue, Slot;
    if outbound != [] {
      var n := |outbound| - 1;
      OutboundReports(env, s, inbound, outbound[..n], f);
      assert forall e :: e in outbound <==> e in outbound[..n] || e == outbound[n];
    }
  }

  lemma {:induction false} InboundReports(env: Env, s: ServiceName, inbound: seq<Edge>, outbound: seq<Edge>, f: Finding)
    ensures f in InboundFindings(env, s, inbound, outbound) <==>
            exists a :: a in inbound && SlotValue(env, a, s) != "" && f in OutboundFindings(env, s, a, outbound)
    decreases |inbound|
  {
    hide SlotValue, OutboundFindings;
    if inbound != [] {
      var n := |inbound| - 1;
      InboundReports(env, s, inbound[..n], outbound, f);
      assert forall a :: a in inbound <==> a in inbound[..n] || a == inbound[n];
    }
  }

  lemma ServiceReports(env: Env, graph: Graph, s: ServiceName, f: Finding)
    ensures f in InboundFindings(env, s, Inbound(graph, s), Outbound(graph, s)) <==>
            f.code.CredentialAliased? && exists a, b :: a in graph && b in graph && CollapseAt(env, f, a, b, s)
  {
    hide SlotValue, Slot, Inbound, Outbound, OutboundFindings, InboundFindings, Holds;
    var inbound, outbound := Inbound(graph, s), Outbound(graph, s);
    InboundReports(env, s, inbound, outbound, f);
    forall e ensures e in inbound <==> e in graph && e.callee == s { InboundAre(graph, s, e); }
    forall e ensures e in outbound <==> e in graph && Holds(e, s) { OutboundAre(graph, s, e); }
    if f in InboundFindings(env, s, inbound, outbound) {
      var a :| a in inbound && SlotValue(env, a, s) != "" && f in OutboundFindings(env, s, a, outbound);
      OutboundReports(env, s, a, outbound, f);
      var b :| b in outbound && SlotValue(env, b, s) == SlotValue(env, a, s) && Named(f, Error, [Slot(a, s), Slot(b, s)]);
      assert CollapseAt(env, f, a, b, s);
    }
    if f.code.CredentialAliased? {
      if a, b :| a in graph && b in graph && CollapseAt(env, f, a, b, s) { OutboundReports(env, s, a, outbound, f); }
    }
  }

  predicate Collapses(env: Env, graph: Graph, s: ServiceName, f: Finding) {
    f in InboundFindings(env, s, Inbound(graph, s), Outbound(graph, s))
  }

  lemma {:induction false} ServicesReport(env: Env, graph: Graph, services: seq<ServiceName>, f: Finding)
    ensures f in DirectionFindings(env, graph, services) <==>
            exists s :: s in services && Collapses(env, graph, s, f)
    decreases |services|
  {
    hide InboundFindings, Inbound, Outbound;
    if services != [] {
      var n := |services| - 1;
      ServicesReport(env, graph, services[..n], f);
      assert f in DirectionFindings(env, graph, services) <==>
             f in DirectionFindings(env, graph, services[..n]) || Collapses(env, graph, services[n], f);
      assert forall s :: s in services <==> s in services[..n] || s == services[n];
    }
  }

  lemma CheckFourReports(env: Env, graph: Graph, f: Finding)
    ensures f in DirectionFindings(env, graph, SERVICE_NAMES) <==>
            f.code.CredentialAliased? && exists a, b, s :: a in graph && b in graph && CollapseAt(env, f, a, b, s)
  {
    hide InboundFindings, Inbound, Outbound, DirectionFindings, CollapseAt;
    ServicesReport(env, graph, SERVICE_NAMES, f);
    forall s ensures Collapses(env, graph, s, f) <==>
                     f.code.CredentialAliased? && exists a, b :: a in graph && b in graph && CollapseAt(env, f, a, b, s) {
      ServiceReports(env, graph, s, f);
    }
    forall s: ServiceName ensures s in SERVICE_NAMES { EveryService(s); }
    if f.code.CredentialAliased? {
      if a, b, s :| a in graph && b in graph && CollapseAt(env, f, a, b, s) {
        assert s in SERVICE_NAMES && Collapses(env, graph, s, f);
      }
    }
  }

  // ---------------------------------------------------------------- check 4b

  lemma {:induction false} GroupIsSharers(env: Env, graph: Graph, value: string)
    requires value != ""
    ensures VarsWith(ByValue(env, graph), value) == Sharers(env, graph, value)
    decreases |graph|
  {
    hide SlotValue, Slot, Set, Get;
    if graph == [] {
      EmptyGroup(value);
    } else {
      var n := |graph| - 1;
      var before := ByValue(env, graph[..n]);
      var own := SlotValue(env, graph[n], graph[n].callee);
      GroupIsSharers(env, graph[..n], value);
      GetAfterSet(before, own, VarsWith(before, own) + [Slot(graph[n], graph[n].callee)], value);
    }
  }

  lemma {:induction false} SharedMembers(byValue: OMap<seq<string>>, f: Finding)
    ensures f in SharedFindings(byValue) <==>
            exists i :: 0 <= i < |byValue| && |byValue[i].1| > 1 && f == Finding(Error, CredentialAliased, byValue[i].1)
    decreases |byValue|
  {
    if byValue != [] {
      var n := |byValue| - 1;
      SharedMembers(byValue[..n], f);
      if i :| 0 <= i < n && |byValue[..n][i].1| > 1 && f == Finding(Error, CredentialAliased, byValue[..n][i].1) {
        assert byValue[i] == byValue[..n][i];
      }
      if i :| 0 <= i < n && |byValue[i].1| > 1 && f == Finding(Error, CredentialAliased, byValue[i].1) {
        assert byValue[..n][i] == byValue[i];
      }
    }
  }

  lemma CheckFourBReports(env: Env, graph: Graph, f: Finding)
    ensures f in SharedFindings(ByValue(env, graph)) <==>
            f.code.CredentialAliased? && exists value :: SharedAt(env, graph, f, value)
  {
    hide SlotValue, SharedFindings, ByValue, Sharers, Get;
    var byValue := ByValue(env, graph);
    SharedMembers(byValue, f);
    ByValueDistinct(env, graph);
    if i :| 0 <= i < |byValue| && |byValue[i].1| > 1 && f == Finding(Error, CredentialAliased, byValue[i].1) {
      NoEmptyValue(env, graph, i);
      GetAt(byValue, i);
      GroupIsSharers(env, graph, byValue[i].0);
      assert SharedAt(env, graph, f, byValue[i].0);
    }
    if f.code.CredentialAliased? {
      if value :| SharedAt(env, graph, f, value) {
        GroupIsSharers(env, graph, value);
        GetSome(byValue, value);
        var at :| 0 <= at < |byValue| && byValue[at] == (value, VarsWith(byValue, value));
      }
    }
  }

  lemma CredentialReports(env: Env, graph: Graph, f: Finding)
    ensures f in CredentialFindings(env, graph) <==> SaysOfGraph(env, graph, f)
  {
    hide GraphFindings, DirectionFindings, SharedFindings, ByValue, MissingAt, MismatchAt, CollapseAt, SharedAt;
    CheckThreeReports(env, graph, f);
    CheckFourReports(env, graph, f);
    CheckFourBReports(env, graph, f);
  }

  // ---------------------------------------------------------------- the other checks

  lemma {:induction false} OverridesReport(env: Env, f: Finding)
    ensures f in OverrideFindings(env) <==>
            f.code.AwsEndpointServiceOverride?
            && exists i :: 0 <= i < |env| && EndpointOverride(env[i].0) && Named(f, Error, [env[i].0])
    decreases |env|
  {
    hide EndpointOverride;
    if env != [] {
      var n := |env| - 1;
      OverridesReport(env[..n], f);
      if i :| 0 <= i < n && EndpointOverride(env[i].0) && Named(f, Error, [env[i].0]) {
        assert env[..n][i] == env[i];
      }
      if i :| 0 <= i < n && EndpointOverride(env[..n][i].0) && Named(f, Error, [env[..n][i].0]) {
        assert env[..n][i] == env[i];
      }
    }
  }

  lemma {:induction false} ProvidersReport(env: Env, f: Finding)
    ensures f in ProviderFindings(env) <==>
            f.code.ModelProviderCredentialInEnv?
            && exists i :: 0 <= i < |env| && ProviderCredential(env[i].0) && Named(f, Warning, [env[i].0])
    decreases |env|
  {
    hide ProviderCredential;
    if env != [] {
      var n := |env| - 1;
      ProvidersReport(env[..n], f);
      if i :| 0 <= i < n && ProviderCredential(env[i].0) && Named(f, Warning, [env[i].0]) {
        assert env[..n][i] == env[i];
      }
      if i :| 0 <= i < n && ProviderCredential(env[..n][i].0) && Named(f, Warning, [env[..n][i].0]) {
        assert env[..n][i] == env[i];
      }
    }
  }

  lemma {:induction false} DatabasesReport(env: Env, services: seq<StackService>, f: Finding)
    ensures f in DatabaseFindings(env, services) <==>
            f.code.DatabaseUrlMissing? && exists i :: 0 <= i < |services| && NoDatabaseAt(env, f, services[i].name)
    decreases |services|
  {
    hide Prefixed, GetOrEmpty;
    if services != [] {
      var n := |services| - 1;
      DatabasesReport(env, services[..n], f);
      if i :| 0 <= i < n && NoDatabaseAt(env, f, services[i].name) { assert services[..n][i] == services[i]; }
      if i :| 0 <= i < n && NoDatabaseAt(env, f, services[..n][i].name) { assert services[..n][i] == services[i]; }
    }
  }

  predicate StubbedIn(env: Env, f: Finding, adapter: (EnvKey, string)) {
    GetOrEmpty(env, KeyText(adapter.0)) != adapter.1 && Named(f, Warning, [KeyText(adapter.0)])
  }

  lemma {:induction false} AdaptersReport(env: Env, adapters: seq<(EnvKey, string)>, f: Finding)
    ensures f in AdapterFindings(env, adapters) <==>
            f.code.AdapterStubbed? && exists i :: 0 <= i < |adapters| && StubbedIn(env, f, adapters[i])
    decreases |adapters|
  {
    hide KeyText, GetOrEmpty;
    if adapters != [] {
      var n := |adapters| - 1;
      AdaptersReport(env, adapters[..n], f);
      if i :| 0 <= i < n && StubbedIn(env, f, adapters[i]) { assert adapters[..n][i] == adapters[i]; }
      if i :| 0 <= i < n && StubbedIn(env, f, adapters[..n][i]) { assert adapters[..n][i] == adapters[i]; }
    }
  }

  lemma ScansReport(env: Env, f: Finding)
    ensures f in OverrideFindings(env) <==> f.code.AwsEndpointServiceOverride? && exists key :: OverrideAt(env, f, key)
    ensures f in ProviderFindings(env) <==> f.code.ModelProviderCredentialInEnv? && exists key :: ProviderAt(env, f, key)
  {
    hide EndpointOverride, ProviderCredential, OverrideFindings, ProviderFindings;
    OverridesReport(env, f);
    ProvidersReport(env, f);
    if i :| 0 <= i < |env| && EndpointOverride(env[i].0) && Named(f, Error, [env[i].0]) {
      assert HasKey(env, env[i].0) && OverrideAt(env, f, env[i].0);
    }
    if i :| 0 <= i < |env| && ProviderCredential(env[i].0) && Named(f, Warning, [env[i].0]) {
      assert HasKey(env, env[i].0) && ProviderAt(env, f, env[i].0);
    }
  }

  lemma TablesReport(env: Env, f: Finding)
    ensures f in DatabaseFindings(env, SERVICES) <==> f.code.DatabaseUrlMissing? && exists s :: NoDatabaseAt(env, f, s)
    ensures f in AdapterFindings(env, ADAPTERS) <==> f.code.AdapterStubbed? && exists i :: StubbedAt(env, f, i)
  {
    hide NoDatabaseAt, DatabaseFindings, AdapterFindings, KeyText, GetOrEmpty, Place, SERVICES, ADAPTERS;
    DatabasesReport(env, SERVICES, f);
    AdaptersReport(env, ADAPTERS, f);
    if f.code.DatabaseUrlMissing? {
      if s :| NoDatabaseAt(env, f, s) { PlaceFinds(s); }
    }
    if i :| 0 <= i < |ADAPTERS| && StubbedIn(env, f, ADAPTERS[i]) { assert StubbedAt(env, f, i); }
    if i: nat :| StubbedAt(env, f, i) { assert StubbedIn(env, f, ADAPTERS[i]); }
  }

  lemma QuestionsReport(env: Env, consumedBy: Option<Addressing>, isLocal: string -> bool, f: Finding)
    ensures f in AddressingFindings(env, consumedBy) <==>
            f.code.AddressingMismatch? && SaysOfFile(env, consumedBy, isLocal, f)
    ensures f in EndpointFindings(env, isLocal) <==>
            (f.code.AwsEndpointMissing? || f.code.AwsEndpointNotLocal?) && SaysOfFile(env, consumedBy, isLocal, f)
    ensures f in AwsCredentialFindings(env) <==> f.code.AwsCredentialsLookReal? && SaysOfFile(env, consumedBy, isLocal, f)
  {
    hide GetOrEmpty, CredentialsLookReal, Prefixed;
  }

  lemma SettingsReport(env: Env, consumedBy: Option<Addressing>, isLocal: string -> bool, f: Finding)
    ensures f in ProductionFindings(env) <==>
            (f.code.ProductionEndpointNotTls? || f.code.TlsCaNotTrusted?) && SaysOfFile(env, consumedBy, isLocal, f)
    ensures f in KafkaFindings(env) <==> f.code.KafkaBrokersMissing? && SaysOfFile(env, consumedBy, isLocal, f)
    ensures f in TlsFindings(env) <==> f.code.TlsVerificationDisabled? && SaysOfFile(env, consumedBy, isLocal, f)
  {
    hide GetOrEmpty, Get;
  }

  /** A finding is reported exactly when what it says is true, of the right slots and with the right severity. */
  lemma FindingsAreTheTruth(env: Env, graph: Graph, consumedBy: Option<Addressing>, isLocal: string -> bool, f: Finding)
    ensures f in Findings(env, graph, consumedBy, isLocal) <==>
            SaysOfFile(env, consumedBy, isLocal, f) || SaysOfGraph(env, graph, f)
  {
    hide AddressingFindings, EndpointFindings, OverrideFindings, ProductionFindings, AwsCredentialFindings,
      CredentialFindings, DatabaseFindings, KafkaFindings, AdapterFindings, ProviderFindings, TlsFindings, SERVICES,
      ADAPTERS, GetOrEmpty, Get, UsesAws, CredentialsLookReal, OverrideAt, ProviderAt, NoDatabaseAt, StubbedAt,
      SaysOfGraph, AddressedFor;
    QuestionsReport(env, consumedBy, isLocal, f);
    SettingsReport(env, consumedBy, isLocal, f);
    ScansReport(env, f);
    TablesReport(env, f);
    CredentialReports(env, graph, f);
  }

  // ---------------------------------------------------------------- what stops the stack

  /** Every finding but a stubbed adapter and a provider key stops the stack, and those two never do. */
  lemma SeverityOf(env: Env, graph: Graph, consumedBy: Option<Addressing>, isLocal: string -> bool, f: Finding)
    requires f in Findings(env, graph, consumedBy, isLocal)
    ensures f.severity == if f.code.AdapterStubbed? || f.code.ModelProviderCredentialInEnv? then Warning else Error
  {
    hide Findings, AddressedFor, SlotValue, Slot, GetOrEmpty, Get, UsesAws, CredentialsLookReal, HasKey, Sharers;
    FindingsAreTheTruth(env, graph, consumedBy, isLocal, f);
  }

  ghost predicate Refuses(env: Env, graph: Graph, consumedBy: Option<Addressing>, isLocal: string -> bool) {
    exists f :: f in Findings(env, graph, consumedBy, isLocal) && f.severity == Error
  }

  /** The stack is refused exactly when the file is not addressed for its reader, may leave the machine, is not
      encrypted where it must be, does not provision the graph, or lacks a database or the brokers: a stubbed
      adapter or a provider's key does not keep it from starting. */
  lemma RefusesIff(env: Env, graph: Graph, consumedBy: Option<Addressing>, isLocal: string -> bool)
    requires WellFormed(graph)
    ensures !Refuses(env, graph, consumedBy, isLocal) <==>
            && AddressedFor(env, consumedBy) && StaysLocal(env, isLocal) && Encrypted(env)
            && (exists values :: Provisioned(env, graph, values)) && UnheldApart(env, graph)
            && (forall s :: GetOrEmpty(env, Prefixed(s, "DATABASE_URL")) != "") && GetOrEmpty(env, "KAFKA_BROKERS") != ""
  {
    hide *;
    AddressingSilent(env, consumedBy);
    LocalSilent(env, isLocal);
    EncryptedSilent(env);
    EveryDatabase(env);
    KafkaSilent(env);
    DoctorDecidesProvisioning(env, graph);
    ErrorsAre(env, graph, consumedBy, isLocal);
  }

  lemma KafkaSilent(env: Env)
    ensures KafkaFindings(env) == [] <==> GetOrEmpty(env, "KAFKA_BROKERS") != ""
  {
    hide GetOrEmpty;
  }

  /** Warnings come from two checks only. */
  lemma ErrorsAre(env: Env, graph: Graph, consumedBy: Option<Addressing>, isLocal: string -> bool)
    ensures !Refuses(env, graph, consumedBy, isLocal) <==>
            && AddressingFindings(env, consumedBy) == []
            && (EndpointFindings(env, isLocal) == [] && OverrideFindings(env) == [] && AwsCredentialFindings(env) == [])
            && (ProductionFindings(env) == [] && TlsFindings(env) == [])
            && CredentialFindings(env, graph) == []
            && DatabaseFindings(env, SERVICES) == [] && KafkaFindings(env) == []
  {
    hide AddressingFindings, EndpointFindings, OverrideFindings, ProductionFindings, AwsCredentialFindings,
      CredentialFindings, DatabaseFindings, KafkaFindings, AdapterFindings, ProviderFindings, TlsFindings, SERVICES,
      ADAPTERS;
    var warnings := AdapterFindings(env, ADAPTERS) + ProviderFindings(env);
    forall f: Finding
      ensures f in AddressingFindings(env, consumedBy) || f in EndpointFindings(env, isLocal)
              || f in OverrideFindings(env) || f in AwsCredentialFindings(env) || f in ProductionFindings(env)
              || f in TlsFindings(env) || f in CredentialFindings(env, graph) || f in DatabaseFindings(env, SERVICES)
              || f in KafkaFindings(env) ==>
              f in Findings(env, graph, consumedBy, isLocal) && f !in warnings
    {
      OneCheckEach(env, graph, consumedBy, isLocal, f);
    }
    forall f | f in Findings(env, graph, consumedBy, isLocal) ensures f in warnings <==> f.severity == Warning {
      SeverityOf(env, graph, consumedBy, isLocal, f);
      OneCheckEach(env, graph, consumedBy, isLocal, f);
    }
    NonEmpty(AddressingFindings(env, consumedBy));
    NonEmpty(EndpointFindings(env, isLocal));
    NonEmpty(OverrideFindings(env));
    NonEmpty(AwsCredentialFindings(env));
    NonEmpty(ProductionFindings(env));
    NonEmpty(TlsFindings(env));
    NonEmpty(CredentialFindings(env, graph));
    NonEmpty(DatabaseFindings(env, SERVICES));
    NonEmpty(KafkaFindings(env));
  }

  lemma NonEmpty(findings: seq<Finding>)
    ensures findings != [] <==> exists f :: f in findings
  {
    if findings != [] { assert findings[0] in findings; }
  }

  /** Checks do not share codes: warnings come from their two checks and errors from the others. */
  lemma OneCheckEach(env: Env, graph: Graph, consumedBy: Option<Addressing>, isLocal: string -> bool, f: Finding)
    ensures var warnings := AdapterFindings(env, ADAPTERS) + ProviderFindings(env);
            && (f in warnings ==> f.code.AdapterStubbed? || f.code.ModelProviderCredentialInEnv?)
            && (f in Findings(env, graph, consumedBy, isLocal) && f !in warnings ==>
                  !f.code.AdapterStubbed? && !f.code.ModelProviderCredentialInEnv?)
            && (f in AddressingFindings(env, consumedBy) || f in EndpointFindings(env, isLocal)
                || f in OverrideFindings(env) || f in AwsCredentialFindings(env) || f in ProductionFindings(env)
                || f in TlsFindings(env) || f in CredentialFindings(env, graph) || f in DatabaseFindings(env, SERVICES)
                || f in KafkaFindings(env) ==>
                f in Findings(env, graph, consumedBy, isLocal) && f !in warnings)
  {
    hide AddressingFindings, EndpointFindings, OverrideFindings, ProductionFindings, AwsCredentialFindings,
      CredentialFindings, DatabaseFindings, KafkaFindings, AdapterFindings, ProviderFindings, TlsFindings, SERVICES,
      ADAPTERS, SaysOfFile, OverrideAt, ProviderAt, NoDatabaseAt, StubbedAt;
    QuestionsReport(env, consumedBy, isLocal, f);
    SettingsReport(env, consumedBy, isLocal, f);
    ScansReport(env, f);
    TablesReport(env, f);
    CredentialReports(env, graph, f);
  }
}
