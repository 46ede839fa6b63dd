/** What the preflight's credential checks decide together. */
module DoctorLaws {
  import opened CredentialGraph
  import opened Doctor
  import opened EnvKeys
  import opened OrderedMap
  import opened Topology
  import opened Wrappers

  // ---------------------------------------------------------------- what silence of each check means

  lemma {:induction false} HoldersSilent(env: Env, edge: Edge, holders: seq<ServiceName>)
    ensures HolderFindings(env, edge, holders) == [] <==>
            forall s :: s in holders ==> SlotValue(env, edge, s) == SlotValue(env, edge, edge.callee)
    decreases |holders|
  {
    hide SlotValue, Slot;
    if holders != [] {
      var n := |holders| - 1;
      HoldersSilent(env, edge, holders[..n]);
      assert forall s :: s in holders <==> s in holders[..n] || s == holders[n];
    }
  }

  /** The callee's slot is filled and every holder has a copy of it. */
  ghost predicate Agreed(env: Env, edge: Edge) {
    && SlotValue(env, edge, edge.callee) != ""
    && forall s :: s in edge.holders ==> SlotValue(env, edge, s) == SlotValue(env, edge, edge.callee)
  }

  lemma EdgeSilent(env: Env, edge: Edge)
    ensures EdgeFindings(env, edge) == [] <==> (edge.holders == [] || Agreed(env, edge))
  {
    hide SlotValue, Slot;
    HoldersSilent(env, edge, edge.holders);
  }

  lemma {:induction false} GraphSilent(env: Env, graph: Graph)
    ensures GraphFindings(env, graph) == [] <==>
            forall i :: 0 <= i < |graph| ==> EdgeFindings(env, graph[i]) == []
    decreases |graph|
  {
    hide EdgeFindings;
    if graph != [] { GraphSilent(env, graph[..|graph| - 1]); }
  }

  lemma {:induction false} OutboundSilent(env: Env, service: ServiceName, inbound: Edge, outbound: seq<Edge>)
    ensures OutboundFindings(env, service, inbound, outbound) == [] <==>
            forall e :: e in outbound ==> SlotValue(env, e, service) != SlotValue(env, inbound, service)
    decreases |outbound|
  {
    hide SlotValue, Slot;
    if outbound != [] {
      var n := |outbound| - 1;
      OutboundSilent(env, service, inbound, outbound[..n]);
      assert forall e :: e in outbound <==> e in outbound[..n] || e == outbound[n];
    }
  }

  lemma {:induction false} InboundSilent(env: Env, service: ServiceName, inbound: seq<Edge>, outbound: seq<Edge>)
    ensures InboundFindings(env, service, inbound, outbound) == [] <==>
            forall a, b :: a in inbound && b in outbound ==> OwnDirections(env, service, a, b)
    decreases |inbound|
  {
    hide SlotValue, OutboundFindings;
    if inbound != [] {
      var n := |inbound| - 1;
      InboundSilent(env, service, inbound[..n], outbound);
      OutboundSilent(env, service, inbound[n], outbound);
      assert forall a :: a in inbound <==> a in inbound[..n] || a == inbound[n];
      assert SlotValue(env, inbound[n], service) == "" || OutboundFindings(env, service, inbound[n], outbound) == [] <==>
             forall b :: b in outbound ==> OwnDirections(env, service, inbound[n], b);
    }
  }

  /** An inbound credential that is set differs from the outbound one. */
  predicate OwnDirections(env: Env, service: ServiceName, inbound: Edge, outbound: Edge) {
    SlotValue(env, inbound, service) != "" ==> SlotValue(env, outbound, service) != SlotValue(env, inbound, service)
  }

  lemma ServiceSilent(env: Env, graph: Graph, service: ServiceName)
    ensures InboundFindings(env, service, Inbound(graph, service), Outbound(graph, service)) == [] <==>
            forall a, b :: a in graph && b in graph && a.callee == service && Holds(b, service) ==>
                             OwnDirections(env, service, a, b)
  {
    hide OwnDirections, InboundFindings, Inbound, Outbound, Holds;
    InboundSilent(env, service, Inbound(graph, service), Outbound(graph, service));
    forall e ensures e in Inbound(graph, service) <==> e in graph && e.callee == service { InboundAre(graph, service, e); }
    forall e ensures e in Outbound(graph, service) <==> e in graph && Holds(e, service) { OutboundAre(graph, service, e); }
  }

  lemma {:induction false} ServicesSilent(env: Env, graph: Graph, services: seq<ServiceName>)
    ensures DirectionFindings(env, graph, services) == [] <==>
            forall a, b, s :: s in services && a in graph && b in graph && a.callee == s && Holds(b, s) ==>
                                OwnDirections(env, s, a, b)
    decreases |services|
  {
    hide OwnDirections, InboundFindings, Holds, Inbound, Outbound;
    if services != [] {
      var n := |services| - 1;
      ServicesSilent(env, graph, services[..n]);
      ServiceSilent(env, graph, services[n]);
      assert forall s :: s in services <==> s in services[..n] || s == services[n];
    }
  }

  /** Check 4 is silent exactly when no service's inbound credential is one of its outbound ones. */
  lemma DirectionsSilent(env: Env, graph: Graph)
    ensures DirectionFindings(env, graph, SERVICE_NAMES) == [] <==>
            forall a, b, s :: a in graph && b in graph && a.callee == s && Holds(b, s) ==> OwnDirections(env, s, a, b)
  {
    hide OwnDirections, DirectionFindings, Holds;
    ServicesSilent(env, graph, SERVICE_NAMES);
    forall s: ServiceName ensures s in SERVICE_NAMES { EveryService(s); }
  }

  lemma EveryService(s: ServiceName)
    ensures s in SERVICE_NAMES
  {
    var at := match s
      case AiAssistant => 0 case Assets => 1 case Audit => 2 case Documents => 3 case Identity => 4
      case Notifications => 5 case Plaid => 6 case Profile => 7 case Settlement => 8 case Vault => 9;
    assert SERVICE_NAMES[at] == s;
  }

  // ---------------------------------------------------------------- 4b

  lemma {:induction false} ByValueDistinct(env: Env, graph: Graph)
    ensures Distinct(ByValue(env, graph))
    decreases |graph|
  {
    hide SlotValue, Slot, VarsWith, Set;
    if graph != [] {
      var n := |graph| - 1;
      var before := ByValue(env, graph[..n]);
      var value := SlotValue(env, graph[n], graph[n].callee);
      ByValueDistinct(env, graph[..n]);
      SetDistinct(before, value, VarsWith(before, value) + [Slot(graph[n], graph[n].callee)]);
    }
  }

  /** How many held edges have this value in their callee's slot. */
  function Sharing(env: Env, graph: Graph, value: string): nat {
    if graph == [] then 0
    else
      var n := |graph| - 1;
      Sharing(env, graph[..n], value) +
      if graph[n].holders != [] && SlotValue(env, graph[n], graph[n].callee) == value then 1 else 0
  }

  lemma {:induction false} GroupSize(env: Env, graph: Graph, value: string)
    requires value != ""
    ensures |VarsWith(ByValue(env, graph), value)| == Sharing(env, graph, value)
    decreases |graph|
  {
    hide SlotValue, Slot, Set, Get;
    if graph == [] {
      EmptyGroup(value);
    } else {
      var n := |graph| - 1;
      var before := ByValue(env, graph[..n]);
      var own := SlotValue(env, graph[n], graph[n].callee);
      GroupSize(env, graph[..n], value);
      GetAfterSet(before, own, VarsWith(before, own) + [Slot(graph[n], graph[n].callee)], value);
    }
  }

  lemma EmptyGroup(value: string)
    ensures VarsWith([], value) == []
  {
  }

  lemma {:induction false} SharingPair(env: Env, graph: Graph, value: string, i: nat, j: nat)
    requires i < j < |graph| && graph[i].holders != [] && graph[j].holders != []
    requires SlotValue(env, graph[i], graph[i].callee) == value == SlotValue(env, graph[j], graph[j].callee)
    ensures Sharing(env, graph, value) >= 2
    decreases |graph|
  {
    hide SlotValue;
    var n := |graph| - 1;
    if j < n {
      SharingPair(env, graph[..n], value, i, j);
    } else {
      SharingOne(env, graph[..n], value, i);
    }
  }

  lemma {:induction false} SharingOne(env: Env, graph: Graph, value: string, i: nat)
    requires i < |graph| && graph[i].holders != [] && SlotValue(env, graph[i], graph[i].callee) == value
    ensures Sharing(env, graph, value) >= 1
    decreases |graph|
  {
    hide SlotValue;
    if i < |graph| - 1 { SharingOne(env, graph[..|graph| - 1], value, i); }
  }

  /** No two held edges have the same value set in their callees' slots. */
  ghost predicate Unshared(env: Env, graph: Graph) {
    forall i, j :: 0 <= i < j < |graph| ==> !SameKey(env, graph[i], graph[j])
  }

  predicate SameKey(env: Env, a: Edge, b: Edge) {
    && a.holders != [] && b.holders != []
    && SlotValue(env, a, a.callee) != "" && SlotValue(env, a, a.callee) == SlotValue(env, b, b.callee)
  }

  lemma {:induction false} UnsharedCount(env: Env, graph: Graph, value: string)
    requires Unshared(env, graph) && value != ""
    ensures Sharing(env, graph, value) <= 1
    ensures Sharing(env, graph, value) == 1 ==>
            exists i :: 0 <= i < |graph| && graph[i].holders != [] && SlotValue(env, graph[i], graph[i].callee) == value
    decreases |graph|
  {
    hide SlotValue;
    if graph != [] {
      var n := |graph| - 1;
      UnsharedCount(env, graph[..n], value);
      if Sharing(env, graph[..n], value) == 1 {
        var i :| 0 <= i < n && graph[..n][i].holders != [] && SlotValue(env, graph[..n][i], graph[..n][i].callee) == value;
        assert graph[i] == graph[..n][i];
      }
    }
  }

  ghost predicate AllAlone(byValue: OMap<seq<string>>) {
    forall i :: 0 <= i < |byValue| ==> Alone(byValue[i])
  }

  predicate Alone(group: (string, seq<string>)) { |group.1| <= 1 }

  lemma AllAloneStep(front: OMap<seq<string>>, last: (string, seq<string>))
    ensures AllAlone(front + [last]) <==> AllAlone(front) && Alone(last)
  {
    hide Alone;
    if AllAlone(front + [last]) {
      assert (front + [last])[|front|] == last;
      forall i | 0 <= i < |front| ensures Alone(front[i]) { assert (front + [last])[i] == front[i]; }
    }
  }

  lemma {:induction false} SharedSilent(byValue: OMap<seq<string>>)
    ensures SharedFindings(byValue) == [] <==> AllAlone(byValue)
    decreases |byValue|
  {
    hide AllAlone;
    if byValue == [] {
      NoGroups();
    } else {
      var n := |byValue| - 1;
      SharedSilent(byValue[..n]);
      AllAloneStep(byValue[..n], byValue[n]);
      assert byValue == byValue[..n] + [byValue[n]];
    }
  }

  lemma NoGroups()
    ensures AllAlone([])
  {
  }

  lemma {:induction false} NoEmptyValue(env: Env, graph: Graph, i: nat)
    requires i < |ByValue(env, graph)|
    ensures ByValue(env, graph)[i].0 != ""
    decreases |graph|
  {
    hide SlotValue, Slot, VarsWith, Set;
    var n := |graph| - 1;
    var before := ByValue(env, graph[..n]);
    var value := SlotValue(env, graph[n], graph[n].callee);
    if graph[n].holders == [] || value == "" {
      NoEmptyValue(env, graph[..n], i);
    } else {
      SetKeys(before, value, VarsWith(before, value) + [Slot(graph[n], graph[n].callee)], i);
      if ByValue(env, graph)[i] in before {
        var at :| 0 <= at < |before| && before[at] == ByValue(env, graph)[i];
        NoEmptyValue(env, graph[..n], at);
      }
    }
  }

  /** Check 4b is silent exactly when no two callees share a value. */
  lemma SharedIffUnshared(env: Env, graph: Graph)
    ensures SharedFindings(ByValue(env, graph)) == [] <==> Unshared(env, graph)
  {
    hide SlotValue, SharedFindings, ByValue, Sharing, Get;
    var byValue := ByValue(env, graph);
    SharedSilent(byValue);
    ByValueDistinct(env, graph);
    if Unshared(env, graph) {
      forall i | 0 <= i < |byValue| ensures |byValue[i].1| <= 1 {
        NoEmptyValue(env, graph, i);
        GetAt(byValue, i);
        GroupSize(env, graph, byValue[i].0);
        UnsharedCount(env, graph, byValue[i].0);
      }
    } else {
      var i, j :| 0 <= i < j < |graph| && SameKey(env, graph[i], graph[j]);
      var value := SlotValue(env, graph[i], graph[i].callee);
      SharingPair(env, graph, value, i, j);
      GroupSize(env, graph, value);
      GetSome(byValue, value);
      var at :| 0 <= at < |byValue| && byValue[at] == (value, VarsWith(byValue, value));
      assert |byValue[at].1| > 1;
    }
  }

  // ---------------------------------------------------------------- the decision

  /** A value per held edge, none empty, no two alike, and each in every slot of its edge. */
  ghost predicate Provisioned(env: Env, graph: Graph, values: seq<string>) {
    && |values| == |graph|
    && (forall i :: 0 <= i < |values| && graph[i].holders != [] ==> values[i] != "")
    && (forall i, j :: 0 <= i < j < |values| && graph[i].holders != [] && graph[j].holders != [] ==>
          values[i] != values[j])
    && (forall i, s :: 0 <= i < |graph| && graph[i].holders != [] && Takes(graph[i], s) ==>
          SlotValue(env, graph[i], s) == values[i])
  }

  /** A slot nobody calls with, if it is filled at all, has none of its service's outbound credentials. */
  ghost predicate UnheldApart(env: Env, graph: Graph) {
    forall a, b, s :: a in graph && b in graph && a.holders == [] && a.callee == s && Holds(b, s) ==>
                        OwnDirections(env, s, a, b)
  }

  lemma SilentMeansProvisioned(env: Env, graph: Graph) returns (values: seq<string>)
    requires GraphFindings(env, graph) == [] && SharedFindings(ByValue(env, graph)) == []
    ensures Provisioned(env, graph, values)
  {
    hide SlotValue, GraphFindings, EdgeFindings, SharedFindings, ByValue;
    values := seq(|graph|, i requires 0 <= i < |graph| => SlotValue(env, graph[i], graph[i].callee));
    GraphSilent(env, graph);
    SharedIffUnshared(env, graph);
    forall i | 0 <= i < |graph| && graph[i].holders != [] ensures Agreed(env, graph[i]) { EdgeSilent(env, graph[i]); }
  }

  lemma ProvisionedOwnDirections(env: Env, graph: Graph, values: seq<string>, a: Edge, b: Edge, s: ServiceName)
    requires WellFormed(graph) && Provisioned(env, graph, values)
    requires a in graph && b in graph && a.holders != [] && a.callee == s && Holds(b, s)
    ensures OwnDirections(env, s, a, b)
  {
    hide SlotValue, Separate;
    var i :| 0 <= i < |graph| && graph[i] == a;
    var j :| 0 <= j < |graph| && graph[j] == b;
    assert WellNamed(graph[i]);
    assert i != j;
    assert Takes(graph[i], s) && Takes(graph[j], s);
    assert values[i] != values[j];
  }

  /** When 3 and 4b are silent, check 4 speaks only of slots whose edges nobody holds. */
  lemma DirectionsOfUnheld(env: Env, graph: Graph)
    requires WellFormed(graph)
    requires GraphFindings(env, graph) == [] && SharedFindings(ByValue(env, graph)) == []
    ensures DirectionFindings(env, graph, SERVICE_NAMES) == [] <==> UnheldApart(env, graph)
  {
    hide WellFormed, GraphFindings, SharedFindings, ByValue, Provisioned, OwnDirections, DirectionFindings, Holds;
    var values := SilentMeansProvisioned(env, graph);
    forall a, b, s | a in graph && b in graph && a.holders != [] && a.callee == s && Holds(b, s)
      ensures OwnDirections(env, s, a, b)
    {
      ProvisionedOwnDirections(env, graph, values, a, b, s);
    }
    DirectionsSilent(env, graph);
  }

  /** Where every edge is held, check 4 can only speak when 3 or 4b does. */
  lemma DirectionsAreImplied(env: Env, graph: Graph)
    requires WellFormed(graph) && AllHeld(graph)
    requires GraphFindings(env, graph) == [] && SharedFindings(ByValue(env, graph)) == []
    ensures DirectionFindings(env, graph, SERVICE_NAMES) == []
  {
    hide WellFormed, GraphFindings, SharedFindings, ByValue, OwnDirections, DirectionFindings;
    DirectionsOfUnheld(env, graph);
  }

  lemma ProvisionedIsSilent(env: Env, graph: Graph, values: seq<string>)
    requires Provisioned(env, graph, values)
    ensures GraphFindings(env, graph) == [] && SharedFindings(ByValue(env, graph)) == []
  {
    hide SlotValue, GraphFindings, EdgeFindings, SharedFindings, ByValue;
    GraphSilent(env, graph);
    forall i | 0 <= i < |graph| ensures EdgeFindings(env, graph[i]) == [] {
      EdgeSilent(env, graph[i]);
      assert Takes(graph[i], graph[i].callee);
    }
    forall i | 0 <= i < |graph| && graph[i].holders != []
      ensures SlotValue(env, graph[i], graph[i].callee) == values[i]
    {
      assert Takes(graph[i], graph[i].callee);
    }
    SharedIffUnshared(env, graph);
  }

  /** The doctor reports no credential finding exactly when some assignment of distinct non-empty values to
      the held edges fills their every slot, and no service calls with what fills an unheld slot of its own. */
  lemma DoctorDecidesProvisioning(env: Env, graph: Graph)
    requires WellFormed(graph)
    ensures CredentialFindings(env, graph) == [] <==>
            (exists values :: Provisioned(env, graph, values)) && UnheldApart(env, graph)
  {
    hide WellFormed, GraphFindings, SharedFindings, ByValue, Provisioned, DirectionFindings, UnheldApart;
    if CredentialFindings(env, graph) == [] {
      var values := SilentMeansProvisioned(env, graph);
      DirectionsOfUnheld(env, graph);
    }
    if values :| Provisioned(env, graph, values) {
      ProvisionedIsSilent(env, graph, values);
      DirectionsOfUnheld(env, graph);
    }
  }

  /** After a silent preflight, no slot of a held edge holds another held edge's key. */
  lemma NoSlotHoldsAnotherKey(env: Env, graph: Graph, i: nat, j: nat, s: ServiceName)
    requires CredentialFindings(env, graph) == []
    requires i < |graph| && j < |graph| && i != j && Takes(graph[i], s)
    requires graph[i].holders != [] && graph[j].holders != []
    ensures SlotValue(env, graph[i], s) != SlotValue(env, graph[j], graph[j].callee)
  {
    hide SlotValue, GraphFindings, SharedFindings, ByValue, DirectionFindings;
    var values := SilentMeansProvisioned(env, graph);
    assert Takes(graph[j], graph[j].callee);
    assert values[i] != values[j];
  }

  // ---------------------------------------------------------------- what a silent preflight guarantees

  lemma {:induction false} DatabasesSilent(env: Env, services: seq<StackService>)
    ensures DatabaseFindings(env, services) == [] <==>
            forall i :: 0 <= i < |services| ==> GetOrEmpty(env, Prefixed(services[i].name, "DATABASE_URL")) != ""
    decreases |services|
  {
    hide Prefixed, GetOrEmpty;
    if services != [] { DatabasesSilent(env, services[..|services| - 1]); }
  }

  lemma {:induction false} AdaptersSilent(env: Env, adapters: seq<(EnvKey, string)>)
    ensures AdapterFindings(env, adapters) == [] <==>
            forall i :: 0 <= i < |adapters| ==> GetOrEmpty(env, KeyText(adapters[i].0)) == adapters[i].1
    decreases |adapters|
  {
    hide KeyText, GetOrEmpty;
    if adapters != [] { AdaptersSilent(env, adapters[..|adapters| - 1]); }
  }

  lemma {:induction false} OverridesSilent(env: Env)
    ensures OverrideFindings(env) == [] <==> forall i :: 0 <= i < |env| ==> !EndpointOverride(env[i].0)
    decreases |env|
  {
    hide EndpointOverride;
    if env != [] { OverridesSilent(env[..|env| - 1]); }
  }

  lemma {:induction false} ProvidersSilent(env: Env)
    ensures ProviderFindings(env) == [] <==> forall i :: 0 <= i < |env| ==> !ProviderCredential(env[i].0)
    decreases |env|
  {
    hide ProviderCredential;
    if env != [] { ProvidersSilent(env[..|env| - 1]); }
  }

  /** The file is for whoever is about to read it; a file that does not say is for compose. */
  predicate AddressedFor(env: Env, consumedBy: Option<Addressing>) {
    var found := GetOrEmpty(env, "STACK_ADDRESSING");
    match consumedBy
    case None => true
    case Some(Host) => found == "host"
    case Some(Compose) => found == "compose" || found == ""
  }

  /** No request can reach the real provider: endpoint, overrides, credentials. */
  predicate StaysLocal(env: Env, isLocal: string -> bool) {
    var endpoint := GetOrEmpty(env, "AWS_ENDPOINT_URL");
    && (if endpoint == "" then !UsesAws(env) else isLocal(endpoint))
    && (forall i :: 0 <= i < |env| ==> !EndpointOverride(env[i].0))
    && !CredentialsLookReal(GetOrEmpty(env, "AWS_ACCESS_KEY_ID"), GetOrEmpty(env, "AWS_SECRET_ACCESS_KEY"))
  }

  /** Transport security is on wherever production needs it. */
  predicate Encrypted(env: Env) {
    && (GetOrEmpty(env, "STACK_MODE") == "production" ==>
          "https://" <= GetOrEmpty(env, "AWS_ENDPOINT_URL") && GetOrEmpty(env, "NODE_EXTRA_CA_CERTS") != "")
    && Get(env, "NODE_TLS_REJECT_UNAUTHORIZED") != Some("0")
  }

  /** Every dependency is there and none is a stub. */
  ghost predicate Equipped(env: Env) {
    && (forall s :: GetOrEmpty(env, Prefixed(s, "DATABASE_URL")) != "")
    && GetOrEmpty(env, "KAFKA_BROKERS") != ""
    && (forall i :: 0 <= i < |ADAPTERS| ==> GetOrEmpty(env, KeyText(ADAPTERS[i].0)) == ADAPTERS[i].1)
    && (forall i :: 0 <= i < |env| ==> !ProviderCredential(env[i].0))
  }

  lemma AddressingSilent(env: Env, consumedBy: Option<Addressing>)
    ensures AddressingFindings(env, consumedBy) == [] <==> AddressedFor(env, consumedBy)
  {
    hide GetOrEmpty;
  }

  lemma LocalSilent(env: Env, isLocal: string -> bool)
    ensures EndpointFindings(env, isLocal) == [] && OverrideFindings(env) == [] && AwsCredentialFindings(env) == [] <==>
            StaysLocal(env, isLocal)
  {
    hide GetOrEmpty, UsesAws, EndpointOverride, CredentialsLookReal, OverrideFindings;
    OverridesSilent(env);
  }

  lemma EncryptedSilent(env: Env)
    ensures ProductionFindings(env) == [] && TlsFindings(env) == [] <==> Encrypted(env)
  {
    hide GetOrEmpty, Get;
  }

  lemma EveryDatabase(env: Env)
    ensures DatabaseFindings(env, SERVICES) == [] <==> forall s :: GetOrEmpty(env, Prefixed(s, "DATABASE_URL")) != ""
  {
    hide GetOrEmpty, Prefixed, DatabaseFindings, Place;
    DatabasesSilent(env, SERVICES);
    if DatabaseFindings(env, SERVICES) == [] {
      forall s ensures GetOrEmpty(env, Prefixed(s, "DATABASE_URL")) != "" { PlaceFinds(s); }
    }
  }

  lemma EquippedSilent(env: Env)
    ensures (DatabaseFindings(env, SERVICES) == [] && KafkaFindings(env) == [] && AdapterFindings(env, ADAPTERS) == []
             && ProviderFindings(env) == []) <==> Equipped(env)
  {
    hide GetOrEmpty, Prefixed, KeyText, DatabaseFindings, AdapterFindings, ProviderFindings, ProviderCredential, ADAPTERS;
    EveryDatabase(env);
    AdaptersSilent(env, ADAPTERS);
    ProvidersSilent(env);
  }

  /** A preflight finds nothing exactly when the file is addressed for its reader, stays local, is encrypted
      where it must be, provisions every held edge of the graph with a key of its own that fills no unheld
      slot of its holders, and is fully equipped. */
  lemma SilentPreflight(env: Env, graph: Graph, consumedBy: Option<Addressing>, isLocal: string -> bool)
    requires WellFormed(graph)
    ensures Findings(env, graph, consumedBy, isLocal) == [] <==>
            && AddressedFor(env, consumedBy) && StaysLocal(env, isLocal) && Encrypted(env) && Equipped(env)
            && (exists values :: Provisioned(env, graph, values)) && UnheldApart(env, graph)
  {
    hide *;
    AddressingSilent(env, consumedBy);
    LocalSilent(env, isLocal);
    EncryptedSilent(env);
    EquippedSilent(env);
    DoctorDecidesProvisioning(env, graph);
    NoFindings(env, graph, consumedBy, isLocal);
  }

  lemma NoFindings(env: Env, graph: Graph, consumedBy: Option<Addressing>, isLocal: string -> bool)
    ensures Findings(env, graph, consumedBy, isLocal) == [] <==>
            && AddressingFindings(env, consumedBy) == []
            && (EndpointFindings(env, isLocal) == [] && OverrideFindings(env) == [] && AwsCredentialFindings(env) == [])
            && (ProductionFindings(env) == [] && TlsFindings(env) == [])
            && (DatabaseFindings(env, SERVICES) == [] && KafkaFindings(env) == [] && AdapterFindings(env, ADAPTERS) == []
                && ProviderFindings(env) == [])
            && CredentialFindings(env, graph) == []
  {
    hide AddressingFindings, EndpointFindings, OverrideFindings, ProductionFindings, AwsCredentialFindings,
      CredentialFindings, DatabaseFindings, KafkaFindings, AdapterFindings, ProviderFindings, TlsFindings;
  }
}
