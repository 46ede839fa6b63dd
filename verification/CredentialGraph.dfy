/** Which service holds which credential, and the one secret minted for each edge. */
module CredentialGraph {
  import opened EnvKeys
  import opened OrderedMap
  import opened Text
  import opened Topology
  import opened Wrappers

  /** One credential: the variable that carries it, who expects it, who may present it. */
  datatype Edge = Edge(envVar: string, callee: ServiceName, holders: seq<ServiceName>)

  type Graph = seq<Edge>

  /** The mandated shape of a credential's name. */
  function Token(opens: string): string { opens + "_INTERNAL_TOKEN" }

  const GRAPH: Graph := [
    Edge(Token("IDENTITY"), Identity, [Settlement]),
    Edge(Token("SETTLEMENT"), Settlement, [Vault]),
    Edge(Token("DOCUMENTS"), Documents, [Settlement]),
    Edge(Token("NOTIFICATIONS"), Notifications, [Profile, Settlement, Vault]),
    Edge(Token("NOTIFICATIONS_RECIPIENTS"), Notifications, [Identity]),
    Edge(Token("NOTIFICATIONS_VERIFY"), Notifications, [Identity]),
    Edge(Token("NOTIFICATIONS_SECURITY"), Notifications, [Identity]),
    Edge(Token("NOTIFICATIONS_RECOVERY"), Notifications, [Identity]),
    Edge(Token("NOTIFICATIONS_EMAIL_CHANGE"), Notifications, [Identity]),
    Edge(Token("NOTIFICATIONS_STATUS"), Notifications, [Identity, Profile, Vault])
  ]

  predicate Holds(edge: Edge, service: ServiceName) { service in edge.holders }

  /** The service has a slot for this credential, as callee or holder. */
  predicate Takes(edge: Edge, service: ServiceName) {
    edge.callee == service || Holds(edge, service)
  }

  function Inbound(graph: Graph, service: ServiceName): seq<Edge> {
    if graph == [] then []
    else (if graph[0].callee == service then [graph[0]] else []) + Inbound(graph[1..], service)
  }

  function Outbound(graph: Graph, service: ServiceName): seq<Edge> {
    if graph == [] then []
    else (if Holds(graph[0], service) then [graph[0]] else []) + Outbound(graph[1..], service)
  }

  ghost predicate WellNamed(edge: Edge) {
    && edge.callee !in edge.holders
    && Unreserved(edge.envVar)
    && Trimmed(edge.envVar) && '\n' !in edge.envVar && '=' !in edge.envVar
  }

  /** No service finds two credentials under one variable. */
  ghost predicate Separate(a: Edge, b: Edge) {
    a.envVar == b.envVar ==> forall s :: !(Takes(a, s) && Takes(b, s))
  }

  ghost predicate WellFormed(graph: Graph) {
    && (forall i :: 0 <= i < |graph| ==> WellNamed(graph[i]))
    && (forall i, j :: 0 <= i < j < |graph| ==> Separate(graph[i], graph[j]))
  }

  ghost predicate AllHeld(graph: Graph) {
    forall i :: 0 <= i < |graph| ==> graph[i].holders != []
  }

  lemma {:induction false} InboundAre(graph: Graph, service: ServiceName, edge: Edge)
    ensures edge in Inbound(graph, service) <==> edge in graph && edge.callee == service
  {
    if graph != [] {
      InboundAre(graph[1..], service, edge);
      assert edge in graph <==> edge == graph[0] || edge in graph[1..];
    }
  }

  lemma {:induction false} OutboundAre(graph: Graph, service: ServiceName, edge: Edge)
    ensures edge in Outbound(graph, service) <==> edge in graph && Holds(edge, service)
  {
    hide Holds;
    if graph != [] {
      OutboundAre(graph[1..], service, edge);
      assert edge in graph <==> edge == graph[0] || edge in graph[1..];
    }
  }

  /** A name of the mandated shape collides with no other variable. */
  lemma TokenIsProper(opens: string)
    requires opens != "" && !IsSpace(opens[0]) && '\n' !in opens && '=' !in opens
    ensures Unreserved(Token(opens)) && Trimmed(Token(opens)) && '\n' !in Token(opens) && '=' !in Token(opens)
  {
    hide IsSpace, VarText, GlobalText;
    var token := Token(opens);
    assert token[0] == opens[0];
    TokenEnds(opens);
    forall v ensures VarText(v) != token { VarEnds(v); }
    forall g ensures GlobalText(g) != token { GlobalEnds(g); }
  }

  lemma TokenEnds(opens: string)
    ensures var t := Token(opens); t[|t| - 2] == 'E' && t[|t| - 1] == 'N' && !IsSpace('N')
    ensures '\n' !in "_INTERNAL_TOKEN" && '=' !in "_INTERNAL_TOKEN"
  {
  }

  lemma VarEnds(v: Var)
    ensures var t := VarText(v); |t| >= 2 && t[|t| - 1] != 'N'
  {
  }

  lemma GlobalEnds(g: Global)
    ensures var t := GlobalText(g); |t| >= 2 && (t[|t| - 1] != 'N' || t[|t| - 2] != 'E')
  {
  }

  /** Length and fifteenth character tell the credentials of the graph apart. */
  function EdgeAt(length: nat, mark: char): nat {
    if length == 8 then 0
    else if length == 10 then 1
    else if length == 9 then 2
    else if length == 13 then 3
    else if length == 24 then 4
    else if length == 20 then (if mark == 'V' then 5 else 9)
    else if length == 22 then (if mark == 'S' then 6 else 7)
    else 8
  }

  function OpensText(i: nat): string
    requires i < 10
  {
    if i == 0 then "IDENTITY" else if i == 1 then "SETTLEMENT" else if i == 2 then "DOCUMENTS"
    else if i == 3 then "NOTIFICATIONS" else if i == 4 then "NOTIFICATIONS_RECIPIENTS"
    else if i == 5 then "NOTIFICATIONS_VERIFY" else if i == 6 then "NOTIFICATIONS_SECURITY"
    else if i == 7 then "NOTIFICATIONS_RECOVERY" else if i == 8 then "NOTIFICATIONS_EMAIL_CHANGE"
    else "NOTIFICATIONS_STATUS"
  }

  lemma OpensFound(i: nat)
    requires i < 10
    ensures var t := OpensText(i); t != "" && EdgeAt(|t|, if |t| > 14 then t[14] else ' ') == i
    ensures !IsSpace(OpensText(i)[0]) && '\n' !in OpensText(i) && '=' !in OpensText(i)
  {
  }

  lemma GraphNames(i: nat)
    requires i < 10
    ensures |GRAPH| == 10 && GRAPH[i].envVar == Token(OpensText(i)) && GRAPH[i].callee !in GRAPH[i].holders
    ensures GRAPH[i].holders != []
  {
    hide Token;
  }

  /** The declared graph is well formed and leaves no edge without a holder. */
  lemma DeclaredGraph()
    ensures WellFormed(GRAPH) && AllHeld(GRAPH)
  {
    hide OpensText, Token, EdgeAt, IsSpace, Takes, Unreserved, Trimmed;
    GraphNames(0);
    forall i | 0 <= i < |GRAPH| ensures WellNamed(GRAPH[i]) && GRAPH[i].holders != [] {
      GraphNames(i);
      OpensFound(i);
      TokenIsProper(OpensText(i));
    }
    forall i, j | 0 <= i < j < |GRAPH| ensures Separate(GRAPH[i], GRAPH[j]) {
      GraphNames(i);
      GraphNames(j);
      OpensFound(i);
      OpensFound(j);
      if Token(OpensText(i)) == Token(OpensText(j)) { TokenInjective(OpensText(i), OpensText(j)); }
    }
  }

  lemma TokenInjective(a: string, b: string)
    requires Token(a) == Token(b)
    ensures a == b
  {
    assert Token(a)[..|a|] == a && Token(b)[..|b|] == b;
  }

  // ---------------------------------------------------------------- minting

  /** Edges that get a secret: those somebody holds. */
  function Held(graph: Graph): nat {
    if graph == [] then 0
    else Held(graph[..|graph| - 1]) + if graph[|graph| - 1].holders == [] then 0 else 1
  }

  /** For each of a service's credential variables, which secret of the mint fills it. */
  function Granted(graph: Graph, service: ServiceName): OMap<nat> {
    if graph == [] then []
    else
      var n := |graph| - 1;
      var before := Granted(graph[..n], service);
      if graph[n].holders != [] && Takes(graph[n], service)
      then Set(before, graph[n].envVar, Held(graph[..n]))
      else before
  }

  function Filled(granted: OMap<nat>, secrets: nat -> string): OMap<string> {
    seq(|granted|, i requires 0 <= i < |granted| => (granted[i].0, secrets(granted[i].1)))
  }

  type ByService = OMap<OMap<string>>

  /** `byService.get(service) ?? []`. */
  function CredentialsFor(byService: ByService, service: ServiceName): OMap<string> {
    var found := Get(byService, NameText(service));
    if found.Some? then found.value else []
  }

  function Put(byService: ByService, service: ServiceName, envVar: string, value: string): ByService {
    Set(byService, NameText(service), Set(CredentialsFor(byService, service), envVar, value))
  }

  lemma NameTextInjective(s: ServiceName, t: ServiceName)
    requires NameText(s) == NameText(t)
    ensures s == t
  {
    PrefixFound(s);
    PrefixFound(t);
    hide NameText, EnvPrefix, ServiceOf;
  }

  lemma PutEffect(byService: ByService, service: ServiceName, envVar: string, value: string, other: ServiceName)
    ensures CredentialsFor(Put(byService, service, envVar, value), other) ==
            if other == service then Set(CredentialsFor(byService, service), envVar, value)
            else CredentialsFor(byService, other)
  {
    hide NameText, Set, Get;
    var inner := Set(CredentialsFor(byService, service), envVar, value);
    GetAfterSet(byService, NameText(service), inner, NameText(other));
    if NameText(other) == NameText(service) { NameTextInjective(other, service); }
  }

  lemma {:induction false} SetTwice(m: OMap<string>, k: string, v: string)
    ensures Set(Set(m, k, v), k, v) == Set(m, k, v)
  {
    if m != [] && m[0].0 != k {
      SetTwice(m[1..], k, v);
      assert Set(m, k, v)[1..] == Set(m[1..], k, v);
    } else if m != [] {
      assert Set(m, k, v)[1..] == m[1..];
    } else {
      assert Set(m, k, v) == [(k, v)];
    }
  }

  lemma {:induction false} FilledSet(m: OMap<nat>, secrets: nat -> string, k: string, n: nat)
    ensures Filled(Set(m, k, n), secrets) == Set(Filled(m, secrets), k, secrets(n))
  {
    if m != [] {
      assert Filled(m, secrets)[1..] == Filled(m[1..], secrets);
      if m[0].0 != k { FilledSet(m[1..], secrets, k, n); }
    }
  }

  /** `services` have been given the value on top of what they had, the others nothing. */
  ghost predicate Gave(before: ByService, now: ByService, services: seq<ServiceName>, envVar: string, value: string) {
    forall s :: CredentialsFor(now, s) ==
      if s in services then Set(CredentialsFor(before, s), envVar, value) else CredentialsFor(before, s)
  }

  lemma GaveOneMore(before: ByService, now: ByService, services: seq<ServiceName>, service: ServiceName,
      envVar: string, value: string)
    requires Gave(before, now, services, envVar, value)
    ensures Gave(before, Put(now, service, envVar, value), services + [service], envVar, value)
  {
    hide CredentialsFor, Put, Set;
    forall s ensures CredentialsFor(Put(now, service, envVar, value), s) ==
      if s in services + [service] then Set(CredentialsFor(before, s), envVar, value) else CredentialsFor(before, s)
    {
      PutEffect(now, service, envVar, value, s);
      SetTwice(CredentialsFor(before, s), envVar, value);
      assert s in services + [service] <==> s in services || s == service;
    }
  }

  /** Every service has exactly the credentials the edges grant it. */
  ghost predicate Assigned(byService: ByService, graph: Graph, secrets: nat -> string) {
    forall s :: CredentialsFor(byService, s) == Filled(Granted(graph, s), secrets)
  }

  lemma AssignedStep(before: ByService, now: ByService, graph: Graph, i: nat, secrets: nat -> string)
    requires i < |graph| && Assigned(before, graph[..i], secrets)
    requires if graph[i].holders == [] then now == before
             else Gave(before, now, [graph[i].callee] + graph[i].holders, graph[i].envVar, secrets(Held(graph[..i])))
    ensures Assigned(now, graph[..i + 1], secrets)
    ensures Held(graph[..i + 1]) == Held(graph[..i]) + if graph[i].holders == [] then 0 else 1
  {
    hide CredentialsFor, Filled, Set;
    var edges, n := graph[..i + 1], Held(graph[..i]);
    assert edges[..i] == graph[..i];
    forall s ensures CredentialsFor(now, s) == Filled(Granted(edges, s), secrets) {
      assert CredentialsFor(before, s) == Filled(Granted(graph[..i], s), secrets);
      FilledSet(Granted(graph[..i], s), secrets, graph[i].envVar, n);
    }
  }

  /** One secret per held edge, put into the callee's slot and into every holder's. */
  method AssignCredentials(graph: Graph, secrets: nat -> string) returns (byService: ByService)
    ensures Assigned(byService, graph, secrets)
  {
    hide CredentialsFor, Filled, Set, Put, Gave, Assigned, Granted;
    byService := [];
    var minted := 0;
    NothingAssigned(secrets);
    assert graph[..0] == [];
    for i := 0 to |graph|
      invariant Assigned(byService, graph[..i], secrets) && minted == Held(graph[..i])
    {
      var edge := graph[i];
      ghost var before := byService;
      if edge.holders != [] {
        var value := secrets(minted);
        minted := minted + 1;
        NothingGiven(before, edge.envVar, value);
        GaveOneMore(before, byService, [], edge.callee, edge.envVar, value);
        byService := Put(byService, edge.callee, edge.envVar, value);
        assert [] + [edge.callee] == [edge.callee] + edge.holders[..0];
        for h := 0 to |edge.holders|
          invariant Gave(before, byService, [edge.callee] + edge.holders[..h], edge.envVar, value)
        {
          GaveOneMore(before, byService, [edge.callee] + edge.holders[..h], edge.holders[h], edge.envVar, value);
          byService := Put(byService, edge.holders[h], edge.envVar, value);
          assert [edge.callee] + edge.holders[..h] + [edge.holders[h]] == [edge.callee] + edge.holders[..h + 1];
        }
        assert edge.holders[..|edge.holders|] == edge.holders;
      }
      AssignedStep(before, byService, graph, i, secrets);
    }
    assert graph[..|graph|] == graph;
  }

  lemma NothingAssigned(secrets: nat -> string)
    ensures Assigned([], [], secrets)
  {
  }

  lemma NothingGiven(before: ByService, envVar: string, value: string)
    ensures Gave(before, before, [], envVar, value)
  {
    hide CredentialsFor, Set;
  }

  // ---------------------------------------------------------------- slots

  lemma {:induction false} HeldGrows(graph: Graph, i: nat, j: nat)
    requires i < j <= |graph| && graph[i].holders != []
    ensures Held(graph[..i]) < Held(graph[..j])
    decreases j
  {
    assert graph[..j][..j - 1] == graph[..j - 1];
    if i < j - 1 { HeldGrows(graph, i, j - 1); }
  }

  /** Different held edges draw different secrets. */
  lemma SecretsAreOwn(graph: Graph, i: nat, j: nat)
    requires i < |graph| && j < |graph| && i != j && graph[i].holders != [] && graph[j].holders != []
    ensures Held(graph[..i]) != Held(graph[..j])
  {
    if i < j { HeldGrows(graph, i, j); } else { HeldGrows(graph, j, i); }
  }

  ghost predicate Fills(graph: Graph, service: ServiceName, envVar: string, i: nat) {
    i < |graph| && graph[i].holders != [] && Takes(graph[i], service) && graph[i].envVar == envVar
  }

  /** A slot of a held edge is granted that edge's secret. */
  lemma {:induction false} SlotIsGranted(graph: Graph, service: ServiceName, i: nat)
    requires i < |graph| && WellFormed(graph) && Fills(graph, service, graph[i].envVar, i)
    ensures Get(Granted(graph, service), graph[i].envVar) == Some(Held(graph[..i]))
    decreases |graph|
  {
    hide Takes, WellNamed;
    var n := |graph| - 1;
    var rest := graph[..n];
    GetAfterSet(Granted(rest, service), graph[n].envVar, Held(rest), graph[i].envVar);
    if i < n {
      assert rest[..i] == graph[..i];
      assert WellFormed(rest);
      SlotIsGranted(rest, service, i);
      assert Separate(graph[i], graph[n]);
    }
  }

  /** Nothing is granted but the slots of held edges. */
  lemma {:induction false} GrantedIsSlot(graph: Graph, service: ServiceName, envVar: string) returns (i: nat)
    requires HasKey(Granted(graph, service), envVar)
    ensures Fills(graph, service, envVar, i)
    decreases |graph|
  {
    hide Takes;
    var n := |graph| - 1;
    var before := Granted(graph[..n], service);
    var k :| 0 <= k < |Granted(graph, service)| && Granted(graph, service)[k].0 == envVar;
    if graph[n].holders != [] && Takes(graph[n], service) {
      SetKeys(before, graph[n].envVar, Held(graph[..n]), k);
      if graph[n].envVar == envVar {
        i := n;
      } else {
        var at :| 0 <= at < |before| && before[at] == Granted(graph, service)[k];
        i := GrantedIsSlot(graph[..n], service, envVar);
      }
    } else {
      i := GrantedIsSlot(graph[..n], service, envVar);
    }
  }

  lemma {:induction false} GrantedDistinct(graph: Graph, service: ServiceName)
    ensures Distinct(Granted(graph, service))
    decreases |graph|
  {
    hide Takes;
    if graph != [] {
      var n := |graph| - 1;
      GrantedDistinct(graph[..n], service);
      SetDistinct(Granted(graph[..n], service), graph[n].envVar, Held(graph[..n]));
    }
  }
}
