/** What each service's process is given, variable by variable: against the environment blocks of the compose
    file, which map the same flat file onto the containers. */
module ProcessVariables {
  import opened CredentialGraph
  import opened Doctor
  import opened EnvKeys
  import opened OrderedMap
  import opened ServiceEnv
  import opened StackPipeline
  import opened Topology
  import opened Wrappers

  // ---------------------------------------------------------------- the compose blocks

  const MASTER_KEY := {KmsModeVar, KmsMasterKeyVar, AwsKmsKeyIdVar}

  const AWS := {AwsRegion, AwsEndpointUrl, AwsAccessKeyId, AwsSecretAccessKey, NodeExtraCaCerts}

  /** `NAME: ${<SERVICE>_NAME}`. Plaid's `ModeVar` is `PLAID_MODE: ${PLAID_MODE}`. */
  function OwnBlock(s: ServiceName): set<Var> {
    match s
    case Identity => {DatabaseUrlVar, EmailIndexKey} + MASTER_KEY
    case Profile => {DatabaseUrlVar, EmailIndexKey, NotifyMode} + MASTER_KEY
    case Assets => {DatabaseUrlVar} + MASTER_KEY
    case Plaid => {DatabaseUrlVar, ItemIndexKey, ModeVar} + MASTER_KEY
    case Documents =>
      {DatabaseUrlVar, SearchIndexKey, ObjectStoreMode, ScannerMode, ClamdHost, OcrMode, OcrUrl} + MASTER_KEY
    case Vault => {DatabaseUrlVar, NotifyMode}
    case Settlement => {DatabaseUrlVar, NotifyMode} + MASTER_KEY
    case Notifications => {DatabaseUrlVar, EmailMode} + MASTER_KEY
    case AiAssistant => {DatabaseUrlVar, LlmMode} + MASTER_KEY
    case Audit => {DatabaseUrlVar}
  }

  /** `NAME: ${NAME}`. `StackMode` is `NODE_ENV: ${STACK_MODE}`. */
  function SharedBlock(s: ServiceName): set<Global> {
    match s
    case Identity => {StackMode, KafkaBrokers, RpId, RpOrigin, RpName} + AWS
    case Documents => {StackMode, KafkaBrokers, ObjectStoreBucket} + AWS
    case Vault => {StackMode, KafkaBrokers}
    case Notifications => {StackMode, KafkaBrokers, SesFromAddress} + AWS
    case Audit => {KafkaBrokers}
    case _ => {StackMode, KafkaBrokers} + AWS
  }

  /** `<PEER>_URL: http://<peer>:<port>`. */
  function PeerBlock(s: ServiceName): set<ServiceName> {
    match s
    case Identity => {Notifications}
    case Profile => {Identity, Settlement, Notifications}
    case Assets => {Identity, Settlement}
    case Plaid => {Identity}
    case Documents => {Identity, Settlement}
    case Vault => {Identity, Settlement, Notifications}
    case Settlement => {Identity, Notifications, Documents}
    case Notifications => {}
    case AiAssistant => {Identity, Assets, Documents, Profile}
    case Audit => {}
  }

  /** `PORT: '<port>'`; audit has none. */
  function PortBlock(s: ServiceName): Option<string> {
    match s
    case Identity => Some("3001")
    case Profile => Some("3002")
    case Assets => Some("3003")
    case Plaid => Some("3004")
    case Documents => Some("3005")
    case Vault => Some("3006")
    case Settlement => Some("3007")
    case Notifications => Some("3008")
    case AiAssistant => Some("3009")
    case Audit => None
  }

  // ---------------------------------------------------------------- one want, one name, one source

  function OwnName(v: Var): string { if v.ModeVar? then "PLAID_MODE" else VarText(v) }

  function SharedName(g: Global): string { if g.StackMode? then "NODE_ENV" else GlobalText(g) }

  /** The name under which a process gets what it is given. */
  function NameOf(source: Source): string {
    match source
    case File(k) => (match k case Shared(g) => SharedName(g) case Own(_, v) => OwnName(v) case Credential(_, e) => e)
    case FileOrEmpty(k) => if k.Credential? then k.envVar else ""
    case Literal(_) => "PORT"
    case PeerUrl(peer) => Prefixed(peer, "URL")
  }

  predicate InBlock(s: ServiceName, source: Source) {
    match source
    case File(k) =>
      (match k
       case Shared(g) => g in SharedBlock(s)
       case Own(t, v) => t == s && v in OwnBlock(s)
       case Credential(_, _) => false)
    case FileOrEmpty(_) => false
    case Literal(text) => PortBlock(s) == Some(text)
    case PeerUrl(peer) => peer in PeerBlock(s)
  }

  /** All that is set but for the credentials. */
  function PlainWants(s: ServiceName): seq<Want> {
    BaseWants(Record(s)) + PeerWants(Peers(s)) + OwnWants(s)
  }

  lemma RecordIs(s: ServiceName)
    ensures Record(s).name == s && Record(s).port == PortBlock(s)
    ensures Record(s).hasKek <==> !s.Vault? && !s.Audit?
  {
  }

  predicate Fits(s: ServiceName, w: Want) { w.name == NameOf(w.source) && InBlock(s, w.source) }

  lemma BaseFits(s: ServiceName, w: Want)
    requires w in BaseWants(Record(s))
    ensures Fits(s, w)
  {
    hide VarText, GlobalText, Record, NameText;
    RecordIs(s);
    var service := Record(s);
    var first := [OwnWant(s, DatabaseUrlVar), SharedWant(KafkaBrokers)];
    if w in first {
    } else if w in HttpWants(service) {
    } else {
      KmsFits(service, w);
    }
  }

  lemma KmsFits(service: StackService, w: Want)
    requires w in KmsWants(service) && !service.name.Vault? && !service.name.Audit?
    ensures Fits(service.name, w)
  {
    hide VarText, GlobalText, NameText;
    var wants := KmsWants(service);
    var i :| 0 <= i < |wants| && wants[i] == w;
  }

  lemma PeerFits(s: ServiceName, w: Want)
    requires w in PeerWants(Peers(s))
    ensures Fits(s, w)
  {
    hide Prefixed;
    assert forall p :: p in Peers(s) ==> p in PeerBlock(s);
  }

  lemma OwnFits(s: ServiceName, w: Want)
    requires w in OwnWants(s)
    ensures Fits(s, w)
  {
    hide VarText, GlobalText;
    var wants := OwnWants(s);
    var i :| 0 <= i < |wants| && wants[i] == w;
  }

  /** Whatever is set under a name comes from where the compose block takes it. */
  lemma WantFits(s: ServiceName, w: Want)
    requires w in PlainWants(s)
    ensures Fits(s, w)
  {
    hide BaseWants, PeerWants, Peers, OwnWants, Fits;
    if w in BaseWants(Record(s)) {
      BaseFits(s, w);
    } else if w in PeerWants(Peers(s)) {
      PeerFits(s, w);
    } else {
      OwnFits(s, w);
    }
  }

  function WantOf(source: Source): Want { Want(NameOf(source), source) }

  lemma OwnIsWanted(s: ServiceName, v: Var)
    requires v in OwnBlock(s)
    ensures WantOf(File(Own(s, v))) in BaseWants(Record(s)) || WantOf(File(Own(s, v))) in OwnWants(s)
  {
    hide VarText, GlobalText, Record, NameText;
    RecordIs(s);
    var w := WantOf(File(Own(s, v)));
    if v.DatabaseUrlVar? {
      assert BaseWants(Record(s))[0] == w;
    } else if v in MASTER_KEY {
      KmsIsWanted(Record(s), v);
    } else {
      assert w in OwnWants(s);
    }
  }

  lemma KmsIsWanted(service: StackService, v: Var)
    requires service.hasKek && v in MASTER_KEY
    ensures WantOf(File(Own(service.name, v))) in BaseWants(service)
  {
    hide VarText, GlobalText, NameText, HttpWants;
    assert WantOf(File(Own(service.name, v))) in KmsWants(service);
  }

  lemma AwsIsWanted(service: StackService, g: Global)
    requires service.hasKek && g in AWS
    ensures WantOf(File(Shared(g))) in BaseWants(service)
  {
    hide VarText, GlobalText, NameText, HttpWants;
    assert WantOf(File(Shared(g))) in KmsWants(service);
  }

  lemma SharedIsWanted(s: ServiceName, g: Global)
    requires g in SharedBlock(s)
    ensures WantOf(File(Shared(g))) in BaseWants(Record(s)) || WantOf(File(Shared(g))) in OwnWants(s)
  {
    hide VarText, GlobalText, Record, NameText;
    RecordIs(s);
    var w := WantOf(File(Shared(g)));
    if g.KafkaBrokers? {
      assert BaseWants(Record(s))[1] == w;
    } else if g.StackMode? {
      assert w in HttpWants(Record(s));
    } else if g in AWS {
      AwsIsWanted(Record(s), g);
    } else {
      assert w in OwnWants(s);
    }
  }

  lemma PeerIsWanted(s: ServiceName, peer: ServiceName)
    requires peer in PeerBlock(s)
    ensures WantOf(PeerUrl(peer)) in PeerWants(Peers(s))
  {
    hide Prefixed;
    assert peer in Peers(s);
    var i :| 0 <= i < |Peers(s)| && Peers(s)[i] == peer;
    assert PeerWants(Peers(s))[i] == WantOf(PeerUrl(peer));
  }

  /** ... and everything in the block is set. */
  lemma BlockIsWanted(s: ServiceName, source: Source)
    requires InBlock(s, source)
    ensures WantOf(source) in PlainWants(s)
  {
    hide BaseWants, OwnWants, PeerWants, Peers, Record, NameOf;
    RecordIs(s);
    match source {
      case PeerUrl(peer) => PeerIsWanted(s, peer);
      case Literal(text) => PortIsWanted(Record(s), text);
      case File(k) => if k.Own? { OwnIsWanted(s, k.variable); } else { SharedIsWanted(s, k.global); }
    }
  }

  lemma PortIsWanted(service: StackService, text: string)
    requires service.port == Some(text)
    ensures WantOf(Literal(text)) in BaseWants(service)
  {
    hide KmsWants;
    assert WantOf(Literal(text)) in HttpWants(service);
  }

  // ---------------------------------------------------------------- names tell sources apart

  lemma VarIsNoGlobal(v: Var, g: Global)
    ensures VarText(v) != GlobalText(g)
  {
    GlobalFound(g);
    VarFound(v);
  }

  lemma OwnNameShape(v: Var)
    ensures var t := OwnName(v); |t| >= 7 && t != "NODE_ENV"
    ensures OwnName(v)[|OwnName(v)| - 3] == 'U' ==> v.DatabaseUrlVar? || v.OcrUrl?
    ensures !v.ModeVar? ==> OwnName(v) != "PLAID_MODE"
  {
  }

  lemma SharedNameShape(g: Global)
    ensures var t := SharedName(g); |t| >= 5 && t != "PLAID_MODE" && (t == "NODE_ENV" <==> g.StackMode?)
    ensures ServiceOf(SharedName(g)) == None
  {
  }

  lemma PeerNameShape(peer: ServiceName)
    ensures var t := Prefixed(peer, "URL"); |t| >= 9 && t[|t| - 3] == 'U' && ServiceOf(t) == Some(peer)
    ensures |Prefixed(peer, "URL")| == |NameText(peer)| + 4
  {
    PrefixedFound(peer, "URL");
    hide EnvPrefix, ServiceOf;
  }

  lemma OwnIsNoPeer(v: Var, peer: ServiceName)
    ensures OwnName(v) != Prefixed(peer, "URL")
  {
    hide Prefixed;
    PeerNameShape(peer);
    OwnNameShape(v);
    if v.DatabaseUrlVar? { assert ServiceOf("DATABASE_URL") == Some(Documents) && |NameText(Documents)| == 9; }
    if v.OcrUrl? { assert |OwnName(v)| == 7; }
  }

  lemma OwnNamesDiffer(v: Var, u: Var)
    requires OwnName(v) == OwnName(u)
    ensures v == u
  {
    hide VarText;
    OwnNameShape(v);
    OwnNameShape(u);
    VarFound(v);
    VarFound(u);
  }

  lemma SharedNamesDiffer(g: Global, h: Global)
    requires SharedName(g) == SharedName(h)
    ensures g == h
  {
    hide GlobalText;
    SharedNameShape(g);
    SharedNameShape(h);
    GlobalFound(g);
    GlobalFound(h);
  }

  lemma OwnIsNoShared(v: Var, g: Global)
    ensures OwnName(v) != SharedName(g)
  {
    hide VarText, GlobalText;
    OwnNameShape(v);
    SharedNameShape(g);
    VarIsNoGlobal(v, g);
  }

  /** In one process, a name names one source. */
  lemma OneSource(s: ServiceName, x: Source, y: Source)
    requires InBlock(s, x) && InBlock(s, y) && NameOf(x) == NameOf(y)
    ensures x == y
  {
    hide OwnBlock, SharedBlock, PeerBlock, PortBlock, OwnName, SharedName, Prefixed, ServiceOf;
    if x.File? && y.File? {
      FilesDiffer(s, x.key, y.key);
    } else if x.File? != y.File? {
      FileIsNoOther(s, if x.File? then x.key else y.key, if x.File? then y else x);
    } else if x.PeerUrl? && y.PeerUrl? {
      PrefixedInjective(x.peer, "URL", y.peer, "URL");
    } else {
      if x.PeerUrl? { PeerNameShape(x.peer); }
      if y.PeerUrl? { PeerNameShape(y.peer); }
    }
  }

  lemma FilesDiffer(s: ServiceName, j: EnvKey, k: EnvKey)
    requires InBlock(s, File(j)) && InBlock(s, File(k)) && NameOf(File(j)) == NameOf(File(k))
    ensures j == k
  {
    hide OwnBlock, SharedBlock, OwnName, SharedName;
    if j.Own? && k.Own? { OwnNamesDiffer(j.variable, k.variable); }
    if j.Shared? && k.Shared? { SharedNamesDiffer(j.global, k.global); }
    if j.Own? && k.Shared? { OwnIsNoShared(j.variable, k.global); }
    if j.Shared? && k.Own? { OwnIsNoShared(k.variable, j.global); }
  }

  lemma FileIsNoOther(s: ServiceName, k: EnvKey, other: Source)
    requires InBlock(s, File(k)) && InBlock(s, other) && !other.File?
    ensures NameOf(File(k)) != NameOf(other)
  {
    hide OwnBlock, SharedBlock, PeerBlock, PortBlock, OwnName, SharedName, Prefixed, ServiceOf;
    if k.Own? { OwnNameShape(k.variable); } else { SharedNameShape(k.global); }
    if other.PeerUrl? {
      PeerNameShape(other.peer);
      if k.Own? { OwnIsNoPeer(k.variable, other.peer); }
    }
  }

  // ---------------------------------------------------------------- what a process ends up with

  lemma {:induction false} GatherHolds(env: OMap<string>, addressing: Addressing, wanted: seq<Want>, i: nat)
    requires Gather(env, addressing, wanted).Ok? && i < |wanted|
    requires forall j :: 0 <= j < |wanted| && wanted[j].name == wanted[i].name ==>
               Fetch(env, addressing, wanted[j].source) == Fetch(env, addressing, wanted[i].source)
    ensures wanted[i].name in Gather(env, addressing, wanted).value
    ensures Fetch(env, addressing, wanted[i].source) == Ok(Gather(env, addressing, wanted).value[wanted[i].name])
    decreases |wanted|
  {
    hide Fetch;
    var n := |wanted| - 1;
    if wanted[n].name != wanted[i].name { GatherHolds(env, addressing, wanted[..n], i); }
  }

  lemma {:induction false} GatherNames(env: OMap<string>, addressing: Addressing, wanted: seq<Want>, name: string)
    requires Gather(env, addressing, wanted).Ok? && name in Gather(env, addressing, wanted).value
    ensures exists i :: 0 <= i < |wanted| && wanted[i].name == name
    decreases |wanted|
  {
    hide Fetch;
    var n := |wanted| - 1;
    if wanted[n].name != name {
      GatherNames(env, addressing, wanted[..n], name);
      var i :| 0 <= i < n && wanted[..n][i].name == name;
      assert wanted[i].name == name;
    }
  }

  /** The service finds a credential under this name. */
  ghost predicate IsSlot(graph: Graph, s: ServiceName, name: string) {
    exists i :: 0 <= i < |graph| && Takes(graph[i], s) && graph[i].envVar == name
  }

  lemma CredentialWantIsSlot(graph: Graph, s: ServiceName, w: Want)
    requires w in CredentialWants(graph, s)
    ensures IsSlot(graph, s, w.name)
  {
    hide Inbound, Outbound;
    var inbound, outbound := Inbound(graph, s), Outbound(graph, s);
    var edge: Edge;
    if w in InboundWants(s, inbound) {
      var j :| 0 <= j < |inbound| && InboundWants(s, inbound)[j] == w;
      edge := inbound[j];
      assert edge in inbound;
    } else {
      var j :| 0 <= j < |outbound| && OutboundWants(s, outbound)[j] == w;
      edge := outbound[j];
      assert edge in outbound;
    }
    InboundAre(graph, s, edge);
    OutboundAre(graph, s, edge);
    var i :| 0 <= i < |graph| && graph[i] == edge;
    assert Takes(graph[i], s) && graph[i].envVar == w.name;
  }

  lemma WantedIs(graph: Graph, s: ServiceName, w: Want)
    ensures w in Wanted(graph, Record(s)) <==> w in PlainWants(s) || w in CredentialWants(graph, s)
  {
    hide BaseWants, PeerWants, Peers, OwnWants, CredentialWants, Record;
    RecordIs(s);
  }

  /** A variable that is no credential holds what its source gives, and nothing else can have set it. */
  lemma VariableHolds(graph: Graph, env: OMap<string>, addressing: Addressing, s: ServiceName, source: Source)
    requires InBlock(s, source) && !IsSlot(graph, s, NameOf(source))
    requires Gather(env, addressing, Wanted(graph, Record(s))).Ok?
    ensures var out := Gather(env, addressing, Wanted(graph, Record(s))).value;
            NameOf(source) in out && Fetch(env, addressing, source) == Ok(out[NameOf(source)])
  {
    hide PlainWants, CredentialWants, Wanted, Record, InBlock, NameOf, Fetch, Gather, IsSlot, Fits;
    var wanted := Wanted(graph, Record(s));
    BlockIsWanted(s, source);
    WantedIs(graph, s, WantOf(source));
    var i :| 0 <= i < |wanted| && wanted[i] == WantOf(source);
    forall j | 0 <= j < |wanted| && wanted[j].name == wanted[i].name ensures wanted[j].source == source {
      assert wanted[j] in wanted;
      WantedIs(graph, s, wanted[j]);
      if wanted[j] in CredentialWants(graph, s) { CredentialWantIsSlot(graph, s, wanted[j]); }
      SameNameSameSource(s, wanted[j], source);
    }
    GatherHolds(env, addressing, wanted, i);
  }

  lemma SameNameSameSource(s: ServiceName, w: Want, source: Source)
    requires w in PlainWants(s) && InBlock(s, source) && w.name == NameOf(source)
    ensures w.source == source
  {
    hide PlainWants, InBlock, NameOf;
    WantFits(s, w);
    OneSource(s, w.source, source);
  }

  /** Where a peer is reached. */
  function PeerAddress(peer: ServiceName, addressing: Addressing): string
    requires PortBlock(peer).Some?
  {
    if addressing.Host? then "http://localhost:" + PortBlock(peer).value
    else "http://" + NameText(peer) + ":" + PortBlock(peer).value
  }

  /** Own and shared variables hold what the file holds under the prefixed or shared key of the same name;
      `NODE_ENV` is the file's `STACK_MODE`, and plaid's `PLAID_MODE` the file's. */
  ghost predicate FileVariables(graph: Graph, env: OMap<string>, s: ServiceName, out: map<string, string>) {
    && (forall v :: v in OwnBlock(s) ==>
          OwnName(v) in out && Get(env, Prefixed(s, VarText(v))) == Some(out[OwnName(v)]))
    && (forall g :: g in SharedBlock(s) && (g.StackMode? ==> !IsSlot(graph, s, "NODE_ENV")) ==>
          SharedName(g) in out && Get(env, GlobalText(g)) == Some(out[SharedName(g)]))
  }

  /** The port is the service's own, each `<PEER>_URL` is that peer's address, and each credential is what the
      file has in its slot. */
  ghost predicate OtherVariables(graph: Graph, env: OMap<string>, addressing: Addressing, s: ServiceName,
      out: map<string, string>)
  {
    && (PortBlock(s).Some? && !IsSlot(graph, s, "PORT") ==> "PORT" in out && out["PORT"] == PortBlock(s).value)
    && (forall peer :: peer in PeerBlock(s) && !IsSlot(graph, s, Prefixed(peer, "URL")) ==>
          && Prefixed(peer, "URL") in out && PortBlock(peer).Some?
          && out[Prefixed(peer, "URL")] == PeerAddress(peer, addressing))
    && (forall i :: 0 <= i < |graph| && Takes(graph[i], s) ==>
          graph[i].envVar in out && out[graph[i].envVar] == SlotValue(env, graph[i], s))
  }

  ghost predicate NothingElse(graph: Graph, s: ServiceName, out: map<string, string>) {
    forall name :: name in out ==> IsSlot(graph, s, name) || exists source :: InBlock(s, source) && NameOf(source) == name
  }

  lemma OwnNameIsNoSlot(graph: Graph, s: ServiceName, v: Var)
    requires WellFormed(graph)
    ensures !IsSlot(graph, s, OwnName(v))
  {
    hide VarText, Takes;
    forall i | 0 <= i < |graph| ensures graph[i].envVar != OwnName(v) { assert WellNamed(graph[i]); }
  }

  lemma SharedNameIsNoSlot(graph: Graph, s: ServiceName, g: Global)
    requires WellFormed(graph) && !g.StackMode?
    ensures !IsSlot(graph, s, SharedName(g))
  {
    hide GlobalText, Takes;
    forall i | 0 <= i < |graph| ensures graph[i].envVar != SharedName(g) { assert WellNamed(graph[i]); }
  }

  lemma FileVariablesHold(graph: Graph, env: OMap<string>, addressing: Addressing, s: ServiceName)
    requires WellFormed(graph) && Gather(env, addressing, Wanted(graph, Record(s))).Ok?
    ensures FileVariables(graph, env, s, Gather(env, addressing, Wanted(graph, Record(s))).value)
  {
    hide WellFormed, Wanted, Record, Gather, IsSlot, OwnBlock, SharedBlock, OwnName, SharedName, VarText, GlobalText,
      Prefixed;
    forall v | v in OwnBlock(s)
      ensures var out := Gather(env, addressing, Wanted(graph, Record(s))).value;
              OwnName(v) in out && Get(env, Prefixed(s, VarText(v))) == Some(out[OwnName(v)])
    {
      OwnNameIsNoSlot(graph, s, v);
      VariableHolds(graph, env, addressing, s, File(Own(s, v)));
    }
    forall g | g in SharedBlock(s) && (g.StackMode? ==> !IsSlot(graph, s, "NODE_ENV"))
      ensures var out := Gather(env, addressing, Wanted(graph, Record(s))).value;
              SharedName(g) in out && Get(env, GlobalText(g)) == Some(out[SharedName(g)])
    {
      if g.StackMode? { ModeName(); } else { SharedNameIsNoSlot(graph, s, g); }
      VariableHolds(graph, env, addressing, s, File(Shared(g)));
    }
  }

  lemma ModeName()
    ensures SharedName(StackMode) == "NODE_ENV"
  {
  }

  lemma PeerAddressed(s: ServiceName, peer: ServiceName, addressing: Addressing)
    requires peer in PeerBlock(s)
    ensures PortBlock(peer).Some? && ServiceUrl(peer, addressing) == Ok(PeerAddress(peer, addressing))
  {
    hide Record, NameText;
    RecordIs(peer);
  }

  lemma OtherVariablesHold(graph: Graph, env: OMap<string>, addressing: Addressing, s: ServiceName)
    requires WellFormed(graph) && Gather(env, addressing, Wanted(graph, Record(s))).Ok?
    ensures OtherVariables(graph, env, addressing, s, Gather(env, addressing, Wanted(graph, Record(s))).value)
  {
    hide WellFormed, Wanted, Record, Gather, IsSlot, PeerBlock, PortBlock, Prefixed, Takes, SlotValue, PeerAddress,
      ServiceUrl;
    var out := Gather(env, addressing, Wanted(graph, Record(s))).value;
    if PortBlock(s).Some? && !IsSlot(graph, s, "PORT") {
      VariableHolds(graph, env, addressing, s, Literal(PortBlock(s).value));
    }
    forall peer | peer in PeerBlock(s) && !IsSlot(graph, s, Prefixed(peer, "URL"))
      ensures Prefixed(peer, "URL") in out && PortBlock(peer).Some?
      ensures out[Prefixed(peer, "URL")] == PeerAddress(peer, addressing)
    {
      PeerAddressed(s, peer, addressing);
      VariableHolds(graph, env, addressing, s, PeerUrl(peer));
    }
    forall i | 0 <= i < |graph| && Takes(graph[i], s)
      ensures graph[i].envVar in out && out[graph[i].envVar] == SlotValue(env, graph[i], s)
    {
      ProcessGetsSlot(env, addressing, graph, i, s);
    }
  }

  lemma NothingElseIsSet(graph: Graph, env: OMap<string>, addressing: Addressing, s: ServiceName)
    requires Gather(env, addressing, Wanted(graph, Record(s))).Ok?
    ensures NothingElse(graph, s, Gather(env, addressing, Wanted(graph, Record(s))).value)
  {
    hide Wanted, Record, Gather, IsSlot, InBlock, NameOf, PlainWants, CredentialWants;
    var wanted := Wanted(graph, Record(s));
    forall name | name in Gather(env, addressing, wanted).value
      ensures IsSlot(graph, s, name) || exists source :: InBlock(s, source) && NameOf(source) == name
    {
      GatherNames(env, addressing, wanted, name);
      var i :| 0 <= i < |wanted| && wanted[i].name == name;
      assert wanted[i] in wanted;
      WantedIs(graph, s, wanted[i]);
      if wanted[i] in PlainWants(s) {
        WantFits(s, wanted[i]);
        assert InBlock(s, wanted[i].source) && NameOf(wanted[i].source) == name;
      } else {
        CredentialWantIsSlot(graph, s, wanted[i]);
      }
    }
  }

  /** The process environment of a service agrees with its compose block, variable by variable and in both
      directions, for every file and every well-formed graph. A credential that is named like a variable the
      graph does not reserve takes its place. */
  lemma ProcessAgreesWithCompose(graph: Graph, env: OMap<string>, addressing: Addressing, s: ServiceName)
    requires WellFormed(graph) && Gather(env, addressing, Wanted(graph, Record(s))).Ok?
    ensures var out := Gather(env, addressing, Wanted(graph, Record(s))).value;
            && FileVariables(graph, env, s, out) && OtherVariables(graph, env, addressing, s, out)
            && NothingElse(graph, s, out)
  {
    hide *;
    FileVariablesHold(graph, env, addressing, s);
    OtherVariablesHold(graph, env, addressing, s);
    NothingElseIsSet(graph, env, addressing, s);
  }

  // ---------------------------------------------------------------- when there is one at all

  /** A key the service cannot start without. */
  ghost predicate Needs(graph: Graph, s: ServiceName, key: string) {
    || (exists v :: v in OwnBlock(s) && key == Prefixed(s, VarText(v)))
    || (exists g :: g in SharedBlock(s) && key == GlobalText(g))
    || (exists i :: 0 <= i < |graph| && Holds(graph[i], s) && key == Slot(graph[i], s))
  }

  lemma {:induction false} GatherFails(env: OMap<string>, addressing: Addressing, wanted: seq<Want>)
    ensures Gather(env, addressing, wanted).Err? <==>
            exists i :: 0 <= i < |wanted| && Fetch(env, addressing, wanted[i].source).Err?
    ensures Gather(env, addressing, wanted).Err? ==>
            exists i :: 0 <= i < |wanted|
                        && Fetch(env, addressing, wanted[i].source) == Err(Gather(env, addressing, wanted).error)
    decreases |wanted|
  {
    hide Fetch;
    if wanted != [] {
      var n := |wanted| - 1;
      GatherFails(env, addressing, wanted[..n]);
      if i :| 0 <= i < n && Fetch(env, addressing, wanted[..n][i].source).Err? {
        assert Fetch(env, addressing, wanted[i].source).Err?;
        var k :| 0 <= k < n
                 && Fetch(env, addressing, wanted[..n][k].source) == Err(Gather(env, addressing, wanted[..n]).error);
        assert wanted[k] == wanted[..n][k];
      }
    }
  }

  lemma OutboundWantFails(graph: Graph, env: OMap<string>, addressing: Addressing, s: ServiceName, w: Want)
    requires w in CredentialWants(graph, s) && Fetch(env, addressing, w.source).Err?
    ensures exists key :: Needs(graph, s, key) && Get(env, key).None?
                          && Fetch(env, addressing, w.source) == Err("generated environment is missing " + key)
  {
    hide Inbound, Outbound, Prefixed, Get, OwnBlock, SharedBlock, VarText, GlobalText;
    var outbound := Outbound(graph, s);
    var j :| 0 <= j < |outbound| && OutboundWants(s, outbound)[j] == w;
    OutboundAre(graph, s, outbound[j]);
    assert outbound[j] in outbound;
    var i :| 0 <= i < |graph| && graph[i] == outbound[j];
    assert Needs(graph, s, Slot(graph[i], s));
  }

  lemma PlainWantFails(graph: Graph, env: OMap<string>, addressing: Addressing, s: ServiceName, w: Want)
    requires w in PlainWants(s) && Fetch(env, addressing, w.source).Err?
    ensures exists key :: Needs(graph, s, key) && Get(env, key).None?
                          && Fetch(env, addressing, w.source) == Err("generated environment is missing " + key)
  {
    hide PlainWants, OwnBlock, SharedBlock, PeerBlock, PortBlock, Prefixed, VarText, GlobalText, NameOf, Get, ServiceUrl,
      PeerAddress;
    WantFits(s, w);
    match w.source {
      case File(k) => assert Needs(graph, s, KeyText(k));
      case PeerUrl(peer) => PeerAddressed(s, peer, addressing);
      case _ =>
    }
  }

  lemma NeededIsFetched(graph: Graph, env: OMap<string>, addressing: Addressing, s: ServiceName, key: string)
    requires Needs(graph, s, key)
    ensures exists w :: w in Wanted(graph, Record(s)) && Fetch(env, addressing, w.source) == FromFile(env, key)
  {
    hide OwnBlock, SharedBlock, PlainWants, Wanted, Record, Prefixed, VarText, GlobalText, NameOf, FromFile,
      CredentialWants;
    if v :| v in OwnBlock(s) && key == Prefixed(s, VarText(v)) {
      BlockIsWanted(s, File(Own(s, v)));
      WantedIs(graph, s, WantOf(File(Own(s, v))));
    } else if g :| g in SharedBlock(s) && key == GlobalText(g) {
      BlockIsWanted(s, File(Shared(g)));
      WantedIs(graph, s, WantOf(File(Shared(g))));
    } else {
      var i :| 0 <= i < |graph| && Holds(graph[i], s) && key == Slot(graph[i], s);
      var w := HeldIsWanted(graph, s, i);
      WantedIs(graph, s, w);
    }
  }

  lemma HeldIsWanted(graph: Graph, s: ServiceName, i: nat) returns (w: Want)
    requires i < |graph| && Holds(graph[i], s)
    ensures w in CredentialWants(graph, s) && w.source == File(Credential(s, graph[i].envVar))
  {
    hide Inbound, Outbound;
    var outbound := Outbound(graph, s);
    OutboundAre(graph, s, graph[i]);
    assert graph[i] in graph;
    var j :| 0 <= j < |outbound| && outbound[j] == graph[i];
    w := OutboundWants(s, outbound)[j];
    assert CredentialWants(graph, s)[|Inbound(graph, s)| + j] == w;
  }

  /** A service starts exactly when the file has every key it needs, and fails by the name of one it lacks. An
      inbound slot is not needed: left out, it reads as empty. */
  lemma StartsIffComplete(graph: Graph, env: OMap<string>, addressing: Addressing, s: ServiceName)
    ensures var out := Gather(env, addressing, Wanted(graph, Record(s)));
            && (out.Ok? <==> forall key :: Needs(graph, s, key) ==> Get(env, key).Some?)
            && (out.Err? ==> exists key :: Needs(graph, s, key) && Get(env, key).None?
                                           && out.error == "generated environment is missing " + key)
  {
    hide Wanted, Record, Needs, Get, Gather, Fetch, PlainWants, CredentialWants;
    var wanted := Wanted(graph, Record(s));
    GatherFails(env, addressing, wanted);
    if Gather(env, addressing, wanted).Err? {
      var i :| 0 <= i < |wanted|
               && Fetch(env, addressing, wanted[i].source) == Err(Gather(env, addressing, wanted).error);
      assert wanted[i] in wanted;
      WantedIs(graph, s, wanted[i]);
      if wanted[i] in PlainWants(s) {
        PlainWantFails(graph, env, addressing, s, wanted[i]);
      } else {
        OutboundWantFails(graph, env, addressing, s, wanted[i]);
      }
    } else {
      forall key | Needs(graph, s, key) ensures Get(env, key).Some? {
        NeededIsFetched(graph, env, addressing, s, key);
        var w :| w in wanted && Fetch(env, addressing, w.source) == FromFile(env, key);
        var i :| 0 <= i < |wanted| && wanted[i] == w;
      }
    }
  }
}
