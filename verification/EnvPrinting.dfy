/** Every generated entry survives a dotenv line, so the file says exactly what was generated. */
module EnvPrinting {
  import opened CredentialGraph
  import opened EnvFile
  import opened EnvGeneration
  import opened EnvKeys
  import opened EnvLookup
  import opened OrderedMap
  import opened Text
  import opened Topology
  import opened Wrappers

  /** A value a dotenv line keeps. */
  predicate Clean(value: string) { Trimmed(value) && '\n' !in value }

  ghost predicate CleanMints(mints: Mints) {
    (forall n: nat :: Clean(mints.keys(n))) && (forall n: nat :: Clean(mints.secrets(n)))
  }

  predicate Capital(c: char) { 'A' <= c <= 'Z' }

  /** A text that can stand in a key. */
  predicate Legible(text: string) {
    text != "" && Capital(text[0]) && Capital(text[|text| - 1]) && '\n' !in text && '=' !in text
  }

  lemma CapitalShows(c: char)
    ensures Capital(c) || c == '_' ==> !IsSpace(c) && c != '#'
  {
  }

  lemma GlobalCapitals(g: Global)
    ensures var text := GlobalText(g); text != "" && Capital(text[0]) && Capital(text[|text| - 1])
  {
  }

  /** Capitals and underscores only. */
  predicate Shouted(text: string) { forall i :: 0 <= i < |text| ==> Capital(text[i]) || text[i] == '_' }

  lemma ShoutedShows(text: string)
    requires Shouted(text)
    ensures '\n' !in text && '=' !in text
  {
  }

  lemma LongGlobalShouted(g: Global)
    requires |GlobalText(g)| > 16
    ensures Shouted(GlobalText(g))
  {
  }

  lemma ShortGlobalShouted(g: Global)
    requires |GlobalText(g)| <= 16
    ensures Shouted(GlobalText(g))
  {
  }

  lemma GlobalLegible(g: Global)
    ensures Legible(GlobalText(g))
  {
    hide GlobalText, Capital;
    GlobalCapitals(g);
    if |GlobalText(g)| > 16 { LongGlobalShouted(g); } else { ShortGlobalShouted(g); }
    ShoutedShows(GlobalText(g));
  }

  lemma VarCapitals(v: Var)
    ensures var text := VarText(v); text != "" && Capital(text[0]) && Capital(text[|text| - 1])
  {
  }

  predicate KeyVar(v: Var) {
    v.AwsKmsKeyIdVar? || v.KmsMasterKeyVar? || v.EmailIndexKey? || v.ItemIndexKey? || v.SearchIndexKey?
  }

  lemma KeyVarShouted(v: Var)
    requires KeyVar(v)
    ensures Shouted(VarText(v))
  {
  }

  lemma PlainVarShouted(v: Var)
    requires !KeyVar(v)
    ensures Shouted(VarText(v))
  {
  }

  lemma VarLegible(v: Var)
    ensures Legible(VarText(v))
  {
    hide VarText, Capital;
    VarCapitals(v);
    if KeyVar(v) { KeyVarShouted(v); } else { PlainVarShouted(v); }
    ShoutedShows(VarText(v));
  }

  lemma PrefixLegible(service: ServiceName)
    ensures Legible(PrefixText(service))
  {
  }

  lemma PrefixedLegible(service: ServiceName, rest: string)
    requires Trimmed(rest) && '\n' !in rest && '=' !in rest
    ensures var t := Prefixed(service, rest);
            t != "" && Trimmed(t) && t[0] != '#' && '\n' !in t && '=' !in t
  {
    PrefixIs(service);
    PrefixLegible(service);
    hide EnvPrefix, NameText, PrefixText, IsSpace;
    var t := Prefixed(service, rest);
    CapitalShows('_');
    CapitalShows(t[0]);
    assert t[0] == PrefixText(service)[0];
    assert t[|t| - 1] == if rest == "" then '_' else rest[|rest| - 1];
  }

  lemma LegibleTrimmed(text: string)
    requires Legible(text)
    ensures Trimmed(text) && text[0] != '#'
  {
    hide IsSpace;
    CapitalShows(text[0]);
    CapitalShows(text[|text| - 1]);
  }

  lemma KeyLegible(graph: Graph, k: EnvKey)
    requires WellFormed(graph) && Planned(graph, k)
    ensures var t := KeyText(k); t != "" && Trimmed(t) && t[0] != '#' && '\n' !in t && '=' !in t
  {
    hide GlobalText, VarText, Prefixed, Unreserved, Granted, Get, IsSpace, Takes, Separate;
    match k {
      case Shared(g) =>
        GlobalLegible(g);
        LegibleTrimmed(GlobalText(g));
      case Own(s, v) =>
        VarLegible(v);
        LegibleTrimmed(VarText(v));
        PrefixedLegible(s, VarText(v));
      case Credential(s, envVar) =>
        GetSome(Granted(graph, s), envVar);
        var i := GrantedIsSlot(graph, s, envVar);
        assert WellNamed(graph[i]);
        PrefixedLegible(s, envVar);
    }
  }

  predicate Visible(c: char) { '!' <= c <= '~' }

  /** Starts and ends visibly, on one line. */
  predicate Plain(t: string) {
    t != "" && Visible(t[0]) && Visible(t[|t| - 1]) && '\n' !in t
  }

  lemma PlainIsClean(t: string)
    requires Plain(t)
    ensures Clean(t)
  {
  }

  lemma PlainJoin(a: string, b: string)
    requires Plain(a) && Plain(b)
    ensures Plain(a + b)
  {
    hide Visible;
    var t := a + b;
    assert t[0] == a[0] && t[|t| - 1] == b[|b| - 1];
  }

  ghost predicate PlainNetwork(n: Network) {
    && Plain(n.kafkaBrokers) && Plain(n.awsEndpoint) && Plain(n.clamdHost) && Plain(n.ocrUrl)
    && Plain(n.region) && Plain(n.objectStoreBucket)
  }

  lemma ComposeNetworkPlain()
    ensures PlainNetwork(NETWORK)
  {
  }

  lemma HostNetworkPlain()
    ensures PlainNetwork(HOST_NETWORK)
  {
  }

  lemma TlsPlain()
    ensures Plain(TLS_AWS_ENDPOINT) && Plain(TLS_AWS_ENDPOINT_HOST)
    ensures Plain(TLS_CA_PATH) && Plain(TLS_CA_PATH_HOST)
  {
  }

  lemma NetworkPlain(addressing: Addressing, mode: Mode)
    ensures PlainNetwork(NetworkFor(addressing, mode)) && Plain(TlsCaPathFor(addressing))
  {
    hide Plain;
    ComposeNetworkPlain();
    HostNetworkPlain();
    TlsPlain();
  }

  lemma ModeWordsPlain(mode: Mode, addressing: Addressing)
    ensures Plain(ModeText(mode)) && Plain(AddressingText(addressing)) && Plain("test")
  {
  }

  lemma SharedWordsPlain()
    ensures Plain("no-reply@stack.estate.local") && Plain("localhost")
    ensures Plain("http://localhost:3000") && Plain("Estate Platform (local stack)")
  {
  }

  lemma GlobalClean(mode: Mode, addressing: Addressing, g: Global)
    ensures Clean(GlobalValue(mode, addressing, g))
  {
    NetworkPlain(addressing, mode);
    ModeWordsPlain(mode, addressing);
    SharedWordsPlain();
    hide NetworkFor, Plain, Clean, TlsCaPathFor, ModeText, AddressingText;
    var value := GlobalValue(mode, addressing, g);
    if value == "" { EmptyIsClean(); } else { PlainIsClean(value); }
  }

  lemma EmptyIsClean()
    ensures Clean("")
  {
  }

  lemma NamePlain(service: ServiceName)
    ensures Plain(NameText(service))
  {
  }

  ghost predicate PlainCluster(c: Cluster) {
    Plain(c.host) && Plain(c.database) && Plain(c.hostPort)
  }

  lemma PeopleClustersPlain()
    ensures PlainCluster(AUTH) && PlainCluster(CORE) && PlainCluster(FINANCIAL)
  {
  }

  lemma StoreClustersPlain()
    ensures PlainCluster(DOCUMENTS) && PlainCluster(VAULT) && PlainCluster(AUDIT)
  {
  }

  lemma ClusterPlain(service: ServiceName)
    ensures PlainCluster(Record(service).cluster)
  {
    PeopleClustersPlain();
    StoreClustersPlain();
    hide Plain;
  }

  lemma UrlPartsPlain()
    ensures Plain("postgres://estate:estate_dev@") && Plain("/") && Plain("localhost:") && Plain(":5432")
    ensures Plain("alias/estate-") && Plain("-kek")
  {
  }

  lemma DatabaseUrlClean(service: ServiceName, addressing: Addressing)
    ensures Clean(DatabaseUrl(Record(service).cluster, addressing))
  {
    ClusterPlain(service);
    UrlPartsPlain();
    hide Clean, Record, Plain;
    var cluster := Record(service).cluster;
    var place := if addressing.Host? then "localhost:" + cluster.hostPort else cluster.host + ":5432";
    if addressing.Host? { PlainJoin("localhost:", cluster.hostPort); } else { PlainJoin(cluster.host, ":5432"); }
    PlainJoin("postgres://estate:estate_dev@", place);
    PlainJoin("postgres://estate:estate_dev@" + place, "/");
    PlainJoin("postgres://estate:estate_dev@" + place + "/", cluster.database);
    PlainIsClean(DatabaseUrl(cluster, addressing));
  }

  lemma KeyIdClean(service: ServiceName)
    ensures Clean("alias/estate-" + NameText(service) + "-kek")
  {
    NamePlain(service);
    UrlPartsPlain();
    hide Clean, NameText, Plain;
    PlainJoin("alias/estate-", NameText(service));
    PlainJoin("alias/estate-" + NameText(service), "-kek");
    PlainIsClean("alias/estate-" + NameText(service) + "-kek");
  }

  lemma ProfilesPlain(mode: Mode, service: ServiceName)
    ensures Plain(ComposeProfile(mode, service))
  {
  }

  lemma WordsPlain()
    ensures Plain("aws") && Plain("s3") && Plain("clamd") && Plain("tesseract") && Plain("http") && Plain("ses")
    ensures Plain("live") && Plain("stub") && Plain("anthropic")
  {
  }

  lemma OwnClean(mode: Mode, addressing: Addressing, service: ServiceName, v: Var)
    ensures var val := OwnValue(mode, addressing, service, v); val.Fixed? ==> Clean(val.text)
  {
    DatabaseUrlClean(service, addressing);
    KeyIdClean(service);
    NetworkPlain(addressing, mode);
    ProfilesPlain(mode, service);
    WordsPlain();
    hide DatabaseUrl, NameText, NetworkFor, ComposeProfile, Clean, Record, MasterKeyCall, Plain;
    var val := OwnValue(mode, addressing, service, v);
    if val.Fixed? && !v.DatabaseUrlVar? && !v.AwsKmsKeyIdVar? { PlainIsClean(val.text); }
  }

  lemma ValueClean(plan: Plan, mints: Mints, k: EnvKey)
    requires CleanMints(mints)
    ensures Clean(Resolve(ValueOf(plan, k), mints))
  {
    hide GlobalValue, OwnValue, Get, Granted, Clean;
    if k.Shared? { GlobalClean(plan.mode, plan.addressing, k.global); }
    if k.Own? { OwnClean(plan.mode, plan.addressing, k.service, k.variable); }
    EmptyIsClean();
  }

  lemma EntryWritable(plan: Plan, mints: Mints, k: EnvKey)
    requires WellFormed(plan.graph) && CleanMints(mints) && Planned(plan.graph, k)
    ensures Writable((KeyText(k), Resolve(ValueOf(plan, k), mints)))
  {
    hide KeyText, Resolve, ValueOf, WellFormed, Planned, CleanMints, Trimmed;
    KeyLegible(plan.graph, k);
    ValueClean(plan, mints, k);
  }

  lemma TitlesClean(graph: Graph, addressing: Addressing, b: nat)
    requires b < |Blocks(graph, addressing)|
    ensures '\n' !in Blocks(graph, addressing)[b].title
  {
    hide CredentialKeys, KekKeys;
    FixedTitlesClean();
    if 1 <= b <= 10 {
      ServiceTitleClean(SERVICES[b - 1].name);
      assert Blocks(graph, addressing)[b] == ServiceBlock(graph, SERVICES[b - 1]);
    }
  }

  lemma FixedTitlesClean()
    ensures '\n' !in "Shared infrastructure" && '\n' !in INDEX_TITLE
    ensures '\n' !in ADAPTER_TITLE && '\n' !in "WebAuthn relying party"
  {
  }

  lemma ServiceTitleClean(service: ServiceName)
    ensures '\n' !in NameText(service) + " service"
  {
  }

  lemma GeneratedWritable(plan: Plan, mints: Mints)
    requires WellFormed(plan.graph) && CleanMints(mints)
    ensures forall s :: 0 <= s < |Generated(plan, mints)| ==> WritableSection(Generated(plan, mints)[s])
  {
    hide WellFormed, CleanMints, Writable, Blocks, KeyText, Resolve, ValueOf, Planned;
    var blocks := Blocks(plan.graph, plan.addressing);
    forall s | 0 <= s < |blocks| ensures WritableSection(SectionOf(plan, blocks[s], mints)) {
      TitlesClean(plan.graph, plan.addressing, s);
      forall i | 0 <= i < |blocks[s].keys| ensures Writable(Entries(plan, blocks[s].keys, mints)[i]) {
        BlockHasKey(blocks, s, blocks[s].keys[i]);
        KeysEitherWay(plan.graph, plan.addressing);
        KeysArePlanned(plan.graph, blocks[s].keys[i]);
        EntryWritable(plan, mints, blocks[s].keys[i]);
      }
    }
  }

  /** Printing a generated environment and parsing the file gives back the environment. */
  lemma FileGivesEnvironment(plan: Plan, mints: Mints)
    requires WellFormed(plan.graph) && CleanMints(mints)
    ensures Parsed(Rendered(Generated(plan, mints), plan.mode)) == Environment(plan, mints)
  {
    hide WellFormed, CleanMints, WritableSection, Parsed, Rendered, Generated, MapOf, EntriesOf;
    GeneratedWritable(plan, mints);
    RoundTrip(Generated(plan, mints), plan.mode);
  }
}
