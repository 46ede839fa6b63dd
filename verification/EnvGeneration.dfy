/** Generating the stack's environment: which keys it has, what each one holds, and the loop that writes
    them down. */
module EnvGeneration {
  import opened CredentialGraph
  import opened EnvFile
  import opened EnvKeys
  import opened OrderedMap
  import opened Topology
  import opened Wrappers

  /** Where a value comes from: settled by mode and addressing, or the n-th call of a mint. */
  datatype Val = Fixed(text: string) | MintedKey(call: nat) | MintedSecret(call: nat)

  /** The two generators, as the streams of values they return. */
  datatype Mints = Mints(keys: nat -> string, secrets: nat -> string)

  datatype Plan = Plan(graph: Graph, mode: Mode, addressing: Addressing)

  function Resolve(val: Val, mints: Mints): string {
    match val
    case Fixed(text) => text
    case MintedKey(n) => mints.keys(n)
    case MintedSecret(n) => mints.secrets(n)
  }

  // ---------------------------------------------------------------- what each key holds

  function GlobalValue(mode: Mode, addressing: Addressing, g: Global): string {
    var network := NetworkFor(addressing, mode);
    match g
    case StackMode => ModeText(mode)
    case StackAddressing => AddressingText(addressing)
    case KafkaBrokers => network.kafkaBrokers
    case AwsRegion => network.region
    case AwsEndpointUrl => network.awsEndpoint
    case AwsAccessKeyId => "test"
    case AwsSecretAccessKey => "test"
    case ObjectStoreBucket => network.objectStoreBucket
    case NodeExtraCaCerts => if mode.Production? then TlsCaPathFor(addressing) else ""
    case SesFromAddress => "no-reply@stack.estate.local"
    case RpId => "localhost"
    case RpOrigin => "http://localhost:3000"
    case RpName => "Estate Platform (local stack)"
  }

  /** The master keys are the first calls of the key mint, in service order; vault and audit have none. */
  function MasterKeyCall(service: ServiceName): nat {
    if Place(service) < 5 then Place(service) else Place(service) - 1
  }

  function OwnValue(mode: Mode, addressing: Addressing, service: ServiceName, v: Var): Val {
    match v
    case DatabaseUrlVar => Fixed(DatabaseUrl(Record(service).cluster, addressing))
    case KmsModeVar => Fixed("aws")
    case AwsKmsKeyIdVar => Fixed("alias/estate-" + NameText(service) + "-kek")
    case KmsMasterKeyVar => MintedKey(MasterKeyCall(service))
    case EmailIndexKey => MintedKey(if service.Identity? then 8 else 9)
    case ItemIndexKey => MintedKey(10)
    case SearchIndexKey => MintedKey(11)
    case ObjectStoreMode => Fixed("s3")
    case ScannerMode => Fixed("clamd")
    case ClamdHost => Fixed(NetworkFor(addressing, mode).clamdHost)
    case OcrMode => Fixed("tesseract")
    case OcrUrl => Fixed(NetworkFor(addressing, mode).ocrUrl)
    case NotifyMode => Fixed("http")
    case EmailMode => Fixed("ses")
    case ModeVar => Fixed(if mode.Production? then "live" else "stub")
    case ProfileVar => Fixed(ComposeProfile(mode, service))
    case LlmMode => Fixed(if mode.Production? then "anthropic" else "stub")
  }

  function ComposeProfile(mode: Mode, service: ServiceName): string {
    if service.Plaid? then (if mode.Production? then "plaid-requires-live-credentials" else "plaid")
    else if mode.Production? then "ai-assistant-requires-live-credentials" else "services"
  }

  function ValueOf(plan: Plan, k: EnvKey): Val {
    match k
    case Shared(g) => Fixed(GlobalValue(plan.mode, plan.addressing, g))
    case Own(s, v) => OwnValue(plan.mode, plan.addressing, s, v)
    case Credential(s, envVar) =>
      var granted := Get(Granted(plan.graph, s), envVar);
      if granted.Some? then MintedSecret(granted.value) else Fixed("")
  }

  // ---------------------------------------------------------------- which keys, in which order

  datatype Block = Block(title: string, note: Option<string>, keys: seq<EnvKey>)

  const SHARED_KEYS := [
    Shared(StackMode), Shared(StackAddressing), Shared(KafkaBrokers), Shared(AwsRegion), Shared(AwsEndpointUrl),
    Shared(AwsAccessKeyId), Shared(AwsSecretAccessKey), Shared(ObjectStoreBucket), Shared(NodeExtraCaCerts)
  ]

  const INDEX_KEYS := [
    Own(Identity, EmailIndexKey), Own(Profile, EmailIndexKey), Own(Plaid, ItemIndexKey),
    Own(Documents, SearchIndexKey)
  ]

  const DOCUMENT_KEYS := [
    Own(Documents, ObjectStoreMode), Own(Documents, ScannerMode), Own(Documents, ClamdHost),
    Own(Documents, OcrMode), Own(Documents, OcrUrl)
  ]

  const CARRIER_KEYS := [
    Own(Vault, NotifyMode), Own(Settlement, NotifyMode), Own(Profile, NotifyMode),
    Own(Notifications, EmailMode), Shared(SesFromAddress)
  ]

  const PROVIDER_KEYS := [
    Own(Plaid, ModeVar), Own(Plaid, ProfileVar), Own(AiAssistant, LlmMode), Own(AiAssistant, ProfileVar)
  ]

  const ADAPTER_KEYS := DOCUMENT_KEYS + CARRIER_KEYS + PROVIDER_KEYS

  const RP_KEYS := [Shared(RpId), Shared(RpOrigin), Shared(RpName)]

  const HOST_NOTE := "HOST addressing: processes on the host reach infra via published ports."
  const COMPOSE_NOTE := "In-network addresses. The 5433-5438 host ports exist only for host tooling."
  const ADAPTER_NOTE :=
    "Plaid and the AI assistant are the exceptions: production pins a live third-party\n"
    + "provider for each (PLAID_MODE=live, LLM_MODE=anthropic) and no credentials exist for\n"
    + "either, so both run stubbed in development and are OMITTED from the production profile."
  const RP_NOTE := "The stack is addressed as http://localhost:3000 \U{2014} see the README."

  function SharedBlock(addressing: Addressing): Block {
    Block("Shared infrastructure", Some(if addressing.Host? then HOST_NOTE else COMPOSE_NOTE), SHARED_KEYS)
  }

  function KekKeys(service: StackService): seq<EnvKey> {
    if service.hasKek
    then [Own(service.name, KmsModeVar), Own(service.name, AwsKmsKeyIdVar), Own(service.name, KmsMasterKeyVar)]
    else []
  }

  function CredentialKeys(graph: Graph, service: ServiceName): seq<EnvKey> {
    var granted := Granted(graph, service);
    seq(|granted|, i requires 0 <= i < |granted| => Credential(service, granted[i].0))
  }

  function ServiceBlock(graph: Graph, service: StackService): Block {
    Block(NameText(service.name) + " service", None,
      [Own(service.name, DatabaseUrlVar)] + KekKeys(service) + CredentialKeys(graph, service.name))
  }

  function ServiceBlocks(graph: Graph, services: seq<StackService>): seq<Block> {
    seq(|services|, i requires 0 <= i < |services| => ServiceBlock(graph, services[i]))
  }

  const INDEX_TITLE := "Per-service index keys " + "(independent by design)"
  const ADAPTER_TITLE := "Adapter selection \U{2014} " + "every external dependency is REAL"

  const CLOSING := [
    Block(INDEX_TITLE, None, INDEX_KEYS),
    Block(ADAPTER_TITLE, Some(ADAPTER_NOTE), ADAPTER_KEYS),
    Block("WebAuthn relying party", Some(RP_NOTE), RP_KEYS)
  ]

  function Blocks(graph: Graph, addressing: Addressing): seq<Block> {
    [SharedBlock(addressing)] + ServiceBlocks(graph, SERVICES) + CLOSING
  }

  function Entries(plan: Plan, keys: seq<EnvKey>, mints: Mints): seq<Entry> {
    seq(|keys|, i requires 0 <= i < |keys| => (KeyText(keys[i]), Resolve(ValueOf(plan, keys[i]), mints)))
  }

  function SectionOf(plan: Plan, block: Block, mints: Mints): Section {
    Section(block.title, block.note, Entries(plan, block.keys, mints))
  }

  function SectionsOf(plan: Plan, blocks: seq<Block>, mints: Mints): seq<Section> {
    seq(|blocks|, i requires 0 <= i < |blocks| => SectionOf(plan, blocks[i], mints))
  }

  function Generated(plan: Plan, mints: Mints): seq<Section> {
    SectionsOf(plan, Blocks(plan.graph, plan.addressing), mints)
  }

  // ---------------------------------------------------------------- the generator

  /** How often the key mint has been called before the i-th service. */
  function MasterKeysBefore(i: nat): nat {
    if i <= 5 then i else if i <= 9 then i - 1 else 8
  }

  lemma MasterKeyStep(i: nat)
    requires i < 10
    ensures |SERVICES| == 10
    ensures MasterKeysBefore(i + 1) == MasterKeysBefore(i) + if SERVICES[i].hasKek then 1 else 0
    ensures SERVICES[i].hasKek ==> MasterKeyCall(SERVICES[i].name) == MasterKeysBefore(i)
  {
  }

  lemma RecordIs(i: nat)
    requires i < 10
    ensures |SERVICES| == 10 && Record(SERVICES[i].name) == SERVICES[i]
  {
    PlaceFinds(SERVICES[i].name);
    hide Place;
  }

  lemma CredentialEntries(plan: Plan, service: ServiceName, mints: Mints)
    ensures var granted := Filled(Granted(plan.graph, service), mints.secrets);
            Entries(plan, CredentialKeys(plan.graph, service), mints) ==
            seq(|granted|, i requires 0 <= i < |granted| => (Prefixed(service, granted[i].0), granted[i].1))
  {
    hide Granted, Prefixed, GlobalValue, OwnValue, Get;
    var granted := Granted(plan.graph, service);
    GrantedDistinct(plan.graph, service);
    forall i | 0 <= i < |granted|
      ensures ValueOf(plan, Credential(service, granted[i].0)) == MintedSecret(granted[i].1)
    {
      GetAt(granted, i);
    }
  }

  method ServiceSection(plan: Plan, service: StackService, credentials: ByService, mints: Mints, drawn: nat)
      returns (section: Section, called: nat)
    requires Assigned(credentials, plan.graph, mints.secrets)
    requires Record(service.name) == service && (service.hasKek ==> MasterKeyCall(service.name) == drawn)
    ensures section == SectionOf(plan, ServiceBlock(plan.graph, service), mints)
    ensures called == drawn + if service.hasKek then 1 else 0
  {
    hide Granted, Prefixed, GlobalValue, Record, MasterKeyCall, Filled, Get, CredentialsFor, DatabaseUrl;
    var s := service.name;
    called := drawn;
    var entries := [(Prefixed(s, "DATABASE_URL"), DatabaseUrl(service.cluster, plan.addressing))];
    var keyId := KmsKeyIdFor(service);
    if keyId.Some? {
      entries := entries + [(Prefixed(s, "KMS_MODE"), "aws")];
      entries := entries + [(Prefixed(s, "AWS_KMS_KEY_ID"), keyId.value)];
      entries := entries + [(Prefixed(s, "KMS_MASTER_KEY_HEX"), mints.keys(called))];
      called := called + 1;
    }
    ghost var fixed := [Own(s, DatabaseUrlVar)] + KekKeys(service);
    assert entries == Entries(plan, fixed, mints);
    var slots := CredentialsFor(credentials, s);
    ghost var before := entries;
    for i := 0 to |slots|
      invariant entries == before + seq(i, k requires 0 <= k < i => (Prefixed(s, slots[k].0), slots[k].1))
    {
      entries := entries + [(Prefixed(s, slots[i].0), slots[i].1)];
    }
    CredentialEntries(plan, s, mints);
    assert entries == Entries(plan, fixed + CredentialKeys(plan.graph, s), mints);
    section := Section(NameText(s) + " service", None, entries);
  }

  method SharedSection(plan: Plan, network: Network, mints: Mints) returns (section: Section)
    requires network == NetworkFor(plan.addressing, plan.mode)
    ensures section == SectionOf(plan, SharedBlock(plan.addressing), mints)
  {
    hide NetworkFor, TlsCaPathFor;
    section := Section(
      "Shared infrastructure",
      Some(if plan.addressing.Host? then HOST_NOTE else COMPOSE_NOTE),
      [("STACK_MODE", ModeText(plan.mode)),
       ("STACK_ADDRESSING", AddressingText(plan.addressing)),
       ("KAFKA_BROKERS", network.kafkaBrokers),
       ("AWS_REGION", network.region),
       ("AWS_ENDPOINT_URL", network.awsEndpoint),
       ("AWS_ACCESS_KEY_ID", "test"),
       ("AWS_SECRET_ACCESS_KEY", "test"),
       ("OBJECT_STORE_BUCKET", network.objectStoreBucket),
       ("NODE_EXTRA_CA_CERTS", if plan.mode.Production? then TlsCaPathFor(plan.addressing) else "")]);
    assert section.entries == Entries(plan, SHARED_KEYS, mints);
  }

  method IndexSection(plan: Plan, mints: Mints, drawn: nat) returns (section: Section)
    requires drawn == 8
    ensures section == SectionOf(plan, CLOSING[0], mints)
  {
    hide EnvPrefix;
    section := Section(INDEX_TITLE, None,
      [(Prefixed(Identity, "EMAIL_INDEX_KEY_HEX"), mints.keys(drawn)),
       (Prefixed(Profile, "EMAIL_INDEX_KEY_HEX"), mints.keys(drawn + 1)),
       (Prefixed(Plaid, "ITEM_INDEX_KEY_HEX"), mints.keys(drawn + 2)),
       (Prefixed(Documents, "SEARCH_INDEX_KEY_HEX"), mints.keys(drawn + 3))]);
    assert section.entries == Entries(plan, INDEX_KEYS, mints);
  }

  function DocumentAdapters(network: Network): seq<Entry> {
    [(Prefixed(Documents, "OBJECT_STORE_MODE"), "s3"),
     (Prefixed(Documents, "SCANNER_MODE"), "clamd"),
     (Prefixed(Documents, "CLAMD_HOST"), network.clamdHost),
     (Prefixed(Documents, "OCR_MODE"), "tesseract"),
     (Prefixed(Documents, "OCR_URL"), network.ocrUrl)]
  }

  function CarrierAdapters(): seq<Entry> {
    [(Prefixed(Vault, "NOTIFY_MODE"), "http"),
     (Prefixed(Settlement, "NOTIFY_MODE"), "http"),
     (Prefixed(Profile, "NOTIFY_MODE"), "http"),
     (Prefixed(Notifications, "EMAIL_MODE"), "ses"),
     ("SES_FROM_ADDRESS", "no-reply@stack.estate.local")]
  }

  function ProviderAdapters(production: bool): seq<Entry> {
    [(Prefixed(Plaid, "MODE"), if production then "live" else "stub"),
     (Prefixed(Plaid, "PROFILE"), if production then "plaid-requires-live-credentials" else "plaid"),
     (Prefixed(AiAssistant, "LLM_MODE"), if production then "anthropic" else "stub"),
     (Prefixed(AiAssistant, "PROFILE"),
      if production then "ai-assistant-requires-live-credentials" else "services")]
  }

  lemma AdaptersAre(plan: Plan, mints: Mints)
    ensures Entries(plan, DOCUMENT_KEYS, mints) == DocumentAdapters(NetworkFor(plan.addressing, plan.mode))
    ensures Entries(plan, CARRIER_KEYS, mints) == CarrierAdapters()
  {
    hide NetworkFor, Prefixed;
  }

  lemma ProvidersAre(plan: Plan, mints: Mints)
    ensures Entries(plan, PROVIDER_KEYS, mints) == ProviderAdapters(plan.mode.Production?)
  {
    hide Prefixed;
  }

  lemma EntriesConcat(plan: Plan, xs: seq<EnvKey>, ys: seq<EnvKey>, mints: Mints)
    ensures Entries(plan, xs + ys, mints) == Entries(plan, xs, mints) + Entries(plan, ys, mints)
  {
    hide KeyText, ValueOf, Resolve;
  }

  method AdapterSection(plan: Plan, network: Network, mints: Mints) returns (section: Section)
    requires network == NetworkFor(plan.addressing, plan.mode)
    ensures section == SectionOf(plan, CLOSING[1], mints)
  {
    hide NetworkFor, Entries, DocumentAdapters, CarrierAdapters, ProviderAdapters;
    section := Section(ADAPTER_TITLE, Some(ADAPTER_NOTE),
      DocumentAdapters(network) + CarrierAdapters() + ProviderAdapters(plan.mode.Production?));
    AdaptersAre(plan, mints);
    ProvidersAre(plan, mints);
    EntriesConcat(plan, DOCUMENT_KEYS, CARRIER_KEYS, mints);
    EntriesConcat(plan, DOCUMENT_KEYS + CARRIER_KEYS, PROVIDER_KEYS, mints);
  }

  method RpSection(plan: Plan, mints: Mints) returns (section: Section)
    ensures section == SectionOf(plan, CLOSING[2], mints)
  {
    section := Section("WebAuthn relying party", Some(RP_NOTE),
      [("RP_ID", "localhost"), ("RP_ORIGIN", "http://localhost:3000"), ("RP_NAME", "Estate Platform (local stack)")]);
    assert section.entries == Entries(plan, RP_KEYS, mints);
  }

  method ServiceSections(plan: Plan, credentials: ByService, mints: Mints)
      returns (sections: seq<Section>, drawn: nat)
    requires Assigned(credentials, plan.graph, mints.secrets)
    ensures sections == SectionsOf(plan, ServiceBlocks(plan.graph, SERVICES), mints)
    ensures drawn == 8
  {
    hide SectionOf, Assigned, ServiceBlock, MasterKeyCall, Record;
    sections, drawn := [], 0;
    for i := 0 to |SERVICES|
      invariant drawn == MasterKeysBefore(i)
      invariant sections == SectionsOf(plan, ServiceBlocks(plan.graph, SERVICES[..i]), mints)
    {
      MasterKeyStep(i);
      RecordIs(i);
      var section;
      section, drawn := ServiceSection(plan, SERVICES[i], credentials, mints, drawn);
      OneMoreService(plan, i, mints, section);
      sections := sections + [section];
    }
    assert SERVICES[..|SERVICES|] == SERVICES;
  }

  method GenerateEnv(plan: Plan, mints: Mints) returns (sections: seq<Section>)
    ensures sections == Generated(plan, mints)
  {
    hide SectionOf, Assigned, ServiceBlocks, SharedBlock, NetworkFor;
    var network := NetworkFor(plan.addressing, plan.mode);
    var credentials := AssignCredentials(plan.graph, mints.secrets);
    var shared := SharedSection(plan, network, mints);
    var services, drawn := ServiceSections(plan, credentials, mints);
    var index := IndexSection(plan, mints, drawn);
    var adapters := AdapterSection(plan, network, mints);
    var rp := RpSection(plan, mints);
    sections := [shared] + services + [index, adapters, rp];
  }

  lemma OneMoreService(plan: Plan, i: nat, mints: Mints, section: Section)
    requires i < |SERVICES|
    requires section == SectionOf(plan, ServiceBlock(plan.graph, SERVICES[i]), mints)
    ensures SectionsOf(plan, ServiceBlocks(plan.graph, SERVICES[..i + 1]), mints) ==
            SectionsOf(plan, ServiceBlocks(plan.graph, SERVICES[..i]), mints) + [section]
  {
    hide ServiceBlock, SectionOf;
  }
}
