/** Reading a generated environment: every key that was written holds what it was meant to. */
module EnvLookup {
  import opened CredentialGraph
  import opened EnvFile
  import opened EnvGeneration
  import opened EnvKeys
  import opened OrderedMap
  import opened Topology
  import opened Wrappers

  function KeysOf(blocks: seq<Block>): seq<EnvKey> {
    if blocks == [] then [] else KeysOf(blocks[..|blocks| - 1]) + blocks[|blocks| - 1].keys
  }

  /** Every key of the file; addressing changes a note, never the keys. */
  function AllKeys(graph: Graph): seq<EnvKey> {
    KeysOf(Blocks(graph, Compose))
  }

  function Environment(plan: Plan, mints: Mints): OMap<string> {
    MapOf(EntriesOf(Generated(plan, mints)))
  }

  lemma {:induction false} KeysOfSame(xs: seq<Block>, ys: seq<Block>)
    requires |xs| == |ys| && forall i :: 0 <= i < |xs| ==> xs[i].keys == ys[i].keys
    ensures KeysOf(xs) == KeysOf(ys)
    decreases |xs|
  {
    if xs != [] { KeysOfSame(xs[..|xs| - 1], ys[..|ys| - 1]); }
  }

  lemma OnlyTheHeadDiffers(a: Block, b: Block, rest: seq<Block>)
    requires a.keys == b.keys
    ensures KeysOf([a] + rest) == KeysOf([b] + rest)
  {
    hide KeysOf;
    KeysOfSame([a] + rest, [b] + rest);
  }

  lemma KeysEitherWay(graph: Graph, addressing: Addressing)
    ensures KeysOf(Blocks(graph, addressing)) == AllKeys(graph)
  {
    hide KeysOf, ServiceBlocks, CLOSING;
    var rest := ServiceBlocks(graph, SERVICES) + CLOSING;
    OnlyTheHeadDiffers(SharedBlock(addressing), SharedBlock(Compose), rest);
    assert Blocks(graph, addressing) == [SharedBlock(addressing)] + rest;
    assert Blocks(graph, Compose) == [SharedBlock(Compose)] + rest;
  }

  lemma {:induction false} EntriesOfSections(plan: Plan, blocks: seq<Block>, mints: Mints)
    ensures EntriesOf(SectionsOf(plan, blocks, mints)) == Entries(plan, KeysOf(blocks), mints)
    decreases |blocks|
  {
    hide Entries;
    if blocks == [] {
      NoEntries(plan, mints);
    } else {
      var n := |blocks| - 1;
      assert SectionsOf(plan, blocks, mints)[..n] == SectionsOf(plan, blocks[..n], mints);
      EntriesOfSections(plan, blocks[..n], mints);
      EntriesConcat(plan, KeysOf(blocks[..n]), blocks[n].keys, mints);
    }
  }

  lemma NoEntries(plan: Plan, mints: Mints)
    ensures Entries(plan, [], mints) == []
  {
  }

  lemma GeneratedEntries(plan: Plan, mints: Mints)
    ensures EntriesOf(Generated(plan, mints)) == Entries(plan, AllKeys(plan.graph), mints)
  {
    hide Entries, EntriesOf, KeysOf, Blocks, SectionsOf;
    KeysEitherWay(plan.graph, plan.addressing);
    EntriesOfSections(plan, Blocks(plan.graph, plan.addressing), mints);
  }

  // ---------------------------------------------------------------- which keys there are

  lemma {:induction false} BlockHasKey(blocks: seq<Block>, b: nat, k: EnvKey)
    requires b < |blocks| && k in blocks[b].keys
    ensures k in KeysOf(blocks)
    decreases |blocks|
  {
    if b < |blocks| - 1 { BlockHasKey(blocks[..|blocks| - 1], b, k); }
  }

  lemma {:induction false} KeyHasBlock(blocks: seq<Block>, k: EnvKey) returns (b: nat)
    requires k in KeysOf(blocks)
    ensures b < |blocks| && k in blocks[b].keys
    decreases |blocks|
  {
    var n := |blocks| - 1;
    if k in blocks[n].keys { b := n; } else { b := KeyHasBlock(blocks[..n], k); }
  }

  /** Which services have which variable in the file. */
  predicate Written(service: ServiceName, v: Var) {
    match v
    case DatabaseUrlVar => true
    case KmsModeVar => Record(service).hasKek
    case AwsKmsKeyIdVar => Record(service).hasKek
    case KmsMasterKeyVar => Record(service).hasKek
    case EmailIndexKey => service.Identity? || service.Profile?
    case ItemIndexKey => service.Plaid?
    case SearchIndexKey => service.Documents?
    case NotifyMode => service.Vault? || service.Settlement? || service.Profile?
    case EmailMode => service.Notifications?
    case ModeVar => service.Plaid?
    case ProfileVar => service.Plaid? || service.AiAssistant?
    case LlmMode => service.AiAssistant?
    case _ => service.Documents?
  }

  predicate Planned(graph: Graph, k: EnvKey) {
    match k
    case Shared(g) => true
    case Own(s, v) => Written(s, v)
    case Credential(s, envVar) => Get(Granted(graph, s), envVar).Some?
  }

  lemma BlocksAre(graph: Graph)
    ensures var blocks := Blocks(graph, Compose);
            && |blocks| == 14 && blocks[0].keys == SHARED_KEYS
            && blocks[11].keys == INDEX_KEYS && blocks[12].keys == ADAPTER_KEYS && blocks[13].keys == RP_KEYS
  {
    hide ServiceBlock;
  }

  lemma ServiceBlockIs(graph: Graph, i: nat)
    requires i < 10
    ensures |SERVICES| == 10 && |Blocks(graph, Compose)| == 14
    ensures Blocks(graph, Compose)[1 + i] == ServiceBlock(graph, SERVICES[i])
  {
    hide ServiceBlock, SharedBlock;
  }

  lemma CredentialKeyIn(graph: Graph, service: ServiceName, envVar: string)
    ensures Credential(service, envVar) in CredentialKeys(graph, service) <==>
            Get(Granted(graph, service), envVar).Some?
  {
    var granted := Granted(graph, service);
    hide Granted;
    var keys := CredentialKeys(graph, service);
    if Get(granted, envVar).Some? {
      GetSome(granted, envVar);
      var i :| 0 <= i < |granted| && granted[i].0 == envVar;
      assert keys[i] == Credential(service, envVar);
    } else {
      GetNone(granted, envVar);
    }
  }

  /** Variables every service section may hold, as opposed to the closing sections. */
  predicate InServiceBlock(v: Var) {
    v.DatabaseUrlVar? || v.KmsModeVar? || v.AwsKmsKeyIdVar? || v.KmsMasterKeyVar?
  }

  lemma OwnBlockHas(graph: Graph, k: EnvKey)
    requires k.Own? && InServiceBlock(k.variable) && Written(k.service, k.variable)
    ensures k in ServiceBlock(graph, Record(k.service)).keys
  {
    hide CredentialKeys, Place;
    PlaceFinds(k.service);
  }

  lemma CredentialBlockHas(graph: Graph, k: EnvKey)
    requires k.Credential? && Planned(graph, k)
    ensures k in ServiceBlock(graph, Record(k.service)).keys
  {
    hide CredentialKeys, Place, Granted, Get;
    PlaceFinds(k.service);
    CredentialKeyIn(graph, k.service, k.envVar);
  }

  lemma ClosingHas(k: EnvKey)
    requires k.Shared? || (k.Own? && !InServiceBlock(k.variable) && Written(k.service, k.variable))
    ensures k in SHARED_KEYS || k in INDEX_KEYS || k in ADAPTER_KEYS || k in RP_KEYS
  {
    assert k in DOCUMENT_KEYS || k in CARRIER_KEYS || k in PROVIDER_KEYS ==> k in ADAPTER_KEYS;
    if k.Own? {
      match k.variable {
        case EmailIndexKey => assert k in INDEX_KEYS;
        case ItemIndexKey => assert k in INDEX_KEYS;
        case SearchIndexKey => assert k in INDEX_KEYS;
        case NotifyMode => assert k in CARRIER_KEYS;
        case EmailMode => assert k in CARRIER_KEYS;
        case ModeVar => assert k in PROVIDER_KEYS;
        case ProfileVar => assert k in PROVIDER_KEYS;
        case LlmMode => assert k in PROVIDER_KEYS;
        case _ => assert k in DOCUMENT_KEYS;
      }
    } else {
      match k.global {
        case SesFromAddress => assert k in CARRIER_KEYS;
        case RpId => assert k in RP_KEYS;
        case RpOrigin => assert k in RP_KEYS;
        case RpName => assert k in RP_KEYS;
        case _ => assert k in SHARED_KEYS;
      }
    }
  }

  lemma BlockPlace(graph: Graph, k: EnvKey) returns (b: nat)
    requires Planned(graph, k)
    ensures b < |Blocks(graph, Compose)| && k in Blocks(graph, Compose)[b].keys
  {
    hide Granted, Get, Record, Place, ServiceBlock, Blocks, Written, InServiceBlock;
    if k.Credential? || (k.Own? && InServiceBlock(k.variable)) {
      PlaceFinds(k.service);
      RecordIs(Place(k.service));
      ServiceBlockIs(graph, Place(k.service));
      if k.Credential? { CredentialBlockHas(graph, k); } else { OwnBlockHas(graph, k); }
      b := 1 + Place(k.service);
    } else {
      BlocksAre(graph);
      ClosingHas(k);
      b := if k in SHARED_KEYS then 0 else if k in INDEX_KEYS then 11 else if k in ADAPTER_KEYS then 12 else 13;
    }
  }

  lemma ClosingPlanned(graph: Graph, k: EnvKey)
    requires k in SHARED_KEYS || k in INDEX_KEYS || k in ADAPTER_KEYS || k in RP_KEYS
    ensures Planned(graph, k)
  {
  }

  lemma ServiceKeyPlanned(graph: Graph, service: StackService, k: EnvKey)
    requires Record(service.name) == service && k in ServiceBlock(graph, service).keys
    ensures Planned(graph, k)
  {
    hide Granted, Get, CredentialKeys, Record;
    if k in CredentialKeys(graph, service.name) {
      CredentialKeysAre(graph, service.name, k);
      CredentialKeyIn(graph, service.name, k.envVar);
    }
  }

  lemma BlockPlanned(graph: Graph, b: nat, k: EnvKey)
    requires b < |Blocks(graph, Compose)| && k in Blocks(graph, Compose)[b].keys
    ensures Planned(graph, k)
  {
    hide Blocks, ServiceBlock, Planned, Record;
    BlocksAre(graph);
    if 1 <= b <= 10 {
      ServiceBlockIs(graph, b - 1);
      RecordIs(b - 1);
      ServiceKeyPlanned(graph, SERVICES[b - 1], k);
    } else {
      ClosingPlanned(graph, k);
    }
  }

  lemma CredentialKeysAre(graph: Graph, service: ServiceName, k: EnvKey)
    requires k in CredentialKeys(graph, service)
    ensures k.Credential? && k.service == service
  {
  }

  /** The file has exactly the planned keys. */
  lemma KeysArePlanned(graph: Graph, k: EnvKey)
    ensures k in AllKeys(graph) <==> Planned(graph, k)
  {
    hide Planned, KeysOf, Blocks;
    var blocks := Blocks(graph, Compose);
    if Planned(graph, k) {
      var b := BlockPlace(graph, k);
      BlockHasKey(blocks, b, k);
    }
    if k in AllKeys(graph) {
      var b := KeyHasBlock(blocks, k);
      BlockPlanned(graph, b, k);
    }
  }

  lemma PlannedIsProper(graph: Graph, k: EnvKey)
    requires WellFormed(graph) && Planned(graph, k)
    ensures ProperKey(k)
  {
    hide Unreserved, Granted, Get, Takes, Separate;
    if k.Credential? {
      GetSome(Granted(graph, k.service), k.envVar);
      var i := GrantedIsSlot(graph, k.service, k.envVar);
      assert WellNamed(graph[i]);
    }
  }

  /** The entries are the file's keys in order, each with some value. */
  ghost predicate Keyed(graph: Graph, entries: seq<Entry>) {
    && |entries| == |AllKeys(graph)|
    && forall i :: 0 <= i < |entries| ==> entries[i].0 == KeyText(AllKeys(graph)[i])
  }

  /** A key is found with the value it was written with; an unplanned one is not found. */
  lemma {:induction false} LookupKeyed(graph: Graph, entries: seq<Entry>, k: EnvKey, value: string)
    requires WellFormed(graph) && ProperKey(k) && Keyed(graph, entries)
    requires forall i :: 0 <= i < |entries| && AllKeys(graph)[i] == k ==> entries[i].1 == value
    ensures Get(MapOf(entries), KeyText(k)) == if Planned(graph, k) then Some(value) else None
  {
    hide Planned, WellFormed, ProperKey, KeyText, AllKeys, MapOf, Get;
    var keys := AllKeys(graph);
    KeysArePlanned(graph, k);
    forall i | 0 <= i < |keys| && KeyText(keys[i]) == KeyText(k) ensures keys[i] == k {
      KeysArePlanned(graph, keys[i]);
      PlannedIsProper(graph, keys[i]);
      KeyTextInjective(keys[i], k);
    }
    MapOfAgrees(entries, KeyText(k), value);
    if k in keys {
      var i :| 0 <= i < |keys| && keys[i] == k;
      assert entries[i].0 == KeyText(k);
    }
  }

  /** Looking up a key of the environment: its planned value, or nothing. */
  lemma Lookup(plan: Plan, mints: Mints, k: EnvKey)
    requires WellFormed(plan.graph) && ProperKey(k)
    ensures Get(Environment(plan, mints), KeyText(k)) ==
            if Planned(plan.graph, k) then Some(Resolve(ValueOf(plan, k), mints)) else None
  {
    hide Planned, WellFormed, ProperKey, KeyText, ValueOf, Resolve, AllKeys, EntriesOf, Generated, MapOf, Get;
    GeneratedEntries(plan, mints);
    LookupKeyed(plan.graph, Entries(plan, AllKeys(plan.graph), mints), k, Resolve(ValueOf(plan, k), mints));
  }

  /** Every key of the environment is the text of a planned key. */
  lemma KeysKnown(plan: Plan, mints: Mints, i: nat) returns (k: EnvKey)
    requires i < |Environment(plan, mints)|
    ensures Planned(plan.graph, k)
    ensures Environment(plan, mints)[i] == (KeyText(k), Resolve(ValueOf(plan, k), mints))
  {
    hide Planned, KeyText, ValueOf, Resolve, AllKeys, EntriesOf, Generated, MapOf;
    var keys := AllKeys(plan.graph);
    GeneratedEntries(plan, mints);
    MapOfMember(Entries(plan, keys, mints), i);
    var j :| 0 <= j < |keys| && Entries(plan, keys, mints)[j] == Environment(plan, mints)[i];
    k := keys[j];
    KeysArePlanned(plan.graph, k);
  }
}
