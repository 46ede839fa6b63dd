/** Key material is never shared: each call of the key mint fills exactly one key of the file. */
module MintedKeys {
  import opened CredentialGraph
  import opened EnvGeneration
  import opened EnvKeys
  import opened EnvLookup
  import opened OrderedMap
  import opened Topology
  import opened Wrappers

  /** A key that holds key material: a master key or an index key. */
  predicate KeyMaterial(k: EnvKey) {
    k.Own? && k.variable in {KmsMasterKeyVar, EmailIndexKey, ItemIndexKey, SearchIndexKey}
  }

  /** The key each call of the mint is for: the master keys in service order, then the index keys. */
  const MINTED := [
    Own(Identity, KmsMasterKeyVar), Own(Profile, KmsMasterKeyVar), Own(Assets, KmsMasterKeyVar),
    Own(Plaid, KmsMasterKeyVar), Own(Documents, KmsMasterKeyVar), Own(Settlement, KmsMasterKeyVar),
    Own(Notifications, KmsMasterKeyVar), Own(AiAssistant, KmsMasterKeyVar),
    Own(Identity, EmailIndexKey), Own(Profile, EmailIndexKey), Own(Plaid, ItemIndexKey),
    Own(Documents, SearchIndexKey)
  ]

  ghost predicate KeysApart(mints: Mints) { forall i: nat, j: nat :: i != j ==> mints.keys(i) != mints.keys(j) }

  lemma CallIsForOneKey(plan: Plan, k: EnvKey, n: nat)
    requires Planned(plan.graph, k)
    ensures |MINTED| == 12
    ensures ValueOf(plan, k) == MintedKey(n) <==> n < 12 && MINTED[n] == k
  {
    hide GlobalValue, DatabaseUrl, NetworkFor, NameText, ComposeProfile, Granted, Get;
    if k.Own? && KeyMaterial(k) { MaterialIsMinted(k, n); }
  }

  /** Where a key with key material stands in `MINTED`. */
  function CallNumber(k: EnvKey): nat {
    if k.Own? then
      match k.variable
      case KmsMasterKeyVar => (if Place(k.service) < 5 then Place(k.service) else Place(k.service) - 1)
      case EmailIndexKey => (if k.service.Identity? then 8 else 9)
      case ItemIndexKey => 10
      case _ => 11
    else 0
  }

  lemma MaterialIsMinted(k: EnvKey, n: nat)
    requires KeyMaterial(k) && Written(k.service, k.variable)
    ensures CallNumber(k) == n <==> n < 12 && MINTED[n] == k
  {
  }

  lemma MaterialPlanned(graph: Graph, n: nat)
    requires n < 12
    ensures |MINTED| == 12 && Planned(graph, MINTED[n]) && KeyMaterial(MINTED[n])
  {
  }

  /** The n-th call of the key mint is what the n-th minted key of the file holds. */
  lemma CallFillsKey(plan: Plan, mints: Mints, n: nat)
    requires WellFormed(plan.graph) && n < 12
    ensures Get(Environment(plan, mints), KeyText(MINTED[n])) == Some(mints.keys(n))
  {
    hide WellFormed, Planned, ValueOf, Environment, KeyText, Get, ProperKey;
    MaterialPlanned(plan.graph, n);
    CallIsForOneKey(plan, MINTED[n], n);
    PlannedIsProper(plan.graph, MINTED[n]);
    Lookup(plan, mints, MINTED[n]);
  }

  /** Every key of the file with key material holds one of those calls, and with a mint that never repeats
      itself no two hold the same value. */
  lemma MaterialIsNeverShared(plan: Plan, mints: Mints, a: EnvKey, b: EnvKey)
    requires WellFormed(plan.graph) && KeysApart(mints)
    requires Planned(plan.graph, a) && Planned(plan.graph, b) && KeyMaterial(a) && KeyMaterial(b) && a != b
    ensures Get(Environment(plan, mints), KeyText(a)).Some? && Get(Environment(plan, mints), KeyText(b)).Some?
    ensures Get(Environment(plan, mints), KeyText(a)) != Get(Environment(plan, mints), KeyText(b))
  {
    hide WellFormed, Planned, ValueOf, Environment, KeyText, Get;
    var i := CallOf(plan, a);
    var j := CallOf(plan, b);
    CallFillsKey(plan, mints, i);
    CallFillsKey(plan, mints, j);
  }

  lemma CallOf(plan: Plan, k: EnvKey) returns (n: nat)
    requires Planned(plan.graph, k) && KeyMaterial(k)
    ensures n < 12 && MINTED[n] == k
  {
    n := CallNumber(k);
    MaterialIsMinted(k, n);
  }

  /** With a mint that never repeats itself, the value of a call stands in exactly one key with key material. */
  lemma OneKeyPerCall(plan: Plan, mints: Mints, k: EnvKey, n: nat)
    requires WellFormed(plan.graph) && KeysApart(mints) && Planned(plan.graph, k) && KeyMaterial(k) && n < 12
    ensures Get(Environment(plan, mints), KeyText(k)) == Some(mints.keys(n)) <==> k == MINTED[n]
  {
    hide WellFormed, Planned, ValueOf, Environment, KeyText, Get, KeyMaterial;
    var i := CallOf(plan, k);
    CallFillsKey(plan, mints, i);
    CallFillsKey(plan, mints, n);
  }
}
