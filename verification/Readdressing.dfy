/** A second view of an existing environment: which keys addressing decides, and carrying all others over. */
module Readdressing {
  import opened CredentialGraph
  import opened EnvFile
  import opened EnvGeneration
  import opened EnvKeys
  import opened EnvLookup
  import opened OrderedMap
  import opened Topology
  import opened Wrappers

  // ---------------------------------------------------------------- the dependent keys

  const CONSTANT := Mints(n => "constant", n => "constant")

  /** Keys of the first environment that the second gives another value, or none. */
  function Moved(compose: OMap<string>, host: OMap<string>): set<string> {
    if compose == [] then {}
    else
      var n := |compose| - 1;
      Moved(compose[..n], host) + if Get(host, compose[n].0) != Some(compose[n].1) then {compose[n].0} else {}
  }

  function Dependent(graph: Graph, mode: Mode): set<string> {
    Moved(Environment(Plan(graph, mode, Compose), CONSTANT), Environment(Plan(graph, mode, Host), CONSTANT))
  }

  method AddressingDependentKeys(graph: Graph, mode: Mode) returns (moved: set<string>)
    ensures moved == Dependent(graph, mode)
  {
    hide MapOf, EntriesOf, Generated, Get;
    var first := GenerateEnv(Plan(graph, mode, Compose), CONSTANT);
    var second := GenerateEnv(Plan(graph, mode, Host), CONSTANT);
    var compose, host := MapOf(EntriesOf(first)), MapOf(EntriesOf(second));
    moved := {};
    for i := 0 to |compose|
      invariant moved == Moved(compose[..i], host)
    {
      var (key, value) := compose[i];
      assert compose[..i + 1][..i] == compose[..i];
      if Get(host, key) != Some(value) { moved := moved + {key}; }
    }
    assert compose[..|compose|] == compose;
  }

  /** Addressing changes what this key holds. */
  predicate Moves(mode: Mode, k: EnvKey) {
    match k
    case Shared(g) => g.StackAddressing? || g.KafkaBrokers? || g.AwsEndpointUrl? || (g.NodeExtraCaCerts? && mode.Production?)
    case Own(s, v) => v.DatabaseUrlVar? || v.ClamdHost? || v.OcrUrl?
    case Credential(s, envVar) => false
  }

  lemma GlobalMoves(mode: Mode, g: Global)
    ensures Moves(mode, Shared(g)) <==> GlobalValue(mode, Compose, g) != GlobalValue(mode, Host, g)
  {
  }

  lemma DatabaseUrlMoves(service: ServiceName)
    ensures DatabaseUrl(Record(service).cluster, Compose) != DatabaseUrl(Record(service).cluster, Host)
  {
    var cluster := Record(service).cluster;
    var before := "postgres://estate:estate_dev@";
    assert cluster.host[0] == 'p';
    assert DatabaseUrl(cluster, Compose)[|before|] == 'p';
    assert DatabaseUrl(cluster, Host)[|before|] == 'l';
  }

  lemma OwnMoves(mode: Mode, service: ServiceName, v: Var)
    ensures Moves(mode, Own(service, v)) <==> OwnValue(mode, Compose, service, v) != OwnValue(mode, Host, service, v)
  {
    hide DatabaseUrl, Record;
    DatabaseUrlMoves(service);
  }

  lemma ValueMoves(graph: Graph, mode: Mode, k: EnvKey)
    ensures Moves(mode, k) <==> ValueOf(Plan(graph, mode, Compose), k) != ValueOf(Plan(graph, mode, Host), k)
  {
    hide Granted, Get, GlobalValue, OwnValue;
    if k.Shared? { GlobalMoves(mode, k.global); }
    if k.Own? { OwnMoves(mode, k.service, k.variable); }
  }

  lemma MovedIsFixed(plan: Plan, k: EnvKey)
    requires Moves(plan.mode, k)
    ensures ValueOf(plan, k).Fixed?
  {
  }

  lemma {:induction false} MovedMember(compose: OMap<string>, host: OMap<string>, key: string)
    ensures key in Moved(compose, host) <==>
            exists i :: 0 <= i < |compose| && compose[i].0 == key && Get(host, key) != Some(compose[i].1)
    decreases |compose|
  {
    hide Get;
    if compose != [] {
      var n := |compose| - 1;
      MovedMember(compose[..n], host, key);
      if key in Moved(compose[..n], host) {
        var i :| 0 <= i < n && compose[..n][i].0 == key && Get(host, key) != Some(compose[..n][i].1);
        assert compose[i].0 == key;
      }
    }
  }

  /** The keys found by generating twice with constant mints are exactly those whose value addressing
      decides. */
  lemma DependentIsMoves(graph: Graph, mode: Mode, k: EnvKey)
    requires WellFormed(graph) && Planned(graph, k)
    ensures KeyText(k) in Dependent(graph, mode) <==> Moves(mode, k)
  {
    hide Planned, WellFormed, KeyText, ValueOf, Moves, Environment, Moved, ProperKey, Get;
    var a, b := Plan(graph, mode, Compose), Plan(graph, mode, Host);
    var compose, host := Environment(a, CONSTANT), Environment(b, CONSTANT);
    PlannedIsProper(graph, k);
    Lookup(a, CONSTANT, k);
    Lookup(b, CONSTANT, k);
    ValueMoves(graph, mode, k);
    if Moves(mode, k) {
      MovedIsFixed(a, k);
      MovedIsFixed(b, k);
    }
    MovedMember(compose, host, KeyText(k));
    EnvironmentDistinct(a, CONSTANT);
    GetSome(compose, KeyText(k));
    var at :| 0 <= at < |compose| && compose[at].0 == KeyText(k);
    forall i | 0 <= i < |compose| && compose[i].0 == KeyText(k) ensures Some(compose[i].1) == Get(compose, KeyText(k)) {
      GetAt(compose, i);
    }
  }

  lemma EnvironmentDistinct(plan: Plan, mints: Mints)
    ensures Distinct(Environment(plan, mints))
  {
    hide Generated, EntriesOf, MapOf;
    MapOfDistinct(EntriesOf(Generated(plan, mints)));
  }

  lemma PlannedForAllMints(graph: Graph, mode: Mode, k: EnvKey, mints: Mints)
    requires WellFormed(graph) && Planned(graph, k)
    ensures KeyText(k) in Dependent(graph, mode) <==>
            Get(Environment(Plan(graph, mode, Compose), mints), KeyText(k)) !=
            Get(Environment(Plan(graph, mode, Host), mints), KeyText(k))
  {
    hide Planned, WellFormed, KeyText, ValueOf, Moves, Environment, Dependent, ProperKey, Get;
    PlannedIsProper(graph, k);
    DependentIsMoves(graph, mode, k);
    ValueMoves(graph, mode, k);
    Lookup(Plan(graph, mode, Compose), mints, k);
    Lookup(Plan(graph, mode, Host), mints, k);
    if Moves(mode, k) {
      MovedIsFixed(Plan(graph, mode, Compose), k);
      MovedIsFixed(Plan(graph, mode, Host), k);
    }
  }

  /** A text found in an environment is the text of a planned key. */
  lemma FoundIsPlanned(plan: Plan, mints: Mints, t: string) returns (k: EnvKey)
    requires Get(Environment(plan, mints), t).Some?
    ensures Planned(plan.graph, k) && KeyText(k) == t
  {
    hide Environment, Planned, ValueOf, Resolve, Get, KeyText;
    GetSome(Environment(plan, mints), t);
    var i :| 0 <= i < |Environment(plan, mints)| && Environment(plan, mints)[i].0 == t;
    k := KeysKnown(plan, mints, i);
  }

  lemma DependentIsPlanned(graph: Graph, mode: Mode, t: string) returns (k: EnvKey)
    requires t in Dependent(graph, mode)
    ensures Planned(graph, k) && KeyText(k) == t
  {
    hide Environment, Planned, ValueOf, Resolve, Get, KeyText, Moved;
    var plan := Plan(graph, mode, Compose);
    MovedMember(Environment(plan, CONSTANT), Environment(Plan(graph, mode, Host), CONSTANT), t);
    var i :| 0 <= i < |Environment(plan, CONSTANT)| && Environment(plan, CONSTANT)[i].0 == t;
    k := KeysKnown(plan, CONSTANT, i);
  }

  /** The set is right for all mints and all texts: a text is in it exactly when looking it up gives
      different results under the two addressings. */
  lemma DependentForAllMints(graph: Graph, mode: Mode, t: string, mints: Mints)
    requires WellFormed(graph)
    ensures t in Dependent(graph, mode) <==>
            Get(Environment(Plan(graph, mode, Compose), mints), t) != Get(Environment(Plan(graph, mode, Host), mints), t)
  {
    hide Planned, WellFormed, KeyText, Environment, Dependent, Get;
    var one := Get(Environment(Plan(graph, mode, Compose), mints), t);
    var two := Get(Environment(Plan(graph, mode, Host), mints), t);
    if t in Dependent(graph, mode) {
      var k := DependentIsPlanned(graph, mode, t);
      PlannedForAllMints(graph, mode, k, mints);
    } else if one.Some? {
      var k := FoundIsPlanned(Plan(graph, mode, Compose), mints, t);
      PlannedForAllMints(graph, mode, k, mints);
    } else if two.Some? {
      var k := FoundIsPlanned(Plan(graph, mode, Host), mints, t);
      PlannedForAllMints(graph, mode, k, mints);
    }
  }

  /** Nothing minted is in it. */
  lemma DependentIsFixed(graph: Graph, mode: Mode, k: EnvKey)
    requires WellFormed(graph) && Planned(graph, k) && KeyText(k) in Dependent(graph, mode)
    ensures ValueOf(Plan(graph, mode, Compose), k).Fixed? && ValueOf(Plan(graph, mode, Host), k).Fixed?
  {
    hide Planned, WellFormed, KeyText, ValueOf, Moves, Dependent;
    DependentIsMoves(graph, mode, k);
    MovedIsFixed(Plan(graph, mode, Compose), k);
    MovedIsFixed(Plan(graph, mode, Host), k);
  }

  /** Which call of which mint fills a key does not depend on addressing. */
  lemma MintOrderIgnoresAddressing(graph: Graph, mode: Mode, k: EnvKey)
    ensures var a := ValueOf(Plan(graph, mode, Compose), k);
            var b := ValueOf(Plan(graph, mode, Host), k);
            a == b || (a.Fixed? && b.Fixed?)
  {
    hide ValueOf, Moves;
    ValueMoves(graph, mode, k);
    if Moves(mode, k) {
      MovedIsFixed(Plan(graph, mode, Compose), k);
      MovedIsFixed(Plan(graph, mode, Host), k);
    }
  }

  // ---------------------------------------------------------------- deriving

  datatype DeriveOutcome =
    | Derived(sections: seq<Section>)
    | OtherMode(found: Option<string>)
    | Missing(keys: seq<string>)

  /** The entry the second view gets: its own where addressing decides, otherwise the source's. */
  function Carried(dependent: set<string>, source: OMap<string>, entry: Entry): Entry {
    var found := Get(source, entry.0);
    if entry.0 in dependent || found.None? then entry else (entry.0, found.value)
  }

  predicate Lacking(dependent: set<string>, source: OMap<string>, entry: Entry) {
    entry.0 !in dependent && Get(source, entry.0).None?
  }

  function CarriedAll(dependent: set<string>, source: OMap<string>, entries: seq<Entry>): seq<Entry> {
    seq(|entries|, i requires 0 <= i < |entries| => Carried(dependent, source, entries[i]))
  }

  function MissingOf(dependent: set<string>, source: OMap<string>, entries: seq<Entry>): seq<string> {
    if entries == [] then []
    else
      var n := |entries| - 1;
      MissingOf(dependent, source, entries[..n]) +
      if Lacking(dependent, source, entries[n]) then [entries[n].0] else []
  }

  function CarriedSections(dependent: set<string>, source: OMap<string>, sections: seq<Section>): seq<Section> {
    seq(|sections|, i requires 0 <= i < |sections| =>
      sections[i].(entries := CarriedAll(dependent, source, sections[i].entries)))
  }

  function Derive(plan: Plan, source: OMap<string>, newMints: Mints): DeriveOutcome {
    var mode := Get(source, "STACK_MODE");
    if mode != Some(ModeText(plan.mode)) then OtherMode(mode)
    else
      var dependent := Dependent(plan.graph, plan.mode);
      var sections := Generated(plan, newMints);
      var missing := MissingOf(dependent, source, EntriesOf(sections));
      if missing != [] then Missing(missing) else Derived(CarriedSections(dependent, source, sections))
  }

  lemma MissingStep(dependent: set<string>, source: OMap<string>, before: seq<Entry>, entries: seq<Entry>, i: nat)
    requires i < |entries|
    ensures MissingOf(dependent, source, before + entries[..i + 1]) ==
            MissingOf(dependent, source, before + entries[..i])
            + if Lacking(dependent, source, entries[i]) then [entries[i].0] else []
  {
    hide Lacking;
    assert (before + entries[..i + 1])[..|before| + i] == before + entries[..i];
  }

  method CarrySection(dependent: set<string>, source: OMap<string>, section: Section, ghost before: seq<Entry>,
      missing: seq<string>) returns (carried: Section, nowMissing: seq<string>)
    requires missing == MissingOf(dependent, source, before)
    ensures carried == section.(entries := CarriedAll(dependent, source, section.entries))
    ensures nowMissing == MissingOf(dependent, source, before + section.entries)
  {
    hide Get, MissingOf;
    nowMissing := missing;
    var entries := [];
    assert before + section.entries[..0] == before;
    for i := 0 to |section.entries|
      invariant entries == CarriedAll(dependent, source, section.entries[..i])
      invariant nowMissing == MissingOf(dependent, source, before + section.entries[..i])
    {
      var (key, value) := section.entries[i];
      MissingStep(dependent, source, before, section.entries, i);
      if key in dependent {
        entries := entries + [(key, value)];
      } else {
        var found := Get(source, key);
        if found.None? {
          nowMissing := nowMissing + [key];
          entries := entries + [(key, value)];
        } else {
          entries := entries + [(key, found.value)];
        }
      }
    }
    assert section.entries[..|section.entries|] == section.entries;
    carried := section.(entries := entries);
  }

  lemma EntriesOfStep(sections: seq<Section>, s: nat)
    requires s < |sections|
    ensures EntriesOf(sections[..s + 1]) == EntriesOf(sections[..s]) + sections[s].entries
  {
    assert sections[..s + 1][..s] == sections[..s];
  }

  method DeriveEnv(plan: Plan, source: OMap<string>, newMints: Mints) returns (outcome: DeriveOutcome)
    ensures outcome == Derive(plan, source, newMints)
  {
    hide Get, MissingOf, CarriedAll, Dependent, EntriesOf, Generated;
    var sourceMode := Get(source, "STACK_MODE");
    if sourceMode != Some(ModeText(plan.mode)) {
      return OtherMode(sourceMode);
    }
    var dependent := AddressingDependentKeys(plan.graph, plan.mode);
    var generated := GenerateEnv(plan, newMints);
    var missing := [];
    var sections := [];
    NothingMissing(dependent, source);
    assert generated[..0] == [];
    for s := 0 to |generated|
      invariant sections == CarriedSections(dependent, source, generated[..s])
      invariant missing == MissingOf(dependent, source, EntriesOf(generated[..s]))
    {
      var section;
      EntriesOfStep(generated, s);
      section, missing := CarrySection(dependent, source, generated[s], EntriesOf(generated[..s]), missing);
      sections := sections + [section];
    }
    assert generated[..|generated|] == generated;
    outcome := if missing != [] then Missing(missing) else Derived(sections);
  }

  lemma NothingMissing(dependent: set<string>, source: OMap<string>)
    ensures MissingOf(dependent, source, EntriesOf([])) == []
  {
  }

  // ---------------------------------------------------------------- what deriving gives

  lemma {:induction false} MissingMember(dependent: set<string>, source: OMap<string>, entries: seq<Entry>)
    ensures MissingOf(dependent, source, entries) == [] <==>
            forall i :: 0 <= i < |entries| ==> !Lacking(dependent, source, entries[i])
    decreases |entries|
  {
    hide Lacking;
    if entries != [] { MissingMember(dependent, source, entries[..|entries| - 1]); }
  }

  /** What the second view holds under each key: the addressing's own text, or the source's value. */
  function ViewOf(plan: Plan, source: OMap<string>, k: EnvKey): string {
    if Moves(plan.mode, k) && ValueOf(plan, k).Fixed? then ValueOf(plan, k).text
    else GetOrEmpty(source, KeyText(k))
  }

  function ViewEntries(plan: Plan, source: OMap<string>, keys: seq<EnvKey>): seq<Entry> {
    seq(|keys|, i requires 0 <= i < |keys| => (KeyText(keys[i]), ViewOf(plan, source, keys[i])))
  }

  /** The second view in full; no mint appears in it. */
  function View(plan: Plan, source: OMap<string>): seq<Section> {
    var blocks := Blocks(plan.graph, plan.addressing);
    seq(|blocks|, i requires 0 <= i < |blocks| =>
      Section(blocks[i].title, blocks[i].note, ViewEntries(plan, source, blocks[i].keys)))
  }

  /** The source has every key that addressing does not decide. */
  ghost predicate Complete(plan: Plan, source: OMap<string>) {
    forall k :: Planned(plan.graph, k) && !Moves(plan.mode, k) ==> Get(source, KeyText(k)).Some?
  }

  lemma CarriedKey(plan: Plan, source: OMap<string>, newMints: Mints, k: EnvKey)
    requires WellFormed(plan.graph) && Planned(plan.graph, k)
    requires !Moves(plan.mode, k) ==> Get(source, KeyText(k)).Some?
    ensures var entry := (KeyText(k), Resolve(ValueOf(plan, k), newMints));
            Carried(Dependent(plan.graph, plan.mode), source, entry) == (KeyText(k), ViewOf(plan, source, k))
  {
    hide WellFormed, Planned, KeyText, ValueOf, Moves, Dependent, Get;
    DependentIsMoves(plan.graph, plan.mode, k);
    if Moves(plan.mode, k) { MovedIsFixed(plan, k); }
  }

  lemma LackingKey(plan: Plan, source: OMap<string>, value: string, k: EnvKey)
    requires WellFormed(plan.graph) && Planned(plan.graph, k)
    ensures Lacking(Dependent(plan.graph, plan.mode), source, (KeyText(k), value)) <==>
            !Moves(plan.mode, k) && Get(source, KeyText(k)).None?
  {
    hide WellFormed, Planned, KeyText, ValueOf, Moves, Dependent, Get;
    DependentIsMoves(plan.graph, plan.mode, k);
  }

  lemma CompleteMeansNoneMissing(plan: Plan, source: OMap<string>, newMints: Mints)
    requires WellFormed(plan.graph)
    ensures MissingOf(Dependent(plan.graph, plan.mode), source, EntriesOf(Generated(plan, newMints))) == [] <==>
            Complete(plan, source)
  {
    hide WellFormed, Planned, KeyText, ValueOf, Resolve, Moves, Dependent, Get, Lacking, AllKeys, EntriesOf, Generated;
    var dependent, keys := Dependent(plan.graph, plan.mode), AllKeys(plan.graph);
    var entries := Entries(plan, keys, newMints);
    GeneratedEntries(plan, newMints);
    MissingMember(dependent, source, entries);
    if Complete(plan, source) {
      forall i | 0 <= i < |entries| ensures !Lacking(dependent, source, entries[i]) {
        KeysArePlanned(plan.graph, keys[i]);
        LackingKey(plan, source, entries[i].1, keys[i]);
      }
    }
    if forall i :: 0 <= i < |entries| ==> !Lacking(dependent, source, entries[i]) {
      forall k | Planned(plan.graph, k) && !Moves(plan.mode, k) ensures Get(source, KeyText(k)).Some? {
        KeysArePlanned(plan.graph, k);
        var i :| 0 <= i < |keys| && keys[i] == k;
        assert !Lacking(dependent, source, entries[i]);
        LackingKey(plan, source, entries[i].1, k);
      }
    }
  }

  lemma CarriedBlock(plan: Plan, source: OMap<string>, newMints: Mints, b: nat)
    requires WellFormed(plan.graph) && Complete(plan, source) && b < |Blocks(plan.graph, plan.addressing)|
    ensures var keys := Blocks(plan.graph, plan.addressing)[b].keys;
            CarriedAll(Dependent(plan.graph, plan.mode), source, Entries(plan, keys, newMints)) ==
            ViewEntries(plan, source, keys)
  {
    hide WellFormed, Planned, KeyText, ValueOf, Resolve, Moves, Dependent, Get, Carried, Blocks, ViewOf;
    var keys := Blocks(plan.graph, plan.addressing)[b].keys;
    forall i | 0 <= i < |keys|
      ensures Carried(Dependent(plan.graph, plan.mode), source, Entries(plan, keys, newMints)[i]) ==
              ViewEntries(plan, source, keys)[i]
    {
      BlockHasKey(Blocks(plan.graph, plan.addressing), b, keys[i]);
      KeysEitherWay(plan.graph, plan.addressing);
      KeysArePlanned(plan.graph, keys[i]);
      CarriedKey(plan, source, newMints, keys[i]);
    }
  }

  lemma CarriedIsView(plan: Plan, source: OMap<string>, newMints: Mints)
    requires WellFormed(plan.graph) && Complete(plan, source)
    ensures CarriedSections(Dependent(plan.graph, plan.mode), source, Generated(plan, newMints)) == View(plan, source)
  {
    hide WellFormed, Complete, Dependent, Blocks, ViewEntries, CarriedAll, Entries;
    var blocks := Blocks(plan.graph, plan.addressing);
    forall b | 0 <= b < |blocks|
      ensures CarriedSections(Dependent(plan.graph, plan.mode), source, Generated(plan, newMints))[b] ==
              View(plan, source)[b]
    {
      CarriedBlock(plan, source, newMints, b);
    }
  }

  /** Deriving succeeds exactly on complete sources of the same mode, and then gives the view, into which
      no mint enters. */
  lemma DeriveGivesView(plan: Plan, source: OMap<string>, newMints: Mints)
    requires WellFormed(plan.graph)
    ensures var outcome := Derive(plan, source, newMints);
            && (outcome.Derived? <==> Get(source, "STACK_MODE") == Some(ModeText(plan.mode)) && Complete(plan, source))
            && (outcome.Derived? ==> outcome.sections == View(plan, source))
  {
    hide WellFormed, Complete, Dependent, Get, MissingOf, EntriesOf, Generated, CarriedSections, View, ModeText;
    CompleteMeansNoneMissing(plan, source, newMints);
    if Complete(plan, source) { CarriedIsView(plan, source, newMints); }
  }

  // ---------------------------------------------------------------- commuting, path independence, identity

  lemma ViewKeys(plan: Plan, source: OMap<string>)
    ensures EntriesOf(View(plan, source)) == ViewEntries(plan, source, AllKeys(plan.graph))
  {
    hide Blocks, KeysOf, EntriesOf, ViewEntries;
    KeysEitherWay(plan.graph, plan.addressing);
    ViewSections(plan, source, Blocks(plan.graph, plan.addressing));
  }

  lemma {:induction false} ViewSections(plan: Plan, source: OMap<string>, blocks: seq<Block>)
    ensures EntriesOf(seq(|blocks|, i requires 0 <= i < |blocks| =>
              Section(blocks[i].title, blocks[i].note, ViewEntries(plan, source, blocks[i].keys)))) ==
            ViewEntries(plan, source, KeysOf(blocks))
    decreases |blocks|
  {
    hide ViewOf, KeyText;
    if blocks != [] {
      var n := |blocks| - 1;
      var sections := seq(|blocks|, i requires 0 <= i < |blocks| =>
        Section(blocks[i].title, blocks[i].note, ViewEntries(plan, source, blocks[i].keys)));
      var front := blocks[..n];
      assert sections[..n] == seq(|front|, i requires 0 <= i < |front| =>
        Section(front[i].title, front[i].note, ViewEntries(plan, source, front[i].keys)));
      ViewSections(plan, source, front);
    }
  }

  /** Looking a key up in the view. */
  lemma ViewLookup(plan: Plan, source: OMap<string>, k: EnvKey)
    requires WellFormed(plan.graph) && Planned(plan.graph, k)
    ensures Get(MapOf(EntriesOf(View(plan, source))), KeyText(k)) == Some(ViewOf(plan, source, k))
  {
    hide WellFormed, Planned, KeyText, ViewOf, AllKeys, View, EntriesOf, MapOf, Get, ProperKey;
    ViewKeys(plan, source);
    PlannedIsProper(plan.graph, k);
    LookupKeyed(plan.graph, ViewEntries(plan, source, AllKeys(plan.graph)), k, ViewOf(plan, source, k));
  }

  /** Two sources that agree on every key addressing leaves alone have the same views. */
  lemma ViewsAgree(plan: Plan, one: OMap<string>, two: OMap<string>)
    requires forall k :: Planned(plan.graph, k) && !Moves(plan.mode, k) ==>
               GetOrEmpty(one, KeyText(k)) == GetOrEmpty(two, KeyText(k))
    ensures View(plan, one) == View(plan, two)
  {
    hide Planned, KeyText, Moves, ValueOf, Blocks, GetOrEmpty;
    var blocks := Blocks(plan.graph, plan.addressing);
    forall b | 0 <= b < |blocks| ensures ViewEntries(plan, one, blocks[b].keys) == ViewEntries(plan, two, blocks[b].keys) {
      forall i | 0 <= i < |blocks[b].keys|
        ensures ViewOf(plan, one, blocks[b].keys[i]) == ViewOf(plan, two, blocks[b].keys[i])
      {
        BlockHasKey(blocks, b, blocks[b].keys[i]);
        KeysEitherWay(plan.graph, plan.addressing);
        KeysArePlanned(plan.graph, blocks[b].keys[i]);
        if Moves(plan.mode, blocks[b].keys[i]) { MovedIsFixed(plan, blocks[b].keys[i]); }
      }
    }
  }

  lemma SameValueUnlessMoved(graph: Graph, mode: Mode, a: Addressing, b: Addressing, k: EnvKey)
    requires !Moves(mode, k)
    ensures ValueOf(Plan(graph, mode, a), k) == ValueOf(Plan(graph, mode, b), k)
  {
    hide ValueOf, Moves;
    ValueMoves(graph, mode, k);
  }

  lemma ViewOfGenerated(graph: Graph, mode: Mode, a: Addressing, b: Addressing, mints: Mints, k: EnvKey)
    requires WellFormed(graph) && Planned(graph, k)
    ensures ViewOf(Plan(graph, mode, b), Environment(Plan(graph, mode, a), mints), k) ==
            Resolve(ValueOf(Plan(graph, mode, b), k), mints)
  {
    hide WellFormed, Planned, KeyText, ValueOf, Moves, Environment, ProperKey, Get;
    PlannedIsProper(graph, k);
    Lookup(Plan(graph, mode, a), mints, k);
    if Moves(mode, k) {
      MovedIsFixed(Plan(graph, mode, b), k);
    } else {
      SameValueUnlessMoved(graph, mode, a, b, k);
    }
  }

  lemma ViewOfEnvironment(graph: Graph, mode: Mode, a: Addressing, b: Addressing, mints: Mints)
    requires WellFormed(graph)
    ensures View(Plan(graph, mode, b), Environment(Plan(graph, mode, a), mints)) ==
            Generated(Plan(graph, mode, b), mints)
  {
    hide WellFormed, Planned, KeyText, ValueOf, ViewOf, Resolve, Environment, Blocks;
    var plan, source := Plan(graph, mode, b), Environment(Plan(graph, mode, a), mints);
    var blocks := Blocks(graph, b);
    forall s | 0 <= s < |blocks|
      ensures ViewEntries(plan, source, blocks[s].keys) == Entries(plan, blocks[s].keys, mints)
    {
      forall i | 0 <= i < |blocks[s].keys|
        ensures ViewOf(plan, source, blocks[s].keys[i]) == Resolve(ValueOf(plan, blocks[s].keys[i]), mints)
      {
        BlockHasKey(blocks, s, blocks[s].keys[i]);
        KeysEitherWay(graph, b);
        KeysArePlanned(graph, blocks[s].keys[i]);
        ViewOfGenerated(graph, mode, a, b, mints, blocks[s].keys[i]);
      }
    }
  }

  lemma EnvironmentComplete(graph: Graph, mode: Mode, a: Addressing, b: Addressing, mints: Mints)
    requires WellFormed(graph)
    ensures Complete(Plan(graph, mode, b), Environment(Plan(graph, mode, a), mints))
    ensures Get(Environment(Plan(graph, mode, a), mints), "STACK_MODE") == Some(ModeText(mode))
  {
    hide WellFormed, Planned, KeyText, ValueOf, Environment, Moves, ProperKey, Get;
    forall k | Planned(graph, k) ensures Get(Environment(Plan(graph, mode, a), mints), KeyText(k)).Some? {
      PlannedIsProper(graph, k);
      Lookup(Plan(graph, mode, a), mints, k);
    }
    StackModeKey(graph, mode, a);
    Lookup(Plan(graph, mode, a), mints, Shared(StackMode));
  }

  lemma StackModeKey(graph: Graph, mode: Mode, a: Addressing)
    ensures Planned(graph, Shared(StackMode)) && ProperKey(Shared(StackMode)) && KeyText(Shared(StackMode)) == "STACK_MODE"
    ensures ValueOf(Plan(graph, mode, a), Shared(StackMode)) == Fixed(ModeText(mode))
  {
  }

  /** Deriving addressing `b` from what was generated for `a` gives exactly what `b` would have generated
      from the same mints, whatever the mints of the derivation. */
  lemma ReaddressingCommutes(graph: Graph, mode: Mode, a: Addressing, b: Addressing, mints: Mints, newMints: Mints)
    requires WellFormed(graph)
    ensures Derive(Plan(graph, mode, b), Environment(Plan(graph, mode, a), mints), newMints) ==
            Derived(Generated(Plan(graph, mode, b), mints))
  {
    hide WellFormed, Derive, Environment, Generated, View, Complete, Get, ModeText;
    var source := Environment(Plan(graph, mode, a), mints);
    EnvironmentComplete(graph, mode, a, b, mints);
    DeriveGivesView(Plan(graph, mode, b), source, newMints);
    ViewOfEnvironment(graph, mode, a, b, mints);
  }

  lemma ViewIsComplete(graph: Graph, mode: Mode, a: Addressing, b: Addressing, source: OMap<string>)
    requires WellFormed(graph) && Get(source, "STACK_MODE") == Some(ModeText(mode))
    ensures var view := MapOf(EntriesOf(View(Plan(graph, mode, a), source)));
            Complete(Plan(graph, mode, b), view) && Get(view, "STACK_MODE") == Some(ModeText(mode))
  {
    hide WellFormed, Planned, KeyText, ViewOf, View, EntriesOf, MapOf, Moves, ModeText, Get;
    var plan := Plan(graph, mode, a);
    var view := MapOf(EntriesOf(View(plan, source)));
    forall k | Planned(graph, k) ensures Get(view, KeyText(k)).Some? { ViewLookup(plan, source, k); }
    StackModeKey(graph, mode, a);
    ViewLookup(plan, source, Shared(StackMode));
    StackModeView(plan, source);
  }

  lemma StackModeView(plan: Plan, source: OMap<string>)
    requires Get(source, "STACK_MODE") == Some(ModeText(plan.mode))
    ensures ViewOf(plan, source, Shared(StackMode)) == ModeText(plan.mode)
  {
    hide Get, ModeText;
  }

  lemma ViewOfView(graph: Graph, mode: Mode, a: Addressing, b: Addressing, source: OMap<string>)
    requires WellFormed(graph)
    ensures View(Plan(graph, mode, b), MapOf(EntriesOf(View(Plan(graph, mode, a), source)))) ==
            View(Plan(graph, mode, b), source)
  {
    hide WellFormed, Planned, KeyText, ValueOf, View, EntriesOf, MapOf, Moves, Get;
    var plan := Plan(graph, mode, a);
    var view := MapOf(EntriesOf(View(plan, source)));
    forall k | Planned(graph, k) && !Moves(mode, k)
      ensures GetOrEmpty(view, KeyText(k)) == GetOrEmpty(source, KeyText(k))
    {
      ViewLookup(plan, source, k);
    }
    ViewsAgree(Plan(graph, mode, b), view, source);
  }

  /** Re-addressing in steps is re-addressing at once: going through `a` changes nothing about `b`. */
  lemma PathIndependent(graph: Graph, mode: Mode, a: Addressing, b: Addressing, source: OMap<string>,
      one: Mints, two: Mints, three: Mints)
    requires WellFormed(graph)
    requires Derive(Plan(graph, mode, a), source, one).Derived?
    ensures Derive(Plan(graph, mode, b), MapOf(EntriesOf(Derive(Plan(graph, mode, a), source, one).sections)), two) ==
            Derive(Plan(graph, mode, b), source, three)
  {
    hide WellFormed, Derive, View, Get, ModeText, EntriesOf, MapOf, Complete;
    DeriveGivesView(Plan(graph, mode, a), source, one);
    DeriveGivesView(Plan(graph, mode, b), source, three);
    ViewIsComplete(graph, mode, a, b, source);
    ViewOfView(graph, mode, a, b, source);
    DeriveGivesView(Plan(graph, mode, b), MapOf(EntriesOf(View(Plan(graph, mode, a), source))), two);
    CompleteEitherWay(graph, mode, a, b, source);
  }

  lemma CompleteEitherWay(graph: Graph, mode: Mode, a: Addressing, b: Addressing, source: OMap<string>)
    ensures Complete(Plan(graph, mode, a), source) == Complete(Plan(graph, mode, b), source)
  {
    hide Planned, Moves, Get, KeyText;
  }

  /** The source already has this addressing's own values. */
  ghost predicate AddressedAs(plan: Plan, source: OMap<string>) {
    forall k :: Planned(plan.graph, k) && Moves(plan.mode, k) ==>
      Get(source, KeyText(k)) == Some(Resolve(ValueOf(plan, k), CONSTANT))
  }

  /** Re-addressing to the addressing a file already has keeps every value of it. */
  lemma SameAddressingIsIdentity(plan: Plan, source: OMap<string>, newMints: Mints, k: EnvKey)
    requires WellFormed(plan.graph) && Planned(plan.graph, k)
    requires AddressedAs(plan, source) && Derive(plan, source, newMints).Derived?
    ensures Get(MapOf(EntriesOf(Derive(plan, source, newMints).sections)), KeyText(k)) == Get(source, KeyText(k))
  {
    hide WellFormed, Derive, View, Get, ModeText, EntriesOf, MapOf, Planned, KeyText, Moves, ValueOf;
    DeriveGivesView(plan, source, newMints);
    ViewLookup(plan, source, k);
    if Moves(plan.mode, k) { MovedIsFixed(plan, k); }
  }
}
