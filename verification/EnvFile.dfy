/** The dotenv printer and parser, and why the one undoes the other. */
module EnvFile {
  import opened OrderedMap
  import opened Text
  import opened Topology
  import opened Wrappers

  type Entry = (string, string)

  /** A titled block of a generated file. */
  datatype Section = Section(title: string, note: Option<string>, entries: seq<Entry>)

  // ---------------------------------------------------------------- parsing

  /** `contents.split(/\r?\n/)`: a carriage return directly before a newline belongs to the break. */
  function SplitLines(contents: string): seq<string> {
    var parts := Split(contents, '\n');
    seq(|parts|, i requires 0 <= i < |parts| => if i < |parts| - 1 then DropReturn(parts[i]) else parts[i])
  }

  function DropReturn(s: string): string {
    if s != "" && s[|s| - 1] == '\r' then s[..|s| - 1] else s
  }

  /** What one line contributes. */
  function LineEntry(raw: string): Option<Entry> {
    var line := Trim(raw);
    if line == "" || line[0] == '#' then None
    else
      var eq := IndexOf(line, '=');
      if eq == 0 || eq == |line| then None
      else Some((Trim(line[..eq]), Trim(line[eq + 1..])))
  }

  function SetEntry(env: OMap<string>, entry: Option<Entry>): OMap<string> {
    if entry.None? then env else Set(env, entry.value.0, entry.value.1)
  }

  function Absorb(env: OMap<string>, lines: seq<string>): OMap<string>
    decreases |lines|
  {
    if lines == [] then env else Absorb(SetEntry(env, LineEntry(lines[0])), lines[1..])
  }

  function Parsed(contents: string): OMap<string> {
    Absorb([], SplitLines(contents))
  }

  lemma AbsorbStep(env: OMap<string>, lines: seq<string>, i: nat)
    requires i < |lines|
    ensures Absorb(env, lines[i..]) == Absorb(SetEntry(env, LineEntry(lines[i])), lines[i + 1..])
  {
    hide LineEntry, SetEntry;
    assert lines[i..][1..] == lines[i + 1..];
  }

  method ParseEnvFile(contents: string) returns (env: OMap<string>)
    ensures env == Parsed(contents)
  {
    hide Trim, IndexOf, Split, Set, Absorb, SplitLines;
    env := [];
    var lines := SplitLines(contents);
    assert lines[0..] == lines;
    for i := 0 to |lines|
      invariant Absorb(env, lines[i..]) == Parsed(contents)
    {
      AbsorbStep(env, lines, i);
      var line := Trim(lines[i]);
      if line != "" && line[0] != '#' {
        var eq := IndexOf(line, '=');
        if 0 < eq < |line| {
          env := Set(env, Trim(line[..eq]), Trim(line[eq + 1..]));
        }
      }
    }
    assert lines[|lines|..] == [];
    AbsorbNone(env);
  }

  lemma AbsorbNone(env: OMap<string>)
    ensures Absorb(env, []) == env
  {
  }

  // ---------------------------------------------------------------- printing

  // Long literals are written in two halves.
  const WARNING := [
    "# GENERATED by `pnpm stack:env` \U{2014} " + "do not commit, do not hand-edit.",
    "#"
  ]
  const PROVENANCE := [
    "# Every credential here is freshly " + "random and local-only. The service",
    "# credentials are derived from " + "packages/auth-guard/src/credential-graph.ts,"
  ]
  const SHARING := [
    "# so each is shared by exactly the " + "services that graph entitles to it.",
    "#"
  ]

  const REHEARSAL := [
    "# Production rehearsal: full fail-fast " + "config over TLS, with the REAL",
    "# carrier path (M9): notifications speaks " + "SES v1 to LocalStack, so the old"
  ]
  const RETIRED := ["# 503 notifications_unavailable answers " + "are retired. Plaid and the AI"]
  const ABSENT := [
    "# assistant stay absent \U{2014} each pins " + "a live third-party provider here and no",
    "# credentials exist for either."
  ]

  const EVERY_FLOW := ["# Development: every flow runs, " + "against entirely real dependencies."]

  function Header(mode: Mode): seq<string> {
    WARNING + PROVENANCE + SHARING
    + ["# Mode: " + ModeText(mode)]
    + (if mode.Production? then REHEARSAL + RETIRED + ABSENT else EVERY_FLOW)
    + [""]
  }

  function Comments(texts: seq<string>): seq<string> {
    seq(|texts|, i requires 0 <= i < |texts| => "# " + texts[i])
  }

  function NoteLines(note: Option<string>): seq<string> {
    if note.None? || note.value == "" then [] else Comments(Split(note.value, '\n'))
  }

  function EntryLine(entry: Entry): string { entry.0 + ['='] + entry.1 }

  function EntryLines(entries: seq<Entry>): seq<string> {
    seq(|entries|, i requires 0 <= i < |entries| => EntryLine(entries[i]))
  }

  function SectionLines(section: Section): seq<string> {
    ["# --- " + section.title + " ---"] + NoteLines(section.note) + EntryLines(section.entries) + [""]
  }

  function BodyLines(sections: seq<Section>): seq<string> {
    if sections == [] then []
    else BodyLines(sections[..|sections| - 1]) + SectionLines(sections[|sections| - 1])
  }

  function Rendered(sections: seq<Section>, mode: Mode): string {
    Join(Header(mode) + BodyLines(sections), '\n')
  }

  lemma CommentsStep(texts: seq<string>, i: nat)
    requires i < |texts|
    ensures Comments(texts[..i + 1]) == Comments(texts[..i]) + ["# " + texts[i]]
  {
  }

  lemma EntryLinesStep(entries: seq<Entry>, i: nat)
    requires i < |entries|
    ensures EntryLines(entries[..i + 1]) == EntryLines(entries[..i]) + [EntryLine(entries[i])]
  {
  }

  lemma BodyLinesStep(sections: seq<Section>, s: nat)
    requires s < |sections|
    ensures BodyLines(sections[..s + 1]) == BodyLines(sections[..s]) + SectionLines(sections[s])
  {
    hide SectionLines;
    assert sections[..s + 1][..s] == sections[..s];
  }

  method RenderSection(section: Section, before: seq<string>) returns (lines: seq<string>)
    ensures lines == before + SectionLines(section)
  {
    hide Split, EntryLine;
    var title := "# --- " + section.title + " ---";
    lines := before + [title];
    if section.note.Some? && section.note.value != "" {
      var texts := Split(section.note.value, '\n');
      for i := 0 to |texts|
        invariant lines == before + ([title] + Comments(texts[..i]))
      {
        CommentsStep(texts, i);
        lines := lines + ["# " + texts[i]];
      }
      assert texts[..|texts|] == texts;
    }
    ghost var noted := lines;
    assert noted == before + ([title] + NoteLines(section.note));
    for i := 0 to |section.entries|
      invariant lines == noted + EntryLines(section.entries[..i])
    {
      EntryLinesStep(section.entries, i);
      lines := lines + [EntryLine(section.entries[i])];
    }
    assert section.entries[..|section.entries|] == section.entries;
    lines := lines + [""];
  }

  method RenderEnvFile(sections: seq<Section>, mode: Mode) returns (contents: string)
    ensures contents == Rendered(sections, mode)
  {
    hide Header, BodyLines, SectionLines, Join;
    var lines := Header(mode);
    assert sections[..0] == [];
    BodyLinesNone();
    for s := 0 to |sections|
      invariant lines == Header(mode) + BodyLines(sections[..s])
    {
      BodyLinesStep(sections, s);
      lines := RenderSection(sections[s], lines);
    }
    assert sections[..|sections|] == sections;
    contents := Join(lines, '\n');
  }

  lemma BodyLinesNone()
    ensures BodyLines([]) == []
  {
  }

  // ---------------------------------------------------------------- the round trip

  /** An entry that survives a dotenv line: trimmed, on one line, with a key that is neither empty nor a
      comment nor ambiguous. */
  predicate Writable(entry: Entry) {
    && entry.0 != "" && Trimmed(entry.0) && '\n' !in entry.0 && '=' !in entry.0 && entry.0[0] != '#'
    && Trimmed(entry.1) && '\n' !in entry.1
  }

  ghost predicate WritableSection(section: Section) {
    && '\n' !in section.title
    && forall i :: 0 <= i < |section.entries| ==> Writable(section.entries[i])
  }

  /** All entries of all sections, in order. */
  function EntriesOf(sections: seq<Section>): seq<Entry> {
    if sections == [] then []
    else EntriesOf(sections[..|sections| - 1]) + sections[|sections| - 1].entries
  }

  predicate Silent(line: string) { line == "" || line[0] == '#' }

  lemma HashStays(line: string)
    requires Silent(line)
    ensures Trim(line) == "" || Trim(line)[0] == '#'
  {
    hide IsSpace;
    if line != "" {
      assert !IsSpace('#') by { SpaceMarks(); }
      assert TrimStart(line) == line;
    }
  }

  lemma SpaceMarks()
    ensures !IsSpace('#') && !IsSpace('=') && IsSpace('\r')
  {
  }

  lemma SilentLine(line: string)
    requires Silent(line)
    ensures LineEntry(line) == None && LineEntry(DropReturn(line)) == None
  {
    hide IndexOf, Trim;
    HashStays(line);
    HashStays(DropReturn(line));
  }

  lemma EntryLineShape(entry: Entry)
    requires Writable(entry)
    ensures var line := EntryLine(entry);
            && line != "" && line[0] != '#' && Trimmed(line) && line[|line| - 1] != '\r'
            && '\n' !in line && IndexOf(line, '=') == |entry.0|
            && line[..|entry.0|] == entry.0 && line[|entry.0| + 1..] == entry.1
  {
    hide IsSpace, IndexOf;
    SpaceMarks();
    var line := EntryLine(entry);
    assert line[0] == entry.0[0];
    assert line[|line| - 1] == if entry.1 == "" then '=' else entry.1[|entry.1| - 1];
    assert line[..|entry.0|] == entry.0;
    IndexOfIs(line, '=', |entry.0|);
  }

  lemma KeyValueLine(line: string, eq: nat)
    requires line != "" && line[0] != '#' && Trim(line) == line && 0 < eq < |line| && IndexOf(line, '=') == eq
    requires Trim(line[..eq]) == line[..eq] && Trim(line[eq + 1..]) == line[eq + 1..]
    ensures LineEntry(line) == Some((line[..eq], line[eq + 1..]))
  {
    hide Trim, IndexOf;
  }

  lemma EntryLineParses(entry: Entry)
    requires Writable(entry)
    ensures LineEntry(EntryLine(entry)) == Some(entry) && Steady(EntryLine(entry))
  {
    EntryLineShape(entry);
    hide IsSpace, IndexOf, Trim, EntryLine, LineEntry;
    var line := EntryLine(entry);
    TrimFixes(line);
    TrimFixes(entry.0);
    TrimFixes(entry.1);
    KeyValueLine(line, |entry.0|);
  }

  /** What a list of newline-free lines contributes. */
  function Contribution(lines: seq<string>): seq<Entry> {
    if lines == [] then []
    else
      var n := |lines| - 1;
      Contribution(lines[..n]) + Only(LineEntry(lines[n]))
  }

  function Only(entry: Option<Entry>): seq<Entry> {
    if entry.None? then [] else [entry.value]
  }

  /** A line on its own that says the same with or without a carriage return at its end. */
  predicate Steady(line: string) {
    '\n' !in line && LineEntry(DropReturn(line)) == LineEntry(line)
  }

  lemma {:induction false} AbsorbAppend(env: OMap<string>, xs: seq<string>, y: string)
    ensures Absorb(env, xs + [y]) == SetEntry(Absorb(env, xs), LineEntry(y))
    decreases |xs|
  {
    hide LineEntry, SetEntry;
    if xs == [] {
      assert (xs + [y])[1..] == [];
    } else {
      assert (xs + [y])[1..] == xs[1..] + [y];
      AbsorbAppend(SetEntry(env, LineEntry(xs[0])), xs[1..], y);
    }
  }

  lemma MapOfOnly(entries: seq<Entry>, entry: Option<Entry>)
    ensures MapOf(entries + Only(entry)) == SetEntry(MapOf(entries), entry)
  {
    if entry.Some? {
      assert (entries + Only(entry))[..|entries|] == entries;
    } else {
      assert entries + Only(entry) == entries;
    }
  }

  lemma {:induction false} AbsorbIsMapOf(lines: seq<string>)
    ensures Absorb([], lines) == MapOf(Contribution(lines))
    decreases |lines|
  {
    hide LineEntry, SetEntry, Only, MapOf;
    if lines == [] {
      MapOfNone();
    } else {
      var n := |lines| - 1;
      assert lines == lines[..n] + [lines[n]];
      AbsorbIsMapOf(lines[..n]);
      AbsorbAppend([], lines[..n], lines[n]);
      MapOfOnly(Contribution(lines[..n]), LineEntry(lines[n]));
    }
  }

  lemma MapOfNone()
    ensures MapOf<string>([]) == []
  {
  }

  lemma {:induction false} SameContribution(xs: seq<string>, ys: seq<string>)
    requires |xs| == |ys| && forall i :: 0 <= i < |xs| ==> LineEntry(xs[i]) == LineEntry(ys[i])
    ensures Contribution(xs) == Contribution(ys)
    decreases |xs|
  {
    hide LineEntry, Only;
    if xs != [] { SameContribution(xs[..|xs| - 1], ys[..|ys| - 1]); }
  }

  lemma {:induction false} ContributionConcat(xs: seq<string>, ys: seq<string>)
    ensures Contribution(xs + ys) == Contribution(xs) + Contribution(ys)
    decreases |ys|
  {
    hide LineEntry, Only;
    if ys == [] {
      assert xs + ys == xs;
    } else {
      var n := |ys| - 1;
      assert (xs + ys)[..|xs + ys| - 1] == xs + ys[..n];
      ContributionConcat(xs, ys[..n]);
    }
  }

  ghost predicate AllSilent(lines: seq<string>) {
    forall i :: 0 <= i < |lines| ==> Silent(lines[i]) && '\n' !in lines[i]
  }

  lemma {:induction false} SilentContribution(lines: seq<string>)
    requires AllSilent(lines)
    ensures Contribution(lines) == [] && AllSteady(lines)
    decreases |lines|
  {
    hide LineEntry, DropReturn, Silent;
    if lines != [] {
      SilentLine(lines[|lines| - 1]);
      SilentContribution(lines[..|lines| - 1]);
    }
  }

  ghost predicate AllSteady(lines: seq<string>) {
    forall i :: 0 <= i < |lines| ==> Steady(lines[i])
  }

  lemma ContributionStep(lines: seq<string>, line: string)
    ensures Contribution(lines + [line]) == Contribution(lines) + Only(LineEntry(line))
    ensures AllSteady(lines) && Steady(line) ==> AllSteady(lines + [line])
  {
    hide LineEntry, Only, Steady;
    assert (lines + [line])[..|lines|] == lines;
  }

  lemma {:induction false} EntryContribution(entries: seq<Entry>)
    requires forall i :: 0 <= i < |entries| ==> Writable(entries[i])
    ensures Contribution(EntryLines(entries)) == entries && AllSteady(EntryLines(entries))
    decreases |entries|
  {
    hide LineEntry, Steady, Writable, EntryLine, Contribution, AllSteady;
    if entries == [] {
      assert EntryLines(entries) == [];
      SilentContribution([]);
    } else {
      var n := |entries| - 1;
      EntryLineParses(entries[n]);
      EntryContribution(entries[..n]);
      ContributionStep(EntryLines(entries[..n]), EntryLine(entries[n]));
      assert EntryLines(entries) == EntryLines(entries[..n]) + [EntryLine(entries[n])];
      assert entries == entries[..n] + [entries[n]];
    }
  }

  lemma LinesOfJoin(lines: seq<string>)
    requires |lines| >= 1 && AllSteady(lines)
    ensures Split(Join(lines, '\n'), '\n') == lines
  {
    hide LineEntry, DropReturn;
    SplitJoin(lines, '\n');
  }

  /** Steady lines parse back to what they contribute. */
  lemma ParsedJoin(lines: seq<string>)
    requires |lines| >= 1 && AllSteady(lines)
    ensures Parsed(Join(lines, '\n')) == MapOf(Contribution(lines))
  {
    hide LineEntry, DropReturn, Split, Join, Absorb, MapOf, Contribution;
    LinesOfJoin(lines);
    var read := SplitLines(Join(lines, '\n'));
    forall i | 0 <= i < |lines| ensures LineEntry(read[i]) == LineEntry(lines[i]) {
      assert Steady(lines[i]);
    }
    SameContribution(read, lines);
    AbsorbIsMapOf(read);
  }

  lemma NotesAreSilent(note: Option<string>)
    ensures AllSilent(NoteLines(note))
  {
    if note.Some? { SplitIsFree(note.value, '\n'); }
    hide Split;
  }

  lemma TitleIsSilent(title: string)
    requires '\n' !in title
    ensures AllSilent(["# --- " + title + " ---"]) && AllSilent([""])
  {
  }

  lemma SectionContribution(section: Section)
    requires WritableSection(section)
    ensures Contribution(SectionLines(section)) == section.entries && AllSteady(SectionLines(section))
  {
    hide Contribution, NoteLines, Steady, EntryLines, Silent, Writable;
    var title := ["# --- " + section.title + " ---"];
    var notes, entries := NoteLines(section.note), EntryLines(section.entries);
    TitleIsSilent(section.title);
    NotesAreSilent(section.note);
    SilentContribution(title);
    SilentContribution(notes);
    SilentContribution([""]);
    EntryContribution(section.entries);
    ContributionConcat(title, notes);
    ContributionConcat(title + notes, entries);
    ContributionConcat(title + notes + entries, [""]);
  }

  lemma {:induction false} BodyContribution(sections: seq<Section>)
    requires forall s :: 0 <= s < |sections| ==> WritableSection(sections[s])
    ensures Contribution(BodyLines(sections)) == EntriesOf(sections) && AllSteady(BodyLines(sections))
    decreases |sections|
  {
    hide Contribution, SectionLines, Steady, WritableSection;
    if sections == [] {
      SilentContribution([]);
    } else {
      var n := |sections| - 1;
      BodyContribution(sections[..n]);
      SectionContribution(sections[n]);
      ContributionConcat(BodyLines(sections[..n]), SectionLines(sections[n]));
    }
  }

  /** Parsing a rendered file gives exactly the last-wins map of its entries, in their order, whatever
      the titles and notes say. */
  lemma RoundTrip(sections: seq<Section>, mode: Mode)
    requires forall s :: 0 <= s < |sections| ==> WritableSection(sections[s])
    ensures Parsed(Rendered(sections, mode)) == MapOf(EntriesOf(sections))
  {
    hide Contribution, Steady, WritableSection, Header, Parsed, BodyLines, EntriesOf, Join, MapOf, Silent;
    var header, body := Header(mode), BodyLines(sections);
    HeaderIsSilent(mode);
    SilentContribution(header);
    BodyContribution(sections);
    ContributionConcat(header, body);
    assert [] + EntriesOf(sections) == EntriesOf(sections);
    ParsedJoin(header + body);
  }

  lemma SilentWarning()
    ensures AllSilent(WARNING)
  {
    assert '\n' !in WARNING[0];
    assert '\n' !in WARNING[1];
  }

  lemma SilentProvenance()
    ensures AllSilent(PROVENANCE)
  {
    assert '\n' !in PROVENANCE[0];
    assert '\n' !in PROVENANCE[1];
  }

  lemma SilentSharing()
    ensures AllSilent(SHARING)
  {
    assert '\n' !in SHARING[0];
    assert '\n' !in SHARING[1];
  }

  lemma SilentRehearsal()
    ensures AllSilent(REHEARSAL)
  {
    assert '\n' !in REHEARSAL[0];
    assert '\n' !in REHEARSAL[1];
  }

  lemma SilentRetired()
    ensures AllSilent(RETIRED)
  {
    assert '\n' !in RETIRED[0];
  }

  lemma SilentAbsent()
    ensures AllSilent(ABSENT)
  {
    assert '\n' !in ABSENT[0];
    assert '\n' !in ABSENT[1];
  }

  lemma SilentEveryFlow()
    ensures AllSilent(EVERY_FLOW)
  {
    assert '\n' !in EVERY_FLOW[0];
  }

  lemma SilentMode(mode: Mode)
    ensures AllSilent(["# Mode: " + ModeText(mode)])
  {
  }

  lemma HeaderIsSilent(mode: Mode)
    ensures AllSilent(Header(mode)) && |Header(mode)| >= 1
  {
    SilentWarning();
    SilentProvenance();
    SilentSharing();
    SilentRehearsal();
    SilentRetired();
    SilentAbsent();
    SilentEveryFlow();
    SilentMode(mode);
    TitleIsSilent("");
    HeaderParts(WARNING, PROVENANCE, SHARING, ["# Mode: " + ModeText(mode)],
      REHEARSAL, RETIRED, ABSENT, EVERY_FLOW, [""]);
  }

  lemma HeaderParts(a: seq<string>, b: seq<string>, c: seq<string>, d: seq<string>, e: seq<string>,
      f: seq<string>, g: seq<string>, h: seq<string>, z: seq<string>)
    requires AllSilent(a) && AllSilent(b) && AllSilent(c) && AllSilent(d) && AllSilent(e)
    requires AllSilent(f) && AllSilent(g) && AllSilent(h) && AllSilent(z)
    ensures AllSilent(a + b + c + d + (e + f + g) + z) && AllSilent(a + b + c + d + h + z)
  {
    hide Silent;
  }

  // ---------------------------------------------------------------- line endings

  lemma {:induction false} TrimReturn(t: string)
    ensures Trim(t + ['\r']) == Trim(t)
    decreases |t|
  {
    hide IsSpace;
    SpaceMarks();
    var s := t + ['\r'];
    if t == "" {
      assert s[1..] == "";
    } else if IsSpace(t[0]) {
      assert s[1..] == t[1..] + ['\r'];
      TrimReturn(t[1..]);
    } else {
      assert s[..|s| - 1] == t;
      assert TrimEnd(s) == TrimEnd(t);
    }
  }

  /** A carriage return at the end of a line changes nothing about it. */
  lemma ReturnChangesNothing(line: string)
    ensures LineEntry(DropReturn(line)) == LineEntry(line)
  {
    hide Trim, IndexOf;
    if line != "" && line[|line| - 1] == '\r' {
      assert line == DropReturn(line) + ['\r'];
      TrimReturn(DropReturn(line));
    }
  }

  /** The same lines with carriage returns before their newlines. */
  function WithReturns(lines: seq<string>): seq<string> {
    seq(|lines|, i requires 0 <= i < |lines| => if i < |lines| - 1 then lines[i] + ['\r'] else lines[i])
  }

  /** Unix and Windows line endings parse alike, whatever the file says. */
  lemma LineEndingsIgnored(lines: seq<string>)
    requires |lines| >= 1 && forall i :: 0 <= i < |lines| ==> '\n' !in lines[i]
    ensures Parsed(Join(WithReturns(lines), '\n')) == Parsed(Join(lines, '\n'))
  {
    hide LineEntry, DropReturn, Contribution, Parsed, MapOf, Join;
    forall i | 0 <= i < |lines| ensures Steady(lines[i]) { ReturnChangesNothing(lines[i]); }
    forall i | 0 <= i < |lines|
      ensures Steady(WithReturns(lines)[i]) && LineEntry(WithReturns(lines)[i]) == LineEntry(lines[i])
    {
      ReturnChangesNothing(WithReturns(lines)[i]);
      DropAdded(lines[i]);
    }
    SameContribution(WithReturns(lines), lines);
    ParsedJoin(lines);
    ParsedJoin(WithReturns(lines));
  }

  lemma DropAdded(line: string)
    ensures DropReturn(line + ['\r']) == line
  {
    assert (line + ['\r'])[..|line|] == line;
  }
}
