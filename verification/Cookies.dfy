/** The cookie header parser, the session cookie writer, and the round trip between them. */
module Cookies {
  import opened OrderedMap
  import opened PercentEncoding
  import opened Text
  import opened Wrappers

  // ---------------------------------------------------------------- parsing

  /** A value in double quotes loses them. */
  function Unquoted(value: string): string {
    if |value| >= 2 && value[0] == '"' && value[|value| - 1] == '"' then value[1..|value| - 1] else value
  }

  /** What cannot be decoded is kept as it came. */
  function Decoded(value: string): string {
    var decoded := Decode(value);
    if decoded.Some? then decoded.value else value
  }

  /** The pair one part of the header spells, if it has an equals sign. */
  function PartPair(part: string): Option<(string, string)> {
    var eq := IndexOf(part, '=');
    if eq == |part| then None else Some((Trim(part[..eq]), Decoded(Unquoted(Trim(part[eq + 1..])))))
  }

  /** First occurrence wins; a nameless pair is dropped. */
  function AddPair(cookies: OMap<string>, pair: Option<(string, string)>): OMap<string> {
    if pair.None? || pair.value.0 == "" || Get(cookies, pair.value.0).Some? then cookies
    else Set(cookies, pair.value.0, pair.value.1)
  }

  function PartsParsed(parts: seq<string>): OMap<string> {
    if parts == [] then []
    else AddPair(PartsParsed(parts[..|parts| - 1]), PartPair(parts[|parts| - 1]))
  }

  function Parsed(header: Option<string>): OMap<string> {
    if header.None? || header.value == "" then [] else PartsParsed(Split(header.value, ';'))
  }

  method ParseCookies(header: Option<string>) returns (cookies: OMap<string>)
    ensures cookies == Parsed(header)
  {
    hide Split, Trim, IndexOf, Get, Set, Decode;
    cookies := [];
    if header.None? || header.value == "" {
      return;
    }
    var parts := Split(header.value, ';');
    for i := 0 to |parts|
      invariant cookies == PartsParsed(parts[..i])
    {
      PartsStep(parts, i);
      var part := parts[i];
      var eq := IndexOf(part, '=');
      if eq == |part| {
        continue;
      }
      var name := Trim(part[..eq]);
      var value := Trim(part[eq + 1..]);
      if name == "" || Get(cookies, name).Some? {
        continue;
      }
      if |value| >= 2 && value[0] == '"' && value[|value| - 1] == '"' {
        value := value[1..|value| - 1];
      }
      var decoded := Decode(value);
      cookies := Set(cookies, name, if decoded.Some? then decoded.value else value);
    }
    assert parts[..|parts|] == parts;
  }

  lemma PartsStep(parts: seq<string>, i: nat)
    requires i < |parts|
    ensures PartsParsed(parts[..i + 1]) == AddPair(PartsParsed(parts[..i]), PartPair(parts[i]))
  {
    hide AddPair, PartPair;
    assert parts[..i + 1][..i] == parts[..i];
  }

  // ---------------------------------------------------------------- writing

  function Pair(name: string, value: string): string { name + ['='] + Encode(value) }

  /** Attributes, each but the first with the space that `join('; ')` puts before it. */
  function Attributes(secure: bool): seq<string> {
    ["Path=/", " HttpOnly", " SameSite=Strict"] + (if secure then [" Secure"] else [])
  }

  /** `name=value; Path=/; HttpOnly; SameSite=Strict`, with `; Secure` where asked. */
  function Serialized(name: string, value: string, secure: bool): string {
    Pair(name, value) + [';'] + (" " + Join(Attributes(secure), ';'))
  }

  // ---------------------------------------------------------------- the round trip

  /** A name a cookie header can carry. */
  predicate ProperName(name: string) {
    name != "" && Trimmed(name) && ';' !in name && '=' !in name
  }

  /** How a browser sends cookies back: `a=1; b=2`. */
  function HeaderParts(cookies: seq<(string, string)>): seq<string> {
    seq(|cookies|, i requires 0 <= i < |cookies| =>
      (if i == 0 then "" else " ") + Pair(cookies[i].0, cookies[i].1))
  }

  function Header(cookies: seq<(string, string)>): string { Join(HeaderParts(cookies), ';') }

  lemma SafeIsPlain(c: char)
    requires Safe(c)
    ensures !IsSpace(c) && c != ';' && c != '=' && c != '"'
  {
  }

  /** Trimming and quote stripping leave encoded values alone, and decoding never falls back. */
  lemma EncodedValueSurvives(value: string)
    ensures Trim(Encode(value)) == Encode(value) && Unquoted(Encode(value)) == Encode(value)
    ensures Decoded(Encode(value)) == value && ';' !in Encode(value)
  {
    hide Safe, IsSpace, Trim, Encode;
    EncodedSafe(value);
    DecodeEncode(value);
    var e := Encode(value);
    forall i | 0 <= i < |e| ensures !IsSpace(e[i]) && e[i] != ';' && e[i] != '"' { SafeIsPlain(e[i]); }
    TrimFixes(e);
  }

  /** A space in front of a pair is trimmed with the name. */
  lemma TrimLead(lead: string, name: string)
    requires (lead == "" || lead == " ") && ProperName(name)
    ensures Trim(lead + name) == name
  {
    hide IsSpace;
    SpaceIsSpace();
    if lead == "" {
      assert lead + name == name;
      TrimFixes(name);
    } else {
      assert (lead + name)[1..] == name;
      assert TrimStart(lead + name) == TrimStart(name);
      TrimFixes(name);
    }
  }

  lemma SpaceIsSpace()
    ensures IsSpace(' ')
  {
  }

  lemma PairParses(lead: string, name: string, value: string)
    requires (lead == "" || lead == " ") && ProperName(name)
    ensures PartPair(lead + Pair(name, value)) == Some((name, value))
    ensures ';' !in lead + Pair(name, value)
  {
    hide IsSpace, Trim, Encode, Unquoted, Decoded;
    var part := lead + Pair(name, value);
    var eq := |lead| + |name|;
    assert part[..eq] == lead + name && part[eq + 1..] == Encode(value);
    assert '=' !in lead + name;
    IndexOfIs(part, '=', eq);
    TrimLead(lead, name);
    EncodedValueSurvives(value);
  }

  ghost predicate ProperCookies(cookies: seq<(string, string)>) {
    Distinct(cookies) && forall i :: 0 <= i < |cookies| ==> ProperName(cookies[i].0)
  }

  lemma {:induction false} GetAbsent(m: OMap<string>, k: string)
    requires forall i :: 0 <= i < |m| ==> m[i].0 != k
    ensures Get(m, k).None?
  {
    if m != [] { GetAbsent(m[1..], k); }
  }

  lemma {:induction false} SetAbsent(m: OMap<string>, k: string, v: string)
    requires forall i :: 0 <= i < |m| ==> m[i].0 != k
    ensures Set(m, k, v) == m + [(k, v)]
  {
    if m != [] { SetAbsent(m[1..], k, v); }
  }

  lemma {:induction false} PartsRoundTrip(cookies: seq<(string, string)>)
    requires ProperCookies(cookies)
    ensures PartsParsed(HeaderParts(cookies)) == cookies
    decreases |cookies|
  {
    hide PartPair, Pair, ProperName, Get, Set;
    if cookies != [] {
      var n := |cookies| - 1;
      var front, last := cookies[..n], cookies[n];
      assert HeaderParts(cookies)[..n] == HeaderParts(front);
      PartsRoundTrip(front);
      PairParses(if n == 0 then "" else " ", last.0, last.1);
      NameIsSomething(last.0);
      GetAbsent(front, last.0);
      SetAbsent(front, last.0, last.1);
    }
  }

  lemma NameIsSomething(name: string)
    requires ProperName(name)
    ensures name != ""
  {
  }

  /** Parsing a header of encoded cookies gives back exactly those cookies, in their order, whatever text
      their values are. */
  lemma CookieRoundTrip(cookies: seq<(string, string)>)
    requires ProperCookies(cookies)
    ensures Parsed(Some(Header(cookies))) == cookies
  {
    hide Split, Join, PartsParsed, Pair, ProperName;
    if cookies == [] {
      EmptyHeader();
    } else {
      var parts := HeaderParts(cookies);
      forall i | 0 <= i < |parts| ensures ';' !in parts[i] {
        PairParses(if i == 0 then "" else " ", cookies[i].0, cookies[i].1);
      }
      SplitJoin(parts, ';');
      PartsRoundTrip(cookies);
      EmptySplits();
      if Header(cookies) == "" {
        FirstPartNotEmpty(cookies);
        assert false;
      }
    }
  }

  lemma EmptyHeader()
    ensures Header([]) == ""
  {
  }

  lemma EmptySplits()
    ensures Split("", ';') == [""]
  {
  }

  lemma FirstPartNotEmpty(cookies: seq<(string, string)>)
    requires cookies != []
    ensures HeaderParts(cookies)[0] != ""
  {
  }

  lemma OneCookie(name: string, value: string)
    requires ProperName(name)
    ensures Parsed(Some(Pair(name, value))) == [(name, value)]
  {
    hide Parsed, Pair, ProperName, Header;
    OneHeader(name, value);
    CookieRoundTrip([(name, value)]);
  }

  lemma FirstPart(name: string, value: string, secure: bool)
    requires ProperName(name)
    ensures Split(Serialized(name, value, secure), ';')[0] == Pair(name, value)
  {
    hide Join, Split, Pair, ProperName, Attributes, PartPair;
    PairParses("", name, value);
    assert "" + Pair(name, value) == Pair(name, value);
    SplitHead(Pair(name, value), " " + Join(Attributes(secure), ';'), ';');
  }

  /** What the writer sets, a browser that stores the text before the first `;` sends back to the parser as
      the same value. */
  lemma SessionCookieRoundTrip(name: string, value: string, secure: bool)
    requires ProperName(name)
    ensures Parsed(Some(Split(Serialized(name, value, secure), ';')[0])) == [(name, value)]
  {
    hide *;
    FirstPart(name, value, secure);
    OneCookie(name, value);
  }

  lemma OneHeader(name: string, value: string)
    ensures Header([(name, value)]) == Pair(name, value)
  {
    hide Pair;
    assert HeaderParts([(name, value)]) == ["" + Pair(name, value)];
  }

  /** What a browser makes of a `Set-Cookie` header after its first part: the attributes, trimmed. */
  function ReceivedAttributes(header: string): seq<string> {
    var parts := Split(header, ';');
    seq(|parts| - 1, i requires 0 <= i < |parts| - 1 => Trim(parts[i + 1]))
  }

  lemma AttributesReceived(secure: bool)
    ensures var parts := Split(" " + Join(Attributes(secure), ';'), ';');
            var meant := ["Path=/", "HttpOnly", "SameSite=Strict"] + (if secure then ["Secure"] else []);
            |parts| == |meant| && forall i :: 0 <= i < |meant| ==> Trim(parts[i]) == meant[i]
  {
    hide Split, Trim;
    var spaced := [" Path=/", " HttpOnly", " SameSite=Strict"] + (if secure then [" Secure"] else []);
    SpacedJoin(secure);
    AttributesPlain();
    SplitJoin(spaced, ';');
    AttributesTrim();
  }

  lemma SpacedJoin(secure: bool)
    ensures " " + Join(Attributes(secure), ';') ==
            Join([" Path=/", " HttpOnly", " SameSite=Strict"] + (if secure then [" Secure"] else []), ';')
  {
    var attributes := Attributes(secure);
    var spaced := [" Path=/", " HttpOnly", " SameSite=Strict"] + (if secure then [" Secure"] else []);
    assert attributes[1..] == spaced[1..];
    assert " " + "Path=/" == " Path=/";
  }

  lemma AttributesPlain()
    ensures ';' !in " Path=/" && ';' !in " HttpOnly" && ';' !in " SameSite=Strict" && ';' !in " Secure"
  {
  }

  lemma TrimOneSpace(text: string)
    requires text != "" && Trimmed(text)
    ensures Trim(" " + text) == text
  {
    hide IsSpace;
    SpaceIsSpace();
    assert (" " + text)[1..] == text;
    assert TrimStart(" " + text) == TrimStart(text);
    TrimFixes(text);
  }

  lemma AttributesTrim()
    ensures Trim(" Path=/") == "Path=/" && Trim(" HttpOnly") == "HttpOnly"
    ensures Trim(" SameSite=Strict") == "SameSite=Strict" && Trim(" Secure") == "Secure"
  {
    hide Trim;
    AttributeWords();
    TrimOneSpace("Path=/");
    TrimOneSpace("HttpOnly");
    TrimOneSpace("SameSite=Strict");
    TrimOneSpace("Secure");
  }

  lemma AttributeWords()
    ensures Trimmed("Path=/") && Trimmed("HttpOnly") && Trimmed("SameSite=Strict") && Trimmed("Secure")
    ensures " " + "Path=/" == " Path=/" && " " + "HttpOnly" == " HttpOnly"
    ensures " " + "SameSite=Strict" == " SameSite=Strict" && " " + "Secure" == " Secure"
  {
  }

  /** The header reads back as the one cookie, with exactly the session attributes, `Secure` where asked. */
  method SerializeSessionCookie(name: string, value: string, secure: bool) returns (header: string)
    ensures header == Serialized(name, value, secure)
    ensures ProperName(name) ==>
              && Parsed(Some(Split(header, ';')[0])) == [(name, value)]
              && ReceivedAttributes(header) ==
                   ["Path=/", "HttpOnly", "SameSite=Strict"] + (if secure then ["Secure"] else [])
  {
    hide Join, Pair, Split, ProperName, Parsed, ReceivedAttributes;
    var attributes := ["Path=/", " HttpOnly", " SameSite=Strict"];
    if secure {
      attributes := attributes + [" Secure"];
    }
    assert attributes == Attributes(secure);
    header := Pair(name, value) + [';'] + (" " + Join(attributes, ';'));
    if ProperName(name) {
      SessionCookieRoundTrip(name, value, secure);
      SessionAttributes(name, value, secure);
    }
  }

  lemma SessionAttributes(name: string, value: string, secure: bool)
    requires ProperName(name)
    ensures ReceivedAttributes(Serialized(name, value, secure)) ==
            ["Path=/", "HttpOnly", "SameSite=Strict"] + (if secure then ["Secure"] else [])
  {
    hide Join, Split, Trim, Pair, ProperName, Attributes, PartPair;
    PairParses("", name, value);
    assert "" + Pair(name, value) == Pair(name, value);
    SplitHead(Pair(name, value), " " + Join(Attributes(secure), ';'), ';');
    AttributesReceived(secure);
  }

  // ---------------------------------------------------------------- other headers

  /** In any header, a name has the value of the first part that spells it. */
  lemma {:induction false} FirstOccurrenceWins(parts: seq<string>, i: nat, name: string, value: string)
    requires i < |parts| && name != "" && PartPair(parts[i]) == Some((name, value))
    requires forall j :: 0 <= j < i && PartPair(parts[j]).Some? ==> PartPair(parts[j]).value.0 != name
    ensures Get(PartsParsed(parts), name) == Some(value)
    decreases |parts|
  {
    hide PartPair, Set, Get;
    var n := |parts| - 1;
    var before, pair := PartsParsed(parts[..n]), PartPair(parts[n]);
    if pair.Some? { GetAfterSet(before, pair.value.0, pair.value.1, name); }
    if i < n {
      FirstOccurrenceWins(parts[..n], i, name, value);
    } else {
      NeverSpelled(parts[..n], name);
    }
  }

  lemma {:induction false} NeverSpelled(parts: seq<string>, name: string)
    requires forall j :: 0 <= j < |parts| && PartPair(parts[j]).Some? ==> PartPair(parts[j]).value.0 != name
    ensures Get(PartsParsed(parts), name) == None
    decreases |parts|
  {
    hide PartPair, Set;
    if parts != [] {
      var n := |parts| - 1;
      var before, pair := PartsParsed(parts[..n]), PartPair(parts[n]);
      NeverSpelled(parts[..n], name);
      if pair.Some? { GetAfterSet(before, pair.value.0, pair.value.1, name); }
    }
  }

  /** A value in double quotes is read as the value between them. */
  lemma QuotedValue(name: string, value: string)
    requires ProperName(name)
    ensures PartPair(name + ['='] + ("\"" + Encode(value) + "\"")) == Some((name, value))
  {
    hide IsSpace, Trim, Encode, Decoded;
    var quoted := "\"" + Encode(value) + "\"";
    var part := name + ['='] + quoted;
    assert part[..|name|] == name && part[|name| + 1..] == quoted;
    IndexOfIs(part, '=', |name|);
    TrimFixes(name);
    QuoteIsNoSpace();
    TrimFixes(quoted);
    assert Unquoted(quoted) == Encode(value);
    EncodedValueSurvives(value);
  }

  lemma QuoteIsNoSpace()
    ensures !IsSpace('"')
  {
  }
}
