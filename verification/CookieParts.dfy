/** What a cookie header says, as a statement about its text. */
module CookieParts {
  import opened Cookies
  import opened OrderedMap
  import opened PercentEncoding
  import opened Text
  import opened Wrappers

  predicate Quoted(text: string) { |text| >= 2 && text[0] == '"' && text[|text| - 1] == '"' }

  /** `part` is `name=raw` at its first equals sign, white space around the two ignored; `raw` is `inner` or
      `inner` in double quotes, and `value` is `inner` decoded, or `inner` itself when it cannot be. */
  ghost predicate SaysPair(part: string, name: string, value: string, before: string, after: string, inner: string) {
    && part == before + ['='] + after && '=' !in before && Trim(before) == name
    && (Trim(after) == ['"'] + inner + ['"'] || (Trim(after) == inner && !Quoted(inner)))
    && (if Decode(inner).Some? then Decode(inner) == Some(value) else value == inner)
  }

  lemma UnquotedIs(raw: string, inner: string)
    ensures Unquoted(raw) == inner <==> raw == ['"'] + inner + ['"'] || (raw == inner && !Quoted(inner))
  {
    if Quoted(raw) { assert raw == ['"'] + raw[1..|raw| - 1] + ['"']; }
    var q := ['"'] + inner + ['"'];
    assert q[1..|q| - 1] == inner && Quoted(q);
  }

  /** A part of a header spells a cookie exactly when it says so. */
  lemma PartSays(part: string, name: string, value: string)
    ensures PartPair(part) == Some((name, value)) <==>
            exists before, after, inner :: SaysPair(part, name, value, before, after, inner)
  {
    hide Trim, Decode, IndexOf, Unquoted, Quoted;
    if PartPair(part) == Some((name, value)) {
      var eq := IndexOf(part, '=');
      var before, after := part[..eq], part[eq + 1..];
      assert part == part[..eq] + [part[eq]] + part[eq + 1..];
      UnquotedIs(Trim(after), Unquoted(Trim(after)));
      assert SaysPair(part, name, value, before, after, Unquoted(Trim(after)));
    }
    if before, after, inner :| SaysPair(part, name, value, before, after, inner) {
      IndexOfIs(part, '=', |before|);
      assert part[..|before|] == before && part[|before| + 1..] == after;
      UnquotedIs(Trim(after), inner);
    }
  }

  /** Part `i` is the first of the header to spell `name`, as `value`. */
  ghost predicate FirstSpells(parts: seq<string>, i: nat, name: string, value: string) {
    && i < |parts| && PartPair(parts[i]) == Some((name, value))
    && forall j :: 0 <= j < i && PartPair(parts[j]).Some? ==> PartPair(parts[j]).value.0 != name
  }

  lemma {:induction false} NamelessDropped(parts: seq<string>)
    ensures Get(PartsParsed(parts), "") == None
    decreases |parts|
  {
    hide PartPair, Set;
    if parts != [] {
      var n := |parts| - 1;
      var before, pair := PartsParsed(parts[..n]), PartPair(parts[n]);
      NamelessDropped(parts[..n]);
      if pair.Some? { GetAfterSet(before, pair.value.0, pair.value.1, ""); }
    }
  }

  lemma FirstOrNever(parts: seq<string>, name: string) returns (i: nat)
    ensures i <= |parts|
    ensures if i < |parts| then PartPair(parts[i]).Some? && FirstSpells(parts, i, name, PartPair(parts[i]).value.1)
            else forall j :: 0 <= j < |parts| && PartPair(parts[j]).Some? ==> PartPair(parts[j]).value.0 != name
  {
    hide PartPair;
    i := 0;
    while i < |parts| && !(PartPair(parts[i]).Some? && PartPair(parts[i]).value.0 == name)
      invariant i <= |parts|
      invariant forall j :: 0 <= j < i && PartPair(parts[j]).Some? ==> PartPair(parts[j]).value.0 != name
    {
      i := i + 1;
    }
  }

  /** A header gives a name a value exactly when the name is not empty and the first of its parts that spells
      the name spells that value. */
  lemma HeaderSays(header: string, name: string, value: string)
    ensures Get(Parsed(Some(header)), name) == Some(value) <==>
            name != "" && exists i: nat :: FirstSpells(Split(header, ';'), i, name, value)
  {
    hide PartPair, Set, Get, PartsParsed, Split;
    var parts := Split(header, ';');
    EmptyHeaderSays(header, name);
    NamelessDropped(parts);
    var i := FirstOrNever(parts, name);
    if i == |parts| {
      NeverSpelled(parts, name);
    } else if i < |parts| && name != "" {
      FirstOccurrenceWins(parts, i, name, PartPair(parts[i]).value.1);
    }
    forall k: nat, v: string | FirstSpells(parts, k, name, v) && name != ""
      ensures Get(PartsParsed(parts), name) == Some(v)
    {
      FirstOccurrenceWins(parts, k, name, v);
    }
  }

  /** The empty header is one part that spells nothing. */
  lemma EmptyHeaderSays(header: string, name: string)
    ensures Get(Parsed(Some(header)), name) == Get(PartsParsed(Split(header, ';')), name)
  {
    hide Get, Set, Trim, Decode;
    if header == "" {
      EmptySplits();
      assert PartPair("") == None;
      assert PartsParsed([""]) == PartsParsed([]) by { assert [""][..0] == []; }
    }
  }
}
