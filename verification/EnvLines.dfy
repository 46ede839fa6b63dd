/** What a line of a dotenv file says, as a statement about its text. */
module EnvLines {
  import opened EnvFile
  import opened OrderedMap
  import opened Text
  import opened Wrappers

  /** `raw` is `key=value` with white space anywhere around the two. */
  ghost predicate SaysEntry(raw: string, key: string, value: string, before: string, after: string) {
    && raw == before + ['='] + after
    && '=' !in before && Trim(before) == key && Trim(after) == value
    && key != "" && key[0] != '#'
  }

  lemma EqualsIsNoSpace()
    ensures !IsSpace('=')
  {
  }

  /** What is left of a line's outer sides once it is trimmed. */
  function Left(key: string, b: string): string { if key == "" then "" else key + b }

  function Right(c: string, value: string): string { if value == "" then "" else c + value }

  /** Trimming a line around its first equals sign only trims the two outer sides. */
  lemma TrimAround(before: string, after: string, key: string)
    requires Trim(before) == key && '=' !in before
    ensures var line := Trim(before + ['='] + after);
            && IndexOf(line, '=') < |line|
            && Trim(line[..IndexOf(line, '=')]) == key && Trim(line[IndexOf(line, '=') + 1..]) == Trim(after)
            && (IndexOf(line, '=') == 0 <==> key == "")
            && (key != "" ==> line[0] == key[0])
  {
    hide IsSpace, IndexOf, Trim, Blank, Left, Right;
    var value := Trim(after);
    var a, b := TrimWitness(before);
    var c, d := TrimWitness(after);
    PadLine(a, key, b, c, value, d);
    LeftIs(a, key, b);
    LeftTrims(key, b);
    RightTrims(c, value);
    FirstOf(Left(key, b), Right(c, value));
  }

  lemma FirstOf(left: string, right: string)
    requires '=' !in left
    ensures var line := left + ['='] + right;
            IndexOf(line, '=') == |left| && line[..|left|] == left && line[|left| + 1..] == right
            && (left != "" ==> line[0] == left[0])
  {
    hide IndexOf;
    var line := left + ['='] + right;
    assert line[..|left|] == left && line[|left| + 1..] == right;
    IndexOfIs(line, '=', |left|);
  }

  lemma LeftIs(a: string, key: string, b: string)
    requires '=' !in a + key + b
    ensures '=' !in Left(key, b) && (Left(key, b) == "" <==> key == "") && (key != "" ==> Left(key, b)[0] == key[0])
  {
  }

  lemma LineTrimmed(key: string, b: string, c: string, value: string)
    requires Trimmed(key) && Trimmed(value)
    ensures Trimmed(Left(key, b) + ['='] + Right(c, value))
  {
    hide IsSpace;
    EqualsIsNoSpace();
    var line := Left(key, b) + ['='] + Right(c, value);
    assert line[0] == if key == "" then '=' else key[0];
    assert line[|line| - 1] == if value == "" then '=' else value[|value| - 1];
  }

  lemma PadLine(a: string, key: string, b: string, c: string, value: string, d: string)
    requires Blank(a) && Blank(b) && Blank(c) && Blank(d) && Trimmed(key) && Trimmed(value)
    ensures Trim((a + key + b) + ['='] + (c + value + d)) == Left(key, b) + ['='] + Right(c, value)
  {
    hide IsSpace, Trim;
    var line := Left(key, b) + ['='] + Right(c, value);
    var front := if key == "" then a + b else a;
    var back := if value == "" then c + d else d;
    LineTrimmed(key, b, c, value);
    assert a + key + b == front + Left(key, b) && c + value + d == Right(c, value) + back;
    Around(front, Left(key, b), Right(c, value), back);
    TrimPadded(front, line, back);
  }

  lemma Around(front: string, left: string, right: string, back: string)
    ensures (front + left) + ['='] + (right + back) == front + (left + ['='] + right) + back
  {
  }

  lemma LeftTrims(key: string, b: string)
    requires Trimmed(key) && Blank(b)
    ensures Trim(Left(key, b)) == key
  {
    hide IsSpace, Trim;
    TrimPadded("", key, b);
    TrimFixes("");
    assert "" + key + b == key + b;
  }

  lemma RightTrims(c: string, value: string)
    requires Trimmed(value) && Blank(c)
    ensures Trim(Right(c, value)) == value
  {
    hide IsSpace, Trim;
    TrimPadded(c, value, "");
    TrimFixes("");
    assert c + value + "" == c + value;
  }

  /** A line gives an entry exactly when it is `key=value`, at its first equals sign, with white space around
      either ignored, a key that is not empty, and no `#` in front; blank lines, comments and lines without an
      equals sign or without a key give none. */
  lemma LineSays(raw: string, key: string, value: string)
    ensures LineEntry(raw) == Some((key, value)) <==> exists before, after :: SaysEntry(raw, key, value, before, after)
  {
    hide IsSpace, IndexOf, Trim;
    if before, after :| SaysEntry(raw, key, value, before, after) {
      TrimAround(before, after, key);
    }
    if LineEntry(raw) == Some((key, value)) {
      var before, after := FirstEquals(raw);
      TrimAround(before, after, Trim(before));
      assert SaysEntry(raw, key, value, before, after);
    }
  }

  lemma FirstEquals(raw: string) returns (before: string, after: string)
    requires LineEntry(raw).Some?
    ensures raw == before + ['='] + after && '=' !in before
  {
    hide IsSpace, Trim, Blank;
    var line := Trim(raw);
    var a, b := TrimWitness(raw);
    assert line[IndexOf(line, '=')] == '=';
    assert raw[|a| + IndexOf(line, '=')] == '=';
    before, after := SplitAt(raw);
  }

  lemma SplitAt(raw: string) returns (before: string, after: string)
    requires '=' in raw
    ensures raw == before + ['='] + after && '=' !in before
  {
    var i := IndexOf(raw, '=');
    before, after := raw[..i], raw[i + 1..];
  }

  /** What a file says of a key: the last line that gives it decides. */
  lemma LastLineDecides(lines: seq<string>, i: nat, key: string, value: string)
    requires i < |lines| && LineEntry(lines[i]) == Some((key, value))
    requires forall j :: i < j < |lines| && LineEntry(lines[j]).Some? ==> LineEntry(lines[j]).value.0 != key
    ensures Get(Absorb([], lines), key) == Some(value)
  {
    hide LineEntry, Get, Set;
    LastFrom([], lines, i, key, value);
  }

  lemma {:induction false} LastFrom(env: OMap<string>, lines: seq<string>, i: nat, key: string, value: string)
    requires i < |lines| && LineEntry(lines[i]) == Some((key, value))
    requires forall j :: i < j < |lines| && LineEntry(lines[j]).Some? ==> LineEntry(lines[j]).value.0 != key
    ensures Get(Absorb(env, lines), key) == Some(value)
    decreases |lines|
  {
    hide LineEntry, Get, Set;
    if i == 0 {
      GetAfterSet(env, key, value, key);
      Untouched(Set(env, key, value), lines[1..], key);
    } else {
      LastFrom(SetEntry(env, LineEntry(lines[0])), lines[1..], i - 1, key, value);
    }
  }

  lemma {:induction false} Untouched(env: OMap<string>, lines: seq<string>, key: string)
    requires forall j :: 0 <= j < |lines| && LineEntry(lines[j]).Some? ==> LineEntry(lines[j]).value.0 != key
    ensures Get(Absorb(env, lines), key) == Get(env, key)
    decreases |lines|
  {
    hide LineEntry, Get, Set;
    if lines != [] {
      var entry := LineEntry(lines[0]);
      if entry.Some? { GetAfterSet(env, entry.value.0, entry.value.1, key); }
      Untouched(SetEntry(env, entry), lines[1..], key);
    }
  }
}
