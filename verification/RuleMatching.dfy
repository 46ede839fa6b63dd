/** What it means for a rule of the Public Suffix List to match a host, said on the texts themselves. */
module RuleMatching {
  import opened OriginMatch
  import opened RegistrableDomains
  import opened SuffixRules
  import opened Text
  import opened Wrappers

  /** `text` is `pattern` with some label put in place of every label `*`. */
  ghost predicate Fills(pattern: string, text: string) {
    var labels, filled := Split(pattern, '.'), Split(text, '.');
    && |filled| == |labels|
    && forall i :: 0 <= i < |labels| && labels[i] != "*" ==> filled[i] == labels[i]
  }

  lemma TailText(host: string, m: nat)
    requires 1 <= m <= |Split(host, '.')|
    ensures UnderDomain(host, Join(Tail(Split(host, '.'), m), '.'))
    ensures Split(Join(Tail(Split(host, '.'), m), '.'), '.') == Tail(Split(host, '.'), m)
  {
    hide Split, Join, UnderDomain;
    var labels := Split(host, '.');
    JoinSplit(host, '.');
    TailIsSuffix(labels, m);
    SplitIsFree(host, '.');
    forall i | 0 <= i < m ensures '.' !in Tail(labels, m)[i] { assert Tail(labels, m)[i] == labels[|labels| - m + i]; }
    SplitJoin(Tail(labels, m), '.');
  }

  /** A rule matches exactly the hosts that are, or end behind a dot in, a filling of its text. */
  lemma MatchesIffFilled(rule: string, host: string)
    ensures Matches(rule, Split(host, '.')) <==> exists text :: UnderDomain(host, text) && Fills(Bare(rule), text)
  {
    hide Split, Join, UnderDomain;
    var labels, m := Split(host, '.'), |RuleLabels(rule)|;
    if Matches(rule, labels) {
      var text := Join(Tail(labels, m), '.');
      TailText(host, m);
      assert UnderDomain(host, text) && Fills(Bare(rule), text);
    }
    if text :| UnderDomain(host, text) && Fills(Bare(rule), text) {
      UnderDomainIsTail(host, text);
      forall i | 0 <= i < m ensures RuleLabels(rule)[i] == "*" || RuleLabels(rule)[i] == labels[|labels| - m + i] {
        assert Split(text, '.')[i] == labels[|labels| - m + i];
      }
    }
  }

  /** A rule without a wildcard matches exactly the hosts that are its text or end in a dot and its text;
      the mark of an exception is no part of the text. */
  lemma PlainRuleMatches(text: string, host: string)
    requires "*" !in Split(text, '.') && !IsException(text)
    ensures Matches(text, Split(host, '.')) <==> UnderDomain(host, text)
    ensures Matches("!" + text, Split(host, '.')) <==> UnderDomain(host, text)
  {
    hide Split, Join, UnderDomain;
    assert Bare("!" + text) == text;
    MatchesIffFilled(text, host);
    MatchesIffFilled("!" + text, host);
    forall other ensures Fills(text, other) <==> other == text {
      if Fills(text, other) {
        assert forall i :: 0 <= i < |Split(text, '.')| ==> Split(text, '.')[i] in Split(text, '.');
        assert Split(other, '.') == Split(text, '.');
        JoinSplit(other, '.');
        JoinSplit(text, '.');
      }
    }
  }

  /** `*.rest` matches exactly the hosts that end, at a label boundary, in one label, a dot and `rest`: never
      `rest` itself, and of a deeper host just one label more. */
  lemma WildcardIsOneLabel(rest: string, host: string)
    requires "*" !in Split(rest, '.')
    ensures Matches("*." + rest, Split(host, '.')) <==>
            exists first: string :: '.' !in first && UnderDomain(host, first + "." + rest)
  {
    hide Split, Join, UnderDomain;
    MatchesIffFilled("*." + rest, host);
    OneLabelAhead("*", rest);
    assert "*" + "." + rest == "*." + rest;
    if text :| UnderDomain(host, text) && Fills("*." + rest, text) {
      var first := FilledAhead(rest, text);
      assert '.' !in first && UnderDomain(host, first + "." + rest);
    }
    if first: string :| '.' !in first && UnderDomain(host, first + "." + rest) {
      OneLabelAhead(first, rest);
      assert Fills("*." + rest, first + "." + rest);
    }
  }

  lemma OneLabelAhead(first: string, rest: string)
    requires '.' !in first
    ensures Split(first + "." + rest, '.') == [first] + Split(rest, '.')
  {
    SplitHead(first, rest, '.');
  }

  lemma FilledAhead(rest: string, text: string) returns (first: string)
    requires "*" !in Split(rest, '.') && Fills("*." + rest, text)
    ensures '.' !in first && text == first + "." + rest
  {
    hide Split, Join;
    OneLabelAhead("*", rest);
    assert "*" + "." + rest == "*." + rest;
    var parts, own := Split(text, '.'), Split(rest, '.');
    first := parts[0];
    SplitIsFree(text, '.');
    forall i | 0 <= i < |own| ensures parts[1 + i] == own[i] {
      assert own[i] in own;
      assert Split("*." + rest, '.')[1 + i] == own[i];
    }
    assert parts == [first] + own;
    JoinHead(first, own, '.');
    JoinSplit(text, '.');
    JoinSplit(rest, '.');
  }

  // ---------------------------------------------------------------- the public suffix by its text

  /** One label, a dot and `rest`. */
  predicate OneLabelMore(text: string, rest: string) {
    |text| > |rest| && text[|text| - |rest|..] == rest && text[|text| - |rest| - 1] == '.'
    && '.' !in text[..|text| - |rest| - 1]
  }

  /** `p` is what the prevailing rule calls for at the end of `host`: an exception's text without its first
      label, a filling of a longest ordinary rule, or one label when no rule matches. */
  ghost predicate SuffixText(rules: seq<string>, host: string, p: string) {
    var labels := Split(host, '.');
    var exceptions := MatchingExceptions(rules, labels);
    && UnderDomain(host, p)
    && if exceptions != [] then OneLabelMore(Bare(exceptions[0]), p)
       else if HasOrdinaryMatch(rules, labels) then
         exists r :: r in rules && !IsException(r) && Fills(r, p)
                     && forall s :: s in rules && OrdinaryMatch(s, labels) ==> |Split(s, '.')| <= |Split(r, '.')|
       else '.' !in p
  }

  lemma OneLabelMoreSplits(text: string, rest: string)
    ensures OneLabelMore(text, rest) <==> |Split(text, '.')| >= 2 && Split(text, '.')[1..] == Split(rest, '.')
  {
    hide Split, Join;
    var labels := Split(text, '.');
    if OneLabelMore(text, rest) {
      var first := text[..|text| - |rest| - 1];
      assert text == first + "." + rest;
      OneLabelAhead(first, rest);
    }
    if |labels| >= 2 && labels[1..] == Split(rest, '.') {
      SplitIsFree(text, '.');
      assert labels == [labels[0]] + labels[1..];
      JoinHead(labels[0], labels[1..], '.');
      JoinSplit(text, '.');
      JoinSplit(rest, '.');
    }
  }

  lemma SuffixTextLength(rules: seq<string>, host: string, p: string)
    requires RuleList(rules) && UnderDomain(host, p)
    ensures SuffixText(rules, host, p) <==> |Split(p, '.')| == SuffixLength(rules, Split(host, '.'))
  {
    hide Split, Join, UnderDomain, RuleList;
    var labels := Split(host, '.');
    var exceptions := MatchingExceptions(rules, labels);
    UnderDomainIsTail(host, p);
    LongestIsLongest(rules, labels);
    if exceptions != [] {
      ExceptionLength(rules, labels, p);
    } else if HasOrdinaryMatch(rules, labels) {
      OrdinaryLength(rules, host, p);
    } else {
      OneLabel(p);
    }
  }

  lemma OneLabel(p: string)
    ensures '.' !in p <==> |Split(p, '.')| == 1
  {
    if '.' !in p { IndexOfIs(p, '.', |p|); }
  }

  lemma ExceptionLength(rules: seq<string>, labels: Labels, p: string)
    requires RuleList(rules) && MatchingExceptions(rules, labels) != []
    requires |Split(p, '.')| <= |labels| && Split(p, '.') == Tail(labels, |Split(p, '.')|)
    ensures var e := MatchingExceptions(rules, labels)[0];
            OneLabelMore(Bare(e), p) <==> |Split(p, '.')| == |RuleLabels(e)| - 1
  {
    hide Split, OneLabelMore;
    var e := MatchingExceptions(rules, labels)[0];
    MatchingExceptionsMembers(rules, labels);
    assert e in MatchingExceptions(rules, labels);
    assert WellShaped(e);
    ExceptionTextIsHostText(e, labels);
    OneLabelMoreSplits(Bare(e), p);
  }

  lemma OrdinaryLength(rules: seq<string>, host: string, p: string)
    requires UnderDomain(host, p) && HasOrdinaryMatch(rules, Split(host, '.'))
    requires |Split(p, '.')| <= |Split(host, '.')| && Split(p, '.') == Tail(Split(host, '.'), |Split(p, '.')|)
    requires LongestOrdinary(rules, Split(host, '.'), Longest(rules, Split(host, '.')))
    ensures (exists r :: r in rules && !IsException(r) && Fills(r, p)
                         && forall s :: s in rules && OrdinaryMatch(s, Split(host, '.')) ==>
                              |Split(s, '.')| <= |Split(r, '.')|)
            <==> |Split(p, '.')| == Longest(rules, Split(host, '.'))
  {
    hide Split, Join, UnderDomain, Longest;
    var labels := Split(host, '.');
    var n := Longest(rules, labels);
    var best :| best in rules && OrdinaryMatch(best, labels) && n == |RuleLabels(best)|;
    if |Split(p, '.')| == n {
      assert Fills(best, p);
    }
    if r :| r in rules && !IsException(r) && Fills(r, p)
            && forall s :: s in rules && OrdinaryMatch(s, labels) ==> |Split(s, '.')| <= |Split(r, '.')| {
      MatchesIffFilled(r, host);
      assert Bare(r) == r;
      assert OrdinaryMatch(r, labels);
    }
  }

  /** The public suffix of a host, as a statement about its text: the host ends in it at a label boundary, and
      it is what the prevailing rule calls for. Hosts that are empty or have an empty label have none. */
  lemma PublicSuffixIsText(rules: seq<string>, host: string, p: string)
    requires RuleList(rules)
    ensures PublicSuffixOf(rules, host) == Some(p) <==>
            && Normalise(host) != "" && !HasEmptyLabel(Split(Normalise(host), '.'))
            && SuffixText(rules, Normalise(host), p)
  {
    hide Split, Join, Normalise, HasEmptyLabel, SuffixText, UnderDomain;
    var n := Normalise(host);
    var labels := Split(n, '.');
    SuffixLengthBounds(rules, labels);
    var k := SuffixLength(rules, labels);
    TailText(n, k);
    SuffixTextLength(rules, n, Join(Tail(labels, k), '.'));
    if SuffixText(rules, n, p) {
      SuffixTextUnder(rules, n, p);
      SuffixTextLength(rules, n, p);
      UnderDomainIsTail(n, p);
    }
  }

  lemma SuffixTextUnder(rules: seq<string>, host: string, p: string)
    requires SuffixText(rules, host, p)
    ensures UnderDomain(host, p)
  {
  }
}
