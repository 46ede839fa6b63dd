/** The Public Suffix List's own algorithm: rules, matching, the prevailing rule, the public suffix. */
module SuffixRules {
  import opened Text
  import opened Wrappers

  type Labels = seq<string>

  // ---------------------------------------------------------------- rules and normalisation

  predicate IsException(rule: string) { |rule| > 0 && rule[0] == '!' }

  function Bare(rule: string): string { if IsException(rule) then rule[1..] else rule }

  function RuleLabels(rule: string): (labels: Labels)
    ensures |labels| >= 1
  {
    Split(Bare(rule), '.')
  }

  function Last(labels: Labels): string
    requires |labels| >= 1
  {
    labels[|labels| - 1]
  }

  predicate IsDigits(s: string) {
    |s| > 0 && forall i :: 0 <= i < |s| ==> '0' <= s[i] <= '9'
  }

  /** The published list never ends a rule in a wildcard or a number, and its exceptions are plain
      names of at least two labels. */
  predicate WellShaped(rule: string) {
    var labels := RuleLabels(rule);
    && Last(labels) != "*"
    && !IsDigits(Last(labels))
    && (IsException(rule) ==> |labels| >= 2 && "*" !in labels)
  }

  predicate RuleList(rules: seq<string>) {
    forall i :: 0 <= i < |rules| ==> WellShaped(rules[i])
  }

  function StripDots(s: string): (t: string)
    ensures t == "" || t[|t| - 1] != '.'
    ensures |t| <= |s| && t == s[..|t|]
    ensures forall i :: |t| <= i < |s| ==> s[i] == '.'
  {
    if s == "" || s[|s| - 1] != '.' then s else StripDots(s[..|s| - 1])
  }

  /** `normaliseHost`. */
  function Normalise(host: string): string {
    StripDots(ToLower(Trim(host)))
  }

  /** Position `i` is whitespace and nothing but dots follows. */
  ghost predicate SpaceThenDots(t: string, i: int) {
    0 <= i < |t| && IsSpace(t[i]) && forall j :: i < j < |t| ==> t[j] == '.'
  }

  /** Whitespace that only trailing dots hide from `trim`. */
  ghost predicate SpaceBeforeDots(host: string) {
    exists i :: SpaceThenDots(Trim(host), i)
  }

  /** Despite its comment `normaliseHost` is idempotent only when no whitespace hides behind the
      trailing dots. */
  lemma NormaliseIdempotentIff(host: string)
    ensures Normalise(Normalise(host)) == Normalise(host) <==> !SpaceBeforeDots(host)
  {
    var n := Normalise(host);
    LastOfNormalised(host);
    if n != "" && IsSpace(n[|n| - 1]) {
      TrimShortens(n);
    } else {
      NormalShape(host);
      forall i | 0 <= i < |n| ensures LowerChar(n[i]) == n[i] { LowerKeeps(Trim(host)[i]); }
      NormalisedTrimmed(n);
    }
  }

  /** What normalising leaves of a trimmed text: a lower-cased prefix, the rest being dots. */
  ghost predicate StrippedLower(t: string, n: string) {
    && |n| <= |t| && (forall i :: 0 <= i < |n| ==> n[i] == LowerChar(t[i]))
    && (forall i :: |n| <= i < |t| ==> t[i] == '.')
    && (n == "" || (n[|n| - 1] != '.' && !IsSpace(n[0])))
  }

  lemma NormalShape(host: string)
    ensures StrippedLower(Trim(host), Normalise(host))
  {
    var t := Trim(host);
    var u := ToLower(t);
    forall i | 0 <= i < |t| ensures u[i] == '.' ==> t[i] == '.' { LowerKeeps(t[i]); }
    if u != "" { LowerKeeps(t[0]); }
  }

  lemma LastOfNormalised(host: string)
    ensures var n := Normalise(host); SpaceBeforeDots(host) <==> n != "" && IsSpace(n[|n| - 1])
  {
    NormalShape(host);
    LastBeforeDots(Trim(host), Normalise(host));
  }

  lemma LastBeforeDots(t: string, n: string)
    requires StrippedLower(t, n)
    ensures (exists i :: SpaceThenDots(t, i)) <==> n != "" && IsSpace(n[|n| - 1])
  {
    if n != "" {
      LowerKeeps(t[|n| - 1]);
      if IsSpace(n[|n| - 1]) { assert SpaceThenDots(t, |n| - 1); }
    }
  }

  lemma TrimShortens(s: string)
    requires s != "" && IsSpace(s[|s| - 1])
    ensures |Trim(s)| < |s|
  {
  }

  /** Lower-case text that is trimmed and does not end in a dot is already normal. */
  lemma NormalisedTrimmed(n: string)
    requires Trimmed(n) && (n == "" || n[|n| - 1] != '.')
    requires forall i :: 0 <= i < |n| ==> LowerChar(n[i]) == n[i]
    ensures Normalise(n) == n
  {
    TrimFixes(n);
    assert ToLower(n) == n;
  }

  /** `"a ."` is such a host. */
  lemma NormaliseNotIdempotent()
    ensures Normalise("a .") == "a " && Normalise("a ") == "a"
  {
    TrimFixes("a .");
    assert ToLower("a .") == "a .";
    assert "a ."[..2] == "a ";
    assert TrimEnd("a ") == "a" by { assert "a "[..1] == "a"; }
    assert ToLower("a") == "a";
  }

  // ---------------------------------------------------------------- the list's algorithm

  predicate LabelsMatch(ruleLabels: Labels, hostLabels: Labels) {
    && |ruleLabels| <= |hostLabels|
    && var offset := |hostLabels| - |ruleLabels|;
       forall i :: 0 <= i < |ruleLabels| ==> ruleLabels[i] == "*" || ruleLabels[i] == hostLabels[offset + i]
  }

  predicate Matches(rule: string, hostLabels: Labels) {
    LabelsMatch(RuleLabels(rule), hostLabels)
  }

  predicate OrdinaryMatch(rule: string, hostLabels: Labels) {
    !IsException(rule) && Matches(rule, hostLabels)
  }

  predicate ExceptionMatch(rule: string, hostLabels: Labels) {
    IsException(rule) && Matches(rule, hostLabels)
  }

  /** The rules kept by `keep`, in list order. */
  function Select(rules: seq<string>, keep: string -> bool): seq<string> {
    if rules == [] then []
    else (if keep(rules[0]) then [rules[0]] else []) + Select(rules[1..], keep)
  }

  lemma {:induction false} SelectMembers(rules: seq<string>, keep: string -> bool)
    ensures forall r :: r in Select(rules, keep) <==> r in rules && keep(r)
  {
    if rules != [] {
      SelectMembers(rules[1..], keep);
      assert rules == [rules[0]] + rules[1..];
    }
  }

  lemma {:induction false} SelectNone(rules: seq<string>, keep: string -> bool)
    requires forall r :: r in rules ==> !keep(r)
    ensures Select(rules, keep) == []
  {
    if rules != [] { SelectNone(rules[1..], keep); }
  }

  /** Narrowing first changes nothing when everything kept passes the narrowing. */
  lemma {:induction false} SelectTwice(rules: seq<string>, wide: string -> bool, narrow: string -> bool)
    requires forall r :: r in rules && narrow(r) ==> wide(r)
    ensures Select(Select(rules, wide), narrow) == Select(rules, narrow)
  {
    if rules != [] {
      var rest := Select(rules[1..], wide);
      SelectTwice(rules[1..], wide, narrow);
      if wide(rules[0]) {
        assert Select(rules, wide) == [rules[0]] + rest;
        assert ([rules[0]] + rest)[1..] == rest;
      } else {
        assert rules[0] in rules;
        assert Select(rules, wide) == rest;
      }
    }
  }

  lemma {:induction false} SelectAppend(rules: seq<string>, rule: string, keep: string -> bool)
    ensures Select(rules + [rule], keep) == Select(rules, keep) + (if keep(rule) then [rule] else [])
  {
    if rules == [] {
      assert (rules + [rule])[1..] == [];
    } else {
      SelectAppend(rules[1..], rule, keep);
      assert (rules + [rule])[0] == rules[0];
      assert (rules + [rule])[1..] == rules[1..] + [rule];
      var first := if keep(rules[0]) then [rules[0]] else [];
      var last := if keep(rule) then [rule] else [];
      assert first + (Select(rules[1..], keep) + last) == (first + Select(rules[1..], keep)) + last;
    }
  }

  function MatchingExceptions(rules: seq<string>, hostLabels: Labels): seq<string> {
    Select(rules, r => ExceptionMatch(r, hostLabels))
  }

  lemma MatchingExceptionsMembers(rules: seq<string>, hostLabels: Labels)
    ensures forall r :: r in MatchingExceptions(rules, hostLabels) <==> r in rules && ExceptionMatch(r, hostLabels)
  {
    SelectMembers(rules, r => ExceptionMatch(r, hostLabels));
  }

  ghost predicate HasOrdinaryMatch(rules: seq<string>, hostLabels: Labels) {
    exists r :: r in rules && OrdinaryMatch(r, hostLabels)
  }

  /** `n` labels of some matching ordinary rule, and no matching ordinary rule has more. */
  ghost predicate LongestOrdinary(rules: seq<string>, hostLabels: Labels, n: int) {
    && (exists r :: r in rules && OrdinaryMatch(r, hostLabels) && n == |RuleLabels(r)|)
    && (forall r :: r in rules && OrdinaryMatch(r, hostLabels) ==> |RuleLabels(r)| <= n)
  }

  /** The "Formal Algorithm" of publicsuffix.org/list, as a relation: an exception prevails and loses
      its leftmost label; otherwise a matching rule with the most labels; otherwise the rule `*`. */
  ghost predicate Prevails(rules: seq<string>, hostLabels: Labels, n: int) {
    var exceptions := MatchingExceptions(rules, hostLabels);
    if exceptions != [] then n == |RuleLabels(exceptions[0])| - 1
    else if HasOrdinaryMatch(rules, hostLabels) then LongestOrdinary(rules, hostLabels, n)
    else n == 1
  }

  lemma PrevailsUnique(rules: seq<string>, hostLabels: Labels, m: int, n: int)
    requires Prevails(rules, hostLabels, m) && Prevails(rules, hostLabels, n)
    ensures m == n
  {
  }

  /** Labels of the longest ordinary match, or 0. */
  function Longest(rules: seq<string>, hostLabels: Labels): nat {
    if rules == [] then 0
    else
      var k := |rules| - 1;
      var before := Longest(rules[..k], hostLabels);
      if OrdinaryMatch(rules[k], hostLabels) && |RuleLabels(rules[k])| > before then |RuleLabels(rules[k])|
      else before
  }

  lemma {:induction false} LongestIsLongest(rules: seq<string>, hostLabels: Labels)
    ensures var n := Longest(rules, hostLabels);
            if HasOrdinaryMatch(rules, hostLabels) then n > 0 && LongestOrdinary(rules, hostLabels, n) else n == 0
  {
    if rules != [] {
      var k := |rules| - 1;
      LongestIsLongest(rules[..k], hostLabels);
      assert rules == rules[..k] + [rules[k]];
      assert forall r :: r in rules <==> r in rules[..k] || r == rules[k];
    }
  }

  /** The number of labels in the public suffix, by a scan of the whole list. */
  function SuffixLength(rules: seq<string>, hostLabels: Labels): int {
    var exceptions := MatchingExceptions(rules, hostLabels);
    if exceptions != [] then |RuleLabels(exceptions[0])| - 1
    else if Longest(rules, hostLabels) > 0 then Longest(rules, hostLabels)
    else 1
  }

  /** The scan computes exactly what the list's algorithm calls for. */
  lemma SuffixLengthPrevails(rules: seq<string>, hostLabels: Labels, n: int)
    ensures Prevails(rules, hostLabels, n) <==> n == SuffixLength(rules, hostLabels)
  {
    LongestIsLongest(rules, hostLabels);
    if Prevails(rules, hostLabels, n) {
      PrevailsUnique(rules, hostLabels, n, SuffixLength(rules, hostLabels));
    }
  }

  lemma SuffixLengthBounds(rules: seq<string>, hostLabels: Labels)
    requires RuleList(rules) && |hostLabels| >= 1
    ensures 1 <= SuffixLength(rules, hostLabels) <= |hostLabels|
  {
    var exceptions := MatchingExceptions(rules, hostLabels);
    MatchingExceptionsMembers(rules, hostLabels);
    LongestIsLongest(rules, hostLabels);
    if exceptions != [] { assert exceptions[0] in exceptions; }
  }

  /** Two lists with the same matching exceptions and the same matching rules agree. */
  lemma SameMatchesSameLength(rules: seq<string>, rules': seq<string>, hostLabels: Labels)
    requires MatchingExceptions(rules, hostLabels) == MatchingExceptions(rules', hostLabels)
    requires forall r :: OrdinaryMatch(r, hostLabels) ==> (r in rules <==> r in rules')
    ensures SuffixLength(rules, hostLabels) == SuffixLength(rules', hostLabels)
  {
    SuffixLengthPrevails(rules, hostLabels, SuffixLength(rules, hostLabels));
    SuffixLengthPrevails(rules', hostLabels, SuffixLength(rules, hostLabels));
  }

  /** The order of ordinary rules, and repetitions among them, do not matter. */
  lemma OrderOfOrdinaryRulesIrrelevant(rules: seq<string>, rules': seq<string>, hostLabels: Labels)
    requires forall r :: r in rules <==> r in rules'
    requires Select(rules, IsException) == Select(rules', IsException)
    ensures SuffixLength(rules, hostLabels) == SuffixLength(rules', hostLabels)
  {
    SelectTwice(rules, IsException, r => ExceptionMatch(r, hostLabels));
    SelectTwice(rules', IsException, r => ExceptionMatch(r, hostLabels));
    SameMatchesSameLength(rules, rules', hostLabels);
  }

  /** The last `n` labels. */
  function Tail(labels: Labels, n: int): Labels
    requires 0 <= n <= |labels|
  {
    labels[|labels| - n..]
  }

  predicate HasEmptyLabel(labels: Labels) {
    exists i :: 0 <= i < |labels| && labels[i] == ""
  }

  /** The public suffix the list's algorithm gives. */
  function PublicSuffixOf(rules: seq<string>, host: string): Option<string>
    requires RuleList(rules)
  {
    var normalised := Normalise(host);
    var labels := Split(normalised, '.');
    if normalised == "" || HasEmptyLabel(labels) then None
    else
      SuffixLengthBounds(rules, labels);
      Some(Join(Tail(labels, SuffixLength(rules, labels)), '.'))
  }

  /** An exception's own text is the host's: it has no wildcard to fill in. */
  lemma ExceptionTextIsHostText(rule: string, hostLabels: Labels)
    requires WellShaped(rule) && ExceptionMatch(rule, hostLabels)
    ensures RuleLabels(rule)[1..] == Tail(hostLabels, |RuleLabels(rule)| - 1)
  {
    var labels := RuleLabels(rule);
    forall i | 0 <= i < |labels| ensures labels[i] == hostLabels[|hostLabels| - |labels| + i] {
      assert labels[i] in labels;
    }
  }
}
