/** `publicSuffix`: rules bucketed by their last label, against a scan of the whole list. */
module SuffixLookup {
  import opened SuffixRules
  import opened Text
  import opened Wrappers

  /** `bare.slice(bare.lastIndexOf('.') + 1)`. */
  function LastIndexOf(s: string, c: char): (i: int)
    ensures -1 <= i < |s|
    ensures i >= 0 ==> s[i] == c
    ensures forall k :: i < k < |s| ==> s[k] != c
  {
    if s == "" then -1
    else if s[|s| - 1] == c then |s| - 1
    else LastIndexOf(s[..|s| - 1], c)
  }

  function Tld(rule: string): string {
    var bare := Bare(rule);
    bare[LastIndexOf(bare, '.') + 1..]
  }

  lemma TldIsLastLabel(rule: string)
    ensures Tld(rule) == Last(RuleLabels(rule))
  {
    LastPartAfterDot(Bare(rule));
  }

  lemma LastIndexOfIs(s: string, c: char, i: int)
    requires -1 <= i < |s| && (i >= 0 ==> s[i] == c) && forall k :: i < k < |s| ==> s[k] != c
    ensures LastIndexOf(s, c) == i
  {
  }

  lemma {:induction false} LastPartAfterDot(s: string)
    ensures s[LastIndexOf(s, '.') + 1..] == Last(Split(s, '.'))
    decreases |s|
  {
    var i := IndexOf(s, '.');
    if i == |s| {
      LastIndexOfIs(s, '.', -1);
    } else {
      var rest := s[i + 1..];
      LastPartAfterDot(rest);
      LastIndexOfAcross(s, i);
      assert s[i + 1 + LastIndexOf(rest, '.') + 1..] == rest[LastIndexOf(rest, '.') + 1..];
      LastOfCons(s[..i], Split(rest, '.'));
    }
  }

  lemma LastOfCons(x: string, ys: Labels)
    requires |ys| >= 1
    ensures Last([x] + ys) == Last(ys)
  {
  }

  lemma LastIndexOfAcross(s: string, i: nat)
    requires i < |s| && s[i] == '.'
    ensures LastIndexOf(s, '.') == i + 1 + LastIndexOf(s[i + 1..], '.')
  {
    var rest := s[i + 1..];
    var l := LastIndexOf(rest, '.');
    forall k | i + 1 + l < k < |s| ensures s[k] != '.' {
      assert s[k] == rest[k - i - 1];
    }
    LastIndexOfIs(s, '.', i + 1 + l);
  }

  type Index = map<string, seq<string>>

  function Candidates(index: Index, tld: string): seq<string> {
    if tld in index then index[tld] else []
  }

  /** The rules filed under one last label, in list order. */
  function BucketOf(rules: seq<string>, tld: string): seq<string> {
    Select(rules, r => Tld(r) == tld)
  }

  ghost predicate IsIndexOf(index: Index, rules: seq<string>) {
    forall tld :: Candidates(index, tld) == BucketOf(rules, tld)
  }

  method BuildIndex(rules: seq<string>) returns (index: Index)
    ensures IsIndexOf(index, rules)
  {
    index := map[];
    ghost var filed: seq<string> := [];
    EmptyIndex();
    for i := 0 to |rules|
      invariant filed == rules[..i] && IsIndexOf(index, filed)
    {
      ExtendIndex(index, filed, rules[i]);
      var tld := Tld(rules[i]);
      index := index[tld := Candidates(index, tld) + [rules[i]]];
      filed := filed + [rules[i]];
    }
    assert filed == rules;
  }

  lemma EmptyIndex()
    ensures IsIndexOf(map[], [])
  {
    forall tld ensures Candidates(map[], tld) == BucketOf([], tld) {}
  }

  lemma ExtendIndex(index: Index, rules: seq<string>, rule: string)
    requires IsIndexOf(index, rules)
    ensures IsIndexOf(index[Tld(rule) := Candidates(index, Tld(rule)) + [rule]], rules + [rule])
  {
    var index' := index[Tld(rule) := Candidates(index, Tld(rule)) + [rule]];
    forall tld ensures Candidates(index', tld) == BucketOf(rules + [rule], tld) {
      SelectAppend(rules, rule, r => Tld(r) == tld);
      assert Candidates(index, tld) == BucketOf(rules, tld);
    }
  }

  /** A matching rule is always in the bucket of the host's last label. */
  lemma MatchIsCandidate(rule: string, hostLabels: Labels)
    requires WellShaped(rule) && |hostLabels| >= 1 && Matches(rule, hostLabels)
    ensures Tld(rule) == Last(hostLabels)
  {
    TldIsLastLabel(rule);
    var labels := RuleLabels(rule);
    assert labels[|labels| - 1] == hostLabels[|hostLabels| - |labels| + |labels| - 1];
  }

  /** Scanning one bucket gives what scanning the whole list gives. */
  lemma BucketSuffices(rules: seq<string>, hostLabels: Labels)
    requires RuleList(rules) && |hostLabels| >= 1
    ensures SuffixLength(BucketOf(rules, Last(hostLabels)), hostLabels) == SuffixLength(rules, hostLabels)
  {
    var tld := Last(hostLabels);
    forall r | r in rules && Matches(r, hostLabels) ensures Tld(r) == tld {
      MatchIsCandidate(r, hostLabels);
    }
    SelectMembers(rules, r => Tld(r) == tld);
    SelectTwice(rules, r => Tld(r) == tld, r => ExceptionMatch(r, hostLabels));
    SameMatchesSameLength(rules, BucketOf(rules, tld), hostLabels);
  }

  /** The source's indexed lookup: one bucket, early return on an exception, longest otherwise. */
  method PublicSuffix(index: Index, ghost rules: seq<string>, host: string) returns (suffix: Option<string>)
    requires RuleList(rules) && IsIndexOf(index, rules)
    ensures suffix == PublicSuffixOf(rules, host)
  {
    hide Normalise, Split, Join, SuffixLength, Tail, WellShaped;
    var normalised := Normalise(host);
    if normalised == "" { return None; }
    var hostLabels := Split(normalised, '.');
    if HasEmptyLabel(hostLabels) { return None; }
    var tld := hostLabels[|hostLabels| - 1];
    var candidates := Candidates(index, tld);
    ghost var n := SuffixLength(rules, hostLabels);
    assert SuffixLength(candidates, hostLabels) == n by { BucketSuffices(rules, hostLabels); }
    assert 1 <= n <= |hostLabels| by { SuffixLengthBounds(rules, hostLabels); }
    assert forall i :: 0 <= i < |candidates| ==> WellShaped(candidates[i]) by {
      SelectMembers(rules, r => Tld(r) == tld);
      assert forall i :: 0 <= i < |candidates| ==> candidates[i] in candidates;
    }
    var suffixLabels := ScanBucket(candidates, hostLabels);
    return Some(Join(suffixLabels, '.'));
  }

  /** The loop over one bucket and the two ways it can end. */
  method ScanBucket(candidates: seq<string>, hostLabels: Labels) returns (suffix: Labels)
    requires forall i :: 0 <= i < |candidates| ==> WellShaped(candidates[i])
    requires 1 <= SuffixLength(candidates, hostLabels) <= |hostLabels|
    ensures suffix == Tail(hostLabels, SuffixLength(candidates, hostLabels))
  {
    var longest: Labels := [];
    ghost var seen: seq<string> := [];
    for i := 0 to |candidates|
      invariant seen == candidates[..i] && MatchingExceptions(seen, hostLabels) == []
      invariant |longest| == Longest(seen, hostLabels)
    {
      var rule := candidates[i];
      var ruleLabels := RuleLabels(rule);
      ScanStep(candidates, i, hostLabels);
      if Matches(rule, hostLabels) {
        if IsException(rule) {
          ExceptionEnds(candidates, i, hostLabels);
          return ruleLabels[1..];
        }
        if |longest| == 0 || |ruleLabels| > |longest| { longest := ruleLabels; }
      }
      seen := candidates[..i + 1];
    }
    assert seen == candidates;
    if |longest| > 0 {
      return hostLabels[|hostLabels| - |longest|..];
    }
    return [hostLabels[|hostLabels| - 1]];
  }

  lemma ExceptionEnds(candidates: seq<string>, i: nat, hostLabels: Labels)
    requires i < |candidates| && WellShaped(candidates[i]) && ExceptionMatch(candidates[i], hostLabels)
    requires MatchingExceptions(candidates[..i], hostLabels) == []
    ensures 0 <= SuffixLength(candidates, hostLabels) <= |hostLabels|
    ensures RuleLabels(candidates[i])[1..] == Tail(hostLabels, SuffixLength(candidates, hostLabels))
  {
    FirstException(candidates, i, hostLabels);
    ExceptionTextIsHostText(candidates[i], hostLabels);
  }

  /** One turn of the scan: an exception ends it, an ordinary match may lengthen the best. */
  lemma ScanStep(rules: seq<string>, i: nat, hostLabels: Labels)
    requires i < |rules| && MatchingExceptions(rules[..i], hostLabels) == []
    ensures ExceptionMatch(rules[i], hostLabels) ==>
              MatchingExceptions(rules, hostLabels) != [] && MatchingExceptions(rules, hostLabels)[0] == rules[i]
    ensures !ExceptionMatch(rules[i], hostLabels) ==> MatchingExceptions(rules[..i + 1], hostLabels) == []
    ensures Longest(rules[..i + 1], hostLabels)
         == if OrdinaryMatch(rules[i], hostLabels) && |RuleLabels(rules[i])| > Longest(rules[..i], hostLabels)
            then |RuleLabels(rules[i])| else Longest(rules[..i], hostLabels)
  {
    if ExceptionMatch(rules[i], hostLabels) { FirstException(rules, i, hostLabels); }
    assert rules[..i + 1] == rules[..i] + [rules[i]];
    assert rules[..i + 1][..i] == rules[..i];
    SelectAppend(rules[..i], rules[i], r => ExceptionMatch(r, hostLabels));
  }

  /** The first exception a front-to-back scan meets heads the matching exceptions. */
  lemma {:induction false} FirstException(rules: seq<string>, i: nat, hostLabels: Labels)
    requires i < |rules| && ExceptionMatch(rules[i], hostLabels)
    requires MatchingExceptions(rules[..i], hostLabels) == []
    ensures MatchingExceptions(rules, hostLabels) != [] && MatchingExceptions(rules, hostLabels)[0] == rules[i]
  {
    if i > 0 {
      assert rules[..i][0] == rules[0];
      assert rules[1..][..i - 1] == rules[..i][1..];
      FirstException(rules[1..], i - 1, hostLabels);
    }
  }
}
