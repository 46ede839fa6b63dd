/** `registrableDomain`: the public suffix plus one label, and why it names a class of hosts. */
module RegistrableDomains {
  import opened SuffixRules
  import opened Text
  import opened Wrappers

  /** `/^\d{1,3}(\.\d{1,3}){3}$/`. */
  predicate IsIPv4(s: string) {
    var parts := Split(s, '.');
    |parts| == 4 && forall i :: 0 <= i < 4 ==> IsDigits(parts[i]) && |parts[i]| <= 3
  }

  /** One to three digits. */
  predicate Octet(s: string) { |s| <= 3 && IsDigits(s) }

  ghost predicate FourOctets(s: string, a: string, b: string, c: string, d: string) {
    Octet(a) && Octet(b) && Octet(c) && Octet(d) && s == Join([a, b, c, d], '.')
  }

  /** Four numbers with dots between them, and nothing else. */
  lemma IPv4Text(s: string)
    ensures IsIPv4(s) <==> exists a, b, c, d :: FourOctets(s, a, b, c, d)
  {
    hide Join, Split;
    if IsIPv4(s) {
      var parts := Split(s, '.');
      JoinSplit(s, '.');
      assert parts == [parts[0], parts[1], parts[2], parts[3]];
      assert FourOctets(s, parts[0], parts[1], parts[2], parts[3]);
    }
    if a, b, c, d :| FourOctets(s, a, b, c, d) {
      SplitJoin([a, b, c, d], '.');
    }
  }

  function RegistrableDomain(rules: seq<string>, host: string): Option<string>
    requires RuleList(rules)
  {
    var normalised := Normalise(host);
    if IsIPv4(normalised) || ':' in normalised then None
    else
      var suffix := PublicSuffixOf(rules, normalised);
      if suffix.None? then None else OneLabelAbove(normalised, suffix.value)
  }

  function OneLabelAbove(normalised: string, suffix: string): Option<string> {
    if suffix == normalised then None
    else
      var suffixLabels := |Split(suffix, '.')|;
      var hostLabels := Split(normalised, '.');
      if |hostLabels| <= suffixLabels then None
      else Some(Join(Tail(hostLabels, suffixLabels + 1), '.'))
  }

  /** No whitespace but what `trim` removes; every `URL.hostname` is such a host. */
  predicate SpaceFree(host: string) {
    var t := Trim(host);
    forall i :: 0 <= i < |t| ==> !IsSpace(t[i])
  }

  /** `d` is `host` or follows a dot in it. */
  predicate UnderDomain(host: string, d: string) {
    host == d || (|host| > |d| && host[|host| - |d|..] == d && host[|host| - |d| - 1] == '.')
  }

  // ---------------------------------------------------------------- hosts as label lists

  predicate LabelText(s: string) {
    forall i :: 0 <= i < |s| ==> !IsSpace(s[i]) && LowerChar(s[i]) == s[i] && s[i] != ':'
  }

  predicate Label(s: string) { s != "" && '.' !in s && LabelText(s) }

  /** What a normalised host splits into. */
  predicate HostLabels(labels: Labels) {
    |labels| >= 1 && forall i :: 0 <= i < |labels| ==> Label(labels[i])
  }

  lemma {:induction false} JoinIsText(labels: Labels)
    requires HostLabels(labels)
    ensures var s := Join(labels, '.'); LabelText(s) && s != "" && s[|s| - 1] != '.'
  {
    assert Label(labels[0]);
    if |labels| > 1 {
      assert HostLabels(labels[1..]) by {
        forall i | 0 <= i < |labels| - 1 ensures Label(labels[1..][i]) { assert Label(labels[i + 1]); }
      }
      JoinIsText(labels[1..]);
    }
  }

  /** A label list is recovered from its text, which needs no further normalising. */
  lemma HostRoundTrip(labels: Labels)
    requires HostLabels(labels)
    ensures Normalise(Join(labels, '.')) == Join(labels, '.') && Split(Join(labels, '.'), '.') == labels
  {
    JoinIsText(labels);
    NormalisedTrimmed(Join(labels, '.'));
    SplitJoin(labels, '.');
  }

  lemma {:induction false} SplitText(s: string)
    requires LabelText(s)
    ensures forall i :: 0 <= i < |Split(s, '.')| ==> LabelText(Split(s, '.')[i])
    decreases |s|
  {
    var i := IndexOf(s, '.');
    if i < |s| {
      SplitText(s[i + 1..]);
    }
  }

  /** A whitespace-free host that normalises to anything with proper labels is a label list. */
  lemma LabelsOfHost(host: string)
    requires SpaceFree(host) && Normalise(host) != "" && ':' !in Normalise(host)
    requires !HasEmptyLabel(Split(Normalise(host), '.'))
    ensures HostLabels(Split(Normalise(host), '.'))
  {
    var t, n := Trim(host), Normalise(host);
    NormalShape(host);
    forall i | 0 <= i < |n| ensures !IsSpace(n[i]) && LowerChar(n[i]) == n[i] && n[i] != ':' { LowerKeeps(t[i]); }
    SplitText(n);
    SplitIsFree(n, '.');
  }

  lemma TailIsHost(labels: Labels, m: nat)
    requires HostLabels(labels) && 1 <= m <= |labels|
    ensures HostLabels(Tail(labels, m))
  {
    forall i | 0 <= i < m ensures Label(Tail(labels, m)[i]) { assert Label(labels[|labels| - m + i]); }
  }

  lemma TailIsSuffix(labels: Labels, n: nat)
    requires 1 <= n <= |labels|
    ensures UnderDomain(Join(labels, '.'), Join(Tail(labels, n), '.'))
  {
    hide Join;
    if n < |labels| {
      var front := labels[..|labels| - n];
      assert labels == front + Tail(labels, n);
      JoinTwo(front, Tail(labels, n), '.');
    } else {
      assert Tail(labels, n) == labels;
    }
  }

  // ---------------------------------------------------------------- the suffix of a cut-down host

  /** A rule no longer than the tail matches the tail exactly when it matches the whole host. */
  lemma MatchesTail(rule: string, labels: Labels, n: nat)
    requires n <= |labels|
    ensures Matches(rule, Tail(labels, n)) <==> |RuleLabels(rule)| <= n && Matches(rule, labels)
  {
    var parts := RuleLabels(rule);
    var tail := Tail(labels, n);
    if |parts| <= n {
      forall i | 0 <= i < |parts|
        ensures (parts[i] == tail[n - |parts| + i]) == (parts[i] == labels[|labels| - |parts| + i])
      {
      }
    }
  }

  /** Cutting a host down to one label above its public suffix leaves the suffix where it was. */
  lemma SuffixSurvivesCut(rules: seq<string>, labels: Labels, k: nat)
    requires RuleList(rules) && k == SuffixLength(rules, labels) && 1 <= k < |labels|
    ensures SuffixLength(rules, Tail(labels, k + 1)) == k
  {
    var cut := Tail(labels, k + 1);
    forall r ensures Matches(r, cut) <==> |RuleLabels(r)| <= k + 1 && Matches(r, labels) {
      MatchesTail(r, labels, k + 1);
    }
    SelectTwice(rules, r => ExceptionMatch(r, labels), r => ExceptionMatch(r, cut));
    if MatchingExceptions(rules, labels) != [] {
      ExceptionSurvives(rules, labels, cut);
    } else {
      SuffixLengthPrevails(rules, labels, k);
      OrdinarySurvives(rules, labels, cut, k);
      SuffixLengthPrevails(rules, cut, k);
    }
  }

  lemma ExceptionSurvives(rules: seq<string>, labels: Labels, cut: Labels)
    requires MatchingExceptions(rules, labels) != []
    requires ExceptionMatch(MatchingExceptions(rules, labels)[0], labels) ==>
               ExceptionMatch(MatchingExceptions(rules, labels)[0], cut)
    requires MatchingExceptions(rules, cut)
          == Select(MatchingExceptions(rules, labels), r => ExceptionMatch(r, cut))
    ensures MatchingExceptions(rules, cut) != []
    ensures MatchingExceptions(rules, cut)[0] == MatchingExceptions(rules, labels)[0]
  {
    MatchingExceptionsMembers(rules, labels);
    assert MatchingExceptions(rules, labels)[0] in MatchingExceptions(rules, labels);
  }

  lemma OrdinarySurvives(rules: seq<string>, labels: Labels, cut: Labels, k: nat)
    requires MatchingExceptions(rules, cut) == [] == MatchingExceptions(rules, labels)
    requires forall r :: Matches(r, cut) <==> |RuleLabels(r)| <= k + 1 && Matches(r, labels)
    requires Prevails(rules, labels, k)
    ensures Prevails(rules, cut, k)
  {
    if HasOrdinaryMatch(rules, labels) {
      var r :| r in rules && OrdinaryMatch(r, labels) && k == |RuleLabels(r)|;
      assert OrdinaryMatch(r, cut);
    }
  }

  /** A host ending in a number matches no rule, so its suffix is one label. */
  lemma NumericEndsInOneLabel(rules: seq<string>, labels: Labels)
    requires RuleList(rules) && |labels| >= 1 && IsDigits(Last(labels))
    ensures SuffixLength(rules, labels) == 1
  {
    forall r | r in rules ensures !Matches(r, labels) {
      var parts := RuleLabels(r);
      if |parts| <= |labels| {
        assert Last(labels) == labels[|labels| - |parts| + |parts| - 1];
      }
    }
    SelectNone(rules, r => ExceptionMatch(r, labels));
    SuffixLengthPrevails(rules, labels, 1);
  }

  // ---------------------------------------------------------------- registrable domains of label lists

  lemma LabelAboveTail(labels: Labels, k: nat)
    requires HostLabels(labels) && 1 <= k <= |labels|
    ensures OneLabelAbove(Join(labels, '.'), Join(Tail(labels, k), '.'))
         == if k == |labels| then None else Some(Join(Tail(labels, k + 1), '.'))
  {
    hide HostLabels, Split, Join, Normalise;
    HostRoundTrip(labels);
    TailIsHost(labels, k);
    HostRoundTrip(Tail(labels, k));
    if k == |labels| { assert Tail(labels, k) == labels; }
  }

  lemma SuffixOfHost(rules: seq<string>, labels: Labels)
    requires RuleList(rules) && HostLabels(labels)
    ensures 1 <= SuffixLength(rules, labels) <= |labels|
    ensures PublicSuffixOf(rules, Join(labels, '.')) == Some(Join(Tail(labels, SuffixLength(rules, labels)), '.'))
  {
    SuffixLengthBounds(rules, labels);
    HostRoundTrip(labels);
    JoinIsText(labels);
    assert forall i :: 0 <= i < |labels| ==> Label(labels[i]);
  }

  lemma DomainOfHost(rules: seq<string>, labels: Labels)
    requires RuleList(rules) && HostLabels(labels)
    ensures 1 <= SuffixLength(rules, labels) <= |labels|
    ensures RegistrableDomain(rules, Join(labels, '.'))
         == if IsIPv4(Join(labels, '.')) || SuffixLength(rules, labels) == |labels| then None
            else Some(Join(Tail(labels, SuffixLength(rules, labels) + 1), '.'))
  {
    hide HostLabels, IsIPv4, SuffixLength, Split, Join, Normalise, OneLabelAbove, PublicSuffixOf, RuleList;
    SuffixOfHost(rules, labels);
    LabelAboveTail(labels, SuffixLength(rules, labels));
    HostRoundTrip(labels);
    JoinIsText(labels);
  }

  /** One label above the suffix is a registrable domain, its own, with the same suffix. */
  lemma CutIsDomain(rules: seq<string>, labels: Labels, k: nat)
    requires RuleList(rules) && HostLabels(labels) && k == SuffixLength(rules, labels) && 1 <= k < |labels|
    ensures var d := Join(Tail(labels, k + 1), '.');
            && RegistrableDomain(rules, d) == Some(d)
            && PublicSuffixOf(rules, d) == Some(Join(Tail(labels, k), '.'))
  {
    hide HostLabels, SuffixLength, RuleList, Join, Split, Normalise, PublicSuffixOf, RegistrableDomain, IsIPv4;
    var cut := Tail(labels, k + 1);
    TailIsHost(labels, k + 1);
    SuffixSurvivesCut(rules, labels, k);
    assert Tail(cut, k) == Tail(labels, k) && Tail(cut, k + 1) == cut;
    SuffixOfHost(rules, cut);
    DomainOfHost(rules, cut);
    NotIPv4(rules, cut, k);
  }

  lemma NotIPv4(rules: seq<string>, cut: Labels, k: nat)
    requires RuleList(rules) && HostLabels(cut) && SuffixLength(rules, cut) == k && |cut| == k + 1
    ensures !IsIPv4(Join(cut, '.'))
  {
    HostRoundTrip(cut);
    if IsDigits(Last(cut)) { NumericEndsInOneLabel(rules, cut); }
  }

  /** On a host `normaliseHost` is stable for, only the normal form counts. */
  lemma OnlyNormalFormMatters(rules: seq<string>, host: string)
    requires RuleList(rules) && Normalise(Normalise(host)) == Normalise(host)
    ensures RegistrableDomain(rules, Normalise(host)) == RegistrableDomain(rules, host)
    ensures PublicSuffixOf(rules, Normalise(host)) == PublicSuffixOf(rules, host)
  {
    hide Normalise, RuleList, SuffixLength, HasEmptyLabel, Split, Join, IsIPv4, OneLabelAbove, Tail;
  }

  /** A host with a registrable domain is a label list, whose text stands for it. */
  lemma HostWithDomain(rules: seq<string>, host: string)
    requires RuleList(rules) && SpaceFree(host) && RegistrableDomain(rules, host).Some?
    ensures HostLabels(Split(Normalise(host), '.'))
    ensures Normalise(host) == Join(Split(Normalise(host), '.'), '.')
    ensures RegistrableDomain(rules, Normalise(host)) == RegistrableDomain(rules, host)
    ensures PublicSuffixOf(rules, Normalise(host)) == PublicSuffixOf(rules, host)
  {
    hide HostLabels, IsIPv4, Split, Join, Normalise, OneLabelAbove, SpaceFree, RuleList, SuffixLength, HasEmptyLabel;
    SpaceFreeIsIdempotent(host);
    OnlyNormalFormMatters(rules, host);
    LabelsOfHost(host);
    JoinSplit(Normalise(host), '.');
  }

  lemma SpaceFreeIsIdempotent(host: string)
    requires SpaceFree(host)
    ensures Normalise(Normalise(host)) == Normalise(host)
  {
    NormaliseIdempotentIff(host);
  }

  /** A registrable domain is one label above the public suffix, sits in the host at a label boundary,
      has no empty label, is not itself a suffix, and is its own registrable domain. */
  lemma RegistrableDomainLaws(rules: seq<string>, host: string, d: string)
    requires RuleList(rules) && SpaceFree(host) && RegistrableDomain(rules, host) == Some(d)
    ensures UnderDomain(Normalise(host), d)
    ensures PublicSuffixOf(rules, host).Some? && UnderDomain(d, PublicSuffixOf(rules, host).value)
    ensures |Split(d, '.')| == |Split(PublicSuffixOf(rules, host).value, '.')| + 1
    ensures !HasEmptyLabel(Split(d, '.'))
    ensures PublicSuffixOf(rules, d) == PublicSuffixOf(rules, host) != Some(d)
    ensures RegistrableDomain(rules, d) == Some(d)
  {
    hide HostLabels, SpaceFree, RuleList, SuffixLength, Split, Join, Normalise, PublicSuffixOf, RegistrableDomain,
      HasEmptyLabel, UnderDomain;
    HostWithDomain(rules, host);
    var labels := Split(Normalise(host), '.');
    var k := SuffixLength(rules, labels);
    SuffixOfHost(rules, labels);
    DomainOfHost(rules, labels);
    CutIsDomain(rules, labels, k);
    CutShape(labels, k);
  }

  lemma CutShape(labels: Labels, k: nat)
    requires HostLabels(labels) && 1 <= k < |labels|
    ensures var d, suffix := Join(Tail(labels, k + 1), '.'), Join(Tail(labels, k), '.');
            && UnderDomain(Join(labels, '.'), d) && UnderDomain(d, suffix)
            && |Split(d, '.')| == k + 1 && |Split(suffix, '.')| == k && !HasEmptyLabel(Split(d, '.'))
  {
    hide Split, Join, Normalise, UnderDomain, LabelText;
    var cut := Tail(labels, k + 1);
    TailIsHost(labels, k + 1);
    TailIsHost(labels, k);
    HostRoundTrip(cut);
    HostRoundTrip(Tail(labels, k));
    TailIsSuffix(labels, k + 1);
    assert Tail(cut, k) == Tail(labels, k);
    TailIsSuffix(cut, k);
    assert forall i :: 0 <= i < |cut| ==> Label(cut[i]);
  }
}
