/** `matchOrigin`: should this saved credential be offered on this page? */
module OriginMatch {
  import opened EditDistance
  import opened RegistrableDomains
  import opened Homoglyphs
  import opened SuffixRules
  import opened Text
  import opened Wrappers

  /** What a parsed URL contributes to the decision; `None` stands for text that does not parse. */
  datatype Url = Url(protocol: string, hostname: string)

  datatype Verdict =
    | Match(domain: string)
    | NoMatch
    | SchemeDowngrade(domain: string)
    | Confusable(savedDomain: string, pageDomain: string)
    | Unusable

  predicate IsFillable(verdict: Verdict) { verdict.Match? }

  predicate Lookalike(savedDomain: string, pageDomain: string) {
    && savedDomain != pageDomain
    && (Skeleton(savedDomain) == Skeleton(pageDomain) || Distance(savedDomain, pageDomain) == 1)
  }

  method IsConfusable(savedDomain: string, pageDomain: string) returns (confusable: bool)
    ensures confusable <==> Lookalike(savedDomain, pageDomain)
  {
    if savedDomain == pageDomain { return false; }
    var savedSkeleton := HomoglyphSkeleton(savedDomain);
    var pageSkeleton := HomoglyphSkeleton(pageDomain);
    if savedSkeleton == pageSkeleton { return true; }
    confusable := WithinOneEdit(savedDomain, pageDomain);
  }

  function MatchOrigin(rules: seq<string>, saved: Option<Url>, page: Option<Url>): Verdict
    requires RuleList(rules)
  {
    if saved.None? || page.None? then Unusable
    else
      Decide(saved.value.protocol, page.value.protocol,
             RegistrableDomain(rules, saved.value.hostname), RegistrableDomain(rules, page.value.hostname))
  }

  function Decide(savedProtocol: string, pageProtocol: string,
                  savedDomain: Option<string>, pageDomain: Option<string>): Verdict
  {
    if savedDomain.None? || pageDomain.None? then Unusable
    else if savedDomain.value == pageDomain.value then
      var savedSecure := savedProtocol == "https:";
      var pageSecure := pageProtocol == "https:";
      if savedSecure && !pageSecure then SchemeDowngrade(pageDomain.value) else Match(pageDomain.value)
    else if Lookalike(savedDomain.value, pageDomain.value) then
      Confusable(savedDomain.value, pageDomain.value)
    else NoMatch
  }

  /** The lookalike relation does not care which side was saved, and no domain resembles itself. */
  lemma LookalikeSymmetric(a: string, b: string)
    ensures Lookalike(a, b) <==> Lookalike(b, a)
    ensures !Lookalike(a, a)
  {
    DistanceSymmetric(a, b);
  }

  // ---------------------------------------------------------------- what a match means

  /** `d` is the site of `host`, said without computing it: not an address, in the host at a label
      boundary, with exactly one label more than the host's public suffix. */
  ghost predicate SiteOf(rules: seq<string>, host: string, d: string)
    requires RuleList(rules)
  {
    var n := Normalise(host);
    && !IsIPv4(n) && ':' !in n
    && UnderDomain(n, d)
    && PublicSuffixOf(rules, host).Some?
    && |Split(d, '.')| == |Split(PublicSuffixOf(rules, host).value, '.')| + 1
  }

  /** The text after a label boundary splits into the last labels. */
  lemma UnderDomainIsTail(n: string, d: string)
    requires UnderDomain(n, d)
    ensures |Split(d, '.')| <= |Split(n, '.')|
    ensures Split(d, '.') == Tail(Split(n, '.'), |Split(d, '.')|)
    ensures d == Join(Tail(Split(n, '.'), |Split(d, '.')|), '.')
  {
    hide Join, Split, Tail;
    JoinSplit(d, '.');
    if n != d {
      var front := n[..|n| - |d| - 1];
      assert n == front + ['.'] + d;
      SplitAcross(front, d, '.');
      TailOfSum(Split(front, '.'), Split(d, '.'));
    } else {
      TailOfSum([], Split(d, '.'));
      assert [] + Split(d, '.') == Split(n, '.');
    }
  }

  lemma TailOfSum(xs: Labels, ys: Labels)
    ensures Tail(xs + ys, |ys|) == ys
  {
  }

  lemma SiteIsRegistrableDomain(rules: seq<string>, host: string, d: string)
    requires RuleList(rules) && SpaceFree(host)
    ensures SiteOf(rules, host, d) <==> RegistrableDomain(rules, host) == Some(d)
  {
    if RegistrableDomain(rules, host) == Some(d) {
      RegistrableDomainLaws(rules, host, d);
    }
    if SiteOf(rules, host, d) {
      LabelsOfHost(host);
      SiteIsComputed(rules, host, Split(Normalise(host), '.'), d);
    }
  }

  lemma SiteIsComputed(rules: seq<string>, host: string, labels: Labels, d: string)
    requires RuleList(rules) && SpaceFree(host)
    requires labels == Split(Normalise(host), '.') && HostLabels(labels)
    requires !IsIPv4(Normalise(host)) && UnderDomain(Normalise(host), d)
    requires PublicSuffixOf(rules, host).Some?
    requires |Split(d, '.')| == |Split(PublicSuffixOf(rules, host).value, '.')| + 1
    ensures RegistrableDomain(rules, host) == Some(d)
  {
    hide *;
    var n := Normalise(host);
    JoinSplit(n, '.');
    SpaceFreeIsIdempotent(host);
    OnlyNormalFormMatters(rules, host);
    SuffixOfHost(rules, labels);
    var k := SuffixLength(rules, labels);
    TailIsHost(labels, k);
    HostRoundTrip(Tail(labels, k));
    TailLength(labels, k);
    UnderDomainIsTail(n, d);
    DomainOfHost(rules, labels);
  }

  lemma TailLength(labels: Labels, k: nat)
    requires k <= |labels|
    ensures |Tail(labels, k)| == k
  {
  }

  /** A fill happens exactly when page and saved item lie in one site and the page is no downgrade
      from https. */
  lemma FillMeansOneSite(rules: seq<string>, saved: Url, page: Url)
    requires RuleList(rules) && SpaceFree(saved.hostname) && SpaceFree(page.hostname)
    ensures IsFillable(MatchOrigin(rules, Some(saved), Some(page))) <==>
              && (exists d :: SiteOf(rules, saved.hostname, d) && SiteOf(rules, page.hostname, d))
              && !(saved.protocol == "https:" && page.protocol != "https:")
  {
    hide SiteOf, RegistrableDomain, SpaceFree, Lookalike;
    forall d
      ensures SiteOf(rules, saved.hostname, d) <==> RegistrableDomain(rules, saved.hostname) == Some(d)
      ensures SiteOf(rules, page.hostname, d) <==> RegistrableDomain(rules, page.hostname) == Some(d)
    {
      SiteIsRegistrableDomain(rules, saved.hostname, d);
      SiteIsRegistrableDomain(rules, page.hostname, d);
    }
    if RegistrableDomain(rules, saved.hostname).Some? {
      assert SiteOf(rules, saved.hostname, RegistrableDomain(rules, saved.hostname).value);
    }
  }

  /** What each verdict says of the two sides, in terms of their sites. */
  ghost predicate Says(rules: seq<string>, saved: Url, page: Url, verdict: Verdict)
    requires RuleList(rules)
  {
    var downgrade := saved.protocol == "https:" && page.protocol != "https:";
    match verdict
    case Match(d) => SiteOf(rules, saved.hostname, d) && SiteOf(rules, page.hostname, d) && !downgrade
    case SchemeDowngrade(d) => SiteOf(rules, saved.hostname, d) && SiteOf(rules, page.hostname, d) && downgrade
    case Confusable(s, p) =>
      && SiteOf(rules, saved.hostname, s) && SiteOf(rules, page.hostname, p)
      && s != p && (Skeleton(s) == Skeleton(p) || Distance(s, p) == 1)
    case NoMatch =>
      exists s, p ::
        && SiteOf(rules, saved.hostname, s) && SiteOf(rules, page.hostname, p)
        && s != p && Skeleton(s) != Skeleton(p) && Distance(s, p) != 1
    case Unusable =>
      (forall d :: !SiteOf(rules, saved.hostname, d)) || (forall d :: !SiteOf(rules, page.hostname, d))
  }

  lemma SitesAre(rules: seq<string>, host: string)
    requires RuleList(rules) && SpaceFree(host)
    ensures forall d :: SiteOf(rules, host, d) <==> RegistrableDomain(rules, host) == Some(d)
  {
    hide SiteOf, RegistrableDomain, SpaceFree;
    forall d ensures SiteOf(rules, host, d) <==> RegistrableDomain(rules, host) == Some(d) {
      SiteIsRegistrableDomain(rules, host, d);
    }
  }

  lemma SaysUnusable(rules: seq<string>, saved: Url, page: Url)
    requires RuleList(rules) && SpaceFree(saved.hostname) && SpaceFree(page.hostname)
    ensures Says(rules, saved, page, Unusable) <==>
            RegistrableDomain(rules, saved.hostname).None? || RegistrableDomain(rules, page.hostname).None?
  {
    hide SiteOf, RegistrableDomain, SpaceFree;
    SitesAre(rules, saved.hostname);
    SitesAre(rules, page.hostname);
    var a, b := RegistrableDomain(rules, saved.hostname), RegistrableDomain(rules, page.hostname);
    if a.Some? { assert SiteOf(rules, saved.hostname, a.value); }
    if b.Some? { assert SiteOf(rules, page.hostname, b.value); }
  }

  lemma SaysNoMatch(rules: seq<string>, saved: Url, page: Url)
    requires RuleList(rules) && SpaceFree(saved.hostname) && SpaceFree(page.hostname)
    ensures Says(rules, saved, page, NoMatch) <==>
            var a, b := RegistrableDomain(rules, saved.hostname), RegistrableDomain(rules, page.hostname);
            a.Some? && b.Some? && a != b && !Lookalike(a.value, b.value)
  {
    hide SiteOf, RegistrableDomain, SpaceFree, Skeleton, Distance;
    SitesAre(rules, saved.hostname);
    SitesAre(rules, page.hostname);
    var a, b := RegistrableDomain(rules, saved.hostname), RegistrableDomain(rules, page.hostname);
    if a.Some? && b.Some? { assert SiteOf(rules, saved.hostname, a.value) && SiteOf(rules, page.hostname, b.value); }
  }

  /** The verdict is the one that says the truth about the sites of both sides, and `Unusable` when a side
      does not parse. */
  lemma VerdictBySites(rules: seq<string>, saved: Option<Url>, page: Option<Url>, verdict: Verdict)
    requires RuleList(rules)
    requires saved.Some? && page.Some? ==> SpaceFree(saved.value.hostname) && SpaceFree(page.value.hostname)
    ensures MatchOrigin(rules, saved, page) == verdict <==>
            if saved.None? || page.None? then verdict == Unusable
            else Says(rules, saved.value, page.value, verdict)
  {
    hide Says, RegistrableDomain, Decide, SpaceFree;
    if saved.Some? && page.Some? {
      VerdictByDomains(rules, saved.value, page.value);
      SaysOfDomains(rules, saved.value, page.value, verdict);
    }
  }

  lemma SaysOfDomains(rules: seq<string>, saved: Url, page: Url, verdict: Verdict)
    requires RuleList(rules) && SpaceFree(saved.hostname) && SpaceFree(page.hostname)
    ensures Says(rules, saved, page, verdict) <==>
            Decide(saved.protocol, page.protocol,
                   RegistrableDomain(rules, saved.hostname), RegistrableDomain(rules, page.hostname)) == verdict
  {
    hide SiteOf, RegistrableDomain, SpaceFree, Skeleton, Distance, Lookalike, RuleList;
    SitesAre(rules, saved.hostname);
    SitesAre(rules, page.hostname);
    match verdict {
      case Unusable => SaysUnusable(rules, saved, page);
      case NoMatch => SaysNoMatch(rules, saved, page);
      case Confusable(s, p) => LookalikeIs(s, p);
      case _ =>
    }
  }

  lemma LookalikeIs(a: string, b: string)
    ensures Lookalike(a, b) <==> a != b && (Skeleton(a) == Skeleton(b) || Distance(a, b) == 1)
  {
  }

  /** The verdict sees a host only through its site: putting the site's own name in its place, on
      either side, changes nothing. */
  lemma SiteStandsForHost(rules: seq<string>, saved: Url, page: Url, d: string)
    requires RuleList(rules) && SpaceFree(saved.hostname) && SpaceFree(page.hostname)
    ensures SiteOf(rules, saved.hostname, d) ==>
              MatchOrigin(rules, Some(saved.(hostname := d)), Some(page)) == MatchOrigin(rules, Some(saved), Some(page))
    ensures SiteOf(rules, page.hostname, d) ==>
              MatchOrigin(rules, Some(saved), Some(page.(hostname := d))) == MatchOrigin(rules, Some(saved), Some(page))
  {
    hide *;
    VerdictByDomains(rules, saved, page);
    VerdictByDomains(rules, saved.(hostname := d), page);
    VerdictByDomains(rules, saved, page.(hostname := d));
    SiteIsRegistrableDomain(rules, saved.hostname, d);
    SiteIsRegistrableDomain(rules, page.hostname, d);
    if RegistrableDomain(rules, saved.hostname) == Some(d) { RegistrableDomainLaws(rules, saved.hostname, d); }
    if RegistrableDomain(rules, page.hostname) == Some(d) { RegistrableDomainLaws(rules, page.hostname, d); }
  }

  lemma VerdictByDomains(rules: seq<string>, saved: Url, page: Url)
    requires RuleList(rules)
    ensures MatchOrigin(rules, Some(saved), Some(page))
         == Decide(saved.protocol, page.protocol,
                   RegistrableDomain(rules, saved.hostname), RegistrableDomain(rules, page.hostname))
  {
    hide RuleList, RegistrableDomain, Decide;
  }

  /** Every verdict but the downgrade reads the same from both sides. */
  lemma VerdictSymmetric(rules: seq<string>, saved: Option<Url>, page: Option<Url>)
    requires RuleList(rules)
    ensures var there, back := MatchOrigin(rules, saved, page), MatchOrigin(rules, page, saved);
            && (there.Unusable? <==> back.Unusable?)
            && (there.NoMatch? <==> back.NoMatch?)
            && (there.Confusable? <==> back.Confusable?)
            && (there.SchemeDowngrade? ==> back == Match(there.domain))
  {
    hide RegistrableDomain, Lookalike;
    if saved.Some? && page.Some? {
      var a, b := RegistrableDomain(rules, saved.value.hostname), RegistrableDomain(rules, page.value.hostname);
      if a.Some? && b.Some? { LookalikeSymmetric(a.value, b.value); }
    }
  }
}
