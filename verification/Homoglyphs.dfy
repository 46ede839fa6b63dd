/** `homoglyphSkeleton`: the chained rewriting that folds ASCII lookalikes, and its normal form. */
module Homoglyphs {

  predicate PairAt(s: string, x: char, y: char, i: int) {
    0 <= i < |s| - 1 && s[i] == x && s[i + 1] == y
  }

  /** `s.includes` for a two-character sequence. */
  predicate HasPair(s: string, x: char, y: char): (has: bool)
    ensures has <==> exists i :: PairAt(s, x, y, i)
  {
    if |s| < 2 then false
    else if s[0] == x && s[1] == y then assert PairAt(s, x, y, 0); true
    else
      assert forall i :: PairAt(s[1..], x, y, i) ==> PairAt(s, x, y, i + 1);
      assert forall i :: PairAt(s, x, y, i) ==> i > 0 && PairAt(s[1..], x, y, i - 1);
      HasPair(s[1..], x, y)
  }

  /** `s.split(xy).join(z)`: left to right, without overlaps. */
  function ReplacePair(s: string, x: char, y: char, z: char): (r: string)
    ensures |r| <= |s|
    ensures |s| > 0 ==> |r| > 0
    ensures HasPair(s, x, y) ==> |r| < |s|
    ensures !HasPair(s, x, y) ==> r == s
    ensures |s| > 0 ==> r[0] == s[0] || r[0] == z
  {
    if |s| < 2 then s
    else if s[0] == x && s[1] == y then [z] + ReplacePair(s[2..], x, y, z)
    else [s[0]] + ReplacePair(s[1..], x, y, z)
  }

  /** `s.replace(/from/g, to)` for single characters. */
  function ReplaceChar(s: string, from: char, to: char): (r: string)
    ensures |r| == |s|
    ensures forall i :: 0 <= i < |s| ==> r[i] == if s[i] == from then to else s[i]
  {
    seq(|s|, i requires 0 <= i < |s| => if s[i] == from then to else s[i])
  }

  type Folding = (char, char, char)

  /** The four sequences, in the order the source applies them. */
  const HOMOGLYPH_SEQUENCES: seq<Folding> :=
    [('r', 'n', 'm'), ('v', 'v', 'w'), ('c', 'l', 'd'), ('n', 'n', 'm')]

  function Fold(s: string, foldings: seq<Folding>): string {
    if foldings == [] then s
    else
      var f := foldings[|foldings| - 1];
      ReplacePair(Fold(s, foldings[..|foldings| - 1]), f.0, f.1, f.2)
  }

  function FoldDigits(s: string): string {
    ReplaceChar(ReplaceChar(ReplaceChar(s, '1', 'l'), '0', 'o'), '5', 's')
  }

  function Skeleton(domain: string): string {
    FoldDigits(Fold(domain, HOMOGLYPH_SEQUENCES))
  }

  method HomoglyphSkeleton(domain: string) returns (folded: string)
    ensures folded == Skeleton(domain)
  {
    folded := domain;
    for i := 0 to |HOMOGLYPH_SEQUENCES|
      invariant folded == Fold(domain, HOMOGLYPH_SEQUENCES[..i])
    {
      var (x, y, z) := HOMOGLYPH_SEQUENCES[i];
      assert HOMOGLYPH_SEQUENCES[..i + 1][..i] == HOMOGLYPH_SEQUENCES[..i];
      folded := ReplacePair(folded, x, y, z);
    }
    assert HOMOGLYPH_SEQUENCES[..|HOMOGLYPH_SEQUENCES|] == HOMOGLYPH_SEQUENCES;
    folded := ReplaceChar(ReplaceChar(ReplaceChar(folded, '1', 'l'), '0', 'o'), '5', 's');
  }

  lemma FoldUnrolled(s: string)
    ensures Fold(s, HOMOGLYPH_SEQUENCES)
         == ReplacePair(ReplacePair(ReplacePair(ReplacePair(s, 'r', 'n', 'm'), 'v', 'v', 'w'), 'c', 'l', 'd'), 'n', 'n', 'm')
  {
    var h := HOMOGLYPH_SEQUENCES;
    assert h[..3][..2] == h[..2] && h[..2][..1] == h[..1] && h[..1][..0] == [];
    assert Fold(s, []) == s;
    assert Fold(s, h[..1]) == ReplacePair(s, 'r', 'n', 'm');
    assert Fold(s, h[..2]) == ReplacePair(Fold(s, h[..1]), 'v', 'v', 'w');
    assert Fold(s, h[..3]) == ReplacePair(Fold(s, h[..2]), 'c', 'l', 'd');
  }

  /** A replacement leaves no occurrence of what it replaces. */
  lemma {:induction false} ReplaceRemoves(s: string, x: char, y: char, z: char)
    requires z != x && z != y
    ensures !HasPair(ReplacePair(s, x, y, z), x, y)
    decreases |s|
  {
    if |s| >= 2 {
      var rest := if s[0] == x && s[1] == y then s[2..] else s[1..];
      ReplaceRemoves(rest, x, y, z);
      assert ReplacePair(s, x, y, z)[1..] == ReplacePair(rest, x, y, z);
    }
  }

  /** A replacement whose output is neither `p` nor `q` creates no `pq`. */
  lemma {:induction false} ReplaceCreatesNone(s: string, x: char, y: char, z: char, p: char, q: char)
    requires z != p && z != q
    requires !HasPair(s, p, q)
    ensures !HasPair(ReplacePair(s, x, y, z), p, q)
    decreases |s|
  {
    if |s| >= 2 {
      var rest := if s[0] == x && s[1] == y then s[2..] else s[1..];
      if s[0] == x && s[1] == y && |s| > 2 {
        assert s[1..][1..] == s[2..];
      }
      ReplaceCreatesNone(rest, x, y, z, p, q);
      assert ReplacePair(s, x, y, z)[1..] == ReplacePair(rest, x, y, z);
    }
  }

  /** ... and one that consumes neither keeps every `pq` there was. */
  lemma {:induction false} ReplaceKeeps(s: string, x: char, y: char, z: char, p: char, q: char)
    requires q != x && q != y && p != y
    requires HasPair(s, p, q)
    ensures HasPair(ReplacePair(s, x, y, z), p, q)
    decreases |s|
  {
    var r := ReplacePair(s, x, y, z);
    if s[0] == x && s[1] == y {
      assert !PairAt(s, p, q, 0) && !PairAt(s, p, q, 1);
      assert s[1..][1..] == s[2..];
      ReplaceKeeps(s[2..], x, y, z, p, q);
      assert r[1..] == ReplacePair(s[2..], x, y, z);
    } else if s[0] == p && s[1] == q {
      assert s[1..][0] == q;
      var tail := ReplacePair(s[1..], x, y, z);
      assert tail[0] == q by { KeepsHead(s[1..], x, y, z); }
      assert r == [p] + tail;
    } else {
      ReplaceKeeps(s[1..], x, y, z, p, q);
      assert r[1..] == ReplacePair(s[1..], x, y, z);
    }
  }

  lemma KeepsHead(s: string, x: char, y: char, z: char)
    requires |s| > 0 && s[0] != x
    ensures ReplacePair(s, x, y, z)[0] == s[0]
  {
  }

  /** What the four sequence foldings leave: none of the sequences, and `c1` exactly where it was. */
  lemma FoldNormal(s: string)
    ensures var f := Fold(s, HOMOGLYPH_SEQUENCES);
            && |f| <= |s|
            && !HasPair(f, 'r', 'n') && !HasPair(f, 'v', 'v') && !HasPair(f, 'c', 'l') && !HasPair(f, 'n', 'n')
            && (HasPair(f, 'c', '1') <==> HasPair(s, 'c', '1'))
  {
    FoldUnrolled(s);
    var a := ReplacePair(s, 'r', 'n', 'm');
    var b := ReplacePair(a, 'v', 'v', 'w');
    var c := ReplacePair(b, 'c', 'l', 'd');
    ReplaceRemoves(s, 'r', 'n', 'm');
    ReplaceRemoves(a, 'v', 'v', 'w');
    ReplaceRemoves(b, 'c', 'l', 'd');
    ReplaceRemoves(c, 'n', 'n', 'm');
    ReplaceCreatesNone(a, 'v', 'v', 'w', 'r', 'n');
    ReplaceCreatesNone(b, 'c', 'l', 'd', 'r', 'n');
    ReplaceCreatesNone(b, 'c', 'l', 'd', 'v', 'v');
    ReplaceCreatesNone(c, 'n', 'n', 'm', 'r', 'n');
    ReplaceCreatesNone(c, 'n', 'n', 'm', 'v', 'v');
    ReplaceCreatesNone(c, 'n', 'n', 'm', 'c', 'l');
    if HasPair(s, 'c', '1') {
      ReplaceKeeps(s, 'r', 'n', 'm', 'c', '1');
      ReplaceKeeps(a, 'v', 'v', 'w', 'c', '1');
      ReplaceKeeps(b, 'c', 'l', 'd', 'c', '1');
      ReplaceKeeps(c, 'n', 'n', 'm', 'c', '1');
    } else {
      ReplaceCreatesNone(s, 'r', 'n', 'm', 'c', '1');
      ReplaceCreatesNone(a, 'v', 'v', 'w', 'c', '1');
      ReplaceCreatesNone(b, 'c', 'l', 'd', 'c', '1');
      ReplaceCreatesNone(c, 'n', 'n', 'm', 'c', '1');
    }
  }

  lemma DigitsKeepPair(s: string, p: char, q: char)
    requires p !in "lo1s05" && q !in "lo1s05"
    ensures HasPair(FoldDigits(s), p, q) <==> HasPair(s, p, q)
  {
    var t := FoldDigits(s);
    assert forall i :: PairAt(s, p, q, i) <==> PairAt(t, p, q, i);
  }

  /** The normal form: no foldable sequence but `cl`, no foldable digit, never longer than the input,
      and `cl` exactly when the input had `c1`. */
  lemma SkeletonNormalForm(s: string)
    ensures var k := Skeleton(s);
            && |k| <= |s|
            && !HasPair(k, 'r', 'n') && !HasPair(k, 'v', 'v') && !HasPair(k, 'n', 'n')
            && '0' !in k && '1' !in k && '5' !in k
            && (HasPair(k, 'c', 'l') <==> HasPair(s, 'c', '1'))
  {
    FoldNormal(s);
    var f := Fold(s, HOMOGLYPH_SEQUENCES);
    var k := FoldDigits(f);
    DigitsKeepPair(f, 'r', 'n');
    DigitsKeepPair(f, 'v', 'v');
    DigitsKeepPair(f, 'n', 'n');
    assert forall i :: PairAt(k, 'c', 'l', i) <==> PairAt(f, 'c', 'l', i) || PairAt(f, 'c', '1', i);
    if HasPair(f, 'c', '1') {
      var i :| PairAt(f, 'c', '1', i);
      assert PairAt(k, 'c', 'l', i);
    }
  }

  /** The skeleton of a skeleton is that skeleton exactly when the domain has no `c1`. */
  lemma IdempotentIffNoC1(s: string)
    ensures Skeleton(Skeleton(s)) == Skeleton(s) <==> !HasPair(s, 'c', '1')
  {
    var k := Skeleton(s);
    SkeletonNormalForm(s);
    FoldUnrolled(k);
    assert ReplacePair(k, 'r', 'n', 'm') == k;
    assert ReplacePair(k, 'v', 'v', 'w') == k;
    var folded := ReplacePair(k, 'c', 'l', 'd');
    if HasPair(s, 'c', '1') {
      assert |Skeleton(k)| == |ReplacePair(folded, 'n', 'n', 'm')| < |k|;
    } else {
      assert FoldDigits(k) == k;
    }
  }

  // ---------------------------------------------------------------- what looks alike has one skeleton

  predicate EndsIn(s: string, c: char) { s != "" && s[|s| - 1] == c }

  lemma ReplaceAhead(b: string, x: char, y: char, z: char)
    ensures ReplacePair([x, y] + b, x, y, z) == [z] + ReplacePair(b, x, y, z)
  {
    assert ([x, y] + b)[2..] == b;
  }

  lemma ReplaceNotAhead(c: char, b: string, x: char, y: char, z: char)
    requires !(c == x && b != "" && b[0] == y)
    ensures ReplacePair([c] + b, x, y, z) == [c] + ReplacePair(b, x, y, z)
  {
    assert ([c] + b)[1..] == b;
  }

  /** A replacement works on both sides of a seam apart, unless the seam itself makes a pair. */
  lemma {:induction false} ReplaceAcross(a: string, b: string, x: char, y: char, z: char)
    requires !(EndsIn(a, x) && b != "" && b[0] == y)
    ensures ReplacePair(a + b, x, y, z) == ReplacePair(a, x, y, z) + ReplacePair(b, x, y, z)
    decreases |a|
  {
    hide ReplacePair, HasPair;
    if a == "" {
      NothingReplaced(x, y, z);
      assert a + b == b;
    } else if |a| >= 2 && a[0] == x && a[1] == y {
      var rest := a[2..];
      assert a == [x, y] + rest && a + b == [x, y] + (rest + b);
      ReplaceAcross(rest, b, x, y, z);
      ReplaceAhead(rest, x, y, z);
      ReplaceAhead(rest + b, x, y, z);
      Regroup([z], ReplacePair(rest, x, y, z), ReplacePair(b, x, y, z));
    } else {
      var rest := a[1..];
      assert a == [a[0]] + rest && a + b == [a[0]] + (rest + b);
      ReplaceAcross(rest, b, x, y, z);
      ReplaceNotAhead(a[0], rest, x, y, z);
      ReplaceNotAhead(a[0], rest + b, x, y, z);
      Regroup([a[0]], ReplacePair(rest, x, y, z), ReplacePair(b, x, y, z));
    }
  }

  lemma NothingReplaced(x: char, y: char, z: char)
    ensures ReplacePair("", x, y, z) == ""
  {
  }

  lemma Regroup(a: string, b: string, c: string)
    ensures a + (b + c) == (a + b) + c
  {
  }

  lemma {:induction false} ReplaceEnd(s: string, x: char, y: char, z: char, c: char)
    requires !EndsIn(s, c) && c != z
    ensures !EndsIn(ReplacePair(s, x, y, z), c)
    decreases |s|
  {
    hide ReplacePair, HasPair;
    if |s| >= 2 && s[0] == x && s[1] == y {
      assert s == [x, y] + s[2..];
      ReplaceAhead(s[2..], x, y, z);
      ReplaceEnd(s[2..], x, y, z, c);
    } else if s != "" {
      assert s == [s[0]] + s[1..];
      ReplaceNotAhead(s[0], s[1..], x, y, z);
      NothingReplaced(x, y, z);
      ReplaceEnd(s[1..], x, y, z, c);
    } else {
      NothingReplaced(x, y, z);
    }
  }

  /** Text without either character of the pair stays where it is. */
  lemma ReplaceAround(a: string, m: string, b: string, x: char, y: char, z: char)
    requires m != "" && x !in m && y !in m
    ensures ReplacePair(a + m + b, x, y, z) == ReplacePair(a, x, y, z) + m + ReplacePair(b, x, y, z)
  {
    ReplaceAcross(a + m, b, x, y, z);
    ReplaceAcross(a, m, x, y, z);
    assert ReplacePair(m, x, y, z) == m;
  }

  /** The pair in between is folded, unless what stands before it takes its first character. */
  lemma ReplaceBetween(a: string, b: string, x: char, y: char, z: char)
    requires x == y ==> !EndsIn(a, x)
    requires z != x && z != y
    ensures ReplacePair(a + [x, y] + b, x, y, z) == ReplacePair(a, x, y, z) + [z] + ReplacePair(b, x, y, z)
    ensures ReplacePair(a + [z] + b, x, y, z) == ReplacePair(a, x, y, z) + [z] + ReplacePair(b, x, y, z)
  {
    hide ReplacePair, HasPair;
    var t := [x, y] + b;
    assert a + [x, y] + b == a + t;
    ReplaceAcross(a, t, x, y, z);
    ReplaceAhead(b, x, y, z);
    ReplaceAround(a, [z], b, x, y, z);
  }

  lemma DigitsAcross(a: string, b: string)
    ensures FoldDigits(a + b) == FoldDigits(a) + FoldDigits(b)
  {
  }

  function FoldRn(s: string): string { ReplacePair(s, 'r', 'n', 'm') }
  function FoldVv(s: string): string { ReplacePair(s, 'v', 'v', 'w') }
  function FoldCl(s: string): string { ReplacePair(s, 'c', 'l', 'd') }
  function FoldNn(s: string): string { ReplacePair(s, 'n', 'n', 'm') }

  /** `rn` reads as `m`, anywhere. */
  lemma RnLooksLikeM(a: string, b: string)
    ensures Skeleton(a + "rn" + b) == Skeleton(a + "m" + b)
  {
    hide ReplacePair, HasPair;
    FoldUnrolled(a + "rn" + b);
    FoldUnrolled(a + "m" + b);
    ReplaceBetween(a, b, 'r', 'n', 'm');
  }

  /** `vv` reads as `w`, counted from the first of a row of them. */
  lemma VvLooksLikeW(a: string, b: string)
    requires !EndsIn(a, 'v')
    ensures Skeleton(a + "vv" + b) == Skeleton(a + "w" + b)
  {
    hide ReplacePair, HasPair;
    FoldUnrolled(a + "vv" + b);
    FoldUnrolled(a + "w" + b);
    ReplaceAround(a, "vv", b, 'r', 'n', 'm');
    ReplaceAround(a, "w", b, 'r', 'n', 'm');
    ReplaceEnd(a, 'r', 'n', 'm', 'v');
    ReplaceBetween(FoldRn(a), FoldRn(b), 'v', 'v', 'w');
  }

  /** `cl` reads as `d`, anywhere. */
  lemma ClLooksLikeD(a: string, b: string)
    ensures Skeleton(a + "cl" + b) == Skeleton(a + "d" + b)
  {
    hide ReplacePair, HasPair;
    FoldUnrolled(a + "cl" + b);
    FoldUnrolled(a + "d" + b);
    ReplaceAround(a, "cl", b, 'r', 'n', 'm');
    ReplaceAround(a, "d", b, 'r', 'n', 'm');
    ReplaceAround(FoldRn(a), "cl", FoldRn(b), 'v', 'v', 'w');
    ReplaceAround(FoldRn(a), "d", FoldRn(b), 'v', 'v', 'w');
    ReplaceBetween(FoldVv(FoldRn(a)), FoldVv(FoldRn(b)), 'c', 'l', 'd');
  }

  /** `nn` reads as `m`, counted from the first of a row of them. */
  lemma NnLooksLikeM(a: string, b: string)
    requires !EndsIn(a, 'n') && !EndsIn(a, 'r')
    ensures Skeleton(a + "nn" + b) == Skeleton(a + "m" + b)
  {
    hide ReplacePair, HasPair;
    FoldUnrolled(a + "nn" + b);
    FoldUnrolled(a + "m" + b);
    NnUnfolded(a, b);
    ReplaceAround(a, "m", b, 'r', 'n', 'm');
    ReplaceAround(FoldRn(a), "nn", FoldRn(b), 'v', 'v', 'w');
    ReplaceAround(FoldRn(a), "m", FoldRn(b), 'v', 'v', 'w');
    ReplaceAround(FoldVv(FoldRn(a)), "nn", FoldVv(FoldRn(b)), 'c', 'l', 'd');
    ReplaceAround(FoldVv(FoldRn(a)), "m", FoldVv(FoldRn(b)), 'c', 'l', 'd');
    ReplaceEnd(a, 'r', 'n', 'm', 'n');
    ReplaceEnd(FoldRn(a), 'v', 'v', 'w', 'n');
    ReplaceEnd(FoldVv(FoldRn(a)), 'c', 'l', 'd', 'n');
    ReplaceBetween(FoldCl(FoldVv(FoldRn(a))), FoldCl(FoldVv(FoldRn(b))), 'n', 'n', 'm');
  }

  lemma NnUnfolded(a: string, b: string)
    requires !EndsIn(a, 'r')
    ensures FoldRn(a + "m" + b) == FoldRn(a) + "m" + FoldRn(b)
    ensures FoldRn(a + "nn" + b) == FoldRn(a) + "nn" + FoldRn(b)
  {
    ReplaceAround(a, "m", b, 'r', 'n', 'm');
    ReplaceAcross(a + "nn", b, 'r', 'n', 'm');
    ReplaceAcross(a, "nn", 'r', 'n', 'm');
    assert forall i :: !PairAt("nn", 'r', 'n', i);
  }

  /** Text with no character of any sequence is passed over by the sequence foldings. */
  lemma FoldAround(a: string, m: string, b: string)
    requires m != "" && forall c :: c in m ==> c !in "rnvcl"
    ensures Fold(a + m + b, HOMOGLYPH_SEQUENCES)
         == Fold(a, HOMOGLYPH_SEQUENCES) + m + Fold(b, HOMOGLYPH_SEQUENCES)
  {
    hide ReplacePair, HasPair;
    FoldUnrolled(a + m + b);
    FoldUnrolled(a);
    FoldUnrolled(b);
    ReplaceAround(a, m, b, 'r', 'n', 'm');
    ReplaceAround(FoldRn(a), m, FoldRn(b), 'v', 'v', 'w');
    ReplaceAround(FoldVv(FoldRn(a)), m, FoldVv(FoldRn(b)), 'c', 'l', 'd');
    ReplaceAround(FoldCl(FoldVv(FoldRn(a))), m, FoldCl(FoldVv(FoldRn(b))), 'n', 'n', 'm');
  }

  lemma SkeletonAround(a: string, m: string, b: string)
    requires m != "" && forall c :: c in m ==> c !in "rnvcl"
    ensures Skeleton(a + m + b) == Skeleton(a) + FoldDigits(m) + Skeleton(b)
  {
    hide Fold, FoldDigits;
    FoldAround(a, m, b);
    var f, g := Fold(a, HOMOGLYPH_SEQUENCES), Fold(b, HOMOGLYPH_SEQUENCES);
    DigitsAcross(f + m, g);
    DigitsAcross(f, m);
  }

  /** `0` reads as `o` and `5` as `s`, anywhere. */
  lemma DigitsLookLikeLetters(a: string, b: string)
    ensures Skeleton(a + "0" + b) == Skeleton(a + "o" + b)
    ensures Skeleton(a + "5" + b) == Skeleton(a + "s" + b)
  {
    hide Skeleton;
    SkeletonAround(a, "0", b);
    SkeletonAround(a, "o", b);
    SkeletonAround(a, "5", b);
    SkeletonAround(a, "s", b);
    assert FoldDigits("0") == FoldDigits("o") == "o" && FoldDigits("5") == FoldDigits("s") == "s";
  }

  /** `1` reads as `l`, except behind a `c`, where the `l` has already been taken for half a `d`. */
  lemma OneLooksLikeL(a: string, b: string)
    requires !EndsIn(a, 'c')
    ensures Skeleton(a + "1" + b) == Skeleton(a + "l" + b)
  {
    hide ReplacePair, HasPair;
    var f, g := Fold(a, HOMOGLYPH_SEQUENCES), Fold(b, HOMOGLYPH_SEQUENCES);
    FoldAround(a, "1", b);
    LUnfolded(a, b);
    DigitsAcross(f + "1", g);
    DigitsAcross(f, "1");
    DigitsAcross(f + "l", g);
    DigitsAcross(f, "l");
    assert FoldDigits("1") == FoldDigits("l") == "l";
  }

  lemma LUnfolded(a: string, b: string)
    requires !EndsIn(a, 'c')
    ensures Fold(a + "l" + b, HOMOGLYPH_SEQUENCES) == Fold(a, HOMOGLYPH_SEQUENCES) + "l" + Fold(b, HOMOGLYPH_SEQUENCES)
  {
    hide ReplacePair, HasPair;
    FoldUnrolled(a + "l" + b);
    FoldUnrolled(a);
    FoldUnrolled(b);
    ReplaceAround(a, "l", b, 'r', 'n', 'm');
    ReplaceAround(FoldRn(a), "l", FoldRn(b), 'v', 'v', 'w');
    var x, y := FoldVv(FoldRn(a)), FoldVv(FoldRn(b));
    ReplaceEnd(a, 'r', 'n', 'm', 'c');
    ReplaceEnd(FoldRn(a), 'v', 'v', 'w', 'c');
    ReplaceAcross(x + "l", y, 'c', 'l', 'd');
    ReplaceAcross(x, "l", 'c', 'l', 'd');
    ReplaceAround(FoldCl(x), "l", FoldCl(y), 'n', 'n', 'm');
  }

  /** Nothing else is folded. */
  lemma PlainIsItsSkeleton(s: string)
    requires !HasPair(s, 'r', 'n') && !HasPair(s, 'v', 'v') && !HasPair(s, 'c', 'l') && !HasPair(s, 'n', 'n')
    requires '0' !in s && '1' !in s && '5' !in s
    ensures Skeleton(s) == s
  {
    FoldUnrolled(s);
  }
}
