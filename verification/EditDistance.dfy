/** `withinOneEdit`: the greedy two-pointer test, against edit distance itself. */
module EditDistance {

  function Min(x: nat, y: nat): nat { if x <= y then x else y }

  /** Levenshtein distance by its full recurrence. Equal heads get no special treatment: all
      three alternatives are always considered. */
  function Distance(a: string, b: string): nat
    decreases |a| + |b|
  {
    if a == "" then |b|
    else if b == "" then |a|
    else
      var cost := if a[0] == b[0] then 0 else 1;
      Min(Distance(a[1..], b[1..]) + cost,
          Min(Distance(a[1..], b) + 1, Distance(a, b[1..]) + 1))
  }

  /** One insertion, deletion or substitution, said with positions rather than with a recursion. */
  ghost predicate OneEdit(a: string, b: string) {
    || (exists i :: DeletionAt(a, b, i))
    || (exists i :: DeletionAt(b, a, i))
    || (exists i :: SubstitutionAt(a, b, i))
  }

  predicate DeletionAt(long: string, short: string, i: int) {
    0 <= i < |long| && short == long[..i] + long[i + 1..]
  }

  predicate SubstitutionAt(a: string, b: string, i: int) {
    |a| == |b| && 0 <= i < |a| && a[i] != b[i] && b == a[i := b[i]]
  }

  lemma {:induction false} DistanceSymmetric(a: string, b: string)
    ensures Distance(a, b) == Distance(b, a)
    decreases |a| + |b|
  {
    if a != "" && b != "" {
      DistanceSymmetric(a[1..], b[1..]);
      DistanceSymmetric(a[1..], b);
      DistanceSymmetric(a, b[1..]);
    }
  }

  /** Dropping one character moves the distance by at most one. */
  lemma {:induction false} DropOneCharacter(a: string, b: string)
    requires a != ""
    ensures Distance(a[1..], b) <= Distance(a, b) + 1
    decreases |b|
  {
    if b != "" {
      DropOneCharacter(a, b[1..]);
    }
  }

  lemma {:induction false} LengthBound(a: string, b: string)
    ensures Distance(a, b) >= |a| - |b|
    ensures Distance(a, b) >= |b| - |a|
    decreases |a| + |b|
  {
    if a != "" && b != "" {
      LengthBound(a[1..], b[1..]);
      LengthBound(a[1..], b);
      LengthBound(a, b[1..]);
    }
  }

  /** Skipping a common head is never worse than editing it away. */
  lemma CommonHead(a: string, b: string)
    requires a != "" && b != "" && a[0] == b[0]
    ensures Distance(a, b) == Distance(a[1..], b[1..])
  {
    DropOneCharacter(b, a[1..]);
    DistanceSymmetric(a[1..], b);
    DistanceSymmetric(a[1..], b[1..]);
    DropOneCharacter(a, b[1..]);
  }

  lemma {:induction false} CommonPrefix(a: string, b: string, n: nat)
    requires n <= |a| && n <= |b| && a[..n] == b[..n]
    ensures Distance(a, b) == Distance(a[n..], b[n..])
  {
    if n > 0 {
      assert a[0] == a[..n][0] && b[0] == b[..n][0];
      CommonHead(a, b);
      assert a[1..][..n - 1] == a[..n][1..] && b[1..][..n - 1] == b[..n][1..];
      CommonPrefix(a[1..], b[1..], n - 1);
      assert a[1..][n - 1..] == a[n..] && b[1..][n - 1..] == b[n..];
    }
  }

  lemma {:induction false} ZeroMeansEqual(a: string, b: string)
    ensures Distance(a, b) == 0 <==> a == b
    decreases |a| + |b|
  {
    if a != "" && b != "" {
      if a[0] == b[0] {
        CommonHead(a, b);
        ZeroMeansEqual(a[1..], b[1..]);
        assert a == [a[0]] + a[1..] && b == [b[0]] + b[1..];
      }
    }
  }

  /** At a first mismatch, distance one leaves only three possibilities. */
  lemma AtMismatch(a: string, b: string)
    requires a != "" && b != "" && a[0] != b[0]
    ensures Distance(a, b) == 1 <==> a[1..] == b[1..] || a[1..] == b || a == b[1..]
  {
    ZeroMeansEqual(a[1..], b[1..]);
    ZeroMeansEqual(a[1..], b);
    ZeroMeansEqual(a, b[1..]);
  }

  /** The recurrence and the positional definition agree. */
  lemma {:induction false} DistanceOneIsOneEdit(a: string, b: string)
    ensures Distance(a, b) == 1 <==> OneEdit(a, b)
    decreases |a| + |b|
  {
    if a == "" || b == "" {
      if |b| == 1 && a == "" { assert DeletionAt(b, a, 0); }
      if |a| == 1 && b == "" { assert DeletionAt(a, b, 0); }
    } else if a[0] == b[0] {
      CommonHead(a, b);
      DistanceOneIsOneEdit(a[1..], b[1..]);
      OneEditUnderHead(a, b);
    } else {
      AtMismatch(a, b);
      OneEditAtMismatch(a, b);
    }
  }

  lemma DeletionUnderHead(long: string, short: string)
    requires long != "" && short != "" && long[0] == short[0]
    ensures (exists i :: DeletionAt(long, short, i)) <==> (exists i :: DeletionAt(long[1..], short[1..], i))
  {
    forall i | DeletionAt(long, short, i) ensures exists k :: DeletionAt(long[1..], short[1..], k) {
      if i > 0 {
        assert DeletionAt(long[1..], short[1..], i - 1);
      } else {
        // deleting the shared head: the next character repeats it, so deleting that one is the same
        assert short == long[1..];
        assert DeletionAt(long[1..], short[1..], 0);
      }
    }
    forall i | DeletionAt(long[1..], short[1..], i) ensures exists k :: DeletionAt(long, short, k) {
      assert long[..i + 1] == [long[0]] + long[1..][..i];
      assert short == [short[0]] + short[1..];
      assert DeletionAt(long, short, i + 1);
    }
  }

  lemma OneEditUnderHead(a: string, b: string)
    requires a != "" && b != "" && a[0] == b[0]
    ensures OneEdit(a, b) <==> OneEdit(a[1..], b[1..])
  {
    DeletionUnderHead(a, b);
    DeletionUnderHead(b, a);
    forall i | SubstitutionAt(a, b, i) ensures SubstitutionAt(a[1..], b[1..], i - 1) {
      assert b[1..] == a[1..][i - 1 := b[i]];
    }
    forall i | SubstitutionAt(a[1..], b[1..], i) ensures SubstitutionAt(a, b, i + 1) {
      assert b == [b[0]] + b[1..] && a == [a[0]] + a[1..];
    }
  }

  lemma OneEditAtMismatch(a: string, b: string)
    requires a != "" && b != "" && a[0] != b[0]
    ensures OneEdit(a, b) <==> a[1..] == b[1..] || a[1..] == b || a == b[1..]
  {
    if a[1..] == b[1..] { assert b == [b[0]] + b[1..]; assert SubstitutionAt(a, b, 0); }
    if a[1..] == b { assert DeletionAt(a, b, 0); }
    if a == b[1..] { assert DeletionAt(b, a, 0); }
    forall i | DeletionAt(a, b, i) ensures a[1..] == b { assert i == 0; }
    forall i | DeletionAt(b, a, i) ensures a == b[1..] { assert i == 0; }
    forall i | SubstitutionAt(a, b, i) ensures a[1..] == b[1..] { assert i == 0; }
  }

  /** The greedy step loses nothing: once the first mismatch is consumed, only equality of what is
      left can make the distance one. */
  lemma FirstMismatch(shorter: string, longer: string, i: nat)
    requires |shorter| <= |longer| <= |shorter| + 1
    requires i < |shorter| && shorter[..i] == longer[..i] && shorter[i] != longer[i]
    ensures Distance(shorter, longer) == 1 <==>
              shorter[if |shorter| == |longer| then i + 1 else i..] == longer[i + 1..]
  {
    CommonPrefix(shorter, longer, i);
    var a, b := shorter[i..], longer[i..];
    AtMismatch(a, b);
    assert a[1..] == shorter[i + 1..] && b[1..] == longer[i + 1..];
    assert |a[1..]| != |b|;
  }

  lemma EqualTails(a: string, b: string, i: nat, j: nat)
    requires i < |a| && j < |b|
    ensures a[i..] == b[j..] <==> a[i] == b[j] && a[i + 1..] == b[j + 1..]
  {
    assert a[i..] == [a[i]] + a[i + 1..];
    assert b[j..] == [b[j]] + b[j + 1..];
  }

  /** The source's loop, over the shorter and the longer string. */
  method WithinOneEdit(a: string, b: string) returns (within: bool)
    ensures within <==> Distance(a, b) == 1
  {
    ZeroMeansEqual(a, b);
    LengthBound(a, b);
    if a == b { return false; }
    if |a| - |b| > 1 || |b| - |a| > 1 { return false; }
    var shorter, longer := if |a| <= |b| then a else b, if |a| <= |b| then b else a;
    DistanceSymmetric(a, b);
    within := OneEditLoop(shorter, longer);
  }

  /** The two-pointer loop of `withinOneEdit`, on distinct strings already in length order. */
  method OneEditLoop(shorter: string, longer: string) returns (within: bool)
    requires shorter != longer && |shorter| <= |longer| <= |shorter| + 1
    ensures within <==> Distance(shorter, longer) == 1
  {
    var i, j, edits := 0, 0, 0;
    ghost var d := Distance(shorter, longer);
    while i < |shorter| && j < |longer|
      invariant 0 <= i <= |shorter| && 0 <= j <= |longer| && 0 <= edits <= 1
      invariant d == Distance(shorter, longer)
      invariant edits == 0 ==> i == j && shorter[..i] == longer[..j]
      invariant edits == 1 ==> j - i == |longer| - |shorter|
      invariant edits == 1 ==> (d == 1 <==> shorter[i..] == longer[j..])
    {
      EqualTails(shorter, longer, i, j);
      if shorter[i] == longer[j] {
        i, j := i + 1, j + 1;
      } else {
        edits := edits + 1;
        if edits > 1 { return false; }
        FirstMismatch(shorter, longer, i);
        if |shorter| == |longer| { i := i + 1; }
        j := j + 1;
      }
    }
    if edits == 0 {
      CommonPrefix(shorter, longer, i);
    }
    return edits + (|longer| - j) + (|shorter| - i) <= 1;
  }
}
