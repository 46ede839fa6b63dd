/** JavaScript's `Map` with string keys: insertion order, and `set` on a present key keeping its place. */
module OrderedMap {
  import opened Wrappers

  type OMap<V> = seq<(string, V)>

  predicate HasKey<V>(m: OMap<V>, k: string) {
    exists i :: 0 <= i < |m| && m[i].0 == k
  }

  function Get<V>(m: OMap<V>, k: string): Option<V> {
    if m == [] then None
    else if m[0].0 == k then Some(m[0].1)
    else Get(m[1..], k)
  }

  /** `m.get(k) ?? ''`. */
  function GetOrEmpty(m: OMap<string>, k: string): string {
    var found := Get(m, k);
    if found.Some? then found.value else ""
  }

  function Set<V>(m: OMap<V>, k: string, v: V): OMap<V> {
    if m == [] then [(k, v)]
    else if m[0].0 == k then [(k, v)] + m[1..]
    else [m[0]] + Set(m[1..], k, v)
  }

  /** `new Map(entries)`: later entries win. */
  function MapOf<V>(entries: seq<(string, V)>): OMap<V> {
    if entries == [] then []
    else
      var n := |entries| - 1;
      Set(MapOf(entries[..n]), entries[n].0, entries[n].1)
  }

  ghost predicate Distinct<V>(m: seq<(string, V)>) {
    forall i, j :: 0 <= i < j < |m| ==> m[i].0 != m[j].0
  }

  lemma {:induction false} GetAfterSet<V>(m: OMap<V>, k: string, v: V, other: string)
    ensures Get(Set(m, k, v), other) == if other == k then Some(v) else Get(m, other)
  {
    if m != [] && m[0].0 != k {
      GetAfterSet(m[1..], k, v, other);
      assert Set(m, k, v)[1..] == Set(m[1..], k, v);
    } else if m != [] {
      assert Set(m, k, v)[1..] == m[1..];
    }
  }

  lemma {:induction false} GetNone<V>(m: OMap<V>, k: string)
    requires Get(m, k).None?
    ensures !HasKey(m, k)
  {
    if m != [] {
      GetNone(m[1..], k);
      forall i | 0 <= i < |m| ensures m[i].0 != k {
        if i > 0 { assert m[1..][i - 1].0 != k; }
      }
    }
  }

  lemma {:induction false} GetSome<V>(m: OMap<V>, k: string)
    requires Get(m, k).Some?
    ensures HasKey(m, k) && (k, Get(m, k).value) in m
  {
    if m[0].0 != k {
      GetSome(m[1..], k);
      assert (k, Get(m, k).value) in m;
    }
    var i :| 0 <= i < |m| && m[i] == (k, Get(m, k).value);
    assert m[i].0 == k;
  }

  /** In distinct entries every entry is found under its key. */
  lemma {:induction false} GetAt<V>(entries: seq<(string, V)>, i: nat)
    requires Distinct(entries) && i < |entries|
    ensures Get(entries, entries[i].0) == Some(entries[i].1)
  {
    if i > 0 {
      assert entries[0].0 != entries[i].0;
      assert entries[1..][i - 1] == entries[i];
      GetAt(entries[1..], i - 1);
    }
  }

  lemma {:induction false} SetKeys<V>(m: OMap<V>, k: string, v: V, i: nat)
    requires i < |Set(m, k, v)|
    ensures Set(m, k, v)[i] == (k, v) || Set(m, k, v)[i] in m
  {
    if m != [] && m[0].0 != k && i > 0 { SetKeys(m[1..], k, v, i - 1); }
  }

  lemma {:induction false} SetDistinct<V>(m: OMap<V>, k: string, v: V)
    requires Distinct(m)
    ensures Distinct(Set(m, k, v))
  {
    if m != [] && m[0].0 != k {
      var rest := Set(m[1..], k, v);
      SetDistinct(m[1..], k, v);
      forall j | 0 <= j < |rest| ensures rest[j].0 != m[0].0 {
        SetKeys(m[1..], k, v, j);
        if rest[j] in m[1..] {
          var at :| 0 <= at < |m| - 1 && m[1..][at] == rest[j];
          assert m[at + 1] == rest[j];
        }
      }
    }
  }

  lemma {:induction false} MapOfDistinct<V>(entries: seq<(string, V)>)
    ensures Distinct(MapOf(entries))
  {
    if entries != [] {
      var n := |entries| - 1;
      MapOfDistinct(entries[..n]);
      SetDistinct(MapOf(entries[..n]), entries[n].0, entries[n].1);
    }
  }

  /** Every pair of the map is one of the entries. */
  lemma {:induction false} MapOfMember<V>(entries: seq<(string, V)>, i: nat)
    requires i < |MapOf(entries)|
    ensures MapOf(entries)[i] in entries
  {
    var n := |entries| - 1;
    var before := MapOf(entries[..n]);
    SetKeys(before, entries[n].0, entries[n].1, i);
    if MapOf(entries)[i] in before {
      var at :| 0 <= at < |before| && before[at] == MapOf(entries)[i];
      MapOfMember(entries[..n], at);
    } else {
      assert entries[n] in entries;
    }
  }

  /** Entries that never disagree about a key are looked up by it, however often it is repeated. */
  lemma {:induction false} MapOfAgrees<V>(entries: seq<(string, V)>, k: string, v: V)
    requires forall i :: 0 <= i < |entries| && entries[i].0 == k ==> entries[i].1 == v
    ensures Get(MapOf(entries), k) == if HasKey(entries, k) then Some(v) else None
  {
    if entries != [] {
      var n := |entries| - 1;
      MapOfAgrees(entries[..n], k, v);
      GetAfterSet(MapOf(entries[..n]), entries[n].0, entries[n].1, k);
      if HasKey(entries[..n], k) {
        var i :| 0 <= i < n && entries[..n][i].0 == k;
        assert entries[i].0 == k;
      } else if entries[n].0 != k {
        forall i | 0 <= i < |entries| ensures entries[i].0 != k {
          if i < n { assert entries[..n][i].0 != k; }
        }
      }
    }
  }
}
