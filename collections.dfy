/**
 * The .NET collections the core enumerates.
 *
 * A `HashSet` that the source enumerates is a duplicate-free sequence listing its elements in
 * enumeration order; a `Dictionary` that the source enumerates is its keys in enumeration order
 * together with the key/value map. Sets and dictionaries that the source only queries are plain
 * Dafny `set`s and `map`s.
 */
module Collections {
  import opened Wrappers

  predicate NoDuplicates<T(==)>(s: seq<T>) {
    forall i, j :: 0 <= i < j < |s| ==> s[i] != s[j]
  }

  type HashSet<T(==)> = s: seq<T> | NoDuplicates(s) witness []

  function Elements<T>(s: seq<T>): set<T> {
    set x | x in s
  }

  /** Enumerable.ToHashSet: keeps the first occurrence of every element, in order. */
  function ToHashSet<T(==)>(s: seq<T>): (r: HashSet<T>)
    ensures Elements(r) == Elements(s)
    ensures |r| <= |s|
    ensures NoDuplicates(s) ==> r == s
  {
    if s == [] then []
    else
      var init := ToHashSet(s[..|s| - 1]);
      var last := s[|s| - 1];
      assert s == s[..|s| - 1] + [last];
      assert Elements(s) == Elements(s[..|s| - 1]) + {last};
      if last in init then init else init + [last]
  }

  /** Keeps the elements satisfying `p`, in order (Enumerable.Where). */
  function Filter<T>(s: seq<T>, p: T -> bool): (r: seq<T>)
    ensures |r| <= |s|
    ensures Elements(r) == set x | x in s && p(x)
    ensures IsSubsequence(r, s)
  {
    if s == [] then []
    else
      var rest := Filter(s[1..], p);
      assert s == [s[0]] + s[1..];
      assert Elements(s) == {s[0]} + Elements(s[1..]);
      if p(s[0]) then
        assert ([s[0]] + rest)[1..] == rest;
        assert Elements([s[0]] + rest) == {s[0]} + Elements(rest);
        [s[0]] + rest
      else
        SubsequenceOfTail(rest, s);
        rest
  }

  /** Filter keeps every copy of a satisfying element and no copy of any other. */
  lemma {:induction false} FilterMultiset<T>(s: seq<T>, p: T -> bool)
    ensures forall x :: x in s ==> multiset(Filter(s, p))[x] == if p(x) then multiset(s)[x] else 0
  {
    if s != [] {
      var rest := Filter(s[1..], p);
      FilterMultiset(s[1..], p);
      assert s == [s[0]] + s[1..];
      assert multiset(s) == multiset{s[0]} + multiset(s[1..]);
      assert multiset(Filter(s, p)) == if p(s[0]) then multiset{s[0]} + multiset(rest) else multiset(rest) by {
        if p(s[0]) {
          assert Filter(s, p) == [s[0]] + rest;
        }
      }
      forall x | x in s ensures multiset(Filter(s, p))[x] == if p(x) then multiset(s)[x] else 0 {
        if x !in s[1..] {
          assert x !in Elements(rest);
        }
      }
    }
  }

  /** Filtering with a predicate every element satisfies keeps the whole sequence. */
  lemma {:induction false} FilterKeepsAll<T>(s: seq<T>, p: T -> bool)
    requires forall x :: x in s ==> p(x)
    ensures Filter(s, p) == s
  {
    if s != [] {
      FilterKeepsAll(s[1..], p);
    }
  }

  /** Filtering with two predicates that agree on the elements gives the same sequence. */
  lemma {:induction false} FilterSameAs<T>(s: seq<T>, p: T -> bool, q: T -> bool)
    requires forall x :: x in s ==> p(x) == q(x)
    ensures Filter(s, p) == Filter(s, q)
  {
    if s != [] {
      assert forall x :: x in s[1..] ==> x in s;
      FilterSameAs(s[1..], p, q);
    }
  }

  /** `a` lists some of the elements of `b`, in their order in `b`. */
  predicate IsSubsequence<T(==)>(a: seq<T>, b: seq<T>)
    decreases |b|
  {
    if a == [] then true
    else if b == [] then false
    else if a[0] == b[0] then IsSubsequence(a[1..], b[1..])
    else IsSubsequence(a, b[1..])
  }

  lemma {:induction false} SubsequenceOfTail<T>(a: seq<T>, b: seq<T>)
    requires b != [] && IsSubsequence(a, b[1..])
    ensures IsSubsequence(a, b)
    decreases |b|, 0
  {
    if a != [] && a[0] == b[0] {
      SubsequenceDropHead(a, b[1..]);
    }
  }

  lemma {:induction false} SubsequenceDropHead<T>(a: seq<T>, b: seq<T>)
    requires a != [] && IsSubsequence(a, b)
    ensures IsSubsequence(a[1..], b)
    decreases |b|, 1
  {
    if a[0] == b[0] {
      if b[1..] != [] || a[1..] == [] {
        if a[1..] != [] { SubsequenceOfTail(a[1..], b); }
      }
    } else {
      SubsequenceDropHead(a, b[1..]);
      SubsequenceOfTail(a[1..], b);
    }
  }

  lemma {:induction false} FilterNoDuplicates<T>(s: seq<T>, p: T -> bool)
    requires NoDuplicates(s)
    ensures NoDuplicates(Filter(s, p))
  {
    if s != [] {
      FilterNoDuplicates(s[1..], p);
      var rest := Filter(s[1..], p);
      assert s[0] !in s[1..];
      assert s[0] !in Elements(s[1..]);
      assert s[0] !in Elements(rest);
      if p(s[0]) {
        var r := [s[0]] + rest;
        forall i, j | 0 <= i < j < |r| ensures r[i] != r[j] {
          if i == 0 { assert r[j] == rest[j - 1]; assert r[j] in rest; }
          else { assert r[i] == rest[i - 1] && r[j] == rest[j - 1]; }
        }
      }
    }
  }

  /** Enumerable.FirstOrDefault(p): the first element satisfying `p`, if there is one. */
  function FirstMatch<T(==)>(s: seq<T>, p: T -> bool): (r: Option<T>)
    ensures r.None? <==> forall i :: 0 <= i < |s| ==> !p(s[i])
    ensures r.Some? ==> exists i :: 0 <= i < |s| && s[i] == r.value && p(s[i]) &&
                                    forall j :: 0 <= j < i ==> !p(s[j])
  {
    if s == [] then None
    else if p(s[0]) then Some(s[0])
    else
      var r := FirstMatch(s[1..], p);
      assert forall i :: 1 <= i < |s| ==> s[i] == s[1..][i - 1];
      if r.Some? then
        var k :| 0 <= k < |s[1..]| && s[1..][k] == r.value && p(s[1..][k]) &&
                 forall j :: 0 <= j < k ==> !p(s[1..][j]);
        assert s[k + 1] == r.value;
        assert forall j :: 0 <= j < k + 1 ==> !p(s[j]) by {
          forall j | 0 <= j < k + 1 ensures !p(s[j]) {
            if j > 0 { assert s[j] == s[1..][j - 1]; }
          }
        }
        r
      else r
  }

  /** The first element of the `p`-elements satisfying `q` is the first element satisfying both. */
  lemma {:induction false} FirstMatchOfFilter<T>(s: seq<T>, p: T -> bool, q: T -> bool)
    ensures FirstMatch(Filter(s, p), q) == FirstMatch(s, x => p(x) && q(x))
  {
    if s != [] {
      FirstMatchOfFilter(s[1..], p, q);
      if p(s[0]) {
        var rest := Filter(s[1..], p);
        assert Filter(s, p) == [s[0]] + rest;
        assert ([s[0]] + rest)[1..] == rest;
      }
    }
  }

  /**
   * Enumerable.SingleOrDefault(p): nothing when no element satisfies `p`, the one element when
   * exactly one does; a second match throws, modelled as MoreThanOneElement.
   */
  function SingleOrDefault<T(==)>(s: seq<T>, p: T -> bool): (r: Result<Option<T>>)
    ensures r == Ok(None) <==> forall i :: 0 <= i < |s| ==> !p(s[i])
    ensures r.Ok? && r.value.Some? ==>
      exists i :: 0 <= i < |s| && s[i] == r.value.value && p(s[i]) &&
                  forall j :: 0 <= j < |s| && j != i ==> !p(s[j])
    ensures r.Err? ==> r.error == MoreThanOneElement
    ensures r.Err? ==> exists i, j :: 0 <= i < j < |s| && p(s[i]) && p(s[j])
  {
    if s == [] then Ok(None)
    else
      var rest := SingleOrDefault(s[1..], p);
      assert forall i :: 1 <= i < |s| ==> s[i] == s[1..][i - 1];
      if !p(s[0]) then
        if rest.Ok? && rest.value.Some? then
          var k :| 0 <= k < |s[1..]| && s[1..][k] == rest.value.value && p(s[1..][k]) &&
                   forall j :: 0 <= j < |s[1..]| && j != k ==> !p(s[1..][j]);
          assert s[k + 1] == rest.value.value;
          assert forall j :: 0 <= j < |s| && j != k + 1 ==> !p(s[j]) by {
            forall j | 0 <= j < |s| && j != k + 1 ensures !p(s[j]) {
              if j > 0 { assert s[j] == s[1..][j - 1]; }
            }
          }
          rest
        else if rest.Err? then
          var a, b :| 0 <= a < b < |s[1..]| && p(s[1..][a]) && p(s[1..][b]);
          assert s[a + 1] == s[1..][a] && s[b + 1] == s[1..][b];
          rest
        else
          assert forall j :: 0 <= j < |s| ==> !p(s[j]) by {
            forall j | 0 <= j < |s| ensures !p(s[j]) {
              if j > 0 { assert s[j] == s[1..][j - 1]; }
            }
          }
          rest
      else if rest == Ok(None) then
        assert forall j :: 0 <= j < |s| && j != 0 ==> !p(s[j]) by {
          forall j | 0 <= j < |s| && j != 0 ensures !p(s[j]) {
            assert s[j] == s[1..][j - 1];
          }
        }
        Ok(Some(s[0]))
      else
        var b :| 0 <= b < |s[1..]| && p(s[1..][b]);
        assert s[b + 1] == s[1..][b];
        Err(MoreThanOneElement)
  }

  /** Mapping keeps the subsequence relation. */
  lemma {:induction false} MapSubsequence<T, U>(f: T -> U, a: seq<T>, b: seq<T>)
    requires IsSubsequence(a, b)
    ensures IsSubsequence(Map(f, a), Map(f, b))
    decreases |b|
  {
    if a != [] {
      assert Map(f, b)[1..] == Map(f, b[1..]);
      if a[0] == b[0] {
        assert Map(f, a)[1..] == Map(f, a[1..]);
        MapSubsequence(f, a[1..], b[1..]);
      } else {
        MapSubsequence(f, a, b[1..]);
        SubsequenceOfTail(Map(f, a), Map(f, b));
      }
    }
  }

  /** Enumerable.Select. */
  function Map<T, U>(f: T -> U, s: seq<T>): (r: seq<U>)
    ensures |r| == |s|
    ensures forall i :: 0 <= i < |s| ==> r[i] == f(s[i])
  {
    seq(|s|, i requires 0 <= i < |s| => f(s[i]))
  }

  lemma MapElements<T, U>(f: T -> U, s: seq<T>)
    ensures Elements(Map(f, s)) == set x | x in s :: f(x)
  {
    var r := Map(f, s);
    forall y | y in Elements(r) ensures y in set x | x in s :: f(x) {
      var i :| 0 <= i < |r| && r[i] == y;
      assert s[i] in s;
    }
    forall x | x in s ensures f(x) in Elements(r) {
      var i :| 0 <= i < |s| && s[i] == x;
      assert r[i] == f(x);
    }
  }

  /** The first position of an element of a sequence. */
  function IndexOf<T(==)>(s: seq<T>, x: T): (i: nat)
    requires x in s
    ensures i < |s| && s[i] == x
    ensures forall j :: 0 <= j < i ==> s[j] != x
  {
    if s[0] == x then 0 else 1 + IndexOf(s[1..], x)
  }

  /** Enumerable.SelectMany with the identity selector. */
  function Flatten<T>(ss: seq<seq<T>>): (r: seq<T>)
  {
    if ss == [] then [] else ss[0] + Flatten(ss[1..])
  }

  function SumOfLengths<T>(ss: seq<seq<T>>): nat {
    if ss == [] then 0 else |ss[0]| + SumOfLengths(ss[1..])
  }

  lemma {:induction false} FlattenLength<T>(ss: seq<seq<T>>)
    ensures |Flatten(ss)| == SumOfLengths(ss)
  {
    if ss != [] { FlattenLength(ss[1..]); }
  }

  lemma {:induction false} FlattenMember<T>(ss: seq<seq<T>>, x: T)
    ensures x in Flatten(ss) <==> exists i :: 0 <= i < |ss| && x in ss[i]
  {
    if ss != [] {
      FlattenMember(ss[1..], x);
      if x in Flatten(ss) && x !in ss[0] {
        var i :| 0 <= i < |ss[1..]| && x in ss[1..][i];
        assert x in ss[i + 1];
      }
      if exists i :: 0 <= i < |ss| && x in ss[i] {
        var i :| 0 <= i < |ss| && x in ss[i];
        if i > 0 { assert x in ss[1..][i - 1]; }
      }
    }
  }

  lemma {:induction false} FlattenAppend<T>(ss: seq<seq<T>>, ts: seq<seq<T>>)
    ensures Flatten(ss + ts) == Flatten(ss) + Flatten(ts)
  {
    if ss != [] {
      assert (ss + ts)[1..] == ss[1..] + ts;
      FlattenAppend(ss[1..], ts);
    } else {
      assert ss + ts == ts;
    }
  }

  /** The `i`th list sits in the flattening between the lists before it and those after it. */
  lemma FlattenAt<T>(ss: seq<seq<T>>, i: nat)
    requires i < |ss|
    ensures Flatten(ss) == Flatten(ss[..i]) + (ss[i] + Flatten(ss[i + 1..]))
  {
    var rest := ss[i..];
    assert ss == ss[..i] + rest;
    FlattenAppend(ss[..i], rest);
    assert rest[0] == ss[i] && rest[1..] == ss[i + 1..];
    assert Flatten(rest) == ss[i] + Flatten(ss[i + 1..]);
  }

  /** The `i`th list is the slice of the flattening that starts after the lengths of the lists before it. */
  lemma FlattenSegment<T>(ss: seq<seq<T>>, i: nat)
    requires i < |ss|
    ensures SumOfLengths(ss[..i]) + |ss[i]| <= |Flatten(ss)|
    ensures Flatten(ss)[SumOfLengths(ss[..i])..SumOfLengths(ss[..i]) + |ss[i]|] == ss[i]
  {
    FlattenAt(ss, i);
    FlattenLength(ss[..i]);
  }

  /** A dictionary in enumeration order: the keys, and the value stored for each. */
  datatype Dict<K, V> = Dict(keys: seq<K>, values: map<K, V>) {
    ghost predicate Valid() {
      NoDuplicates(keys) && Elements(keys) == values.Keys
    }

    /** The indexer `d[k] = v`: an existing key keeps its position, a new key goes last. */
    function Put(k: K, v: V): (r: Dict<K, V>)
      requires Valid()
      ensures r.Valid()
      ensures r.values == values[k := v]
      ensures k in values ==> r.keys == keys
      ensures k !in values ==> r.keys == keys + [k]
    {
      if k in values then Dict(keys, values[k := v])
      else
        assert k !in keys;
        Dict(keys + [k], values[k := v])
    }
  }

  function EmptyDict<K, V>(): (r: Dict<K, V>)
    ensures r.Valid() && r.keys == [] && r.values == map[]
  {
    Dict([], map[])
  }

  /**
   * Enumerable.ToDictionary: one entry per element, in element order; a key produced twice
   * throws, modelled as DuplicateKey.
   */
  function ToDictionary<T, K, V>(xs: seq<T>, key: T -> K, value: T -> V): (r: Result<Dict<K, V>>)
    ensures r.Ok? <==> NoDuplicates(Map(key, xs))
    ensures r.Ok? ==> r.value.Valid() && r.value.keys == Map(key, xs)
    ensures r.Ok? ==> forall x :: x in xs ==> r.value.values[key(x)] == value(x)
    ensures r.Err? ==> r.error == DuplicateKey
  {
    if xs == [] then Ok(EmptyDict())
    else
      var init := xs[..|xs| - 1];
      var last := xs[|xs| - 1];
      assert xs == init + [last];
      assert Map(key, xs) == Map(key, init) + [key(last)];
      match ToDictionary(init, key, value)
      case Err(e) => Err(e)
      case Ok(d) =>
        if key(last) in d.values then Err(DuplicateKey)
        else
          assert key(last) !in Map(key, init);
          Ok(d.Put(key(last), value(last)))
  }
}
