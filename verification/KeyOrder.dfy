/**
 * The order in which `Object.keys` lists the keys of an ordinary object:
 * array indices (canonical decimal strings of integers below 2^32 - 1)
 * first, in ascending numeric order, then every other string key in
 * insertion order (section 10.1.11.1, OrdinaryOwnPropertyKeys, of
 * ECMA-262). A role map keeps its entries in insertion order;
 * `Enumerated` is the order in which a `for`, `Object.keys` or
 * `Object.entries` walk over it meets them.
 */
module KeyOrder {
  import opened Wrappers
  import opened RoleMaps

  predicate IsDigit(c: char)
  {
    '0' <= c <= '9'
  }

  predicate AllDigits(s: string)
  {
    forall i :: 0 <= i < |s| ==> IsDigit(s[i])
  }

  /** The number a string of decimal digits denotes. */
  function DigitsValue(s: string): nat
    requires AllDigits(s)
  {
    if |s| == 0 then 0 else 10 * DigitsValue(s[..|s| - 1]) + (s[|s| - 1] as int - '0' as int)
  }

  function Pow10(n: nat): (r: nat)
    ensures r > 0
  {
    if n == 0 then 1 else 10 * Pow10(n - 1)
  }

  /** An array index: the canonical decimal form of an integer in [0, 2^32 - 1). */
  predicate IsArrayIndex(k: string)
  {
    |k| > 0 && AllDigits(k) && (|k| > 1 ==> k[0] != '0') && DigitsValue(k) < 0xFFFF_FFFF
  }

  /** The numeric value of an array index key; 0 for any other key. */
  function Index(k: string): nat
  {
    if IsArrayIndex(k) then DigitsValue(k) else 0
  }

  lemma {:induction false} DigitsBelow(s: string)
    requires AllDigits(s)
    ensures DigitsValue(s) < Pow10(|s|)
    decreases |s|
  {
    if |s| > 0 {
      DigitsBelow(s[..|s| - 1]);
    }
  }

  lemma {:induction false} DigitsAtLeast(s: string)
    requires AllDigits(s) && |s| > 0 && s[0] != '0'
    ensures DigitsValue(s) >= Pow10(|s| - 1)
    decreases |s|
  {
    if |s| > 1 {
      DigitsAtLeast(s[..|s| - 1]);
    }
  }

  /** Two digit strings of one length with one value are the same string. */
  lemma {:induction false} SameLengthDigits(a: string, b: string)
    requires AllDigits(a) && AllDigits(b) && |a| == |b| && DigitsValue(a) == DigitsValue(b)
    ensures a == b
    decreases |a|
  {
    if |a| > 0 {
      var n := |a| - 1;
      var da, db := a[n] as int - '0' as int, b[n] as int - '0' as int;
      var pa, pb := DigitsValue(a[..n]), DigitsValue(b[..n]);
      assert 10 * pa + da == 10 * pb + db;
      assert da == db && pa == pb;
      SameLengthDigits(a[..n], b[..n]);
      assert a == a[..n] + [a[n]] && b == b[..n] + [b[n]];
    }
  }

  /** Distinct array index keys have distinct values. */
  lemma IndexInjective(a: string, b: string)
    requires IsArrayIndex(a) && IsArrayIndex(b) && a != b
    ensures Index(a) != Index(b)
  {
    if |a| != |b| {
      var short, long := if |a| < |b| then a else b, if |a| < |b| then b else a;
      DigitsBelow(short);
      DigitsAtLeast(long);
      PowMonotone(|short|, |long| - 1);
    } else if DigitsValue(a) == DigitsValue(b) {
      SameLengthDigits(a, b);
    }
  }

  lemma {:induction false} PowMonotone(m: nat, n: nat)
    requires m <= n
    ensures Pow10(m) <= Pow10(n)
    decreases n
  {
    if m < n {
      PowMonotone(m, n - 1);
    }
  }

  /** The entries of `m` whose key is (or, with `index` false, is not) an array index, in order. */
  function Part(m: RoleMap, index: bool): (r: RoleMap)
    ensures forall e :: e in r <==> e in m && IsArrayIndex(e.0) == index
    decreases |m|
  {
    if |m| == 0 then []
    else
      var rest := Part(m[1..], index);
      if IsArrayIndex(m[0].0) == index then
        FreshBefore(m, rest);
        ConsDistinct(m[0], rest);
        [m[0]] + rest
      else rest
  }

  /** The first key of a role map is the key of no entry taken from the rest of it. */
  lemma FreshBefore(m: RoleMap, rest: seq<(string, nat)>)
    requires |m| > 0 && forall e :: e in rest ==> e in m[1..]
    ensures m[0].0 !in Keys(rest)
  {
    HeadFresh(m);
    forall i | 0 <= i < |rest| ensures rest[i].0 != m[0].0 {
      EntryKey(m[1..], rest[i]);
    }
  }

  lemma EntryKey(m: seq<(string, nat)>, e: (string, nat))
    requires e in m
    ensures e.0 in Keys(m)
  {
    var i :| 0 <= i < |m| && m[i] == e;
    assert Keys(m)[i] == e.0;
  }

  /** Keys ascend strictly by numeric value. */
  predicate Ascending(s: seq<(string, nat)>)
  {
    forall i, j :: 0 <= i < j < |s| ==> Index(s[i].0) < Index(s[j].0)
  }

  /** Insertion of one entry before the first entry of larger value. */
  function Insert(e: (string, nat), s: seq<(string, nat)>): (r: seq<(string, nat)>)
    ensures |r| == |s| + 1
    ensures forall x :: x in r <==> x == e || x in s
    decreases |s|
  {
    if |s| == 0 || Index(e.0) < Index(s[0].0) then [e] + s
    else
      assert s == [s[0]] + s[1..];
      [s[0]] + Insert(e, s[1..])
  }

  lemma AscendingTail(s: seq<(string, nat)>)
    requires |s| > 0 && Ascending(s)
    ensures Ascending(s[1..])
  {
    var tail := s[1..];
    forall i, j | 0 <= i < j < |tail| ensures Index(tail[i].0) < Index(tail[j].0) {
      assert tail[i] == s[i + 1] && tail[j] == s[j + 1];
    }
  }

  lemma AscendingCons(x: (string, nat), rest: seq<(string, nat)>)
    requires Ascending(rest) && forall j :: 0 <= j < |rest| ==> Index(x.0) < Index(rest[j].0)
    ensures Ascending([x] + rest)
  {
    var r := [x] + rest;
    forall i, j | 0 <= i < j < |r| ensures Index(r[i].0) < Index(r[j].0) {
      assert r[j] == rest[j - 1];
      if i > 0 {
        assert r[i] == rest[i - 1];
      }
    }
  }

  /** Inserting an entry whose value no entry shares keeps the keys ascending. */
  lemma {:induction false} InsertAscending(e: (string, nat), s: seq<(string, nat)>)
    requires Ascending(s) && forall x :: x in s ==> Index(x.0) != Index(e.0)
    ensures Ascending(Insert(e, s))
    decreases |s|
  {
    if |s| > 0 && Index(e.0) >= Index(s[0].0) {
      var tail := s[1..];
      AscendingTail(s);
      assert forall x :: x in tail ==> x in s;
      InsertAscending(e, tail);
      var rest := Insert(e, tail);
      forall j | 0 <= j < |rest| ensures Index(s[0].0) < Index(rest[j].0) {
        assert rest[j] in rest;
        if rest[j] != e {
          var k :| 0 <= k < |tail| && tail[k] == rest[j];
          assert s[k + 1] == rest[j];
        } else {
          assert s[0] in s;
        }
      }
      AscendingCons(s[0], rest);
    }
  }

  /** The values of the keys of `s` are pairwise distinct. */
  predicate DistinctIndexes(s: seq<(string, nat)>)
  {
    forall i, j :: 0 <= i < j < |s| ==> Index(s[i].0) != Index(s[j].0)
  }

  /** Insertion sort by key value. */
  function Sort(s: seq<(string, nat)>): (r: seq<(string, nat)>)
    ensures |r| == |s|
    ensures forall x :: x in r <==> x in s
    decreases |s|
  {
    if |s| == 0 then []
    else
      assert s == [s[0]] + s[1..];
      Insert(s[0], Sort(s[1..]))
  }

  /** Sorting entries whose key values are distinct makes them ascend strictly. */
  lemma {:induction false} SortAscending(s: seq<(string, nat)>)
    requires DistinctIndexes(s)
    ensures Ascending(Sort(s))
    decreases |s|
  {
    if |s| > 0 {
      var tail := s[1..];
      assert DistinctIndexes(tail) by {
        forall i, j | 0 <= i < j < |tail| ensures Index(tail[i].0) != Index(tail[j].0) {
          assert tail[i] == s[i + 1] && tail[j] == s[j + 1];
        }
      }
      SortAscending(tail);
      forall x | x in Sort(tail) ensures Index(x.0) != Index(s[0].0) {
        var k :| 0 <= k < |tail| && tail[k] == x;
        assert s[k + 1] == x;
      }
      InsertAscending(s[0], Sort(tail));
    }
  }

  /** In a role map of array index keys, the key values are distinct. */
  lemma IndexKeysDistinct(s: RoleMap)
    requires forall e :: e in s ==> IsArrayIndex(e.0)
    ensures DistinctIndexes(s)
  {
    forall i, j | 0 <= i < j < |s| ensures Index(s[i].0) != Index(s[j].0) {
      assert s[i] in s && s[j] in s;
      IndexInjective(s[i].0, s[j].0);
    }
  }

  lemma {:induction false} PartSizes(m: RoleMap)
    ensures |Part(m, true)| + |Part(m, false)| == |m|
    decreases |m|
  {
    if |m| > 0 {
      PartSizes(m[1..]);
    }
  }

  /** Ascending array index entries followed by entries of other keys have distinct keys. */
  lemma JoinedDistinct(sorted: seq<(string, nat)>, named: RoleMap)
    requires Ascending(sorted) && forall e :: e in sorted ==> IsArrayIndex(e.0)
    requires forall e :: e in named ==> !IsArrayIndex(e.0)
    ensures DistinctKeys(sorted + named)
  {
    var r := sorted + named;
    forall i, j | 0 <= i < j < |r| ensures r[i].0 != r[j].0 {
      if j < |sorted| {
        assert Index(sorted[i].0) < Index(sorted[j].0);
      } else if i >= |sorted| {
        assert r[i] == named[i - |sorted|] && r[j] == named[j - |sorted|];
      } else {
        assert r[i] == sorted[i] && sorted[i] in sorted;
        assert r[j] == named[j - |sorted|] && named[j - |sorted|] in named;
      }
    }
  }

  /**
   * The entries of a role map in `Object.keys` order: the array index keys
   * by ascending value, then the other keys in insertion order.
   */
  function Enumerated(m: RoleMap): (r: RoleMap)
    ensures |r| == |m|
    ensures forall e :: e in r <==> e in m
  {
    var indexed := Part(m, true);
    IndexKeysDistinct(indexed);
    SortAscending(indexed);
    PartSizes(m);
    JoinedDistinct(Sort(indexed), Part(m, false));
    Sort(indexed) + Part(m, false)
  }

  /** `Object.keys` lists every array index key before every other key, array indices in ascending order. */
  lemma EnumeratedOrder(m: RoleMap)
    ensures var r := Enumerated(m);
      forall i, j :: 0 <= i < j < |r| && IsArrayIndex(r[j].0) ==>
        IsArrayIndex(r[i].0) && Index(r[i].0) < Index(r[j].0)
  {
    var indexed := Part(m, true);
    var sorted := Sort(indexed);
    var named := Part(m, false);
    var r := Enumerated(m);
    IndexKeysDistinct(indexed);
    SortAscending(indexed);
    assert r == sorted + named;
    forall i, j | 0 <= i < j < |r| && IsArrayIndex(r[j].0)
      ensures IsArrayIndex(r[i].0) && Index(r[i].0) < Index(r[j].0)
    {
      assert r[i] == sorted[i] && r[j] == sorted[j];
      assert sorted[i] in sorted;
    }
  }

  lemma {:induction false} PartAppend(a: RoleMap, b: RoleMap, index: bool)
    requires DistinctKeys(a + b)
    ensures Part(a + b, index) == Part(a, index) + Part(b, index)
    decreases |a|
  {
    if |a| == 0 {
      assert a + b == b;
    } else {
      assert (a + b)[1..] == a[1..] + b;
      assert (a + b)[0] == a[0];
      PartAppend(a[1..], b, index);
    }
  }

  lemma {:induction false} PartAgain(m: RoleMap, index: bool)
    ensures Part(Part(m, index), index) == Part(m, index)
    decreases |m|
  {
    if |m| > 0 {
      PartAgain(m[1..], index);
      var rest := Part(m[1..], index);
      if IsArrayIndex(m[0].0) == index {
        var r: RoleMap := Part(m, index);
        assert r[0] == m[0] && r[1..] == rest;
      }
    }
  }

  lemma PartNone(m: RoleMap, index: bool)
    requires forall e :: e in m ==> IsArrayIndex(e.0) != index
    ensures Part(m, index) == []
  {
    if |Part(m, index)| > 0 {
      assert Part(m, index)[0] in Part(m, index);
    }
  }

  /** `Object.keys` keeps the keys that are not array indices in insertion order. */
  lemma EnumeratedNamed(m: RoleMap)
    ensures Part(Enumerated(m), false) == Part(m, false)
  {
    var indexed := Part(m, true);
    var sorted: RoleMap := Enumerated(m)[..|indexed|];
    var named := Part(m, false);
    assert Enumerated(m) == sorted + named;
    PartAppend(sorted, named, false);
    assert Sort(indexed) == sorted;
    PartNone(sorted, false);
    PartAgain(m, false);
  }

  /** In a role map, an entry's depth is the one depth its key has. */
  lemma EntryUnique(m: RoleMap, k: string, v: nat, w: nat)
    requires (k, v) in m && (k, w) in m
    ensures v == w
  {
    var i :| 0 <= i < |m| && m[i] == (k, v);
    var j :| 0 <= j < |m| && m[j] == (k, w);
  }

  /** Two role maps with the same entries look every key up alike. */
  lemma SameEntriesGet(a: RoleMap, b: RoleMap, k: string)
    requires forall e :: e in a <==> e in b
    ensures Get(a, k) == Get(b, k)
  {
    if Get(a, k).Some? {
      EntryKey(b, (k, Get(a, k).value));
      EntryUnique(b, k, Get(a, k).value, Get(b, k).value);
    } else if Get(b, k).Some? {
      EntryKey(a, (k, Get(b, k).value));
    }
  }

  /** Reordering the keys changes no lookup and no key set. */
  lemma EnumeratedGet(m: RoleMap, k: string)
    ensures Get(Enumerated(m), k) == Get(m, k)
    ensures k in Keys(Enumerated(m)) <==> k in Keys(m)
  {
    SameEntriesGet(Enumerated(m), m, k);
  }

  /** An object built as `{admin: 1}` and then given key "7" lists "7" first. */
  lemma IndexKeyFirst()
    ensures Keys(Enumerated([("admin", 1), ("7", 2)])) == ["7", "admin"]
  {
    var m: RoleMap := [("admin", 1), ("7", 2)];
    assert !IsArrayIndex("admin") by {
      assert !IsDigit("admin"[0]);
    }
    assert IsArrayIndex("7") by {
      assert DigitsValue("7"[..0]) == 0;
    }
    assert m[1..][1..] == [];
    assert Part(m, true) == [("7", 2)] by {
      assert Part(m[1..], true) == [("7", 2)];
    }
    assert Part(m, false) == [("admin", 1)] by {
      assert Part(m[1..], false) == [];
    }
  }
}
