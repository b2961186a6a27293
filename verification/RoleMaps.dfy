/**
 * Role maps as lib/rbac.js handles them: plain objects from role names to
 * depths, whose keys are enumerated in insertion order. A role map is a
 * sequence of (role, depth) entries with distinct roles.
 */
module RoleMaps {
  import opened Wrappers

  predicate DistinctKeys(s: seq<(string, nat)>)
  {
    forall i, j :: 0 <= i < j < |s| ==> s[i].0 != s[j].0
  }

  /** A role map: entries in key order, no role twice. */
  type RoleMap = s: seq<(string, nat)> | DistinctKeys(s) witness []

  /** `Object.keys`: the roles, in order. */
  function Keys(m: seq<(string, nat)>): (ks: seq<string>)
    ensures |ks| == |m|
    ensures forall i :: 0 <= i < |m| ==> ks[i] == m[i].0
  {
    if |m| == 0 then [] else [m[0].0] + Keys(m[1..])
  }

  /** The keys of a non-empty list: those of all but its last entry, then the last key. */
  lemma KeysSnoc(m: seq<(string, nat)>)
    requires |m| > 0
    ensures Keys(m) == Keys(m[..|m| - 1]) + [m[|m| - 1].0]
  {
  }

  /** `m[k]`: the depth stored for `k`, or None when `k` is not a key. */
  function Get(m: seq<(string, nat)>, k: string): (r: Option<nat>)
    ensures r.None? <==> k !in Keys(m)
    ensures r.Some? ==> (k, r.value) in m
  {
    if |m| == 0 then None
    else if m[0].0 == k then Some(m[0].1)
    else Get(m[1..], k)
  }

  /** In a role map, the entry at a key's position holds that key's depth. */
  lemma GetAt(m: RoleMap, i: nat)
    requires i < |m|
    ensures Get(m, m[i].0) == Some(m[i].1)
  {
    if i > 0 {
      assert m[1..][i - 1] == m[i];
      GetAt(m[1..], i - 1);
    }
  }

  /** The keys and lookups of a map with one entry in front. */
  lemma Cons(e: (string, nat), rest: seq<(string, nat)>)
    ensures Keys([e] + rest) == [e.0] + Keys(rest)
    ensures forall k :: Get([e] + rest, k) == if e.0 == k then Some(e.1) else Get(rest, k)
  {
    assert ([e] + rest)[1..] == rest;
  }

  /** An entry whose key is new can go in front of a role map. */
  lemma ConsDistinct(e: (string, nat), rest: RoleMap)
    requires e.0 !in Keys(rest)
    ensures DistinctKeys([e] + rest)
  {
    forall i, j | 0 <= i < j < |[e] + rest| ensures ([e] + rest)[i].0 != ([e] + rest)[j].0 {
      if i == 0 {
        assert ([e] + rest)[j].0 == Keys(rest)[j - 1];
      }
    }
  }

  /** The first key of a role map does not occur in the rest of it. */
  lemma HeadFresh(m: RoleMap)
    requires |m| > 0
    ensures m[0].0 !in Keys(m[1..])
  {
    forall i | 0 <= i < |m| - 1 ensures Keys(m[1..])[i] != m[0].0 {
      assert m[1..][i] == m[i + 1];
    }
  }

  /**
   * `m[k] = v`: an existing key keeps its position and gets the new depth;
   * a new key is appended.
   */
  function Put(m: RoleMap, k: string, v: nat): (r: RoleMap)
    ensures forall j :: j in Keys(r) <==> j in Keys(m) || j == k
    decreases |m|
  {
    if |m| == 0 then [(k, v)]
    else
      HeadFresh(m);
      if m[0].0 == k then
        ConsDistinct((k, v), m[1..]);
        Cons((k, v), m[1..]);
        Cons(m[0], m[1..]);
        [(k, v)] + m[1..]
      else
        var rest := Put(m[1..], k, v);
        ConsDistinct(m[0], rest);
        Cons(m[0], rest);
        Cons(m[0], m[1..]);
        [m[0]] + rest
  }

  /** Putting an existing key keeps the key order. */
  lemma {:induction false} PutKeepsOrder(m: RoleMap, k: string, v: nat)
    requires k in Keys(m)
    ensures Keys(Put(m, k, v)) == Keys(m)
    decreases |m|
  {
    var tail: RoleMap := m[1..];
    Cons(m[0], tail);
    assert m == [m[0]] + tail;
    if m[0].0 == k {
      assert Put(m, k, v) == [(k, v)] + tail;
      Cons((k, v), tail);
    } else {
      assert k in Keys(tail);
      PutKeepsOrder(tail, k, v);
      assert Put(m, k, v) == [m[0]] + Put(tail, k, v);
      Cons(m[0], Put(tail, k, v));
    }
  }

  /** Putting a new key appends it. */
  lemma {:induction false} PutAppends(m: RoleMap, k: string, v: nat)
    requires k !in Keys(m)
    ensures Put(m, k, v) == m + [(k, v)]
    decreases |m|
  {
    if |m| > 0 {
      Cons(m[0], m[1..]);
      PutAppends(m[1..], k, v);
      assert [m[0]] + (m[1..] + [(k, v)]) == m + [(k, v)];
    }
  }

  /** Putting changes the depth of the one key and no other. */
  lemma {:induction false} PutGet(m: RoleMap, k: string, v: nat)
    ensures Get(Put(m, k, v), k) == Some(v)
    ensures forall j :: j != k ==> Get(Put(m, k, v), j) == Get(m, j)
    decreases |m|
  {
    if |m| > 0 {
      Cons(m[0], m[1..]);
      assert m == [m[0]] + m[1..];
      if m[0].0 == k {
        Cons((k, v), m[1..]);
      } else {
        PutGet(m[1..], k, v);
        Cons(m[0], Put(m[1..], k, v));
      }
    }
  }

  /** `delete m[k]`: every other entry, in order. */
  function Without(m: RoleMap, k: string): (r: RoleMap)
    ensures forall j :: j in Keys(r) <==> j in Keys(m) && j != k
    decreases |m|
  {
    if |m| == 0 then []
    else
      HeadFresh(m);
      Cons(m[0], m[1..]);
      if m[0].0 == k then m[1..]
      else
        var rest := Without(m[1..], k);
        ConsDistinct(m[0], rest);
        Cons(m[0], rest);
        [m[0]] + rest
  }

  /** Deleting a key changes no other key's depth. */
  lemma {:induction false} WithoutEffect(m: RoleMap, k: string)
    ensures Get(Without(m, k), k) == None
    ensures forall j :: j != k ==> Get(Without(m, k), j) == Get(m, j)
    decreases |m|
  {
    if |m| > 0 {
      Cons(m[0], m[1..]);
      assert m == [m[0]] + m[1..];
      if m[0].0 != k {
        WithoutEffect(m[1..], k);
        Cons(m[0], Without(m[1..], k));
      }
    }
  }

  /** Deleting a key that is absent changes nothing. */
  lemma {:induction false} WithoutAbsent(m: RoleMap, k: string)
    requires k !in Keys(m)
    ensures Without(m, k) == m
    decreases |m|
  {
    if |m| > 0 {
      Cons(m[0], m[1..]);
      assert m == [m[0]] + m[1..];
      WithoutAbsent(m[1..], k);
    }
  }

  /** Deleting the key at position `i` removes that entry and keeps every other entry in order. */
  lemma {:induction false} WithoutAt(m: RoleMap, i: nat)
    requires i < |m|
    ensures Without(m, m[i].0) == m[..i] + m[i + 1..]
    decreases i
  {
    if i > 0 {
      var tail: RoleMap := m[1..];
      assert tail[i - 1] == m[i];
      assert m[0].0 != m[i].0;
      WithoutAt(tail, i - 1);
      assert m[..i] + m[i + 1..] == [m[0]] + (tail[..i - 1] + tail[i..]);
    }
  }

  /**
   * The keys of `seen` followed by those of `names` that are new, in order of
   * first appearance: the key order of an object after `names` are set on it.
   */
  function FirstSeen(seen: seq<string>, names: seq<string>): (r: seq<string>)
    ensures forall k :: k in r <==> k in seen || k in names
    decreases |names|
  {
    if |names| == 0 then seen
    else
      assert names == [names[0]] + names[1..];
      FirstSeen(if names[0] in seen then seen else seen + [names[0]], names[1..])
  }

  lemma {:induction false} FirstSeenAppend(seen: seq<string>, a: seq<string>, b: seq<string>)
    ensures FirstSeen(seen, a + b) == FirstSeen(FirstSeen(seen, a), b)
    decreases |a|
  {
    if |a| == 0 {
      assert a + b == b;
    } else {
      assert (a + b)[0] == a[0] && (a + b)[1..] == a[1..] + b;
      FirstSeenAppend(if a[0] in seen then seen else seen + [a[0]], a[1..], b);
    }
  }

  /** Putting a key adds it at the end of the key order when it is new. */
  lemma PutKeys(m: RoleMap, k: string, v: nat)
    ensures Keys(Put(m, k, v)) == FirstSeen(Keys(m), [k])
  {
    assert [k][1..] == [];
    if k in Keys(m) {
      PutKeepsOrder(m, k, v);
    } else {
      PutAppends(m, k, v);
      assert Keys(m + [(k, v)]) == Keys(m) + [k];
    }
  }
}
