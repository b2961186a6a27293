/**
 * The cached, depth-bounded construction of a role tree that both
 * lib/providers/json.js (getRoles) and lib/util/collect.js run.
 *
 * Starting from a list of role names at depth 1, each level first records in a
 * cache the depth at which every name of the level was first seen, and then
 * expands, in list order, every name whose cached depth is not smaller than the
 * current depth: the roles it inherits become a subtree built at depth + 1.
 * A name first seen at a shallower depth is skipped, which is what stops the
 * recursion on cyclic inheritance.  The cache is write-once, so the largest
 * cached depth never exceeds the number of cached names; the recursion is
 * therefore at most as deep as the number of distinct role names.
 */
module RoleTrees {
  import opened Wrappers

  /** A role tree: each role maps to null (None) or to the tree of the roles it inherits. */
  datatype RoleTree = RoleTree(entries: map<string, Option<RoleTree>>)

  /**
   * What the builder learns about a role name when it expands it: the role is
   * not defined (json.js leaves it out), has no array of inherited roles (it
   * maps to null), or inherits the listed roles.
   */
  datatype Lookup = Undefined | Leaf | Inherits(children: seq<string>)

  /** Depth at which each role name was first seen during one construction. */
  type Cache = map<string, nat>

  /** What one level of the construction produces. */
  datatype Built = Built(tree: RoleTree, cache: Cache, trace: seq<string>)

  function Inherited(l: Lookup): seq<string>
  {
    if l.Inherits? then l.children else []
  }

  /** Every name inherited by a name of the universe is in the universe. */
  ghost predicate Closed(universe: set<string>, lookup: string -> Lookup)
  {
    forall r, x :: r in universe && x in Inherited(lookup(r)) ==> x in universe
  }

  /**
   * The invariant of the cache: its names come from the universe and every
   * cached depth is positive and at most the number of cached names.
   */
  ghost predicate CacheOk(universe: set<string>, cache: Cache)
  {
    && cache.Keys <= universe
    && forall k :: k in cache ==> 1 <= cache[k] <= |cache.Keys|
  }

  /** Write-once: every entry of `before` is still there, with the same depth. */
  ghost predicate Extends(before: Cache, after: Cache)
  {
    forall k :: k in before ==> k in after && after[k] == before[k]
  }

  /**
   * The shape the builder promises: every key of a level is a name of that
   * level's input list, maps to null exactly when the role has no inherited
   * array, and otherwise maps to a subtree of the same shape built from the
   * inherited list.
   */
  ghost predicate Conforms(lookup: string -> Lookup, t: RoleTree, roles: seq<string>)
    decreases t
  {
    forall k :: k in t.entries ==>
      && k in roles
      && match t.entries[k]
         case None => lookup(k).Leaf?
         case Some(sub) => lookup(k).Inherits? && Conforms(lookup, sub, lookup(k).children)
  }

  /** The tree nests at most `h` levels deep. */
  ghost predicate NestedAtMost(t: RoleTree, h: nat)
    decreases t
  {
    || t.entries == map[]
    || (h > 0 && forall k :: k in t.entries && t.entries[k].Some? ==> NestedAtMost(t.entries[k].value, h - 1))
  }

  lemma {:induction false} SubsetSize(a: set<string>, b: set<string>)
    requires a <= b
    ensures |a| <= |b|
    decreases |a|
  {
    if a != {} {
      var x :| x in a;
      SubsetSize(a - {x}, b - {x});
    }
  }

  lemma ProperSubsetSize(a: set<string>, b: set<string>)
    requires a < b
    ensures |a| < |b|
  {
    var x :| x in b && x !in a;
    SubsetSize(a, b - {x});
  }

  /**
   * The first loop of a level: each name of the level gets the current depth
   * unless it was cached before (cached depths are never 0, so `cache[r] || depth`
   * keeps the cached one).
   */
  function CacheLevel(roles: seq<string>, depth: nat, cache: Cache): (c: Cache)
    ensures forall k :: k in c <==> k in cache || k in roles
    ensures forall k :: k in c ==> c[k] == if k in cache then cache[k] else depth
  {
    if roles == [] then cache
    else
      var c := CacheLevel(roles[..|roles| - 1], depth, cache);
      var r := roles[|roles| - 1];
      if r in c then c else c[r := depth]
  }

  /** Caching a level keeps the cache invariant, provided the depth is at most one more than the cache size. */
  lemma {:induction false} CacheLevelOk(universe: set<string>, roles: seq<string>, depth: nat, cache: Cache)
    requires CacheOk(universe, cache)
    requires forall r :: r in roles ==> r in universe
    requires 1 <= depth <= |cache.Keys| + 1
    ensures CacheOk(universe, CacheLevel(roles, depth, cache))
  {
    var c := CacheLevel(roles, depth, cache);
    if c.Keys != cache.Keys {
      ProperSubsetSize(cache.Keys, c.Keys);
    }
  }

  /**
   * The second loop of a level, from position `i` on: `acc` holds the entries
   * assigned so far and `trace` the names looked up so far.
   */
  function Level(universe: set<string>, lookup: string -> Lookup, roles: seq<string>, i: nat, depth: nat,
                 cache: Cache, acc: map<string, Option<RoleTree>>, trace: seq<string>): (b: Built)
    requires Closed(universe, lookup) && CacheOk(universe, cache)
    requires i <= |roles| && 1 <= depth <= |universe| + 1
    requires forall r :: r in roles ==> r in cache
    decreases |universe| + 1 - depth, |roles| - i
    ensures CacheOk(universe, b.cache) && Extends(cache, b.cache)
  {
    if i == |roles| then Built(RoleTree(acc), cache, trace)
    else
      var r := roles[i];
      if cache[r] < depth then
        Level(universe, lookup, roles, i + 1, depth, cache, acc, trace)
      else
        SubsetSize(cache.Keys, universe);
        match lookup(r)
        case Undefined =>
          Level(universe, lookup, roles, i + 1, depth, cache, acc, trace + [r])
        case Leaf =>
          Level(universe, lookup, roles, i + 1, depth, cache, acc[r := None], trace + [r])
        case Inherits(children) =>
          var sub := Build(universe, lookup, children, depth + 1, cache, trace + [r]);
          Level(universe, lookup, roles, i + 1, depth, sub.cache, acc[r := Some(sub.tree)], sub.trace)
  }

  /**
   * One level of the construction: cache every name of `roles`, then expand
   * the ones whose cached depth is at least `depth`.
   */
  function Build(universe: set<string>, lookup: string -> Lookup, roles: seq<string>, depth: nat,
                 cache: Cache, trace: seq<string>): (b: Built)
    requires Closed(universe, lookup) && CacheOk(universe, cache)
    requires forall r :: r in roles ==> r in universe
    requires 1 <= depth <= |cache.Keys| + 1 && depth <= |universe| + 1
    decreases |universe| + 1 - depth, |roles| + 1
    ensures CacheOk(universe, b.cache) && Extends(cache, b.cache)
    ensures forall r :: r in roles ==> r in b.cache
  {
    CacheLevelOk(universe, roles, depth, cache);
    var c := CacheLevel(roles, depth, cache);
    Level(universe, lookup, roles, 0, depth, c, map[], trace)
  }

  /**
   * Which names a level keeps: exactly the names of its list that are defined
   * and whose cached depth is at least the current depth.  The others are
   * absent from the level (the write-once cache keeps the depth each name was
   * given by the level's first loop while the subtrees are built).
   */
  lemma {:induction false} LevelKeys(universe: set<string>, lookup: string -> Lookup, roles: seq<string>, i: nat,
                                     depth: nat, cache: Cache, acc: map<string, Option<RoleTree>>, trace: seq<string>)
    requires Closed(universe, lookup) && CacheOk(universe, cache)
    requires i <= |roles| && 1 <= depth <= |universe| + 1
    requires forall r :: r in roles ==> r in cache
    ensures forall k :: k in Level(universe, lookup, roles, i, depth, cache, acc, trace).tree.entries <==>
      k in acc || (k in roles[i..] && cache[k] >= depth && !lookup(k).Undefined?)
    decreases |roles| - i
  {
    if i < |roles| {
      var r := roles[i];
      assert roles[i..] == [r] + roles[i + 1..];
      if cache[r] < depth {
        LevelKeys(universe, lookup, roles, i + 1, depth, cache, acc, trace);
      } else {
        SubsetSize(cache.Keys, universe);
        match lookup(r)
        case Undefined =>
          LevelKeys(universe, lookup, roles, i + 1, depth, cache, acc, trace + [r]);
        case Leaf =>
          LevelKeys(universe, lookup, roles, i + 1, depth, cache, acc[r := None], trace + [r]);
        case Inherits(children) =>
          var sub := Build(universe, lookup, children, depth + 1, cache, trace + [r]);
          LevelKeys(universe, lookup, roles, i + 1, depth, sub.cache, acc[r := Some(sub.tree)], sub.trace);
      }
    }
  }

  /**
   * The keys of a built level: the names of its list that are defined and
   * were not first seen at a shallower depth.
   */
  lemma BuildKeys(universe: set<string>, lookup: string -> Lookup, roles: seq<string>, depth: nat,
                  cache: Cache, trace: seq<string>)
    requires Closed(universe, lookup) && CacheOk(universe, cache)
    requires forall r :: r in roles ==> r in universe
    requires 1 <= depth <= |cache.Keys| + 1 && depth <= |universe| + 1
    ensures forall k :: k in Build(universe, lookup, roles, depth, cache, trace).tree.entries <==>
      k in roles && (k !in cache || cache[k] >= depth) && !lookup(k).Undefined?
  {
    CacheLevelOk(universe, roles, depth, cache);
    var c := CacheLevel(roles, depth, cache);
    LevelKeys(universe, lookup, roles, 0, depth, c, map[], trace);
    assert roles[0..] == roles;
  }

  /**
   * The trace of a level only grows, and every name the level keeps was
   * looked up by it.
   */
  lemma {:induction false} LevelTrace(universe: set<string>, lookup: string -> Lookup, roles: seq<string>, i: nat,
                                      depth: nat, cache: Cache, acc: map<string, Option<RoleTree>>, trace: seq<string>)
    requires Closed(universe, lookup) && CacheOk(universe, cache)
    requires i <= |roles| && 1 <= depth <= |universe| + 1
    requires forall r :: r in roles ==> r in cache
    ensures var b := Level(universe, lookup, roles, i, depth, cache, acc, trace);
      && IsPrefix(trace, b.trace)
      && forall k :: k in b.tree.entries && k !in acc ==> LookedUp(b.trace, |trace|, k)
    decreases |universe| + 1 - depth, |roles| - i
  {
    if i < |roles| {
      var r := roles[i];
      if cache[r] < depth {
        LevelTrace(universe, lookup, roles, i + 1, depth, cache, acc, trace);
      } else {
        SubsetSize(cache.Keys, universe);
        match lookup(r)
        case Undefined =>
          LevelTrace(universe, lookup, roles, i + 1, depth, cache, acc, trace + [r]);
          var b := Level(universe, lookup, roles, i + 1, depth, cache, acc, trace + [r]);
          AppendedPrefix(trace, r, trace + [r], b.trace);
        case Leaf =>
          LevelTrace(universe, lookup, roles, i + 1, depth, cache, acc[r := None], trace + [r]);
          var b := Level(universe, lookup, roles, i + 1, depth, cache, acc[r := None], trace + [r]);
          AppendedPrefix(trace, r, trace + [r], b.trace);
        case Inherits(children) =>
          var sub := Build(universe, lookup, children, depth + 1, cache, trace + [r]);
          BuildTrace(universe, lookup, children, depth + 1, cache, trace + [r]);
          LevelTrace(universe, lookup, roles, i + 1, depth, sub.cache, acc[r := Some(sub.tree)], sub.trace);
          var b := Level(universe, lookup, roles, i + 1, depth, sub.cache, acc[r := Some(sub.tree)], sub.trace);
          AppendedPrefix(trace, r, sub.trace, b.trace);
      }
    }
  }

  lemma {:induction false} BuildTrace(universe: set<string>, lookup: string -> Lookup, roles: seq<string>, depth: nat,
                                      cache: Cache, trace: seq<string>)
    requires Closed(universe, lookup) && CacheOk(universe, cache)
    requires forall r :: r in roles ==> r in universe
    requires 1 <= depth <= |cache.Keys| + 1 && depth <= |universe| + 1
    ensures var b := Build(universe, lookup, roles, depth, cache, trace);
      && IsPrefix(trace, b.trace)
      && forall k :: k in b.tree.entries ==> LookedUp(b.trace, |trace|, k)
    decreases |universe| + 1 - depth, |roles| + 1
  {
    CacheLevelOk(universe, roles, depth, cache);
    var c := CacheLevel(roles, depth, cache);
    LevelTrace(universe, lookup, roles, 0, depth, c, map[], trace);
  }


  /** The step of a level for a name it expands that inherits nothing: the name is looked up and recorded. */
  lemma NameStep(universe: set<string>, lookup: string -> Lookup, roles: seq<string>, i: nat,
                 depth: nat, cache: Cache, acc: map<string, Option<RoleTree>>, t: seq<string>)
    requires Closed(universe, lookup) && CacheOk(universe, cache)
    requires i < |roles| && 1 <= depth <= |universe| + 1
    requires forall r :: r in roles ==> r in cache
    requires cache[roles[i]] >= depth && !lookup(roles[i]).Inherits?
    ensures Level(universe, lookup, roles, i, depth, cache, acc, t) ==
      Level(universe, lookup, roles, i + 1, depth, cache,
            if lookup(roles[i]).Leaf? then acc[roles[i] := None] else acc, t + [roles[i]])
  {
  }

  /** The step of a level for a name it expands that inherits: its subtree is built next. */
  lemma ExpandStep(universe: set<string>, lookup: string -> Lookup, roles: seq<string>, i: nat,
                   depth: nat, cache: Cache, acc: map<string, Option<RoleTree>>, t: seq<string>)
    requires Closed(universe, lookup) && CacheOk(universe, cache)
    requires i < |roles| && 1 <= depth <= |universe| + 1
    requires forall r :: r in roles ==> r in cache
    requires cache[roles[i]] >= depth && lookup(roles[i]).Inherits?
    requires |cache.Keys| <= |universe|
    ensures var sub := Build(universe, lookup, lookup(roles[i]).children, depth + 1, cache, t + [roles[i]]);
      Level(universe, lookup, roles, i, depth, cache, acc, t) ==
        Level(universe, lookup, roles, i + 1, depth, sub.cache, acc[roles[i] := Some(sub.tree)], sub.trace)
  {
  }


  /**
   * A level's tree and cache do not depend on what was looked up before it,
   * and its own lookups are appended to the earlier ones.
   */
  lemma {:induction false} LevelShift(universe: set<string>, lookup: string -> Lookup, roles: seq<string>, i: nat,
                                      depth: nat, cache: Cache, acc: map<string, Option<RoleTree>>, t: seq<string>)
    requires Closed(universe, lookup) && CacheOk(universe, cache)
    requires i <= |roles| && 1 <= depth <= |universe| + 1
    requires forall r :: r in roles ==> r in cache
    ensures var b := Level(universe, lookup, roles, i, depth, cache, acc, []);
      Level(universe, lookup, roles, i, depth, cache, acc, t) == Built(b.tree, b.cache, t + b.trace)
    decreases |universe| + 1 - depth, |roles| - i
  {
    if i == |roles| {
      assert t + [] == t;
    } else {
      var r := roles[i];
      if cache[r] < depth {
        LevelShift(universe, lookup, roles, i + 1, depth, cache, acc, t);
        LevelShift(universe, lookup, roles, i + 1, depth, cache, acc, []);
      } else if lookup(r).Inherits? {
        LevelShiftExpand(universe, lookup, roles, i, depth, cache, acc, t);
      } else {
        var acc' := if lookup(r).Leaf? then acc[r := None] else acc;
        NameStep(universe, lookup, roles, i, depth, cache, acc, t);
        NameStep(universe, lookup, roles, i, depth, cache, acc, []);
        assert [] + [r] == [r];
        LevelShift(universe, lookup, roles, i + 1, depth, cache, acc', t + [r]);
        LevelShift(universe, lookup, roles, i + 1, depth, cache, acc', [r]);
        var b := Level(universe, lookup, roles, i + 1, depth, cache, acc', []);
        assert t + [r] + b.trace == t + ([r] + b.trace);
      }
    }
  }

  /** The step of LevelShift that expands roles[i] into a subtree. */
  lemma {:induction false} LevelShiftExpand(universe: set<string>, lookup: string -> Lookup, roles: seq<string>,
                                            i: nat, depth: nat, cache: Cache, acc: map<string, Option<RoleTree>>,
                                            t: seq<string>)
    requires Closed(universe, lookup) && CacheOk(universe, cache)
    requires i < |roles| && 1 <= depth <= |universe| + 1
    requires forall r :: r in roles ==> r in cache
    requires cache[roles[i]] >= depth && lookup(roles[i]).Inherits?
    ensures var b := Level(universe, lookup, roles, i, depth, cache, acc, []);
      Level(universe, lookup, roles, i, depth, cache, acc, t) == Built(b.tree, b.cache, t + b.trace)
    decreases |universe| + 1 - depth, |roles| - i, 2
  {
    var r := roles[i];
    SubsetSize(cache.Keys, universe);
    var sub := Build(universe, lookup, lookup(r).children, depth + 1, cache, []);
    var b := Level(universe, lookup, roles, i + 1, depth, sub.cache, acc[r := Some(sub.tree)], []);
    var own := [r] + sub.trace + b.trace;
    var l0 := Level(universe, lookup, roles, i, depth, cache, acc, []);
    var lt := Level(universe, lookup, roles, i, depth, cache, acc, t);
    ExpandLevel(universe, lookup, roles, i, depth, cache, acc, []);
    Regrouped([], [r], sub.trace, b.trace);
    assert l0.tree == b.tree && l0.cache == b.cache && l0.trace == own;
    ExpandLevel(universe, lookup, roles, i, depth, cache, acc, t);
    Regrouped(t, [r], sub.trace, b.trace);
    assert lt.tree == b.tree && lt.cache == b.cache && lt.trace == t + own;
  }

  lemma Regrouped(t: seq<string>, a: seq<string>, b: seq<string>, c: seq<string>)
    ensures t + a + b + c == t + (a + b + c)
    ensures [] + a + b + c == a + b + c
  {
  }

  /** Expanding roles[i]: the subtree's lookups, then the rest of the level's, follow the earlier ones. */
  lemma {:induction false} ExpandLevel(universe: set<string>, lookup: string -> Lookup, roles: seq<string>,
                                       i: nat, depth: nat, cache: Cache, acc: map<string, Option<RoleTree>>,
                                       t: seq<string>)
    requires Closed(universe, lookup) && CacheOk(universe, cache)
    requires i < |roles| && 1 <= depth <= |universe| + 1
    requires forall r :: r in roles ==> r in cache
    requires cache[roles[i]] >= depth && lookup(roles[i]).Inherits?
    requires |cache.Keys| <= |universe|
    ensures var sub := Build(universe, lookup, lookup(roles[i]).children, depth + 1, cache, []);
      var b := Level(universe, lookup, roles, i + 1, depth, sub.cache, acc[roles[i] := Some(sub.tree)], []);
      Level(universe, lookup, roles, i, depth, cache, acc, t) == Built(b.tree, b.cache, t + [roles[i]] + sub.trace + b.trace)
    decreases |universe| + 1 - depth, |roles| - i, 1
  {
    var r := roles[i];
    var sub := Build(universe, lookup, lookup(r).children, depth + 1, cache, []);
    ExpandShifted(universe, lookup, roles, i, depth, cache, acc, t);
    LevelShift(universe, lookup, roles, i + 1, depth, sub.cache, acc[r := Some(sub.tree)], t + [r] + sub.trace);
  }

  /** ExpandStep, with the subtree's lookups appended to the earlier ones. */
  lemma {:induction false} ExpandShifted(universe: set<string>, lookup: string -> Lookup, roles: seq<string>,
                                         i: nat, depth: nat, cache: Cache, acc: map<string, Option<RoleTree>>,
                                         t: seq<string>)
    requires Closed(universe, lookup) && CacheOk(universe, cache)
    requires i < |roles| && 1 <= depth <= |universe| + 1
    requires forall r :: r in roles ==> r in cache
    requires cache[roles[i]] >= depth && lookup(roles[i]).Inherits?
    requires |cache.Keys| <= |universe|
    ensures var sub := Build(universe, lookup, lookup(roles[i]).children, depth + 1, cache, []);
      Level(universe, lookup, roles, i, depth, cache, acc, t) ==
        Level(universe, lookup, roles, i + 1, depth, sub.cache, acc[roles[i] := Some(sub.tree)], t + [roles[i]] + sub.trace)
    decreases |universe| + 1 - depth, |roles| - i, 0
  {
    var r := roles[i];
    var sub := Build(universe, lookup, lookup(r).children, depth + 1, cache, []);
    var subT := Build(universe, lookup, lookup(r).children, depth + 1, cache, t + [r]);
    ExpandStep(universe, lookup, roles, i, depth, cache, acc, t);
    BuildShift(universe, lookup, lookup(r).children, depth + 1, cache, t + [r]);
    assert subT.cache == sub.cache && subT.tree == sub.tree && subT.trace == t + [r] + sub.trace;
  }

  /** A construction's tree and cache do not depend on the earlier lookups; its own are appended. */
  lemma {:induction false} BuildShift(universe: set<string>, lookup: string -> Lookup, roles: seq<string>,
                                      depth: nat, cache: Cache, t: seq<string>)
    requires Closed(universe, lookup) && CacheOk(universe, cache)
    requires forall r :: r in roles ==> r in universe
    requires 1 <= depth <= |cache.Keys| + 1 && depth <= |universe| + 1
    ensures var b := Build(universe, lookup, roles, depth, cache, []);
      Build(universe, lookup, roles, depth, cache, t) == Built(b.tree, b.cache, t + b.trace)
    decreases |universe| + 1 - depth, |roles| + 1
  {
    CacheLevelOk(universe, roles, depth, cache);
    var c := CacheLevel(roles, depth, cache);
    LevelShift(universe, lookup, roles, 0, depth, c, map[], t);
  }

  /**
   * The names of `roles` a level expands, in list order: those whose cached
   * depth is at least the level's depth (repeats included).
   */
  function Expanded(roles: seq<string>, depth: nat, cache: Cache): (e: seq<string>)
    requires forall r :: r in roles ==> r in cache
    ensures forall r :: r in e <==> r in roles && cache[r] >= depth
  {
    if |roles| == 0 then []
    else
      assert forall r :: r in roles <==> r == roles[0] || r in roles[1..];
      (if cache[roles[0]] >= depth then [roles[0]] else []) + Expanded(roles[1..], depth, cache)
  }

  /** Each name of `names` followed by its segment. */
  function Flatten(names: seq<string>, segs: seq<seq<string>>): seq<string>
    requires |names| == |segs|
  {
    if |names| == 0 then [] else [names[0]] + segs[0] + Flatten(names[1..], segs[1..])
  }

  lemma FlattenCons(r: string, names: seq<string>, seg: seq<string>, segs: seq<seq<string>>)
    requires |names| == |segs|
    ensures Flatten([r] + names, [seg] + segs) == [r] + seg + Flatten(names, segs)
  {
    assert ([r] + names)[1..] == names && ([seg] + segs)[1..] == segs;
  }

  /**
   * `seg` is what a subtree built at `depth` from `children` looks up on its
   * own, starting from some cache that extends `cache`.
   */
  ghost predicate SubtreeCalls(universe: set<string>, lookup: string -> Lookup, children: seq<string>,
                               depth: nat, cache: Cache, seg: seq<string>)
  {
    && Closed(universe, lookup)
    && (forall x :: x in children ==> x in universe)
    && exists c: Cache :: CacheOk(universe, c) && Extends(cache, c) && 1 <= depth <= |c.Keys| + 1 &&
         depth <= |universe| + 1 && seg == Build(universe, lookup, children, depth, c, []).trace
  }

  /** What is looked up after an expanded name `r`: nothing, unless `r` inherits, then its subtree's lookups. */
  ghost predicate Segment(universe: set<string>, lookup: string -> Lookup, r: string, depth: nat,
                          cache: Cache, seg: seq<string>)
  {
    if lookup(r).Inherits? then SubtreeCalls(universe, lookup, lookup(r).children, depth + 1, cache, seg)
    else seg == []
  }

  /** Each name of `names` is followed by its segment of `segs`. */
  ghost predicate Segments(universe: set<string>, lookup: string -> Lookup, names: seq<string>, depth: nat,
                           cache: Cache, segs: seq<seq<string>>)
  {
    |segs| == |names| && forall j :: 0 <= j < |segs| ==> Segment(universe, lookup, names[j], depth, cache, segs[j])
  }

  lemma SegmentsCons(universe: set<string>, lookup: string -> Lookup, r: string, names: seq<string>, depth: nat,
                     cache: Cache, seg: seq<string>, segs: seq<seq<string>>)
    requires Segment(universe, lookup, r, depth, cache, seg) && Segments(universe, lookup, names, depth, cache, segs)
    ensures Segments(universe, lookup, [r] + names, depth, cache, [seg] + segs)
  {
    var names', segs' := [r] + names, [seg] + segs;
    forall j | 0 <= j < |segs'| ensures Segment(universe, lookup, names'[j], depth, cache, segs'[j]) {
      if j == 0 {
        assert names'[j] == r && segs'[j] == seg;
      } else {
        assert names'[j] == names[j - 1] && segs'[j] == segs[j - 1];
      }
    }
  }

  lemma ExtendsTransitive(a: Cache, b: Cache, c: Cache)
    requires Extends(a, b) && Extends(b, c)
    ensures Extends(a, c)
  {
  }

  /** A write-once extension of the cache expands the same names. */
  lemma {:induction false} ExpandedStable(roles: seq<string>, depth: nat, cache: Cache, later: Cache)
    requires forall r :: r in roles ==> r in cache
    requires Extends(cache, later)
    ensures Expanded(roles, depth, later) == Expanded(roles, depth, cache)
    decreases |roles|
  {
    if |roles| > 0 {
      ExpandedStable(roles[1..], depth, cache, later);
    }
  }

  /** Segments relative to a later cache are segments relative to an earlier one. */
  lemma SegmentsEarlier(universe: set<string>, lookup: string -> Lookup, names: seq<string>, depth: nat,
                        cache: Cache, later: Cache, segs: seq<seq<string>>)
    requires Extends(cache, later) && Segments(universe, lookup, names, depth, later, segs)
    ensures Segments(universe, lookup, names, depth, cache, segs)
  {
    forall j | 0 <= j < |segs| ensures Segment(universe, lookup, names[j], depth, cache, segs[j]) {
      var r := names[j];
      if lookup(r).Inherits? {
        var c: Cache :| CacheOk(universe, c) && Extends(later, c) && 1 <= depth + 1 <= |c.Keys| + 1 &&
          depth + 1 <= |universe| + 1 && segs[j] == Build(universe, lookup, lookup(r).children, depth + 1, c, []).trace;
        ExtendsTransitive(cache, later, c);
      }
    }
  }

  /** The names a level expands from position `i` on, when it expands roles[i]. */
  lemma ExpandedAt(roles: seq<string>, i: nat, depth: nat, cache: Cache)
    requires i < |roles| && (forall r :: r in roles ==> r in cache) && cache[roles[i]] >= depth
    ensures Expanded(roles[i..], depth, cache) == [roles[i]] + Expanded(roles[i + 1..], depth, cache)
  {
    var tail := roles[i..];
    assert tail[0] == roles[i] && tail[1..] == roles[i + 1..];
  }

  /** Prepending an expanded name and its segment to the segments of the rest of a level. */
  lemma ConsSegments(universe: set<string>, lookup: string -> Lookup, roles: seq<string>, i: nat, depth: nat,
                     cache: Cache, seg: seq<string>, rest: seq<seq<string>>)
    requires i < |roles| && (forall r :: r in roles ==> r in cache) && cache[roles[i]] >= depth
    requires Segment(universe, lookup, roles[i], depth, cache, seg)
    requires Segments(universe, lookup, Expanded(roles[i + 1..], depth, cache), depth, cache, rest)
    ensures Segments(universe, lookup, Expanded(roles[i..], depth, cache), depth, cache, [seg] + rest)
  {
    ExpandedAt(roles, i, depth, cache);
    SegmentsCons(universe, lookup, roles[i], Expanded(roles[i + 1..], depth, cache), depth, cache, seg, rest);
  }

  /** Prepending an expanded name and its segment to the lookups of the rest of a level. */
  lemma ConsTrace(roles: seq<string>, i: nat, depth: nat, cache: Cache, seg: seq<string>, rest: seq<seq<string>>,
                  before: seq<string>, after: seq<string>)
    requires i < |roles| && (forall r :: r in roles ==> r in cache) && cache[roles[i]] >= depth
    requires |rest| == |Expanded(roles[i + 1..], depth, cache)|
    requires after == before + [roles[i]] + seg + Flatten(Expanded(roles[i + 1..], depth, cache), rest)
    ensures after == before + Flatten(Expanded(roles[i..], depth, cache), [seg] + rest)
  {
    var e := Expanded(roles[i + 1..], depth, cache);
    ExpandedAt(roles, i, depth, cache);
    FlattenCons(roles[i], e, seg, rest);
    assert before + [roles[i]] + seg + Flatten(e, rest) == before + ([roles[i]] + seg + Flatten(e, rest));
  }

  /**
   * The lookups of a level, from position `i` on: each name it expands, in
   * list order, followed by the lookups of that name's subtree.
   */
  lemma {:induction false} LevelCalls(universe: set<string>, lookup: string -> Lookup, roles: seq<string>, i: nat,
                                      depth: nat, cache: Cache, acc: map<string, Option<RoleTree>>, trace: seq<string>)
    returns (segs: seq<seq<string>>)
    requires Closed(universe, lookup) && CacheOk(universe, cache)
    requires i <= |roles| && 1 <= depth <= |universe| + 1
    requires forall r :: r in roles ==> r in cache
    ensures Segments(universe, lookup, Expanded(roles[i..], depth, cache), depth, cache, segs)
    ensures Level(universe, lookup, roles, i, depth, cache, acc, trace).trace ==
      trace + Flatten(Expanded(roles[i..], depth, cache), segs)
    decreases |universe| + 1 - depth, |roles| - i
  {
    if i == |roles| {
      segs := [];
      assert roles[i..] == [];
      assert trace + [] == trace;
    } else {
      var r := roles[i];
      if cache[r] < depth {
        segs := LevelCalls(universe, lookup, roles, i + 1, depth, cache, acc, trace);
        assert roles[i..][1..] == roles[i + 1..];
        assert Expanded(roles[i..], depth, cache) == Expanded(roles[i + 1..], depth, cache);
      } else if lookup(r).Inherits? {
        segs := LevelCallsExpand(universe, lookup, roles, i, depth, cache, acc, trace);
      } else {
        var acc' := if lookup(r).Leaf? then acc[r := None] else acc;
        NameStep(universe, lookup, roles, i, depth, cache, acc, trace);
        var rest := LevelCalls(universe, lookup, roles, i + 1, depth, cache, acc', trace + [r]);
        assert trace + [r] + [] == trace + [r];
        ConsSegments(universe, lookup, roles, i, depth, cache, [], rest);
        ConsTrace(roles, i, depth, cache, [], rest, trace, Level(universe, lookup, roles, i, depth, cache, acc, trace).trace);
        segs := [[]] + rest;
      }
    }
  }

  /** The step of LevelCalls that expands roles[i] into a subtree. */
  lemma {:induction false} LevelCallsExpand(universe: set<string>, lookup: string -> Lookup, roles: seq<string>,
                                            i: nat, depth: nat, cache: Cache, acc: map<string, Option<RoleTree>>,
                                            trace: seq<string>)
    returns (segs: seq<seq<string>>)
    requires Closed(universe, lookup) && CacheOk(universe, cache)
    requires i < |roles| && 1 <= depth <= |universe| + 1
    requires forall r :: r in roles ==> r in cache
    requires cache[roles[i]] >= depth && lookup(roles[i]).Inherits?
    ensures Segments(universe, lookup, Expanded(roles[i..], depth, cache), depth, cache, segs)
    ensures Level(universe, lookup, roles, i, depth, cache, acc, trace).trace ==
      trace + Flatten(Expanded(roles[i..], depth, cache), segs)
    decreases |universe| + 1 - depth, |roles| - i, 0
  {
    var r := roles[i];
    SubsetSize(cache.Keys, universe);
    var sub := Build(universe, lookup, lookup(r).children, depth + 1, cache, []);
    ExpandShifted(universe, lookup, roles, i, depth, cache, acc, trace);
    var rest := LevelCalls(universe, lookup, roles, i + 1, depth, sub.cache, acc[r := Some(sub.tree)],
                           trace + [r] + sub.trace);
    ExpandedStable(roles[i + 1..], depth, cache, sub.cache);
    SegmentsEarlier(universe, lookup, Expanded(roles[i + 1..], depth, cache), depth, cache, sub.cache, rest);
    assert Segment(universe, lookup, r, depth, cache, sub.trace) by {
      assert Extends(cache, cache);
    }
    ConsSegments(universe, lookup, roles, i, depth, cache, sub.trace, rest);
    ConsTrace(roles, i, depth, cache, sub.trace, rest, trace, Level(universe, lookup, roles, i, depth, cache, acc, trace).trace);
    segs := [sub.trace] + rest;
  }

  /** A level expands every name of its list when all of them are cached at its depth or deeper. */
  lemma {:induction false} ExpandedAll(roles: seq<string>, depth: nat, cache: Cache)
    requires forall r :: r in roles ==> r in cache && cache[r] >= depth
    ensures Expanded(roles, depth, cache) == roles
    decreases |roles|
  {
    if |roles| > 0 {
      ExpandedAll(roles[1..], depth, cache);
    }
  }

  /**
   * The lookups of one construction, in order: the names of its list it
   * expands (those not first seen at a shallower depth), each followed by
   * the lookups of its own subtree, appended to the earlier lookups.
   */
  lemma BuildCalls(universe: set<string>, lookup: string -> Lookup, roles: seq<string>, depth: nat,
                   cache: Cache, trace: seq<string>) returns (segs: seq<seq<string>>)
    requires Closed(universe, lookup) && CacheOk(universe, cache)
    requires forall r :: r in roles ==> r in universe
    requires 1 <= depth <= |cache.Keys| + 1 && depth <= |universe| + 1
    ensures Segments(universe, lookup, Expanded(roles, depth, CacheLevel(roles, depth, cache)),
                     depth, CacheLevel(roles, depth, cache), segs)
    ensures Build(universe, lookup, roles, depth, cache, trace).trace ==
      trace + Flatten(Expanded(roles, depth, CacheLevel(roles, depth, cache)), segs)
  {
    CacheLevelOk(universe, roles, depth, cache);
    var c := CacheLevel(roles, depth, cache);
    segs := LevelCalls(universe, lookup, roles, 0, depth, c, map[], trace);
    assert roles[0..] == roles;
  }

  /**
   * The shape of a level: its keys come from its list, a role without an
   * inherited array maps to null, and one with an array maps to a subtree of
   * the same shape built from that array.
   */
  lemma {:induction false} LevelShape(universe: set<string>, lookup: string -> Lookup, roles: seq<string>, i: nat,
                                      depth: nat, cache: Cache, acc: map<string, Option<RoleTree>>, trace: seq<string>)
    requires Closed(universe, lookup) && CacheOk(universe, cache)
    requires i <= |roles| && 1 <= depth <= |universe| + 1
    requires forall r :: r in roles ==> r in cache
    requires Conforms(lookup, RoleTree(acc), roles)
    ensures Conforms(lookup, Level(universe, lookup, roles, i, depth, cache, acc, trace).tree, roles)
    decreases |universe| + 1 - depth, |roles| - i
  {
    if i < |roles| {
      var r := roles[i];
      if cache[r] < depth {
        LevelShape(universe, lookup, roles, i + 1, depth, cache, acc, trace);
      } else {
        SubsetSize(cache.Keys, universe);
        match lookup(r)
        case Undefined =>
          LevelShape(universe, lookup, roles, i + 1, depth, cache, acc, trace + [r]);
        case Leaf =>
          ConformsPut(lookup, acc, roles, r, None);
          LevelShape(universe, lookup, roles, i + 1, depth, cache, acc[r := None], trace + [r]);
        case Inherits(children) =>
          LevelShapeExpand(universe, lookup, roles, i, depth, cache, acc, trace, children);
      }
    }
  }

  /** The step of LevelShape that expands roles[i] into a subtree. */
  lemma {:induction false} LevelShapeExpand(universe: set<string>, lookup: string -> Lookup, roles: seq<string>, i: nat,
                                            depth: nat, cache: Cache, acc: map<string, Option<RoleTree>>,
                                            trace: seq<string>, children: seq<string>)
    requires Closed(universe, lookup) && CacheOk(universe, cache)
    requires i < |roles| && 1 <= depth <= |universe| + 1
    requires forall r :: r in roles ==> r in cache
    requires Conforms(lookup, RoleTree(acc), roles)
    requires cache[roles[i]] >= depth && lookup(roles[i]) == Inherits(children)
    ensures Conforms(lookup, Level(universe, lookup, roles, i, depth, cache, acc, trace).tree, roles)
    decreases |universe| + 1 - depth, |roles| - i, 0
  {
    var r := roles[i];
    SubsetSize(cache.Keys, universe);
    var sub := Build(universe, lookup, children, depth + 1, cache, trace + [r]);
    ExpandConforms(universe, lookup, roles, r, depth, cache, acc, trace, children);
    LevelShape(universe, lookup, roles, i + 1, depth, sub.cache, acc[r := Some(sub.tree)], sub.trace);
  }

  /** The subtree built for an inheriting role keeps the accumulated tree conforming. */
  lemma ExpandConforms(universe: set<string>, lookup: string -> Lookup, roles: seq<string>, r: string,
                       depth: nat, cache: Cache, acc: map<string, Option<RoleTree>>,
                       trace: seq<string>, children: seq<string>)
    requires Closed(universe, lookup) && CacheOk(universe, cache)
    requires r in roles && 1 <= depth <= |cache.Keys| && depth <= |universe|
    requires forall c :: c in children ==> c in universe
    requires Conforms(lookup, RoleTree(acc), roles)
    requires lookup(r) == Inherits(children)
    ensures Conforms(lookup, RoleTree(acc[r := Some(Build(universe, lookup, children, depth + 1, cache, trace + [r]).tree)]), roles)
    decreases |universe| + 1 - depth, 0
  {
    var sub := Build(universe, lookup, children, depth + 1, cache, trace + [r]);
    BuildShape(universe, lookup, children, depth + 1, cache, trace + [r]);
    ConformsPut(lookup, acc, roles, r, Some(sub.tree));
  }

  lemma {:induction false} BuildShape(universe: set<string>, lookup: string -> Lookup, roles: seq<string>, depth: nat,
                                      cache: Cache, trace: seq<string>)
    requires Closed(universe, lookup) && CacheOk(universe, cache)
    requires forall r :: r in roles ==> r in universe
    requires 1 <= depth <= |cache.Keys| + 1 && depth <= |universe| + 1
    ensures Conforms(lookup, Build(universe, lookup, roles, depth, cache, trace).tree, roles)
    decreases |universe| + 1 - depth, |roles| + 1
  {
    CacheLevelOk(universe, roles, depth, cache);
    var c := CacheLevel(roles, depth, cache);
    LevelShape(universe, lookup, roles, 0, depth, c, map[], trace);
  }

  /**
   * The recursion bound: a level built at `depth` nests at most
   * |universe| + 1 - depth levels deep, since a name is only expanded at a
   * depth no larger than its cached depth, which is at most |universe|.
   */
  lemma {:induction false} LevelNesting(universe: set<string>, lookup: string -> Lookup, roles: seq<string>, i: nat,
                                        depth: nat, cache: Cache, acc: map<string, Option<RoleTree>>, trace: seq<string>)
    requires Closed(universe, lookup) && CacheOk(universe, cache)
    requires i <= |roles| && 1 <= depth <= |universe| + 1
    requires forall r :: r in roles ==> r in cache
    requires NestedAtMost(RoleTree(acc), |universe| + 1 - depth)
    ensures NestedAtMost(Level(universe, lookup, roles, i, depth, cache, acc, trace).tree, |universe| + 1 - depth)
    decreases |universe| + 1 - depth, |roles| - i
  {
    if i < |roles| {
      var r := roles[i];
      if cache[r] < depth {
        LevelNesting(universe, lookup, roles, i + 1, depth, cache, acc, trace);
      } else {
        SubsetSize(cache.Keys, universe);
        var h: nat := |universe| + 1 - depth;
        match lookup(r)
        case Undefined =>
          LevelNesting(universe, lookup, roles, i + 1, depth, cache, acc, trace + [r]);
        case Leaf =>
          assert NestedAtMost(RoleTree(acc[r := None]), h);
          LevelNesting(universe, lookup, roles, i + 1, depth, cache, acc[r := None], trace + [r]);
        case Inherits(children) =>
          var sub := Build(universe, lookup, children, depth + 1, cache, trace + [r]);
          BuildNesting(universe, lookup, children, depth + 1, cache, trace + [r]);
          assert NestedAtMost(RoleTree(acc[r := Some(sub.tree)]), h);
          LevelNesting(universe, lookup, roles, i + 1, depth, sub.cache, acc[r := Some(sub.tree)], sub.trace);
      }
    }
  }

  lemma {:induction false} BuildNesting(universe: set<string>, lookup: string -> Lookup, roles: seq<string>, depth: nat,
                                        cache: Cache, trace: seq<string>)
    requires Closed(universe, lookup) && CacheOk(universe, cache)
    requires forall r :: r in roles ==> r in universe
    requires 1 <= depth <= |cache.Keys| + 1 && depth <= |universe| + 1
    ensures NestedAtMost(Build(universe, lookup, roles, depth, cache, trace).tree, |universe| + 1 - depth)
    decreases |universe| + 1 - depth, |roles| + 1
  {
    CacheLevelOk(universe, roles, depth, cache);
    var c := CacheLevel(roles, depth, cache);
    LevelNesting(universe, lookup, roles, 0, depth, c, map[], trace);
  }

  /** Assigning a well-shaped entry to a name of the list keeps a level well-shaped. */
  lemma ConformsPut(lookup: string -> Lookup, acc: map<string, Option<RoleTree>>, roles: seq<string>,
                    r: string, v: Option<RoleTree>)
    requires Conforms(lookup, RoleTree(acc), roles) && r in roles
    requires v.None? ==> lookup(r).Leaf?
    requires v.Some? ==> lookup(r).Inherits? && Conforms(lookup, v.value, lookup(r).children)
    ensures Conforms(lookup, RoleTree(acc[r := v]), roles)
  {
  }

  ghost predicate IsPrefix(a: seq<string>, b: seq<string>)
  {
    |a| <= |b| && b[..|a|] == a
  }

  /** `k` was looked up at position `from` of the trace or later. */
  ghost predicate LookedUp(t: seq<string>, from: nat, k: string)
  {
    exists j :: from <= j < |t| && t[j] == k
  }

  /** A trace that extends `trace + [r]` through `mid` extends `trace` and looked `r` up right after it. */
  lemma AppendedPrefix(trace: seq<string>, r: string, mid: seq<string>, t: seq<string>)
    requires IsPrefix(trace + [r], mid) && IsPrefix(mid, t)
    ensures IsPrefix(trace, t) && LookedUp(t, |trace|, r)
    ensures forall k :: LookedUp(t, |mid|, k) ==> LookedUp(t, |trace|, k)
  {
    assert t[..|trace|] == mid[..|trace + [r]|][..|trace|];
    assert t[|trace|] == mid[|trace|] == r;
  }

  /**
   * The mutable state one construction shares between its levels: the depth
   * cache and, for the model, the names looked up so far.
   */
  class DepthCache {
    var depths: Cache
    ghost var trace: seq<string>

    constructor ()
      ensures depths == map[] && trace == []
    {
      depths := map[];
      trace := [];
    }
  }

  /** The first loop of a level, run in place on the cache (lib/util/collect.js:28-30). */
  method CacheNames(store: DepthCache, roles: seq<string>, depth: nat)
    modifies store
    ensures store.depths == CacheLevel(roles, depth, old(store.depths))
    ensures store.trace == old(store.trace)
  {
    var i := 0;
    while i < |roles|
      invariant 0 <= i <= |roles|
      invariant store.depths == CacheLevel(roles[..i], depth, old(store.depths))
      invariant store.trace == old(store.trace)
    {
      assert roles[..i + 1][..i] == roles[..i];
      if roles[i] !in store.depths {
        store.depths := store.depths[roles[i] := depth];
      }
      i := i + 1;
    }
    assert roles[..i] == roles;
  }

  /**
   * One level of the construction, run in place on `store`: the first loop
   * caches the names of `roles`, the second expands every name whose cached
   * depth is at least `depth` (lib/util/collect.js:27-45, lib/providers/json.js:35-56).
   */
  method CollectLevel(store: DepthCache, ghost universe: set<string>, lookup: string -> Lookup,
                      roles: seq<string>, depth: nat) returns (userRoles: RoleTree)
    requires Closed(universe, lookup) && CacheOk(universe, store.depths)
    requires forall r :: r in roles ==> r in universe
    requires 1 <= depth <= |store.depths.Keys| + 1 && depth <= |universe| + 1
    modifies store
    decreases |universe| + 1 - depth, 1
    ensures var b := Build(universe, lookup, roles, depth, old(store.depths), old(store.trace));
      userRoles == b.tree && store.depths == b.cache && store.trace == b.trace
  {
    CacheNames(store, roles, depth);
    CacheLevelOk(universe, roles, depth, old(store.depths));
    ghost var cached := store.depths;
    var entries: map<string, Option<RoleTree>> := map[];
    var i := 0;
    while i < |roles|
      invariant 0 <= i <= |roles|
      invariant CacheOk(universe, store.depths) && forall r :: r in roles ==> r in store.depths
      invariant Level(universe, lookup, roles, i, depth, store.depths, entries, store.trace)
             == Level(universe, lookup, roles, 0, depth, cached, map[], old(store.trace))
    {
      entries := ExpandAt(store, universe, lookup, roles, i, depth, entries);
      i := i + 1;
    }
    userRoles := RoleTree(entries);
  }

  /**
   * The body of the second loop for position `i`: skip the name if it was
   * first seen at a shallower depth, otherwise look it up and record null or
   * the subtree of the roles it inherits.
   */
  method ExpandAt(store: DepthCache, ghost universe: set<string>, lookup: string -> Lookup,
                  roles: seq<string>, i: nat, depth: nat, entries: map<string, Option<RoleTree>>)
    returns (entries': map<string, Option<RoleTree>>)
    requires Closed(universe, lookup) && CacheOk(universe, store.depths)
    requires i < |roles| && 1 <= depth <= |universe| + 1
    requires forall r :: r in roles ==> r in store.depths
    modifies store
    decreases |universe| + 1 - depth, 0
    ensures CacheOk(universe, store.depths) && forall r :: r in roles ==> r in store.depths
    ensures Level(universe, lookup, roles, i + 1, depth, store.depths, entries', store.trace)
         == Level(universe, lookup, roles, i, depth, old(store.depths), entries, old(store.trace))
  {
    var r := roles[i];
    entries' := entries;
    if store.depths[r] >= depth {
      SubsetSize(store.depths.Keys, universe);
      store.trace := store.trace + [r];
      match lookup(r)
      case Undefined =>
        NameStep(universe, lookup, roles, i, depth, store.depths, entries, old(store.trace));
      case Leaf =>
        NameStep(universe, lookup, roles, i, depth, store.depths, entries, old(store.trace));
        entries' := entries[r := None];
      case Inherits(children) =>
        ExpandStep(universe, lookup, roles, i, depth, store.depths, entries, old(store.trace));
        var sub := CollectLevel(store, universe, lookup, children, depth + 1);
        entries' := entries[r := Some(sub)];
    }
  }
}
