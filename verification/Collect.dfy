/**
 * The role-tree helper of lib/util/collect.js: given a list of roles and a
 * function that maps a role to the roles it inherits, it builds the same kind
 * of tree as the JSON provider's getRoles.
 */
module Collect {
  import opened Wrappers
  import opened RoleTrees

  /** How collect sees a role: an array result inherits that array, anything else is a leaf. */
  function InheritLookup(getInheritedRoles: string -> Option<seq<string>>): string -> Lookup
  {
    name => if getInheritedRoles(name).Some? then Inherits(getInheritedRoles(name).value) else Leaf
  }

  /**
   * The tree collect resolves to: one construction from `roles` at depth 1
   * with an empty cache, which records every given role at depth 1.
   */
  ghost function Collected(universe: set<string>, getInheritedRoles: string -> Option<seq<string>>,
                           roles: seq<string>): (b: Built)
    requires Closed(universe, InheritLookup(getInheritedRoles))
    requires forall r :: r in roles ==> r in universe
    ensures CacheOk(universe, b.cache)
    ensures forall r :: r in roles ==> r in b.cache && b.cache[r] == 1
  {
    CacheLevelOk(universe, roles, 1, map[]);
    Build(universe, InheritLookup(getInheritedRoles), roles, 1, map[], [])
  }

  /**
   * collect(roles, getInheritedRoles). `universe` is any finite set of names
   * holding `roles` and closed under getInheritedRoles; `calls` lists, in
   * order, the names getInheritedRoles was called with.
   */
  method Collect(roles: seq<string>, getInheritedRoles: string -> Option<seq<string>>,
                 ghost universe: set<string>) returns (tree: RoleTree, ghost calls: seq<string>)
    requires Closed(universe, InheritLookup(getInheritedRoles))
    requires forall r :: r in roles ==> r in universe
    ensures tree == Collected(universe, getInheritedRoles, roles).tree
    ensures calls == Collected(universe, getInheritedRoles, roles).trace
  {
    var store := new DepthCache();
    tree := CollectLevel(store, universe, InheritLookup(getInheritedRoles), roles, 1);
    calls := store.trace;
  }

  /** The top level of the result holds exactly the given roles. */
  lemma CollectedTopLevel(universe: set<string>, getInheritedRoles: string -> Option<seq<string>>,
                          roles: seq<string>)
    requires Closed(universe, InheritLookup(getInheritedRoles))
    requires forall r :: r in roles ==> r in universe
    ensures forall k :: k in Collected(universe, getInheritedRoles, roles).tree.entries <==> k in roles
  {
    BuildKeys(universe, InheritLookup(getInheritedRoles), roles, 1, map[], []);
  }

  /**
   * Every level's keys come from that level's list; a role maps to null
   * exactly when getInheritedRoles gave no array for it, and otherwise to the
   * subtree built from that array.
   */
  lemma CollectedShape(universe: set<string>, getInheritedRoles: string -> Option<seq<string>>,
                       roles: seq<string>)
    requires Closed(universe, InheritLookup(getInheritedRoles))
    requires forall r :: r in roles ==> r in universe
    ensures Conforms(InheritLookup(getInheritedRoles), Collected(universe, getInheritedRoles, roles).tree, roles)
    ensures NestedAtMost(Collected(universe, getInheritedRoles, roles).tree, |universe|)
  {
    BuildShape(universe, InheritLookup(getInheritedRoles), roles, 1, map[], []);
    BuildNesting(universe, InheritLookup(getInheritedRoles), roles, 1, map[], []);
  }

  /**
   * The order of the calls to getInheritedRoles: each given role, in list
   * order, followed by the calls made while building its own subtree (none
   * when it inherits nothing); every role of the top level was looked up.
   */
  lemma CollectedCalls(universe: set<string>, getInheritedRoles: string -> Option<seq<string>>,
                       roles: seq<string>)
    requires Closed(universe, InheritLookup(getInheritedRoles))
    requires forall r :: r in roles ==> r in universe
    ensures forall k :: k in Collected(universe, getInheritedRoles, roles).tree.entries ==>
      k in Collected(universe, getInheritedRoles, roles).trace
    ensures exists segs ::
      && Segments(universe, InheritLookup(getInheritedRoles), roles, 1, CacheLevel(roles, 1, map[]), segs)
      && Collected(universe, getInheritedRoles, roles).trace == Flatten(roles, segs)
  {
    var lookup := InheritLookup(getInheritedRoles);
    var b := Collected(universe, getInheritedRoles, roles);
    BuildTrace(universe, lookup, roles, 1, map[], []);
    forall k | k in b.tree.entries ensures k in b.trace {
      assert LookedUp(b.trace, 0, k);
    }
    var c := CacheLevel(roles, 1, map[]);
    var segs := BuildCalls(universe, lookup, roles, 1, map[], []);
    ExpandedAll(roles, 1, c);
    assert [] + Flatten(roles, segs) == Flatten(roles, segs);
    assert Segments(universe, lookup, roles, 1, c, segs) && b.trace == Flatten(roles, segs);
  }
}
