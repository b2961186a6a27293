/**
 * Properties of the permission check of lib/rbac.js, stated on the
 * specification functions of module Rbac.
 */
module RbacProperties {
  import opened Wrappers
  import opened Js
  import opened RoleMaps
  import opened KeyOrder
  import opened Attributes
  import opened PermissionExpr
  import opened Rbac

  // ----- attribute filter -----

  /** Filtering over `keys` rejects exactly when one of their verdicts fails, and deletes exactly the denied ones. */
  lemma {:induction false} FilterFromEffect(roles: RoleMap, keys: seq<string>, p: Provider, env: Env)
    ensures FilterFrom(roles, keys, p, env).Err? <==>
      exists i :: 0 <= i < |keys| && RoleVerdict(p, env, keys[i]).Err?
    ensures FilterFrom(roles, keys, p, env).Ok? ==> forall k ::
      Get(FilterFrom(roles, keys, p, env).value, k) ==
        if k in keys && RoleVerdict(p, env, k) == Ok(false) then None else Get(roles, k)
    decreases |keys|
  {
    if |keys| > 0 {
      match RoleVerdict(p, env, keys[0])
      case Err(_) =>
      case Ok(keep) =>
        var next := if keep then roles else Without(roles, keys[0]);
        WithoutEffect(roles, keys[0]);
        FilterFromEffect(next, keys[1..], p, env);
        assert forall i :: 0 <= i < |keys| - 1 ==> keys[1..][i] == keys[i + 1];
        assert forall k :: k in keys <==> k == keys[0] || k in keys[1..];
    }
  }

  /**
   * filterRolesByAttributes rejects exactly when some role's verdict fails;
   * otherwise a role is deleted exactly when its verdict is false (some
   * attribute validated falsy), and every other role keeps its depth.
   */
  lemma FilterEffect(roles: RoleMap, p: Provider, env: Env)
    ensures Filtered(roles, p, env).Err? <==> exists k :: k in Keys(roles) && RoleVerdict(p, env, k).Err?
    ensures Filtered(roles, p, env).Ok? ==> forall k ::
      Get(Filtered(roles, p, env).value, k) == if RoleVerdict(p, env, k) == Ok(false) then None else Get(roles, k)
  {
    FilterFromEffect(roles, Keys(Enumerated(roles)), p, env);
    forall k {
      EnumeratedGet(roles, k);
    }
  }

  // ----- merge -----

  /** Looking up a key in a map with one entry appended. */
  lemma {:induction false} GetSnoc(m: seq<(string, nat)>, e: (string, nat), k: string)
    ensures Get(m + [e], k) == if Get(m, k).Some? then Get(m, k) else if e.0 == k then Some(e.1) else None
    decreases |m|
  {
    if |m| == 0 {
      assert m + [e] == [e];
    } else {
      assert (m + [e])[1..] == m[1..] + [e];
      GetSnoc(m[1..], e, k);
    }
  }

  /** Merging one role map sets each of its keys to the merged depth and leaves other keys alone. */
  lemma {:induction false} MergeIntoGet(acc: RoleMap, roles: RoleMap, k: string)
    ensures Get(MergeInto(acc, roles), k) ==
      if Get(roles, k).None? then Get(acc, k) else Some(MergedDepth(Get(roles, k).value, Get(acc, k)))
    decreases |roles|
  {
    if |roles| > 0 {
      var prefix: RoleMap := roles[..|roles| - 1];
      var last := roles[|roles| - 1];
      assert roles == prefix + [last];
      GetSnoc(prefix, last, k);
      MergeIntoGet(acc, prefix, k);
      var merged := MergeInto(acc, prefix);
      PutGet(merged, last.0, MergedDepth(last.1, Get(merged, last.0)));
    }
  }

  /** A map whose depths are all positive. */
  predicate Positive(m: seq<(string, nat)>)
  {
    forall j :: 0 <= j < |m| ==> m[j].1 > 0
  }

  lemma GetPositive(m: seq<(string, nat)>, k: string)
    requires Positive(m) && Get(m, k).Some?
    ensures Get(m, k).value > 0
  {
    var j :| 0 <= j < |m| && m[j] == (k, Get(m, k).value);
  }

  /** Some map of `lists` has key `k`. */
  ghost predicate Listed(lists: seq<RoleMap>, k: string)
  {
    exists i :: 0 <= i < |lists| && Get(lists[i], k).Some?
  }

  /** A key is listed in some map exactly when it is listed in an earlier map or in the last one. */
  lemma ListedSnoc(lists: seq<RoleMap>, k: string)
    requires |lists| > 0
    ensures Listed(lists, k) <==> Listed(lists[..|lists| - 1], k) || Get(lists[|lists| - 1], k).Some?
  {
    var prefix := lists[..|lists| - 1];
    if Listed(lists, k) {
      var i :| 0 <= i < |lists| && Get(lists[i], k).Some?;
      if i < |prefix| {
        assert prefix[i] == lists[i];
      }
    }
    if Listed(prefix, k) {
      var i :| 0 <= i < |prefix| && Get(prefix[i], k).Some?;
      assert prefix[i] == lists[i];
    }
  }

  /** Merging several role maps keeps a key exactly when the accumulator or some map has it. */
  lemma {:induction false} MergeFromKeys(acc: RoleMap, lists: seq<RoleMap>, k: string)
    ensures Get(MergeFrom(acc, lists), k).Some? <==> Get(acc, k).Some? || Listed(lists, k)
    decreases |lists|
  {
    if |lists| > 0 {
      var prefix := lists[..|lists| - 1];
      MergeFromKeys(acc, prefix, k);
      MergeIntoGet(MergeFrom(acc, prefix), Enumerated(lists[|lists| - 1]), k);
      EnumeratedGet(lists[|lists| - 1], k);
      ListedSnoc(lists, k);
    }
  }

  /** `d` is at most every depth that a map of `lists` gives for `k`. */
  ghost predicate Below(lists: seq<RoleMap>, k: string, d: nat)
  {
    forall i :: 0 <= i < |lists| && Get(lists[i], k).Some? ==> d <= Get(lists[i], k).value
  }

  lemma BelowSnoc(lists: seq<RoleMap>, k: string, d: nat)
    requires |lists| > 0
    ensures Below(lists, k, d) <==>
      Below(lists[..|lists| - 1], k, d) &&
      (Get(lists[|lists| - 1], k).Some? ==> d <= Get(lists[|lists| - 1], k).value)
  {
    var prefix := lists[..|lists| - 1];
    assert forall i :: 0 <= i < |prefix| ==> prefix[i] == lists[i];
  }

  /** Lowering a bound keeps it a bound. */
  lemma BelowMonotone(lists: seq<RoleMap>, k: string, d: nat, e: nat)
    requires Below(lists, k, d) && e <= d
    ensures Below(lists, k, e)
  {
  }

  /** A key that no map lists is bounded by anything. */
  lemma UnlistedBelow(lists: seq<RoleMap>, k: string, d: nat)
    requires !Listed(lists, k)
    ensures Below(lists, k, d)
  {
  }

  /** With positive depths, the merged depth is at most every depth given for the key. */
  lemma {:induction false} MergeFromBelow(acc: RoleMap, lists: seq<RoleMap>, k: string)
    requires Positive(acc) && forall i :: 0 <= i < |lists| ==> Positive(lists[i])
    requires Get(MergeFrom(acc, lists), k).Some?
    ensures Get(MergeFrom(acc, lists), k).value > 0
    ensures Get(acc, k).Some? ==> Get(MergeFrom(acc, lists), k).value <= Get(acc, k).value
    ensures Below(lists, k, Get(MergeFrom(acc, lists), k).value)
    decreases |lists|
  {
    if |lists| == 0 {
      GetPositive(acc, k);
    } else {
      var prefix := lists[..|lists| - 1];
      var last := lists[|lists| - 1];
      var merged := MergeFrom(acc, prefix);
      var d := Get(MergeFrom(acc, lists), k).value;
      MergeIntoGet(merged, Enumerated(last), k);
      EnumeratedGet(last, k);
      if Get(last, k).Some? {
        GetPositive(last, k);
      }
      if Get(merged, k).Some? {
        MergeFromBelow(acc, prefix, k);
        BelowMonotone(prefix, k, Get(merged, k).value, d);
      } else {
        MergeFromKeys(acc, prefix, k);
        UnlistedBelow(prefix, k, d);
      }
      BelowSnoc(lists, k, d);
    }
  }

  /** The merged depth is one of the depths given for the key. */
  lemma {:induction false} MergeFromAttained(acc: RoleMap, lists: seq<RoleMap>, k: string)
    requires Get(MergeFrom(acc, lists), k).Some?
    ensures Get(acc, k) == Get(MergeFrom(acc, lists), k) ||
      exists i :: 0 <= i < |lists| && Get(lists[i], k) == Get(MergeFrom(acc, lists), k)
    decreases |lists|
  {
    if |lists| > 0 {
      var prefix := lists[..|lists| - 1];
      var last := lists[|lists| - 1];
      var merged := MergeFrom(acc, prefix);
      MergeIntoGet(merged, Enumerated(last), k);
      EnumeratedGet(last, k);
      if Get(merged, k).Some? {
        MergeFromAttained(acc, prefix, k);
        assert forall i :: 0 <= i < |prefix| ==> prefix[i] == lists[i];
      }
    }
  }

  /**
   * getUserRoles' merge, with positive depths: the merged keys are the union
   * of the providers' keys, and each depth is the least one any provider gave.
   */
  lemma MergeAllMinimum(lists: seq<RoleMap>, k: string)
    requires forall i :: 0 <= i < |lists| ==> Positive(lists[i])
    ensures Get(MergeAll(lists), k).Some? <==> exists i :: 0 <= i < |lists| && Get(lists[i], k).Some?
    ensures Get(MergeAll(lists), k).Some? ==>
      Below(lists, k, Get(MergeAll(lists), k).value) &&
      (exists i :: 0 <= i < |lists| && Get(lists[i], k) == Get(MergeAll(lists), k))
  {
    MergeFromKeys([], lists, k);
    if Get(MergeAll(lists), k).Some? {
      MergeFromBelow([], lists, k);
      MergeFromAttained([], lists, k);
    }
  }

  /** A depth of 0 already merged counts as absent: the next provider's depth replaces it, even a larger one. */
  lemma ZeroDepthReplaced(acc: RoleMap, role: string, depth: nat)
    requires Get(acc, role) == Some(0)
    ensures Get(MergeInto(acc, [(role, depth)]), role) == Some(depth)
  {
    MergeIntoGet(acc, [(role, depth)], role);
  }

  // ----- provider failure isolation -----

  /** The rejection of two consecutive parts of the provider list, or their lists joined. */
  function Joined(a: Result<seq<RoleMap>, Error>, b: Result<seq<RoleMap>, Error>): Result<seq<RoleMap>, Error>
  {
    if a.Err? then a else if b.Err? then Err(b.error) else Ok(a.value + b.value)
  }

  lemma {:induction false} RoleListsAppend(a: seq<Provider>, b: seq<Provider>, env: Env)
    ensures RoleLists(a + b, env) == Joined(RoleLists(a, env), RoleLists(b, env))
    decreases |b|
  {
    if |b| == 0 {
      assert a + b == a;
      if RoleLists(a, env).Ok? {
        assert RoleLists(a, env).value + [] == RoleLists(a, env).value;
      }
    } else {
      var front, x := b[..|b| - 1], b[|b| - 1];
      assert (a + b)[..|a + b| - 1] == a + front;
      assert (a + b)[|a + b| - 1] == x;
      RoleListsAppend(a, front, env);
      var ra, rf, rx := RoleLists(a, env), RoleLists(front, env), ProviderRoles(x, env);
      if ra.Ok? && rf.Ok? && rx.Ok? {
        assert ra.value + (rf.value + [rx.value]) == (ra.value + rf.value) + [rx.value];
      }
    }
  }

  lemma {:induction false} MergeFromAppend(acc: RoleMap, x: seq<RoleMap>, y: seq<RoleMap>)
    ensures MergeFrom(acc, x + y) == MergeFrom(MergeFrom(acc, x), y)
    decreases |y|
  {
    if |y| == 0 {
      assert x + y == x;
    } else {
      assert (x + y)[..|x + y| - 1] == x + y[..|y| - 1];
      MergeFromAppend(acc, x, y[..|y| - 1]);
    }
  }

  /**
   * A provider whose getRoles throws contributes `{}`: the merged roles are
   * those of the other providers, which still contribute.
   */
  lemma ThrowingProviderIgnored(providers: seq<Provider>, i: nat, env: Env)
    requires i < |providers| && providers[i].getRoles(env.user).Threw?
    ensures UserRoles(providers, env) == UserRoles(providers[..i] + providers[i + 1..], env)
  {
    var a, b := providers[..i], providers[i + 1..];
    assert providers == a + [providers[i]] + b;
    var single := [providers[i]];
    assert single[..0] == [] && single[0] == providers[i];
    assert Keys([]) == [];
    assert ProviderRoles(providers[i], env) == Ok([]);
    var none: seq<RoleMap> := [];
    assert RoleLists(single[..0], env) == Ok(none);
    assert RoleLists(single, env) == Ok(none + [[]]);
    RoleListsAppend(a + single, b, env);
    RoleListsAppend(a, single, env);
    RoleListsAppend(a, b, env);
    if RoleLists(a, env).Ok? && RoleLists(b, env).Ok? {
      var la, lb := RoleLists(a, env).value, RoleLists(b, env).value;
      MergeFromAppend([], la + [[]], lb);
      MergeFromAppend([], la, [[]]);
      MergeFromAppend([], la, lb);
      var empty: seq<RoleMap> := [[]];
      assert empty[..0] == [];
    }
  }

  /** One rejecting provider makes the list of contributions reject. */
  lemma {:induction false} RoleListsFails(providers: seq<Provider>, env: Env, i: nat)
    requires i < |providers| && ProviderRoles(providers[i], env).Err?
    ensures RoleLists(providers, env).Err?
    decreases |providers|
  {
    if i < |providers| - 1 {
      RoleListsFails(providers[..|providers| - 1], env, i);
    }
  }

  /** When every provider contributes, the list of contributions resolves. */
  lemma {:induction false} RoleListsResolve(providers: seq<Provider>, env: Env)
    requires forall j :: 0 <= j < |providers| ==> ProviderRoles(providers[j], env).Ok?
    ensures RoleLists(providers, env).Ok?
    decreases |providers|
  {
    if |providers| > 0 {
      RoleListsResolve(providers[..|providers| - 1], env);
    }
  }

  /** The list of contributions rejects with the error of the first rejecting provider. */
  lemma {:induction false} RoleListsFirstError(providers: seq<Provider>, env: Env, i: nat)
    requires i < |providers| && ProviderRoles(providers[i], env).Err?
    requires forall j :: 0 <= j < i ==> ProviderRoles(providers[j], env).Ok?
    ensures RoleLists(providers, env) == Err(ProviderRoles(providers[i], env).error)
    decreases |providers|
  {
    var prefix := providers[..|providers| - 1];
    if i < |providers| - 1 {
      RoleListsFirstError(prefix, env, i);
    } else {
      RoleListsResolve(prefix, env);
    }
  }

  /**
   * A provider whose getRoles throws a truthy primitive makes the check
   * reject: its catch cannot set `err.role`. When every earlier provider
   * contributes, the rejection is that TypeError.
   */
  lemma PrimitiveThrowRejects(providers: seq<Provider>, i: nat, env: Env, expr: Expr)
    requires i < |providers| && providers[i].getRoles(env.user).ThrewPrimitive?
    ensures UserRoles(providers, env).Err? && CheckSpec(providers, env, expr).Err?
    ensures (forall j :: 0 <= j < i ==> ProviderRoles(providers[j], env).Ok?) ==>
      CheckSpec(providers, env, expr) == Err(PrimitiveRole)
  {
    RoleListsFails(providers, env, i);
    if forall j :: 0 <= j < i ==> ProviderRoles(providers[j], env).Ok? {
      RoleListsFirstError(providers, env, i);
    }
  }

  // ----- role permissions -----

  /** When every provider returns, the collected results are theirs, in provider order. */
  lemma {:induction false} PermissionListsAt(providers: seq<Provider>, role: string)
    requires forall i :: 0 <= i < |providers| ==> providers[i].getPermissions(role).Returned?
    ensures PermissionLists(providers, role).Some?
    ensures |PermissionLists(providers, role).value| == |providers|
    ensures forall i :: 0 <= i < |providers| ==>
      PermissionLists(providers, role).value[i] == providers[i].getPermissions(role).value
    decreases |providers|
  {
    if |providers| > 0 {
      PermissionListsAt(providers[..|providers| - 1], role);
    }
  }

  /** One provider throwing, whatever it throws, makes getRolePermissions reject with the error of its catch. */
  lemma {:induction false} PermissionThrowRejects(providers: seq<Provider>, role: string, i: nat)
    requires i < |providers| && !providers[i].getPermissions(role).Returned?
    ensures RolePermissions(providers, role) == Err(ErrUndeclared)
    decreases |providers|
  {
    if i < |providers| - 1 {
      PermissionThrowRejects(providers[..|providers| - 1], role, i);
    }
  }

  lemma {:induction false} UnionOfArrays(lists: seq<NameList>)
    requires forall i :: 0 <= i < |lists| ==> lists[i].Array?
    ensures UnionAll(lists).Ok? && UnionAll(lists).value.Granted?
    ensures forall n :: n in UnionAll(lists).value.names <==>
      exists i :: 0 <= i < |lists| && n in lists[i].names
    decreases |lists|
  {
    if |lists| > 0 {
      UnionOfArrays(lists[..|lists| - 1]);
      assert forall i :: 0 <= i < |lists| - 1 ==> lists[..|lists| - 1][i] == lists[i];
    }
  }

  /** When every provider returns an array, a role's permissions are the union of those arrays. */
  lemma PermissionsUnion(providers: seq<Provider>, role: string)
    requires forall i :: 0 <= i < |providers| ==>
      providers[i].getPermissions(role).Returned? && providers[i].getPermissions(role).value.Array?
    ensures RolePermissions(providers, role).Ok? && RolePermissions(providers, role).value.Granted?
    ensures forall n :: n in RolePermissions(providers, role).value.names <==>
      exists i :: 0 <= i < |providers| && n in providers[i].getPermissions(role).value.names
  {
    PermissionListsAt(providers, role);
    UnionOfArrays(PermissionLists(providers, role).value);
  }

  // ----- priorities -----

  /** Some group lies entirely inside `names`. */
  ghost predicate SomeGroupIn(groups: seq<seq<string>>, names: set<string>)
  {
    exists i :: 0 <= i < |groups| && forall t :: t in groups[i] ==> t in names
  }

  /**
   * Over a permission object, a role yields its depth exactly when the depth
   * is truthy and one group lies entirely inside the role's own permissions;
   * otherwise NaN.
   */
  lemma {:induction false} RolePriorityGranted(names: set<string>, groups: seq<seq<string>>, depth: nat)
    ensures RolePriority(Granted(names), groups, depth) ==
      Ok(if depth > 0 && SomeGroupIn(groups, names) then Some(depth) else None)
    decreases |groups|
  {
    if |groups| > 0 {
      var prefix := groups[..|groups| - 1];
      RolePriorityGranted(names, prefix, depth);
      assert forall i :: 0 <= i < |prefix| ==> prefix[i] == groups[i];
      if SomeGroupIn(groups, names) && !SomeGroupIn(prefix, names) {
        var i :| 0 <= i < |groups| && forall t :: t in groups[i] ==> t in names;
        assert i == |groups| - 1;
      }
    }
  }

  /** When a permission result replaced the object with a non-array, any non-empty group rejects. */
  lemma {:induction false} RolePriorityNullish(groups: seq<seq<string>>, depth: nat)
    ensures RolePriority(Nullish, groups, depth).Err? <==> exists i :: 0 <= i < |groups| && |groups[i]| > 0
    decreases |groups|
  {
    if |groups| > 0 {
      var prefix := groups[..|groups| - 1];
      RolePriorityNullish(prefix, depth);
      assert forall i :: 0 <= i < |prefix| ==> prefix[i] == groups[i];
    }
  }

  /** The reduce without an initial value gives the last non-NaN priority, or NaN when there is none. */
  lemma {:induction false} ReducedIsLast(ps: seq<Option<nat>>)
    requires |ps| > 0
    ensures (forall i :: 0 <= i < |ps| ==> ps[i].None?) ==> Reduced(ps).None?
    ensures (exists i :: 0 <= i < |ps| && ps[i].Some?) ==>
      exists i :: 0 <= i < |ps| && ps[i] == Reduced(ps) && ps[i].Some? &&
        forall j :: i < j < |ps| ==> ps[j].None?
    decreases |ps|
  {
    if |ps| > 1 && ps[|ps| - 1].None? {
      var prefix := ps[..|ps| - 1];
      ReducedIsLast(prefix);
      assert forall i :: 0 <= i < |prefix| ==> prefix[i] == ps[i];
      if exists i :: 0 <= i < |ps| && ps[i].Some? {
        var i :| 0 <= i < |ps| && ps[i].Some?;
        assert prefix[i].Some?;
      }
    }
  }

  /**
   * The overall result is the last non-NaN priority in role order, not the
   * least one; with no roles, or none granting, it is NaN.
   */
  lemma OverallIsLast(ps: seq<Option<nat>>)
    requires forall i :: 0 <= i < |ps| ==> ps[i] != Some(0)
    ensures Overall(ps).None? <==> forall i :: 0 <= i < |ps| ==> ps[i].None?
    ensures Overall(ps).Some? ==>
      exists i :: 0 <= i < |ps| && ps[i] == Overall(ps) && forall j :: i < j < |ps| ==> ps[j].None?
  {
    if |ps| > 0 {
      ReducedIsLast(ps);
    }
  }

  /** Two granting priorities 1 then 2 give 2: the later role wins over the more direct one. */
  lemma OverallNotMinimum()
    ensures Overall([Some(1), Some(2)]) == Some(2)
  {
  }

  /** Role `i` of the user's roles grants: its permissions resolve and its priority is its depth. */
  ghost predicate Grants(providers: seq<Provider>, roles: seq<(string, nat)>, groups: seq<seq<string>>, i: nat)
    requires i < |roles|
  {
    RolePermissions(providers, roles[i].0).Ok? &&
    RolePriority(RolePermissions(providers, roles[i].0).value, groups, roles[i].1) == Ok(Some(roles[i].1))
  }

  /** Without a rejection, there is one priority per role, that role's own. */
  lemma {:induction false} PrioritiesAt(providers: seq<Provider>, roles: seq<(string, nat)>, groups: seq<seq<string>>)
    requires Priorities(providers, roles, groups).Ok?
    ensures |Priorities(providers, roles, groups).value| == |roles|
    ensures forall i :: 0 <= i < |roles| ==>
      RolePermissions(providers, roles[i].0).Ok? &&
      RolePriority(RolePermissions(providers, roles[i].0).value, groups, roles[i].1) ==
        Ok(Priorities(providers, roles, groups).value[i])
    decreases |roles|
  {
    if |roles| > 0 {
      PrioritiesAt(providers, roles[..|roles| - 1], groups);
    }
  }

  /**
   * check: when it resolves, it resolves to NaN exactly when no role of the
   * merged map grants, and otherwise to the depth of the last granting role
   * in `Object.keys` order (array index roles first, by value, then the
   * others in insertion order).
   */
  lemma CheckIsLastGrantingRole(providers: seq<Provider>, env: Env, expr: Expr)
    requires CheckSpec(providers, env, expr).Ok?
    ensures UserRoles(providers, env).Ok?
    ensures var roles := Enumerated(UserRoles(providers, env).value);
      var result := CheckSpec(providers, env, expr).value;
      (result.None? <==> forall i :: 0 <= i < |roles| ==> !Grants(providers, roles, Parse(expr), i)) &&
      (result.Some? ==>
         exists i :: 0 <= i < |roles| && Grants(providers, roles, Parse(expr), i) &&
           result == Some(roles[i].1) && forall j :: i < j < |roles| ==> !Grants(providers, roles, Parse(expr), j))
  {
    var roles := Enumerated(UserRoles(providers, env).value);
    assert Priorities(providers, roles, Parse(expr)).Ok?;
    LastGranting(providers, roles, Parse(expr));
  }

  /** The overall priority of resolved per-role priorities is that of the last granting role. */
  lemma LastGranting(providers: seq<Provider>, roles: seq<(string, nat)>, groups: seq<seq<string>>)
    requires Priorities(providers, roles, groups).Ok?
    ensures var result := Overall(Priorities(providers, roles, groups).value);
      (result.None? <==> forall i :: 0 <= i < |roles| ==> !Grants(providers, roles, groups, i)) &&
      (result.Some? ==>
         exists i :: 0 <= i < |roles| && Grants(providers, roles, groups, i) &&
           result == Some(roles[i].1) && forall j :: i < j < |roles| ==> !Grants(providers, roles, groups, j))
  {
    PrioritiesAt(providers, roles, groups);
    var ps := Priorities(providers, roles, groups).value;
    forall i | 0 <= i < |roles|
      ensures ps[i] != Some(0)
      ensures ps[i].Some? <==> Grants(providers, roles, groups, i)
      ensures ps[i].Some? ==> ps[i] == Some(roles[i].1)
    {
    }
    OverallIsLast(ps);
  }

  /** With no provider, check resolves to NaN. */
  lemma NoProviderDenies(env: Env, expr: Expr)
    ensures CheckSpec([], env, expr) == Ok(None)
  {
  }
}
