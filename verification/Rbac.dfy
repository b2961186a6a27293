/**
 * The permission check of lib/rbac.js. A check gathers each provider's role
 * map, filters it by the roles' attributes, merges the maps keeping the best
 * depth, unites each role's permissions across providers, and reduces the
 * roles that satisfy the permission expression to one priority. NaN, the
 * denial value, is None.
 *
 * The specification functions state what each step computes; the methods
 * below them perform the same steps with the source's loops and
 * accumulators and are proved equal to them.
 */
module Rbac {
  import opened Wrappers
  import opened Js
  import opened RoleMaps
  import opened KeyOrder
  import opened Attributes
  import opened PermissionExpr

  /**
   * A roles, permissions and attributes provider. Each lookup either returns
   * or throws; a permission or attribute result is an array of names, a falsy
   * value or some other value.
   */
  class Provider {
    const getRoles: string -> Outcome<RoleMap>
    const getPermissions: string -> Outcome<NameList>
    const getAttributes: string -> Outcome<NameList>

    constructor (getRoles: string -> Outcome<RoleMap>,
                 getPermissions: string -> Outcome<NameList>,
                 getAttributes: string -> Outcome<NameList>)
      ensures this.getRoles == getRoles && this.getPermissions == getPermissions
      ensures this.getAttributes == getAttributes
    {
      this.getRoles := getRoles;
      this.getPermissions := getPermissions;
      this.getAttributes := getAttributes;
    }
  }

  /** The argument of `addProvider`: a Provider instance, or anything else. */
  datatype ProviderArg = Instance(provider: Provider) | NotAProvider

  /** The constructor's arguments: none, an AttributesManager, or anything else. */
  datatype ManagerArg = NoArgument | Manager(manager: AttributesManager) | NotAManager

  /** What one check knows of the attributes manager, and the user being checked. */
  datatype Env = Env(handlers: map<string, Handler>, ignoreMissing: bool, user: string)

  function EnvOf(manager: AttributesManager, user: string): Env
    reads manager
  {
    Env(manager.attributes, manager.ignoreMissingAttributes, user)
  }

  /** The catch after a failed `validate` reads `emitter`, which is not in scope there. */
  const EmitterUndeclared := ReferenceError("emitter")
  /** The catch after a failed `getPermissions` reads `err`, which is not declared there. */
  const ErrUndeclared := ReferenceError("err")
  /** A catch setting `err.role` on a thrown truthy primitive (strict mode). */
  const PrimitiveRole := TypeError("Cannot create property 'role' on a primitive value")
  /** `(roleAttributes || []).map` on a truthy value that is not an array. */
  const NotMappable := TypeError("(roleAttributes || []).map is not a function")
  const NullWrite := "Cannot set properties of null"
  const NullRead := "Cannot read properties of null"

  // ----- filterRolesByAttributes -----

  /**
   * One attribute of a role: the validation result, or the rejection its
   * catch turns a failure into. The catch first sets `err.role`, which fails
   * on a thrown truthy primitive, and otherwise reaches `emitter`.
   */
  function AttributeResult(env: Env, name: string): (r: Result<bool, Error>)
    ensures var v := Validation(env.handlers, env.ignoreMissing, Arg.Text(name), env.user);
      (r.Ok? <==> v.Ok?) &&
      (r.Ok? ==> r.value == v.value) &&
      (v == Err(ThrownPrimitive) ==> r == Err(PrimitiveRole)) &&
      (v.Err? && v.error != ThrownPrimitive ==> r == Err(EmitterUndeclared))
  {
    match Validation(env.handlers, env.ignoreMissing, Arg.Text(name), env.user)
    case Ok(b) => Ok(b)
    case Err(ThrownPrimitive) => Err(PrimitiveRole)
    case Err(_) => Err(EmitterUndeclared)
  }

  /** What the combined result of the attribute checks of `names` promises. */
  ghost predicate Combines(env: Env, names: seq<string>, r: Result<bool, Error>)
  {
    && (r.Err? <==> exists i :: 0 <= i < |names| && AttributeResult(env, names[i]).Err?)
    && (r.Err? ==>
         exists i :: 0 <= i < |names| && r == AttributeResult(env, names[i]) &&
           forall j :: 0 <= j < i ==> AttributeResult(env, names[j]).Ok?)
    && (r.Ok? ==> (r.value <==> forall i :: 0 <= i < |names| ==> AttributeResult(env, names[i]) == Ok(true)))
  }

  /** Adding one attribute check after those of `names` keeps `Combines`. */
  lemma CombinesSnoc(env: Env, names: seq<string>, before: Result<bool, Error>)
    requires |names| > 0 && Combines(env, names[..|names| - 1], before)
    ensures var last := AttributeResult(env, names[|names| - 1]);
      Combines(env, names, if before.Err? then before else if last.Err? then last else Ok(before.value && last.value))
  {
    var n := |names| - 1;
    var init := names[..n];
    var last := AttributeResult(env, names[n]);
    assert forall i :: 0 <= i < n ==> init[i] == names[i];
    if before.Err? {
      var i :| 0 <= i < n && before == AttributeResult(env, init[i]) &&
        forall j :: 0 <= j < i ==> AttributeResult(env, init[j]).Ok?;
      assert before == AttributeResult(env, names[i]);
    } else if last.Err? {
      assert forall j :: 0 <= j < n ==> AttributeResult(env, names[j]).Ok? by {
        forall j | 0 <= j < n ensures AttributeResult(env, names[j]).Ok? {
          assert AttributeResult(env, init[j]).Ok?;
        }
      }
    } else {
      forall i | 0 <= i < |names| ensures AttributeResult(env, names[i]).Ok? {
        if i < n {
          assert AttributeResult(env, init[i]).Ok?;
        }
      }
    }
  }

  /**
   * All attributes of a role together: the rejection of the first failing
   * attribute if any fails, else whether none is false.
   */
  function AllValid(env: Env, names: seq<string>): (r: Result<bool, Error>)
    ensures r.Err? <==> exists i :: 0 <= i < |names| && AttributeResult(env, names[i]).Err?
    ensures r.Err? ==>
      exists i :: 0 <= i < |names| && r == AttributeResult(env, names[i]) &&
        forall j :: 0 <= j < i ==> AttributeResult(env, names[j]).Ok?
    ensures r.Ok? ==> (r.value <==> forall i :: 0 <= i < |names| ==> AttributeResult(env, names[i]) == Ok(true))
  {
    if |names| == 0 then Ok(true)
    else
      var before := AllValid(env, names[..|names| - 1]);
      var last := AttributeResult(env, names[|names| - 1]);
      CombinesSnoc(env, names, before);
      if before.Err? then before
      else if last.Err? then last
      else Ok(before.value && last.value)
  }

  /**
   * Whether a role stays: a falsy attribute list keeps it, an array keeps it
   * when every attribute validates true; a throwing getAttributes, or a
   * truthy list that is not an array, rejects.
   */
  function RoleVerdict(p: Provider, env: Env, role: string): (r: Result<bool, Error>)
    ensures p.getAttributes(role) == Returned(Falsy) ==> r == Ok(true)
    ensures !p.getAttributes(role).Returned? ==> r == Err(Rethrown(p.getAttributes(role)))
    ensures p.getAttributes(role) == Returned(NotAnArray) ==> r == Err(NotMappable)
    ensures r == Ok(false) ==>
      p.getAttributes(role).Returned? && p.getAttributes(role).value.Array? &&
      exists i :: 0 <= i < |p.getAttributes(role).value.names| &&
        AttributeResult(env, p.getAttributes(role).value.names[i]) == Ok(false)
  {
    match p.getAttributes(role)
    case Threw => Err(Thrown)
    case ThrewPrimitive => Err(ThrownPrimitive)
    case Returned(Falsy) => Ok(true)
    case Returned(NotAnArray) => Err(NotMappable)
    case Returned(Array(names)) => AllValid(env, names)
  }

  /** The role map after the verdicts of `keys`, in order; the first failing verdict rejects. */
  function FilterFrom(roles: RoleMap, keys: seq<string>, p: Provider, env: Env): (r: Result<RoleMap, Error>)
    ensures r.Ok? ==> forall k :: Get(r.value, k).Some? ==> Get(r.value, k) == Get(roles, k)
    decreases |keys|
  {
    if |keys| == 0 then Ok(roles)
    else
      match RoleVerdict(p, env, keys[0])
      case Err(e) => Err(e)
      case Ok(keep) =>
        WithoutEffect(roles, keys[0]);
        FilterFrom(if keep then roles else Without(roles, keys[0]), keys[1..], p, env)
  }

  /**
   * filterRolesByAttributes: the provider's role map without the roles whose
   * attributes fail, the roles taken in `Object.keys` order.
   */
  function Filtered(roles: RoleMap, p: Provider, env: Env): (r: Result<RoleMap, Error>)
    ensures r.Ok? ==> forall k :: Get(r.value, k).Some? ==> Get(r.value, k) == Get(roles, k)
  {
    FilterFrom(roles, Keys(Enumerated(roles)), p, env)
  }

  // ----- getUserRoles -----

  /**
   * One provider's contribution: its roles filtered by attributes. When
   * getRoles throws an object or a falsy value, its catch gives `{}`; when it
   * throws a truthy primitive, setting `err.role` fails and the check rejects.
   */
  function ProviderRoles(p: Provider, env: Env): (r: Result<RoleMap, Error>)
    ensures p.getRoles(env.user).Threw? ==> r == Ok([])
    ensures p.getRoles(env.user).ThrewPrimitive? ==> r == Err(PrimitiveRole)
    ensures r.Ok? && p.getRoles(env.user).Returned? ==>
      forall k :: Get(r.value, k).Some? ==> Get(r.value, k) == Get(p.getRoles(env.user).value, k)
  {
    match p.getRoles(env.user)
    case Returned(roles) => Filtered(roles, p, env)
    case Threw =>
      assert Keys(Enumerated([])) == [];
      Filtered([], p, env)
    case ThrewPrimitive => Err(PrimitiveRole)
  }

  /** Every provider's contribution, in provider order; the first rejection rejects. */
  function RoleLists(providers: seq<Provider>, env: Env): Result<seq<RoleMap>, Error>
  {
    if |providers| == 0 then Ok([])
    else
      match RoleLists(providers[..|providers| - 1], env)
      case Err(e) => Err(e)
      case Ok(lists) =>
        match ProviderRoles(providers[|providers| - 1], env)
        case Err(e) => Err(e)
        case Ok(roles) => Ok(lists + [roles])
  }

  /** `Math.min(depth, existing || Infinity)`: an absent or zero existing depth does not count. */
  function MergedDepth(depth: nat, existing: Option<nat>): (r: nat)
    ensures existing.Some? && existing.value > 0 ==> r <= existing.value
    ensures r <= depth
    ensures r == depth || (existing.Some? && r == existing.value)
  {
    if existing.Some? && existing.value != 0 && existing.value < depth then existing.value else depth
  }

  /**
   * The merge of one role map into the accumulator, entry by entry: the
   * accumulator's keys stay in place and new keys follow in order.
   */
  function MergeInto(acc: RoleMap, roles: seq<(string, nat)>): (r: RoleMap)
    ensures Keys(r) == FirstSeen(Keys(acc), Keys(roles))
  {
    if |roles| == 0 then acc
    else
      var prefix := roles[..|roles| - 1];
      var merged := MergeInto(acc, prefix);
      var (role, depth) := roles[|roles| - 1];
      PutKeys(merged, role, MergedDepth(depth, Get(merged, role)));
      FirstSeenAppend(Keys(acc), Keys(prefix), [role]);
      KeysSnoc(roles);
      Put(merged, role, MergedDepth(depth, Get(merged, role)))
  }

  /** The `Object.keys` of each map, one map after the other. */
  function KeyLists(lists: seq<RoleMap>): seq<string>
  {
    if |lists| == 0 then [] else KeyLists(lists[..|lists| - 1]) + Keys(Enumerated(lists[|lists| - 1]))
  }

  /** The merge of several role maps into the accumulator, map by map, each in `Object.keys` order. */
  function MergeFrom(acc: RoleMap, lists: seq<RoleMap>): (r: RoleMap)
    ensures Keys(r) == FirstSeen(Keys(acc), KeyLists(lists))
  {
    if |lists| == 0 then acc
    else
      var prefix := lists[..|lists| - 1];
      FirstSeenAppend(Keys(acc), KeyLists(prefix), Keys(Enumerated(lists[|lists| - 1])));
      MergeInto(MergeFrom(acc, prefix), Enumerated(lists[|lists| - 1]))
  }

  /**
   * The merge of all role maps, starting from `{}`: the merged roles are
   * inserted in the order in which they first appear across the providers.
   */
  function MergeAll(lists: seq<RoleMap>): (r: RoleMap)
    ensures Keys(r) == FirstSeen([], KeyLists(lists))
  {
    MergeFrom([], lists)
  }

  /** getUserRoles: the merged role map of all providers. */
  function UserRoles(providers: seq<Provider>, env: Env): Result<RoleMap, Error>
  {
    match RoleLists(providers, env)
    case Err(e) => Err(e)
    case Ok(lists) => Ok(MergeAll(lists))
  }

  // ----- getRolePermissions -----

  /** The accumulator of the permission reduce: an object of granted names, or a non-array result. */
  datatype Table = Granted(names: set<string>) | Nullish

  /** Every provider's permission result for `role`, or None when one of them throws. */
  function PermissionLists(providers: seq<Provider>, role: string): Option<seq<NameList>>
  {
    if |providers| == 0 then Some([])
    else
      match PermissionLists(providers[..|providers| - 1], role)
      case None => None
      case Some(lists) =>
        match providers[|providers| - 1].getPermissions(role)
        case Returned(list) => Some(lists + [list])
        case _ => None
  }

  /**
   * One step of the reduce: an array adds its names to the accumulator; a
   * non-array result replaces it. Adding a name to a replaced accumulator
   * throws, while an empty array becomes the new accumulator.
   */
  function AddList(acc: Table, list: NameList): (r: Result<Table, Error>)
    ensures r.Err? <==> acc.Nullish? && list.Array? && |list.names| > 0
    ensures !list.Array? ==> r == Ok(Nullish)
    ensures r.Ok? && list.Array? ==> r.value.Granted? && forall n :: n in list.names ==> n in r.value.names
    ensures r.Ok? && acc.Granted? && list.Array? ==> acc.names <= r.value.names
    ensures r.Ok? && r.value.Granted? ==> forall n :: n in r.value.names ==>
      (acc.Granted? && n in acc.names) || (list.Array? && n in list.names)
  {
    match list
    case Array(names) =>
      if acc.Granted? then Ok(Granted(acc.names + set n | n in names))
      else if |names| == 0 then Ok(Granted({}))
      else Err(TypeError(NullWrite))
    case _ => Ok(Nullish)
  }

  /** The reduce over all permission results, starting from `{}`: every granted name comes from some array. */
  function UnionAll(lists: seq<NameList>): (r: Result<Table, Error>)
    ensures r.Err? ==> r.error == TypeError(NullWrite)
    ensures r.Ok? && r.value.Granted? ==> forall n :: n in r.value.names ==>
      exists i :: 0 <= i < |lists| && lists[i].Array? && n in lists[i].names
  {
    if |lists| == 0 then Ok(Granted({}))
    else
      assert forall i :: 0 <= i < |lists| - 1 ==> lists[..|lists| - 1][i] == lists[i];
      match UnionAll(lists[..|lists| - 1])
      case Err(e) => Err(e)
      case Ok(acc) => AddList(acc, lists[|lists| - 1])
  }

  /** getRolePermissions: a thrown getPermissions rejects, otherwise the reduce of the results. */
  function RolePermissions(providers: seq<Provider>, role: string): Result<Table, Error>
  {
    match PermissionLists(providers, role)
    case None => Err(ErrUndeclared)
    case Some(lists) => UnionAll(lists)
  }

  // ----- check: priorities -----

  /** `group.every(p => rolePermissions[p])`: reading a permission of a non-array result throws. */
  function Satisfied(table: Table, group: seq<string>): (r: Result<bool, Error>)
    ensures r.Err? <==> table.Nullish? && |group| > 0
    ensures r.Ok? ==> (r.value <==> forall t :: t in group ==> table.Granted? && t in table.names)
  {
    match table
    case Granted(names) => Ok(forall t :: t in group ==> t in names)
    case Nullish => if |group| == 0 then Ok(true) else Err(TypeError(NullRead))
  }

  /**
   * The per-role reduce from NaN: the role's depth when a group is satisfied
   * and the depth is truthy; every group is evaluated, so any failing one
   * rejects.
   */
  function RolePriority(table: Table, groups: seq<seq<string>>, depth: nat): (r: Result<Option<nat>, Error>)
    ensures r.Err? <==> exists i :: 0 <= i < |groups| && Satisfied(table, groups[i]).Err?
    ensures r.Ok? && r.value.Some? ==>
      r.value == Some(depth) && depth > 0 &&
      exists i :: 0 <= i < |groups| && Satisfied(table, groups[i]) == Ok(true)
  {
    if |groups| == 0 then Ok(None)
    else
      assert forall i :: 0 <= i < |groups| - 1 ==> groups[..|groups| - 1][i] == groups[i];
      match RolePriority(table, groups[..|groups| - 1], depth)
      case Err(e) => Err(e)
      case Ok(priority) =>
        match Satisfied(table, groups[|groups| - 1])
        case Err(e) => Err(e)
        case Ok(all) => Ok(if all && depth != 0 then Some(depth) else priority)
  }

  /** The priority of every role, in role order; the first rejection rejects. */
  function Priorities(providers: seq<Provider>, roles: seq<(string, nat)>, groups: seq<seq<string>>)
    : Result<seq<Option<nat>>, Error>
  {
    if |roles| == 0 then Ok([])
    else
      match Priorities(providers, roles[..|roles| - 1], groups)
      case Err(e) => Err(e)
      case Ok(priorities) =>
        match RolePermissions(providers, roles[|roles| - 1].0)
        case Err(e) => Err(e)
        case Ok(table) =>
          match RolePriority(table, groups, roles[|roles| - 1].1)
          case Err(e) => Err(e)
          case Ok(p) => Ok(priorities + [p])
  }

  /** `priorities.reduce((carry, p) => !isNaN(p) ? p : carry)` without an initial value. */
  function Reduced(priorities: seq<Option<nat>>): (r: Option<nat>)
    requires |priorities| > 0
    ensures r.None? <==> forall i :: 0 <= i < |priorities| ==> priorities[i].None?
    ensures r in priorities
  {
    if |priorities| == 1 then priorities[0]
    else if priorities[|priorities| - 1].Some? then priorities[|priorities| - 1]
    else
      assert forall i :: 0 <= i < |priorities| - 1 ==> priorities[..|priorities| - 1][i] == priorities[i];
      Reduced(priorities[..|priorities| - 1])
  }

  /** `priorities.length && reduced || NaN`: a truthy priority taken from the list, or NaN. */
  function Overall(priorities: seq<Option<nat>>): (r: Option<nat>)
    ensures r.Some? ==> r.value > 0 && r in priorities
    ensures (forall i :: 0 <= i < |priorities| ==> priorities[i].None?) ==> r.None?
  {
    if |priorities| == 0 then None
    else
      var reduced := Reduced(priorities);
      if reduced.Some? && reduced.value != 0 then reduced else None
  }

  /**
   * check(user, permissions): the overall priority of the user's roles, taken
   * in `Object.keys` order, for the parsed expression.
   */
  function CheckSpec(providers: seq<Provider>, env: Env, expr: Expr): (r: Result<Option<nat>, Error>)
    ensures r.Ok? ==> UserRoles(providers, env).Ok?
    ensures r.Ok? && r.value.Some? ==> r.value.value > 0
  {
    match UserRoles(providers, env)
    case Err(e) => Err(e)
    case Ok(roles) =>
      match Priorities(providers, Enumerated(roles), Parse(expr))
      case Err(e) => Err(e)
      case Ok(priorities) => Ok(Overall(priorities))
  }

  // ----- the steps, as the source performs them -----

  /** The Promise.all over a role's attributes. */
  method ValidateAll(manager: AttributesManager, user: string, names: seq<string>)
    returns (r: Result<bool, Error>)
    ensures r == AllValid(EnvOf(manager, user), names)
  {
    r := Ok(true);
    var i := 0;
    while i < |names|
      invariant 0 <= i <= |names|
      invariant r == AllValid(EnvOf(manager, user), names[..i])
    {
      var result: Result<bool, Error>;
      match manager.Validate(Arg.Text(names[i]), user) {
        case Ok(b) => result := Ok(b);
        case Err(ThrownPrimitive) => result := Err(PrimitiveRole);
        case Err(_) => result := Err(EmitterUndeclared);
      }
      if r.Ok? {
        r := if result.Err? then result else Ok(r.value && result.value);
      }
      assert names[..i + 1][..i] == names[..i];
      i := i + 1;
    }
    assert names[..|names|] == names;
  }

  /** The verdict filterRolesByAttributes reaches for one role: getAttributes, then every validation. */
  method AttributesVerdict(user: string, role: string, p: Provider, manager: AttributesManager)
    returns (v: Result<bool, Error>)
    ensures v == RoleVerdict(p, EnvOf(manager, user), role)
  {
    match p.getAttributes(role) {
      case Threw =>
        v := Err(Thrown);
      case ThrewPrimitive =>
        v := Err(ThrownPrimitive);
      case Returned(Falsy) =>
        v := Ok(true);
      case Returned(NotAnArray) =>
        v := Err(NotMappable);
      case Returned(Array(names)) =>
        v := ValidateAll(manager, user, names);
    }
  }

  /** filterRolesByAttributes: deletes, in place, every role whose attributes do not all hold. */
  method FilterRolesByAttributes(user: string, roles: RoleMap, p: Provider, manager: AttributesManager)
    returns (r: Result<RoleMap, Error>)
    ensures r == Filtered(roles, p, EnvOf(manager, user))
  {
    var keys := Keys(Enumerated(roles));
    var current := roles;
    var i := 0;
    while i < |keys|
      invariant 0 <= i <= |keys|
      invariant Filtered(roles, p, EnvOf(manager, user)) == FilterFrom(current, keys[i..], p, EnvOf(manager, user))
    {
      assert keys[i..][0] == keys[i] && keys[i..][1..] == keys[i + 1..];
      var verdict := AttributesVerdict(user, keys[i], p, manager);
      if verdict.Err? {
        return Err(verdict.error);
      }
      if !verdict.value {
        current := Without(current, keys[i]);
      }
      i := i + 1;
    }
    r := Ok(current);
  }

  /** One step of the reducer of getUserRoles: merges one map, in `Object.keys` order, into the accumulator. */
  method MergeMap(acc: RoleMap, roles: RoleMap) returns (userRoles: RoleMap)
    ensures userRoles == MergeInto(acc, roles)
  {
    userRoles := acc;
    var j := 0;
    while j < |roles|
      invariant 0 <= j <= |roles|
      invariant userRoles == MergeInto(acc, roles[..j])
    {
      var (role, depth) := roles[j];
      userRoles := Put(userRoles, role, MergedDepth(depth, Get(userRoles, role)));
      assert roles[..j + 1][..j] == roles[..j];
      j := j + 1;
    }
    assert roles[..|roles|] == roles;
  }

  /** The reducer of getUserRoles: merges each map into `{}`, keeping the lower truthy depth. */
  method MergeRoles(lists: seq<RoleMap>) returns (userRoles: RoleMap)
    ensures userRoles == MergeAll(lists)
  {
    userRoles := [];
    var i := 0;
    while i < |lists|
      invariant 0 <= i <= |lists|
      invariant userRoles == MergeFrom([], lists[..i])
    {
      userRoles := MergeMap(userRoles, Enumerated(lists[i]));
      assert lists[..i + 1][..i] == lists[..i];
      i := i + 1;
    }
    assert lists[..|lists|] == lists;
  }

  /**
   * getUserRoles: every provider's filtered roles (`{}` for one whose
   * getRoles throws an object or a falsy value), merged.
   */
  method GetUserRoles(user: string, providers: seq<Provider>, manager: AttributesManager)
    returns (r: Result<RoleMap, Error>)
    ensures r == UserRoles(providers, EnvOf(manager, user))
  {
    var state: Result<seq<RoleMap>, Error> := Ok([]);
    var i := 0;
    while i < |providers|
      invariant 0 <= i <= |providers|
      invariant state == RoleLists(providers[..i], EnvOf(manager, user))
    {
      var p := providers[i];
      var filtered: Result<RoleMap, Error>;
      match p.getRoles(user) {
        case Returned(given) =>
          filtered := FilterRolesByAttributes(user, given, p, manager);
        case Threw =>
          filtered := FilterRolesByAttributes(user, [], p, manager);
        case ThrewPrimitive =>
          filtered := Err(PrimitiveRole);
      }
      if state.Ok? {
        state := if filtered.Err? then Err(filtered.error) else Ok(state.value + [filtered.value]);
      }
      assert providers[..i + 1][..i] == providers[..i];
      i := i + 1;
    }
    assert providers[..|providers|] == providers;
    if state.Err? {
      return Err(state.error);
    }
    var merged := MergeRoles(state.value);
    r := Ok(merged);
  }

  /** getRolePermissions: every provider's result for `role`, then the reduce into one object. */
  method GetRolePermissions(role: string, providers: seq<Provider>) returns (r: Result<Table, Error>)
    ensures r == RolePermissions(providers, role)
  {
    var lists: seq<NameList> := [];
    var threw := false;
    var i := 0;
    while i < |providers|
      invariant 0 <= i <= |providers|
      invariant PermissionLists(providers[..i], role) == if threw then None else Some(lists)
    {
      var result := providers[i].getPermissions(role);
      if !result.Returned? {
        threw := true;
      } else if !threw {
        lists := lists + [result.value];
      }
      assert providers[..i + 1][..i] == providers[..i];
      i := i + 1;
    }
    assert providers[..|providers|] == providers;
    if threw {
      return Err(ErrUndeclared);
    }
    r := Ok(Granted({}));
    var j := 0;
    while j < |lists|
      invariant 0 <= j <= |lists|
      invariant r == UnionAll(lists[..j])
    {
      if r.Ok? {
        match lists[j] {
          case Falsy =>
            r := Ok(Nullish);
          case NotAnArray =>
            r := Ok(Nullish);
          case Array(names) =>
            if r.value.Granted? {
              var granted := r.value.names;
              var k := 0;
              while k < |names|
                invariant 0 <= k <= |names|
                invariant granted == r.value.names + set n | n in names[..k]
              {
                granted := granted + {names[k]};
                assert names[..k + 1] == names[..k] + [names[k]];
                k := k + 1;
              }
              assert names[..|names|] == names;
              r := Ok(Granted(granted));
            } else if |names| == 0 {
              r := Ok(Granted({}));
            } else {
              r := Err(TypeError(NullWrite));
            }
        }
      }
      assert lists[..j + 1][..j] == lists[..j];
      j := j + 1;
    }
    assert lists[..|lists|] == lists;
  }

  /** The Promise.all over the user's roles: each role's permissions, then its priority. */
  method GetPriorities(providers: seq<Provider>, roles: RoleMap, groups: seq<seq<string>>)
    returns (r: Result<seq<Option<nat>>, Error>)
    ensures r == Priorities(providers, roles, groups)
  {
    r := Ok([]);
    var i := 0;
    while i < |roles|
      invariant 0 <= i <= |roles|
      invariant r == Priorities(providers, roles[..i], groups)
    {
      var (role, depth) := roles[i];
      var table := GetRolePermissions(role, providers);
      if r.Ok? {
        if table.Err? {
          r := Err(table.error);
        } else {
          var priority := RolePriority(table.value, groups, depth);
          r := if priority.Err? then Err(priority.error) else Ok(r.value + [priority.value]);
        }
      }
      assert roles[..i + 1][..i] == roles[..i];
      i := i + 1;
    }
    assert roles[..|roles|] == roles;
  }

  /** An RBAC instance: an attributes manager and a list of providers without duplicates. */
  class RBAC {
    const attributes: AttributesManager
    var providers: seq<Provider>

    ghost predicate Valid()
      reads this
    {
      forall i, j :: 0 <= i < j < |providers| ==> providers[i] != providers[j]
    }

    constructor (attributes: AttributesManager)
      ensures this.attributes == attributes && providers == [] && Valid()
    {
      this.attributes := attributes;
      providers := [];
    }

    /**
     * `new RBAC(...)`: any argument that is not an AttributesManager throws;
     * without one, a fresh manager with default options is used.
     */
    static method Create(arg: ManagerArg) returns (r: Result<RBAC, Error>)
      ensures arg.NotAManager? ==> r == Err(TypeError("Invalid attributes manager"))
      ensures arg.Manager? ==>
        r.Ok? && fresh(r.value) && r.value.attributes == arg.manager && r.value.providers == []
      ensures arg.NoArgument? ==>
        r.Ok? && fresh(r.value) && fresh(r.value.attributes) && r.value.providers == [] &&
        r.value.attributes.attributes == map[] && r.value.attributes.ignoreMissingAttributes
      ensures r.Ok? ==> r.value.Valid()
    {
      match arg {
        case NotAManager =>
          r := Err(TypeError("Invalid attributes manager"));
        case Manager(m) =>
          var rbac := new RBAC(m);
          r := Ok(rbac);
        case NoArgument =>
          var m := new AttributesManager(None);
          var rbac := new RBAC(m);
          r := Ok(rbac);
      }
    }

    /** addProvider: a non-Provider throws; a provider already listed is not added again. */
    method AddProvider(arg: ProviderArg) returns (r: Result<(), Error>)
      requires Valid()
      modifies this
      ensures Valid()
      ensures arg.NotAProvider? ==> r == Err(TypeError("Invalid provider")) && providers == old(providers)
      ensures arg.Instance? ==> r == Ok(()) && arg.provider in providers
      ensures arg.Instance? && arg.provider in old(providers) ==> providers == old(providers)
      ensures arg.Instance? && arg.provider !in old(providers) ==> providers == old(providers) + [arg.provider]
    {
      if arg.NotAProvider? {
        return Err(TypeError("Invalid provider"));
      }
      if arg.provider !in providers {
        providers := providers + [arg.provider];
      }
      r := Ok(());
    }

    /** check(user, permissions): the priority of the user for the permission expression. */
    method Check(user: string, expr: Expr) returns (r: Result<Option<nat>, Error>)
      ensures r == CheckSpec(providers, EnvOf(attributes, user), expr)
    {
      var groups := Parse(expr);
      var userRoles := GetUserRoles(user, providers, attributes);
      if userRoles.Err? {
        return Err(userRoles.error);
      }
      var priorities := GetPriorities(providers, Enumerated(userRoles.value), groups);
      if priorities.Err? {
        return Err(priorities.error);
      }
      r := Ok(Overall(priorities.value));
    }
  }
}
