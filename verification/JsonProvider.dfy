/**
 * The JSON-backed provider of lib/providers/json.js: a set of rules with role
 * definitions and user assignments, from which it builds a user's role tree
 * and answers permission and attribute lookups.
 */
module JsonProvider {
  import opened Wrappers
  import opened Js
  import opened RoleTrees

  /**
   * One entry of `rules.roles`. Its `permissions` and `attributes` fields are
   * kept as given (an absent field is falsy); an `inherited` field that is
   * absent or not an array is None.
   */
  datatype RoleDef = RoleDef(permissions: NameList, attributes: NameList, inherited: Option<seq<string>>)

  /** The rules object: `roles` maps role names to definitions, `users` maps users to role lists. */
  datatype Rules = Rules(roles: Option<map<string, RoleDef>>, users: Option<map<string, seq<string>>>)

  /** The role definitions, or none when `rules.roles` is missing. */
  function Definitions(rules: Rules): map<string, RoleDef>
  {
    if rules.roles.Some? then rules.roles.value else map[]
  }

  /** The roles assigned to `user`: `rules.users[user]`, or `[]` when it or `rules.users` is missing. */
  function UserList(rules: Rules, user: string): seq<string>
  {
    if rules.users.Some? && user in rules.users.value then rules.users.value[user] else []
  }

  /** How the builder of getRoles sees a name: undefined, without an inherited array, or inheriting a list. */
  function RoleLookup(rules: Rules): string -> Lookup
  {
    name =>
      if name !in Definitions(rules) then Undefined
      else if Definitions(rules)[name].inherited.None? then Leaf
      else Inherits(Definitions(rules)[name].inherited.value)
  }

  /** Every role name getRoles can meet for `user`: the user's list and every inherited list. */
  ghost function Universe(rules: Rules, user: string): set<string>
  {
    var defs := Definitions(rules);
    (set r | r in UserList(rules, user))
      + (set r, x | r in defs && defs[r].inherited.Some? && x in defs[r].inherited.value :: x)
  }

  lemma UniverseClosed(rules: Rules, user: string)
    ensures Closed(Universe(rules, user), RoleLookup(rules))
    ensures forall r :: r in UserList(rules, user) ==> r in Universe(rules, user)
  {
    var defs := Definitions(rules);
    forall r, x | r in Universe(rules, user) && x in Inherited(RoleLookup(rules)(r))
      ensures x in Universe(rules, user)
    {
      assert r in defs && defs[r].inherited.Some? && x in defs[r].inherited.value;
    }
  }

  /** The role tree getRoles builds for `user`: one construction from the user's list at depth 1. */
  ghost function RolesOf(rules: Rules, user: string): RoleTree
  {
    UniverseClosed(rules, user);
    Build(Universe(rules, user), RoleLookup(rules), UserList(rules, user), 1, map[], []).tree
  }

  class JsonProvider {
    const rules: Rules

    /** `rules || {}`: no rules is an empty rules object. */
    constructor (rules: Option<Rules>)
      ensures this.rules == if rules.Some? then rules.value else Rules(None, None)
    {
      this.rules := if rules.Some? then rules.value else Rules(None, None);
    }

    /** getRoles: a fresh cache, then the construction from the user's list at depth 1. */
    method GetRoles(user: string) returns (tree: RoleTree)
      ensures tree == RolesOf(rules, user)
    {
      UniverseClosed(rules, user);
      var store := new DepthCache();
      tree := CollectLevel(store, Universe(rules, user), RoleLookup(rules), UserList(rules, user), 1);
    }

    /**
     * getPermissions: the role's `permissions` field whenever it is truthy,
     * array or not, and `[]` when the role is missing or the field is falsy.
     */
    function GetPermissions(role: string): (r: NameList)
      ensures !r.Falsy?
      ensures role in Definitions(rules) && !Definitions(rules)[role].permissions.Falsy? ==>
        r == Definitions(rules)[role].permissions
      ensures role !in Definitions(rules) || Definitions(rules)[role].permissions.Falsy? ==> r == Array([])
    {
      if role in Definitions(rules) && !Definitions(rules)[role].permissions.Falsy?
      then Definitions(rules)[role].permissions
      else Array([])
    }

    /**
     * getAttributes: the role's `attributes` field whenever it is truthy,
     * array or not, and `[]` when the role is missing or the field is falsy.
     */
    function GetAttributes(role: string): (r: NameList)
      ensures !r.Falsy?
      ensures role in Definitions(rules) && !Definitions(rules)[role].attributes.Falsy? ==>
        r == Definitions(rules)[role].attributes
      ensures role !in Definitions(rules) || Definitions(rules)[role].attributes.Falsy? ==> r == Array([])
    {
      if role in Definitions(rules) && !Definitions(rules)[role].attributes.Falsy?
      then Definitions(rules)[role].attributes
      else Array([])
    }
  }

  /** A user who is not listed, or rules without `users`, gets the empty tree. */
  lemma UnknownUserHasNoRoles(rules: Rules, user: string)
    requires rules.users.None? || user !in rules.users.value
    ensures RolesOf(rules, user).entries == map[]
  {
    UniverseClosed(rules, user);
    BuildKeys(Universe(rules, user), RoleLookup(rules), [], 1, map[], []);
  }

  /** The top level of a user's tree holds exactly the user's roles that `rules.roles` defines. */
  lemma TopLevelRoles(rules: Rules, user: string)
    ensures forall k :: k in RolesOf(rules, user).entries <==>
      k in UserList(rules, user) && k in Definitions(rules)
  {
    UniverseClosed(rules, user);
    BuildKeys(Universe(rules, user), RoleLookup(rules), UserList(rules, user), 1, map[], []);
  }

  /**
   * Every level of a user's tree has keys from that level's list, each a
   * defined role; a role maps to null exactly when it has no inherited array,
   * and otherwise to the subtree built from that array.
   */
  lemma RolesShape(rules: Rules, user: string)
    ensures Conforms(RoleLookup(rules), RolesOf(rules, user), UserList(rules, user))
  {
    UniverseClosed(rules, user);
    BuildShape(Universe(rules, user), RoleLookup(rules), UserList(rules, user), 1, map[], []);
  }

  /**
   * A user's tree nests no deeper than the number of distinct names in the
   * user's list and in the inherited lists of all defined roles.
   */
  lemma RolesNesting(rules: Rules, user: string)
    ensures NestedAtMost(RolesOf(rules, user), |Universe(rules, user)|)
  {
    UniverseClosed(rules, user);
    BuildNesting(Universe(rules, user), RoleLookup(rules), UserList(rules, user), 1, map[], []);
  }
}
