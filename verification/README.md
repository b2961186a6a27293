# rbac-a permission check, modelled in Dafny

This project models the core of rbac-a, a role-based access control library
with attribute checks:

- **The `RBAC` class** (`lib/rbac.js`) holds an attributes manager and a list of
  providers. Its `check(user, permissions)` does four things in order:
  1. It parses a permission expression: a comma-separated OR of `&&`-separated
     AND groups, or an array.
  2. It asks every provider for the user's roles, as an object mapping role
     names to depths. It drops the roles whose attributes do not validate, and
     merges the providers' maps keeping the smaller depth.
  3. It collects every role's permissions from every provider.
  4. It reduces the result to one number: the depth of a granting role, or NaN.
- **The `AttributesManager` class** (`lib/attributes-manager.js`) registers,
  removes and runs named attribute handlers.
- **The JSON provider** (`lib/providers/json.js`) reads roles, permissions and
  attributes from a rules object. Its `getRoles` builds a role tree through
  the inheritance lists. A per-call depth cache stops cycles.
- **The `collect` helper** (`lib/util/collect.js`) builds the same kind of tree
  from a caller's `getInheritedRoles` function.

The Dafny modules follow this structure:

| module | contents |
|---|---|
| `Wrappers` | `Option` and `Result` |
| `Js` | the JavaScript errors that the code raises, and whether a callback returned or threw |
| `Strings` | JavaScript `String.prototype.split` on a separator and `String.prototype.trim` |
| `PermissionExpr` | the permission expression and its parse (`lib/rbac.js:71-79`) |
| `Attributes` | the `AttributesManager` class: `set`, `remove`, `validate` |
| `RoleMaps` | JavaScript objects from role name to depth, as entries in key insertion order |
| `KeyOrder` | the order in which `Object.keys` lists an object's keys: array-index keys such as `"7"` first, in ascending order, then the others in insertion order (section 10.1.11.1 of ECMA-262). This order decides which role the final reduce picks |
| `Rbac` | the provider interface, the steps of `check`, and the `RBAC` class |
| `RbacProperties` | lemmas about these steps |
| `RoleTrees` | the cached, depth-bounded tree construction shared by `json.js` and `collect.js` |
| `JsonProvider` | the JSON provider |
| `Collect` | `collect` |

Each step of `check` has two parts. A function states the step as a value, and
the lemmas are proved about that function. A method with loops performs the
step the way the source does, and is proved equal to the function.

- **Promise fan-outs** (`Promise.all`) become loops over the providers or
  roles, in list order.
- **A rejected promise** becomes an `Err` carrying the JavaScript error the
  code raises.
- **NaN** becomes `None`.

Where the library's documented intent and its code disagree, the model follows
the code:

- **The result of `check`** is the depth of the *last* granting role in the
  order of the merged role object. It is not the smallest depth.
  `RbacProperties.OverallNotMinimum` shows the difference, and
  `RbacProperties.CheckIsLastGrantingRole` proves the general statement.
- **Empty tokens and empty groups are kept** by the parse, and an empty
  expression is not an error. The string `""` parses to the single group
  `[""]`.
- **Each AND group is matched against one role's permissions at a time.** A
  satisfied group yields that role's own depth. There is no per-permission
  depth table.
- **Failures are not always isolated.**
  - A provider whose `getRoles` throws an object or a falsy value
    contributes `{}`. When it throws a truthy primitive, such as a string,
    the catch block cannot set `err.role` in strict mode, so the whole check
    rejects with a `TypeError`.
  - When an attribute handler throws, the catch block reaches the undeclared
    variable `emitter`, so the whole check rejects with a `ReferenceError`.
    A truthy primitive thrown by a handler fails earlier, at `err.role`,
    with a `TypeError`.
  - A truthy `getAttributes` result that is not an array has no `map`, so
    the check rejects with a `TypeError`.
  - When `getPermissions` throws, the catch block reaches the undeclared
    variable `err`, so the whole check rejects with a `ReferenceError`.
  - A throwing `getAttributes` is not caught at all.
- **The role trees are not flattened.** `getRoles` of the JSON provider and
  `collect` return trees whose values are `null` or nested objects, while
  `check` reads a role map's values as depths. The model keeps the two sides
  apart: `Rbac.Provider.getRoles` yields role-to-depth maps, and
  `JsonProvider` and `Collect` yield trees.

## Model

| member | source | states |
|---|---|---|
| Attributes.Registration | lib/attributes-manager.js:30-44 | `set` succeeds exactly when it is given a named function, or a non-empty name and a function handler. It registers under the function's own name or under the given name. Otherwise it fails with the TypeError for a handler that is not a function, or for an anonymous or empty name |
| Attributes.AttributesManager.constructor | lib/attributes-manager.js:19-22 | a new manager has no attributes, and `ignoreMissingAttributes` defaults to true |
| Attributes.AttributesManager.Set | lib/attributes-manager.js:30-44 | on success the handler is stored under its name and the manager itself is returned; on failure nothing changes |
| Attributes.AttributesManager.Remove | lib/attributes-manager.js:53-73 | a function is removed from every name it is registered under, and is returned when it was registered; a registered name is deleted and its handler returned; anything else throws "Attribute must be a string or a function" and changes nothing |
| Attributes.Validation | lib/attributes-manager.js:90-104 | a non-string throws; an empty name throws; a missing name gives false or "Unknown attribute : name" by the option; a registered handler's result or throw is passed through |
| Attributes.AttributesManager.Validate | lib/attributes-manager.js:90-104 | validating against the manager's current handlers and option is `Validation` |
| Attributes.SetThenValidate | lib/attributes-manager.js:42-43 | after a successful `set`, validating the registered name runs the new handler on the context |
| Attributes.UnbindForgets | lib/attributes-manager.js:56-64 | after removing a handler by function, its former name validates as a missing attribute |
| Attributes.DefaultValidatesFalse | test/attributes-manager.test.js:22-24 | a default manager validates any non-empty name to false |
| Strings.Trim | lib/rbac.js:77 | the result is the input with its leading and trailing JavaScript white space removed: a slice of the input, all removed characters are white space, and the result neither starts nor ends with white space |
| Strings.TrimIdempotent | lib/rbac.js:77 | trimming twice is trimming once |
| Strings.Split | lib/rbac.js:72 | the pieces are never empty as a list, joining them with the separator gives the input back, no piece contains the separator, and every cut is at the leftmost occurrence of the separator after the previous one |
| Strings.SplitJoin | lib/rbac.js:72 | splitting a join of pieces that do not contain the separator's first character gives the pieces back |
| Strings.SplitCount | lib/rbac.js:72 | splitting on a one-character separator gives one piece more than the separator's occurrences |
| PermissionExpr.Parse | lib/rbac.js:71-79 | a string gives one group per comma-separated piece; an array gives one group per element |
| PermissionExpr.ParsedTokensTrimmed | lib/rbac.js:75-79 | every parsed token is trimmed |
| PermissionExpr.TextGroupCount | lib/rbac.js:71-76 | a string gives one group more than it has commas, and every group has at least one token |
| PermissionExpr.TextTokensCommaFree | lib/rbac.js:71-76 | no token parsed from a string contains a comma |
| PermissionExpr.ParseRender | lib/rbac.js:71-79 | writing non-empty groups of plain tokens as "a && b, c" and parsing that string gives the groups back |
| RoleMaps.Get | lib/rbac.js:126 | looking up a role finds a depth exactly when the role is a key, and that depth is the one stored with it |
| RoleMaps.Put | lib/rbac.js:126 | assigning a role keeps every key and adds that role |
| RoleMaps.PutGet | lib/rbac.js:126 | after assigning, the role has the new depth and every other role keeps its depth |
| RoleMaps.PutKeepsOrder | lib/rbac.js:126 | assigning an existing role keeps the key order |
| RoleMaps.PutAppends | lib/rbac.js:126 | assigning a new role appends it as the last entry in insertion order; the order `Object.keys` lists is `KeyOrder.Enumerated` of that |
| RoleMaps.Without | lib/rbac.js:154 | deleting a role removes that key and keeps the others |
| RoleMaps.WithoutEffect | lib/rbac.js:154 | after deleting, the role is absent and every other role keeps its depth |
| RoleMaps.WithoutAbsent | lib/rbac.js:154 | deleting a role that is absent changes nothing |
| RoleMaps.WithoutAt | lib/rbac.js:154 | deleting the role at a position removes exactly that entry and keeps every other entry in order |
| RoleMaps.PutKeys | lib/rbac.js:126 | assigning a role adds it at the end of the key order when it is new, and keeps the order otherwise |
| RoleMaps.FirstSeen | lib/rbac.js:124-127 | the key order after setting names on an object holds exactly its earlier keys and the names |
| RoleMaps.FirstSeenAppend | lib/rbac.js:121-131 | setting two batches of names one after the other gives the key order of setting them together |
| KeyOrder.Enumerated | lib/rbac.js:125 | `Object.keys` lists each entry of the object exactly once |
| KeyOrder.EnumeratedOrder | lib/rbac.js:125 | `Object.keys` lists every array-index key before every other key, the array indices in ascending order |
| KeyOrder.EnumeratedNamed | lib/rbac.js:125 | `Object.keys` lists the keys that are not array indices in insertion order |
| KeyOrder.EnumeratedGet | lib/rbac.js:86-90 | the `Object.keys` order changes no role's depth and no key set |
| KeyOrder.IndexKeyFirst | lib/rbac.js:125 | an object given key `admin` and then key `7` lists `7` first |
| RoleTrees.CacheLevel | lib/providers/json.js:36-38 | the depth cache keeps the first depth recorded for a name and records the current depth for new names |
| RoleTrees.CacheLevelOk | lib/util/collect.js:28-30 | caching a level keeps every cached depth positive and at most the number of cached names |
| RoleTrees.Level | lib/providers/json.js:40-54 | the second loop of a level keeps every cached depth, which stays positive and bounded, and adds no name outside the set of names |
| RoleTrees.Build | lib/providers/json.js:35-57 | one level of the construction caches every name of its list and keeps every earlier cached depth |
| RoleTrees.BuildKeys | lib/providers/json.js:40-53 | a level's tree has exactly the defined names of the level that were first seen at this depth or deeper |
| RoleTrees.BuildShape | lib/providers/json.js:45-53 | every name of a tree maps to null exactly when it has no array of inherited roles, and otherwise to a tree of its inherited roles of the same shape |
| RoleTrees.BuildNesting | lib/providers/json.js:40-43 | the depth cache bounds the tree's nesting by the number of distinct names, which is why cycles end |
| RoleTrees.BuildTrace | lib/util/collect.js:32-42 | the lookups only extend the earlier call trace, and every name of the tree was looked up after the construction started |
| RoleTrees.LevelShift | lib/util/collect.js:32-42 | a level's tree and cache do not depend on the lookups made before it, and its own lookups are appended to them |
| RoleTrees.BuildShift | lib/util/collect.js:27-45 | a construction's tree and cache do not depend on the earlier lookups, and its own lookups are appended to them |
| RoleTrees.Expanded | lib/util/collect.js:32-33 | the names a level expands are exactly the names of its list cached at its depth or deeper |
| RoleTrees.LevelCalls | lib/util/collect.js:32-42 | the lookups of a level, from a position on, are each name it expands in list order, followed by the lookups of that name's subtree |
| RoleTrees.BuildCalls | lib/util/collect.js:27-45 | the lookups of a construction are the names it expands in list order, each followed by the lookups of a construction of its inherited roles one level deeper from a later cache |
| RoleTrees.ExpandedAll | lib/util/collect.js:28-33 | a level expands every name of its list when all are cached at its depth or deeper |
| RoleTrees.CacheNames | lib/util/collect.js:28-30 | the first loop records the current depth for names not yet cached |
| RoleTrees.ExpandAt | lib/util/collect.js:33-40 | one iteration of the second loop performs one step of the construction |
| RoleTrees.CollectLevel | lib/util/collect.js:27-45 | the recursive `collect` returns the constructed tree and leaves the cache and call trace the construction specifies |
| JsonProvider.JsonProvider.constructor | lib/providers/json.js:14-18 | missing rules default to an empty rules object |
| JsonProvider.JsonProvider.GetRoles | lib/providers/json.js:31-58 | the roles of a user are the tree built from the user's list at depth 1 with an empty cache |
| JsonProvider.UniverseClosed | lib/providers/json.js:57 | the user's roles and every inherited name form a finite set closed under inheritance |
| JsonProvider.UnknownUserHasNoRoles | lib/providers/json.js:57 | a user missing from the rules has no roles |
| JsonProvider.TopLevelRoles | lib/providers/json.js:45-53 | the top-level roles are exactly the user's listed roles that are defined |
| JsonProvider.RolesShape | lib/providers/json.js:45-53 | a role maps to null when it has no inherited array, and otherwise to the tree of its inherited roles |
| JsonProvider.RolesNesting | lib/providers/json.js:36-43 | the tree nests no deeper than the number of distinct names in the user's list and in the inherited lists of all defined roles |
| JsonProvider.JsonProvider.GetPermissions | lib/providers/json.js:69-71 | the `permissions` field of a defined role whenever it is truthy, array or not, and `[]` when the role is missing or the field is falsy; never falsy |
| JsonProvider.JsonProvider.GetAttributes | lib/providers/json.js:82-84 | the `attributes` field of a defined role whenever it is truthy, array or not, and `[]` when the role is missing or the field is falsy; never falsy |
| Collect.Collect | lib/util/collect.js:24-48 | `collect` returns the tree of the construction starting at depth 1 with an empty cache, and calls `getInheritedRoles` in the construction's order |
| Collect.Collected | lib/util/collect.js:47 | the construction that `collect` performs records every given role at depth 1, and keeps the cache valid |
| Collect.CollectedTopLevel | lib/util/collect.js:32-42 | the top level has exactly the given roles |
| Collect.CollectedShape | lib/util/collect.js:34-40 | a role maps to null when `getInheritedRoles` gives no array, and otherwise to the tree of those roles; the nesting is bounded by the number of names |
| Collect.CollectedCalls | lib/util/collect.js:32-42 | `getInheritedRoles` is called for each given role in list order, each call followed by the calls that build that role's subtree (none when it gives no array); every top-level role was looked up |
| Rbac.RBAC.constructor | lib/rbac.js:11-20 | a new RBAC keeps its attributes manager and has no providers |
| Rbac.RBAC.Create | lib/rbac.js:11-20 | a manager that is not an `AttributesManager` throws "Invalid attributes manager"; with no argument a default manager is created |
| Rbac.RBAC.AddProvider | lib/rbac.js:28-36 | a non-provider throws "Invalid provider"; a provider is appended once, and adding it again changes nothing |
| Rbac.RBAC.Check | lib/rbac.js:62-99 | the check resolves or rejects exactly as the composition of parse, role lookup, filtering, merge, permission union and priority reduce |
| Rbac.AttributeResult | lib/rbac.js:142-151 | one attribute check resolves exactly when validation does, to the same value; a thrown truthy primitive rejects with the TypeError from setting `err.role`, and any other failure with the ReferenceError for `emitter` |
| Rbac.AllValid | lib/rbac.js:141-152 | the attribute checks reject exactly when one of them fails, and otherwise hold exactly when every attribute validates to true |
| Rbac.RoleVerdict | lib/rbac.js:139-152 | a falsy attribute list keeps the role; a throwing `getAttributes` rejects with what it threw; a truthy non-array rejects with a TypeError; a role is dropped only when one of its attributes validates to false |
| Rbac.AttributesVerdict | lib/rbac.js:139-152 | the steps for one role compute `RoleVerdict` |
| Rbac.FilterFrom | lib/rbac.js:137-156 | deleting roles by their verdicts keeps every remaining role at its original depth |
| Rbac.Filtered | lib/rbac.js:136-161 | the filtered map keeps every remaining role at its original depth |
| Rbac.ProviderRoles | lib/rbac.js:108-119 | a `getRoles` that throws an object or a falsy value gives `{}`; one that throws a truthy primitive rejects with the TypeError from `err.role`; a resolved map is filtered without changing depths |
| Rbac.ValidateAll | lib/rbac.js:141-152 | the loop over a role's attributes computes `AllValid` |
| Rbac.FilterRolesByAttributes | lib/rbac.js:136-161 | the loop over the roles, in `Object.keys` order, computes `Filtered` |
| Rbac.MergedDepth | lib/rbac.js:126 | the merged depth is one of the two depths and at most the new one, and at most an existing truthy one |
| Rbac.MergeInto | lib/rbac.js:124-127 | merging one map keeps the accumulator's keys in place and appends its new keys in order |
| Rbac.MergeFrom | lib/rbac.js:121-131 | merging several maps gives the key order of first appearance across them, each in `Object.keys` order |
| Rbac.MergeAll | lib/rbac.js:121-131 | the merged map starts from `{}` and lists the roles in the order in which they first appear across the providers |
| Rbac.MergeMap | lib/rbac.js:124-127 | the loop over one provider's keys computes `MergeInto` |
| Rbac.MergeRoles | lib/rbac.js:121-131 | the merge loops compute the merged role map |
| Rbac.GetUserRoles | lib/rbac.js:107-133 | the provider loop computes `UserRoles`: a `getRoles` that throws an object or a falsy value is read as `{}`, and one that throws a truthy primitive rejects |
| Rbac.AddList | lib/rbac.js:177-182 | one reduce step rejects exactly when it writes into a replaced accumulator; a non-array result replaces the accumulator; an array adds all its names and keeps the earlier ones, and every granted name comes from one of the two |
| Rbac.UnionAll | lib/rbac.js:176-183 | the reduce rejects only with the TypeError for writing into null, and every granted name comes from some array result |
| Rbac.GetRolePermissions | lib/rbac.js:164-185 | the provider loop computes the permission union of a role |
| Rbac.Satisfied | lib/rbac.js:90 | a group is satisfied exactly when every token is granted; reading a token of a replaced accumulator rejects, so only a non-empty group fails |
| Rbac.RolePriority | lib/rbac.js:89-91 | the per-role reduce rejects exactly when some group rejects, and a priority it gives is the role's own non-zero depth with some group satisfied |
| Rbac.Reduced | lib/rbac.js:94-96 | the reduce without an initial value is NaN exactly when every priority is NaN, and is always one of the priorities |
| Rbac.Overall | lib/rbac.js:94-96 | the overall result, when not NaN, is a positive priority from the list, and is NaN when every priority is |
| Rbac.CheckSpec | lib/rbac.js:62-99 | a resolved check has resolved user roles, and a non-NaN result is positive |
| Rbac.GetPriorities | lib/rbac.js:86-92 | the role loop computes each role's priority in key order |
| RbacProperties.FilterFromEffect | lib/rbac.js:137-160 | filtering rejects exactly when a visited role's attributes fail; otherwise it deletes exactly the visited roles with a false attribute |
| RbacProperties.FilterEffect | lib/rbac.js:136-161 | filtering a map rejects exactly when a role's attribute check fails; otherwise a role is kept with its depth exactly when its attributes hold |
| RbacProperties.MergeIntoGet | lib/rbac.js:125-127 | merging one map updates exactly its roles, to the merged depth |
| RbacProperties.ZeroDepthReplaced | lib/rbac.js:126 | an existing depth 0 counts as absent and is replaced |
| RbacProperties.MergeFromKeys | lib/rbac.js:123-131 | a role is in the merge exactly when it is in the start map or in one of the lists |
| RbacProperties.MergeFromBelow | lib/rbac.js:126 | with positive depths, the merged depth is positive and at most every depth given for the role |
| RbacProperties.MergeFromAttained | lib/rbac.js:126 | the merged depth is one of the depths given for the role |
| RbacProperties.MergeAllMinimum | lib/rbac.js:121-131 | with positive depths, the merged map has exactly the roles of all providers, each at the smallest depth any provider gives it |
| RbacProperties.RoleListsAppend | lib/rbac.js:108-120 | the per-provider results of two provider lists are the results of each list, concatenated, and the first rejection wins |
| RbacProperties.MergeFromAppend | lib/rbac.js:123-131 | merging two batches of lists is merging them one after the other |
| RbacProperties.ThrowingProviderIgnored | lib/rbac.js:111-118 | a provider whose `getRoles` throws an object or a falsy value changes nothing in the user's roles |
| RbacProperties.RoleListsFails | lib/rbac.js:108-120 | one rejecting provider makes the role lookup reject |
| RbacProperties.RoleListsResolve | lib/rbac.js:108-120 | the role lookup resolves when every provider contributes |
| RbacProperties.RoleListsFirstError | lib/rbac.js:108-120 | the role lookup rejects with the error of the first rejecting provider |
| RbacProperties.PrimitiveThrowRejects | lib/rbac.js:111-118 | a `getRoles` that throws a truthy primitive makes the check reject, with the TypeError from `err.role` when every earlier provider contributes |
| RbacProperties.PermissionListsAt | lib/rbac.js:165-175 | when no provider throws, the lists are the providers' own results in order |
| RbacProperties.PermissionThrowRejects | lib/rbac.js:168-175 | a throwing `getPermissions` rejects with the ReferenceError for `err` |
| RbacProperties.UnionOfArrays | lib/rbac.js:177-183 | the reduce over array results is the set union of their names |
| RbacProperties.PermissionsUnion | lib/rbac.js:176-183 | when every provider returns an array, a role's permissions are the union of all providers' arrays |
| RbacProperties.RolePriorityGranted | lib/rbac.js:89-91 | against a permission object, a role's priority is its depth when the depth is truthy and some group has all its tokens, and NaN otherwise |
| RbacProperties.RolePriorityNullish | lib/rbac.js:90 | against a non-array permission result, the priority rejects exactly when some group is non-empty |
| RbacProperties.ReducedIsLast | lib/rbac.js:94-96 | the reduce without an initial value gives the last non-NaN priority, or NaN |
| RbacProperties.OverallIsLast | lib/rbac.js:93-97 | the overall result is NaN exactly when no priority is a number, and otherwise the last such priority |
| RbacProperties.OverallNotMinimum | lib/rbac.js:94-96 | priorities 1 then 2 give 2: the later role wins over the more direct one |
| RbacProperties.PrioritiesAt | lib/rbac.js:86-92 | when no role rejects, there is one priority per role, that role's own |
| RbacProperties.LastGranting | lib/rbac.js:93-97 | the overall priority is NaN exactly when no role grants, and otherwise the depth of the last granting role |
| RbacProperties.CheckIsLastGrantingRole | lib/rbac.js:83-98 | a resolved check gives NaN exactly when no role of the merged map grants, and otherwise the depth of the last granting role in key order |
| RbacProperties.NoProviderDenies | lib/rbac.js:93-97 | with no provider, the check resolves to NaN |

## Left out

- The `error` events emitted through `promise-events` are not modelled: `emit`, the `err.role` and `err.user` fields, and the event base class. Only the resolved value or the rejection of `check` is kept.
- Rbac.ProviderRoles and RbacProperties.ThrowingProviderIgnored: `emitter.emit('error', err)` at lib/rbac.js:116 is assumed to return normally. `promise-events` is not part of this model. If `emit` throws there, for instance because no listener is registered for `error` (a Node `EventEmitter` throws in that case) or because a listener throws, the check rejects where the model gives `{}`.
- Rbac.FilterRolesByAttributes: `delete roles[role]` at lib/rbac.js:154 changes the object the provider returned. The model assumes every `getRoles` call returns a fresh object, so no later call sees the deletion.
- Rbac.Provider: role maps hold natural depths. The trees that the JSON provider and `collect` build, with `null` or nested objects as values, are not given to `check` in this model. Through `Math.min` at lib/rbac.js:126 such values would become 0 or NaN.
- KeyOrder.Enumerated: an array index is the canonical decimal form of an integer below 2^32 - 1. Other integer-like keys, such as `"01"` or `"4294967295"`, stay in insertion order, as section 10.1.11.1 of ECMA-262 says.
- Promise scheduling is not modelled. `Promise.all` rejects with the rejection that happens first in time. The model takes the first one in list order, and runs providers and roles in sequence.
- JavaScript truthiness and prototype lookup are not modelled. Handler results are booleans and depths are naturals. Names such as `toString`, which `in` and `[]` find on `Object.prototype`, are treated as absent.
- Rbac.AddList: every non-array `getPermissions` result replaces the permission object as if it were `null` or `undefined`, so any later token lookup throws. Other non-array results are not told apart: a lookup in `0`, `false` or `""` gives `undefined` without throwing, and a truthy non-array value such as an object would grant its own properties.
- A non-object result of `getRoles` is not modelled. Providers return role-to-depth objects, or throw.
- Attributes.Registration: `Other` stands for a falsy or missing name (undefined, null, 0, false). A truthy non-string name, which the source would store under its string form, is not modelled.
- The `params` argument of `check` never reaches a handler, because `validate(attribute, context)` receives the user as its context. It is left out.
- The guard at `lib/rbac.js:67` can never fire, since the providers list always exists. It is left out. The no-provider case resolves to NaN through the reduce, as `RbacProperties.NoProviderDenies` states.
- Rbac.RBAC.Check: the permission expression is a string or an array of strings and token arrays. A top-level value that is neither a string nor an array throws a TypeError at `permissions.map` (lib/rbac.js:75) before any promise is made, and array elements of other types go through `String()`. Neither is modelled.
- RoleTrees.Build, JsonProvider.JsonProvider.GetRoles and Collect.Collect: the construction is stated over a finite set of role names, closed under inheritance, given as a ghost parameter. This bounds the recursion. For the JSON provider that set is computed from the rules.
- Collect.Collect: a rejection of `getInheritedRoles`, or a promise it returns, is not modelled. The callback is a total function.
- `getAttributesManager` is a plain accessor and is not modelled.
- lib/provider.js and src/provider.js (the abstract provider), index.js, scripts/rollup.config.js and jest.config.js are not part of this model. test/rbac.test.js targets a different API and is not used.
