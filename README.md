# Application view mixins of JumpServer, modelled in Dafny

This project models `apps/applications/api/mixin.py`, the two view mixins of
JumpServer's applications API:

- **Serializer selection** (`ApplicationAttrsSerializerViewMixin.get_serializer_class`),
  module `ApplicationAttrsSerializerView` in `attrs_serializer.dfy`. The query parameters
  `type` and `category` and the view's action are checked in a fixed order against the
  registry's type keys and category keys. The result is either an error
  (`InvalidType`, `InvalidCategory`, `MissingType(action)`) or the attributes schema the
  synthesized serializer binds to its `attrs` field (`TypeSchema(t)`,
  `CategorySchema(c)`, `NoPasswordSchema`). Python truthiness is kept: an empty
  parameter counts as absent. A view without an `action` attribute acts as `list`.
- **Tree flattening** (`SerializeApplicationToTreeNodeMixin`), module
  `ApplicationTreeNodes` in `tree_nodes.dfy`. Applications become tree-widget nodes.
  The output starts with one root node per distinct organisation of the batch, followed
  by one leaf per application in input order. A leaf's icon, meta type and `isParent`
  key depend on the application's category, and its parent id is the organisation's id.
  The dispatch by method name `_serialize_{category}` is a match on the three categories
  that have a method (`db`, `remote_app`, `cloud`); any other category is the error
  `UnsupportedCategory`.

`wrappers.dfy` holds the `Option` and `Result` types.

Inputs the source takes from collaborators are parameters of the model:

- The registry's key lists are passed as `typeOptions` and `categoryOptions`.
- `Organization.get_instance` is a total function `registry: string -> Organization`.
  Lemmas about organisation ids assume `ResolvesById(registry)`, which says the registry
  returns the organisation with the id it was asked for.
- The iteration order of the Python set of organisation ids is the ghost function
  `Enumerate`. It visits each element once, in an order left unspecified. For this
  reason `FilterOrganizations` and `SerializeApplicationsWithOrg` are ghost, and their
  contracts state only distinctness and coverage, never an order of organisations.
  `SerializeApplicationsWithOrg` is `FilterOrganizations` followed by
  `SerializeWithOrganizations`, which takes any list of organisations and is not ghost.

The category names follow the code's method names (`db`, `remote_app`, `cloud`). The builders `SerializeDb`, `SerializeRemoteApp`, `SerializeCloud` (lines 52-87)
and `SerializeOrganization` (lines 103-114) carry no contract of their own. Their
output is stated in the contracts of `SerializeApplication` and `SerializeOrganizations`.

## Model

| member | source | states |
|---|---|---|
| `ApplicationAttrsSerializerView.GetSerializerClass` | apps/applications/api/mixin.py:8-46 | an unknown non-empty type is always `InvalidType` with the type options; an unknown non-empty category is `InvalidCategory` exactly when the type passed; `MissingType(action)` exactly when both passed, the action is a write action and no type is given; success exactly when all three checks pass; on success the type's schema if a type is given, else the category's schema if a category is given, else the no-password schema, and the schema names a registered option |
| `ApplicationAttrsSerializerView.EmptyParameterIsAbsent` | apps/applications/api/mixin.py:19-45 | `type=""` gives the same result as no `type`, and `category=""` the same as no `category` (Python truthiness) |
| `ApplicationAttrsSerializerView.ValidationIgnoresAction` | apps/applications/api/mixin.py:19-40 | when the type or the category fails its check, or a type is given, the action does not change the result |
| `ApplicationAttrsSerializerView.ReadActionsAgree` | apps/applications/api/mixin.py:17-36 | every action outside the five write actions gives the same result as a view without an action (which acts as `list`), and never `MissingType`; in particular a view without an action never gets `MissingType` |
| `ApplicationAttrsSerializerView.WriteActionWithValidTypeSucceeds` | apps/applications/api/mixin.py:30-40 | a write action with a registered type and an acceptable category gets exactly that type's schema |
| `ApplicationAttrsSerializerView.WriteActionWithoutTypeFails` | apps/applications/api/mixin.py:24-36 | a write action without a type always fails, and with an acceptable category the error is `MissingType` naming the action |
| `ApplicationTreeNodes.SerializeApplication` | apps/applications/api/mixin.py:52-96 | succeeds exactly for `db`, `remote_app` and `cloud`, otherwise `UnsupportedCategory` with the category; the node's id is the application's id, name and title its name, `open` false, parent id the organisation id (replacing the builder's `''`), `org_name` the application's; `db` gives icon `database`, meta `database_app` and no `isParent` key; `remote_app` gives `chrome`, `remote_app`, `isParent` false; `cloud` gives `k8s`, `k8s_app`, `isParent` false |
| `ApplicationTreeNodes.ApplicationNodeRoundTrip` | apps/applications/api/mixin.py:89-96 | reading an application node back (category from its meta type, org id from its parent id) gives the application it came from |
| `ApplicationTreeNodes.SerializeApplications` | apps/applications/api/mixin.py:98-100 | succeeds exactly when every category is supported, then gives one node per application in input order; otherwise the error names the category of the first unsupported application |
| `ApplicationTreeNodes.SerializeOrganizations` | apps/applications/api/mixin.py:103-118 | one node per organisation, in order, with the organisation's id, its name as name and title, parent id `''`, `open` true, `isParent` true, meta `node`, and no `iconSkin` or `org_name` key |
| `ApplicationTreeNodes.Enumerate` | apps/applications/api/mixin.py:122-123 | iterating a set of ids visits each id exactly once and nothing else |
| `ApplicationTreeNodes.FilterOrganizations` | apps/applications/api/mixin.py:120-124 | as many organisations as distinct organisation ids in the batch, and exactly the organisations the registry gives for the batch's applications |
| `ApplicationTreeNodes.FilterOrganizationsOnePerId` | apps/applications/api/mixin.py:121-124 | for every registry, the organisations are the registry lookups of an enumeration of the batch's distinct organisation ids, each id once, in that enumeration's order |
| `ApplicationTreeNodes.FilterOrganizationsDistinct` | apps/applications/api/mixin.py:121-124 | with a registry that resolves by id, the organisations have pairwise distinct ids |
| `ApplicationTreeNodes.FilterOrganizationsIds` | apps/applications/api/mixin.py:121-124 | with a registry that resolves by id, the ids of the organisations are exactly the batch's distinct organisation ids |
| `ApplicationTreeNodes.SerializeWithOrganizations` | apps/applications/api/mixin.py:126-131 | for any list of organisations: the organisation root nodes in order, then the application nodes, node `|orgs| + i` being the node of application i; it fails exactly when the application serialization fails, with the same error |
| `ApplicationTreeNodes.SerializeApplicationsWithOrg` | apps/applications/api/mixin.py:126-131 | on N applications over K distinct organisations: K + N nodes; the first K are the organisation root nodes (id and name of the organisation, parent `''`, open, `isParent` true, meta `node`, no `iconSkin` or `org_name`); node K + i is the node of application i; it fails exactly when the application serialization fails, with the same error |
| `ApplicationTreeNodes.OrganizationsComeFirst` | apps/applications/api/mixin.py:126-131 | a node has meta `node` exactly when it is among the first K |
| `ApplicationTreeNodes.RootsBeforeLeaves` | apps/applications/api/mixin.py:89-131 | when every application's organisation id is the id of one of the given organisations, every node's parent id is `''` or the id of an organisation node placed before it |
| `ApplicationTreeNodes.LeafUnderRoot` | apps/applications/api/mixin.py:89-96 | a leaf whose organisation id is among the given organisations has as parent id the id of one of the organisation root nodes |
| `ApplicationTreeNodes.ParentsPrecedeChildren` | apps/applications/api/mixin.py:89-131 | every node's parent id is `''` or the id of an organisation node placed before it in the same output |
| `ApplicationTreeNodes.TwoApplicationsOfOneOrganization` | apps/applications/api/mixin.py:126-131 | a database and a remote application of organisation 10 give exactly the root of 10 followed by the two leaves under it |
| `ApplicationTreeNodes.RepeatedOrganizationsAreMerged` | apps/applications/api/mixin.py:121-124 | organisation ids 10, 10 and 20 give two organisations, 10 and 20 |
| `ApplicationTreeNodes.UnknownCategoryFails` | apps/applications/api/mixin.py:89-100 | an application of category `unknown` makes the batch fail with `UnsupportedCategory("unknown")` |

## Left out

- `super().get_serializer_class()` and the class built with `type('ApplicationDynamicSerializer', ...)` (lines 9, 46): framework metaprogramming. The model returns the attributes schema that class would bind.
- The `models.Category` registry (lines 12-13, 40-45) is outside this model. Its key lists are parameters, and its schema classes are the opaque tags of `AttrsSchema`.
- The exact text of the `JMSException` messages (lines 20-36) is not modelled. Only the error kinds are, with the option lists or the action each message names.
- A view whose `action` attribute exists but holds Python `None` is not modelled separately. It behaves like any non-write action, which `ReadActionsAgree` covers.
- `applications.values_list('org_id', flat=True)` (line 122) is an ORM query. It is modelled as reading `orgId` from each application of a sequence.
- `Organization.get_instance` (line 123) is an external cache, and its not-found errors are not modelled.
- `application.org` (lines 93-94) is not modelled as an object. Its id is taken to be the application's `org_id` column (`orgId`). `org_name` is an independent field of the application, not `registry(orgId).name`. The roots' ids come from the registry, so leaves point at roots only when the registry resolves by id, which `ParentsPrecedeChildren` assumes.
- The iteration order of the Python set (line 122) is not fixed by the model (see `Enumerate`).
- `getattr(self, f'_serialize_{category}')` (lines 90-91) would also resolve category names that happen to match other members of the mixin, such as `organization`. Application categories are a closed set (`db`, `remote_app`, `cloud`), so every other name is modelled as `UnsupportedCategory`.
