/**
 * The tree flattening of `SerializeApplicationToTreeNodeMixin`.
 *
 * A batch of applications becomes a flat list of tree-widget nodes: one root
 * node per distinct organisation the batch refers to, followed by one leaf
 * node per application in input order, each leaf pointing at its organisation.
 */
module ApplicationTreeNodes {
  import opened Wrappers

  /** An application record as the tree code reads it. */
  datatype Application = Application(
    id: string,
    name: string,
    category: string,
    orgId: string,
    orgName: string
  )

  /** An organisation, as the organisation registry returns it. */
  datatype Organization = Organization(id: string, name: string)

  /**
   * A tree-widget node. The optional keys `isParent`, `iconSkin` and
   * `org_name` are `None` when the node's dictionary does not carry them;
   * `metaType` is the value of `meta.type`.
   */
  datatype TreeNode = TreeNode(
    id: string,
    name: string,
    title: string,
    pId: string,
    open: bool,
    isParent: Option<bool>,
    iconSkin: Option<string>,
    metaType: string,
    orgName: Option<string>
  )

  /** No `_serialize_{category}` method exists for the application's category. */
  datatype TreeError = UnsupportedCategory(category: string)

  /** The categories that have a serialization method. */
  predicate Supported(category: string) {
    category == "db" || category == "remote_app" || category == "cloud"
  }

  predicate AllSupported(apps: seq<Application>) {
    forall i :: 0 <= i < |apps| ==> Supported(apps[i].category)
  }

  predicate Distinct<T(==)>(s: seq<T>) {
    forall i, j :: 0 <= i < j < |s| ==> s[i] != s[j]
  }

  /** The parent id of a root node. */
  const RootId: string := ""

  // ---------------------------------------------------------------------------
  // Application nodes
  // ---------------------------------------------------------------------------

  /** `_serialize_db`: a database application, with no `isParent` key. */
  function SerializeDb(db: Application): TreeNode {
    TreeNode(db.id, db.name, db.name, RootId, false, None, Some("database"), "database_app", None)
  }

  /** `_serialize_remote_app`: a remote application. */
  function SerializeRemoteApp(remoteApp: Application): TreeNode {
    TreeNode(remoteApp.id, remoteApp.name, remoteApp.name, RootId, false, Some(false), Some("chrome"), "remote_app", None)
  }

  /** `_serialize_cloud`: a cloud (Kubernetes) application. */
  function SerializeCloud(cloud: Application): TreeNode {
    TreeNode(cloud.id, cloud.name, cloud.name, RootId, false, Some(false), Some("k8s"), "k8s_app", None)
  }

  /**
   * `_serialize_application`: dispatch on the category, then override the
   * parent id with the application's organisation id and add `org_name`.
   */
  function SerializeApplication(app: Application): (r: Result<TreeNode, TreeError>)
    ensures r.Success? <==> Supported(app.category)
    ensures r.Failure? ==> r.error == UnsupportedCategory(app.category)
    // Fields every application node shares.
    ensures r.Success? ==>
              && r.value.id == app.id
              && r.value.name == app.name
              && r.value.title == app.name
              && r.value.pId == app.orgId
              && !r.value.open
              && r.value.orgName == Some(app.orgName)
    // The category fixes the icon, the meta type and the `isParent` key.
    ensures app.category == "db" ==>
              r.Success? && r.value.iconSkin == Some("database")
              && r.value.metaType == "database_app" && r.value.isParent == None
    ensures app.category == "remote_app" ==>
              r.Success? && r.value.iconSkin == Some("chrome")
              && r.value.metaType == "remote_app" && r.value.isParent == Some(false)
    ensures app.category == "cloud" ==>
              r.Success? && r.value.iconSkin == Some("k8s")
              && r.value.metaType == "k8s_app" && r.value.isParent == Some(false)
  {
    var data :-
      match app.category
      case "db" => Success(SerializeDb(app))
      case "remote_app" => Success(SerializeRemoteApp(app))
      case "cloud" => Success(SerializeCloud(app))
      case _ => Failure(UnsupportedCategory(app.category));
    Success(data.(pId := app.orgId, orgName := Some(app.orgName)))
  }

  /** The category whose serialization produced a node with this meta type. */
  function CategoryOfMetaType(metaType: string): Option<string> {
    match metaType
    case "database_app" => Some("db")
    case "remote_app" => Some("remote_app")
    case "k8s_app" => Some("cloud")
    case _ => None
  }

  /** Reads an application back from its node; `None` for a node no application yields. */
  function ApplicationOfNode(n: TreeNode): Option<Application> {
    match (CategoryOfMetaType(n.metaType), n.orgName)
    case (Some(category), Some(orgName)) => Some(Application(n.id, n.name, category, n.pId, orgName))
    case _ => None
  }

  /** An application node loses nothing of the application: reading it back gives the application. */
  lemma ApplicationNodeRoundTrip(app: Application)
    requires Supported(app.category)
    ensures SerializeApplication(app).Success?
    ensures ApplicationOfNode(SerializeApplication(app).value) == Some(app)
  {
  }

  /**
   * `serialize_applications`: one node per application, in input order. The
   * first application with an unsupported category aborts the whole batch.
   */
  function SerializeApplications(apps: seq<Application>): (r: Result<seq<TreeNode>, TreeError>)
    ensures r.Success? <==> AllSupported(apps)
    ensures r.Success? ==>
              && |r.value| == |apps|
              && forall i :: 0 <= i < |apps| ==> SerializeApplication(apps[i]) == Success(r.value[i])
    ensures r.Failure? ==>
              exists k :: 0 <= k < |apps| && !Supported(apps[k].category)
                && r.error == UnsupportedCategory(apps[k].category)
                && forall j :: 0 <= j < k ==> Supported(apps[j].category)
  {
    if apps == [] then
      Success([])
    else
      var head :- SerializeApplication(apps[0]);
      var tail :- SerializeApplications(apps[1..]);
      Success([head] + tail)
  }

  // ---------------------------------------------------------------------------
  // Organisation nodes
  // ---------------------------------------------------------------------------

  /** `_serialize_organization`: an organisation as an open root node. */
  function SerializeOrganization(org: Organization): TreeNode {
    TreeNode(org.id, org.name, org.name, RootId, true, Some(true), None, "node", None)
  }

  /** The node of an organisation root, as `serialize_organizations` emits it. */
  predicate IsOrganizationNodeOf(n: TreeNode, org: Organization) {
    && n.id == org.id
    && n.name == org.name
    && n.title == org.name
    && n.pId == RootId
    && n.open
    && n.isParent == Some(true)
    && n.iconSkin == None
    && n.metaType == "node"
    && n.orgName == None
  }

  /** `serialize_organizations`: one root node per organisation, in order. */
  function SerializeOrganizations(orgs: seq<Organization>): (r: seq<TreeNode>)
    ensures |r| == |orgs|
    ensures forall i :: 0 <= i < |orgs| ==> IsOrganizationNodeOf(r[i], orgs[i])
  {
    seq(|orgs|, i requires 0 <= i < |orgs| => SerializeOrganization(orgs[i]))
  }

  /** Only organisation nodes carry the meta type `node`; no application node does. */
  predicate IsOrganizationNode(n: TreeNode) {
    n.metaType == "node"
  }

  // ---------------------------------------------------------------------------
  // Organisations of a batch
  // ---------------------------------------------------------------------------

  /** `set(applications.values_list('org_id', flat=True))`: the organisation ids of a batch. */
  function OrgIds(apps: seq<Application>): set<string> {
    set i | 0 <= i < |apps| :: apps[i].orgId
  }

  /** Every application's organisation id is one of the batch's organisation ids. */
  lemma OrgIdsContains(apps: seq<Application>)
    ensures forall i :: 0 <= i < |apps| ==> apps[i].orgId in OrgIds(apps)
  {
  }

  /** The ids of a list of organisations, as a set. */
  function IdsOf(orgs: seq<Organization>): set<string> {
    set k | 0 <= k < |orgs| :: orgs[k].id
  }

  /**
   * The order in which iterating a set visits its elements: each element once,
   * in an order the model leaves unspecified.
   */
  ghost function Enumerate(s: set<string>): (r: seq<string>)
    ensures |r| == |s|
    ensures Distinct(r)
    ensures forall x :: x in r <==> x in s
    decreases s
  {
    if s == {} then
      []
    else
      var x :| x in s;
      [x] + Enumerate(s - {x})
  }

  /** `Organization.get_instance` returns the organisation with the id it was given. */
  ghost predicate ResolvesById(registry: string -> Organization) {
    forall id :: registry(id).id == id
  }

  /** The organisations the batch's applications refer to, as the registry resolves them. */
  function Referenced(apps: seq<Application>, registry: string -> Organization): set<Organization> {
    set i | 0 <= i < |apps| :: registry(apps[i].orgId)
  }

  /** Resolving every id of an enumeration of the batch's ids reaches exactly the referenced organisations. */
  lemma ResolvedCoverage(apps: seq<Application>, ids: seq<string>, registry: string -> Organization, orgs: seq<Organization>)
    requires forall x :: x in ids <==> x in OrgIds(apps)
    requires |orgs| == |ids| && forall k :: 0 <= k < |ids| ==> orgs[k] == registry(ids[k])
    ensures (set o | o in orgs) == Referenced(apps, registry)
  {
    forall i | 0 <= i < |apps|
      ensures registry(apps[i].orgId) in orgs
    {
      assert apps[i].orgId in OrgIds(apps);
      var k :| 0 <= k < |ids| && ids[k] == apps[i].orgId;
      assert orgs[k] == registry(apps[i].orgId);
    }
    forall o | o in orgs
      ensures o in Referenced(apps, registry)
    {
      var k :| 0 <= k < |orgs| && orgs[k] == o;
      assert ids[k] in OrgIds(apps);
      var i :| 0 <= i < |apps| && apps[i].orgId == ids[k];
      assert o == registry(apps[i].orgId);
    }
  }

  /** `filter_organizations`: resolves each distinct organisation id of the batch once. */
  ghost function FilterOrganizations(apps: seq<Application>, registry: string -> Organization): (orgs: seq<Organization>)
    ensures |orgs| == |OrgIds(apps)|
    ensures (set o | o in orgs) == Referenced(apps, registry)
  {
    var ids := Enumerate(OrgIds(apps));
    var orgs := seq(|ids|, k requires 0 <= k < |ids| => registry(ids[k]));
    ResolvedCoverage(apps, ids, registry, orgs);
    orgs
  }

  /**
   * `filter_organizations` looks each distinct organisation id of the batch up
   * exactly once, whatever the registry returns, so an organisation the
   * registry gives for two ids appears twice, and one id never gives two entries.
   */
  lemma FilterOrganizationsOnePerId(apps: seq<Application>, registry: string -> Organization)
    ensures var orgs := FilterOrganizations(apps, registry);
            exists ids: seq<string> ::
              && Distinct(ids)
              && (forall x :: x in ids <==> x in OrgIds(apps))
              && |orgs| == |ids|
              && (forall k :: 0 <= k < |ids| ==> orgs[k] == registry(ids[k]))
  {
    var ids := Enumerate(OrgIds(apps));
    var orgs := FilterOrganizations(apps, registry);
    assert |orgs| == |ids| && forall k :: 0 <= k < |ids| ==> orgs[k] == registry(ids[k]);
  }

  /** With a registry that resolves by id, the organisations of a batch have pairwise distinct ids. */
  lemma FilterOrganizationsDistinct(apps: seq<Application>, registry: string -> Organization)
    requires ResolvesById(registry)
    ensures var orgs := FilterOrganizations(apps, registry);
            forall k, l :: 0 <= k < l < |orgs| ==> orgs[k].id != orgs[l].id
  {
    var ids := Enumerate(OrgIds(apps));
    var orgs := FilterOrganizations(apps, registry);
    assert forall k :: 0 <= k < |orgs| ==> orgs[k].id == ids[k];
  }

  /** With a registry that resolves by id, the ids of the batch's organisations are exactly its organisation ids. */
  lemma FilterOrganizationsIds(apps: seq<Application>, registry: string -> Organization)
    requires ResolvesById(registry)
    ensures IdsOf(FilterOrganizations(apps, registry)) == OrgIds(apps)
  {
    var ids := Enumerate(OrgIds(apps));
    var orgs := FilterOrganizations(apps, registry);
    assert forall k :: 0 <= k < |orgs| ==> orgs[k].id == ids[k];
    forall id | id in OrgIds(apps)
      ensures id in IdsOf(orgs)
    {
      var k :| 0 <= k < |ids| && ids[k] == id;
      assert orgs[k].id == id;
    }
  }

  // ---------------------------------------------------------------------------
  // The whole tree
  // ---------------------------------------------------------------------------

  /**
   * The body of `serialize_applications_with_org` once the organisations are
   * known: their root nodes, then the application leaves.
   */
  function SerializeWithOrganizations(orgs: seq<Organization>, apps: seq<Application>): (r: Result<seq<TreeNode>, TreeError>)
    ensures r.Success? <==> AllSupported(apps)
    ensures r.Failure? ==> r == Failure(SerializeApplications(apps).error)
    ensures r.Success? ==> |r.value| == |orgs| + |apps|
    ensures r.Success? ==> forall k :: 0 <= k < |orgs| ==> IsOrganizationNodeOf(r.value[k], orgs[k])
    ensures r.Success? ==>
              forall i :: 0 <= i < |apps| ==> SerializeApplication(apps[i]) == Success(r.value[|orgs| + i])
  {
    var dataOrganizations := SerializeOrganizations(orgs);
    var dataApplications :- SerializeApplications(apps);
    Success(dataOrganizations + dataApplications)
  }

  /** `serialize_applications_with_org`: organisation roots first, then the application leaves. */
  ghost function SerializeApplicationsWithOrg(apps: seq<Application>, registry: string -> Organization): (r: Result<seq<TreeNode>, TreeError>)
    ensures r.Success? <==> AllSupported(apps)
    ensures r.Failure? ==> r == Failure(SerializeApplications(apps).error)
    ensures r.Success? ==> |r.value| == |OrgIds(apps)| + |apps|
    ensures r.Success? ==>
              var orgs := FilterOrganizations(apps, registry);
              forall k :: 0 <= k < |orgs| ==> IsOrganizationNodeOf(r.value[k], orgs[k])
    ensures r.Success? ==>
              forall i :: 0 <= i < |apps| ==>
                SerializeApplication(apps[i]) == Success(r.value[|OrgIds(apps)| + i])
  {
    var organizations := FilterOrganizations(apps, registry);
    SerializeWithOrganizations(organizations, apps)
  }

  /** The first K nodes, K the number of distinct organisations, are exactly the organisation nodes. */
  lemma OrganizationsComeFirst(apps: seq<Application>, registry: string -> Organization)
    requires AllSupported(apps)
    ensures SerializeApplicationsWithOrg(apps, registry).Success?
    ensures var nodes := SerializeApplicationsWithOrg(apps, registry).value;
            forall k :: 0 <= k < |nodes| ==> (IsOrganizationNode(nodes[k]) <==> k < |OrgIds(apps)|)
  {
  }

  /**
   * Root nodes of some organisations followed by the leaves of applications
   * whose organisation ids are among them: every node hangs under the root id
   * or under an earlier organisation node.
   */
  lemma RootsBeforeLeaves(orgs: seq<Organization>, apps: seq<Application>)
    requires AllSupported(apps)
    requires forall i :: 0 <= i < |apps| ==> apps[i].orgId in IdsOf(orgs)
    ensures SerializeWithOrganizations(orgs, apps).Success?
    ensures var nodes := SerializeWithOrganizations(orgs, apps).value;
            forall k :: 0 <= k < |nodes| ==>
              nodes[k].pId == RootId
              || exists j :: 0 <= j < k && IsOrganizationNode(nodes[j]) && nodes[j].id == nodes[k].pId
  {
    var nodes := SerializeWithOrganizations(orgs, apps).value;
    forall k | 0 <= k < |nodes|
      ensures nodes[k].pId == RootId
              || exists j :: 0 <= j < k && IsOrganizationNode(nodes[j]) && nodes[j].id == nodes[k].pId
    {
      if k < |orgs| {
        assert IsOrganizationNodeOf(nodes[k], orgs[k]);
      } else {
        LeafUnderRoot(orgs, apps, k - |orgs|);
      }
    }
  }

  /** The leaf of application i hangs under one of the organisation nodes. */
  lemma LeafUnderRoot(orgs: seq<Organization>, apps: seq<Application>, i: nat)
    requires AllSupported(apps)
    requires i < |apps| && apps[i].orgId in IdsOf(orgs)
    ensures SerializeWithOrganizations(orgs, apps).Success?
    ensures var nodes := SerializeWithOrganizations(orgs, apps).value;
            exists j :: 0 <= j < |orgs| && IsOrganizationNode(nodes[j]) && nodes[j].id == nodes[|orgs| + i].pId
  {
    var nodes := SerializeWithOrganizations(orgs, apps).value;
    assert SerializeApplication(apps[i]) == Success(nodes[|orgs| + i]);
    var j :| 0 <= j < |orgs| && orgs[j].id == apps[i].orgId;
    assert IsOrganizationNodeOf(nodes[j], orgs[j]);
  }

  /**
   * Every node hangs under the root or under an organisation node of the same
   * output, and that organisation node comes before it.
   */
  lemma ParentsPrecedeChildren(apps: seq<Application>, registry: string -> Organization)
    requires ResolvesById(registry)
    requires AllSupported(apps)
    ensures SerializeApplicationsWithOrg(apps, registry).Success?
    ensures var nodes := SerializeApplicationsWithOrg(apps, registry).value;
            forall k :: 0 <= k < |nodes| ==>
              nodes[k].pId == RootId
              || exists j :: 0 <= j < k && IsOrganizationNode(nodes[j]) && nodes[j].id == nodes[k].pId
  {
    var orgs := FilterOrganizations(apps, registry);
    FilterOrganizationsIds(apps, registry);
    OrgIdsContains(apps);
    RootsBeforeLeaves(orgs, apps);
    assert SerializeApplicationsWithOrg(apps, registry) == SerializeWithOrganizations(orgs, apps);
  }

  // ---------------------------------------------------------------------------
  // Worked examples
  // ---------------------------------------------------------------------------

  /** Two applications of one organisation give one root and two leaves. */
  lemma TwoApplicationsOfOneOrganization(registry: string -> Organization)
    requires registry("10") == Organization("10", "Org10")
    ensures SerializeApplicationsWithOrg(
              [Application("1", "mysql", "db", "10", "Org10"),
               Application("2", "chrome", "remote_app", "10", "Org10")],
              registry)
         == Success([
              TreeNode("10", "Org10", "Org10", "", true, Some(true), None, "node", None),
              TreeNode("1", "mysql", "mysql", "10", false, None, Some("database"), "database_app", Some("Org10")),
              TreeNode("2", "chrome", "chrome", "10", false, Some(false), Some("chrome"), "remote_app", Some("Org10"))])
  {
    var apps := [Application("1", "mysql", "db", "10", "Org10"),
                 Application("2", "chrome", "remote_app", "10", "Org10")];
    assert apps[0].orgId in OrgIds(apps);
    assert OrgIds(apps) == {"10"};
    var ids := Enumerate(OrgIds(apps));
    assert ids == ["10"] by { assert ids[0] in OrgIds(apps); }
    var orgs := FilterOrganizations(apps, registry);
    assert orgs == [Organization("10", "Org10")];
    assert SerializeApplicationsWithOrg(apps, registry).Success?;
    var nodes := SerializeApplicationsWithOrg(apps, registry).value;
    assert nodes == SerializeOrganizations(orgs) + SerializeApplications(apps).value;
    assert SerializeOrganizations(orgs) == [TreeNode("10", "Org10", "Org10", "", true, Some(true), None, "node", None)];
    assert SerializeApplications(apps).value == [
      TreeNode("1", "mysql", "mysql", "10", false, None, Some("database"), "database_app", Some("Org10")),
      TreeNode("2", "chrome", "chrome", "10", false, Some(false), Some("chrome"), "remote_app", Some("Org10"))];
    assert nodes == [
      TreeNode("10", "Org10", "Org10", "", true, Some(true), None, "node", None),
      TreeNode("1", "mysql", "mysql", "10", false, None, Some("database"), "database_app", Some("Org10")),
      TreeNode("2", "chrome", "chrome", "10", false, Some(false), Some("chrome"), "remote_app", Some("Org10"))];
  }

  /** Organisation ids 10, 10 and 20 give exactly two organisations, 10 and 20. */
  lemma RepeatedOrganizationsAreMerged(a: Application, b: Application, c: Application, registry: string -> Organization)
    requires ResolvesById(registry)
    requires a.orgId == "10" && b.orgId == "10" && c.orgId == "20"
    ensures var orgs := FilterOrganizations([a, b, c], registry);
            |orgs| == 2 && {orgs[0].id, orgs[1].id} == {"10", "20"}
  {
    var apps := [a, b, c];
    var orgs := FilterOrganizations(apps, registry);
    assert apps[0].orgId in OrgIds(apps) && apps[2].orgId in OrgIds(apps);
    assert OrgIds(apps) == {"10", "20"};
    FilterOrganizationsIds(apps, registry);
    assert IdsOf(orgs) == {orgs[0].id, orgs[1].id};
  }

  /** An application of an unknown category makes the batch fail. */
  lemma UnknownCategoryFails(app: Application)
    requires app.category == "unknown"
    ensures SerializeApplications([app]) == Failure(UnsupportedCategory("unknown"))
  {
  }
}
