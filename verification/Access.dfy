/** What an access rule means at request time (cloudhelm/access.py). */
module Access {
  import opened Wrappers

  datatype Role = Admin | Operator | Viewer

  datatype Permission = View | Logs | Operate | Manage

  datatype Scope = All | Environment | NodeScope | Project | ContainerScope | Service

  /** One row of `access_rules`: every scope column may be empty. */
  datatype Rule = Rule(
    scope: Scope, environment: Option<string>, node: Option<string>, project: Option<string>,
    container: Option<string>, service: Option<string>,
    canView: bool, canLogs: bool, canOperate: bool, canManage: bool, alertNotify: bool)

  datatype Node = Node(id: string, environment: string)

  datatype Container = Container(id: string, node: string, project: Option<string>, present: bool)

  datatype Inventory = Inventory(
    nodes: map<string, Node>, containers: map<string, Container>, services: set<string>)

  datatype User = User(id: string, role: Role, restricted: bool, version: nat, alertNotifications: bool)

  predicate PermissionGranted(rule: Rule, permission: Permission) {
    || rule.canManage
    || match permission
       case View => rule.canView
       case Logs => rule.canLogs
       case Operate => rule.canOperate
       case Manage => false
  }

  predicate RuleMatches(rule: Rule, node: Node, container: Option<Container>) {
    match rule.scope
    case All => true
    case Environment => rule.environment == Some(node.environment)
    case NodeScope => rule.node == Some(node.id)
    case Project =>
      container.Some? && rule.node == Some(node.id) && rule.project == container.value.project
    case ContainerScope => container.Some? && rule.container == Some(container.value.id)
    case Service => false
  }

  /** What one rule gives: without a container, project and container rules open their node. */
  predicate RuleGives(rule: Rule, node: Node, container: Option<Container>, permission: Permission) {
    && PermissionGranted(rule, permission)
    && (|| RuleMatches(rule, node, container)
        || (container.None? && rule.scope in {Project, ContainerScope} && rule.node == Some(node.id)))
  }

  predicate CanAccess(
    user: User, rules: seq<Rule>, node: Node, container: Option<Container>, permission: Permission)
  {
    if user.role == Admin then true
    else if permission in {Manage, Operate} && user.role != Operator then false
    else if permission == Manage && !user.restricted then false
    else if !user.restricted then true
    else exists rule :: rule in rules && RuleGives(rule, node, container, permission)
  }

  predicate RuleShowsMetrics(rule: Rule, node: Node) {
    rule.canView && rule.scope in {All, Environment, NodeScope} && RuleMatches(rule, node, None)
  }

  predicate CanViewNodeMetrics(user: User, rules: seq<Rule>, node: Node) {
    || user.role == Admin || !user.restricted
    || exists rule :: rule in rules && RuleShowsMetrics(rule, node)
  }

  /** Rows are keyed by their (never empty) ids and every container stands on a known node. */
  ghost predicate Consistent(inv: Inventory) {
    && "" !in inv.nodes && "" !in inv.containers
    && (forall id :: id in inv.nodes ==> inv.nodes[id].id == id)
    && (forall id :: id in inv.containers ==>
          inv.containers[id].id == id && inv.containers[id].node in inv.nodes)
  }

  /** A node of the inventory with, perhaps, one of its containers. */
  ghost predicate Resource(inv: Inventory, node: Node, container: Option<Container>) {
    && node.id in inv.nodes && inv.nodes[node.id] == node
    && (container.Some? ==>
          && container.value.id in inv.containers && inv.containers[container.value.id] == container.value
          && container.value.node == node.id)
  }
}
