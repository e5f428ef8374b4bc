/** Delegated administration: which rules a manager may hand out, and what editing another
    user's rules does (cloudhelm/routers/api.py). */
module Delegation {
  import opened Wrappers
  import opened Access

  datatype Refusal =
    | Forbidden | UserNotFound | Conflict | UnknownEnvironment | UnknownNode | UnknownProject
    | UnknownContainer | UnknownService | LogsNotSupported | RoleTooLow

  // ---------------------------------------------------------------- validation

  function Text(value: Option<string>): string {
    match value case Some(s) => s case None => ""
  }

  /** The scope columns a validated rule keeps, and the closure of its permissions. */
  function ValidateRule(input: Rule, inv: Inventory): Result<Rule, Refusal> {
    var base := Rule(
      input.scope, None, None, None, None, None,
      input.canView || input.canLogs || input.canOperate || input.canManage,
      input.canLogs || input.canOperate || input.canManage,
      input.canOperate || input.canManage,
      input.canManage,
      input.alertNotify);
    if input.scope == All then Success(base)
    else if input.scope == Environment then
      if Text(input.environment) == ""
        || !(exists id :: id in inv.nodes && inv.nodes[id].environment == Text(input.environment))
      then Failure(UnknownEnvironment)
      else Success(base.(environment := input.environment))
    else if input.scope == Service then
      if Text(input.service) !in inv.services then Failure(UnknownService)
      else if input.canLogs then Failure(LogsNotSupported)
      else Success(base.(service := Some(Text(input.service)), canView := true, canLogs := false))
    else if Text(input.node) == "" || Text(input.node) !in inv.nodes then Failure(UnknownNode)
    else
      var placed := base.(node := input.node);
      if input.scope == NodeScope then Success(placed)
      else if input.scope == Project then
        if Text(input.project) == ""
          || !(exists id :: id in inv.containers && inv.containers[id].present
                && inv.containers[id].node == Text(input.node)
                && inv.containers[id].project == input.project)
        then Failure(UnknownProject)
        else Success(placed.(project := input.project))
      else
        var id := Text(input.container);
        if id !in inv.containers || !inv.containers[id].present || inv.containers[id].node != Text(input.node)
        then Failure(UnknownContainer)
        else Success(placed.(container := Some(inv.containers[id].id)))
  }

  /** The shape every stored rule has, by scope, and its closed permissions. */
  ghost predicate WellFormed(rule: Rule, inv: Inventory) {
    && (rule.canManage ==> rule.canOperate && rule.canView)
    && (match rule.scope
        case All => rule.environment.None? && rule.node.None? && rule.container.None?
        case Environment => rule.environment.Some? && rule.node.None? && rule.container.None?
        case NodeScope => Placed(rule, inv) && rule.container.None?
        case Project => Placed(rule, inv) && rule.project.Some? && rule.container.None?
        case ContainerScope =>
          && Placed(rule, inv) && rule.container.Some? && rule.container.value in inv.containers
          && inv.containers[rule.container.value].node == rule.node.value
        case Service => rule.node.None? && rule.container.None?)
  }

  ghost predicate Placed(rule: Rule, inv: Inventory) {
    rule.node.Some? && rule.node.value != "" && rule.node.value in inv.nodes
  }

  lemma ValidatedIsWellFormed(input: Rule, inv: Inventory)
    requires Consistent(inv) && ValidateRule(input, inv).Success?
    ensures WellFormed(ValidateRule(input, inv).value, inv)
    ensures ValidateRule(input, inv).value.scope == input.scope
  {}

  // ---------------------------------------------------------------- containment

  function ScopeNodeId(rule: Rule, inv: Inventory): Option<string> {
    if Text(rule.node) != "" then rule.node
    else
      var id := Text(rule.container);
      if id in inv.containers then Some(inv.containers[id].node) else None
  }

  /** `_scope_contains`: does the manager's rule cover the candidate's scope? */
  predicate ScopeContains(manager: Rule, candidate: Rule, inv: Inventory) {
    if manager.scope == All then true
    else if candidate.scope == All then false
    else
      var nodeId := ScopeNodeId(candidate, inv);
      match manager.scope
      case Environment =>
        if candidate.scope == Environment then manager.environment == candidate.environment
        else
          && Text(nodeId) in inv.nodes
          && manager.environment == Some(inv.nodes[Text(nodeId)].environment)
      case NodeScope => manager.node == nodeId
      case Project =>
        && manager.node == nodeId
        && (match candidate.scope
            case Project => manager.project == candidate.project
            case ContainerScope =>
              var id := Text(candidate.container);
              id in inv.containers && inv.containers[id].project == manager.project
            case _ => false)
      case ContainerScope =>
        candidate.scope == ContainerScope && manager.container == candidate.container
      case _ => false
  }

  /** A contained rule gives no access and shows no host metrics that a `can_manage` rule
      containing it does not give. */
  lemma ContainmentIsSound(
    manager: Rule, candidate: Rule, inv: Inventory, node: Node, container: Option<Container>, permission: Permission)
    requires Consistent(inv) && WellFormed(manager, inv) && WellFormed(candidate, inv)
    requires manager.canManage && candidate.scope != Service && ScopeContains(manager, candidate, inv)
    requires Resource(inv, node, container)
    ensures RuleGives(candidate, node, container, permission) ==> RuleGives(manager, node, container, permission)
    ensures RuleShowsMetrics(candidate, node) ==> RuleShowsMetrics(manager, node)
  {}

  lemma ContainmentReflexive(rule: Rule, inv: Inventory)
    requires Consistent(inv) && WellFormed(rule, inv) && rule.scope != Service
    ensures ScopeContains(rule, rule, inv)
  {}

  lemma ContainmentTransitive(a: Rule, b: Rule, c: Rule, inv: Inventory)
    requires Consistent(inv) && WellFormed(a, inv) && WellFormed(b, inv) && WellFormed(c, inv)
    requires b.scope != Service && c.scope != Service
    requires ScopeContains(a, b, inv) && ScopeContains(b, c, inv)
    ensures ScopeContains(a, c, inv)
  {}

  // ---------------------------------------------------------------- changing another user's rules

  datatype Request = Request(
    manager: string, target: string, restricted: bool, globalNotify: bool, rules: seq<Rule>,
    expectedVersion: Option<nat>)

  datatype Accounts = Accounts(users: map<string, User>, rules: map<string, seq<Rule>>)

  function RulesOf(a: Accounts, id: string): seq<Rule> {
    if id in a.rules then a.rules[id] else []
  }

  function ManagementRules(user: User, rules: seq<Rule>): seq<Rule> {
    if user.role != Operator || !user.restricted then [] else WithManage(rules)
  }

  function WithManage(rules: seq<Rule>): seq<Rule> {
    if rules == [] then []
    else WithManage(rules[..|rules| - 1]) + if rules[|rules| - 1].canManage then [rules[|rules| - 1]] else []
  }

  predicate CanManageScope(user: User, management: seq<Rule>, candidate: Rule, inv: Inventory) {
    if candidate.scope == Service then user.role == Admin
    else user.role == Admin || exists r :: r in management && ScopeContains(r, candidate, inv)
  }

  predicate CanManageResources(user: User, rules: seq<Rule>) {
    user.role == Admin || ManagementRules(user, rules) != []
  }

  predicate SameIdentity(a: Rule, b: Rule) {
    && a.scope == b.scope && a.environment == b.environment && a.node == b.node
    && a.project == b.project && a.container == b.container && a.service == b.service
  }

  /** A dictionary keyed by identity: the first position, the last value. */
  function Deduplicated(rules: seq<Rule>): seq<Rule> {
    if rules == [] then []
    else Put(Deduplicated(rules[..|rules| - 1]), rules[|rules| - 1])
  }

  function Put(rules: seq<Rule>, rule: Rule): seq<Rule> {
    if rules == [] then [rule]
    else if SameIdentity(rules[0], rule) then [rule] + rules[1..]
    else [rules[0]] + Put(rules[1..], rule)
  }

  function ValidateAll(inputs: seq<Rule>, inv: Inventory): Result<seq<Rule>, Refusal> {
    if inputs == [] then Success([])
    else
      match ValidateAll(inputs[..|inputs| - 1], inv)
      case Failure(e) => Failure(e)
      case Success(front) =>
        match ValidateRule(inputs[|inputs| - 1], inv)
        case Failure(e) => Failure(e)
        case Success(rule) => Success(front + [rule])
  }

  /** The rules a scoped manager must leave alone. */
  function OutOfScope(user: User, management: seq<Rule>, rules: seq<Rule>, inv: Inventory): seq<Rule> {
    if rules == [] then []
    else
      var last := rules[|rules| - 1];
      OutOfScope(user, management, rules[..|rules| - 1], inv)
        + if CanManageScope(user, management, last, inv) then [] else [last]
  }

  /** `_prepare_access_change`: the validated rules, or the refusal. */
  function Prepare(a: Accounts, inv: Inventory, req: Request): Result<seq<Rule>, Refusal> {
    if req.manager !in a.users then Failure(Forbidden)
    else
      var manager := a.users[req.manager];
      if !CanManageResources(manager, RulesOf(a, req.manager)) then Failure(Forbidden)
      else if req.target !in a.users then Failure(UserNotFound)
      else
        var target := a.users[req.target];
        var scoped := manager.role != Admin;
        if target.role == Admin && req.restricted then Failure(Conflict)
        else if scoped && (target.role == Admin || req.target == req.manager || !target.restricted) then
          Failure(Forbidden)
        else if scoped && !req.restricted then Failure(Forbidden)
        else if req.expectedVersion.Some? && req.expectedVersion.value != target.version then Failure(Conflict)
        else
          var validated := if req.restricted then ValidateAll(Deduplicated(req.rules), inv) else Success([]);
          if validated.Failure? then Failure(validated.error)
          else if target.role != Operator
            && (exists r :: r in validated.value && (r.canManage || (r.scope == Service && r.canOperate)))
          then Failure(RoleTooLow)
          else if scoped
            && (exists r :: r in validated.value
                  && !CanManageScope(manager, ManagementRules(manager, RulesOf(a, req.manager)), r, inv))
          then Failure(Forbidden)
          else validated
  }

  function Updated(a: Accounts, inv: Inventory, req: Request, validated: seq<Rule>): Accounts
    requires req.manager in a.users && req.target in a.users
  {
    var manager, target := a.users[req.manager], a.users[req.target];
    if manager.role != Admin then
      var kept := OutOfScope(
        manager, ManagementRules(manager, RulesOf(a, req.manager)), RulesOf(a, req.target), inv);
      Accounts(a.users[req.target := target.(version := target.version + 1)],
               a.rules[req.target := kept + validated])
    else
      var changed := target.(version := target.version + 1, restricted := req.restricted,
                             alertNotifications := if req.restricted then false else req.globalNotify);
      Accounts(a.users[req.target := changed], a.rules[req.target := validated])
  }

  /** One request: refused requests change nothing. */
  function Requested(a: Accounts, inv: Inventory, req: Request): Accounts {
    match Prepare(a, inv, req)
    case Failure(_) => a
    case Success(validated) => Updated(a, inv, req, validated)
  }

  /** `revoke_user_management`. */
  function Revoked(a: Accounts, id: string): Accounts {
    if id !in a.users then a
    else
      Accounts(a.users[id := a.users[id].(version := a.users[id].version + 1)],
               a.rules[id := NoManage(RulesOf(a, id))])
  }

  function NoManage(rules: seq<Rule>): (r: seq<Rule>)
    ensures |r| == |rules| && forall i :: 0 <= i < |r| ==> r[i] == rules[i].(canManage := false)
  {
    seq(|rules|, i requires 0 <= i < |rules| => rules[i].(canManage := false))
  }

  class AccessControl {
    var users: map<string, User>
    var rules: map<string, seq<Rule>>

    function State(): Accounts
      reads this
    {
      Accounts(users, rules)
    }

    constructor (users: map<string, User>, rules: map<string, seq<Rule>>)
      ensures State() == Accounts(users, rules)
    {
      this.users, this.rules := users, rules;
    }

    method ValidateRequest(inputs: seq<Rule>, inv: Inventory) returns (result: Result<seq<Rule>, Refusal>)
      ensures result == ValidateAll(Deduplicated(inputs), inv)
    {
      var distinct := [];
      var i := 0;
      while i < |inputs|
        invariant 0 <= i <= |inputs|
        invariant distinct == Deduplicated(inputs[..i])
      {
        assert inputs[..i + 1][..i] == inputs[..i];
        distinct := Put(distinct, inputs[i]);
        i := i + 1;
      }
      assert inputs[..i] == inputs;
      var validated := [];
      i := 0;
      while i < |distinct|
        invariant 0 <= i <= |distinct|
        invariant ValidateAll(distinct[..i], inv) == Success(validated)
      {
        assert distinct[..i + 1][..i] == distinct[..i];
        var one := ValidateRule(distinct[i], inv);
        if one.Failure? {
          FailurePersists(distinct, i + 1, inv);
          return Failure(one.error);
        }
        validated := validated + [one.value];
        i := i + 1;
      }
      assert distinct[..i] == distinct;
      return Success(validated);
    }

    /** `_prepare_access_change`. */
    method PrepareAccessChange(inv: Inventory, req: Request) returns (result: Result<seq<Rule>, Refusal>)
      ensures result == Prepare(State(), inv, req)
    {
      if req.manager !in users { return Failure(Forbidden); }
      var manager := users[req.manager];
      if !CanManageResources(manager, RulesOf(State(), req.manager)) { return Failure(Forbidden); }
      if req.target !in users { return Failure(UserNotFound); }
      var target := users[req.target];
      var scoped := manager.role != Admin;
      if target.role == Admin && req.restricted { return Failure(Conflict); }
      if scoped && (target.role == Admin || req.target == req.manager || !target.restricted || !req.restricted) {
        return Failure(Forbidden);
      }
      if req.expectedVersion.Some? && req.expectedVersion.value != target.version { return Failure(Conflict); }
      var validated: Result<seq<Rule>, Refusal> := Success([]);
      if req.restricted {
        validated := ValidateRequest(req.rules, inv);
        if validated.Failure? { return validated; }
      }
      if target.role != Operator
        && exists r :: r in validated.value && (r.canManage || (r.scope == Service && r.canOperate)) {
        return Failure(RoleTooLow);
      }
      var management := ManagementRules(manager, RulesOf(State(), req.manager));
      if scoped && exists r :: r in validated.value && !CanManageScope(manager, management, r, inv) {
        return Failure(Forbidden);
      }
      return validated;
    }

    method KeepOutOfScope(inv: Inventory, manager: User, management: seq<Rule>, existing: seq<Rule>)
      returns (kept: seq<Rule>)
      ensures kept == OutOfScope(manager, management, existing, inv)
    {
      kept := [];
      for i := 0 to |existing|
        invariant kept == OutOfScope(manager, management, existing[..i], inv)
      {
        assert existing[..i + 1][..i] == existing[..i];
        if !CanManageScope(manager, management, existing[i], inv) { kept := kept + [existing[i]]; }
      }
      assert existing[..|existing|] == existing;
    }

    method UpdateUserAccess(inv: Inventory, req: Request) returns (refusal: Option<Refusal>)
      modifies this
      ensures State() == Requested(old(State()), inv, req)
      ensures refusal == match Prepare(old(State()), inv, req) case Failure(e) => Some(e) case Success(_) => None
    {
      var prepared := PrepareAccessChange(inv, req);
      if prepared.Failure? { return Some(prepared.error); }
      PreparedUsersExist(State(), inv, req);
      hide Prepare, OutOfScope, ManagementRules;
      var manager, target := users[req.manager], users[req.target];
      if manager.role != Admin {
        var management := ManagementRules(manager, RulesOf(State(), req.manager));
        var kept := KeepOutOfScope(inv, manager, management, RulesOf(State(), req.target));
        users := users[req.target := target.(version := target.version + 1)];
        rules := rules[req.target := kept + prepared.value];
      } else {
        users := users[req.target := target.(
          version := target.version + 1, restricted := req.restricted,
          alertNotifications := if req.restricted then false else req.globalNotify)];
        rules := rules[req.target := prepared.value];
      }
      return None;
    }

    method RevokeUserManagement(id: string)
      modifies this
      ensures State() == Revoked(old(State()), id)
    {
      if id in users {
        rules := rules[id := NoManage(RulesOf(State(), id))];
        users := users[id := users[id].(version := users[id].version + 1)];
      }
    }
  }

  lemma PreparedUsersExist(a: Accounts, inv: Inventory, req: Request)
    requires Prepare(a, inv, req).Success?
    ensures req.manager in a.users && req.target in a.users
  {}

  lemma {:induction false} FailurePersists(inputs: seq<Rule>, k: nat, inv: Inventory)
    requires k <= |inputs| && ValidateAll(inputs[..k], inv).Failure?
    ensures ValidateAll(inputs, inv) == ValidateAll(inputs[..k], inv)
    decreases |inputs| - k
  {
    if k < |inputs| {
      assert inputs[..k + 1][..k] == inputs[..k];
      FailurePersists(inputs, k + 1, inv);
    } else {
      assert inputs[..k] == inputs;
    }
  }

  // ---------------------------------------------------------------- whole runs

  ghost predicate AllWellFormed(a: Accounts, inv: Inventory) {
    forall id, rule :: id in a.rules && rule in a.rules[id] ==> WellFormed(rule, inv)
  }

  /** Some user who is not an administrator, and is restricted if asked for, has this
      permission on this resource. */
  ghost predicate Reachable(
    a: Accounts, node: Node, container: Option<Container>, permission: Permission, restricted: bool)
  {
    exists id :: id in a.users && a.users[id].role != Admin && (restricted ==> a.users[id].restricted)
      && CanAccess(a.users[id], RulesOf(a, id), node, container, permission)
  }

  ghost predicate MetricsReachable(a: Accounts, node: Node, restricted: bool) {
    exists id :: id in a.users && a.users[id].role != Admin && (restricted ==> a.users[id].restricted)
      && CanViewNodeMetrics(a.users[id], RulesOf(a, id), node)
  }

  function Run(a: Accounts, inv: Inventory, requests: seq<Request>): Accounts {
    if requests == [] then a
    else Requested(Run(a, inv, requests[..|requests| - 1]), inv, requests[|requests| - 1])
  }

  /** Every request comes from a user who is not an administrator. */
  ghost predicate ByManagers(a: Accounts, requests: seq<Request>) {
    forall i :: 0 <= i < |requests| && requests[i].manager in a.users ==>
      a.users[requests[i].manager].role != Admin
  }

  lemma ManagementRulesAre(user: User, rules: seq<Rule>, rule: Rule)
    ensures rule in ManagementRules(user, rules) <==>
      user.role == Operator && user.restricted && rule in rules && rule.canManage
  {
    if user.role == Operator && user.restricted { WithManageAre(rules, rule); }
  }

  lemma {:induction false} WithManageAre(rules: seq<Rule>, rule: Rule)
    ensures rule in WithManage(rules) <==> rule in rules && rule.canManage
  {
    if rules != [] {
      var front := rules[..|rules| - 1];
      WithManageAre(front, rule);
      assert rules == front + [rules[|rules| - 1]];
    }
  }

  lemma {:induction false} OutOfScopeAre(user: User, management: seq<Rule>, rules: seq<Rule>, inv: Inventory, rule: Rule)
    ensures rule in OutOfScope(user, management, rules, inv) <==>
      rule in rules && !CanManageScope(user, management, rule, inv)
  {
    if rules != [] {
      var front := rules[..|rules| - 1];
      OutOfScopeAre(user, management, front, inv, rule);
      assert rules == front + [rules[|rules| - 1]];
    }
  }

  lemma {:induction false} ValidatedAreWellFormed(inputs: seq<Rule>, inv: Inventory)
    requires Consistent(inv) && ValidateAll(inputs, inv).Success?
    ensures forall rule :: rule in ValidateAll(inputs, inv).value ==> WellFormed(rule, inv)
  {
    if inputs != [] {
      ValidatedAreWellFormed(inputs[..|inputs| - 1], inv);
      ValidatedIsWellFormed(inputs[|inputs| - 1], inv);
    }
  }

  /** Where a rule of the state after one scoped request comes from: it was there before, or
      it is contained in a management rule that the requesting manager holds before and
      after. */
  lemma OriginOfRule(a: Accounts, inv: Inventory, req: Request, id: string, rule: Rule)
    requires Consistent(inv)
    requires req.manager in a.users ==> a.users[req.manager].role != Admin
    requires rule in RulesOf(Requested(a, inv, req), id)
    ensures || rule in RulesOf(a, id)
      || (&& Prepare(a, inv, req).Success? && id == req.target && id != req.manager
          && rule.scope != Service && WellFormed(rule, inv)
          && a.users[req.manager].role == Operator && a.users[req.manager].restricted
          && exists r :: r in RulesOf(a, req.manager) && r.canManage && ScopeContains(r, rule, inv))
  {
    var prepared := Prepare(a, inv, req);
    if prepared.Success? && id == req.target {
      var manager := a.users[req.manager];
      var management := ManagementRules(manager, RulesOf(a, req.manager));
      OutOfScopeAre(manager, management, RulesOf(a, req.target), inv, rule);
      if rule in prepared.value {
        ValidatedAreWellFormed(Deduplicated(req.rules), inv);
        assert CanManageScope(manager, management, rule, inv);
        var r :| r in management && ScopeContains(r, rule, inv);
        ManagementRulesAre(manager, RulesOf(a, req.manager), r);
      }
    }
  }

  lemma RequestKeepsUsers(a: Accounts, inv: Inventory, req: Request, id: string)
    requires req.manager in a.users ==> a.users[req.manager].role != Admin
    ensures id in Requested(a, inv, req).users <==> id in a.users
    ensures id in a.users ==>
      var before, after := a.users[id], Requested(a, inv, req).users[id];
      after.role == before.role && after.restricted == before.restricted
  {}

  lemma RequestKeepsWellFormed(a: Accounts, inv: Inventory, req: Request)
    requires Consistent(inv) && AllWellFormed(a, inv)
    requires req.manager in a.users ==> a.users[req.manager].role != Admin
    ensures AllWellFormed(Requested(a, inv, req), inv)
  {
    var after := Requested(a, inv, req);
    forall id, rule | id in after.rules && rule in after.rules[id] ensures WellFormed(rule, inv) {
      assert rule in RulesOf(after, id);
      OriginOfRule(a, inv, req, id, rule);
      if rule in RulesOf(a, id) { assert id in a.rules; }
    }
  }

  /** One scoped request makes nothing reachable that was not reachable before, neither for
      restricted users nor for all that are not administrators. */
  lemma RequestCreatesNoAuthority(
    a: Accounts, inv: Inventory, req: Request, node: Node, container: Option<Container>, permission: Permission,
    restricted: bool)
    requires Consistent(inv) && AllWellFormed(a, inv) && Resource(inv, node, container)
    requires req.manager in a.users ==> a.users[req.manager].role != Admin
    ensures Reachable(Requested(a, inv, req), node, container, permission, restricted) ==>
            Reachable(a, node, container, permission, restricted)
    ensures MetricsReachable(Requested(a, inv, req), node, restricted) ==> MetricsReachable(a, node, restricted)
  {
    var after := Requested(a, inv, req);
    if Reachable(after, node, container, permission, restricted) {
      var id :| id in after.users && after.users[id].role != Admin && (restricted ==> after.users[id].restricted)
        && CanAccess(after.users[id], RulesOf(after, id), node, container, permission);
      RequestKeepsUsers(a, inv, req, id);
      if !CanAccess(a.users[id], RulesOf(a, id), node, container, permission) {
        var rule :| rule in RulesOf(after, id) && RuleGives(rule, node, container, permission);
        OriginOfRule(a, inv, req, id, rule);
        var r :| r in RulesOf(a, req.manager) && r.canManage && ScopeContains(r, rule, inv);
        ContainmentIsSound(r, rule, inv, node, container, permission);
        assert CanAccess(a.users[req.manager], RulesOf(a, req.manager), node, container, permission);
      }
    }
    if MetricsReachable(after, node, restricted) {
      var id :| id in after.users && after.users[id].role != Admin && (restricted ==> after.users[id].restricted)
        && CanViewNodeMetrics(after.users[id], RulesOf(after, id), node);
      RequestKeepsUsers(a, inv, req, id);
      if !CanViewNodeMetrics(a.users[id], RulesOf(a, id), node) {
        var rule :| rule in RulesOf(after, id) && RuleShowsMetrics(rule, node);
        OriginOfRule(a, inv, req, id, rule);
        var r :| r in RulesOf(a, req.manager) && r.canManage && ScopeContains(r, rule, inv);
        ContainmentIsSound(r, rule, inv, node, container, permission);
        assert CanViewNodeMetrics(a.users[req.manager], RulesOf(a, req.manager), node);
      }
    }
  }

  lemma {:induction false} RunKeeps(a: Accounts, inv: Inventory, requests: seq<Request>, id: string)
    requires Consistent(inv) && AllWellFormed(a, inv) && ByManagers(a, requests)
    ensures AllWellFormed(Run(a, inv, requests), inv)
    ensures id in Run(a, inv, requests).users <==> id in a.users
    ensures id in a.users ==>
      var before, after := a.users[id], Run(a, inv, requests).users[id];
      after.role == before.role && after.restricted == before.restricted
  {
    if requests != [] {
      var before, last := requests[..|requests| - 1], requests[|requests| - 1];
      RunKeeps(a, inv, before, id);
      RunKeeps(a, inv, before, last.manager);
      RequestKeepsUsers(Run(a, inv, before), inv, last, id);
      RequestKeepsWellFormed(Run(a, inv, before), inv, last);
    }
  }

  /** No escalation: over any sequence of requests by managers who are not administrators,
      no resource, permission or host metric becomes reachable for non-administrators, and
      none for those of them that are restricted. */
  lemma {:induction false} NoEscalation(
    a: Accounts, inv: Inventory, requests: seq<Request>,
    node: Node, container: Option<Container>, permission: Permission, restricted: bool)
    requires Consistent(inv) && AllWellFormed(a, inv) && ByManagers(a, requests)
    requires Resource(inv, node, container)
    ensures Reachable(Run(a, inv, requests), node, container, permission, restricted) ==>
            Reachable(a, node, container, permission, restricted)
    ensures MetricsReachable(Run(a, inv, requests), node, restricted) ==> MetricsReachable(a, node, restricted)
  {
    if requests != [] {
      var before, last := requests[..|requests| - 1], requests[|requests| - 1];
      RunKeeps(a, inv, before, last.manager);
      NoEscalation(a, inv, before, node, container, permission, restricted);
      RequestCreatesNoAuthority(Run(a, inv, before), inv, last, node, container, permission, restricted);
    }
  }

  /** Every rule a run leaves was held by the same user at the start, or lies inside a
      management rule that some restricted operator held at the start: chains of delegation
      add nothing. */
  lemma {:induction false} DelegationHasOrigin(
    a: Accounts, inv: Inventory, requests: seq<Request>, id: string, rule: Rule)
    requires Consistent(inv) && AllWellFormed(a, inv) && ByManagers(a, requests)
    requires rule in RulesOf(Run(a, inv, requests), id)
    ensures || rule in RulesOf(a, id)
      || (rule.scope != Service && exists origin, r ::
            && origin in a.users && a.users[origin].role == Operator && a.users[origin].restricted
            && r in RulesOf(a, origin) && r.canManage && ScopeContains(r, rule, inv))
  {
    if requests != [] {
      var before, last := requests[..|requests| - 1], requests[|requests| - 1];
      var middle := Run(a, inv, before);
      RunKeeps(a, inv, before, last.manager);
      OriginOfRule(middle, inv, last, id, rule);
      if rule in RulesOf(middle, id) {
        DelegationHasOrigin(a, inv, before, id, rule);
      } else {
        var r :| r in RulesOf(middle, last.manager) && r.canManage && ScopeContains(r, rule, inv);
        DelegationHasOrigin(a, inv, before, last.manager, r);
        if r !in RulesOf(a, last.manager) {
          var origin, q :| origin in a.users && a.users[origin].role == Operator && a.users[origin].restricted
            && q in RulesOf(a, origin) && q.canManage && ScopeContains(q, r, inv);
          ContainmentTransitive(q, r, rule, inv);
        }
      }
    }
  }

  /** An accepted request leaves exactly the target's rules outside the manager's scope, in
      their order, followed by the granted ones, each of them inside that scope; nobody
      else's rules change. */
  lemma AcceptedRequestStaysInScope(a: Accounts, inv: Inventory, req: Request)
    requires Prepare(a, inv, req).Success? && a.users[req.manager].role != Admin
    ensures var manager := a.users[req.manager];
      var management := ManagementRules(manager, RulesOf(a, req.manager));
      var after := Requested(a, inv, req);
      var granted := Prepare(a, inv, req).value;
      && (forall id :: id != req.target ==> RulesOf(after, id) == RulesOf(a, id))
      && OutOfScope(manager, management, RulesOf(after, req.target), inv) ==
         OutOfScope(manager, management, RulesOf(a, req.target), inv)
      && (forall rule :: rule in RulesOf(after, req.target) && CanManageScope(manager, management, rule, inv)
            ==> rule in granted)
      && (forall rule :: rule in granted ==> CanManageScope(manager, management, rule, inv))
      && req.target != req.manager
  {
    var manager := a.users[req.manager];
    var management := ManagementRules(manager, RulesOf(a, req.manager));
    var kept := OutOfScope(manager, management, RulesOf(a, req.target), inv);
    var granted := Prepare(a, inv, req).value;
    forall rule | rule in kept ensures !CanManageScope(manager, management, rule, inv) {
      OutOfScopeAre(manager, management, RulesOf(a, req.target), inv, rule);
    }
    OutOfScopeOfParts(manager, management, kept, granted, inv);
  }

  lemma {:induction false} OutOfScopeOfParts(
    user: User, management: seq<Rule>, kept: seq<Rule>, granted: seq<Rule>, inv: Inventory)
    requires forall rule :: rule in kept ==> !CanManageScope(user, management, rule, inv)
    requires forall rule :: rule in granted ==> CanManageScope(user, management, rule, inv)
    ensures OutOfScope(user, management, kept + granted, inv) == kept
    decreases |kept| + |granted|
  {
    var all := kept + granted;
    if granted != [] {
      OutOfScopeOfParts(user, management, kept, granted[..|granted| - 1], inv);
      assert all[..|all| - 1] == kept + granted[..|granted| - 1];
    } else if kept != [] {
      OutOfScopeOfParts(user, management, kept[..|kept| - 1], [], inv);
      assert all[..|all| - 1] == kept[..|kept| - 1] + [];
    }
  }
}
