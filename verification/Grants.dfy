/** What an accepted access request grants: what was asked for, to whom and by whom
    (cloudhelm/routers/api.py). */
module Grants {
  import opened Wrappers
  import opened Access
  import opened Delegation

  // ---------------------------------------------------------------- one rule

  /** Permissions from the weakest to the strongest. */
  function Level(permission: Permission): nat {
    match permission
    case View => 0
    case Logs => 1
    case Operate => 2
    case Manage => 3
  }

  /** The rule's own flag for a permission. */
  predicate Flag(rule: Rule, permission: Permission) {
    match permission
    case View => rule.canView
    case Logs => rule.canLogs
    case Operate => rule.canOperate
    case Manage => rule.canManage
  }

  /** This permission or a stronger one is asked for. */
  ghost predicate Asked(rule: Rule, permission: Permission) {
    exists q :: Level(q) >= Level(permission) && Flag(rule, q)
  }

  ghost predicate SameScope(rule: Rule, input: Rule) {
    && rule.scope == input.scope
    && (rule.environment == if rule.scope == Environment then input.environment else None)
    && (rule.node == if rule.scope in {NodeScope, Project, ContainerScope} then input.node else None)
    && (rule.project == if rule.scope == Project then input.project else None)
    && (rule.container == if rule.scope == ContainerScope then input.container else None)
    && (rule.scope == Service ==> rule.service == Some(Text(input.service)))
    && (rule.scope != Service ==> rule.service.None?)
  }

  /** The rule gives what the input asks for, where it asks for it: each permission exactly if
      it or a stronger one is asked for. On a service one may always look, and never read
      logs. */
  ghost predicate GivesAsked(rule: Rule, input: Rule) {
    && SameScope(rule, input) && rule.alertNotify == input.alertNotify
    && (forall p :: !(input.scope == Service && p in {View, Logs}) ==> (Flag(rule, p) <==> Asked(input, p)))
    && (input.scope == Service ==> rule.canView && !rule.canLogs && !input.canLogs)
  }

  lemma AskedMeans(rule: Rule)
    ensures Asked(rule, Manage) <==> rule.canManage
    ensures Asked(rule, Operate) <==> rule.canOperate || rule.canManage
    ensures Asked(rule, Logs) <==> rule.canLogs || rule.canOperate || rule.canManage
    ensures Asked(rule, View) <==> rule.canView || rule.canLogs || rule.canOperate || rule.canManage
  {
    assert Flag(rule, Manage) <==> rule.canManage;
    assert Flag(rule, Operate) <==> rule.canOperate;
    assert Flag(rule, Logs) <==> rule.canLogs;
    assert Flag(rule, View) <==> rule.canView;
  }

  /** A validated rule gives exactly what was asked for. */
  lemma ValidatedGivesAsked(input: Rule, inv: Inventory)
    requires Consistent(inv) && ValidateRule(input, inv).Success?
    ensures GivesAsked(ValidateRule(input, inv).value, input)
  {
    AskedMeans(input);
    hide Asked;
  }

  /** What the input names exists: something present on which it would act. */
  ghost predicate NamesSomething(input: Rule, inv: Inventory) {
    exists node: Node, container: Option<Container> ::
      && Resource(inv, node, container) && (container.Some? ==> container.value.present)
      && RuleMatches(input, node, container)
      && (input.scope != Environment ==> input.node == Some(node.id))
  }

  /** A rule is accepted exactly if it names something that exists; on a service, moreover,
      only without logs. */
  lemma ValidatedExactly(input: Rule, inv: Inventory)
    requires Consistent(inv)
    ensures ValidateRule(input, inv).Success? <==>
      match input.scope
      case All => true
      case Service => Text(input.service) in inv.services && !input.canLogs
      case Environment => Text(input.environment) != "" && NamesSomething(input, inv)
      case Project => Text(input.project) != "" && NamesSomething(input, inv)
      case _ => NamesSomething(input, inv)
  {
    if input.scope !in {All, Service} {
      if ValidateRule(input, inv).Success? { AcceptedNames(input, inv); }
      if NamesSomething(input, inv) && (input.scope == Environment ==> Text(input.environment) != "")
        && (input.scope == Project ==> Text(input.project) != "")
      {
        NamedIsAccepted(input, inv);
      }
    }
  }

  lemma AcceptedNames(input: Rule, inv: Inventory)
    requires Consistent(inv) && input.scope !in {All, Service} && ValidateRule(input, inv).Success?
    ensures NamesSomething(input, inv)
  {
    if input.scope == Environment {
      var id :| id in inv.nodes && inv.nodes[id].environment == Text(input.environment);
      assert Resource(inv, inv.nodes[id], None);
    } else {
      var node := inv.nodes[Text(input.node)];
      if input.scope == NodeScope {
        assert Resource(inv, node, None);
      } else if input.scope == Project {
        var id :| id in inv.containers && inv.containers[id].present && inv.containers[id].node == Text(input.node)
          && inv.containers[id].project == input.project;
        assert Resource(inv, node, Some(inv.containers[id]));
      } else {
        assert Resource(inv, node, Some(inv.containers[Text(input.container)]));
      }
    }
  }

  lemma NamedIsAccepted(input: Rule, inv: Inventory)
    requires Consistent(inv) && input.scope !in {All, Service} && NamesSomething(input, inv)
    requires input.scope == Environment ==> Text(input.environment) != ""
    requires input.scope == Project ==> Text(input.project) != ""
    ensures ValidateRule(input, inv).Success?
  {
    var node: Node, container: Option<Container> :|
      && Resource(inv, node, container) && (container.Some? ==> container.value.present)
      && RuleMatches(input, node, container)
      && (input.scope != Environment ==> input.node == Some(node.id));
    assert node.id != "";
    if container.Some? { assert container.value.id != ""; }
  }

  // ---------------------------------------------------------------- one request

  /** The rules differ in nothing but what they permit. */
  ghost predicate AboutTheSame(a: Rule, b: Rule) {
    b == a.(canView := b.canView, canLogs := b.canLogs, canOperate := b.canOperate, canManage := b.canManage,
            alertNotify := b.alertNotify)
  }

  lemma IdentityExactly(a: Rule, b: Rule)
    ensures SameIdentity(a, b) <==> AboutTheSame(a, b)
  {}

  /** No later rule of the request is about the same scope. */
  ghost predicate Effective(rules: seq<Rule>, i: nat) {
    i < |rules| && forall j :: i < j < |rules| ==> !AboutTheSame(rules[i], rules[j])
  }

  ghost predicate AllDiffer(rules: seq<Rule>) {
    forall j, k :: 0 <= j < k < |rules| ==> !AboutTheSame(rules[j], rules[k])
  }

  lemma {:induction false} PutMembers(rules: seq<Rule>, rule: Rule, other: Rule)
    requires AllDiffer(rules)
    ensures other in Put(rules, rule) <==> other == rule || (other in rules && !AboutTheSame(other, rule))
  {
    hide SameIdentity;
    if rules != [] {
      var rest, after := rules[1..], Put(rules, rule);
      assert forall k :: 0 < k < |rules| ==> rules[k] == rest[k - 1];
      PutMembers(rest, rule, other);
      IdentityExactly(rules[0], rule);
      assert other in rules <==> other == rules[0] || other in rest;
      if SameIdentity(rules[0], rule) {
        assert after == [rule] + rest;
        if other in rest { SecondDiffers(rules, rule, other); }
      } else {
        assert after == [rules[0]] + Put(rest, rule);
      }
    }
  }

  lemma SecondDiffers(rules: seq<Rule>, rule: Rule, other: Rule)
    requires AllDiffer(rules) && rules != [] && AboutTheSame(rules[0], rule) && other in rules[1..]
    ensures !AboutTheSame(other, rule)
  {
    var k :| 0 <= k < |rules[1..]| && rules[1..][k] == other;
    assert !AboutTheSame(rules[0], rules[k + 1]);
  }

  lemma {:induction false} PutDiffer(rules: seq<Rule>, rule: Rule)
    requires AllDiffer(rules)
    ensures AllDiffer(Put(rules, rule))
  {
    hide SameIdentity;
    if rules != [] {
      var rest, after := rules[1..], Put(rules, rule);
      assert forall k :: 0 < k < |rules| ==> rules[k] == rest[k - 1];
      PutDiffer(rest, rule);
      IdentityExactly(rules[0], rule);
      if SameIdentity(rules[0], rule) {
        assert after == [rule] + rest;
      } else {
        assert after == [rules[0]] + Put(rest, rule);
        forall k | 0 < k < |after| ensures !AboutTheSame(after[0], after[k]) {
          assert after[k] == Put(rest, rule)[k - 1];
          PutMembers(rest, rule, after[k]);
        }
      }
    }
  }

  /** What remains of a request: its effective rules, no two about the same scope. */
  lemma {:induction false} DeduplicatedAre(rules: seq<Rule>, rule: Rule)
    ensures rule in Deduplicated(rules) <==> exists i: nat :: Effective(rules, i) && rules[i] == rule
    ensures AllDiffer(Deduplicated(rules))
  {
    hide AboutTheSame, SameIdentity, Put;
    if rules != [] {
      var front, last := rules[..|rules| - 1], rules[|rules| - 1];
      DeduplicatedAre(front, rule);
      PutMembers(Deduplicated(front), last, rule);
      PutDiffer(Deduplicated(front), last);
      assert Effective(rules, |front|);
      forall i: nat | i < |front| ensures Effective(rules, i) <==> Effective(front, i) && !AboutTheSame(front[i], last) {
        assert rules[|front|] == last;
      }
      if rule in Deduplicated(rules) && rule != last {
        var i: nat :| Effective(front, i) && front[i] == rule;
        assert Effective(rules, i);
      }
    }
  }

  lemma {:induction false} AllValidated(inputs: seq<Rule>, inv: Inventory)
    requires Consistent(inv) && ValidateAll(inputs, inv).Success?
    ensures var granted := ValidateAll(inputs, inv).value;
      |granted| == |inputs| && forall k :: 0 <= k < |inputs| ==> GivesAsked(granted[k], inputs[k])
  {
    hide GivesAsked, ValidateRule;
    if inputs != [] {
      AllValidated(inputs[..|inputs| - 1], inv);
      ValidatedGivesAsked(inputs[|inputs| - 1], inv);
    }
  }

  /** The rules an accepted request adds: for each scope it names, what its last rule about
      that scope asks for, and nothing else. */
  ghost predicate GrantsRequested(granted: seq<Rule>, rules: seq<Rule>) {
    && (forall rule :: rule in granted ==> IsAsked(rules, rule))
    && (forall i: nat :: Effective(rules, i) ==> IsGranted(granted, rules[i]))
  }

  ghost predicate IsAsked(rules: seq<Rule>, rule: Rule) {
    exists i: nat :: Effective(rules, i) && GivesAsked(rule, rules[i])
  }

  ghost predicate IsGranted(granted: seq<Rule>, input: Rule) {
    exists rule :: rule in granted && GivesAsked(rule, input)
  }

  lemma GrantedWasAsked(rules: seq<Rule>, inv: Inventory, rule: Rule)
    requires Consistent(inv) && ValidateAll(Deduplicated(rules), inv).Success?
    requires rule in ValidateAll(Deduplicated(rules), inv).value
    ensures IsAsked(rules, rule)
  {
    hide GivesAsked, AboutTheSame, ValidateAll, Deduplicated;
    var inputs := Deduplicated(rules);
    var granted := ValidateAll(inputs, inv).value;
    AllValidated(inputs, inv);
    var k :| 0 <= k < |granted| && granted[k] == rule;
    DeduplicatedAre(rules, inputs[k]);
  }

  lemma AskedIsGranted(rules: seq<Rule>, inv: Inventory, i: nat)
    requires Consistent(inv) && ValidateAll(Deduplicated(rules), inv).Success? && Effective(rules, i)
    ensures IsGranted(ValidateAll(Deduplicated(rules), inv).value, rules[i])
  {
    hide GivesAsked, AboutTheSame, ValidateAll, Deduplicated;
    var inputs := Deduplicated(rules);
    AllValidated(inputs, inv);
    EffectiveIsKept(rules, i);
    var k :| 0 <= k < |inputs| && inputs[k] == rules[i];
    assert GivesAsked(ValidateAll(inputs, inv).value[k], inputs[k]);
  }

  lemma ValidatedGrantsRequested(rules: seq<Rule>, inv: Inventory)
    requires Consistent(inv) && ValidateAll(Deduplicated(rules), inv).Success?
    ensures GrantsRequested(ValidateAll(Deduplicated(rules), inv).value, rules)
  {
    hide IsAsked, IsGranted, AboutTheSame, ValidateAll, Deduplicated;
    var granted := ValidateAll(Deduplicated(rules), inv).value;
    forall rule | rule in granted ensures IsAsked(rules, rule) { GrantedWasAsked(rules, inv, rule); }
    forall i: nat | Effective(rules, i) ensures IsGranted(granted, rules[i]) { AskedIsGranted(rules, inv, i); }
  }

  lemma EffectiveIsKept(rules: seq<Rule>, i: nat)
    requires Effective(rules, i)
    ensures i < |rules| && rules[i] in Deduplicated(rules)
  {
    DeduplicatedAre(rules, rules[i]);
  }

  lemma PreparedGrantsRequested(a: Accounts, inv: Inventory, req: Request)
    requires Consistent(inv) && Prepare(a, inv, req).Success?
    ensures if req.restricted then GrantsRequested(Prepare(a, inv, req).value, req.rules) else Prepare(a, inv, req).value == []
  {
    hide GrantsRequested, ValidateAll, Deduplicated, CanManageScope, ManagementRules;
    if req.restricted { ValidatedGrantsRequested(req.rules, inv); }
  }

  /** After an accepted request the target holds exactly what was asked for: from an
      administrator nothing else; from a manager, behind the rules outside the manager's
      scope, in their order. The account's version rises by one; an administrator also decides
      whether it is restricted and is told of all alerts; nobody else changes. */
  lemma AcceptedRequestGrantsAsked(a: Accounts, inv: Inventory, req: Request)
    requires Consistent(inv) && Prepare(a, inv, req).Success?
    ensures req.manager in a.users && req.target in a.users && req.target in Requested(a, inv, req).users
    ensures var after := Requested(a, inv, req); var manager := a.users[req.manager];
      var kept := if manager.role == Admin then []
        else OutOfScope(manager, ManagementRules(manager, RulesOf(a, req.manager)), RulesOf(a, req.target), inv);
      var held := RulesOf(after, req.target);
      && kept <= held
      && (if req.restricted then GrantsRequested(held[|kept|..], req.rules) else held == kept)
      && (forall id :: id != req.target ==>
            RulesOf(after, id) == RulesOf(a, id) && (id in after.users <==> id in a.users)
            && (id in a.users ==> after.users[id] == a.users[id]))
    ensures var before, after := a.users[req.target], Requested(a, inv, req).users[req.target];
      && after.version == before.version + 1 && after.role == before.role && after.id == before.id
      && (if a.users[req.manager].role == Admin then
            && after.restricted == req.restricted
            && after.alertNotifications == (!req.restricted && req.globalNotify)
          else after.restricted == before.restricted && after.alertNotifications == before.alertNotifications)
  {
    hide GrantsRequested, OutOfScope, ManagementRules, CanManageScope, ValidateAll;
    PreparedGrantsRequested(a, inv, req);
    var granted := Prepare(a, inv, req).value;
    var manager := a.users[req.manager];
    if manager.role != Admin {
      var kept := OutOfScope(manager, ManagementRules(manager, RulesOf(a, req.manager)), RulesOf(a, req.target), inv);
      assert (kept + granted)[|kept|..] == granted;
    } else {
      assert ([] + granted)[0..] == granted;
    }
  }

  /** A grant opens exactly what it asks for: a resource, for a permission, if and only if the
      request's rule matches the resource and asks for the permission or a stronger one. */
  lemma GrantOpensAsked(
    rule: Rule, input: Rule, inv: Inventory, node: Node, container: Option<Container>, permission: Permission)
    requires Consistent(inv) && ValidateRule(input, inv) == Success(rule) && input.scope != Service
    requires Resource(inv, node, container)
    ensures RuleGives(rule, node, container, permission) <==>
      && Asked(input, permission)
      && (|| RuleMatches(input, node, container)
          || (container.None? && input.scope in {Project, ContainerScope} && input.node == Some(node.id)))
  {
    ValidatedGivesAsked(input, inv);
    AskedMeans(input);
    AskedMeans(rule);
    hide Asked;
  }

  // ---------------------------------------------------------------- who may ask

  /** An accepted request that is not an administrator's comes from a restricted operator who
      manages something, and concerns another restricted account, not an administrator's, which
      it leaves restricted. */
  lemma ManagersStayInBounds(a: Accounts, inv: Inventory, req: Request)
    requires Prepare(a, inv, req).Success? && a.users[req.manager].role != Admin
    ensures var manager, target := a.users[req.manager], a.users[req.target];
      && manager.role == Operator && manager.restricted
      && (exists rule :: rule in RulesOf(a, req.manager) && rule.canManage)
      && target.role != Admin && target.restricted && req.restricted && req.target != req.manager
  {
    hide ValidateAll, CanManageScope;
    var manager := a.users[req.manager];
    var rule := ManagementRules(manager, RulesOf(a, req.manager))[0];
    ManagementRulesAre(manager, RulesOf(a, req.manager), rule);
  }

  /** Only operators hold rules that manage, or that operate a service. */
  ghost predicate RolesHeld(a: Accounts) {
    forall id, rule :: id in a.users && a.users[id].role != Operator && rule in RulesOf(a, id) ==>
      !rule.canManage && !(rule.scope == Service && rule.canOperate)
  }

  lemma RequestKeepsRoles(a: Accounts, inv: Inventory, req: Request)
    requires RolesHeld(a)
    ensures RolesHeld(Requested(a, inv, req))
  {
    hide ValidateAll, CanManageScope;
    if Prepare(a, inv, req).Success? {
      var after := Requested(a, inv, req);
      var granted, manager := Prepare(a, inv, req).value, a.users[req.manager];
      var management := ManagementRules(manager, RulesOf(a, req.manager));
      forall id, rule | id in after.users && after.users[id].role != Operator && rule in RulesOf(after, id)
        ensures !rule.canManage && !(rule.scope == Service && rule.canOperate)
      {
        if id == req.target {
          OutOfScopeAre(manager, management, RulesOf(a, id), inv, rule);
        }
      }
    }
  }

  /** Over any requests, administrators' included, only operators hold such rules. */
  lemma {:induction false} OnlyOperatorsManage(a: Accounts, inv: Inventory, requests: seq<Request>)
    requires RolesHeld(a)
    ensures RolesHeld(Run(a, inv, requests))
  {
    hide RolesHeld, Requested;
    if requests != [] {
      OnlyOperatorsManage(a, inv, requests[..|requests| - 1]);
      RequestKeepsRoles(Run(a, inv, requests[..|requests| - 1]), inv, requests[|requests| - 1]);
    }
  }

  function VersionOf(a: Accounts, id: string): nat {
    if id in a.users then a.users[id].version else 0
  }

  lemma VersionsGrow(a: Accounts, inv: Inventory, req: Request, id: string)
    ensures VersionOf(Requested(a, inv, req), id) ==
      VersionOf(a, id) + if Prepare(a, inv, req).Success? && id == req.target then 1 else 0
  {
    hide ValidateAll, CanManageScope, OutOfScope, ManagementRules;
  }

  lemma {:induction false} RunVersionsGrow(a: Accounts, inv: Inventory, requests: seq<Request>, i: nat, id: string)
    requires i <= |requests|
    ensures VersionOf(Run(a, inv, requests), id) >= VersionOf(Run(a, inv, requests[..i]), id)
  {
    hide Requested, VersionOf, Prepare;
    if i == |requests| {
      assert requests[..i] == requests;
    } else {
      var front := requests[..|requests| - 1];
      assert front[..i] == requests[..i];
      RunVersionsGrow(a, inv, front, i, id);
      VersionsGrow(Run(a, inv, front), inv, requests[|requests| - 1], id);
    }
  }

  /** No lost update: of all requests of a run that edit one account and expect the same
      version of it, at most one is accepted. */
  lemma StaleRequestIsRefused(a: Accounts, inv: Inventory, requests: seq<Request>, i: nat, j: nat)
    requires i < j < |requests| && requests[i].target == requests[j].target
    requires requests[i].expectedVersion.Some? && requests[i].expectedVersion == requests[j].expectedVersion
    requires Prepare(Run(a, inv, requests[..i]), inv, requests[i]).Success?
    ensures Prepare(Run(a, inv, requests[..j]), inv, requests[j]).Failure?
  {
    var s := Run(a, inv, requests[..i]);
    var upTo := requests[..i + 1];
    assert upTo[..i] == requests[..i] && upTo[|upTo| - 1] == requests[i];
    assert requests[..j][..i + 1] == upTo;
    hide Requested, Run, ValidateAll, CanManageScope, ManagementRules;
    assert Run(a, inv, upTo) == Requested(s, inv, requests[i]) by { RunStep(a, inv, upTo); }
    VersionsGrow(s, inv, requests[i], requests[i].target);
    RunVersionsGrow(a, inv, requests[..j], i + 1, requests[i].target);
  }

  lemma RunStep(a: Accounts, inv: Inventory, requests: seq<Request>)
    requires requests != []
    ensures Run(a, inv, requests) == Requested(Run(a, inv, requests[..|requests| - 1]), inv, requests[|requests| - 1])
  {}

  // ---------------------------------------------------------------- when a request is accepted

  /** The rule can be granted to this account. */
  ghost predicate Grantable(input: Rule, inv: Inventory, target: User) {
    && ValidateRule(input, inv).Success?
    && (target.role != Operator ==> !input.canManage && !(input.scope == Service && input.canOperate))
  }

  /** The manager, if not an administrator, holds a management rule that contains it. */
  ghost predicate Covered(input: Rule, inv: Inventory, manager: User, held: seq<Rule>) {
    && ValidateRule(input, inv).Success?
    && (manager.role != Admin ==>
          input.scope != Service && exists r :: r in held && r.canManage && ScopeContains(r, ValidateRule(input, inv).value, inv))
  }

  ghost predicate MayManage(user: User, held: seq<Rule>) {
    user.role == Admin || (user.role == Operator && user.restricted && exists r :: r in held && r.canManage)
  }

  /** The account may be edited as asked: administrators are never restricted, and others edit
      only restricted accounts but their own, and leave them restricted. */
  ghost predicate MayEdit(manager: User, target: User, req: Request) {
    && !(target.role == Admin && req.restricted)
    && (manager.role != Admin ==>
          target.role != Admin && target.restricted && req.restricted && req.target != req.manager)
  }

  lemma {:induction false} AllValid(inputs: seq<Rule>, inv: Inventory)
    ensures ValidateAll(inputs, inv).Success? <==> forall k :: 0 <= k < |inputs| ==> ValidateRule(inputs[k], inv).Success?
    ensures ValidateAll(inputs, inv).Success? ==>
      var granted := ValidateAll(inputs, inv).value;
      |granted| == |inputs| && forall k :: 0 <= k < |inputs| ==> granted[k] == ValidateRule(inputs[k], inv).value
  {
    hide ValidateRule;
    if inputs != [] { AllValid(inputs[..|inputs| - 1], inv); }
  }

  lemma MayManageMeans(user: User, rules: seq<Rule>)
    ensures CanManageResources(user, rules) <==> MayManage(user, rules)
  {
    var management := ManagementRules(user, rules);
    if management != [] { ManagementRulesAre(user, rules, management[0]); }
    if r :| r in rules && r.canManage { ManagementRulesAre(user, rules, r); }
  }

  lemma CoverageMeans(input: Rule, inv: Inventory, manager: User, held: seq<Rule>)
    requires ValidateRule(input, inv).Success? && manager.role == Operator && manager.restricted
    ensures CanManageScope(manager, ManagementRules(manager, held), ValidateRule(input, inv).value, inv) <==>
      Covered(input, inv, manager, held)
  {
    hide ScopeContains;
    assert ValidateRule(input, inv).value.scope == input.scope;
    forall r ensures r in ManagementRules(manager, held) <==> r in held && r.canManage {
      ManagementRulesAre(manager, held, r);
    }
    hide ValidateRule, ManagementRules;
  }

  lemma ElevatedMeans(input: Rule, inv: Inventory)
    requires ValidateRule(input, inv).Success?
    ensures var rule := ValidateRule(input, inv).value;
      (rule.canManage || (rule.scope == Service && rule.canOperate)) <==>
        (input.canManage || (input.scope == Service && input.canOperate))
  {}

  /** What is asked of every rule of a request, asked of those that remain of it. */
  ghost predicate AllFit(inputs: seq<Rule>, inv: Inventory, manager: User, held: seq<Rule>, target: User) {
    forall k :: 0 <= k < |inputs| ==> Grantable(inputs[k], inv, target) && Covered(inputs[k], inv, manager, held)
  }

  lemma EffectiveFit(rules: seq<Rule>, inv: Inventory, manager: User, held: seq<Rule>, target: User)
    ensures AllFit(Deduplicated(rules), inv, manager, held, target) <==>
      forall i: nat :: Effective(rules, i) ==> Grantable(rules[i], inv, target) && Covered(rules[i], inv, manager, held)
  {
    hide AboutTheSame, Deduplicated, Grantable, Covered;
    var inputs := Deduplicated(rules);
    forall i: nat | Effective(rules, i) ensures rules[i] in inputs { EffectiveIsKept(rules, i); }
    forall k | 0 <= k < |inputs| ensures exists i: nat :: Effective(rules, i) && rules[i] == inputs[k] {
      DeduplicatedAre(rules, inputs[k]);
    }
  }

  /** The checks on the validated rules, read on the inputs. */
  lemma ValidatedFit(inputs: seq<Rule>, inv: Inventory, manager: User, held: seq<Rule>, target: User)
    requires MayManage(manager, held)
    ensures AllFit(inputs, inv, manager, held, target) <==>
      && ValidateAll(inputs, inv).Success?
      && (target.role != Operator ==>
            forall r :: r in ValidateAll(inputs, inv).value ==> !r.canManage && !(r.scope == Service && r.canOperate))
      && (manager.role != Admin ==>
            forall r :: r in ValidateAll(inputs, inv).value ==>
              CanManageScope(manager, ManagementRules(manager, held), r, inv))
  {
    hide ValidateRule, ValidateAll, CanManageScope, ManagementRules;
    AllValid(inputs, inv);
    forall k | 0 <= k < |inputs| && ValidateRule(inputs[k], inv).Success?
      ensures var rule, input := ValidateRule(inputs[k], inv).value, inputs[k];
        && ((rule.canManage || (rule.scope == Service && rule.canOperate)) <==>
              (input.canManage || (input.scope == Service && input.canOperate)))
        && (Covered(input, inv, manager, held) <==>
              (manager.role != Admin ==> CanManageScope(manager, ManagementRules(manager, held), rule, inv)))
    {
      ElevatedMeans(inputs[k], inv);
      if manager.role != Admin { CoverageMeans(inputs[k], inv, manager, held); }
    }
    hide Covered, MayManage;
    if ValidateAll(inputs, inv).Success? {
      var granted := ValidateAll(inputs, inv).value;
      forall k | 0 <= k < |inputs| ensures granted[k] in granted {}
    }
  }

  /** Exactly when a request is accepted: both accounts exist, the manager manages something,
      the account may be edited as asked, nobody has edited it meanwhile, and every rule that
      counts can be granted to it and lies inside the manager's own. */
  lemma AcceptedExactly(a: Accounts, inv: Inventory, req: Request)
    ensures Prepare(a, inv, req).Success? <==>
      && req.manager in a.users && req.target in a.users
      && var manager, target, held := a.users[req.manager], a.users[req.target], RulesOf(a, req.manager);
      && MayManage(manager, held) && MayEdit(manager, target, req)
      && (req.expectedVersion.Some? ==> req.expectedVersion.value == target.version)
      && (req.restricted ==> forall i: nat :: Effective(req.rules, i) ==>
            Grantable(req.rules[i], inv, target) && Covered(req.rules[i], inv, manager, held))
  {
    hide ValidateAll, CanManageScope, ManagementRules, Grantable, Covered, Deduplicated, AllFit, Effective, MayManage;
    hide CanManageResources;
    if req.manager in a.users && req.target in a.users {
      var manager, target, held := a.users[req.manager], a.users[req.target], RulesOf(a, req.manager);
      MayManageMeans(manager, held);
      EffectiveFit(req.rules, inv, manager, held, target);
      if MayManage(manager, held) { ValidatedFit(Deduplicated(req.rules), inv, manager, held, target); }
    }
  }

  // ---------------------------------------------------------------- what it opens in the end

  /** The scope asked for covers the resource; without a container, those of projects and
      containers cover their node. */
  ghost predicate CoversResource(input: Rule, node: Node, container: Option<Container>) {
    match input.scope
    case All => true
    case Environment => input.environment == Some(node.environment)
    case NodeScope => input.node == Some(node.id)
    case Project =>
      input.node == Some(node.id) && (container.None? || input.project == container.value.project)
    case ContainerScope =>
      input.node == Some(node.id) && (container.None? || input.container == Some(container.value.id))
    case Service => false
  }

  lemma GivesExactly(rule: Rule, input: Rule, inv: Inventory, node: Node, container: Option<Container>, permission: Permission)
    requires Consistent(inv) && WellFormed(rule, inv) && GivesAsked(rule, input) && Resource(inv, node, container)
    ensures RuleGives(rule, node, container, permission) <==> Asked(input, permission) && CoversResource(input, node, container)
    ensures RuleShowsMetrics(rule, node) <==>
      Asked(input, View) && input.scope in {All, Environment, NodeScope} && CoversResource(input, node, None)
  {
    AskedMeans(input);
    AskedMeans(rule);
    assert Flag(rule, View) && Flag(rule, Logs) ==> rule.canView && rule.canLogs;
    FlagsAre(rule, input);
    hide Asked, Consistent;
  }

  lemma FlagsAre(rule: Rule, input: Rule)
    requires GivesAsked(rule, input)
    ensures rule.canManage <==> Asked(input, Manage)
    ensures rule.canOperate <==> Asked(input, Operate)
    ensures input.scope != Service ==> (rule.canLogs <==> Asked(input, Logs)) && (rule.canView <==> Asked(input, View))
  {
    hide Asked, SameScope;
    assert Flag(rule, Manage) <==> rule.canManage;
    assert Flag(rule, Operate) <==> rule.canOperate;
    assert Flag(rule, Logs) <==> rule.canLogs;
    assert Flag(rule, View) <==> rule.canView;
  }

  /** Some rule of the request that counts asks for this. */
  ghost predicate RequestAsks(req: Request, node: Node, container: Option<Container>, permission: Permission) {
    exists i: nat :: Effective(req.rules, i) && Asked(req.rules[i], permission)
      && CoversResource(req.rules[i], node, container)
  }

  ghost predicate RequestShows(req: Request, node: Node) {
    exists i: nat :: Effective(req.rules, i) && Asked(req.rules[i], View)
      && req.rules[i].scope in {All, Environment, NodeScope} && CoversResource(req.rules[i], node, None)
  }

  lemma HeldGive(held: seq<Rule>, req: Request, inv: Inventory, node: Node, container: Option<Container>, permission: Permission)
    requires Consistent(inv) && Resource(inv, node, container) && GrantsRequested(held, req.rules)
    requires forall rule :: rule in held ==> WellFormed(rule, inv)
    ensures (exists rule :: rule in held && RuleGives(rule, node, container, permission)) <==>
      RequestAsks(req, node, container, permission)
    ensures (exists rule :: rule in held && RuleShowsMetrics(rule, node)) <==> RequestShows(req, node)
  {
    hide RuleGives, RuleShowsMetrics, WellFormed, GivesAsked, Asked, CoversResource, AboutTheSame, Consistent, Resource,
      GrantsRequested;
    if rule :| rule in held && RuleGives(rule, node, container, permission) {
      var i := AskedFor(held, req, rule);
      GivesExactly(rule, req.rules[i], inv, node, container, permission);
    }
    if i: nat :| Effective(req.rules, i) && Asked(req.rules[i], permission) && CoversResource(req.rules[i], node, container) {
      var rule := HeldFor(held, req, i);
      GivesExactly(rule, req.rules[i], inv, node, container, permission);
    }
    if rule :| rule in held && RuleShowsMetrics(rule, node) {
      var i := AskedFor(held, req, rule);
      GivesExactly(rule, req.rules[i], inv, node, container, permission);
    }
    if RequestShows(req, node) {
      var i: nat :|
        && Effective(req.rules, i) && Asked(req.rules[i], View)
        && req.rules[i].scope in {All, Environment, NodeScope} && CoversResource(req.rules[i], node, None);
      var rule := HeldFor(held, req, i);
      GivesExactly(rule, req.rules[i], inv, node, container, permission);
    }
  }

  lemma AskedFor(held: seq<Rule>, req: Request, rule: Rule) returns (i: nat)
    requires GrantsRequested(held, req.rules) && rule in held
    ensures Effective(req.rules, i) && GivesAsked(rule, req.rules[i])
  {
    hide GivesAsked, AboutTheSame;
    assert IsAsked(req.rules, rule);
    i :| Effective(req.rules, i) && GivesAsked(rule, req.rules[i]);
  }

  lemma HeldFor(held: seq<Rule>, req: Request, i: nat) returns (rule: Rule)
    requires GrantsRequested(held, req.rules) && Effective(req.rules, i)
    ensures rule in held && GivesAsked(rule, req.rules[i])
  {
    hide GivesAsked, AboutTheSame;
    assert IsGranted(held, req.rules[i]);
    rule :| rule in held && GivesAsked(rule, req.rules[i]);
  }

  /** After an administrator's request the account reaches exactly what the request's rules ask
      for, where they ask for it - operating only as an operator - and sees the metrics of
      exactly the nodes they name; after lifting the restriction it reaches everything but
      management. An administrator reaches everything. */
  lemma AccessAfterRequest(
    a: Accounts, inv: Inventory, req: Request, node: Node, container: Option<Container>, permission: Permission)
    requires Consistent(inv) && Prepare(a, inv, req).Success? && a.users[req.manager].role == Admin
    requires Resource(inv, node, container)
    ensures var after := Requested(a, inv, req);
      && req.target in after.users
      && var user, held := after.users[req.target], RulesOf(after, req.target);
         && (CanAccess(user, held, node, container, permission) <==>
               || user.role == Admin
               || (&& (permission in {Operate, Manage} ==> user.role == Operator)
                   && if req.restricted then RequestAsks(req, node, container, permission) else permission != Manage))
         && (CanViewNodeMetrics(user, held, node) <==> !req.restricted || RequestShows(req, node))
  {
    hide RequestAsks, RequestShows, GrantsRequested, WellFormed, RuleGives, RuleShowsMetrics, Consistent, Resource;
    AcceptedRequestGrantsAsked(a, inv, req);
    var held := RulesOf(Requested(a, inv, req), req.target);
    if req.restricted {
      assert held[0..] == held;
      GrantedAreWellFormed(a, inv, req);
      HeldGive(held, req, inv, node, container, permission);
    }
    hide Prepare, Requested;
  }

  lemma GrantedAreWellFormed(a: Accounts, inv: Inventory, req: Request)
    requires Consistent(inv) && Prepare(a, inv, req).Success? && a.users[req.manager].role == Admin && req.restricted
    ensures forall rule :: rule in RulesOf(Requested(a, inv, req), req.target) ==> WellFormed(rule, inv)
  {
    hide WellFormed, ValidateAll, Deduplicated;
    ValidatedAreWellFormed(Deduplicated(req.rules), inv);
  }

  // ---------------------------------------------------------------- what a manager may grant

  /** The container stands in the project, on the node. */
  ghost predicate InProject(inv: Inventory, container: Option<string>, project: Option<string>) {
    container.Some? && container.value in inv.containers && inv.containers[container.value].project == project
  }

  /** Between stored rules that are not about services: a rule on everything contains all; one
      on an environment that environment and what lies on its nodes; one on a node what lies
      on it; one on a project itself and its containers; one on a container itself alone. */
  lemma ContainsExactly(m: Rule, c: Rule, inv: Inventory)
    requires Consistent(inv) && WellFormed(m, inv) && WellFormed(c, inv) && m.scope != Service && c.scope != Service
    ensures ScopeContains(m, c, inv) <==>
      match m.scope
      case All => true
      case Environment =>
        || (c.scope == Environment && c.environment == m.environment)
        || (c.node.Some? && inv.nodes[c.node.value].environment == m.environment.value)
      case NodeScope => c.node == m.node
      case Project =>
        c.node == m.node
        && ((c.scope == Project && c.project == m.project) || (c.scope == ContainerScope && InProject(inv, c.container, m.project)))
      case ContainerScope => c.scope == ContainerScope && c.container == m.container
      case Service => false
  {}

  /** Revoking takes management away from every rule of the account, raises its version, and
      changes nothing else. */
  lemma RevokedExactly(a: Accounts, id: string)
    ensures var after := Revoked(a, id);
      && (id !in a.users ==> after == a)
      && (id in a.users ==>
            && after.users == a.users[id := a.users[id].(version := VersionOf(a, id) + 1)]
            && |RulesOf(after, id)| == |RulesOf(a, id)|
            && (forall k :: 0 <= k < |RulesOf(a, id)| ==>
                  !RulesOf(after, id)[k].canManage
                  && RulesOf(a, id)[k] == RulesOf(after, id)[k].(canManage := RulesOf(a, id)[k].canManage))
            && (forall other :: other != id ==> RulesOf(after, other) == RulesOf(a, other)))
  {}
}
