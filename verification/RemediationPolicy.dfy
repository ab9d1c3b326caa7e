/** Remediation plans and the policy engine that judges them. */
module RemediationPolicy {
  import opened Prelude
  import opened Contracts

  datatype RiskLevel = ReadOnly | Low | Elevated | Prohibited

  datatype ActionType =
    | RestartPod | RestartDeployment | ScaleDeployment | RollbackDeployment
    | DatabaseChange | SecretChange | NetworkPolicyChange

  datatype Status = Proposed | Approved | Rejected | Executing | Succeeded | Failed | RecommendationOnly

  datatype Check = Check(rule: string, passed: bool)

  datatype Plan = Plan(
    id: Id, incidentId: Id, investigationId: Id, actionType: ActionType, riskLevel: RiskLevel,
    namespace: string, target: string, targetService: string, rationale: string, evidenceIds: seq<Id>,
    status: Status, checks: seq<Check>, decidedAt: Option<Time>, decidedBy: Option<string>,
    decisionReason: Option<string>)

  datatype Pod = Pod(namespace: string, name: string, labels: map<string, string>, ownerKind: Option<string>)

  function RiskFor(action: ActionType): RiskLevel {
    match action
    case RestartPod => Low
    case RestartDeployment | ScaleDeployment | RollbackDeployment => Elevated
    case DatabaseChange | SecretChange | NetworkPolicyChange => Prohibited
  }

  predicate Alnum(c: char) { 'a' <= c <= 'z' || '0' <= c <= '9' }

  /** `[a-z0-9](?:[extra a-z0-9]{0,limit-2}[a-z0-9])?`, matched in full. */
  predicate Name(s: string, limit: nat, extra: set<char>) {
    && 1 <= |s| <= limit
    && Alnum(s[0]) && Alnum(s[|s| - 1])
    && forall i :: 0 <= i < |s| ==> Alnum(s[i]) || s[i] in extra
  }

  predicate DnsLabel(s: string) { Name(s, 63, {'-'}) }

  predicate ResourceName(s: string) { Name(s, 253, {'-', '.'}) }

  function CurrentIds(evidence: seq<Evidence>): set<Id> {
    set e | e in evidence && e.Current() :: e.id
  }

  function EvaluateProposal(allowed: set<string>, plan: Plan, investigation: Investigation): seq<Check> {
    var top := if investigation.hypotheses == [] then None else Some(investigation.hypotheses[0]);
    [ Check("namespace_allowlist", plan.namespace in allowed && DnsLabel(plan.namespace)),
      Check("exact_target", ResourceName(plan.target)),
      Check("current_evidence",
            plan.evidenceIds != [] && (set i | i in plan.evidenceIds) <= CurrentIds(investigation.evidence)),
      Check("diagnosis_confidence",
            top.Some? && top.value.confidence >= 0.35 && top.value.rootCause == plan.targetService),
      Check("action_scope", plan.actionType == RestartPod) ]
  }

  const COMPONENT := "app.kubernetes.io/component"
  const NAME := "app.kubernetes.io/name"
  const APP := "app"

  predicate Labelled(pod: Pod, service: string) {
    || (COMPONENT in pod.labels && pod.labels[COMPONENT] == service)
    || (NAME in pod.labels && pod.labels[NAME] == service)
    || (APP in pod.labels && pod.labels[APP] == service)
  }

  function EvaluateExecution(
    allowed: set<string>, plan: Plan, investigation: Investigation, pod: Option<Pod>): seq<Check>
  {
    EvaluateProposal(allowed, plan, investigation)
    + [ Check("human_approval", plan.decidedBy.Some? && plan.decidedAt.Some?),
        Check("stateless_controller", pod.Some? && pod.value.ownerKind == Some("ReplicaSet")),
        Check("pod_identity", pod.Some? && pod.value.name == plan.target && pod.value.namespace == plan.namespace),
        Check("pod_service_alignment", pod.Some? && Labelled(pod.value, plan.targetService)) ]
  }

  predicate PolicyAllows(checks: seq<Check>) {
    checks != [] && forall c :: c in checks ==> c.passed
  }

  /** What an operator is promised about the diagnosis behind an allowed action. */
  ghost predicate Grounded(allowed: set<string>, plan: Plan, investigation: Investigation) {
    && plan.actionType == RestartPod
    && plan.namespace in allowed && DnsLabel(plan.namespace) && ResourceName(plan.target)
    && plan.evidenceIds != []
    && (forall i :: i in plan.evidenceIds ==> exists e :: e in investigation.evidence && e.id == i && e.Current())
    && investigation.hypotheses != []
    && investigation.hypotheses[0].confidence >= 0.35
    && investigation.hypotheses[0].rootCause == plan.targetService
  }

  /** ... and about the person and the pod behind an execution. */
  ghost predicate Warranted(allowed: set<string>, plan: Plan, investigation: Investigation, pod: Pod) {
    && Grounded(allowed, plan, investigation)
    && plan.decidedBy.Some? && plan.decidedAt.Some?
    && pod.ownerKind == Some("ReplicaSet")
    && pod.name == plan.target && pod.namespace == plan.namespace
    && Labelled(pod, plan.targetService)
  }

  lemma EvidenceCheckIff(plan: Plan, investigation: Investigation)
    ensures (set i | i in plan.evidenceIds) <= CurrentIds(investigation.evidence)
      <==> forall i :: i in plan.evidenceIds ==> exists e :: e in investigation.evidence && e.id == i && e.Current()
  {
    var cited := set i | i in plan.evidenceIds;
    if cited <= CurrentIds(investigation.evidence) {
      forall i | i in plan.evidenceIds
        ensures exists e :: e in investigation.evidence && e.id == i && e.Current()
      {
        assert i in cited;
      }
    }
  }

  lemma ProposalAllowedIff(allowed: set<string>, plan: Plan, investigation: Investigation)
    ensures PolicyAllows(EvaluateProposal(allowed, plan, investigation)) <==> Grounded(allowed, plan, investigation)
  {
    var checks := EvaluateProposal(allowed, plan, investigation);
    assert PolicyAllows(checks) <==>
      checks[0].passed && checks[1].passed && checks[2].passed && checks[3].passed && checks[4].passed by {
      assert forall i :: 0 <= i < 5 ==> checks[i] in checks;
    }
    EvidenceCheckIff(plan, investigation);
  }

  lemma ExecutionAllowedIff(allowed: set<string>, plan: Plan, investigation: Investigation, pod: Option<Pod>)
    ensures PolicyAllows(EvaluateExecution(allowed, plan, investigation, pod))
      <==> pod.Some? && Warranted(allowed, plan, investigation, pod.value)
  {
    var first := EvaluateProposal(allowed, plan, investigation);
    var checks := EvaluateExecution(allowed, plan, investigation, pod);
    assert checks[..5] == first;
    assert PolicyAllows(checks) <==>
      PolicyAllows(first) && checks[5].passed && checks[6].passed && checks[7].passed && checks[8].passed by {
      assert forall i :: 0 <= i < 9 ==> checks[i] in checks;
      assert forall c :: c in checks <==> c in first || c == checks[5] || c == checks[6] || c == checks[7] || c == checks[8];
    }
    ProposalAllowedIff(allowed, plan, investigation);
  }

  // ---------- names and labels ----------

  lemma LettersAreNames(n: nat, limit: nat, extra: set<char>)
    ensures Name(seq(n, _ => 'a'), limit, extra) <==> 1 <= n <= limit
  {
  }

  /** A DNS label has up to 63 characters, a resource name up to 253 ... */
  lemma NameLengths(n: nat)
    ensures DnsLabel(seq(n, _ => 'a')) <==> 1 <= n <= 63
    ensures ResourceName(seq(n, _ => 'a')) <==> 1 <= n <= 253
  {
    LettersAreNames(n, 63, {'-'});
    LettersAreNames(n, 253, {'-', '.'});
  }

  /** By code point: `a` to `z`, or `0` to `9`. */
  predicate SmallOrDigit(c: char) { 97 <= c as int <= 122 || 48 <= c as int <= 57 }

  predicate Spelled(s: string, extra: string) {
    && s != [] && SmallOrDigit(s[0]) && SmallOrDigit(s[|s| - 1])
    && forall i :: 0 <= i < |s| ==> SmallOrDigit(s[i]) || s[i] in extra
  }

  /** ... of small letters, digits and, except at the ends, hyphens; and dots in a resource name. */
  lemma NameCharacters(s: string)
    ensures DnsLabel(s) <==> |s| <= 63 && Spelled(s, "-")
    ensures ResourceName(s) <==> |s| <= 253 && Spelled(s, "-.")
  {
    var dash, both := "-", "-.";
    assert forall c: char :: c in dash <==> c == dash[0];
    assert forall c: char :: c in both <==> c == both[0] || c == both[1];
    assert forall c: char :: Alnum(c) == SmallOrDigit(c);
  }

  /** A pod is labelled with a service by any one of the three labels. */
  lemma LabelledIff(pod: Pod, service: string)
    ensures Labelled(pod, service) <==>
      exists key :: key in ["app.kubernetes.io/component", "app.kubernetes.io/name", "app"] && key in pod.labels && pod.labels[key] == service
  {
    var keys := ["app.kubernetes.io/component", "app.kubernetes.io/name", "app"];
    assert keys[0] == COMPONENT && keys[1] == NAME && keys[2] == APP;
    assert COMPONENT in keys && NAME in keys && APP in keys;
  }
}
