/**
 * The fix-approval policy: whether a requested fix may be applied without a
 * human, whether it needs approval, and the checks on the context a fix is
 * applied in.
 *
 * Loading the policy from a file and logging decisions are not modelled; the
 * configuration is a value.
 */
module PolicyEngine {
  import opened Wrappers
  import Strings

  datatype SafetyPolicy = SafetyPolicy(autoApprove: bool, requireReview: bool)

  datatype PolicyConfig = PolicyConfig(
    autoFixEnabled: bool,
    safetyThresholds: map<string, SafetyPolicy>,
    criticalServices: seq<string>,
    manualReviewErrors: seq<string>,
    highImpactServices: seq<string>,
    approvers: seq<string>)

  /** The built-in policy. */
  function DefaultPolicyConfig(): PolicyConfig
  {
    PolicyConfig(
      true,
      map["high" := SafetyPolicy(true, false), "medium" := SafetyPolicy(false, true), "low" := SafetyPolicy(false, true)],
      ["payment-service", "auth-service"],
      ["OutOfMemoryError", "SecurityException", "AuthenticationException"],
      ["payment-service", "auth-service"],
      ["team-lead", "senior-dev"])
  }

  /** A fix request; None stands for a key the request does not hold. */
  datatype FixRequest = FixRequest(
    service: Option<string>,
    errorType: Option<string>,
    safetyLevel: Option<string>,
    templateId: Option<string>,
    filePath: Option<string>,
    confidenceScore: Option<real>,
    recentCommitHours: Option<real>)

  /** Why a decision came out the way it did. */
  datatype Reason =
    | GloballyDisabled
    | CriticalService(service: Option<string>)
    | SafetyLevelNeedsApproval(level: string)
    | ManualReviewError(errorType: string)
    | LowConfidence(score: real)
    | RateLimited(message: string)
    | AllChecksPassed

  datatype Decision = Decision(approved: bool, reason: Reason, requiresReview: bool, restrictions: seq<string>)

  function Rejected(reason: Reason): Decision
  {
    Decision(false, reason, true, [])
  }

  /** `_check_rate_limits`: fix history is not tracked, so every service is within its limits. */
  function CheckRateLimits(service: Option<string>): (r: (bool, string))
    ensures r.0
  {
    (true, "Within rate limits")
  }

  function SafetyLevelOf(req: FixRequest): string
  {
    req.safetyLevel.GetOr("medium")
  }

  /** The policy for a safety level; an unknown level neither approves nor asks for review. */
  function SafetyPolicyFor(config: PolicyConfig, level: string): SafetyPolicy
  {
    if level in config.safetyThresholds then config.safetyThresholds[level] else SafetyPolicy(false, false)
  }

  predicate IsCritical(config: PolicyConfig, service: Option<string>)
  {
    service.Some? && service.value in config.criticalServices
  }

  predicate NeedsManualReview(config: PolicyConfig, errorType: Option<string>)
  {
    errorType.Some? && errorType.value in config.manualReviewErrors
  }

  /** `can_auto_fix`: the checks in order, the first failing one deciding. */
  function CanAutoFix(config: PolicyConfig, req: FixRequest): (d: Decision)
    ensures !config.autoFixEnabled ==> d == Rejected(GloballyDisabled)
    ensures config.autoFixEnabled && IsCritical(config, req.service) ==> d == Rejected(CriticalService(req.service))
    ensures config.autoFixEnabled && !IsCritical(config, req.service)
            && !SafetyPolicyFor(config, SafetyLevelOf(req)).autoApprove ==>
      d == Rejected(SafetyLevelNeedsApproval(SafetyLevelOf(req)))
    ensures config.autoFixEnabled && !IsCritical(config, req.service)
            && SafetyPolicyFor(config, SafetyLevelOf(req)).autoApprove && NeedsManualReview(config, req.errorType) ==>
      d == Rejected(ManualReviewError(req.errorType.value))
    ensures config.autoFixEnabled && !IsCritical(config, req.service)
            && SafetyPolicyFor(config, SafetyLevelOf(req)).autoApprove && !NeedsManualReview(config, req.errorType)
            && req.confidenceScore.GetOr(0.0) < 0.7 ==>
      d == Rejected(LowConfidence(req.confidenceScore.GetOr(0.0)))
    ensures d.approved <==>
      config.autoFixEnabled && !IsCritical(config, req.service)
      && SafetyPolicyFor(config, SafetyLevelOf(req)).autoApprove
      && !NeedsManualReview(config, req.errorType)
      && req.confidenceScore.GetOr(0.0) >= 0.7
    ensures d.approved ==> d.reason == AllChecksPassed
                           && d.requiresReview == SafetyPolicyFor(config, SafetyLevelOf(req)).requireReview
    ensures !d.approved ==> d.requiresReview && d.reason != AllChecksPassed
    ensures d.restrictions == []
  {
    if !config.autoFixEnabled then Rejected(GloballyDisabled)
    else if IsCritical(config, req.service) then Rejected(CriticalService(req.service))
    else
      var level := SafetyLevelOf(req);
      var policy := SafetyPolicyFor(config, level);
      if !policy.autoApprove then Rejected(SafetyLevelNeedsApproval(level))
      else if NeedsManualReview(config, req.errorType) then Rejected(ManualReviewError(req.errorType.value))
      else
        var score := req.confidenceScore.GetOr(0.0);
        if score < 0.7 then Rejected(LowConfidence(score))
        else
          var rate := CheckRateLimits(req.service);
          if !rate.0 then Rejected(RateLimited(rate.1))
          else Decision(true, AllChecksPassed, policy.requireReview, [])
  }

  /** `requires_approval`: review is asked for, or the fix is not approved. */
  function RequiresApproval(config: PolicyConfig, req: FixRequest): (r: bool)
    ensures !r <==> CanAutoFix(config, req).approved && !SafetyPolicyFor(config, SafetyLevelOf(req)).requireReview
  {
    var d := CanAutoFix(config, req);
    d.requiresReview || !d.approved
  }

  /** Rate limits are not tracked, so no decision is ever a rate-limit refusal. */
  lemma NeverRateLimited(config: PolicyConfig, req: FixRequest)
    ensures !CanAutoFix(config, req).reason.RateLimited?
  {
  }

  /** Under the built-in policy only a high-safety fix can go through without approval. */
  lemma DefaultPolicyUnattendedOnlyForHighSafety(req: FixRequest)
    ensures !RequiresApproval(DefaultPolicyConfig(), req) ==> SafetyLevelOf(req) == "high"
    ensures SafetyLevelOf(req) == "medium" || SafetyLevelOf(req) == "low" ==> RequiresApproval(DefaultPolicyConfig(), req)
  {
  }

  /** A confident high-safety fix for an ordinary service and error passes the built-in policy. */
  lemma DefaultPolicyApprovesGatewayFix()
    ensures var req := FixRequest(Some("api-gateway"), Some("NullPointerException"), Some("high"), Some("java-null-check"),
                                  Some("src/main/java/Gateway.java"), Some(0.85), None);
            CanAutoFix(DefaultPolicyConfig(), req) == Decision(true, AllChecksPassed, false, [])
  {
    var config := DefaultPolicyConfig();
    assert "api-gateway" != "payment-service" && "api-gateway"[1] != "auth-service"[1];
    assert "NullPointerException"[0] != "OutOfMemoryError"[0] && "NullPointerException"[0] != "SecurityException"[0]
           && "NullPointerException"[0] != "AuthenticationException"[0];
    assert "high" in config.safetyThresholds;
  }

  // ------------------------------------------------------------ fix context

  datatype ContextValidation = ContextValidation(valid: bool, errors: seq<string>, warnings: seq<string>)

  /** The fields `validate_fix_context` demands, in the order it reports them. */
  const RequiredFields: seq<string> := ["service", "error_type", "file_path", "template_id"]

  /** A field counts as missing when absent or empty. */
  function Field(req: FixRequest, name: string): Option<string>
  {
    if name == "service" then req.service
    else if name == "error_type" then req.errorType
    else if name == "file_path" then req.filePath
    else if name == "template_id" then req.templateId
    else None
  }

  predicate Present(value: Option<string>)
  {
    value.Some? && value.value != ""
  }

  /** The required fields among `fields` that `req` lacks, in order. */
  function MissingFields(req: FixRequest, fields: seq<string>): (r: seq<string>)
    ensures forall f :: f in r <==> f in fields && !Present(Field(req, f))
    ensures |r| <= |fields|
  {
    if fields == [] then []
    else (if Present(Field(req, fields[0])) then [] else [fields[0]]) + MissingFields(req, fields[1..])
  }

  function MissingFieldErrors(missing: seq<string>): (r: seq<string>)
    ensures |r| == |missing|
    ensures forall k :: 0 <= k < |r| ==> r[k] == "Missing required field: " + missing[k]
  {
    if missing == [] then [] else ["Missing required field: " + missing[0]] + MissingFieldErrors(missing[1..])
  }

  /** The warnings about a critical service, a test file and a recently modified file, in that order. */
  function ContextWarnings(config: PolicyConfig, req: FixRequest): seq<string>
  {
    var service := req.service;
    (if Present(service) && service.value in config.criticalServices then
       ["Service '" + service.value + "' is critical - extra caution required"]
     else [])
    + (if Strings.Contains(Strings.Lower(req.filePath.GetOr("")), "test") then ["Modifying test file"] else [])
    + (if req.recentCommitHours.GetOr(0.0) < 1.0 then ["File was recently modified - may conflict with ongoing work"] else [])
  }

  /** `validate_fix_context`: invalid exactly when a required field is missing, one error per missing field. */
  function ValidateFixContext(config: PolicyConfig, req: FixRequest): (v: ContextValidation)
    ensures v.valid <==> forall f :: f in RequiredFields ==> Present(Field(req, f))
    ensures |v.errors| == |MissingFields(req, RequiredFields)|
    ensures forall k :: 0 <= k < |v.errors| ==>
      v.errors[k] == "Missing required field: " + MissingFields(req, RequiredFields)[k]
    ensures v.warnings == ContextWarnings(config, req)
  {
    var missing := MissingFields(req, RequiredFields);
    assert missing != [] ==> missing[0] in missing;
    ContextValidation(missing == [], MissingFieldErrors(missing), ContextWarnings(config, req))
  }

  /** A request with no recent-commit age is always warned about as recently modified. */
  lemma NoCommitAgeWarnsRecent(config: PolicyConfig, req: FixRequest)
    requires req.recentCommitHours.None?
    ensures "File was recently modified - may conflict with ongoing work" in ValidateFixContext(config, req).warnings
  {
    var w := ContextWarnings(config, req);
    assert w[|w| - 1] == "File was recently modified - may conflict with ongoing work";
  }

  /**
   * `get_approval_chain`: all of the configured approvers or none of them;
   * only a high-impact service needs anyone, and it needs all of them.
   */
  function ApprovalChain(config: PolicyConfig, service: string): (r: seq<string>)
    ensures r == [] || r == config.approvers
    ensures r != [] ==> service in config.highImpactServices
    ensures service in config.highImpactServices ==> r == config.approvers
  {
    if service in config.highImpactServices then config.approvers else []
  }

  /**
   * Under the built-in policy exactly the critical services have approvers,
   * and those are the services whose fixes are always refused for review.
   */
  lemma DefaultApprovalChainIffCritical(service: string, req: FixRequest)
    requires req.service == Some(service)
    ensures ApprovalChain(DefaultPolicyConfig(), service) != [] <==> IsCritical(DefaultPolicyConfig(), req.service)
    ensures ApprovalChain(DefaultPolicyConfig(), service) != [] ==>
      ApprovalChain(DefaultPolicyConfig(), service) == ["team-lead", "senior-dev"]
      && CanAutoFix(DefaultPolicyConfig(), req) == Rejected(CriticalService(req.service))
  {
  }
}
