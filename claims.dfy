/**
 * The smoke suite's log claims: templates are materialised into claims
 * with concrete minimum counts, each claim is evaluated against the match
 * count of its pattern in its artifact file, and the outcomes are split
 * into required and forbidden ones with the first failure reported.
 */
module Claims {
  import opened Wrappers

  datatype ClaimKind = MustMatch | MustNotMatch

  datatype ClaimCategory = EndpointCommunication | StreamerEgress | ForbiddenSignature | Readiness

  datatype ThresholdSelector =
    | EndpointCommunicationCount
    | EgressSendAttempt
    | EgressSendOk
    | EgressWorkerCreateOrReuse
    | Fixed(value: nat)

  datatype ClaimTemplate = ClaimTemplate(claimId: string, category: ClaimCategory, kind: ClaimKind,
                                         file: string, pattern: string, threshold: ThresholdSelector)

  datatype Thresholds = Thresholds(endpointCommunicationMinCount: nat, egressSendAttemptMinCount: nat,
                                   egressSendOkMinCount: nat, egressWorkerCreateOrReuseMinCount: nat)

  datatype ClaimSpec = ClaimSpec(claimId: string, category: ClaimCategory, kind: ClaimKind,
                                 file: string, pattern: string, minCount: nat)

  /** Why a claim could not be evaluated; the message text is not modelled. */
  datatype EvaluationError = UnreadableFile | InvalidRegex

  datatype ClaimOutcome = ClaimOutcome(claimId: string, category: ClaimCategory, kind: ClaimKind,
                                       file: string, pattern: string, minCount: nat, observedCount: nat,
                                       pass: bool, firstMatch: Option<string>, error: Option<EvaluationError>)

  /** A compiled pattern: the texts of its non-overlapping matches in a file, in order. */
  type Regex = string -> seq<string>

  /** `ClaimTemplate::must_match`. */
  function MustMatchTemplate(claimId: string, category: ClaimCategory, file: string, pattern: string,
                             threshold: ThresholdSelector): (t: ClaimTemplate)
    ensures t.kind == MustMatch && t.threshold == threshold
    ensures t.claimId == claimId && t.category == category && t.file == file && t.pattern == pattern
  {
    ClaimTemplate(claimId, category, MustMatch, file, pattern, threshold)
  }

  /** `ClaimTemplate::must_not_match`: a forbidden pattern tolerates no match at all. */
  function MustNotMatchTemplate(claimId: string, category: ClaimCategory, file: string, pattern: string)
    : (t: ClaimTemplate)
    ensures t.kind == MustNotMatch && t.threshold == Fixed(0)
    ensures t.claimId == claimId && t.category == category && t.file == file && t.pattern == pattern
  {
    ClaimTemplate(claimId, category, MustNotMatch, file, pattern, Fixed(0))
  }

  /** `resolve_threshold`: a named selector reads its configured count, `Fixed` carries its own. */
  function ResolveThreshold(selector: ThresholdSelector, thresholds: Thresholds): (n: nat)
    ensures selector.Fixed? ==> n == selector.value
    ensures selector == EndpointCommunicationCount ==> n == thresholds.endpointCommunicationMinCount
    ensures selector == EgressSendAttempt ==> n == thresholds.egressSendAttemptMinCount
    ensures selector == EgressSendOk ==> n == thresholds.egressSendOkMinCount
    ensures selector == EgressWorkerCreateOrReuse ==> n == thresholds.egressWorkerCreateOrReuseMinCount
  {
    match selector
    case EndpointCommunicationCount => thresholds.endpointCommunicationMinCount
    case EgressSendAttempt => thresholds.egressSendAttemptMinCount
    case EgressSendOk => thresholds.egressSendOkMinCount
    case EgressWorkerCreateOrReuse => thresholds.egressWorkerCreateOrReuseMinCount
    case Fixed(value) => value
  }

  /** One template made concrete: the same claim with its threshold resolved. */
  function Materialize(template: ClaimTemplate, thresholds: Thresholds): (c: ClaimSpec)
    ensures c.claimId == template.claimId && c.category == template.category && c.kind == template.kind
    ensures c.file == template.file && c.pattern == template.pattern
    ensures c.minCount == ResolveThreshold(template.threshold, thresholds)
  {
    ClaimSpec(template.claimId, template.category, template.kind, template.file, template.pattern,
              ResolveThreshold(template.threshold, thresholds))
  }

  /** `materialize_claims`: one claim per template, in template order. */
  function MaterializeClaims(templates: seq<ClaimTemplate>, thresholds: Thresholds): (claims: seq<ClaimSpec>)
    ensures |claims| == |templates|
    ensures forall i :: 0 <= i < |templates| ==>
              && claims[i].claimId == templates[i].claimId
              && claims[i].category == templates[i].category
              && claims[i].kind == templates[i].kind
              && claims[i].file == templates[i].file
              && claims[i].pattern == templates[i].pattern
              && claims[i].minCount == ResolveThreshold(templates[i].threshold, thresholds)
  {
    seq(|templates|, i requires 0 <= i < |templates| => Materialize(templates[i], thresholds))
  }

  /** The pass rule: a required pattern needs its minimum count, a forbidden one must not occur. */
  function Passes(kind: ClaimKind, minCount: nat, observedCount: nat): (p: bool)
    ensures kind == MustMatch ==> (p <==> minCount <= observedCount)
    ensures kind == MustNotMatch ==> (p <==> observedCount == 0)
  {
    match kind
    case MustMatch => observedCount >= minCount
    case MustNotMatch => observedCount == 0
  }

  /**
   * `evaluate_claim`: an unreadable file, then an invalid pattern, is a
   * hard failure with no match; otherwise the matches are counted and the
   * first one kept.
   */
  function EvaluateClaim(claim: ClaimSpec, fileContent: Option<string>, compiled: Option<Regex>)
    : (o: ClaimOutcome)
    ensures o.claimId == claim.claimId && o.category == claim.category && o.kind == claim.kind
    ensures o.file == claim.file && o.pattern == claim.pattern && o.minCount == claim.minCount
    ensures o.error.Some? <==> fileContent.None? || compiled.None?
    ensures fileContent.None? ==> o.error == Some(UnreadableFile)
    ensures fileContent.Some? && compiled.None? ==> o.error == Some(InvalidRegex)
    ensures o.error.Some? ==> !o.pass && o.observedCount == 0 && o.firstMatch.None?
    ensures o.error.None? ==> o.observedCount == |compiled.value(fileContent.value)|
                              && o.pass == Passes(claim.kind, claim.minCount, o.observedCount)
    ensures o.observedCount == 0 <==> o.firstMatch.None?
  {
    if fileContent.None? then
      ClaimOutcome(claim.claimId, claim.category, claim.kind, claim.file, claim.pattern, claim.minCount,
                   0, false, None, Some(UnreadableFile))
    else if compiled.None? then
      ClaimOutcome(claim.claimId, claim.category, claim.kind, claim.file, claim.pattern, claim.minCount,
                   0, false, None, Some(InvalidRegex))
    else
      var matches := compiled.value(fileContent.value);
      var firstMatch := if matches == [] then None else Some(matches[0]);
      var observedCount := if firstMatch.Some? then 1 + |matches[1..]| else 0;
      ClaimOutcome(claim.claimId, claim.category, claim.kind, claim.file, claim.pattern, claim.minCount,
                   observedCount, Passes(claim.kind, claim.minCount, observedCount), firstMatch, None)
  }

  /**
   * A forbidden-pattern template passes exactly when its file was read,
   * its pattern compiled and nothing matched, whatever the thresholds.
   */
  lemma MustNotMatchPassesIffAbsent(claimId: string, category: ClaimCategory, file: string, pattern: string,
                                    thresholds: Thresholds, fileContent: Option<string>, compiled: Option<Regex>)
    ensures var claim := MaterializeClaims([MustNotMatchTemplate(claimId, category, file, pattern)], thresholds)[0];
            var o := EvaluateClaim(claim, fileContent, compiled);
            o.pass <==> fileContent.Some? && compiled.Some? && compiled.value(fileContent.value) == []
  {
  }

  /** `evaluate_claims`: one outcome per claim, in order, reading each claim's own file and pattern. */
  function EvaluateClaims(claims: seq<ClaimSpec>, read: string -> Option<string>, compile: string -> Option<Regex>)
    : (outcomes: seq<ClaimOutcome>)
    ensures |outcomes| == |claims|
    ensures forall i :: 0 <= i < |claims| ==> outcomes[i] == EvaluateClaim(claims[i], read(claims[i].file), compile(claims[i].pattern))
  {
    seq(|claims|, i requires 0 <= i < |claims| => EvaluateClaim(claims[i], read(claims[i].file), compile(claims[i].pattern)))
  }

  /** The number a string of decimal digits denotes, most significant digit first. */
  function DigitsValue(s: string): nat
    requires forall i :: 0 <= i < |s| ==> '0' <= s[i] <= '9'
  {
    if s == [] then 0
    else 10 * DigitsValue(s[..|s| - 1]) + (s[|s| - 1] as int - '0' as int)
  }

  /** Decimal digits of `n`, as `{}` formats a `usize`: no leading zero, and they denote `n`. */
  function NatToString(n: nat): (s: string)
    ensures |s| > 0
    ensures forall i :: 0 <= i < |s| ==> '0' <= s[i] <= '9'
    ensures DigitsValue(s) == n
    ensures s[0] == '0' ==> s == "0"
  {
    var digit := [(('0' as int) + n % 10) as char];
    if n < 10 then digit
    else
      var prefix := NatToString(n / 10);
      assert (prefix + digit)[..|prefix + digit| - 1] == prefix;
      prefix + digit
  }

  /** Distinct counts are reported with distinct texts. */
  lemma NatToStringInjective(m: nat, n: nat)
    ensures NatToString(m) == NatToString(n) <==> m == n
  {
  }

  /** The reason reported for a failed outcome: it names the claim first, then file, counts and pattern. */
  function FailureReason(o: ClaimOutcome): (r: string)
    ensures |r| > 7 + |o.claimId| && r[..7] == "claim '" && r[7..7 + |o.claimId|] == o.claimId
    ensures r[|r| - 2..] == "')"
  {
    "claim '" + o.claimId + "' failed (file='" + o.file + "', observed=" + NatToString(o.observedCount)
      + ", min=" + NatToString(o.minCount) + ", pattern='" + o.pattern + "')"
  }

  /** The outcomes of kind `kind`, in order. */
  function OfKind(outcomes: seq<ClaimOutcome>, kind: ClaimKind): seq<ClaimOutcome>
  {
    if outcomes == [] then []
    else
      var last := outcomes[|outcomes| - 1];
      if last.kind == kind then OfKind(outcomes[..|outcomes| - 1], kind) + [last]
      else OfKind(outcomes[..|outcomes| - 1], kind)
  }

  /** The first outcome that did not pass, if any. */
  function FirstFailure(outcomes: seq<ClaimOutcome>): Option<ClaimOutcome>
  {
    if outcomes == [] then None
    else if !outcomes[0].pass then Some(outcomes[0])
    else FirstFailure(outcomes[1..])
  }

  lemma {:induction false} FirstFailureNoneIffAllPass(outcomes: seq<ClaimOutcome>)
    ensures FirstFailure(outcomes).None? <==> forall i :: 0 <= i < |outcomes| ==> outcomes[i].pass
  {
    if outcomes != [] {
      FirstFailureNoneIffAllPass(outcomes[1..]);
      if outcomes[0].pass {
        assert forall i :: 1 <= i < |outcomes| ==> outcomes[i] == outcomes[1..][i - 1];
      }
    }
  }

  /** The first failure is a failing outcome and every outcome before it passed. */
  lemma {:induction false} FirstFailureIsFirst(outcomes: seq<ClaimOutcome>)
    ensures FirstFailure(outcomes).Some? ==>
              exists k :: 0 <= k < |outcomes| && outcomes[k] == FirstFailure(outcomes).value && !outcomes[k].pass
                          && forall i :: 0 <= i < k ==> outcomes[i].pass
  {
    if outcomes != [] && outcomes[0].pass {
      FirstFailureIsFirst(outcomes[1..]);
      if FirstFailure(outcomes[1..]).Some? {
        var k :| 0 <= k < |outcomes[1..]| && outcomes[1..][k] == FirstFailure(outcomes[1..]).value
                 && !outcomes[1..][k].pass && forall i :: 0 <= i < k ==> outcomes[1..][i].pass;
        assert outcomes[k + 1] == outcomes[1..][k];
        assert forall i :: 1 <= i < k + 1 ==> outcomes[i] == outcomes[1..][i - 1];
      }
    } else if outcomes != [] {
      assert outcomes[0] == FirstFailure(outcomes).value;
    }
  }

  /** The split is a partition: every outcome lands on exactly one side, nothing is lost or added. */
  lemma {:induction false} OfKindPartition(outcomes: seq<ClaimOutcome>)
    ensures multiset(OfKind(outcomes, MustMatch)) + multiset(OfKind(outcomes, MustNotMatch)) == multiset(outcomes)
  {
    if outcomes != [] {
      var init := outcomes[..|outcomes| - 1];
      var last := outcomes[|outcomes| - 1];
      OfKindPartition(init);
      assert outcomes == init + [last];
    }
  }

  /** The two sides' lengths add up to the number of outcomes. */
  lemma {:induction false} OfKindLengths(outcomes: seq<ClaimOutcome>)
    ensures |OfKind(outcomes, MustMatch)| + |OfKind(outcomes, MustNotMatch)| == |outcomes|
  {
    if outcomes != [] {
      OfKindLengths(outcomes[..|outcomes| - 1]);
    }
  }

  /** Each side holds only outcomes of its own kind. */
  lemma {:induction false} OfKindKinds(outcomes: seq<ClaimOutcome>, kind: ClaimKind)
    ensures forall o :: o in OfKind(outcomes, kind) ==> o.kind == kind && o in outcomes
  {
    if outcomes != [] {
      OfKindKinds(outcomes[..|outcomes| - 1], kind);
      assert outcomes == outcomes[..|outcomes| - 1] + [outcomes[|outcomes| - 1]];
    }
  }

  lemma OfKindStep(outcomes: seq<ClaimOutcome>, i: nat, kind: ClaimKind)
    requires i < |outcomes|
    ensures OfKind(outcomes[..i + 1], kind)
            == if outcomes[i].kind == kind then OfKind(outcomes[..i], kind) + [outcomes[i]] else OfKind(outcomes[..i], kind)
  {
    assert outcomes[..i + 1][..i] == outcomes[..i];
  }

  lemma FirstFailureStep(outcomes: seq<ClaimOutcome>, i: nat)
    requires i < |outcomes|
    requires FirstFailure(outcomes[..i]).None?
    ensures FirstFailure(outcomes[..i + 1]) == if outcomes[i].pass then None else Some(outcomes[i])
  {
    FirstFailureNoneIffAllPass(outcomes[..i]);
    FirstFailureNoneIffAllPass(outcomes[..i + 1]);
    if !outcomes[i].pass {
      FirstFailureIsFirst(outcomes[..i + 1]);
    }
  }

  lemma FirstFailureKeeps(outcomes: seq<ClaimOutcome>, i: nat)
    requires i < |outcomes|
    requires FirstFailure(outcomes[..i]).Some?
    ensures FirstFailure(outcomes[..i + 1]) == FirstFailure(outcomes[..i])
  {
    FirstFailurePrefix(outcomes[..i], [outcomes[i]]);
    assert outcomes[..i] + [outcomes[i]] == outcomes[..i + 1];
  }

  lemma {:induction false} FirstFailurePrefix(a: seq<ClaimOutcome>, b: seq<ClaimOutcome>)
    requires FirstFailure(a).Some?
    ensures FirstFailure(a + b) == FirstFailure(a)
  {
    if a[0].pass {
      FirstFailurePrefix(a[1..], b);
      assert (a + b)[1..] == a[1..] + b;
    }
  }

  /**
   * `split_claim_outcomes`: required and forbidden outcomes in their
   * original order, and the reason of the first failing outcome.
   */
  method SplitClaimOutcomes(outcomes: seq<ClaimOutcome>)
    returns (mustOutcomes: seq<ClaimOutcome>, forbiddenOutcomes: seq<ClaimOutcome>, firstFailureReason: Option<string>)
    ensures mustOutcomes == OfKind(outcomes, MustMatch)
    ensures forbiddenOutcomes == OfKind(outcomes, MustNotMatch)
    ensures firstFailureReason.None? <==> FirstFailure(outcomes).None?
    ensures firstFailureReason.Some? ==> firstFailureReason.value == FailureReason(FirstFailure(outcomes).value)
  {
    mustOutcomes := [];
    forbiddenOutcomes := [];
    firstFailureReason := None;
    var i := 0;
    while i < |outcomes|
      invariant 0 <= i <= |outcomes|
      invariant mustOutcomes == OfKind(outcomes[..i], MustMatch)
      invariant forbiddenOutcomes == OfKind(outcomes[..i], MustNotMatch)
      invariant firstFailureReason.None? <==> FirstFailure(outcomes[..i]).None?
      invariant firstFailureReason.Some? ==> firstFailureReason.value == FailureReason(FirstFailure(outcomes[..i]).value)
    {
      var outcome := outcomes[i];
      if FirstFailure(outcomes[..i]).None? {
        FirstFailureStep(outcomes, i);
      } else {
        FirstFailureKeeps(outcomes, i);
      }
      if !outcome.pass && firstFailureReason.None? {
        firstFailureReason := Some(FailureReason(outcome));
      }
      OfKindStep(outcomes, i, MustMatch);
      OfKindStep(outcomes, i, MustNotMatch);
      if outcome.kind == MustNotMatch {
        forbiddenOutcomes := forbiddenOutcomes + [outcome];
      } else {
        mustOutcomes := mustOutcomes + [outcome];
      }
      i := i + 1;
    }
    assert outcomes[..i] == outcomes;
  }
}
