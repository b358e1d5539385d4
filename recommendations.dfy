/** The advisory text generated alongside a risk prediction: a fixed,
    ordered list of independent rules over the pull-request features, with
    two fallbacks so that the list is never empty. */
module Recommendations {
  import Common
  import Risk

  /** The eight request features: f1 is log(1 + changed lines), then files
      changed, commits, review comments, time to merge, contributor
      rejection rate, contributor experience and file churn. */
  datatype PRFeatures = PRFeatures(f1: real, f2: real, f3: real, f4: real,
                                   f5: real, f6: real, f7: real, f8: real)

  const SplitPr := "Consider splitting this PR into smaller modules to reduce review complexity."
  const ManyFiles := "This PR modifies multiple files - consider modular refactoring or breaking into smaller PRs."
  const SeniorReviewer := "Assign a senior reviewer due to low contributor experience."
  const HighChurn := "High file churn detected - consider refactoring before merge to reduce technical debt."
  const SlowMerge := "This PR has slow merge time - prioritize review or break into smaller parts."
  const HighRejection := "Contributor has high rejection rate - ensure thorough testing before submission."
  const ManyCommits := "Multiple commits suggest iterations - consider squash merging for cleaner history."
  const NoReviews := "No review comments detected - request additional review or clarification."
  const HighRiskFallback := "This PR has high overall risk - consider additional testing and review cycles."
  const LooksGood := "PR looks good - proceed with standard review process."

  /** The rule messages, in declaration order. */
  function RuleMessage(k: nat): string
    requires k < NumRules
  {
    if k == 0 then SplitPr
    else if k == 1 then ManyFiles
    else if k == 2 then SeniorReviewer
    else if k == 3 then HighChurn
    else if k == 4 then SlowMerge
    else if k == 5 then HighRejection
    else if k == 6 then ManyCommits
    else NoReviews
  }

  const NumRules: nat := 8

  /** Python's `int(x)`: truncation toward zero. */
  function Trunc(x: real): (n: int)
    ensures x >= 0.0 ==> 0.0 <= n as real <= x < n as real + 1.0
    ensures x < 0.0 ==> n as real - 1.0 < x <= n as real <= 0.0
  {
    if x >= 0.0 then x.Floor else -((-x).Floor)
  }

  /** A double as `np.exp` returns it: a finite value, or positive infinity
      once the argument exceeds the largest exponent a double can hold. */
  datatype Float = Finite(value: real) | Infinity

  /** `int(np.exp(f1) - 1)`: infinity minus one is still infinity, and `int`
      of infinity raises. */
  function ApproxLines(expF1: Float): (r: Common.Result<int>)
    ensures r.Err? <==> expF1.Infinity?
    ensures r.Err? ==> r.error == Common.IntOfInfinity
    ensures expF1.Finite? && expF1.value >= 1.0 ==>
      0.0 <= r.value as real <= expF1.value - 1.0 < r.value as real + 1.0
    ensures expF1.Finite? && 0.0 < expF1.value < 1.0 ==> r.value == 0
  {
    match expF1
    case Finite(x) => Common.Ok(Trunc(x - 1.0))
    case Infinity => Common.Err(Common.IntOfInfinity)
  }

  /** Which rules fire, in declaration order. */
  function Fired(f: PRFeatures, riskScore: real, approxLines: int): (b: seq<bool>)
    ensures |b| == NumRules
  {
    [ approxLines > 1500,
      f.f2 > 10.0,
      f.f7 < 0.3,
      f.f8 > 0.6,
      f.f5 > 0.5,
      f.f6 > 0.3,
      f.f3 > 5.0,
      f.f4 == 0.0 && riskScore > 0.5 ]
  }

  /** The messages of the fired rules among the first `k`, in declaration
      order. */
  function Triggered(fired: seq<bool>, k: nat): seq<string>
    requires k <= |fired| <= NumRules
  {
    if k == 0 then []
    else Triggered(fired, k - 1) + (if fired[k - 1] then [RuleMessage(k - 1)] else [])
  }

  /** The messages of the fired rules, in declaration order, or a fallback
      when none fired. */
  function Recommendations(f: PRFeatures, riskScore: real, approxLines: int): seq<string>
  {
    var triggered := Triggered(Fired(f, riskScore, approxLines), NumRules);
    if |triggered| > 0 then triggered
    else if riskScore > 0.7 then [HighRiskFallback]
    else [LooksGood]
  }

  /** `generate_recommendations`: the line count from `exp(f1)`, which
      raises when that overflowed, then the rules. `topFactors` is accepted
      and never read. */
  method GenerateRecommendations(features: PRFeatures, riskScore: real,
                                 topFactors: seq<Risk.Factor>, expF1: Float)
    returns (r: Common.Result<seq<string>>)
    ensures r.Err? <==> expF1.Infinity?
    ensures r.Err? ==> r.error == Common.IntOfInfinity
    ensures r.Ok? ==> r.value == Recommendations(features, riskScore, ApproxLines(expF1).value)
  {
    var lines := ApproxLines(expF1);
    if lines.Err? {
      return Common.Err(lines.error);
    }
    var recommendations := ApplyRules(features, riskScore, lines.value);
    r := Common.Ok(recommendations);
  }

  /** One `append` per triggered rule, in declaration order, then the two
      fallbacks. */
  method ApplyRules(features: PRFeatures, riskScore: real, approxLines: int)
    returns (recommendations: seq<string>)
    ensures recommendations == Recommendations(features, riskScore, approxLines)
  {
    ghost var fired := Fired(features, riskScore, approxLines);
    TriggeredUnrolled(fired);
    recommendations := [];
    if approxLines > 1500 {
      recommendations := recommendations + [SplitPr];
    }
    if features.f2 > 10.0 {
      recommendations := recommendations + [ManyFiles];
    }
    if features.f7 < 0.3 {
      recommendations := recommendations + [SeniorReviewer];
    }
    if features.f8 > 0.6 {
      recommendations := recommendations + [HighChurn];
    }
    if features.f5 > 0.5 {
      recommendations := recommendations + [SlowMerge];
    }
    if features.f6 > 0.3 {
      recommendations := recommendations + [HighRejection];
    }
    if features.f3 > 5.0 {
      recommendations := recommendations + [ManyCommits];
    }
    if features.f4 == 0.0 && riskScore > 0.5 {
      recommendations := recommendations + [NoReviews];
    }
    assert recommendations == Triggered(fired, 8);
    if riskScore > 0.7 && |recommendations| == 0 {
      recommendations := recommendations + [HighRiskFallback];
    }
    if |recommendations| == 0 {
      recommendations := recommendations + [LooksGood];
    }
  }

  function Step(acc: seq<string>, fires: bool, message: string): seq<string>
  {
    if fires then acc + [message] else acc
  }

  lemma TriggeredUnrolled(fired: seq<bool>)
    requires |fired| == NumRules
    ensures Triggered(fired, NumRules) ==
      Step(Step(Step(Step(Step(Step(Step(Step([], fired[0], SplitPr), fired[1], ManyFiles),
        fired[2], SeniorReviewer), fired[3], HighChurn), fired[4], SlowMerge), fired[5], HighRejection),
        fired[6], ManyCommits), fired[7], NoReviews)
  {
    assert Triggered(fired, 1) == Step([], fired[0], SplitPr);
    assert Triggered(fired, 2) == Step(Triggered(fired, 1), fired[1], ManyFiles);
    assert Triggered(fired, 3) == Step(Triggered(fired, 2), fired[2], SeniorReviewer);
    assert Triggered(fired, 4) == Step(Triggered(fired, 3), fired[3], HighChurn);
    assert Triggered(fired, 5) == Step(Triggered(fired, 4), fired[4], SlowMerge);
    assert Triggered(fired, 6) == Step(Triggered(fired, 5), fired[5], HighRejection);
    assert Triggered(fired, 7) == Step(Triggered(fired, 6), fired[6], ManyCommits);
    assert Triggered(fired, 8) == Step(Triggered(fired, 7), fired[7], NoReviews);
  }

  // Properties

  /** Different rules have different messages. */
  lemma RuleMessagesDistinct(a: nat, b: nat)
    requires a < NumRules && b < NumRules && a != b
    ensures RuleMessage(a) != RuleMessage(b)
  {
  }

  /** No rule's message is one of the fallbacks, and the two fallbacks
      differ. */
  lemma FallbacksDistinct(a: nat)
    requires a < NumRules
    ensures RuleMessage(a) != HighRiskFallback && RuleMessage(a) != LooksGood
    ensures HighRiskFallback != LooksGood
  {
  }

  /** A rule's message is among the first `k` triggered ones exactly when
      the rule is among the first `k` and fired. */
  lemma {:induction false} TriggeredMember(fired: seq<bool>, k: nat, a: nat)
    requires k <= |fired| <= NumRules && a < NumRules
    ensures RuleMessage(a) in Triggered(fired, k) <==> a < k && fired[a]
  {
    if k > 0 {
      var prev, added := Triggered(fired, k - 1), if fired[k - 1] then [RuleMessage(k - 1)] else [];
      assert Triggered(fired, k) == prev + added;
      TriggeredMember(fired, k - 1, a);
      if a != k - 1 {
        RuleMessagesDistinct(a, k - 1);
        assert RuleMessage(a) !in added;
      }
    }
  }

  /** Only rule messages are triggered. */
  lemma {:induction false} TriggeredNoFallback(fired: seq<bool>, k: nat)
    requires k <= |fired| <= NumRules
    ensures HighRiskFallback !in Triggered(fired, k) && LooksGood !in Triggered(fired, k)
  {
    if k > 0 {
      TriggeredNoFallback(fired, k - 1);
      FallbacksDistinct(k - 1);
    }
  }

  /** At most one message per rule, and none exactly when no rule fired. */
  lemma {:induction false} TriggeredLength(fired: seq<bool>, k: nat)
    requires k <= |fired| <= NumRules
    ensures |Triggered(fired, k)| <= k
    ensures |Triggered(fired, k)| == 0 <==> forall a :: 0 <= a < k ==> !fired[a]
  {
    if k > 0 {
      TriggeredLength(fired, k - 1);
    }
  }

  /** A rule's message is in the list exactly when the rule fired; the list
      is empty exactly when no rule fired. */
  lemma TriggeredSpec(fired: seq<bool>, k: nat)
    requires k <= |fired| <= NumRules
    ensures |Triggered(fired, k)| <= k
    ensures forall a :: 0 <= a < NumRules ==> (RuleMessage(a) in Triggered(fired, k) <==> a < k && fired[a])
    ensures HighRiskFallback !in Triggered(fired, k) && LooksGood !in Triggered(fired, k)
    ensures |Triggered(fired, k)| == 0 <==> forall a :: 0 <= a < k ==> !fired[a]
  {
    forall a | 0 <= a < NumRules
      ensures RuleMessage(a) in Triggered(fired, k) <==> a < k && fired[a]
    {
      TriggeredMember(fired, k, a);
    }
    TriggeredNoFallback(fired, k);
    TriggeredLength(fired, k);
  }

  /** Messages appear in rule-declaration order. */
  lemma {:induction false} TriggeredOrder(fired: seq<bool>, k: nat, i: nat, j: nat, a: nat, b: nat)
    requires k <= |fired| <= NumRules
    requires i < j < |Triggered(fired, k)|
    requires a < NumRules && b < NumRules
    requires Triggered(fired, k)[i] == RuleMessage(a) && Triggered(fired, k)[j] == RuleMessage(b)
    ensures a < b
  {
    var t := Triggered(fired, k - 1);
    if j < |t| {
      TriggeredOrder(fired, k - 1, i, j, a, b);
    } else {
      if b != k - 1 {
        RuleMessagesDistinct(b, k - 1);
      }
      assert b == k - 1;
      assert t[i] in t;
      TriggeredMember(fired, k - 1, a);
    }
  }

  /** Never empty, and at most one message per rule. */
  lemma RecommendationsBounds(f: PRFeatures, riskScore: real, approxLines: int)
    ensures 1 <= |Recommendations(f, riskScore, approxLines)| <= NumRules
  {
    TriggeredSpec(Fired(f, riskScore, approxLines), NumRules);
  }

  /** Each rule's message appears exactly when the rule fires; the two
      fallbacks appear exactly when no rule fired, the high-risk one when
      the score exceeds 0.7 and "looks good" otherwise. */
  lemma RecommendationsContents(f: PRFeatures, riskScore: real, approxLines: int)
    ensures var fired := Fired(f, riskScore, approxLines);
            var r := Recommendations(f, riskScore, approxLines);
      && (forall a :: 0 <= a < NumRules ==> (RuleMessage(a) in r <==> fired[a]))
      && (HighRiskFallback in r <==> (true !in fired && riskScore > 0.7))
      && (LooksGood in r <==> (true !in fired && riskScore <= 0.7))
  {
    var fired := Fired(f, riskScore, approxLines);
    TriggeredSpec(fired, NumRules);
    FallbacksDistinct(0);
    if true in fired {
      var a :| 0 <= a < NumRules && fired[a];
    }
  }

  /** The rule messages in the list come in declaration order. */
  lemma RecommendationsInRuleOrder(f: PRFeatures, riskScore: real, approxLines: int,
                                   i: nat, j: nat, a: nat, b: nat)
    requires i < j < |Recommendations(f, riskScore, approxLines)|
    requires a < NumRules && b < NumRules
    requires Recommendations(f, riskScore, approxLines)[i] == RuleMessage(a)
    requires Recommendations(f, riskScore, approxLines)[j] == RuleMessage(b)
    ensures a < b
  {
    TriggeredOrder(Fired(f, riskScore, approxLines), NumRules, i, j, a, b);
  }
}
