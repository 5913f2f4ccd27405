/**
 * What the validation agent promises about every claim: which flags it raises,
 * how the status follows from them, how the three lists grow together, and the
 * outcome of the standard scenarios.
 */
module Properties {
  import opened Wrappers
  import opened Values
  import Text
  import Policy
  import opened Claims
  import opened Rules

  /** The flag list of eleven guarded rules holds each rule's flag exactly when that rule fires. */
  lemma AllFlags(c1: bool, c2: bool, c3: bool, c4: bool, c5: bool, c6: bool, c7: bool, c8: bool, c9: bool,
                 c10: bool, c11: bool, i1: Issue, i3: Issue, i4: Issue, i5: Issue)
    ensures var flags := [] + FlagsWhen(c1, IssueOnly(i1)) + FlagsWhen(c2, ReceiptFinding)
        + FlagsWhen(c3, Violation(i3, LodgingLimitExceeded, JustifyOrAdjustLodging))
        + FlagsWhen(c4, Violation(i4, AirfareLimitExceeded, RouteToTravelManager))
        + FlagsWhen(c5, Violation(i5, InvalidCategory, SelectValidCategory)) + FlagsWhen(c6, IncompleteFinding)
        + FlagsWhen(c7, NoJustificationFinding) + FlagsWhen(c8, NoReceiptsFinding) + FlagsWhen(c9, NoApprovalFinding)
        + FlagsWhen(c10, RouteFinding) + FlagsWhen(c11, AutoFinding);
      && (MissingReceipt in flags <==> c2) && (LodgingLimitExceeded in flags <==> c3)
      && (AirfareLimitExceeded in flags <==> c4) && (InvalidCategory in flags <==> c5)
      && (IncompleteReporting in flags <==> c6) && (HighValueMissingJustification in flags <==> c7)
      && (HighValueMissingReceipt in flags <==> c8) && (HighValueMissingApprovalInfo in flags <==> c9)
      && (RouteForHigherApproval in flags <==> c10) && (AutoApprovedRoutine in flags <==> c11)
  {
    var early := [] + FlagsWhen(c1, IssueOnly(i1)) + FlagsWhen(c2, ReceiptFinding)
      + FlagsWhen(c3, Violation(i3, LodgingLimitExceeded, JustifyOrAdjustLodging))
      + FlagsWhen(c4, Violation(i4, AirfareLimitExceeded, RouteToTravelManager))
      + FlagsWhen(c5, Violation(i5, InvalidCategory, SelectValidCategory)) + FlagsWhen(c6, IncompleteFinding);
    EarlyFlags(c1, c2, c3, c4, c5, c6, i1, i3, i4, i5);
    LateFlags(early, c7, c8, c9, c10, c11);
  }

  /** Each flag of the standard checks is raised exactly when its rule fires. */
  lemma StandardFlagTriggers(env: Env)
    ensures var flags := Evaluate(env).flags;
      && (MissingReceipt in flags <==> ReceiptRule(env))
      && (LodgingLimitExceeded in flags <==> LodgingRule(env))
      && (AirfareLimitExceeded in flags <==> TravelRule(env))
      && (InvalidCategory in flags <==> CategoryRule(env))
      && (IncompleteReporting in flags <==> IncompleteRule(env))
  {
    FlagsOfFindings(env);
    AllFlags(RequiredRule(env), ReceiptRule(env), LodgingRule(env), TravelRule(env), CategoryRule(env),
      IncompleteRule(env), NoJustificationRule(env), NoReceiptsRule(env), NoApprovalRule(env), RouteRule(env), AutoRule(env),
      MissingFields(MissingRequired(SelectedExpense(env))),
      LodgingFinding(env).issue, TravelFinding(env).issue, CategoryFinding(env).issue);
  }

  /** Each high-value, routing and auto-approval flag is raised exactly when its rule fires. */
  lemma ReviewFlagTriggers(env: Env)
    ensures var flags := Evaluate(env).flags;
      && (HighValueMissingJustification in flags <==> NoJustificationRule(env))
      && (HighValueMissingReceipt in flags <==> NoReceiptsRule(env))
      && (HighValueMissingApprovalInfo in flags <==> NoApprovalRule(env))
      && (RouteForHigherApproval in flags <==> RouteRule(env))
      && (AutoApprovedRoutine in flags <==> AutoRule(env))
  {
    FlagsOfFindings(env);
    AllFlags(RequiredRule(env), ReceiptRule(env), LodgingRule(env), TravelRule(env), CategoryRule(env),
      IncompleteRule(env), NoJustificationRule(env), NoReceiptsRule(env), NoApprovalRule(env), RouteRule(env), AutoRule(env),
      MissingFields(MissingRequired(SelectedExpense(env))),
      LodgingFinding(env).issue, TravelFinding(env).issue, CategoryFinding(env).issue);
  }

  /** The status, stated on the rules rather than on the flags, in both directions. */
  lemma StatusByRules(env: Env)
    ensures var status := Evaluate(env).status;
      && (status == AutoApproved <==> AutoRule(env))
      && (status == RequiresHigherApproval <==> !AutoRule(env) && (RouteRule(env) || LodgingRule(env) || TravelRule(env)))
      && (status == NeedsCorrection <==> !AutoRule(env) && !(RouteRule(env) || LodgingRule(env) || TravelRule(env))
                                         && (ReceiptRule(env) || IncompleteRule(env) || CategoryRule(env)))
      && (status == Approved <==> !AutoRule(env) && !RouteRule(env) && !LodgingRule(env) && !TravelRule(env)
                                  && !ReceiptRule(env) && !IncompleteRule(env) && !CategoryRule(env))
  {
    StandardFlagTriggers(env);
    ReviewFlagTriggers(env);
  }

  /** `auto_approved` in the result is true exactly when the status is `auto_approved`. */
  lemma AutoApprovedAgrees(env: Env)
    ensures Evaluate(env).autoApproved <==> Evaluate(env).status == AutoApproved
  {
  }

  /** How far up the precedence a status sits: plain approval lowest, higher approval highest. */
  function Rank(s: Status): nat {
    match s
    case Approved => 0
    case NeedsCorrection => 1
    case RequiresHigherApproval => 2
    case AutoApproved => 3
  }

  /** Raising more flags never moves a claim that is not auto-approved down the precedence. */
  lemma PrecedenceMonotone(flags: seq<Flag>, more: seq<Flag>)
    ensures Rank(StatusOf(flags, false)) <= Rank(StatusOf(flags + more, false))
    ensures StatusOf(flags, false) == RequiresHigherApproval ==> StatusOf(flags + more, false) == RequiresHigherApproval
  {
    var all := flags + more;
    forall f | f in flags ensures f in all { }
  }

  /** A routing or limit flag decides the status of a claim that is not auto-approved, whatever else is raised. */
  lemma EscalationDecides(flags: seq<Flag>, f: Flag)
    requires f == RouteForHigherApproval || f == LodgingLimitExceeded || f == AirfareLimitExceeded
    ensures StatusOf(flags + [f], false) == RequiresHigherApproval
    ensures StatusOf([f] + flags, false) == RequiresHigherApproval
  {
  }

  /** The status depends on which flags are raised, not on their order or repetition. */
  lemma StatusBySet(flags: seq<Flag>, other: seq<Flag>, auto: bool)
    requires forall f :: f in flags <==> f in other
    ensures StatusOf(flags, auto) == StatusOf(other, auto)
  {
  }

  function Ind(c: bool): nat { if c then 1 else 0 }

  /** How much one guarded finding adds to each list. */
  lemma WhenSizes(c: bool, f: Finding)
    ensures |IssuesWhen(c, f)| == if f.FlagOnly? then 0 else Ind(c)
    ensures |FlagsWhen(c, f)| == if f.IssueOnly? then 0 else Ind(c)
    ensures |ActionsWhen(c, f)| == if f.Violation? then Ind(c) else 0
  {
  }

  /** The length of a list of eleven guarded actions: one per violation. */
  lemma ActionsLength(c1: bool, c2: bool, c3: bool, c4: bool, c5: bool, c6: bool, c7: bool, c8: bool, c9: bool, c10: bool, c11: bool,
                        f1: Finding, f2: Finding, f3: Finding, f4: Finding, f5: Finding, f6: Finding, f7: Finding, f8: Finding, f9: Finding, f10: Finding, f11: Finding)
    requires f1.IssueOnly? && f2.Violation? && f3.Violation? && f4.Violation? && f5.Violation? && f6.Violation? && f7.Violation? && f8.Violation? && f9.Violation? && f10.FlagOnly? && f11.FlagOnly?
    ensures |[] + ActionsWhen(c1, f1) + ActionsWhen(c2, f2) + ActionsWhen(c3, f3) + ActionsWhen(c4, f4) + ActionsWhen(c5, f5) + ActionsWhen(c6, f6) + ActionsWhen(c7, f7) + ActionsWhen(c8, f8) + ActionsWhen(c9, f9) + ActionsWhen(c10, f10) + ActionsWhen(c11, f11)|
      == Ind(c2) + Ind(c3) + Ind(c4) + Ind(c5) + Ind(c6) + Ind(c7) + Ind(c8) + Ind(c9)
  {
    WhenSizes(c1, f1);
    WhenSizes(c2, f2);
    WhenSizes(c3, f3);
    WhenSizes(c4, f4);
    WhenSizes(c5, f5);
    WhenSizes(c6, f6);
    WhenSizes(c7, f7);
    WhenSizes(c8, f8);
    WhenSizes(c9, f9);
    WhenSizes(c10, f10);
    WhenSizes(c11, f11);
  }

  /** The length of a list of eleven guarded issues: one per violation and one for missing fields. */
  lemma IssuesLength(c1: bool, c2: bool, c3: bool, c4: bool, c5: bool, c6: bool, c7: bool, c8: bool, c9: bool, c10: bool, c11: bool,
                       f1: Finding, f2: Finding, f3: Finding, f4: Finding, f5: Finding, f6: Finding, f7: Finding, f8: Finding, f9: Finding, f10: Finding, f11: Finding)
    requires f1.IssueOnly? && f2.Violation? && f3.Violation? && f4.Violation? && f5.Violation? && f6.Violation? && f7.Violation? && f8.Violation? && f9.Violation? && f10.FlagOnly? && f11.FlagOnly?
    ensures |[] + IssuesWhen(c1, f1) + IssuesWhen(c2, f2) + IssuesWhen(c3, f3) + IssuesWhen(c4, f4) + IssuesWhen(c5, f5) + IssuesWhen(c6, f6) + IssuesWhen(c7, f7) + IssuesWhen(c8, f8) + IssuesWhen(c9, f9) + IssuesWhen(c10, f10) + IssuesWhen(c11, f11)|
      == Ind(c1) + Ind(c2) + Ind(c3) + Ind(c4) + Ind(c5) + Ind(c6) + Ind(c7) + Ind(c8) + Ind(c9)
  {
    WhenSizes(c1, f1);
    WhenSizes(c2, f2);
    WhenSizes(c3, f3);
    WhenSizes(c4, f4);
    WhenSizes(c5, f5);
    WhenSizes(c6, f6);
    WhenSizes(c7, f7);
    WhenSizes(c8, f8);
    WhenSizes(c9, f9);
    WhenSizes(c10, f10);
    WhenSizes(c11, f11);
  }

  /** The length of a list of eleven guarded flags: one per violation and one per routing or auto-approval finding. */
  lemma FlagsLength(c1: bool, c2: bool, c3: bool, c4: bool, c5: bool, c6: bool, c7: bool, c8: bool, c9: bool, c10: bool, c11: bool,
                      f1: Finding, f2: Finding, f3: Finding, f4: Finding, f5: Finding, f6: Finding, f7: Finding, f8: Finding, f9: Finding, f10: Finding, f11: Finding)
    requires f1.IssueOnly? && f2.Violation? && f3.Violation? && f4.Violation? && f5.Violation? && f6.Violation? && f7.Violation? && f8.Violation? && f9.Violation? && f10.FlagOnly? && f11.FlagOnly?
    ensures |[] + FlagsWhen(c1, f1) + FlagsWhen(c2, f2) + FlagsWhen(c3, f3) + FlagsWhen(c4, f4) + FlagsWhen(c5, f5) + FlagsWhen(c6, f6) + FlagsWhen(c7, f7) + FlagsWhen(c8, f8) + FlagsWhen(c9, f9) + FlagsWhen(c10, f10) + FlagsWhen(c11, f11)|
      == Ind(c2) + Ind(c3) + Ind(c4) + Ind(c5) + Ind(c6) + Ind(c7) + Ind(c8) + Ind(c9) + Ind(c10) + Ind(c11)
  {
    WhenSizes(c1, f1);
    WhenSizes(c2, f2);
    WhenSizes(c3, f3);
    WhenSizes(c4, f4);
    WhenSizes(c5, f5);
    WhenSizes(c6, f6);
    WhenSizes(c7, f7);
    WhenSizes(c8, f8);
    WhenSizes(c9, f9);
    WhenSizes(c10, f10);
    WhenSizes(c11, f11);
  }

  /** One suggested action per violation rule that fires. */
  lemma ActionCount(env: Env)
    ensures |Evaluate(env).suggestedActions| == Ind(ReceiptRule(env)) + Ind(LodgingRule(env)) + Ind(TravelRule(env))
      + Ind(CategoryRule(env)) + Ind(IncompleteRule(env)) + Ind(NoJustificationRule(env))
      + Ind(NoReceiptsRule(env)) + Ind(NoApprovalRule(env))
  {
    ActionsOfFindings(env);
    ActionsLength(RequiredRule(env), ReceiptRule(env), LodgingRule(env), TravelRule(env), CategoryRule(env),
      IncompleteRule(env), NoJustificationRule(env), NoReceiptsRule(env), NoApprovalRule(env), RouteRule(env), AutoRule(env),
      IssueOnly(MissingFields(MissingRequired(SelectedExpense(env)))), ReceiptFinding, LodgingFinding(env), TravelFinding(env),
      CategoryFinding(env), IncompleteFinding, NoJustificationFinding, NoReceiptsFinding, NoApprovalFinding, RouteFinding, AutoFinding);
  }

  /** One issue per violation rule that fires, and one more when required fields are missing. */
  lemma IssueCount(env: Env)
    ensures |Evaluate(env).issues| == Ind(RequiredRule(env)) + Ind(ReceiptRule(env)) + Ind(LodgingRule(env)) + Ind(TravelRule(env))
      + Ind(CategoryRule(env)) + Ind(IncompleteRule(env)) + Ind(NoJustificationRule(env))
      + Ind(NoReceiptsRule(env)) + Ind(NoApprovalRule(env))
  {
    IssuesOfFindings(env);
    IssuesLength(RequiredRule(env), ReceiptRule(env), LodgingRule(env), TravelRule(env), CategoryRule(env),
      IncompleteRule(env), NoJustificationRule(env), NoReceiptsRule(env), NoApprovalRule(env), RouteRule(env), AutoRule(env),
      IssueOnly(MissingFields(MissingRequired(SelectedExpense(env)))), ReceiptFinding, LodgingFinding(env), TravelFinding(env),
      CategoryFinding(env), IncompleteFinding, NoJustificationFinding, NoReceiptsFinding, NoApprovalFinding, RouteFinding, AutoFinding);
  }

  /** One flag per violation rule that fires, and one each for routing and auto-approval. */
  lemma FlagCount(env: Env)
    ensures |Evaluate(env).flags| == Ind(ReceiptRule(env)) + Ind(LodgingRule(env)) + Ind(TravelRule(env))
      + Ind(CategoryRule(env)) + Ind(IncompleteRule(env)) + Ind(NoJustificationRule(env))
      + Ind(NoReceiptsRule(env)) + Ind(NoApprovalRule(env))
      + Ind(RouteRule(env)) + Ind(AutoRule(env))
  {
    FlagsOfFindings(env);
    FlagsLength(RequiredRule(env), ReceiptRule(env), LodgingRule(env), TravelRule(env), CategoryRule(env),
      IncompleteRule(env), NoJustificationRule(env), NoReceiptsRule(env), NoApprovalRule(env), RouteRule(env), AutoRule(env),
      IssueOnly(MissingFields(MissingRequired(SelectedExpense(env)))), ReceiptFinding, LodgingFinding(env), TravelFinding(env),
      CategoryFinding(env), IncompleteFinding, NoJustificationFinding, NoReceiptsFinding, NoApprovalFinding, RouteFinding, AutoFinding);
  }

  /**
   * The lists grow together: every violation rule that fires adds one issue,
   * one flag and one action; the required-fields rule adds only an issue, and
   * routing and auto-approval add only a flag.
   */
  lemma Lockstep(env: Env)
    ensures var r := Evaluate(env);
      && |r.issues| == |r.suggestedActions| + Ind(RequiredRule(env))
      && |r.flags| == |r.suggestedActions| + Ind(RouteRule(env)) + Ind(AutoRule(env))
  {
    ActionCount(env);
    IssueCount(env);
    FlagCount(env);
  }

  /** A high-value claim without receipts always goes to higher approval. */
  lemma HighValueWithoutReceipts(env: Env)
    requires HighValue(env) && !ReceiptsPresent(env)
    ensures HighValueMissingReceipt in Evaluate(env).flags && RouteForHigherApproval in Evaluate(env).flags
    ensures Evaluate(env).status == RequiresHigherApproval
  {
    ReviewFlagTriggers(env);
  }

  /** A flag list without the three high-value flags and the routing flag holds none of them. */
  lemma NoReviewFlags(flags: seq<Flag>)
    requires HighValueMissingJustification !in flags && HighValueMissingReceipt !in flags
    requires HighValueMissingApprovalInfo !in flags && RouteForHigherApproval !in flags
    ensures forall f :: f in flags ==> !f.IsHighValue() && f != RouteForHigherApproval
  {
  }

  /** A high-value claim with a justification, receipts and approval information raises no high-value flag. */
  lemma HighValueDocumented(env: Env)
    requires HasJustification(env) && ReceiptsPresent(env) && HasApprovalInfo(env)
    ensures forall f :: f in Evaluate(env).flags ==> !f.IsHighValue() && f != RouteForHigherApproval
  {
    ReviewFlagTriggers(env);
    NoReviewFlags(Evaluate(env).flags);
  }

  /** When the routine tier lies below the high-value tier, an auto-approved claim is never a high-value one. */
  lemma AutoApprovalExcludesHighValue(env: Env)
    requires Limits(env).routineThreshold < Limits(env).highValueThreshold
    requires Evaluate(env).autoApproved
    ensures !HighValue(env)
    ensures forall f :: f in Evaluate(env).flags ==> !f.IsHighValue() && f != RouteForHigherApproval
  {
    ReviewFlagTriggers(env);
    NoReviewFlags(Evaluate(env).flags);
  }

  /** Without overrides the routine tier does lie below the high-value tier. */
  lemma DefaultTiersSeparate(env: Env)
    requires env.policyOverrides == map[]
    ensures Limits(env).routineThreshold < Limits(env).highValueThreshold
  {
    Policy.DefaultLimits();
  }

  /** A `nights` value of `None` turns the lodging limit off, and one given on the context, even `None`, wins over the record's. */
  lemma NullNightsSkipLodging(env: Env)
    ensures NightsProvided(env) == Null ==> LodgingLimitExceeded !in Evaluate(env).flags
    ensures env.nights == Some(Null) ==> LodgingLimitExceeded !in Evaluate(env).flags
  {
    StandardFlagTriggers(env);
  }

  /** `airfare` is checked against the airfare limit but is not a valid category, so it never passes unflagged. */
  lemma AirfareIsInvalidCategory(env: Env)
    requires Category(env) == "airfare"
    ensures InvalidCategory in Evaluate(env).flags
    ensures !Evaluate(env).autoApproved && Evaluate(env).status != Approved
  {
    assert "airfare" !in ValidCategories;
    StandardFlagTriggers(env);
  }

  /** Incomplete reporting looks at the record's own amount only: a claimed amount on the context does not satisfy it. */
  lemma IncompleteIgnoresClaimedAmount(env: Env)
    requires !Truthy(Get(SelectedExpense(env).totalAmount))
    ensures IncompleteReporting in Evaluate(env).flags
    ensures !Evaluate(env).autoApproved ==> Evaluate(env).status != Approved
  {
    StandardFlagTriggers(env);
  }

  /** The lodging and airfare rules are monotone in their limits: loosening a limit never makes one fire. */
  lemma LimitRulesMonotone(env: Env, looser: Env)
    requires looser == env.(policyOverrides := looser.policyOverrides)
    requires Limits(env).lodgingLimitPerNight <= Limits(looser).lodgingLimitPerNight
    requires Limits(env).airfareLimit <= Limits(looser).airfareLimit
    ensures LodgingRule(looser) ==> LodgingRule(env)
    ensures TravelRule(looser) ==> TravelRule(env)
  {
    assert Amount(looser) == Amount(env) && Category(looser) == Category(env);
    assert NightsProvided(looser) == NightsProvided(env) && PerNight(looser) == PerNight(env);
  }

  /** Raising the lodging or airfare limit never adds that limit's flag to the result. */
  lemma LimitFlagsMonotone(env: Env, looser: Env)
    requires looser == env.(policyOverrides := looser.policyOverrides)
    requires Limits(env).lodgingLimitPerNight <= Limits(looser).lodgingLimitPerNight
    requires Limits(env).airfareLimit <= Limits(looser).airfareLimit
    ensures LodgingLimitExceeded in Evaluate(looser).flags ==> LodgingLimitExceeded in Evaluate(env).flags
    ensures AirfareLimitExceeded in Evaluate(looser).flags ==> AirfareLimitExceeded in Evaluate(env).flags
  {
    LimitRulesMonotone(env, looser);
    StandardFlagTriggers(env);
    StandardFlagTriggers(looser);
  }
}
