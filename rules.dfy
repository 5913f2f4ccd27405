/**
 * The validation agent's rules, written as a specification: which findings an
 * expense claim produces, in rule order, and the status they resolve to.
 */
module Rules {
  import opened Wrappers
  import opened Values
  import Text
  import Policy
  import opened Claims

  // ---------------------------------------------------------------- vocabulary

  /** The machine-readable tags the rules attach. */
  datatype Flag =
    | MissingReceipt
    | LodgingLimitExceeded
    | AirfareLimitExceeded
    | InvalidCategory
    | IncompleteReporting
    | HighValueMissingJustification
    | HighValueMissingReceipt
    | HighValueMissingApprovalInfo
    | RouteForHigherApproval
    | AutoApprovedRoutine
  {
    /** The tag as it appears in the result. */
    function Name(): string {
      match this
      case MissingReceipt => "missing_receipt"
      case LodgingLimitExceeded => "lodging_limit_exceeded"
      case AirfareLimitExceeded => "airfare_limit_exceeded"
      case InvalidCategory => "invalid_category"
      case IncompleteReporting => "incomplete_reporting"
      case HighValueMissingJustification => "high_value_missing_justification"
      case HighValueMissingReceipt => "high_value_missing_receipt"
      case HighValueMissingApprovalInfo => "high_value_missing_approval_info"
      case RouteForHigherApproval => "route_for_higher_approval"
      case AutoApprovedRoutine => "auto_approved_routine"
    }

    predicate IsHighValue() {
      HighValueMissingJustification? || HighValueMissingReceipt? || HighValueMissingApprovalInfo?
    }
  }

  /** The four dispositions. */
  datatype Status = AutoApproved | RequiresHigherApproval | NeedsCorrection | Approved {
    function Name(): string {
      match this
      case AutoApproved => "auto_approved"
      case RequiresHigherApproval => "requires_higher_approval"
      case NeedsCorrection => "needs_correction"
      case Approved => "approved"
    }
  }

  /** The human-readable problems, by kind, with the figures their messages quote. */
  datatype Issue =
    | MissingFields(fields: seq<string>)
    | NoReceipt
    | LodgingOverLimit(perNight: real, limit: real)
    | TravelOverLimit(amount: real, limit: real)
    | UnknownCategory(category: string)
    | DateOrAmountMissing
    | NoJustification
    | NoReceipts
    | NoApprovalInfo
  {
    /** The message text. */
    function Message(): string {
      match this
      case MissingFields(fields) => "Missing required fields: " + Text.Join(fields, ", ")
      case NoReceipt => "Missing receipt(s) for claimed amount"
      case LodgingOverLimit(perNight, limit) =>
        "Lodging per-night cost $" + Text.Money(perNight) + " exceeds policy limit $" + Text.Money(limit)
      case TravelOverLimit(amount, limit) =>
        "Airfare/Travel amount $" + Text.Money(amount) + " exceeds policy limit $" + Text.Money(limit)
      case UnknownCategory(category) => "Unknown expense category: " + category
      case DateOrAmountMissing => "Incomplete reporting: date or total amount missing or unparsed"
      case NoJustification => "High-value expense requires a justification"
      case NoReceipts => "High-value expense must include receipts"
      case NoApprovalInfo => "High-value expense requires cost center or designated approver information"
    }
  }

  /** The suggested corrective actions. */
  datatype Action =
    | AttachReceipt
    | JustifyOrAdjustLodging
    | RouteToTravelManager
    | SelectValidCategory
    | ProvideDateAndAmount
    | AddJustification
    | AttachSupportingDocuments
    | ProvideCostCenterOrApprover
  {
    function Message(): string {
      match this
      case AttachReceipt => "Attach receipt image(s) before submission"
      case JustifyOrAdjustLodging => "Provide justification or adjust lodging to policy-compliant rate"
      case RouteToTravelManager => "Route to travel manager for exception approval"
      case SelectValidCategory => "Select a valid expense category"
      case ProvideDateAndAmount => "Provide the transaction date and total amount"
      case AddJustification => "Add a justification explaining the business need"
      case AttachSupportingDocuments => "Attach all supporting receipts/documents"
      case ProvideCostCenterOrApprover => "Provide cost center or approver to route for higher approval"
    }
  }

  /**
   * What one rule contributes when it fires: most rules add one issue, one flag
   * and one action together; the required-fields rule adds only an issue; the
   * routing and auto-approval rules add only a flag.
   */
  datatype Finding =
    | Violation(issue: Issue, flag: Flag, action: Action)
    | IssueOnly(only: Issue)
    | FlagOnly(tag: Flag)
  {
    function Issues(): seq<Issue> {
      match this
      case Violation(i, _, _) => [i]
      case IssueOnly(i) => [i]
      case FlagOnly(_) => []
    }

    function Flags(): seq<Flag> {
      match this
      case Violation(_, f, _) => [f]
      case IssueOnly(_) => []
      case FlagOnly(f) => [f]
    }

    function Actions(): seq<Action> {
      match this
      case Violation(_, _, a) => [a]
      case IssueOnly(_) => []
      case FlagOnly(_) => []
    }
  }

  /** The issue list a sequence of findings produces, in order. */
  function IssuesOf(fs: seq<Finding>): seq<Issue> {
    if fs == [] then [] else IssuesOf(fs[..|fs| - 1]) + fs[|fs| - 1].Issues()
  }

  /** The flag list a sequence of findings produces, in order. */
  function FlagsOf(fs: seq<Finding>): seq<Flag> {
    if fs == [] then [] else FlagsOf(fs[..|fs| - 1]) + fs[|fs| - 1].Flags()
  }

  /** The action list a sequence of findings produces, in order. */
  function ActionsOf(fs: seq<Finding>): seq<Action> {
    if fs == [] then [] else ActionsOf(fs[..|fs| - 1]) + fs[|fs| - 1].Actions()
  }

  /** A flag is in the flag list exactly when some finding carries it. */
  lemma {:induction false} InFlagsOf(fs: seq<Finding>, f: Flag)
    ensures f in FlagsOf(fs) <==> exists i :: 0 <= i < |fs| && f in fs[i].Flags()
  {
    if fs != [] {
      var init := fs[..|fs| - 1];
      InFlagsOf(init, f);
      if f in FlagsOf(init) {
        var i :| 0 <= i < |init| && f in init[i].Flags();
        assert fs[i] == init[i];
      }
      if exists i :: 0 <= i < |fs| && f in fs[i].Flags() {
        var i :| 0 <= i < |fs| && f in fs[i].Flags();
        if i < |init| { assert init[i] == fs[i]; }
      }
    }
  }

  /** Recording one more finding extends each list by that finding's part. */
  lemma Record(fs: seq<Finding>, f: Finding)
    ensures IssuesOf(fs + [f]) == IssuesOf(fs) + f.Issues()
    ensures FlagsOf(fs + [f]) == FlagsOf(fs) + f.Flags()
    ensures ActionsOf(fs + [f]) == ActionsOf(fs) + f.Actions()
  {
    assert (fs + [f])[..|fs|] == fs;
  }

  /** A one-element sequence when `c` holds, else empty. */
  function When(c: bool, f: Finding): seq<Finding> {
    if c then [f] else []
  }

  /** The issue a rule adds when `c` holds. */
  function IssuesWhen(c: bool, f: Finding): seq<Issue> {
    if c then f.Issues() else []
  }

  /** The flag a rule adds when `c` holds. */
  function FlagsWhen(c: bool, f: Finding): seq<Flag> {
    if c then f.Flags() else []
  }

  /** The action a rule adds when `c` holds. */
  function ActionsWhen(c: bool, f: Finding): seq<Action> {
    if c then f.Actions() else []
  }

  /** Recording a finding only when `c` holds extends each list by that finding's part only when `c` holds. */
  lemma RecordWhen(fs: seq<Finding>, c: bool, f: Finding)
    ensures IssuesOf(fs + When(c, f)) == IssuesOf(fs) + IssuesWhen(c, f)
    ensures FlagsOf(fs + When(c, f)) == FlagsOf(fs) + FlagsWhen(c, f)
    ensures ActionsOf(fs + When(c, f)) == ActionsOf(fs) + ActionsWhen(c, f)
  {
    if c {
      Record(fs, f);
    } else {
      assert fs + When(c, f) == fs;
    }
  }

  // ---------------------------------------------------------------- the rules

  const ValidCategories: set<string> :=
    {"meals", "travel", "supplies", "entertainment", "lodging", "transportation", "other"}
  const TravelCategories: set<string> := {"airfare", "travel", "transportation"}
  const RoutineCategories: set<string> := {"lodging", "travel", "transportation"}

  function Limits(env: Env): Policy.Limits {
    Policy.Resolve(env.policyOverrides)
  }

  /** Some required field is falsy on the record. */
  predicate RequiredRule(env: Env) {
    |MissingRequired(SelectedExpense(env))| > 0
  }

  /** A positive amount is claimed with no attachment or receipt. */
  predicate ReceiptRule(env: Env) {
    Amount(env).Some? && Amount(env).value > 0.0 && !ReceiptsPresent(env)
  }

  /** The amount per night of a lodging claim (0 when there is no amount). */
  function PerNight(env: Env): real {
    Amount(env).GetOr(0.0) / NightCount(NightsProvided(env)) as real
  }

  /** A lodging claim with nights given costs strictly more per night than the limit. */
  predicate LodgingRule(env: Env) {
    Category(env) == "lodging" && NightsProvided(env) != Null && Amount(env).Some?
    && PerNight(env) > Limits(env).lodgingLimitPerNight
  }

  /** An airfare, travel or transportation claim exceeds the airfare limit strictly. */
  predicate TravelRule(env: Env) {
    Category(env) in TravelCategories && Amount(env).Some? && Amount(env).value > Limits(env).airfareLimit
  }

  /** The category is not one of the seven valid ones. */
  predicate CategoryRule(env: Env) {
    Category(env) !in ValidCategories
  }

  /** The record's own `date` or `total_amount` is falsy. */
  predicate IncompleteRule(env: Env) {
    var e := SelectedExpense(env);
    !Truthy(Get(e.date)) || !Truthy(Get(e.totalAmount))
  }

  /** The amount reaches the high-value threshold (inclusive). */
  predicate HighValue(env: Env) {
    Amount(env).Some? && Amount(env).value >= Limits(env).highValueThreshold
  }

  predicate NoJustificationRule(env: Env) { HighValue(env) && !HasJustification(env) }
  predicate NoReceiptsRule(env: Env) { HighValue(env) && !ReceiptsPresent(env) }
  predicate NoApprovalRule(env: Env) { HighValue(env) && !HasApprovalInfo(env) }

  /** A high-value claim lacks at least one of justification, receipts and approval information. */
  predicate RouteRule(env: Env) {
    NoJustificationRule(env) || NoReceiptsRule(env) || NoApprovalRule(env)
  }

  /**
   * A routine claim: at most the routine threshold (inclusive), with receipts,
   * no lodging, airfare or category violation, in a lodging, travel or
   * transportation category.
   */
  predicate AutoRule(env: Env) {
    Amount(env).Some? && Amount(env).value <= Limits(env).routineThreshold
    && ReceiptsPresent(env)
    && !LodgingRule(env) && !TravelRule(env) && !CategoryRule(env)
    && Category(env) in RoutineCategories
  }

  // What each rule records when it fires.
  function RequiredFinding(env: Env): Finding { IssueOnly(MissingFields(MissingRequired(SelectedExpense(env)))) }
  const ReceiptFinding := Violation(NoReceipt, MissingReceipt, AttachReceipt)
  function LodgingFinding(env: Env): Finding {
    Violation(LodgingOverLimit(PerNight(env), Limits(env).lodgingLimitPerNight), LodgingLimitExceeded, JustifyOrAdjustLodging)
  }
  function TravelFinding(env: Env): Finding {
    Violation(TravelOverLimit(Amount(env).GetOr(0.0), Limits(env).airfareLimit), AirfareLimitExceeded, RouteToTravelManager)
  }
  function CategoryFinding(env: Env): Finding { Violation(UnknownCategory(Category(env)), InvalidCategory, SelectValidCategory) }
  const IncompleteFinding := Violation(DateOrAmountMissing, IncompleteReporting, ProvideDateAndAmount)
  const NoJustificationFinding := Violation(NoJustification, HighValueMissingJustification, AddJustification)
  const NoReceiptsFinding := Violation(NoReceipts, HighValueMissingReceipt, AttachSupportingDocuments)
  const NoApprovalFinding := Violation(NoApprovalInfo, HighValueMissingApprovalInfo, ProvideCostCenterOrApprover)
  const RouteFinding := FlagOnly(RouteForHigherApproval)
  const AutoFinding := FlagOnly(AutoApprovedRoutine)

  /** Every finding the claim produces, in the order the rules run. */
  function Findings(env: Env): seq<Finding> {
    When(RequiredRule(env), RequiredFinding(env))
    + When(ReceiptRule(env), ReceiptFinding)
    + When(LodgingRule(env), LodgingFinding(env))
    + When(TravelRule(env), TravelFinding(env))
    + When(CategoryRule(env), CategoryFinding(env))
    + When(IncompleteRule(env), IncompleteFinding)
    + When(NoJustificationRule(env), NoJustificationFinding)
    + When(NoReceiptsRule(env), NoReceiptsFinding)
    + When(NoApprovalRule(env), NoApprovalFinding)
    + When(RouteRule(env), RouteFinding)
    + When(AutoRule(env), AutoFinding)
  }

  /** The three lists of eleven guarded findings, guard by guard. */
  lemma InOrder(c1: bool, f1: Finding, c2: bool, f2: Finding, c3: bool, f3: Finding, c4: bool, f4: Finding, c5: bool, f5: Finding, c6: bool, f6: Finding, c7: bool, f7: Finding, c8: bool, f8: Finding, c9: bool, f9: Finding, c10: bool, f10: Finding, c11: bool, f11: Finding)
    ensures IssuesOf(When(c1, f1) + When(c2, f2) + When(c3, f3) + When(c4, f4) + When(c5, f5) + When(c6, f6) + When(c7, f7) + When(c8, f8) + When(c9, f9) + When(c10, f10) + When(c11, f11))
      == [] + IssuesWhen(c1, f1) + IssuesWhen(c2, f2) + IssuesWhen(c3, f3) + IssuesWhen(c4, f4) + IssuesWhen(c5, f5) + IssuesWhen(c6, f6) + IssuesWhen(c7, f7) + IssuesWhen(c8, f8) + IssuesWhen(c9, f9) + IssuesWhen(c10, f10) + IssuesWhen(c11, f11)
    ensures FlagsOf(When(c1, f1) + When(c2, f2) + When(c3, f3) + When(c4, f4) + When(c5, f5) + When(c6, f6) + When(c7, f7) + When(c8, f8) + When(c9, f9) + When(c10, f10) + When(c11, f11))
      == [] + FlagsWhen(c1, f1) + FlagsWhen(c2, f2) + FlagsWhen(c3, f3) + FlagsWhen(c4, f4) + FlagsWhen(c5, f5) + FlagsWhen(c6, f6) + FlagsWhen(c7, f7) + FlagsWhen(c8, f8) + FlagsWhen(c9, f9) + FlagsWhen(c10, f10) + FlagsWhen(c11, f11)
    ensures ActionsOf(When(c1, f1) + When(c2, f2) + When(c3, f3) + When(c4, f4) + When(c5, f5) + When(c6, f6) + When(c7, f7) + When(c8, f8) + When(c9, f9) + When(c10, f10) + When(c11, f11))
      == [] + ActionsWhen(c1, f1) + ActionsWhen(c2, f2) + ActionsWhen(c3, f3) + ActionsWhen(c4, f4) + ActionsWhen(c5, f5) + ActionsWhen(c6, f6) + ActionsWhen(c7, f7) + ActionsWhen(c8, f8) + ActionsWhen(c9, f9) + ActionsWhen(c10, f10) + ActionsWhen(c11, f11)
  {
    var s0: seq<Finding> := [];
    var s1 := s0 + When(c1, f1);
    var s2 := s1 + When(c2, f2);
    var s3 := s2 + When(c3, f3);
    var s4 := s3 + When(c4, f4);
    var s5 := s4 + When(c5, f5);
    var s6 := s5 + When(c6, f6);
    var s7 := s6 + When(c7, f7);
    var s8 := s7 + When(c8, f8);
    var s9 := s8 + When(c9, f9);
    var s10 := s9 + When(c10, f10);
    var s11 := s10 + When(c11, f11);
    RecordWhen(s0, c1, f1);
    RecordWhen(s1, c2, f2);
    RecordWhen(s2, c3, f3);
    RecordWhen(s3, c4, f4);
    RecordWhen(s4, c5, f5);
    RecordWhen(s5, c6, f6);
    RecordWhen(s6, c7, f7);
    RecordWhen(s7, c8, f8);
    RecordWhen(s8, c9, f9);
    RecordWhen(s9, c10, f10);
    RecordWhen(s10, c11, f11);
  }

  /** The three lists, rule by rule: each rule that fires adds its part, in rule order. */
  lemma FindingsInOrder(env: Env)
    ensures IssuesOf(Findings(env)) == []
      + IssuesWhen(RequiredRule(env), RequiredFinding(env))
      + IssuesWhen(ReceiptRule(env), ReceiptFinding)
      + IssuesWhen(LodgingRule(env), LodgingFinding(env))
      + IssuesWhen(TravelRule(env), TravelFinding(env))
      + IssuesWhen(CategoryRule(env), CategoryFinding(env))
      + IssuesWhen(IncompleteRule(env), IncompleteFinding)
      + IssuesWhen(NoJustificationRule(env), NoJustificationFinding)
      + IssuesWhen(NoReceiptsRule(env), NoReceiptsFinding)
      + IssuesWhen(NoApprovalRule(env), NoApprovalFinding)
      + IssuesWhen(RouteRule(env), RouteFinding)
      + IssuesWhen(AutoRule(env), AutoFinding)
    ensures FlagsOf(Findings(env)) == []
      + FlagsWhen(RequiredRule(env), RequiredFinding(env))
      + FlagsWhen(ReceiptRule(env), ReceiptFinding)
      + FlagsWhen(LodgingRule(env), LodgingFinding(env))
      + FlagsWhen(TravelRule(env), TravelFinding(env))
      + FlagsWhen(CategoryRule(env), CategoryFinding(env))
      + FlagsWhen(IncompleteRule(env), IncompleteFinding)
      + FlagsWhen(NoJustificationRule(env), NoJustificationFinding)
      + FlagsWhen(NoReceiptsRule(env), NoReceiptsFinding)
      + FlagsWhen(NoApprovalRule(env), NoApprovalFinding)
      + FlagsWhen(RouteRule(env), RouteFinding)
      + FlagsWhen(AutoRule(env), AutoFinding)
    ensures ActionsOf(Findings(env)) == []
      + ActionsWhen(RequiredRule(env), RequiredFinding(env))
      + ActionsWhen(ReceiptRule(env), ReceiptFinding)
      + ActionsWhen(LodgingRule(env), LodgingFinding(env))
      + ActionsWhen(TravelRule(env), TravelFinding(env))
      + ActionsWhen(CategoryRule(env), CategoryFinding(env))
      + ActionsWhen(IncompleteRule(env), IncompleteFinding)
      + ActionsWhen(NoJustificationRule(env), NoJustificationFinding)
      + ActionsWhen(NoReceiptsRule(env), NoReceiptsFinding)
      + ActionsWhen(NoApprovalRule(env), NoApprovalFinding)
      + ActionsWhen(RouteRule(env), RouteFinding)
      + ActionsWhen(AutoRule(env), AutoFinding)
  {
    IssuesOfFindings(env);
    FlagsOfFindings(env);
    ActionsOfFindings(env);
  }

  lemma IssuesOfFindings(env: Env)
    ensures IssuesOf(Findings(env)) == []
      + IssuesWhen(RequiredRule(env), RequiredFinding(env))
      + IssuesWhen(ReceiptRule(env), ReceiptFinding)
      + IssuesWhen(LodgingRule(env), LodgingFinding(env))
      + IssuesWhen(TravelRule(env), TravelFinding(env))
      + IssuesWhen(CategoryRule(env), CategoryFinding(env))
      + IssuesWhen(IncompleteRule(env), IncompleteFinding)
      + IssuesWhen(NoJustificationRule(env), NoJustificationFinding)
      + IssuesWhen(NoReceiptsRule(env), NoReceiptsFinding)
      + IssuesWhen(NoApprovalRule(env), NoApprovalFinding)
      + IssuesWhen(RouteRule(env), RouteFinding)
      + IssuesWhen(AutoRule(env), AutoFinding)
  {
    InOrder(RequiredRule(env), RequiredFinding(env), ReceiptRule(env), ReceiptFinding, LodgingRule(env), LodgingFinding(env), TravelRule(env), TravelFinding(env), CategoryRule(env), CategoryFinding(env), IncompleteRule(env), IncompleteFinding, NoJustificationRule(env), NoJustificationFinding, NoReceiptsRule(env), NoReceiptsFinding, NoApprovalRule(env), NoApprovalFinding, RouteRule(env), RouteFinding, AutoRule(env), AutoFinding);
  }

  lemma FlagsOfFindings(env: Env)
    ensures FlagsOf(Findings(env)) == []
      + FlagsWhen(RequiredRule(env), RequiredFinding(env))
      + FlagsWhen(ReceiptRule(env), ReceiptFinding)
      + FlagsWhen(LodgingRule(env), LodgingFinding(env))
      + FlagsWhen(TravelRule(env), TravelFinding(env))
      + FlagsWhen(CategoryRule(env), CategoryFinding(env))
      + FlagsWhen(IncompleteRule(env), IncompleteFinding)
      + FlagsWhen(NoJustificationRule(env), NoJustificationFinding)
      + FlagsWhen(NoReceiptsRule(env), NoReceiptsFinding)
      + FlagsWhen(NoApprovalRule(env), NoApprovalFinding)
      + FlagsWhen(RouteRule(env), RouteFinding)
      + FlagsWhen(AutoRule(env), AutoFinding)
  {
    InOrder(RequiredRule(env), RequiredFinding(env), ReceiptRule(env), ReceiptFinding, LodgingRule(env), LodgingFinding(env), TravelRule(env), TravelFinding(env), CategoryRule(env), CategoryFinding(env), IncompleteRule(env), IncompleteFinding, NoJustificationRule(env), NoJustificationFinding, NoReceiptsRule(env), NoReceiptsFinding, NoApprovalRule(env), NoApprovalFinding, RouteRule(env), RouteFinding, AutoRule(env), AutoFinding);
  }

  lemma ActionsOfFindings(env: Env)
    ensures ActionsOf(Findings(env)) == []
      + ActionsWhen(RequiredRule(env), RequiredFinding(env))
      + ActionsWhen(ReceiptRule(env), ReceiptFinding)
      + ActionsWhen(LodgingRule(env), LodgingFinding(env))
      + ActionsWhen(TravelRule(env), TravelFinding(env))
      + ActionsWhen(CategoryRule(env), CategoryFinding(env))
      + ActionsWhen(IncompleteRule(env), IncompleteFinding)
      + ActionsWhen(NoJustificationRule(env), NoJustificationFinding)
      + ActionsWhen(NoReceiptsRule(env), NoReceiptsFinding)
      + ActionsWhen(NoApprovalRule(env), NoApprovalFinding)
      + ActionsWhen(RouteRule(env), RouteFinding)
      + ActionsWhen(AutoRule(env), AutoFinding)
  {
    InOrder(RequiredRule(env), RequiredFinding(env), ReceiptRule(env), ReceiptFinding, LodgingRule(env), LodgingFinding(env), TravelRule(env), TravelFinding(env), CategoryRule(env), CategoryFinding(env), IncompleteRule(env), IncompleteFinding, NoJustificationRule(env), NoJustificationFinding, NoReceiptsRule(env), NoReceiptsFinding, NoApprovalRule(env), NoApprovalFinding, RouteRule(env), RouteFinding, AutoRule(env), AutoFinding);
  }

  // ---------------------------------------------------------------- which flags a list holds

  /** Membership in a concatenation of six parts is membership in one of them. */
  lemma InSix<T>(x: T, a: seq<T>, b: seq<T>, c: seq<T>, d: seq<T>, e: seq<T>, f: seq<T>)
    ensures x in a + b + c + d + e + f <==> x in a || x in b || x in c || x in d || x in e || x in f
  {
  }

  /** The flags of the six standard rules: each of their flags exactly when its rule fires, and no other flag. */
  lemma EarlyFlags(c1: bool, c2: bool, c3: bool, c4: bool, c5: bool, c6: bool, i1: Issue, i3: Issue, i4: Issue, i5: Issue)
    ensures var flags := [] + FlagsWhen(c1, IssueOnly(i1)) + FlagsWhen(c2, ReceiptFinding)
        + FlagsWhen(c3, Violation(i3, LodgingLimitExceeded, JustifyOrAdjustLodging))
        + FlagsWhen(c4, Violation(i4, AirfareLimitExceeded, RouteToTravelManager))
        + FlagsWhen(c5, Violation(i5, InvalidCategory, SelectValidCategory)) + FlagsWhen(c6, IncompleteFinding);
      && (MissingReceipt in flags <==> c2)
      && (LodgingLimitExceeded in flags <==> c3) && (AirfareLimitExceeded in flags <==> c4)
      && (InvalidCategory in flags <==> c5) && (IncompleteReporting in flags <==> c6)
      && HighValueMissingJustification !in flags && HighValueMissingReceipt !in flags
      && HighValueMissingApprovalInfo !in flags
      && RouteForHigherApproval !in flags && AutoApprovedRoutine !in flags
  {
    var w1 := [] + FlagsWhen(c1, IssueOnly(i1));
    var w2 := FlagsWhen(c2, ReceiptFinding);
    var w3 := FlagsWhen(c3, Violation(i3, LodgingLimitExceeded, JustifyOrAdjustLodging));
    var w4 := FlagsWhen(c4, Violation(i4, AirfareLimitExceeded, RouteToTravelManager));
    var w5 := FlagsWhen(c5, Violation(i5, InvalidCategory, SelectValidCategory));
    var w6 := FlagsWhen(c6, IncompleteFinding);
    assert w1 == [];
    InSix(MissingReceipt, w1, w2, w3, w4, w5, w6);
    InSix(LodgingLimitExceeded, w1, w2, w3, w4, w5, w6);
    InSix(AirfareLimitExceeded, w1, w2, w3, w4, w5, w6);
    InSix(InvalidCategory, w1, w2, w3, w4, w5, w6);
    InSix(IncompleteReporting, w1, w2, w3, w4, w5, w6);
    InSix(HighValueMissingJustification, w1, w2, w3, w4, w5, w6);
    InSix(HighValueMissingReceipt, w1, w2, w3, w4, w5, w6);
    InSix(HighValueMissingApprovalInfo, w1, w2, w3, w4, w5, w6);
    InSix(RouteForHigherApproval, w1, w2, w3, w4, w5, w6);
    InSix(AutoApprovedRoutine, w1, w2, w3, w4, w5, w6);
  }

  /** The flags the high-value and routine rules add: each exactly when its rule fires, and none of the standard ones. */
  lemma LateFlags(flags: seq<Flag>, c7: bool, c8: bool, c9: bool, c10: bool, c11: bool)
    ensures var all := flags + FlagsWhen(c7, NoJustificationFinding) + FlagsWhen(c8, NoReceiptsFinding)
        + FlagsWhen(c9, NoApprovalFinding) + FlagsWhen(c10, RouteFinding) + FlagsWhen(c11, AutoFinding);
      && (MissingReceipt in all <==> MissingReceipt in flags)
      && (LodgingLimitExceeded in all <==> LodgingLimitExceeded in flags)
      && (AirfareLimitExceeded in all <==> AirfareLimitExceeded in flags)
      && (InvalidCategory in all <==> InvalidCategory in flags)
      && (IncompleteReporting in all <==> IncompleteReporting in flags)
      && (HighValueMissingJustification in all <==> HighValueMissingJustification in flags || c7)
      && (HighValueMissingReceipt in all <==> HighValueMissingReceipt in flags || c8)
      && (HighValueMissingApprovalInfo in all <==> HighValueMissingApprovalInfo in flags || c9)
      && (RouteForHigherApproval in all <==> RouteForHigherApproval in flags || c10)
      && (AutoApprovedRoutine in all <==> AutoApprovedRoutine in flags || c11)
  {
    var w7, w8, w9 := FlagsWhen(c7, NoJustificationFinding), FlagsWhen(c8, NoReceiptsFinding), FlagsWhen(c9, NoApprovalFinding);
    var w10, w11 := FlagsWhen(c10, RouteFinding), FlagsWhen(c11, AutoFinding);
    InSix(MissingReceipt, flags, w7, w8, w9, w10, w11);
    InSix(LodgingLimitExceeded, flags, w7, w8, w9, w10, w11);
    InSix(AirfareLimitExceeded, flags, w7, w8, w9, w10, w11);
    InSix(InvalidCategory, flags, w7, w8, w9, w10, w11);
    InSix(IncompleteReporting, flags, w7, w8, w9, w10, w11);
    InSix(HighValueMissingJustification, flags, w7, w8, w9, w10, w11);
    InSix(HighValueMissingReceipt, flags, w7, w8, w9, w10, w11);
    InSix(HighValueMissingApprovalInfo, flags, w7, w8, w9, w10, w11);
    InSix(RouteForHigherApproval, flags, w7, w8, w9, w10, w11);
    InSix(AutoApprovedRoutine, flags, w7, w8, w9, w10, w11);
  }

  // ---------------------------------------------------------------- status and result

  /**
   * The status precedence: auto-approval first, then routing to higher approval
   * (routing flag or a limit exceeded), then correction (missing receipt,
   * incomplete reporting, invalid category), then plain approval.
   */
  function StatusOf(flags: seq<Flag>, autoApproved: bool): Status {
    if autoApproved then AutoApproved
    else if RouteForHigherApproval in flags || LodgingLimitExceeded in flags || AirfareLimitExceeded in flags then
      RequiresHigherApproval
    else if MissingReceipt in flags || IncompleteReporting in flags || InvalidCategory in flags then
      NeedsCorrection
    else Approved
  }

  /** The outcome of validating one claim. */
  datatype ValidationResult = ValidationResult(
    status: Status,
    totalAmount: Option<real>,
    category: string,
    issues: seq<Issue>,
    flags: seq<Flag>,
    suggestedActions: seq<Action>,
    autoApproved: bool,
    rawExpense: Expense)

  /** The result the agent returns for a claim. */
  function Evaluate(env: Env): ValidationResult {
    var fs := Findings(env);
    ValidationResult(
      StatusOf(FlagsOf(fs), AutoRule(env)),
      Amount(env),
      Category(env),
      IssuesOf(fs),
      FlagsOf(fs),
      ActionsOf(fs),
      AutoRule(env),
      SelectedExpense(env))
  }

  /** The source raises on `.strip()` when a high-value claim's chosen justification is truthy but not text. */
  predicate JustificationReadable(env: Env) {
    HighValue(env) ==> JustificationSource(env).Str?
  }

  /** The result as the dictionary handed to the audit log. */
  function ToJson(r: ValidationResult): map<string, Value> {
    map[
      "success" := Bool(true),
      "status" := Str(r.status.Name()),
      "total_amount" := (match r.totalAmount case Some(x) => Num(x) case None => Null),
      "category" := Str(r.category),
      "issues" := List(seq(|r.issues|, i requires 0 <= i < |r.issues| => Str(r.issues[i].Message()))),
      "flags" := List(seq(|r.flags|, i requires 0 <= i < |r.flags| => Str(r.flags[i].Name()))),
      "suggested_actions" := List(seq(|r.suggestedActions|, i requires 0 <= i < |r.suggestedActions| =>
        Str(r.suggestedActions[i].Message()))),
      "auto_approved" := Bool(r.autoApproved),
      "raw_expense" := r.rawExpense.ToValue()
    ]
  }

  // ---------------------------------------------------------------- any(f.startswith(p) for f in flags)

  /** Some flag's name starts with `prefix`. */
  function AnyStartsWith(flags: seq<Flag>, prefix: string): (r: bool)
    ensures r <==> exists i :: 0 <= i < |flags| && Text.StartsWith(flags[i].Name(), prefix)
  {
    if flags == [] then false
    else Text.StartsWith(flags[0].Name(), prefix) || AnyStartsWith(flags[1..], prefix)
  }

  /** Only the three high-value flags have names starting with `high_value_`. */
  lemma HighValuePrefix(f: Flag)
    ensures Text.StartsWith(f.Name(), "high_value_") <==> f.IsHighValue()
  {
    var n := f.Name();
    if !f.IsHighValue() { assert n[0] != 'h'; }
  }

  /** Only `lodging_limit_exceeded` starts with `lodging_limit_exceeded`. */
  lemma LodgingPrefix(f: Flag)
    ensures Text.StartsWith(f.Name(), "lodging_limit_exceeded") <==> f == LodgingLimitExceeded
  {
    var n := f.Name();
    if f != LodgingLimitExceeded { assert n[0] != 'l'; }
  }

  /** Only `airfare_limit_exceeded` starts with `airfare_limit_exceeded`. */
  lemma AirfarePrefix(f: Flag)
    ensures Text.StartsWith(f.Name(), "airfare_limit_exceeded") <==> f == AirfareLimitExceeded
  {
    var n := f.Name();
    if f != AirfareLimitExceeded { assert n[0] != 'a' || n[1] != 'i'; }
  }

  /** A flag list holds a high-value flag exactly when it holds one of the three by name. */
  lemma HighValueIn(flags: seq<Flag>)
    ensures (exists i :: 0 <= i < |flags| && flags[i].IsHighValue())
        <==> HighValueMissingJustification in flags || HighValueMissingReceipt in flags || HighValueMissingApprovalInfo in flags
  {
  }

  /** What the engine's three `startswith` scans over the flag list find. */
  lemma PrefixScans(flags: seq<Flag>)
    ensures AnyStartsWith(flags, "high_value_") <==> exists i :: 0 <= i < |flags| && flags[i].IsHighValue()
    ensures AnyStartsWith(flags, "lodging_limit_exceeded") <==> LodgingLimitExceeded in flags
    ensures AnyStartsWith(flags, "airfare_limit_exceeded") <==> AirfareLimitExceeded in flags
  {
    forall i | 0 <= i < |flags|
      ensures Text.StartsWith(flags[i].Name(), "high_value_") <==> flags[i].IsHighValue()
    {
      HighValuePrefix(flags[i]);
    }
    forall i | 0 <= i < |flags|
      ensures Text.StartsWith(flags[i].Name(), "lodging_limit_exceeded") <==> flags[i] == LodgingLimitExceeded
    {
      LodgingPrefix(flags[i]);
    }
    forall i | 0 <= i < |flags|
      ensures Text.StartsWith(flags[i].Name(), "airfare_limit_exceeded") <==> flags[i] == AirfareLimitExceeded
    {
      AirfarePrefix(flags[i]);
    }
  }
}
