/**
 * The validation agent as the source runs it: the policy is merged, the amount
 * and category are normalised, each rule in turn appends to the issue, flag and
 * action lists, and the status is resolved from the flags. Every step is proved
 * against the rules' specification: the lists built are always the projections
 * of the findings recorded so far, and those are the findings `Rules.Findings`
 * names.
 */
module Engine {
  import opened Wrappers
  import opened Values
  import Text
  import Policy
  import opened Claims
  import opened Rules
  import Audit

  /** The values the agent computes before running any rule. */
  datatype Prepared = Prepared(
    expense: Expense,
    policy: map<string, real>,
    totalAmount: Option<real>,
    category: string,
    receiptsPresent: bool)
  {
    /** These are the values the claim `env` yields. */
    predicate For(env: Env) {
      expense == SelectedExpense(env) && policy == Policy.Merge(env.policyOverrides)
      && totalAmount == Amount(env) && category == Category(env) && receiptsPresent == ReceiptsPresent(env)
    }
  }

  /** Normalises the claim and merges the policy. */
  method Prepare(env: Env) returns (p: Prepared)
    ensures p.For(env)
    ensures p.policy.Keys == Policy.Defaults.Keys + env.policyOverrides.Keys
  {
    var expense := SelectedExpense(env);
    var attachments := Attachments(env);
    var policy := Policy.Merge(env.policyOverrides);
    var totalAmount := ToAmount(Or(Get(expense.totalAmount), Get(env.claimedAmount)));
    var rawCategory := Or(Or(Get(expense.expenseCategory), Get(env.expenseCategory)), Str("other"));
    var category := if rawCategory.Str? then Text.Lower(rawCategory.s) else "other";
    p := Prepared(expense, policy, totalAmount, category, |attachments| > 0);
  }

  /** Appends one finding's issue, flag and action to the lists when `c` holds. */
  method ReportIf(c: bool, issues: seq<Issue>, flags: seq<Flag>, actions: seq<Action>, f: Finding)
    returns (issues': seq<Issue>, flags': seq<Flag>, actions': seq<Action>)
    ensures issues' == issues + IssuesWhen(c, f)
    ensures flags' == flags + FlagsWhen(c, f)
    ensures actions' == actions + ActionsWhen(c, f)
  {
    issues', flags', actions' := issues, flags, actions;
    if c {
      issues' := issues + f.Issues();
      flags' := flags + f.Flags();
      actions' := actions + f.Actions();
    }
  }

  /** Required fields: names the falsy ones in an issue, with no flag. */
  method CheckRequired(env: Env, p: Prepared, issues: seq<Issue>, flags: seq<Flag>, actions: seq<Action>)
    returns (issues': seq<Issue>, flags': seq<Flag>, actions': seq<Action>)
    requires p.For(env)
    ensures issues' == issues + IssuesWhen(RequiredRule(env), RequiredFinding(env))
    ensures flags' == flags + FlagsWhen(RequiredRule(env), RequiredFinding(env))
    ensures actions' == actions + ActionsWhen(RequiredRule(env), RequiredFinding(env))
  {
    var missing := MissingRequired(p.expense);
    issues', flags', actions' := ReportIf(|missing| > 0, issues, flags, actions, IssueOnly(MissingFields(missing)));
  }

  /** Receipts are required for any positive amount. */
  method CheckReceipt(env: Env, p: Prepared, issues: seq<Issue>, flags: seq<Flag>, actions: seq<Action>)
    returns (issues': seq<Issue>, flags': seq<Flag>, actions': seq<Action>)
    requires p.For(env)
    ensures issues' == issues + IssuesWhen(ReceiptRule(env), ReceiptFinding)
    ensures flags' == flags + FlagsWhen(ReceiptRule(env), ReceiptFinding)
    ensures actions' == actions + ActionsWhen(ReceiptRule(env), ReceiptFinding)
  {
    issues', flags', actions' := ReportIf(p.totalAmount.Some? && p.totalAmount.value > 0.0 && !p.receiptsPresent,
      issues, flags, actions, Violation(NoReceipt, MissingReceipt, AttachReceipt));
  }

  /** Lodging: the per-night limit, enforced only when a nights value is given. */
  method CheckLodging(env: Env, p: Prepared, issues: seq<Issue>, flags: seq<Flag>, actions: seq<Action>)
    returns (issues': seq<Issue>, flags': seq<Flag>, actions': seq<Action>)
    requires p.For(env)
    ensures issues' == issues + IssuesWhen(LodgingRule(env), LodgingFinding(env))
    ensures flags' == flags + FlagsWhen(LodgingRule(env), LodgingFinding(env))
    ensures actions' == actions + ActionsWhen(LodgingRule(env), LodgingFinding(env))
  {
    issues', flags', actions' := issues, flags, actions;
    if p.category == "lodging" {
      var nightsProvided := Null;
      if env.nights.Some? {
        nightsProvided := env.nights.value;
      } else if p.expense.nights.Some? {
        nightsProvided := p.expense.nights.value;
      }
      if nightsProvided != Null {
        var nights := 1;
        if Truthy(nightsProvided) {
          match ToInt(nightsProvided) {
            case Some(n) => nights := n;
            case None => nights := 1;
          }
        }
        nights := if nights < 1 then 1 else nights;
        assert nights == NightCount(NightsProvided(env));
        if p.totalAmount.Some? {
          var perNight := p.totalAmount.value / nights as real;
          var limit := p.policy[Policy.LodgingLimitKey];
          assert limit == Limits(env).lodgingLimitPerNight;
          issues', flags', actions' := ReportIf(perNight > limit, issues, flags, actions,
            Violation(LodgingOverLimit(perNight, limit), LodgingLimitExceeded, JustifyOrAdjustLodging));
        }
      }
    }
  }

  /** Airfare, travel and transportation: the airfare limit. */
  method CheckTravel(env: Env, p: Prepared, issues: seq<Issue>, flags: seq<Flag>, actions: seq<Action>)
    returns (issues': seq<Issue>, flags': seq<Flag>, actions': seq<Action>)
    requires p.For(env)
    ensures issues' == issues + IssuesWhen(TravelRule(env), TravelFinding(env))
    ensures flags' == flags + FlagsWhen(TravelRule(env), TravelFinding(env))
    ensures actions' == actions + ActionsWhen(TravelRule(env), TravelFinding(env))
  {
    issues', flags', actions' := issues, flags, actions;
    if p.category in {"airfare", "travel", "transportation"} {
      var limit := p.policy[Policy.AirfareLimitKey];
      assert limit == Limits(env).airfareLimit;
      if p.totalAmount.Some? {
        issues', flags', actions' := ReportIf(p.totalAmount.value > limit, issues, flags, actions,
          Violation(TravelOverLimit(p.totalAmount.value, limit), AirfareLimitExceeded, RouteToTravelManager));
      }
    }
  }

  /** The category must be one of the seven valid ones. */
  method CheckCategory(env: Env, p: Prepared, issues: seq<Issue>, flags: seq<Flag>, actions: seq<Action>)
    returns (issues': seq<Issue>, flags': seq<Flag>, actions': seq<Action>)
    requires p.For(env)
    ensures issues' == issues + IssuesWhen(CategoryRule(env), CategoryFinding(env))
    ensures flags' == flags + FlagsWhen(CategoryRule(env), CategoryFinding(env))
    ensures actions' == actions + ActionsWhen(CategoryRule(env), CategoryFinding(env))
  {
    var valid := {"meals", "travel", "supplies", "entertainment", "lodging", "transportation", "other"};
    issues', flags', actions' := ReportIf(p.category !in valid, issues, flags, actions,
      Violation(UnknownCategory(p.category), InvalidCategory, SelectValidCategory));
  }

  /** Incomplete reporting: the record's own date or total amount is falsy. */
  method CheckIncomplete(env: Env, p: Prepared, issues: seq<Issue>, flags: seq<Flag>, actions: seq<Action>)
    returns (issues': seq<Issue>, flags': seq<Flag>, actions': seq<Action>)
    requires p.For(env)
    ensures issues' == issues + IssuesWhen(IncompleteRule(env), IncompleteFinding)
    ensures flags' == flags + FlagsWhen(IncompleteRule(env), IncompleteFinding)
    ensures actions' == actions + ActionsWhen(IncompleteRule(env), IncompleteFinding)
  {
    issues', flags', actions' := ReportIf(!Truthy(Get(p.expense.date)) || !Truthy(Get(p.expense.totalAmount)),
      issues, flags, actions, Violation(DateOrAmountMissing, IncompleteReporting, ProvideDateAndAmount));
  }

  /** `any(f.startswith("high_value_") or f == "high_value_missing_receipt" for f in flags)`. */
  method NeedsRouting(flags: seq<Flag>) returns (route: bool)
    ensures route <==> HighValueMissingJustification in flags || HighValueMissingReceipt in flags
                       || HighValueMissingApprovalInfo in flags
  {
    PrefixScans(flags);
    HighValueIn(flags);
    route := AnyStartsWith(flags, "high_value_") || HighValueMissingReceipt in flags;
  }

  /**
   * The justification (stripped), cost center and approver of a high-value
   * claim, each taken from the context first and the record second.
   */
  method HighValueInputs(env: Env, p: Prepared) returns (justification: string, costCenter: Value, approver: Value)
    requires p.For(env) && JustificationReadable(env) && HighValue(env)
    ensures justification == [] <==> !HasJustification(env)
    ensures Truthy(Or(costCenter, approver)) <==> HasApprovalInfo(env)
  {
    var source := Or(Or(Get(env.justification), Get(p.expense.justification)), Str(""));
    justification := Text.Strip(source.s);
    costCenter := Or(Get(env.costCenter), Get(p.expense.costCenter));
    approver := Or(Get(env.approver), Get(p.expense.approver));
  }

  /** The three requirements on a high-value claim: a justification, receipts, a cost center or approver. */
  method HighValueRequirements(env: Env, p: Prepared, issues: seq<Issue>, flags: seq<Flag>, actions: seq<Action>)
    returns (issues': seq<Issue>, flags': seq<Flag>, actions': seq<Action>)
    requires p.For(env) && HighValue(env) && JustificationReadable(env)
    ensures issues' == issues + IssuesWhen(NoJustificationRule(env), NoJustificationFinding)
      + IssuesWhen(NoReceiptsRule(env), NoReceiptsFinding) + IssuesWhen(NoApprovalRule(env), NoApprovalFinding)
    ensures flags' == flags + FlagsWhen(NoJustificationRule(env), NoJustificationFinding)
      + FlagsWhen(NoReceiptsRule(env), NoReceiptsFinding) + FlagsWhen(NoApprovalRule(env), NoApprovalFinding)
    ensures actions' == actions + ActionsWhen(NoJustificationRule(env), NoJustificationFinding)
      + ActionsWhen(NoReceiptsRule(env), NoReceiptsFinding) + ActionsWhen(NoApprovalRule(env), NoApprovalFinding)
  {
    var justification, costCenter, approver := HighValueInputs(env, p);
    issues', flags', actions' := ReportIf(justification == [], issues, flags, actions,
      Violation(NoJustification, HighValueMissingJustification, AddJustification));
    issues', flags', actions' := ReportIf(!p.receiptsPresent, issues', flags', actions',
      Violation(NoReceipts, HighValueMissingReceipt, AttachSupportingDocuments));
    issues', flags', actions' := ReportIf(!Truthy(Or(costCenter, approver)), issues', flags', actions',
      Violation(NoApprovalInfo, HighValueMissingApprovalInfo, ProvideCostCenterOrApprover));
  }

  /** Over flags with no high-value one, the three requirements leave a high-value flag exactly when one of them fails. */
  lemma HighValueFlagsFound(flags: seq<Flag>, j: bool, r: bool, a: bool)
    requires HighValueMissingJustification !in flags && HighValueMissingReceipt !in flags
    requires HighValueMissingApprovalInfo !in flags
    ensures var all := flags + FlagsWhen(j, NoJustificationFinding) + FlagsWhen(r, NoReceiptsFinding)
        + FlagsWhen(a, NoApprovalFinding);
      (HighValueMissingJustification in all || HighValueMissingReceipt in all || HighValueMissingApprovalInfo in all)
      <==> j || r || a
  {
  }

  /** A high-value claim: the three requirements, then routing if any of them is missing. */
  method HighValueReview(env: Env, p: Prepared, issues: seq<Issue>, flags: seq<Flag>, actions: seq<Action>)
    returns (issues': seq<Issue>, flags': seq<Flag>, actions': seq<Action>)
    requires p.For(env) && HighValue(env) && JustificationReadable(env)
    requires HighValueMissingJustification !in flags && HighValueMissingReceipt !in flags
    requires HighValueMissingApprovalInfo !in flags
    ensures issues' == issues + IssuesWhen(NoJustificationRule(env), NoJustificationFinding)
      + IssuesWhen(NoReceiptsRule(env), NoReceiptsFinding) + IssuesWhen(NoApprovalRule(env), NoApprovalFinding)
      + IssuesWhen(RouteRule(env), RouteFinding)
    ensures flags' == flags + FlagsWhen(NoJustificationRule(env), NoJustificationFinding)
      + FlagsWhen(NoReceiptsRule(env), NoReceiptsFinding) + FlagsWhen(NoApprovalRule(env), NoApprovalFinding)
      + FlagsWhen(RouteRule(env), RouteFinding)
    ensures actions' == actions + ActionsWhen(NoJustificationRule(env), NoJustificationFinding)
      + ActionsWhen(NoReceiptsRule(env), NoReceiptsFinding) + ActionsWhen(NoApprovalRule(env), NoApprovalFinding)
      + ActionsWhen(RouteRule(env), RouteFinding)
    ensures LodgingLimitExceeded in flags' <==> LodgingLimitExceeded in flags
    ensures AirfareLimitExceeded in flags' <==> AirfareLimitExceeded in flags
    ensures InvalidCategory in flags' <==> InvalidCategory in flags
  {
    issues', flags', actions' := HighValueRequirements(env, p, issues, flags, actions);
    var route := NeedsRouting(flags');
    HighValueFlagsFound(flags, NoJustificationRule(env), NoReceiptsRule(env), NoApprovalRule(env));
    assert route == RouteRule(env);
    issues', flags', actions' := ReportIf(route, issues', flags', actions', FlagOnly(RouteForHigherApproval));
    HighValueFlagsKeep(flags, NoJustificationRule(env), NoReceiptsRule(env), NoApprovalRule(env), RouteRule(env));
  }

  /** High-value claims are those at or above the threshold; the rest pass this stage untouched. */
  method CheckHighValue(env: Env, p: Prepared, issues: seq<Issue>, flags: seq<Flag>, actions: seq<Action>)
    returns (issues': seq<Issue>, flags': seq<Flag>, actions': seq<Action>)
    requires p.For(env) && JustificationReadable(env)
    requires HighValueMissingJustification !in flags && HighValueMissingReceipt !in flags
    requires HighValueMissingApprovalInfo !in flags
    ensures issues' == issues + IssuesWhen(NoJustificationRule(env), NoJustificationFinding)
      + IssuesWhen(NoReceiptsRule(env), NoReceiptsFinding) + IssuesWhen(NoApprovalRule(env), NoApprovalFinding)
      + IssuesWhen(RouteRule(env), RouteFinding)
    ensures flags' == flags + FlagsWhen(NoJustificationRule(env), NoJustificationFinding)
      + FlagsWhen(NoReceiptsRule(env), NoReceiptsFinding) + FlagsWhen(NoApprovalRule(env), NoApprovalFinding)
      + FlagsWhen(RouteRule(env), RouteFinding)
    ensures actions' == actions + ActionsWhen(NoJustificationRule(env), NoJustificationFinding)
      + ActionsWhen(NoReceiptsRule(env), NoReceiptsFinding) + ActionsWhen(NoApprovalRule(env), NoApprovalFinding)
      + ActionsWhen(RouteRule(env), RouteFinding)
    ensures LodgingLimitExceeded in flags' <==> LodgingLimitExceeded in flags
    ensures AirfareLimitExceeded in flags' <==> AirfareLimitExceeded in flags
    ensures InvalidCategory in flags' <==> InvalidCategory in flags
  {
    var threshold := p.policy[Policy.HighValueKey];
    assert threshold == Limits(env).highValueThreshold;
    if p.totalAmount.Some? && p.totalAmount.value >= threshold {
      issues', flags', actions' := HighValueReview(env, p, issues, flags, actions);
    } else {
      issues', flags', actions' := issues, flags, actions;
      assert issues' == issues + [] + [] + [] + [];
      assert flags' == flags + [] + [] + [] + [];
      assert actions' == actions + [] + [] + [] + [];
    }
  }

  /**
   * Routine claims are approved automatically: at most the routine threshold,
   * with receipts, no limit or category violation so far, in a lodging, travel
   * or transportation category.
   */
  method CheckRoutine(env: Env, p: Prepared, issues: seq<Issue>, flags: seq<Flag>, actions: seq<Action>)
    returns (autoApproved: bool, issues': seq<Issue>, flags': seq<Flag>, actions': seq<Action>)
    requires p.For(env)
    requires (LodgingLimitExceeded in flags || AirfareLimitExceeded in flags || InvalidCategory in flags)
         <==> (LodgingRule(env) || TravelRule(env) || CategoryRule(env))
    ensures autoApproved == AutoRule(env)
    ensures issues' == issues + IssuesWhen(AutoRule(env), AutoFinding)
    ensures flags' == flags + FlagsWhen(AutoRule(env), AutoFinding)
    ensures actions' == actions + ActionsWhen(AutoRule(env), AutoFinding)
  {
    autoApproved := false;
    var threshold := p.policy[Policy.RoutineKey];
    assert threshold == Limits(env).routineThreshold;
    if p.totalAmount.Some? && p.totalAmount.value <= threshold {
      if p.receiptsPresent && !(LodgingLimitExceeded in flags || AirfareLimitExceeded in flags || InvalidCategory in flags) {
        if p.category in {"lodging", "travel", "transportation"} {
          autoApproved := true;
        }
      }
    }
    issues', flags', actions' := ReportIf(autoApproved, issues, flags, actions, FlagOnly(AutoApprovedRoutine));
  }

  /** The status: first match wins, scanning the flags by name prefix as the source does. */
  method ResolveStatus(flags: seq<Flag>, autoApproved: bool) returns (status: Status)
    ensures status == StatusOf(flags, autoApproved)
  {
    PrefixScans(flags);
    if autoApproved {
      status := AutoApproved;
    } else if RouteForHigherApproval in flags
           || AnyStartsWith(flags, "lodging_limit_exceeded") || AnyStartsWith(flags, "airfare_limit_exceeded") {
      status := RequiresHigherApproval;
    } else if MissingReceipt in flags || IncompleteReporting in flags || InvalidCategory in flags {
      status := NeedsCorrection;
    } else {
      status := Approved;
    }
  }

  /** The high-value stage adds none of the limit and category flags. */
  lemma HighValueFlagsKeep(flags: seq<Flag>, j: bool, r: bool, a: bool, route: bool)
    ensures var all := flags + FlagsWhen(j, NoJustificationFinding) + FlagsWhen(r, NoReceiptsFinding)
        + FlagsWhen(a, NoApprovalFinding) + FlagsWhen(route, RouteFinding);
      && (LodgingLimitExceeded in all <==> LodgingLimitExceeded in flags)
      && (AirfareLimitExceeded in all <==> AirfareLimitExceeded in flags)
      && (InvalidCategory in all <==> InvalidCategory in flags)
  {
  }

  /** The six standard rules, in order, from empty lists. */
  method StandardReview(env: Env, p: Prepared) returns (issues: seq<Issue>, flags: seq<Flag>, actions: seq<Action>)
    requires p.For(env)
    ensures issues == [] + IssuesWhen(RequiredRule(env), RequiredFinding(env)) + IssuesWhen(ReceiptRule(env), ReceiptFinding)
      + IssuesWhen(LodgingRule(env), LodgingFinding(env)) + IssuesWhen(TravelRule(env), TravelFinding(env))
      + IssuesWhen(CategoryRule(env), CategoryFinding(env)) + IssuesWhen(IncompleteRule(env), IncompleteFinding)
    ensures flags == [] + FlagsWhen(RequiredRule(env), RequiredFinding(env)) + FlagsWhen(ReceiptRule(env), ReceiptFinding)
      + FlagsWhen(LodgingRule(env), LodgingFinding(env)) + FlagsWhen(TravelRule(env), TravelFinding(env))
      + FlagsWhen(CategoryRule(env), CategoryFinding(env)) + FlagsWhen(IncompleteRule(env), IncompleteFinding)
    ensures actions == [] + ActionsWhen(RequiredRule(env), RequiredFinding(env)) + ActionsWhen(ReceiptRule(env), ReceiptFinding)
      + ActionsWhen(LodgingRule(env), LodgingFinding(env)) + ActionsWhen(TravelRule(env), TravelFinding(env))
      + ActionsWhen(CategoryRule(env), CategoryFinding(env)) + ActionsWhen(IncompleteRule(env), IncompleteFinding)
    ensures HighValueMissingJustification !in flags && HighValueMissingReceipt !in flags
    ensures HighValueMissingApprovalInfo !in flags
    ensures LodgingLimitExceeded in flags <==> LodgingRule(env)
    ensures AirfareLimitExceeded in flags <==> TravelRule(env)
    ensures InvalidCategory in flags <==> CategoryRule(env)
  {
    issues, flags, actions := [], [], [];
    issues, flags, actions := CheckRequired(env, p, issues, flags, actions);
    issues, flags, actions := CheckReceipt(env, p, issues, flags, actions);
    issues, flags, actions := CheckLodging(env, p, issues, flags, actions);
    issues, flags, actions := CheckTravel(env, p, issues, flags, actions);
    issues, flags, actions := CheckCategory(env, p, issues, flags, actions);
    issues, flags, actions := CheckIncomplete(env, p, issues, flags, actions);
    EarlyFlags(RequiredRule(env), ReceiptRule(env), LodgingRule(env), TravelRule(env), CategoryRule(env),
      IncompleteRule(env), MissingFields(MissingRequired(SelectedExpense(env))),
      LodgingFinding(env).issue, TravelFinding(env).issue, CategoryFinding(env).issue);
  }

  /** Validates one claim; the result is the one the rules specify. */
  method Validate(env: Env) returns (r: ValidationResult)
    requires JustificationReadable(env)
    ensures r == Evaluate(env)
  {
    var p := Prepare(env);
    var issues, flags, actions := StandardReview(env, p);
    issues, flags, actions := CheckHighValue(env, p, issues, flags, actions);
    var autoApproved;
    autoApproved, issues, flags, actions := CheckRoutine(env, p, issues, flags, actions);
    FindingsInOrder(env);
    var status := ResolveStatus(flags, autoApproved);
    r := ValidationResult(status, p.totalAmount, p.category, issues, flags, actions, autoApproved, p.expense);
  }

  /** The agent name the validation result is logged under. */
  const AgentName := "Validation Agent"

  /**
   * The validation agent: validates the claim and records the result in the
   * audit log under the claim's user. A failed write is ignored; the result is
   * the same either way.
   */
  method ValidationAgent(env: Env, log: Audit.AuditLog, now: string, writable: bool) returns (r: ValidationResult)
    requires JustificationReadable(env)
    modifies log
    ensures r == Evaluate(env)
    ensures writable ==> log.Entries() == old(log.Entries()) + [Audit.EntryFor(AgentName, ToJson(r), UserId(env), None, now)]
    ensures !writable ==> log.file == old(log.file)
  {
    r := Validate(env);
    var userId := if env.userId.Some? then env.userId.value
      else if r.rawExpense.userId.Some? then r.rawExpense.userId.value
      else Str("unknown");
    var _ := log.Save(AgentName, ToJson(r), userId, None, now, writable);
  }

  /** The keys of the result dictionary. */
  const ResultKeys: set<string> :=
    {"success", "status", "total_amount", "category", "issues", "flags", "suggested_actions", "auto_approved", "raw_expense"}

  /** The result dictionary has exactly the result keys, with success true and the status by name. */
  lemma ToJsonShape(r: ValidationResult)
    ensures ToJson(r).Keys == ResultKeys
    ensures ToJson(r)["success"] == Bool(true) && ToJson(r)["status"] == Str(r.status.Name())
  {
  }

  /** The entry built from any dictionary with the result keys and success true. */
  lemma EntryOfResultShape(m: map<string, Value>, userId: Value, now: string)
    requires m.Keys == ResultKeys && m["success"] == Bool(true)
    ensures var e := Audit.EntryFor(AgentName, m, userId, None, now);
      && e.data == Dict(m) && e.success == Bool(true) && e.error == Null && e.notes == List([]) && e.metadata == map[]
  {
    assert "extracted_data" !in m && "data" !in m && "error" !in m && "processing_notes" !in m;
  }

  /**
   * A logged validation result keeps the whole result as the entry's data, so
   * its status reads back from `data["status"]`.
   */
  lemma LoggedResult(r: ValidationResult, userId: Value, now: string)
    ensures var e := Audit.EntryFor(AgentName, ToJson(r), userId, None, now);
      e.data == Dict(ToJson(r)) && e.data.fields["status"] == Str(r.status.Name())
  {
    ToJsonShape(r);
    EntryOfResultShape(ToJson(r), userId, now);
  }

  /** The entry of a validation result records success, no error and no notes. */
  lemma LoggedOutcome(r: ValidationResult, userId: Value, now: string)
    ensures var e := Audit.EntryFor(AgentName, ToJson(r), userId, None, now);
      e.success == Bool(true) && e.error == Null && e.notes == List([]) && e.metadata == map[]
  {
    ToJsonShape(r);
    EntryOfResultShape(ToJson(r), userId, now);
  }
}
