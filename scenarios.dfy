/**
 * The five claims of the repository's validation script and the outcome it
 * expects for each: the expected status, and the expected flags as members of
 * the returned flag list.
 */
module Scenarios {
  import opened Wrappers
  import opened Values
  import Text
  import Policy
  import opened Claims
  import opened Rules
  import Properties

  /** An optional text field of a record. */
  function TextField(s: Option<string>): Option<Value> {
    match s
    case None => None
    case Some(t) => Some(Str(t))
  }

  /** An optional integer field of a record. */
  function IntField(n: Option<int>): Option<Value> {
    match n
    case None => None
    case Some(i) => Some(Int(i))
  }

  /** A context holding one expense record, its attachments, and nothing else. */
  function ClaimOf(vendor: string, date: Option<string>, amount: Option<int>, category: string,
                   nights: Option<int>, attachments: seq<Value>): Env
  {
    var e := Expense(TextField(date), Some(Str(vendor)), IntField(amount), Some(Str(category)), IntField(nights),
                     None, None, None, None, map[]);
    Env(Some(e), None, attachments, [], map[], None, None, None, None, None, None, None)
  }

  /** What such a context normalises to, for a category already in lower case. */
  lemma ClaimFacts(vendor: string, date: Option<string>, amount: Option<int>, category: string,
                   nights: Option<int>, attachments: seq<Value>)
    requires vendor != "" && category != ""
    requires forall i :: 0 <= i < |category| ==> !Text.IsUpper(category[i])
    ensures var env := ClaimOf(vendor, date, amount, category, nights, attachments);
      && SelectedExpense(env) == env.expense.value
      && Category(env) == category
      && Amount(env) == (if amount.Some? && amount.value != 0 then Some(amount.value as real) else None)
      && NightsProvided(env) == (if nights.Some? then Int(nights.value) else Null)
      && Limits(env) == Policy.Limits(200.0, 1500.0, 1000.0, 500.0, 0.01)
      && (ReceiptsPresent(env) <==> attachments != [])
  {
    var env := ClaimOf(vendor, date, amount, category, nights, attachments);
    assert !env.expense.value.IsEmpty();
    Text.LowerOfLower(category);
    Policy.DefaultLimits();
  }

  const Receipt: seq<Value> := [Str("receipt.jpg")]

  /** A 300 lodging claim with a receipt. */
  const RoutineLodging := ClaimOf("Hotel Simple", Some("2025-12-01"), Some(300), "lodging", None, Receipt)

  /** It is auto-approved, with the routine flag. */
  lemma RoutineLodgingAutoApproved()
    ensures Evaluate(RoutineLodging).autoApproved
    ensures Evaluate(RoutineLodging).status == AutoApproved
    ensures AutoApprovedRoutine in Evaluate(RoutineLodging).flags
  {
    ClaimFacts("Hotel Simple", Some("2025-12-01"), Some(300), "lodging", None, Receipt);
    assert AutoRule(RoutineLodging);
    Properties.ReviewFlagTriggers(RoutineLodging);
  }

  /** A meals claim without a date or an amount. */
  const IncompleteMeals := ClaimOf("Vendor X", None, None, "meals", None, Receipt)

  /** It needs correction, flagged as incomplete reporting. */
  lemma IncompleteMealsNeedsCorrection()
    ensures IncompleteReporting in Evaluate(IncompleteMeals).flags
    ensures Evaluate(IncompleteMeals).status == NeedsCorrection
  {
    ClaimFacts("Vendor X", None, None, "meals", None, Receipt);
    assert IncompleteRule(IncompleteMeals) && !HighValue(IncompleteMeals) && !AutoRule(IncompleteMeals);
    assert !LodgingRule(IncompleteMeals) && !TravelRule(IncompleteMeals);
    Properties.StatusByRules(IncompleteMeals);
    Properties.StandardFlagTriggers(IncompleteMeals);
  }

  /** A 2500 claim in category `other` with no attachments. */
  const HighValueOther := ClaimOf("Consulting Co", Some("2025-12-01"), Some(2500), "other", None, [])

  /** It is flagged for its missing receipts and routed for higher approval. */
  lemma HighValueOtherRouted()
    ensures RouteForHigherApproval in Evaluate(HighValueOther).flags
    ensures HighValueMissingReceipt in Evaluate(HighValueOther).flags
    ensures Evaluate(HighValueOther).status == RequiresHigherApproval
  {
    ClaimFacts("Consulting Co", Some("2025-12-01"), Some(2500), "other", None, []);
    assert NoReceiptsRule(HighValueOther) && !AutoRule(HighValueOther);
    Properties.StatusByRules(HighValueOther);
    Properties.ReviewFlagTriggers(HighValueOther);
  }

  /** A 900 lodging claim for three nights, with a receipt. */
  const LuxuryLodging := ClaimOf("Hotel Lux", Some("2025-12-01"), Some(900), "lodging", Some(3), Receipt)

  /** At 300 a night it exceeds the 200 limit and needs higher approval. */
  lemma LuxuryLodgingOverLimit()
    ensures LodgingLimitExceeded in Evaluate(LuxuryLodging).flags
    ensures Evaluate(LuxuryLodging).status == RequiresHigherApproval
  {
    ClaimFacts("Hotel Lux", Some("2025-12-01"), Some(900), "lodging", Some(3), Receipt);
    assert NightCount(NightsProvided(LuxuryLodging)) == 3;
    assert PerNight(LuxuryLodging) == 300.0;
    assert LodgingRule(LuxuryLodging) && !AutoRule(LuxuryLodging);
    Properties.StatusByRules(LuxuryLodging);
    Properties.StandardFlagTriggers(LuxuryLodging);
  }

  /** A 45 supplies claim with no receipt. */
  const UnreceiptedSupplies := ClaimOf("Office Supplies", Some("2025-12-02"), Some(45), "supplies", None, [])

  /** It needs correction, flagged as missing its receipt. */
  lemma UnreceiptedSuppliesNeedsCorrection()
    ensures MissingReceipt in Evaluate(UnreceiptedSupplies).flags
    ensures Evaluate(UnreceiptedSupplies).status == NeedsCorrection
  {
    ClaimFacts("Office Supplies", Some("2025-12-02"), Some(45), "supplies", None, []);
    assert ReceiptRule(UnreceiptedSupplies) && !HighValue(UnreceiptedSupplies) && !AutoRule(UnreceiptedSupplies);
    assert !LodgingRule(UnreceiptedSupplies) && !TravelRule(UnreceiptedSupplies);
    Properties.StatusByRules(UnreceiptedSupplies);
    Properties.StandardFlagTriggers(UnreceiptedSupplies);
  }

  // ---------------------------------------------------------------- the thresholds

  /** A lodging claim of exactly 200 a night for three nights, with a receipt. */
  const LodgingAtLimit := ClaimOf("Inn", Some("2025-12-03"), Some(600), "lodging", Some(3), Receipt)

  /** The per-night comparison is strict: at the limit nothing is flagged and the claim is approved. */
  lemma LodgingAtLimitApproved()
    ensures LodgingLimitExceeded !in Evaluate(LodgingAtLimit).flags
    ensures Evaluate(LodgingAtLimit).status == Approved
  {
    ClaimFacts("Inn", Some("2025-12-03"), Some(600), "lodging", Some(3), Receipt);
    assert NightCount(NightsProvided(LodgingAtLimit)) == 3;
    assert PerNight(LodgingAtLimit) == 200.0;
    assert !LodgingRule(LodgingAtLimit) && !AutoRule(LodgingAtLimit) && !RouteRule(LodgingAtLimit);
    assert !ReceiptRule(LodgingAtLimit) && !IncompleteRule(LodgingAtLimit);
    assert !TravelRule(LodgingAtLimit) && !CategoryRule(LodgingAtLimit);
    Properties.StatusByRules(LodgingAtLimit);
    Properties.StandardFlagTriggers(LodgingAtLimit);
  }

  /** A travel claim of exactly the routine threshold, with a receipt. */
  const TravelAtRoutine := ClaimOf("Rail Co", Some("2025-12-04"), Some(500), "travel", None, Receipt)

  /** The routine threshold is inclusive: the claim is auto-approved. */
  lemma TravelAtRoutineAutoApproved()
    ensures Evaluate(TravelAtRoutine).autoApproved
    ensures Evaluate(TravelAtRoutine).status == AutoApproved
  {
    ClaimFacts("Rail Co", Some("2025-12-04"), Some(500), "travel", None, Receipt);
    assert AutoRule(TravelAtRoutine);
  }

  /** A claim of exactly the high-value threshold with a receipt but no justification or approval information. */
  const OtherAtHighValue := ClaimOf("Consulting Co", Some("2025-12-05"), Some(1000), "other", None, Receipt)

  /** The high-value threshold is inclusive: the missing documents are flagged and the claim is routed. */
  lemma OtherAtHighValueRouted()
    ensures HighValueMissingJustification in Evaluate(OtherAtHighValue).flags
    ensures HighValueMissingApprovalInfo in Evaluate(OtherAtHighValue).flags
    ensures HighValueMissingReceipt !in Evaluate(OtherAtHighValue).flags
    ensures Evaluate(OtherAtHighValue).status == RequiresHigherApproval
  {
    ClaimFacts("Consulting Co", Some("2025-12-05"), Some(1000), "other", None, Receipt);
    assert !HasJustification(OtherAtHighValue) && !HasApprovalInfo(OtherAtHighValue);
    assert NoJustificationRule(OtherAtHighValue) && NoApprovalRule(OtherAtHighValue) && !NoReceiptsRule(OtherAtHighValue);
    assert !AutoRule(OtherAtHighValue);
    Properties.StatusByRules(OtherAtHighValue);
    Properties.ReviewFlagTriggers(OtherAtHighValue);
  }
}
