/**
 * The validation agent's input: the caller's context dictionary and the expense
 * record inside it, each key the engine reads modelled as an optional value
 * (`None` for an absent key, `Some(Null)` for a key present with `None`), and
 * the normalisation the engine applies before its rules run.
 */
module Claims {
  import opened Wrappers
  import opened Values
  import Text

  /** The record keys the engine reads, each a field of `Expense`. */
  const NamedKeys: set<string> :=
    {"date", "vendor_name", "total_amount", "expense_category", "nights", "justification", "cost_center", "approver", "user_id"}

  /**
   * An expense record (the extracted receipt data). `others` holds the keys the
   * engine never reads; a named key that also appears in `others` is shadowed
   * there, so the record stands for one dictionary whatever `others` holds.
   */
  datatype Expense = Expense(
    date: Option<Value>,
    vendorName: Option<Value>,
    totalAmount: Option<Value>,
    expenseCategory: Option<Value>,
    nights: Option<Value>,
    justification: Option<Value>,
    costCenter: Option<Value>,
    approver: Option<Value>,
    userId: Option<Value>,
    others: map<string, Value>)
  {
    /** The record stands for a dictionary with no keys, so Python treats it as falsy. */
    predicate IsEmpty() {
      date.None? && vendorName.None? && totalAmount.None? && expenseCategory.None? && nights.None?
      && justification.None? && costCenter.None? && approver.None? && userId.None? && others.Keys <= NamedKeys
    }

    /** The keys of `others` that the record stands for. */
    function Unread(): map<string, Value> {
      others - NamedKeys
    }

    /** The value under one of the named keys, `None` when the record lacks it. */
    function Read(key: string): Option<Value> {
      if key == "date" then date
      else if key == "vendor_name" then vendorName
      else if key == "total_amount" then totalAmount
      else if key == "expense_category" then expenseCategory
      else if key == "nights" then nights
      else if key == "justification" then justification
      else if key == "cost_center" then costCenter
      else if key == "approver" then approver
      else if key == "user_id" then userId
      else None
    }

    /** The named keys the record holds, with their values. */
    function Named(): map<string, Value> {
      map k | k in NamedKeys && Read(k).Some? :: Read(k).value
    }

    /** The record as the dictionary it stands for. */
    function ToValue(): Value {
      Dict(Unread() + Named())
    }
  }

  /** The record has a key exactly when the dictionary it stands for is non-empty. */
  lemma IsEmptyIffFalsy(e: Expense)
    ensures e.IsEmpty() <==> !Truthy(e.ToValue())
  {
    if !e.IsEmpty() {
      var m := e.ToValue().fields;
      if !(e.others.Keys <= NamedKeys) {
        var k :| k in e.others && k !in NamedKeys;
        assert k in e.Unread();
        assert k in m;
      } else if e.date.Some? { assert "date" in m; }
      else if e.vendorName.Some? { assert "vendor_name" in m; }
      else if e.totalAmount.Some? { assert "total_amount" in m; }
      else if e.expenseCategory.Some? { assert "expense_category" in m; }
      else if e.nights.Some? { assert "nights" in m; }
      else if e.justification.Some? { assert "justification" in m; }
      else if e.costCenter.Some? { assert "cost_center" in m; }
      else if e.approver.Some? { assert "approver" in m; }
      else { assert "user_id" in m; }
    }
  }

  /** The dictionary a record stands for holds a read key exactly when the record's field does, with its value. */
  lemma ToValueAgrees(e: Expense)
    ensures var m := e.ToValue().fields;
      && ("date" in m <==> e.date.Some?) && (e.date.Some? ==> m["date"] == e.date.value)
      && ("total_amount" in m <==> e.totalAmount.Some?) && (e.totalAmount.Some? ==> m["total_amount"] == e.totalAmount.value)
      && ("expense_category" in m <==> e.expenseCategory.Some?)
      && (e.expenseCategory.Some? ==> m["expense_category"] == e.expenseCategory.value)
      && ("nights" in m <==> e.nights.Some?) && (e.nights.Some? ==> m["nights"] == e.nights.value)
  {
  }

  const EmptyExpense := Expense(None, None, None, None, None, None, None, None, None, map[])

  /**
   * The context dictionary handed to the agent. `attachments` and `receipts`
   * are the lists under those keys (an absent or `None` list is empty);
   * `policyOverrides` maps limit names to replacement numbers.
   */
  datatype Env = Env(
    expense: Option<Expense>,
    extractedData: Option<Expense>,
    attachments: seq<Value>,
    receipts: seq<Value>,
    policyOverrides: map<string, real>,
    claimedAmount: Option<Value>,
    expenseCategory: Option<Value>,
    nights: Option<Value>,
    justification: Option<Value>,
    costCenter: Option<Value>,
    approver: Option<Value>,
    userId: Option<Value>)

  /** `env.get("expense") or env.get("extracted_data") or {}`. */
  function SelectedExpense(env: Env): (e: Expense)
    ensures env.expense.Some? && !env.expense.value.IsEmpty() ==> e == env.expense.value
    ensures (env.expense.None? || env.expense.value.IsEmpty()) && env.extractedData.Some? ==> e == env.extractedData.value
    ensures (env.expense.None? || env.expense.value.IsEmpty()) && env.extractedData.None? ==> e.IsEmpty()
  {
    if env.expense.Some? && !env.expense.value.IsEmpty() then env.expense.value
    else if env.extractedData.Some? then env.extractedData.value
    else EmptyExpense
  }

  /** `env.get("attachments") or env.get("receipts") or []`. */
  function Attachments(env: Env): seq<Value> {
    if env.attachments != [] then env.attachments else env.receipts
  }

  /** At least one attachment or receipt came with the claim. */
  predicate ReceiptsPresent(env: Env) {
    |Attachments(env)| > 0
  }

  lemma ReceiptsPresentIff(env: Env)
    ensures ReceiptsPresent(env) <==> env.attachments != [] || env.receipts != []
  {
  }

  /** The value the amount is read from: the record's `total_amount` unless falsy, else the context's `claimed_amount`. */
  function AmountSource(env: Env): Value {
    Or(Get(SelectedExpense(env).totalAmount), Get(env.claimedAmount))
  }

  /** The normalised total amount. */
  function Amount(env: Env): Option<real> {
    ToAmount(AmountSource(env))
  }

  /** The claimed amount is consulted only when the record's own amount is falsy, zero included. */
  lemma AmountFallback(env: Env)
    ensures Truthy(Get(SelectedExpense(env).totalAmount)) ==> Amount(env) == ToAmount(Get(SelectedExpense(env).totalAmount))
    ensures !Truthy(Get(SelectedExpense(env).totalAmount)) ==> Amount(env) == ToAmount(Get(env.claimedAmount))
  {
  }

  /** The normalised category: the first truthy of the record's and the context's category, lower-cased, or `"other"`. */
  function Category(env: Env): (c: string)
    ensures var raw := Or(Get(SelectedExpense(env).expenseCategory), Get(env.expenseCategory));
      if Truthy(raw) && raw.Str? then c == Text.Lower(raw.s) else c == "other"
  {
    var raw := Or(Or(Get(SelectedExpense(env).expenseCategory), Get(env.expenseCategory)), Str("other"));
    if raw.Str? then Text.Lower(raw.s) else "other"
  }

  /** A category given as text comes back lower-cased; one given as anything else becomes `"other"`. */
  lemma CategoryNormalised(env: Env)
    ensures forall i :: 0 <= i < |Category(env)| ==> !Text.IsUpper(Category(env)[i])
    ensures var raw := Or(Get(SelectedExpense(env).expenseCategory), Get(env.expenseCategory));
      if Truthy(raw) && raw.Str? then Category(env) == Text.Lower(raw.s) else Category(env) == "other"
  {
    var raw := Or(Get(SelectedExpense(env).expenseCategory), Get(env.expenseCategory));
    if !(Truthy(raw) && raw.Str?) {
      Text.LowerOfLower("other");
    } else {
      Text.LowerHasNoUpper(raw.s);
    }
  }

  /** Where a required field stands in the order the source lists them. */
  function RequiredRank(f: string): nat {
    if f == "date" then 0 else if f == "vendor_name" then 1 else 2
  }

  /**
   * The names of the required fields among `date`, `vendor_name`, `expense_category`
   * that are falsy on the record, each once and in that order.
   */
  function MissingRequired(e: Expense): (r: seq<string>)
    ensures forall f :: f in r ==> f in ["date", "vendor_name", "expense_category"]
    ensures forall i, j :: 0 <= i < j < |r| ==> RequiredRank(r[i]) < RequiredRank(r[j])
    ensures "date" in r <==> !Truthy(Get(e.date))
    ensures "vendor_name" in r <==> !Truthy(Get(e.vendorName))
    ensures "expense_category" in r <==> !Truthy(Get(e.expenseCategory))
  {
    (if Truthy(Get(e.date)) then [] else ["date"])
    + (if Truthy(Get(e.vendorName)) then [] else ["vendor_name"])
    + (if Truthy(Get(e.expenseCategory)) then [] else ["expense_category"])
  }

  /**
   * The nights value the lodging rule sees: the context's `nights` whenever that
   * key is present, even when it holds `None`; otherwise the record's.
   */
  function NightsProvided(env: Env): Value {
    if env.nights.Some? then env.nights.value
    else if SelectedExpense(env).nights.Some? then SelectedExpense(env).nights.value
    else Null
  }

  /** `max(1, int(v) if v else 1)`, where an `int` conversion that raises gives 1. */
  function NightCount(v: Value): (n: int)
    ensures n >= 1
    ensures !Truthy(v) ==> n == 1
    ensures Truthy(v) && ToInt(v).Some? && ToInt(v).value >= 1 ==> n == ToInt(v).value
    ensures Truthy(v) && (ToInt(v).None? || ToInt(v).value < 1) ==> n == 1
  {
    var nights := if Truthy(v) then (match ToInt(v) case Some(i) => i case None => 1) else 1;
    if nights < 1 then 1 else nights
  }

  /** The justification text before stripping: the first truthy of the context's and the record's, else `""`. */
  function JustificationSource(env: Env): Value {
    Or(Or(Get(env.justification), Get(SelectedExpense(env).justification)), Str(""))
  }

  /** Some justification with a non-blank character was given. */
  predicate HasJustification(env: Env) {
    var j := JustificationSource(env);
    j.Str? && Text.Strip(j.s) != []
  }

  /** A cost center or an approver is given, on the context or on the record. */
  predicate HasApprovalInfo(env: Env) {
    Truthy(Or(Get(env.costCenter), Get(SelectedExpense(env).costCenter)))
    || Truthy(Or(Get(env.approver), Get(SelectedExpense(env).approver)))
  }

  /** The user the evaluation is recorded for: the context's `user_id`, else the record's, else `"unknown"`. */
  function UserId(env: Env): Value {
    if env.userId.Some? then env.userId.value
    else if SelectedExpense(env).userId.Some? then SelectedExpense(env).userId.value
    else Str("unknown")
  }
}
