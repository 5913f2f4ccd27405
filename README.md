# Expense validation agent and audit log, in Dafny

This project models two parts of an expense-compliance assistant:

- **The validation agent** (`validation_agent`, in `agents.py`). It takes one expense claim: a context dictionary that holds an `expense` record, attachments, optional `nights`, `justification`, `cost_center`, `approver`, `claimed_amount`, `user_id` and policy overrides. Then it:
  1. merges the policy limits;
  2. normalises the amount and the category;
  3. runs eight rules in a fixed order, each appending to three lists: `issues`, `flags` and `suggested_actions`;
  4. resolves one of four statuses from the flags;
  5. records the result in the audit log.
- **The audit log** (`AuditLog`, in `audit.py`). This is a list of entries, backed by a JSON file, that grows by appending and can be cleared. It supports save, filtered listing with a recent-entries limit, last entry, count and clear.

## How the model is organised

- `values.dfy`: the loosely typed Python values the agent reads, and how they behave:
  - `Value`: `None`, bools, ints, floats (as `real`), strings, lists and dicts;
  - truthiness, `a or b`, and `float()` / `int()` conversion, which give `None` when Python would raise.
- `text.dfy`: the string operations the agent uses:
  - `lower()` on ASCII letters, and `strip()` over the characters Python counts as whitespace;
  - `str.startswith` and `", ".join`;
  - `int()` and `float()` of plain decimal numerals;
  - `f"{x:.2f}"`, with the sign of a negative amount, proved to read back as the amount rounded to cents.
- `policy.dfy`: the five default limits, `policy.update(overrides)`, and the limits the agent reads from the merged policy.
- `claims.dfy`: the claim as input.
  - The `Env` and `Expense` records hold one `Option<Value>` per key the agent reads. `None` means the key is absent; `Some(Null)` means it is present and holds `None`.
  - Also here: the normalisation steps (record selection, amount, category, required fields, nights) and the high-value inputs.
- `rules.dfy`: the agent's rules as pure functions, which the agent method is proved against.
  - `Findings(env)` lists, in rule order, what each fired rule contributes. A finding is one of three kinds: an issue with a flag and an action; an issue only; or a flag only.
  - `Evaluate(env)` is the result: the three lists are the projections of the findings, and the status is resolved from the flags.
- `engine.dfy`: the agent as the source runs it.
  - It has one method per rule block, each appending to the three lists.
  - The status is found by the same `startswith` scans the source uses.
  - `Validate` is proved to return `Evaluate(env)`. `ValidationAgent` then saves the result to an `AuditLog` object.
- `audit.dfy`: the audit log as a class whose field `file` is the backing file's entries. The field is `None` while the file is missing or unreadable. `Save` and `Clear` change the field; the queries are functions of it.
- `properties.dfy`: what the agent promises for every claim:
  - each flag's exact trigger;
  - the status precedence, stated on the rules;
  - the lockstep growth of the three lists;
  - high-value routing, and the interaction of auto-approval with the high-value tier;
  - the `nights` precedence;
  - the claimed-amount fallback that incomplete reporting ignores;
  - monotonicity of the limit rules.
- `scenarios.dfy`: the five claims of `scripts/run_validation_tests.py`, and claims exactly at the lodging limit, the routine threshold and the high-value threshold.

Two modelling choices matter:

- **I/O is a parameter.** `datetime.now().isoformat()` is the `now` argument. Whether the log file can be written is the `writable` argument.
- **Amounts are exact.** They are `real`, not IEEE doubles.

## Model

| member | source | states |
|---|---|---|
| Policy.Merge | agents.py:250-258 | the merged policy has the default keys and the override keys; an override replaces its default and every other default is kept |
| Policy.Resolve | agents.py:250-258 | each limit is the override when one is given, else 200 / 1500 / 1000 / 500 / 0.01 |
| Policy.DefaultLimits | agents.py:250-256 | without overrides the limits are the five defaults, and the routine tier lies below the high-value tier |
| Values.Or | agents.py:246 | `a or b` is `a` when `a` is truthy and `b` otherwise |
| Values.ToAmountOfNumeral | agents.py:266-272 | `float()` of a written natural number gives that number back |
| Values.Truncate | agents.py:303 | `int()` of a float truncates toward zero: the result lies within one of the value, on the side of zero |
| Claims.SelectedExpense | agents.py:246 | the record is `expense` when that is a non-empty dict, else `extracted_data`, else an empty record |
| Claims.IsEmptyIffFalsy | agents.py:246 | a record is empty exactly when the dict it stands for is falsy |
| Claims.ToValueAgrees | agents.py:389 | the echoed `raw_expense` dictionary holds `date`, `total_amount`, `expense_category` and `nights` exactly when the record's fields the rules read do, with the same values |
| Claims.ReceiptsPresentIff | agents.py:247-285 | receipts are present exactly when `attachments` or `receipts` is a non-empty list |
| Claims.AmountFallback | agents.py:274 | the amount is read from the record's `total_amount` when that is truthy, and from `claimed_amount` otherwise, zero included |
| Claims.Category | agents.py:275-276 | the category is the lower-cased first truthy category given when that is text, and `"other"` otherwise |
| Claims.CategoryNormalised | agents.py:275-276 | the category holds no upper-case letter; it is the given text lower-cased, or `"other"` when the chosen value is not text |
| Claims.MissingRequired | agents.py:279-280 | each of `date`, `vendor_name` and `expense_category` is listed exactly when it is falsy on the record, nothing else is listed, and the names appear once each in that order |
| Claims.NightCount | agents.py:302-308 | the nights divisor is `int(v)` when `v` is truthy and converts to at least 1, and 1 otherwise |
| Text.LowerHasNoUpper | agents.py:276 | a lower-cased string has no upper-case letter |
| Text.LowerIdempotent | agents.py:276 | lower-casing twice is lower-casing once |
| Text.LowerOfLower | agents.py:276 | a string without upper-case letters is its own lower-cased form |
| Text.StripEmptyIffBlank | agents.py:337-341 | a stripped text is empty exactly when every character is whitespace in the sense of `str.isspace()`, U+1C to U+1F and the Unicode spaces included |
| Text.ParseIntOfNatToString | agents.py:303 | `int()` of a written natural number gives the number back |
| Text.ParseDecimalOfNatToString | agents.py:270 | `float()` of a written natural number gives the number back |
| Text.ParseDecimalOfMoney | agents.py:310-317 | an amount written with two decimals reads back as the amount rounded to cents |
| Text.CentsNear | agents.py:310-317 | rounding to cents moves an amount by at most half a cent |
| Text.CentsNegated | agents.py:310-317 | rounding half to even is symmetric: negating an amount negates its cents |
| Text.MoneySign | agents.py:310-317 | a negative amount is written with a leading minus sign, even one that rounds to zero; any other amount starts with a digit |
| Text.MoneyOfCents | agents.py:310-317 | except for a negative amount that rounds to zero, the text is that of the signed cents count |
| Text.ZeroMoneyText | agents.py:310-317 | a negative amount that rounds to zero cents keeps its sign and is written `-0.00` |
| Text.MoneyOfTinyNegative | agents.py:310-317 | `-0.004` is written `-0.00` |
| Text.ParseDecimalOfZeroMoney | agents.py:310-317 | a negative amount that rounds to zero cents reads back as zero |
| Rules.Record | agents.py:279-367 | recording a finding appends its issue, flag and action parts to the three lists |
| Rules.RecordWhen | agents.py:279-367 | appending a finding when its rule fires extends each of the three lists by that finding's part, and by nothing otherwise |
| Rules.InOrder | agents.py:279-367 | for any guards and findings, the three lists of the guarded findings are the guarded parts concatenated in order |
| Rules.FindingsInOrder | agents.py:279-367 | the issue, flag and action lists of a claim are the parts of the eleven rule findings concatenated in rule order |
| Rules.EarlyFlags | agents.py:279-332 | after the six standard rules, each standard flag is present exactly when its rule fired, and no high-value, routing or auto-approval flag is present |
| Rules.LateFlags | agents.py:335-367 | the high-value, routing and auto-approval stages add exactly their own flags and none of the standard ones |
| Rules.PrefixScans | agents.py:357-373 | the `startswith` scans over the flag names find exactly the high-value flags, `lodging_limit_exceeded` and `airfare_limit_exceeded` |
| Rules.HighValuePrefix | agents.py:357 | only the three high-value flags have names starting with `high_value_` |
| Rules.AnyStartsWith | agents.py:357-373 | `any(f.startswith(p) for f in flags)` holds exactly when some flag's name starts with `p` |
| Engine.Prepare | agents.py:245-276 | the prepared record, merged policy, amount, category and receipt presence are those the claim normalises to |
| Engine.ReportIf | agents.py:279-367 | a rule block appends its issue, flag and action when its condition holds and leaves the lists unchanged otherwise |
| Engine.CheckRequired | agents.py:279-282 | appends one issue naming the missing fields exactly when some required field is falsy, and no flag or action |
| Engine.CheckReceipt | agents.py:285-290 | appends the missing-receipt issue, flag and action exactly when the amount is positive and no receipt is present |
| Engine.CheckLodging | agents.py:292-312 | for a lodging claim whose nights value is given and not `None`, with an amount, appends the lodging-limit finding exactly when amount / nights exceeds the limit strictly |
| Engine.CheckTravel | agents.py:314-319 | for airfare, travel and transportation, appends the airfare-limit finding exactly when the amount exceeds the limit strictly |
| Engine.CheckCategory | agents.py:321-326 | appends the invalid-category finding exactly when the category is not one of the seven valid ones |
| Engine.CheckIncomplete | agents.py:328-332 | appends the incomplete-reporting finding exactly when the record's own `date` or `total_amount` is falsy |
| Engine.HighValueInputs | agents.py:337-339 | the stripped justification is empty exactly when no non-blank justification was given; cost center or approver is truthy exactly when approval information is given |
| Engine.HighValueRequirements | agents.py:341-354 | appends the justification, receipts and approval-info findings, each exactly when that requirement is missing |
| Engine.NeedsRouting | agents.py:357 | the routing scan holds exactly when a high-value flag is present |
| Engine.HighValueFlagsFound | agents.py:341-357 | over a list with no high-value flag, the three requirements leave one exactly when one of them failed |
| Engine.HighValueReview | agents.py:335-358 | a high-value claim gets the failed requirements' findings and then the routing flag exactly when one failed; the limit and category flags are unchanged |
| Engine.CheckHighValue | agents.py:335-358 | the high-value stage runs exactly when amount ≥ threshold, inclusive, and otherwise leaves the lists unchanged |
| Engine.HighValueFlagsKeep | agents.py:335-358 | the high-value stage adds no lodging, airfare or category flag |
| Engine.CheckRoutine | agents.py:360-367 | `auto_approved` is true exactly when amount ≤ routine threshold, receipts are present, no limit or category flag has been raised and the category is lodging, travel or transportation; it then adds only the routine flag |
| Engine.ResolveStatus | agents.py:369-378 | the status is the first match of: auto-approved; routing or a limit flag; a receipt, incomplete or category flag; else approved |
| Engine.StandardReview | agents.py:278-332 | the six standard rules, run from empty lists, leave exactly their findings in rule order; each limit or category flag is present exactly when its rule fired |
| Engine.Validate | agents.py:244-390 | the result returned is the specified `Evaluate(env)` |
| Engine.ValidationAgent | agents.py:392-403 | the result is `Evaluate(env)` whether or not the audit write succeeds; a successful write appends exactly one entry under `Validation Agent` and the claim's user; a failed one leaves the log unchanged |
| Engine.LoggedResult | agents.py:380-398 | the logged entry's data is the whole result, so `data["status"]` is the result's status |
| Engine.LoggedOutcome | audit.py:63-71 | the logged entry records success, no error, no notes and empty metadata |
| Audit.Lookup | audit.py:67-70 | `d.get(key, default)` is the stored value when the key is present and the default otherwise |
| Audit.EntryFor | audit.py:62-72 | the entry holds the timestamp, agent and user given; success, error and notes from the result; data from `extracted_data`, else `data`, else the whole result; and the given metadata or `{}` |
| Audit.SelectMembers | audit.py:102-105 | a filter keeps exactly the entries it accepts |
| Audit.SelectAppend | audit.py:102-105 | filtering keeps log order: filtering two runs of entries filters each |
| Audit.SelectIdempotent | audit.py:102-105 | filtering twice by the same criterion is filtering once |
| Audit.FilteredMembers | audit.py:101-105 | the agent and user filters keep exactly the entries of that agent and user; an absent or empty filter keeps everything |
| Audit.Recent | audit.py:107-109 | with a truthy limit below the length the result is the last `limit` entries; otherwise it is all of them; it is always a suffix |
| Audit.FilteredAppend | audit.py:74-105 | after an append, the filtered log is the old filtered log plus the new entry when it matches |
| Audit.LastAfterAppend | audit.py:74-116 | after an append of a matching entry, the newest matching entry is the appended one |
| Audit.CountAfterAppend | audit.py:74-124 | an append adds one to the count under every filter it passes, and nothing under the others |
| Audit.AuditLog.Entries | audit.py:21-29 | a missing or unreadable file reads as an empty log; otherwise its entries are read |
| Audit.AuditLog.Save | audit.py:36-79 | a successful save appends exactly the built entry at the end, keeps every earlier entry, makes it the last entry and adds one to its agent's count; a failed write leaves the file as it was; `user_id` defaults to `"unknown"` and `metadata` to none, as in the source |
| Audit.AuditLog.GetEntries | audit.py:81-111 | the result holds only log entries of the requested agent and user and is a suffix of the filtered log: its last `limit` entries, or all of them when fewer; with no limit or a zero limit it is the whole filtered log |
| Audit.AuditLog.GetLastEntry | audit.py:113-116 | the result is the newest entry of the agent, or `None` when there is none |
| Audit.AuditLog.Clear | audit.py:118-120 | after a successful clear the log is empty, the count is zero and there is no last entry; a failed clear changes nothing |
| Audit.AuditLog.Count | audit.py:122-124 | the count is the number of entries of the agent, at most the log's length, zero exactly when there is no last entry |
| Properties.StandardFlagTriggers | agents.py:285-332 | `missing_receipt`, `lodging_limit_exceeded`, `airfare_limit_exceeded`, `invalid_category` and `incomplete_reporting` are each in the result exactly when their rule fires |
| Properties.ReviewFlagTriggers | agents.py:335-367 | each high-value flag, the routing flag and the routine flag are in the result exactly when their rule fires |
| Properties.AllFlags | agents.py:279-367 | over any outcomes of the eleven rule steps, each flag is in the list exactly when its step fired |
| Properties.StatusByRules | agents.py:369-378 | the status in terms of the rules, each of the four in both directions, with auto-approval first and routing or a limit before a correction |
| Properties.PrecedenceMonotone | agents.py:369-378 | raising more flags never moves a claim that is not auto-approved down the precedence, and higher approval stays higher approval |
| Properties.EscalationDecides | agents.py:373-374 | a routing, lodging-limit or airfare-limit flag makes the status `requires_higher_approval` whatever else is raised |
| Properties.StatusBySet | agents.py:369-378 | the status depends only on which flags are raised, not on their order or repetition |
| Properties.AutoApprovedAgrees | agents.py:361-388 | `auto_approved` is true exactly when the status is `auto_approved` |
| Properties.ActionCount | agents.py:279-367 | the number of suggested actions is the number of violation rules that fire |
| Properties.IssueCount | agents.py:279-367 | the number of issues is that number plus one when required fields are missing |
| Properties.FlagCount | agents.py:279-367 | the number of flags is that number plus one for routing and one for auto-approval |
| Properties.Lockstep | agents.py:279-367 | \|issues\| = \|actions\| + [required fields missing] and \|flags\| = \|actions\| + [routed] + [auto-approved] |
| Properties.WhenSizes | agents.py:279-367 | a fired rule adds one issue unless it is flag-only, one flag unless it is issue-only, one action only when it is a violation |
| Properties.HighValueWithoutReceipts | agents.py:346-374 | a high-value claim without receipts is flagged, routed, and needs higher approval |
| Properties.HighValueDocumented | agents.py:341-358 | with a justification, receipts and approval information there is no high-value flag and no routing flag |
| Properties.AutoApprovalExcludesHighValue | agents.py:335-367 | when the routine tier lies below the high-value tier, an auto-approved claim is not high-value and carries no high-value or routing flag |
| Properties.DefaultTiersSeparate | agents.py:253-254 | without overrides the routine tier lies below the high-value tier |
| Properties.NullNightsSkipLodging | agents.py:295-301 | a `nights` of `None`, and in particular a context `nights` key holding `None` even when the record gives nights, never raises the lodging flag |
| Properties.AirfareIsInvalidCategory | agents.py:315-378 | an `airfare` claim is always flagged as an invalid category, is never auto-approved and is never plainly approved |
| Properties.IncompleteIgnoresClaimedAmount | agents.py:274-332 | a record whose own amount is falsy is flagged incomplete even when `claimed_amount` supplies the amount |
| Properties.LimitRulesMonotone | agents.py:307-319 | raising the lodging or airfare limit never makes that rule fire |
| Properties.LimitFlagsMonotone | agents.py:307-319 | raising the lodging or airfare limit never adds that flag to the result |
| Scenarios.RoutineLodgingAutoApproved | scripts/run_validation_tests.py:41-44 | a 300 lodging claim with a receipt is auto-approved, with the routine flag |
| Scenarios.IncompleteMealsNeedsCorrection | scripts/run_validation_tests.py:46-49 | a meals claim without date or amount needs correction and is flagged incomplete |
| Scenarios.HighValueOtherRouted | scripts/run_validation_tests.py:51-53 | a 2500 `other` claim without attachments is flagged for missing receipts, routed, and needs higher approval |
| Scenarios.LuxuryLodgingOverLimit | scripts/run_validation_tests.py:55-58 | a 900 lodging claim for 3 nights exceeds the per-night limit and needs higher approval |
| Scenarios.UnreceiptedSuppliesNeedsCorrection | scripts/run_validation_tests.py:60-62 | a 45 supplies claim without a receipt needs correction and is flagged for its receipt |
| Scenarios.LodgingAtLimitApproved | agents.py:309 | exactly 200 a night is not over the lodging limit: the claim is approved |
| Scenarios.TravelAtRoutineAutoApproved | agents.py:362-367 | a travel claim of exactly the routine threshold is auto-approved |
| Scenarios.OtherAtHighValueRouted | agents.py:335-358 | a claim of exactly the high-value threshold is checked as high-value and routed |

## Left out

- LLM and network calls (`get_model_response`, `get_vision_model_response`, `image_understanding_agent`), the JSON fence stripping, and the stub agents: they hold no decision logic.
- `json.dumps` of the returned result, and the string branch of `save`: `json.loads` of a string result, with the `raw_output` fallback. The validation agent hands `save` a dictionary, modelled by `Rules.ToJson`.
- File I/O: the log file is the `file` field. A write that raises becomes `writable == false`. In that case `Save` and `Clear` leave the file unchanged: the source raises before writing, and `validation_agent` swallows the error. A partial write is not modelled.
- `datetime.now()` becomes the `now` parameter, and the `AuditLog` constructor's file path is not modelled.
- `print_summary`: console output only.
- Concurrency and `async`/`await`: the agent is modelled as a plain sequential method.
- Floating point: amounts are exact `real`s.
  - `f"{x:.2f}"` is modelled as exact rounding of the real value to cents, half to even. A negative amount keeps its minus sign even when it rounds to zero (`-0.00`), as in Python. There is no negative zero among the reals, so a float `-0.0` (printed `-0.00` by Python) is the model's `0.0` and is printed `0.00`.
  - Values.ToAmount: the double range is not modelled. An `int` too large for a double makes `float()` raise `OverflowError`, which the helper catches, giving `None`. A numeral string too long for a double gives `inf`. In both cases the model gives the exact value.
  - `float(s)` is modelled for plain decimal numerals with an optional sign and surrounding whitespace. Exponents, `inf` and `nan` are not modelled, and such strings give `None`.
  - `float()` of a list or a dict gives `None`; Python raises `TypeError` there, and the source catches that too.
- `lower()` acts on ASCII letters only; other letters are kept as they are.
- Text.ParseInt, Text.ParseDecimal: digit-group underscores (`int("1_0")`, `float("1_500")`) and non-ASCII decimal digits, which Python accepts, give `None` here. So a string amount or nights value written that way is treated as unparsable.
- An `attachments` value that is not a list: the model takes `attachments` and `receipts` as lists, an absent or `None` value being the empty list.
- Policy overrides with non-numeric values: they are excluded by typing overrides as `map<string, real>`. The source raises `TypeError` only when a rule compares such a value (agents.py:309, 316, 335 and 362). A non-numeric value under `min_receipt_amount`, under an unknown key, or under a limit the claim's rules never compare is harmless there and does not change the result.
- A truthy, non-string justification on a high-value claim: excluded by `Rules.JustificationReadable`, a precondition of `Engine.Validate`. The source raises on `.strip()` there, before the result is returned.
- Audit entries whose JSON lacks the `entries` key: the file is modelled as a list of entries.
- `get_entries` with a negative `limit`: the limit is a `nat`.
- A log file that exists but is not valid JSON, or cannot be opened, is modelled like a missing one (`file == None`). `_load` catches `JSONDecodeError` and `IOError` and reads each of these as an empty log. Their unparsed contents, which a later save overwrites, are not modelled.
- Audit.AuditLog.Entries: a log file that is not valid UTF-8 is not modelled. There, `open(..., encoding='utf-8')` raises `UnicodeDecodeError`, which `_load` does not catch, so `save`, `get_entries`, `get_last_entry` and `count` all raise. `validation_agent` swallows that error; the model's `file` has no state for such a file.
- Policy.Resolve: `min_receipt_amount` is read into the limits but no rule uses it, as in the source.

Behaviour of the code worth noting:

- A context-level `expense_category` is only a fallback for the record's, not an override.
- `suggested_actions` are not aligned position by position with `issues`: the required-fields issue has no action.
- Unknown override keys are kept in the merged policy dictionary. They still affect no limit.
