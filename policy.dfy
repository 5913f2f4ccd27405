/** The expense policy: five default limits, replaced key by key by caller overrides. */
module Policy {

  const LodgingLimitKey := "lodging_limit_per_night"
  const AirfareLimitKey := "airfare_limit"
  const HighValueKey := "high_value_threshold"
  const RoutineKey := "routine_threshold"
  const MinReceiptKey := "min_receipt_amount"

  /** The default policy dictionary. */
  const Defaults: map<string, real> := map[
    LodgingLimitKey := 200.0,
    AirfareLimitKey := 1500.0,
    HighValueKey := 1000.0,
    RoutineKey := 500.0,
    MinReceiptKey := 0.01
  ]

  /** The limits one evaluation works with. */
  datatype Limits = Limits(
    lodgingLimitPerNight: real,
    airfareLimit: real,
    highValueThreshold: real,
    routineThreshold: real,
    minReceiptAmount: real)

  /** `policy.update(overrides)` on a copy of the defaults: every override key wins, every other key keeps its default. */
  function Merge(overrides: map<string, real>): (p: map<string, real>)
    ensures p.Keys == Defaults.Keys + overrides.Keys
    ensures forall k :: k in overrides ==> p[k] == overrides[k]
    ensures forall k :: k in Defaults && k !in overrides ==> p[k] == Defaults[k]
  {
    Defaults + overrides
  }

  /** The five limits read out of the merged policy. */
  function Resolve(overrides: map<string, real>): (l: Limits)
    ensures l.lodgingLimitPerNight == if LodgingLimitKey in overrides then overrides[LodgingLimitKey] else 200.0
    ensures l.airfareLimit == if AirfareLimitKey in overrides then overrides[AirfareLimitKey] else 1500.0
    ensures l.highValueThreshold == if HighValueKey in overrides then overrides[HighValueKey] else 1000.0
    ensures l.routineThreshold == if RoutineKey in overrides then overrides[RoutineKey] else 500.0
    ensures l.minReceiptAmount == if MinReceiptKey in overrides then overrides[MinReceiptKey] else 0.01
  {
    var p := Merge(overrides);
    Limits(p[LodgingLimitKey], p[AirfareLimitKey], p[HighValueKey], p[RoutineKey], p[MinReceiptKey])
  }

  /** Without overrides the limits are the defaults, and the routine tier lies below the high-value tier. */
  lemma DefaultLimits()
    ensures Resolve(map[]) == Limits(200.0, 1500.0, 1000.0, 500.0, 0.01)
    ensures Resolve(map[]).routineThreshold < Resolve(map[]).highValueThreshold
  {
  }
}
