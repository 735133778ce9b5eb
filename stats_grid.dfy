/** The stats grid's derived values: the open-interest / price momentum ratio
    and the colour class of each statistic. */
module StatsGrid {
  import opened JsValues
  import opened ScenarioModel

  /** The JavaScript numbers a division can produce here: a finite value,
      +Infinity (a non-zero number divided by zero, made positive by Math.abs),
      or NaN (zero divided by zero). */
  datatype Number = Finite(value: real) | Infinity | NaN

  function Abs(x: real): real {
    if x < 0.0 then -x else x
  }

  /** `Math.abs(a / b)`. */
  function AbsQuotient(a: real, b: real): (r: Number)
    ensures b != 0.0 ==> r.Finite? && r.value >= 0.0 && r.value * Abs(b) == Abs(a)
    ensures b == 0.0 && a != 0.0 ==> r == Infinity
    ensures b == 0.0 && a == 0.0 ==> r == NaN
  {
    if b != 0.0 then Finite(Abs(a / b))
    else if a != 0.0 then Infinity
    else NaN
  }

  /** `x >= bound` for a JavaScript number: always true for +Infinity, always
      false for NaN. */
  predicate AtLeast(x: Number, bound: real) {
    match x
    case Finite(v) => v >= bound
    case Infinity => true
    case NaN => false
  }

  /** `getOiPriceRatio`: 0 when there are no statistics or `priceEnd` is 0;
      otherwise |oiChangePercent / priceChangePercent|, which is a non-negative
      finite number when `priceChangePercent` is non-zero. The guard tests
      `priceEnd` and not the divisor, so a zero `priceChangePercent` gives
      Infinity, or NaN when `oiChangePercent` is zero too. */
  function OiPriceRatio(statistics: Option<Statistics>): (r: Number)
    ensures statistics.None? || statistics.value.priceEnd == 0.0 ==> r == Finite(0.0)
    ensures r.Finite? ==> r.value >= 0.0
    ensures statistics.Some? && statistics.value.priceEnd != 0.0 && statistics.value.priceChangePercent != 0.0 ==>
              r.Finite? &&
              r.value * Abs(statistics.value.priceChangePercent) == Abs(statistics.value.oiChangePercent)
    ensures statistics.Some? && statistics.value.priceEnd != 0.0 && statistics.value.priceChangePercent == 0.0 ==>
              r == (if statistics.value.oiChangePercent == 0.0 then NaN else Infinity)
  {
    if statistics.None? || statistics.value.priceEnd == 0.0 then Finite(0.0)
    else AbsQuotient(statistics.value.oiChangePercent, statistics.value.priceChangePercent)
  }

  /** The ratio does not depend on the signs of the two change percentages. */
  lemma RatioIgnoresSigns(s: Statistics)
    ensures OiPriceRatio(Some(s.(oiChangePercent := -s.oiChangePercent))) == OiPriceRatio(Some(s))
    ensures OiPriceRatio(Some(s.(priceChangePercent := -s.priceChangePercent))) == OiPriceRatio(Some(s))
  {
    if s.priceEnd != 0.0 && s.priceChangePercent != 0.0 {
      var a, b := s.oiChangePercent, s.priceChangePercent;
      assert -a / b == -(a / b) && a / -b == -(a / b);
    }
  }

  const Primary: string := "text-primary"
  const Danger: string := "text-danger"
  const Neutral: string := "text-gray-400"

  /** `getStatColor(type)`: the neutral class without statistics or for an
      unknown kind; otherwise the primary class exactly when the statistic is on
      its favourable side: a change percent of at least 0 for "price" and "oi",
      a ratio of at least 2 for "ratio", a volatility strictly below 2.5 for
      "volatility". */
  function StatColor(statistics: Option<Statistics>, kind: string): (c: string)
    ensures c == Primary || c == Danger || c == Neutral
    ensures c == Neutral <==> statistics.None? || kind !in {"price", "oi", "ratio", "volatility"}
    ensures statistics.Some? && kind == "price" ==> (c == Primary <==> statistics.value.priceChangePercent >= 0.0)
    ensures statistics.Some? && kind == "oi" ==> (c == Primary <==> statistics.value.oiChangePercent >= 0.0)
    ensures statistics.Some? && kind == "ratio" ==> (c == Primary <==> AtLeast(OiPriceRatio(statistics), 2.0))
    ensures statistics.Some? && kind == "volatility" ==> (c == Primary <==> statistics.value.volatilityPercent < 2.5)
  {
    if statistics.None? then Neutral
    else
      var s := statistics.value;
      match kind
      case "price" => if s.priceChangePercent >= 0.0 then Primary else Danger
      case "oi" => if s.oiChangePercent >= 0.0 then Primary else Danger
      case "ratio" => if AtLeast(OiPriceRatio(statistics), 2.0) then Primary else Danger
      case "volatility" => if s.volatilityPercent < 2.5 then Primary else Danger
      case _ => Neutral
  }

  /** Where the guard and the divisor disagree, the ratio colour follows
      JavaScript's comparisons: a zero price change with a non-zero OI change is
      Infinity and shows as favourable; with a zero OI change it is NaN and shows
      as unfavourable. A zero `priceEnd` shows as unfavourable whatever the
      percentages. */
  lemma RatioColourAtZeroDivisor(s: Statistics)
    ensures s.priceEnd != 0.0 && s.priceChangePercent == 0.0 ==>
              StatColor(Some(s), "ratio") == (if s.oiChangePercent == 0.0 then Danger else Primary)
    ensures s.priceEnd == 0.0 ==> StatColor(Some(s), "ratio") == Danger
  {
  }

  /** The ratio colour is favourable exactly when |oi change| is at least twice
      |price change|, for every statistics record with non-zero `priceEnd` and
      `priceChangePercent`. */
  lemma {:induction false} RatioColourThreshold(s: Statistics)
    requires s.priceEnd != 0.0 && s.priceChangePercent != 0.0
    ensures StatColor(Some(s), "ratio") == Primary <==> Abs(s.oiChangePercent) >= 2.0 * Abs(s.priceChangePercent)
  {
    var q := OiPriceRatio(Some(s)).value;
    assert StatColor(Some(s), "ratio") == Primary <==> q >= 2.0;
    ScaleCompare(q, Abs(s.priceChangePercent), Abs(s.oiChangePercent), 2.0);
  }

  /** For a positive y and p = q * y, q is at least bound exactly when p is at
      least bound * y. */
  lemma ScaleCompare(q: real, y: real, p: real, bound: real)
    requires y > 0.0 && p == q * y
    ensures q >= bound <==> p >= bound * y
  {
    if q >= bound {
      assert (q - bound) * y >= 0.0;
    } else {
      assert (bound - q) * y > 0.0;
    }
  }
}
