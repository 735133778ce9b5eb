/** The scenario service: the structural validator for decoded scenario files,
    the stride-5 candle downsampler, the part of file parsing that follows
    JSON decoding, and the bounded ordered list of accepted scenarios. */
module Scenarios {
  import opened JsValues
  import opened ScenarioModel

  // ---------------------------------------------------------------------------
  // Structural validation
  // ---------------------------------------------------------------------------

  /** What `validateScenario` does with a value: return a boolean, or throw
      (reading a property of a `null` first candle). */
  datatype Verdict = Returns(ok: bool) | Throws(error: JsError)

  const RequiredFields: seq<string> := ["scenario", "description", "symbol", "candles", "statistics"]
  const CandleFields: seq<string> := ["timestamp", "price", "openInterest", "volume"]
  const StatisticsFields: seq<string> := ["totalCandles", "priceStart", "priceEnd"]

  /** The TypeError a JavaScript engine (V8) raises for `null.timestamp`. */
  const NullCandleError: JsError := JsError("TypeError", "Cannot read properties of null (reading 'timestamp')")

  /** `data.candles` of a value whose `candles` property holds an array. */
  function CandlesOf(data: Json): seq<Json>
    requires IsArray(Prop(data, "candles"))
  {
    Prop(data, "candles").value.elems
  }

  /** The checks of the validator up to and including "candles is a non-empty
      array", stated key by key. */
  ghost predicate HasNonEmptyCandles(data: Json) {
    && (data.JArray? || data.JObject?)
    && (forall k :: k in RequiredFields ==> Truthy(Prop(data, k)))
    && IsArray(Prop(data, "candles"))
    && |CandlesOf(data)| > 0
  }

  /** A value of the shape the validator accepts: a non-null object whose five
      required fields are truthy, whose candles form a non-empty array with a
      first candle whose four fields are truthy, and whose statistics hold
      numbers (zero included) in the three checked fields. */
  ghost predicate ConformsToScenarioShape(data: Json) {
    && HasNonEmptyCandles(data)
    && (forall k :: k in CandleFields ==> Truthy(Prop(CandlesOf(data)[0], k)))
    && (forall k :: k in StatisticsFields ==>
          Prop(Prop(data, "statistics").value, k).Some? &&
          Prop(Prop(data, "statistics").value, k).value.JNumber?)
  }

  /** `validateScenario(data)`; ValidateScenarioMeaning states what it
      decides. A throw is always a TypeError. */
  function ValidateScenario(data: Json): (r: Verdict)
    ensures r.Throws? ==> r.error.name == "TypeError" && IsArray(Prop(data, "candles"))
  {
    if !Truthy(Some(data)) || TypeOf(Some(data)) != "object" then
      Returns(false)
    else if !Truthy(Prop(data, "scenario")) || !Truthy(Prop(data, "description"))
         || !Truthy(Prop(data, "symbol")) || !Truthy(Prop(data, "candles"))
         || !Truthy(Prop(data, "statistics")) then
      Returns(false)
    else if !IsArray(Prop(data, "candles")) || |CandlesOf(data)| == 0 then
      Returns(false)
    else
      var firstCandle := CandlesOf(data)[0];
      if firstCandle.JNull? then
        Throws(NullCandleError)
      else if !Truthy(Prop(firstCandle, "timestamp")) || !Truthy(Prop(firstCandle, "price"))
              || !Truthy(Prop(firstCandle, "openInterest")) || !Truthy(Prop(firstCandle, "volume")) then
        Returns(false)
      else
        var stats := Prop(data, "statistics").value;
        if TypeOf(Prop(stats, "totalCandles")) != "number" || TypeOf(Prop(stats, "priceStart")) != "number"
           || TypeOf(Prop(stats, "priceEnd")) != "number" then
          Returns(false)
        else
          Returns(true)
  }

  /** The validator returns true exactly for the values of scenario shape,
      throws exactly when everything before the first candle check passed and
      that candle is `null`, and returns false otherwise: in particular for
      `null`, for primitives, for a missing or falsy required field (an empty
      string fails), for candles that are not a non-empty array, for a first
      candle with a zero timestamp or volume, and for a statistics record whose
      checked fields are not numbers. */
  lemma ValidateScenarioMeaning(data: Json)
    ensures ValidateScenario(data) == Returns(true) <==> ConformsToScenarioShape(data)
    ensures ValidateScenario(data).Throws? <==> HasNonEmptyCandles(data) && CandlesOf(data)[0] == JNull
  {
    RequiredFieldsByName(data);
    if HasNonEmptyCandles(data) {
      CandleFieldsByName(CandlesOf(data)[0]);
      StatisticsFieldsByName(Prop(data, "statistics").value);
    }
  }

  lemma RequiredFieldsByName(data: Json)
    ensures (forall k :: k in RequiredFields ==> Truthy(Prop(data, k))) <==>
            Truthy(Prop(data, "scenario")) && Truthy(Prop(data, "description")) && Truthy(Prop(data, "symbol")) &&
            Truthy(Prop(data, "candles")) && Truthy(Prop(data, "statistics"))
  {
  }

  lemma CandleFieldsByName(first: Json)
    ensures (forall k :: k in CandleFields ==> Truthy(Prop(first, k))) <==>
            Truthy(Prop(first, "timestamp")) && Truthy(Prop(first, "price")) &&
            Truthy(Prop(first, "openInterest")) && Truthy(Prop(first, "volume"))
  {
  }

  lemma StatisticsFieldsByName(stats: Json)
    ensures (forall k :: k in StatisticsFields ==> Prop(stats, k).Some? && Prop(stats, k).value.JNumber?) <==>
            TypeOf(Prop(stats, "totalCandles")) == "number" && TypeOf(Prop(stats, "priceStart")) == "number" &&
            TypeOf(Prop(stats, "priceEnd")) == "number"
  {
  }

  /** Only the first candle is inspected: replacing every later candle leaves the
      verdict unchanged. */
  lemma ValidateIgnoresLaterCandles(data: Json, later: seq<Json>)
    requires data.JObject? && IsArray(Prop(data, "candles")) && |CandlesOf(data)| > 0
    ensures var data' := JObject(data.fields["candles" := JArray([CandlesOf(data)[0]] + later)]);
            ValidateScenario(data') == ValidateScenario(data)
  {
    var data' := JObject(data.fields["candles" := JArray([CandlesOf(data)[0]] + later)]);
    assert forall k :: k != "candles" ==> Prop(data', k) == Prop(data, k);
    assert CandlesOf(data')[0] == CandlesOf(data)[0];
  }

  // ---------------------------------------------------------------------------
  // Downsampling
  // ---------------------------------------------------------------------------

  /** Sequences of at most this many candles are kept as they are. */
  const OptimizeThreshold: nat := 500
  /** Longer sequences keep every Stride-th candle. */
  const Stride: nat := 5

  /** The elements at indices 0, 5, 10, ... of `s`. */
  function EveryFifth<T>(s: seq<T>): (r: seq<T>)
    ensures |r| == (|s| + 4) / 5
    ensures forall k :: 0 <= k < |r| ==> 5 * k < |s| && r[k] == s[5 * k]
    decreases |s|
  {
    if |s| == 0 then [] else [s[0]] + EveryFifth(s[if |s| < Stride then |s| else Stride..])
  }

  /** What `optimizeCandles` returns, as a function of its argument: never
      longer than its input, the input itself up to the threshold, and above it
      a selection that keeps the first candle. */
  function Optimized<T>(candles: seq<T>): (r: seq<T>)
    ensures |r| <= |candles|
    ensures |candles| <= OptimizeThreshold <==> r == candles
    ensures |candles| > 0 ==> |r| > 0 && r[0] == candles[0]
  {
    if |candles| <= OptimizeThreshold then candles else EveryFifth(candles)
  }

  /** `optimizeCandles`: the input itself when it has at most 500 elements,
      otherwise the ceil(n/5) elements at indices 0, 5, 10, ... in order. */
  method OptimizeCandles<T>(candles: seq<T>) returns (optimized: seq<T>)
    ensures |candles| <= OptimizeThreshold ==> optimized == candles
    ensures |candles| > OptimizeThreshold ==>
              |optimized| == (|candles| + 4) / 5 &&
              forall k :: 0 <= k < |optimized| ==> optimized[k] == candles[5 * k]
    ensures optimized == Optimized(candles)
  {
    if |candles| <= OptimizeThreshold {
      return candles;
    }
    optimized := [];
    var i := 0;
    while i < |candles|
      invariant i % Stride == 0 && i <= |candles| + 4
      invariant |optimized| == i / Stride
      invariant forall k :: 0 <= k < |optimized| ==> optimized[k] == candles[5 * k]
    {
      optimized := optimized + [candles[i]];
      i := i + Stride;
    }
    assert |optimized| == |EveryFifth(candles)|;
  }

  // ---------------------------------------------------------------------------
  // Parsing a file once it has been read
  // ---------------------------------------------------------------------------

  /** What reading a file yields: a read failure, or text that JSON.parse turns
      into a value or rejects with a SyntaxError. */
  datatype FileContent = Unreadable | Text(decoded: Result<Json, JsError>)

  const InvalidFormatMessage: string := "Invalid scenario data format"
  const ReadFailureMessage: string := "Failed to read file"
  const ParseFailurePrefix: string := "Failed to parse file: "

  /** `{...data, candles: optimizeCandles(data.candles)}` for a value that passed
      validation. */
  function WithOptimizedCandles(data: Json): (r: Json)
    requires data.JObject? && IsArray(Prop(data, "candles"))
    ensures r.JObject? && r.fields.Keys == data.fields.Keys
    ensures IsArray(Prop(r, "candles")) && CandlesOf(r) == Optimized(CandlesOf(data))
    ensures forall k :: k in data.fields && k != "candles" ==> r.fields[k] == data.fields[k]
  {
    JObject(data.fields["candles" := JArray(Optimized(CandlesOf(data)))])
  }

  /** The outcome of `parseScenarioFile` once the reader has finished: the read
      error, a decode error or a validator throw wrapped as "Failed to parse
      file: ...", exactly "Invalid scenario data format" for a value that does not
      validate, and otherwise the decoded object with only its candles replaced
      by their downsampled sequence. */
  function ParseScenarioFile(content: FileContent): (r: Result<Json, JsError>)
    ensures content.Unreadable? ==> r == Err(Error(ReadFailureMessage))
    ensures content.Text? && content.decoded.Err? ==>
              r == Err(Error(ParseFailurePrefix + ErrorString(content.decoded.error)))
    ensures content.Text? && content.decoded.Ok? ==>
              var data := content.decoded.value;
              && (r.Ok? <==> ConformsToScenarioShape(data))
              && (ValidateScenario(data) == Returns(false) ==> r == Err(Error(InvalidFormatMessage)))
              && (ValidateScenario(data).Throws? ==>
                    r == Err(Error(ParseFailurePrefix + ErrorString(ValidateScenario(data).error))))
              && (r.Ok? ==>
                    && data.JObject? && r.value.JObject?
                    && r.value.fields.Keys == data.fields.Keys
                    && r.value.fields["candles"] == JArray(Optimized(CandlesOf(data)))
                    && forall k :: k in data.fields && k != "candles" ==> r.value.fields[k] == data.fields[k])
  {
    match content
    case Unreadable => Err(Error(ReadFailureMessage))
    case Text(Err(syntaxError)) => Err(Error(ParseFailurePrefix + ErrorString(syntaxError)))
    case Text(Ok(data)) =>
      ValidateScenarioMeaning(data);
      match ValidateScenario(data)
      case Throws(e) => Err(Error(ParseFailurePrefix + ErrorString(e)))
      case Returns(false) => Err(Error(InvalidFormatMessage))
      case Returns(true) => Ok(WithOptimizedCandles(data))
  }

  // ---------------------------------------------------------------------------
  // The bounded ordered list of scenarios
  // ---------------------------------------------------------------------------

  const MaxScenarios: nat := 6

  const CapacityMessage: string := "Maximum of 6 scenarios allowed. Please remove one first."

  /** What `addScenario` does to a list: throw when it is full, otherwise
      append. */
  function TryAdd(scenarios: seq<ScenarioData>, scenario: ScenarioData): (r: Result<seq<ScenarioData>, JsError>)
    ensures r.Ok? <==> |scenarios| < MaxScenarios
    ensures r.Ok? ==> |r.value| == |scenarios| + 1 && r.value[..|scenarios|] == scenarios && r.value[|scenarios|] == scenario
    ensures r.Err? ==> r.error == Error(CapacityMessage)
  {
    if |scenarios| >= MaxScenarios then Err(Error(CapacityMessage)) else Ok(scenarios + [scenario])
  }

  /** `xs.filter((_, i) => i !== index)` on the suffix of a list that starts at
      position `offset`. */
  function KeepOtherPositions<S>(xs: seq<S>, index: int, offset: int): seq<S>
    decreases |xs|
  {
    if xs == [] then []
    else (if offset != index then [xs[0]] else []) + KeepOtherPositions(xs[1..], index, offset + 1)
  }

  /** `xs.filter((_, i) => i !== index)`: one element fewer when `index` is a
      position of `xs`, and every later element moved down by one. */
  function WithoutIndex<S>(xs: seq<S>, index: int): (r: seq<S>)
    ensures |r| == if 0 <= index < |xs| then |xs| - 1 else |xs|
    ensures forall k :: 0 <= k < |r| ==> r[k] == xs[if 0 <= index <= k then k + 1 else k]
  {
    KeepOtherPositionsSplice(xs, index, 0);
    KeepOtherPositions(xs, index, 0)
  }

  lemma {:induction false} KeepOtherPositionsSplice<S>(xs: seq<S>, index: int, offset: int)
    ensures KeepOtherPositions(xs, index, offset) ==
            if offset <= index < offset + |xs| then xs[..index - offset] + xs[index - offset + 1..] else xs
    decreases |xs|
  {
    if xs != [] {
      KeepOtherPositionsSplice(xs[1..], index, offset + 1);
      if offset == index {
        assert xs[..0] + xs[1..] == xs[1..];
      } else if offset < index < offset + |xs| {
        assert [xs[0]] + (xs[1..][..index - offset - 1] + xs[1..][index - offset..])
            == xs[..index - offset] + xs[index - offset + 1..];
      } else {
        assert [xs[0]] + xs[1..] == xs;
      }
    }
  }

  /** Filtering out one position deletes exactly that element and shifts the later
      ones down in order; an index outside the list changes nothing. */
  lemma WithoutIndexSplice<S>(xs: seq<S>, index: int)
    ensures 0 <= index < |xs| ==> WithoutIndex(xs, index) == xs[..index] + xs[index + 1..]
    ensures !(0 <= index < |xs|) ==> WithoutIndex(xs, index) == xs
    ensures 0 <= index < |xs| ==> |WithoutIndex(xs, index)| == |xs| - 1
  {
    KeepOtherPositionsSplice(xs, index, 0);
  }

  /** The service's list of scenarios. Every operation replaces the whole list,
      so a list obtained earlier is an unchanging snapshot. */
  class ScenarioService {
    var scenarios: seq<ScenarioData>

    /** The list never holds more than six scenarios. */
    ghost predicate Valid()
      reads this
    {
      |scenarios| <= MaxScenarios
    }

    constructor ()
      ensures Valid() && scenarios == []
    {
      scenarios := [];
    }

    /** `addScenario`: a full list throws the capacity error and stays as it was;
        otherwise the scenario is appended after the existing ones. */
    method AddScenario(scenario: ScenarioData) returns (thrown: Option<JsError>)
      requires Valid()
      modifies this
      ensures Valid()
      ensures |old(scenarios)| >= MaxScenarios ==>
                thrown == Some(Error(CapacityMessage)) && scenarios == old(scenarios)
      ensures |old(scenarios)| < MaxScenarios ==>
                thrown == None && scenarios == old(scenarios) + [scenario]
    {
      var currentScenarios := scenarios;
      if |currentScenarios| >= MaxScenarios {
        return Some(Error(CapacityMessage));
      }
      scenarios := currentScenarios + [scenario];
      thrown := None;
    }

    /** `removeScenario`: the element at `index` is deleted and later ones shift
        down; an index outside the list is a no-op. */
    method RemoveScenario(index: int)
      requires Valid()
      modifies this
      ensures Valid()
      ensures scenarios == WithoutIndex(old(scenarios), index)
      ensures 0 <= index < |old(scenarios)| ==>
                scenarios == old(scenarios)[..index] + old(scenarios)[index + 1..]
      ensures !(0 <= index < |old(scenarios)|) ==> scenarios == old(scenarios)
    {
      var currentScenarios := scenarios;
      WithoutIndexSplice(currentScenarios, index);
      scenarios := WithoutIndex(currentScenarios, index);
    }

    /** `clearAllScenarios`: the list becomes empty, whatever it held, so a second
        call changes nothing. */
    method ClearAllScenarios()
      requires Valid()
      modifies this
      ensures Valid() && scenarios == []
    {
      scenarios := [];
    }

    /** `getScenariosCount`. */
    method GetScenariosCount() returns (count: nat)
      requires Valid()
      ensures count == |scenarios| && count <= MaxScenarios
    {
      count := |scenarios|;
    }

    /** `getScenarios`. */
    method GetScenarios() returns (list: seq<ScenarioData>)
      ensures list == scenarios
    {
      list := scenarios;
    }
  }
}
