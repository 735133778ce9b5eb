/** The upload coordinator: the file-uploader component's batch handling over
    the scenario service, and its drag-state and error-message fields. */
module Uploader {
  import opened JsValues
  import opened ScenarioModel
  import opened Scenarios

  /** A file handle as the browser hands it over: its name and what reading it
      yields. */
  datatype File = File(name: string, content: FileContent)

  /** The service's `parseScenarioFile`, seen from the component: each file
      either yields a scenario or rejects with an error. */
  type Parser = File -> Result<ScenarioData, JsError>

  const MaxFilesPerBatch: nat := 6
  const TooManyFilesMessage: string := "Maximum 6 files can be uploaded at once"
  const FallbackMessage: string := "Failed to upload files"
  const JsonSuffix: string := ".json"

  /** The message when the store cannot take the whole batch. */
  function RemainingMessage(currentCount: int): string {
    "Can only upload " + IntString(MaxScenarios - currentCount) + " more scenario(s). Maximum is 6 total."
  }

  function NotJsonMessage(name: string): string {
    "File \"" + name + "\" is not a JSON file"
  }

  function ParseFailedMessage(name: string, cause: JsError): string {
    "Failed to parse \"" + name + "\": " + ErrorString(cause)
  }

  /** `error.message || 'Failed to upload files'`. */
  function MessageOf(e: JsError): (m: string)
    ensures m != ""
  {
    if e.message == "" then FallbackMessage else e.message
  }

  /** One iteration of the file loop: the suffix check, then the parser, whose
      rejection is wrapped with the file name. */
  function ParseOne(file: File, parse: Parser): (r: Result<ScenarioData, JsError>)
    ensures r.Ok? <==> EndsWith(file.name, JsonSuffix) && parse(file).Ok?
    ensures r.Ok? ==> r.value == parse(file).value
    ensures r.Err? ==> r.error.name == "Error" && r.error.message != ""
  {
    if !EndsWith(file.name, JsonSuffix) then
      Err(Error(NotJsonMessage(file.name)))
    else
      match parse(file)
      case Ok(scenario) => Ok(scenario)
      case Err(cause) => Err(Error(ParseFailedMessage(file.name, cause)))
  }

  /** The file loop: every file in order, stopping at the first failure. */
  function ParseAll(files: seq<File>, parse: Parser): (r: Result<seq<ScenarioData>, JsError>)
    ensures r.Ok? ==> |r.value| == |files|
    ensures r.Err? ==> exists i :: 0 <= i < |files| && ParseOne(files[i], parse) == Err(r.error)
    decreases |files|
  {
    if files == [] then Ok([])
    else
      match ParseOne(files[0], parse)
      case Err(e) => Err(e)
      case Ok(scenario) => Prepend(scenario, ParseAll(files[1..], parse))
  }

  function Prepend(scenario: ScenarioData, rest: Result<seq<ScenarioData>, JsError>): Result<seq<ScenarioData>, JsError> {
    match rest
    case Ok(tail) => Ok([scenario] + tail)
    case Err(e) => Err(e)
  }

  lemma PrependAllStep(done: seq<ScenarioData>, scenario: ScenarioData, rest: Result<seq<ScenarioData>, JsError>)
    ensures PrependAll(done, Prepend(scenario, rest)) == PrependAll(done + [scenario], rest)
  {
    if rest.Ok? {
      assert done + ([scenario] + rest.value) == done + [scenario] + rest.value;
    }
  }

  function PrependAll(done: seq<ScenarioData>, rest: Result<seq<ScenarioData>, JsError>): Result<seq<ScenarioData>, JsError> {
    match rest
    case Ok(tail) => Ok(done + tail)
    case Err(e) => Err(e)
  }

  /** The `forEach` over the parsed scenarios: each is added in turn and the
      first throw stops the rest, keeping what was added before it. */
  function AddAll(stored: seq<ScenarioData>, scenarios: seq<ScenarioData>): (r: (seq<ScenarioData>, Option<JsError>))
    ensures |stored| <= |r.0| <= |stored| + |scenarios| && r.0[..|stored|] == stored
    ensures |stored| <= MaxScenarios ==> |r.0| <= MaxScenarios
    ensures r.1.None? ==> r.0 == stored + scenarios
    ensures r.1.Some? ==> r.1.value == Error(CapacityMessage) && |r.0| >= MaxScenarios
    decreases |scenarios|
  {
    if scenarios == [] then (stored, None)
    else
      match TryAdd(stored, scenarios[0])
      case Err(e) => (stored, Some(e))
      case Ok(stored') => AddAll(stored', scenarios[1..])
  }

  /** What a call of `handleFiles` leaves behind: the store's list, the error
      message, and the list emitted to the parent (None when nothing is
      emitted). */
  datatype BatchOutcome = BatchOutcome(stored: seq<ScenarioData>, errorMessage: string, emitted: Option<seq<ScenarioData>>)

  /** `handleFiles` as a function of the files, the parser and the store's list
      at entry. */
  function HandleFilesOutcome(files: seq<File>, parse: Parser, stored: seq<ScenarioData>): (r: BatchOutcome)
    ensures r.errorMessage == "" <==> r.emitted.Some?
    ensures |stored| <= |r.stored| && r.stored[..|stored|] == stored
    ensures |stored| <= MaxScenarios ==> |r.stored| <= MaxScenarios
    ensures r.emitted.Some? ==> r.stored == stored + r.emitted.value && |r.emitted.value| == |files|
  {
    if |files| > MaxFilesPerBatch then
      BatchOutcome(stored, TooManyFilesMessage, None)
    else if |stored| + |files| > MaxScenarios then
      BatchOutcome(stored, RemainingMessage(|stored|), None)
    else
      match ParseAll(files, parse)
      case Err(e) => BatchOutcome(stored, MessageOf(e), None)
      case Ok(scenarios) =>
        var (stored', thrown) := AddAll(stored, scenarios);
        match thrown
        case Some(e) => BatchOutcome(stored', MessageOf(e), None)
        case None => BatchOutcome(stored', "", Some(scenarios))
  }

  // ---------------------------------------------------------------------------
  // Properties of the batch
  // ---------------------------------------------------------------------------

  /** The file loop succeeds exactly when every file passes the suffix check and
      the parser, and then yields their scenarios in file order. */
  lemma {:induction false} ParseAllSucceeds(files: seq<File>, parse: Parser)
    ensures ParseAll(files, parse).Ok? <==> forall i :: 0 <= i < |files| ==> ParseOne(files[i], parse).Ok?
    ensures ParseAll(files, parse).Ok? ==>
              |ParseAll(files, parse).value| == |files| &&
              forall i :: 0 <= i < |files| ==>
                EndsWith(files[i].name, JsonSuffix) && parse(files[i]).Ok? &&
                ParseAll(files, parse).value[i] == parse(files[i]).value
    decreases |files|
  {
    if files != [] {
      ParseAllSucceeds(files[1..], parse);
      assert forall i :: 1 <= i < |files| ==> files[i] == files[1..][i - 1];
      if ParseOne(files[0], parse).Ok? && ParseAll(files[1..], parse).Ok? {
        var ss := ParseAll(files, parse).value;
        assert forall i :: 1 <= i < |files| ==> ss[i] == ParseAll(files[1..], parse).value[i - 1];
      }
    }
  }

  /** The first file that fails decides the batch's error. */
  lemma {:induction false} ParseAllFirstFailure(files: seq<File>, parse: Parser, k: nat)
    requires k < |files|
    requires forall j :: 0 <= j < k ==> ParseOne(files[j], parse).Ok?
    requires ParseOne(files[k], parse).Err?
    ensures ParseAll(files, parse) == Err(ParseOne(files[k], parse).error)
    decreases k
  {
    if k > 0 {
      assert forall j :: 0 <= j < k - 1 ==> files[1..][j] == files[j + 1];
      ParseAllFirstFailure(files[1..], parse, k - 1);
    }
  }

  /** Adding a batch that fits in the remaining capacity never throws and appends
      the whole batch in order. */
  lemma {:induction false} AddAllWithinCapacity(stored: seq<ScenarioData>, scenarios: seq<ScenarioData>)
    requires |stored| + |scenarios| <= MaxScenarios
    ensures AddAll(stored, scenarios) == (stored + scenarios, None)
    decreases |scenarios|
  {
    if scenarios == [] {
      assert stored + scenarios == stored;
    } else {
      assert TryAdd(stored, scenarios[0]) == Ok(stored + [scenarios[0]]);
      AddAllWithinCapacity(stored + [scenarios[0]], scenarios[1..]);
      assert stored + [scenarios[0]] + scenarios[1..] == stored + scenarios;
    }
  }

  /** When a batch does not fit, the adds before the throw stay in the list: the
      list is filled to six and the capacity error is reported. */
  lemma {:induction false} AddAllPartialCommit(stored: seq<ScenarioData>, scenarios: seq<ScenarioData>)
    requires |stored| <= MaxScenarios < |stored| + |scenarios|
    ensures AddAll(stored, scenarios) ==
            (stored + scenarios[..MaxScenarios - |stored|], Some(Error(CapacityMessage)))
    decreases |scenarios|
  {
    if |stored| == MaxScenarios {
      assert stored + scenarios[..0] == stored;
    } else {
      assert TryAdd(stored, scenarios[0]) == Ok(stored + [scenarios[0]]);
      AddAllPartialCommit(stored + [scenarios[0]], scenarios[1..]);
      assert stored + [scenarios[0]] + scenarios[1..][..MaxScenarios - |stored| - 1]
          == stored + scenarios[..MaxScenarios - |stored|];
    }
  }

  /** A batch is emitted exactly when it passes both limits and every file
      parses; it is then added in file order and the error message is empty.
      Otherwise nothing is emitted, the list is left as it was and an error
      message is shown. */
  lemma BatchIsAllOrNothing(files: seq<File>, parse: Parser, stored: seq<ScenarioData>)
    requires |stored| <= MaxScenarios
    ensures var outcome := HandleFilesOutcome(files, parse, stored);
            && (outcome.emitted.Some? <==>
                  && |files| <= MaxFilesPerBatch
                  && |stored| + |files| <= MaxScenarios
                  && forall i :: 0 <= i < |files| ==> ParseOne(files[i], parse).Ok?)
            && (outcome.emitted.Some? ==>
                  && outcome.errorMessage == ""
                  && outcome.stored == stored + outcome.emitted.value
                  && |outcome.emitted.value| == |files|
                  && forall i :: 0 <= i < |files| ==> outcome.emitted.value[i] == parse(files[i]).value)
            && (outcome.emitted.None? ==> outcome.stored == stored && outcome.errorMessage != "")
  {
    ParseAllSucceeds(files, parse);
    if |files| <= MaxFilesPerBatch && |stored| + |files| <= MaxScenarios && ParseAll(files, parse).Ok? {
      AddAllWithinCapacity(stored, ParseAll(files, parse).value);
    }
  }

  /** A file without the ".json" suffix aborts the batch with its name in the
      message, whatever its content, and nothing is added. */
  lemma NonJsonFileAbortsBatch(files: seq<File>, parse: Parser, stored: seq<ScenarioData>, k: nat)
    requires |files| <= MaxFilesPerBatch && |stored| + |files| <= MaxScenarios
    requires k < |files| && forall j :: 0 <= j < k ==> ParseOne(files[j], parse).Ok?
    requires !EndsWith(files[k].name, JsonSuffix)
    ensures HandleFilesOutcome(files, parse, stored) ==
            BatchOutcome(stored, "File \"" + files[k].name + "\" is not a JSON file", None)
  {
    ParseAllFirstFailure(files, parse, k);
  }

  /** A parser rejection aborts the batch with the file name and the rejection's
      text in the message, and nothing is added. */
  lemma ParserFailureAbortsBatch(files: seq<File>, parse: Parser, stored: seq<ScenarioData>, k: nat)
    requires |files| <= MaxFilesPerBatch && |stored| + |files| <= MaxScenarios
    requires k < |files| && forall j :: 0 <= j < k ==> ParseOne(files[j], parse).Ok?
    requires EndsWith(files[k].name, JsonSuffix) && parse(files[k]).Err?
    ensures HandleFilesOutcome(files, parse, stored) ==
            BatchOutcome(stored, "Failed to parse \"" + files[k].name + "\": " + ErrorString(parse(files[k]).error), None)
  {
    ParseAllFirstFailure(files, parse, k);
  }

  /** The two limits are checked before any file is looked at: a batch of more
      than six files, or one that would take the list past six, is refused with
      the matching message and nothing is added. */
  lemma LimitsCheckedFirst(files: seq<File>, parse: Parser, stored: seq<ScenarioData>)
    requires |files| > MaxFilesPerBatch || |stored| + |files| > MaxScenarios
    ensures var outcome := HandleFilesOutcome(files, parse, stored);
            && outcome.stored == stored && outcome.emitted == None
            && outcome.errorMessage ==
                 if |files| > MaxFilesPerBatch then "Maximum 6 files can be uploaded at once"
                 else "Can only upload " + IntString(6 - |stored|) + " more scenario(s). Maximum is 6 total."
  {
  }

  // ---------------------------------------------------------------------------
  // The component
  // ---------------------------------------------------------------------------

  class FileUploaderComponent {
    var isDragging: bool
    var isLoading: bool
    var errorMessage: string
    const scenarioService: ScenarioService

    /** The store keeps at most six scenarios, and no batch is in flight
        between calls: one batch runs to completion at a time. */
    ghost predicate Valid()
      reads this, scenarioService
    {
      scenarioService.Valid() && !isLoading
    }

    constructor (scenarioService: ScenarioService)
      requires scenarioService.Valid()
      ensures Valid() && this.scenarioService == scenarioService
      ensures !isDragging && !isLoading && errorMessage == ""
    {
      this.scenarioService := scenarioService;
      isDragging := false;
      isLoading := false;
      errorMessage := "";
    }

    /** `onDragOver`. */
    method OnDragOver()
      modifies this`isDragging
      ensures isDragging
    {
      isDragging := true;
    }

    /** `onDragLeave`. */
    method OnDragLeave()
      modifies this`isDragging
      ensures !isDragging
    {
      isDragging := false;
    }

    /** `onDrop`: the drag ends, and the dropped file list, when there is one (even empty), is
        handled as a batch. */
    method OnDrop(files: Option<seq<File>>, parse: Parser) returns (emitted: Option<seq<ScenarioData>>)
      requires Valid()
      modifies this, scenarioService
      ensures Valid() && !isDragging
      ensures files.None? ==>
                emitted == None && isLoading == old(isLoading) && errorMessage == old(errorMessage) &&
                scenarioService.scenarios == old(scenarioService.scenarios)
      ensures files.Some? ==>
                BatchOutcome(scenarioService.scenarios, errorMessage, emitted) ==
                HandleFilesOutcome(files.value, parse, old(scenarioService.scenarios))
      ensures !isLoading
    {
      isDragging := false;
      emitted := None;
      if files.Some? {
        emitted := HandleFiles(files.value, parse);
      }
    }

    /** `onFileSelect`: the picked file list, when there is one (even empty), is handled as a
        batch. */
    method OnFileSelect(files: Option<seq<File>>, parse: Parser) returns (emitted: Option<seq<ScenarioData>>)
      requires Valid()
      modifies this, scenarioService
      ensures Valid() && isDragging == old(isDragging)
      ensures files.None? ==>
                emitted == None && isLoading == old(isLoading) && errorMessage == old(errorMessage) &&
                scenarioService.scenarios == old(scenarioService.scenarios)
      ensures files.Some? ==>
                BatchOutcome(scenarioService.scenarios, errorMessage, emitted) ==
                HandleFilesOutcome(files.value, parse, old(scenarioService.scenarios))
      ensures !isLoading
    {
      emitted := None;
      if files.Some? {
        emitted := HandleFiles(files.value, parse);
      }
    }

    /** `handleFiles`: the store's list, the error message and the emitted list
        are those of HandleFilesOutcome. The loading flag is raised only past the
        two limit checks and is lowered again on every path after that, so it
        is down whenever the call returns. */
    method HandleFiles(files: seq<File>, parse: Parser) returns (emitted: Option<seq<ScenarioData>>)
      requires Valid()
      modifies this, scenarioService
      ensures Valid() && isDragging == old(isDragging)
      ensures BatchOutcome(scenarioService.scenarios, errorMessage, emitted) ==
              HandleFilesOutcome(files, parse, old(scenarioService.scenarios))
      ensures !isLoading
    {
      errorMessage := "";
      emitted := None;

      if |files| > MaxFilesPerBatch {
        errorMessage := TooManyFilesMessage;
        return;
      }

      var currentCount := scenarioService.GetScenariosCount();
      if currentCount + |files| > MaxScenarios {
        errorMessage := RemainingMessage(currentCount);
        return;
      }

      isLoading := true;
      var parsed := ParseFiles(files, parse);
      match parsed {
        case Err(e) =>
          errorMessage := MessageOf(e);
        case Ok(scenarios) =>
          var thrown := AddScenarios(scenarios);
          match thrown {
            case Some(e) => errorMessage := MessageOf(e);
            case None => emitted := Some(scenarios);
          }
      }
      isLoading := false;
    }

    /** The file loop of `handleFiles`: each file in order gets the suffix check
        and is parsed; the first failure ends the loop with its error, and
        otherwise the scenarios come back in file order. */
    method ParseFiles(files: seq<File>, parse: Parser) returns (parsed: Result<seq<ScenarioData>, JsError>)
      ensures parsed == ParseAll(files, parse)
    {
      var scenarios: seq<ScenarioData> := [];
      var i := 0;
      assert files[0..] == files;
      assert PrependAll([], ParseAll(files, parse)) == ParseAll(files, parse) by {
        if ParseAll(files, parse).Ok? {
          assert [] + ParseAll(files, parse).value == ParseAll(files, parse).value;
        }
      }
      while i < |files|
        invariant 0 <= i <= |files|
        invariant ParseAll(files, parse) == PrependAll(scenarios, ParseAll(files[i..], parse))
      {
        var file := files[i];
        assert files[i..][0] == file && files[i..][1..] == files[i + 1..];
        if !EndsWith(file.name, JsonSuffix) {
          return Err(Error(NotJsonMessage(file.name)));
        }
        var result := parse(file);
        if result.Err? {
          return Err(Error(ParseFailedMessage(file.name, result.error)));
        }
        PrependAllStep(scenarios, result.value, ParseAll(files[i + 1..], parse));
        scenarios := scenarios + [result.value];
        i := i + 1;
      }
      assert files[i..] == [] && scenarios + [] == scenarios;
      parsed := Ok(scenarios);
    }

    /** The `forEach` of `handleFiles`: the scenarios are added in order, and the
        first add that throws stops the rest. */
    method AddScenarios(scenarios: seq<ScenarioData>) returns (thrown: Option<JsError>)
      requires scenarioService.Valid()
      modifies scenarioService
      ensures scenarioService.Valid()
      ensures (scenarioService.scenarios, thrown) == AddAll(old(scenarioService.scenarios), scenarios)
    {
      ghost var stored := scenarioService.scenarios;
      var j := 0;
      while j < |scenarios|
        invariant 0 <= j <= |scenarios|
        invariant scenarioService.Valid()
        invariant AddAll(stored, scenarios) == AddAll(scenarioService.scenarios, scenarios[j..])
      {
        assert scenarios[j..] == [scenarios[j]] + scenarios[j + 1..];
        thrown := scenarioService.AddScenario(scenarios[j]);
        if thrown.Some? {
          return;
        }
        j := j + 1;
      }
      assert scenarios[j..] == [];
      thrown := None;
    }

    /** `clearError`. */
    method ClearError()
      modifies this`errorMessage
      ensures errorMessage == ""
    {
      errorMessage := "";
    }
  }
}
