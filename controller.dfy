/**
  The page side of public/rvcat.js: the table of reply handlers keyed by
  request id, the routing of worker replies to them, the one-shot handlers
  `getTimeline` and `getProgramJSON` install and restore, and the clamps on
  the iteration fields. Page elements are parameters: a field's text comes
  in, and what the page would show is kept in fields of the model.
*/
module Controller {
  import opened Base
  import W = Worker
  import Commands
  import ProgramText
  import Diagram
  import Analysis

  const MaxProgramIterations: nat := 3000

  // ---------------------------------------------------------------------------
  // Iteration fields
  // ---------------------------------------------------------------------------

  /** The value of a string of decimal digits. */
  function DigitsValue(s: string): nat
    requires forall k :: 0 <= k < |s| ==> '0' <= s[k] <= '9'
    decreases |s|
  {
    if s == [] then 0 else DigitsValue(s[..|s| - 1]) * 10 + (s[|s| - 1] as int - '0' as int)
  }

  /** How a field's text compares with a number: its value when it is a plain decimal numeral, and `None` (NaN) otherwise. */
  function NumberOf(s: string): Option<nat>
  {
    if s != [] && forall k :: 0 <= k < |s| ==> '0' <= s[k] <= '9' then Some(DigitsValue(s)) else None
  }

  /** A number printed into a field reads back as itself. */
  lemma {:induction false} NumberOfPrinted(n: nat)
    ensures NumberOf(NatToString(n)) == Some(n)
    decreases n
  {
    var s := NatToString(n);
    if n >= 10 {
      NumberOfPrinted(n / 10);
      assert s[..|s| - 1] == NatToString(n / 10);
    } else {
      assert s == [Digit(n)] && s[..|s| - 1] == [];
      assert Digit(n) as int == 48 + n;
      assert DigitsValue(s) == DigitsValue([]) * 10 + (s[0] as int - '0' as int);
    }
  }

  /** What reading a field gives: the value used, and the field's text afterwards (`None` when there is no such field). */
  datatype FieldRead = FieldRead(value: string, field: Option<string>)

  /**
    `currentIterations()`: 200 when the page has no iterations field; an
    empty field is set to 100 and an over-large one to 3000, and the field's
    text is the value.
  */
  function CurrentIterations(field: Option<string>): FieldRead
  {
    match field
    case None => FieldRead(NatToString(200), None)
    case Some(text) =>
      if text == "" then FieldRead(NatToString(100), Some(NatToString(100)))
      else if NumberOf(text).Some? && NumberOf(text).value > MaxProgramIterations then
        FieldRead(NatToString(MaxProgramIterations), Some(NatToString(MaxProgramIterations)))
      else FieldRead(text, field)
  }

  /**
    The count used is 200 without a field, 100 for an empty one, never a
    number over 3000, and the field's own text when that is at most 3000 or
    not a number; the field then shows the value, so reading again gives the
    same.
  */
  lemma CurrentIterationsFacts(field: Option<string>)
    ensures var r := CurrentIterations(field);
      && (field.None? ==> NumberOf(r.value) == Some(200) && r.field.None?)
      && (field == Some("") ==> NumberOf(r.value) == Some(100))
      && (NumberOf(r.value).Some? ==> NumberOf(r.value).value <= MaxProgramIterations)
      && (field.Some? && field.value != "" && (NumberOf(field.value).None? || NumberOf(field.value).value <= MaxProgramIterations) ==>
            r.value == field.value)
      && (field.Some? ==> r.field == Some(r.value))
      && CurrentIterations(r.field) == r
  {
    NumberOfPrinted(200);
    NumberOfPrinted(100);
    NumberOfPrinted(MaxProgramIterations);
  }

  /** `getTimeline`'s count: 3 for an empty field, and 50 (also written back) for one over 50. */
  function TimelineIterations(field: string): FieldRead
  {
    if field == "" then FieldRead(NatToString(3), Some(field))
    else if NumberOf(field).Some? && NumberOf(field).value > 50 then FieldRead(NatToString(50), Some(NatToString(50)))
    else FieldRead(field, Some(field))
  }

  /** The timeline count is 3 for an empty field, never a number over 50, and otherwise the field's text. */
  lemma TimelineIterationsFacts(field: string)
    ensures var r := TimelineIterations(field);
      && (field == "" ==> NumberOf(r.value) == Some(3) && r.field == Some(""))
      && (NumberOf(r.value).Some? ==> NumberOf(r.value).value <= 50)
      && (field != "" && (NumberOf(field).None? || NumberOf(field).value <= 50) ==> r == FieldRead(field, Some(field)))
  {
    NumberOfPrinted(3);
    NumberOfPrinted(50);
  }

  // ---------------------------------------------------------------------------
  // The handler table
  // ---------------------------------------------------------------------------

  const GetPrograms: string := "get_programs"
  const GetProcessors: string := "get_processors"
  const ProgShow: string := "prog_show"
  const ProgShowAnnotations: string := "prog_show_annotations"
  const GetProcSettings: string := "get_proc_settings"
  const SaveProcessorInfo: string := "save_processor_info"
  const GenerateDependenciesGraph: string := "generate_dependencies_graph"
  const GenerateCriticalPathsGraph: string := "generate_critical_paths_graph"
  const GenerateSchedulerAnalysis: string := "generate_scheduler_analysis"
  const FormatTimeline: string := "format_timeline"
  const PrintOutput: string := "print_output"
  const SaveModifiedProcessor: string := "save_modified_processor"
  const GetProgramJson: string := "get_program_json"
  const AddNewProgram: string := "add_new_program"

  /** The keys of `handlers`, in the order they are declared. */
  const HandlerNames: seq<string> := [
    GetPrograms, GetProcessors, ProgShow, ProgShowAnnotations, GetProcSettings, SaveProcessorInfo,
    GenerateDependenciesGraph, GenerateCriticalPathsGraph, GenerateSchedulerAnalysis, FormatTimeline,
    PrintOutput, SaveModifiedProcessor, GetProgramJson, AddNewProgram
  ]

  /** The handlers whose first step is `JSON.parse(data)`. */
  const ParsingHandlers: set<string> := {GetPrograms, GetProcessors, GetProcSettings, SaveProcessorInfo,
                                         GenerateSchedulerAnalysis, GetProgramJson}

  /**
    A handler: a standing one by its key, or the one-shot replacement
    `getTimeline` or `getProgramJSON` installs over the handler saved in
    `previous`. A one-shot handler settles the promise of the call that
    installed it, named by the position of that call's request among the
    posted messages.
  */
  datatype Handler =
    | Standing(name: string)
    | TimelineOnce(previous: Handler, request: nat)
    | ProgramJsonOnce(previous: Handler, request: nat)

  /** The standing handler under any number of one-shot replacements. */
  function Innermost(h: Handler): string
  {
    match h
    case Standing(name) => name
    case TimelineOnce(previous, _) => Innermost(previous)
    case ProgramJsonOnce(previous, _) => Innermost(previous)
  }

  /** The table as the page loads it: each key's standing handler. */
  function InitialHandlers(): map<string, Handler>
  {
    map k | k in HandlerNames :: Standing(k)
  }

  /** A table with a handler for exactly the declared keys, each over that key's standing handler. */
  predicate TableShape(handlers: map<string, Handler>)
  {
    && handlers.Keys == (set k | k in HandlerNames)
    && (forall k :: k in handlers ==> Innermost(handlers[k]) == k)
  }

  /** The declared keys are distinct, so the table has fourteen entries. */
  lemma InitialTable()
    ensures TableShape(InitialHandlers())
    ensures |HandlerNames| == 14 && Distinct(HandlerNames)
    ensures |InitialHandlers().Keys| == 14
  {
    var m := InitialHandlers();
    assert Distinct(HandlerNames);
    assert m.Keys == set k | k in HandlerNames;
    DistinctCard(HandlerNames);
  }

  lemma {:induction false} DistinctCard(s: seq<string>)
    requires Distinct(s)
    ensures |set k | k in s| == |s|
    decreases |s|
  {
    if s != [] {
      var rest := s[1..];
      assert Distinct(rest);
      DistinctCard(rest);
      assert (set k | k in s) == (set k | k in rest) + {s[0]};
      assert s[0] !in rest;
    }
  }

  // ---------------------------------------------------------------------------
  // Reply routing
  // ---------------------------------------------------------------------------

  /** Where `worker.onmessage` sends a reply. */
  datatype Route =
    | SendInitialRequests
    | Ignore
    | LogError
    | Unregistered(key: string)
    | Call(key: string, handler: Handler)

  /**
    `initialized` sends the two list requests, `loadedPackage` does nothing,
    an `executed` error is logged, one without an id is dropped, and any
    other executed reply goes to the handler under its id. An id with no
    handler calls `undefined`.
  */
  function RouteOf(reply: W.Reply, handlers: map<string, Handler>): (r: Route)
    ensures r.Call? ==> r.key in handlers && r.handler == handlers[r.key]
  {
    match reply
    case Initialized => SendInitialRequests
    case LoadedPackage(_) => Ignore
    case Executed(result, dataType, id) =>
      if dataType == W.Error then LogError
      else if id.None? then Ignore
      else if id.value in handlers then Call(id.value, handlers[id.value])
      else Unregistered(id.value)
  }

  /** The requests `initialized` sends, in order: the program list, then the processor list. */
  function InitialRequests(): seq<W.Request>
  {
    [W.ExecuteRequest(Commands.GetAvailablePrograms, Some(GetPrograms)),
     W.ExecuteRequest(Commands.GetAvailableProcessors, Some(GetProcessors))]
  }

  /**
    The routing rules: an error reply reaches no handler whatever its id;
    a text reply with an id reaches the handler under the id when there is
    one and throws otherwise; a reply without an id reaches none.
  */
  lemma RouteRules(result: string, id: Option<string>, handlers: map<string, Handler>)
    ensures RouteOf(W.Executed(result, W.Error, id), handlers) == LogError
    ensures id.None? ==> RouteOf(W.Executed(result, W.Text, id), handlers) == Ignore
    ensures id.Some? ==>
      (RouteOf(W.Executed(result, W.Text, id), handlers).Call? <==> id.value in handlers)
      && (id.value in handlers ==> RouteOf(W.Executed(result, W.Text, id), handlers) == Call(id.value, handlers[id.value]))
      && (id.value !in handlers ==> RouteOf(W.Executed(result, W.Text, id), handlers) == Unregistered(id.value))
  {
  }

  /**
    What the page posts comes back to a handler: the worker answers a
    request with a registered id by an `executed` reply that carries the
    same id, so the reply is either logged as an error or routed to the
    handler registered under that id, never to `undefined`.
  */
  lemma PostedReplyRoutes(s: W.WorkerState, code: string, key: string, run: W.RunOutcome, handlers: map<string, Handler>)
    requires key in handlers
    ensures var replies := W.Step(s, W.ExecuteRequest(code, Some(key)), run).replies;
      && |replies| == 1
      && var route := RouteOf(replies[0], handlers);
         (route == LogError || route == Call(key, handlers[key]))
         && (route == LogError <==> !s.interpreter || run.Raised?)
  {
  }

  // ---------------------------------------------------------------------------
  // The page
  // ---------------------------------------------------------------------------

  /**
    How a reply's handling ends: normally, with a JavaScript exception out
    of `onmessage`, or on a value whose shape the model does not follow.
  */
  datatype Exception = NotAFunction | SyntaxError | TypeError
  datatype Outcome = Completed | Thrown(exception: Exception) | Unfollowed

  /**
    A settled promise of `getTimeline` or `getProgramJSON`, with the
    position of the request whose call created the promise.
  */
  datatype Settlement = Resolved(request: nat, text: string) | ResolvedJson(request: nat, value: Json) | Rejected(request: nat)

  /** A standing handler that ran, with the reply text it was given. */
  datatype Invocation = Invocation(name: string, data: string)

  /** The requests a standing handler posts once its reply has parsed. */
  function StandingPosts(name: string, sel: Commands.Selection): seq<W.Request>
  {
    if name == GetProcessors then
      [W.ExecuteRequest(Commands.RvcatHeader(sel) + Commands.ProgShowExecution, Some(ProgShow)),
       W.ExecuteRequest(Commands.RvcatHeader(sel) + Commands.ShowProcessor, Some(SaveProcessorInfo))]
    else if name == SaveProcessorInfo then
      [W.ExecuteRequest(Commands.RvcatHeader(sel) + Commands.RunProgramAnalysis, Some(GenerateSchedulerAnalysis))]
    else []
  }

  /** How the scheduler-analysis handler ends, by the way its run ends. */
  function AnalysisOutcome(run: Analysis.AnalysisRun): Outcome
  {
    match run
    case Threw(_) => Thrown(TypeError)
    case NotFollowed => Unfollowed
    case _ => Completed
  }

  /** The simulation diagram on the page after a run: the one drawn, if any. */
  function GraphAfter(run: Analysis.AnalysisRun, before: Option<Diagram.Graph>): Option<Diagram.Graph>
  {
    match run
    case Threw(Some(graph)) => Some(graph)
    case Shown(graph, _) => Some(graph)
    case _ => before
  }

  /** The critical-path list on the page after a run: the one shown, if any. */
  function ListAfter(run: Analysis.AnalysisRun, before: Option<seq<Analysis.PathItem>>): Option<seq<Analysis.PathItem>>
  {
    match run
    case Shown(_, pathList) => Some(pathList)
    case _ => before
  }

  class Page {
    /** `handlers`. */
    var handlers: map<string, Handler>
    /** `timelineData`, `programData` and `processorInfo` (`None` is `null`). */
    var timelineData: Option<string>
    var programData: Option<Json>
    var processorInfo: Option<Json>
    /** The text of the program listing and of the performance annotations. */
    var listing: string
    var annotations: string
    /** The simulation diagram and the critical-path list the scheduler analysis last drew. */
    var simulationGraph: Option<Diagram.Graph>
    var criticalPathList: Option<seq<Analysis.PathItem>>
    /** The standing handlers run so far, the promises settled and the messages posted to the worker. */
    var invoked: seq<Invocation>
    var settled: seq<Settlement>
    var posted: seq<W.Request>

    predicate Valid()
      reads this
    {
      TableShape(handlers)
    }

    /** What only standing handlers change is as it was. */
    twostate predicate ViewsKept()
      reads this
    {
      && processorInfo == old(processorInfo) && listing == old(listing) && annotations == old(annotations)
      && simulationGraph == old(simulationGraph) && criticalPathList == old(criticalPathList)
    }

    /**
      The standing handler `name` ran on `data`, `parsed` being what
      `JSON.parse` makes of it. One that parses throws a SyntaxError on
      unparsable text before it changes anything. Otherwise:
      - `get_processors` asks for the listing and the processor;
      - `save_processor_info` stores the processor and asks for the analysis;
      - `get_proc_settings` and `get_program_json` store what they parse;
      - `prog_show` and `prog_show_annotations` show their texts;
      - `format_timeline` stores its text;
      - `generate_scheduler_analysis` ends as its run on the stored
        processor does, showing what that run draws.
    */
    twostate predicate StandingRan(name: string, data: string, sel: Commands.Selection, parsed: Option<Json>, outcome: Outcome)
      reads this
    {
      && handlers == old(handlers) && settled == old(settled)
      && invoked == old(invoked) + [Invocation(name, data)]
      && if name in ParsingHandlers && parsed.None? then
           && outcome == Thrown(SyntaxError)
           && posted == old(posted) && timelineData == old(timelineData) && programData == old(programData)
           && ViewsKept()
         else
           && posted == old(posted) + StandingPosts(name, sel)
           && timelineData == (if name == FormatTimeline then Some(data) else old(timelineData))
           && programData == (if name == GetProgramJson then parsed else old(programData))
           && processorInfo == (if name == GetProcSettings || name == SaveProcessorInfo then parsed else old(processorInfo))
           && listing == (if name == ProgShow then ProgramText.ProgramListing(data) else old(listing))
           && annotations == (if name == ProgShowAnnotations then ProgramText.Annotations(data) else old(annotations))
           && if name == GenerateSchedulerAnalysis then
                var run := Analysis.Run(parsed.value, old(processorInfo), sel.robSize);
                && outcome == AnalysisOutcome(run)
                && simulationGraph == GraphAfter(run, old(simulationGraph))
                && criticalPathList == ListAfter(run, old(criticalPathList))
              else
                outcome == Completed && simulationGraph == old(simulationGraph) && criticalPathList == old(criticalPathList)
    }

    constructor ()
      ensures Valid() && handlers == InitialHandlers()
      ensures timelineData.None? && programData.None? && processorInfo.None?
      ensures listing == "" && annotations == "" && simulationGraph.None? && criticalPathList.None?
      ensures invoked == [] && settled == [] && posted == []
    {
      handlers := InitialHandlers();
      timelineData, programData, processorInfo := None, None, None;
      listing, annotations := "", "";
      simulationGraph, criticalPathList := None, None;
      invoked, settled, posted := [], [], [];
      new;
      InitialTable();
    }

    /** `executeCode(code, id)`. */
    method ExecuteCode(code: string, id: string)
      modifies this
      ensures posted == old(posted) + [W.ExecuteRequest(code, Some(id))]
      ensures handlers == old(handlers) && timelineData == old(timelineData) && programData == old(programData)
      ensures ViewsKept() && invoked == old(invoked) && settled == old(settled)
    {
      posted := posted + [W.ExecuteRequest(code, Some(id))];
    }

    /**
      `worker.onmessage`, with `parsed` standing for what `JSON.parse` makes
      of the reply's text (`None` when it throws) and `sel` for the page's
      current selection.
    */
    method Deliver(reply: W.Reply, sel: Commands.Selection, parsed: Option<Json>) returns (outcome: Outcome)
      requires Valid()
      modifies this
      ensures Valid()
      ensures match RouteOf(reply, old(handlers))
        case SendInitialRequests =>
          && outcome == Completed && posted == old(posted) + InitialRequests()
          && handlers == old(handlers) && invoked == old(invoked) && settled == old(settled)
          && timelineData == old(timelineData) && programData == old(programData) && ViewsKept()
        case Ignore => outcome == Completed && unchanged(this)
        case LogError => outcome == Completed && unchanged(this)
        case Unregistered(_) => outcome == Thrown(NotAFunction) && unchanged(this)
        case Call(key, handler) =>
          match handler
          case Standing(name) => StandingRan(name, reply.result, sel, parsed, outcome)
          case TimelineOnce(previous, request) =>
            && outcome == Completed
            && handlers == old(handlers)[key := previous]
            && timelineData == Some(reply.result)
            && settled == old(settled) + [Resolved(request, reply.result)]
            && invoked == old(invoked) && posted == old(posted)
            && programData == old(programData) && ViewsKept()
          case ProgramJsonOnce(previous, request) =>
            && outcome == Completed
            && handlers == old(handlers)[key := previous]
            && programData == (if parsed.Some? then parsed else old(programData))
            && settled == old(settled) + [if parsed.Some? then ResolvedJson(request, parsed.value) else Rejected(request)]
            && invoked == old(invoked) && posted == old(posted)
            && timelineData == old(timelineData) && ViewsKept()
    {
      match RouteOf(reply, handlers)
      case SendInitialRequests =>
        outcome := RequestLists();
      case Ignore =>
        outcome := Completed;
      case LogError =>
        outcome := Completed;
      case Unregistered(_) =>
        outcome := Thrown(NotAFunction);
      case Call(key, handler) =>
        outcome := Completed;
        match handler
        case Standing(name) =>
          outcome := RunStanding(name, reply.result, sel, parsed);
        case TimelineOnce(previous, request) =>
          SettleTimeline(key, previous, request, reply.result);
        case ProgramJsonOnce(previous, request) =>
          SettleProgramJson(key, previous, request, parsed);
    }

    /** The one-shot timeline handler: store the text, resolve the promise and put back the handler it replaced. */
    method SettleTimeline(key: string, previous: Handler, request: nat, text: string)
      requires Valid() && key in handlers && handlers[key] == TimelineOnce(previous, request)
      modifies this
      ensures Valid() && handlers == old(handlers)[key := previous]
      ensures timelineData == Some(text) && settled == old(settled) + [Resolved(request, text)]
      ensures invoked == old(invoked) && posted == old(posted) && programData == old(programData) && ViewsKept()
    {
      timelineData := Some(text);
      settled := settled + [Resolved(request, text)];
      handlers := handlers[key := previous];
    }

    /**
      The one-shot program handler: store and resolve what parses, reject
      what does not, and put back the handler it replaced.
    */
    method SettleProgramJson(key: string, previous: Handler, request: nat, parsed: Option<Json>)
      requires Valid() && key in handlers && handlers[key] == ProgramJsonOnce(previous, request)
      modifies this
      ensures Valid() && handlers == old(handlers)[key := previous]
      ensures programData == (if parsed.Some? then parsed else old(programData))
      ensures settled == old(settled) + [if parsed.Some? then ResolvedJson(request, parsed.value) else Rejected(request)]
      ensures invoked == old(invoked) && posted == old(posted) && timelineData == old(timelineData) && ViewsKept()
    {
      if parsed.Some? {
        programData := parsed;
        settled := settled + [ResolvedJson(request, parsed.value)];
      } else {
        settled := settled + [Rejected(request)];
      }
      handlers := handlers[key := previous];
    }

    /** `initialized`: ask for the program list, then the processor list. */
    method RequestLists() returns (outcome: Outcome)
      modifies this
      ensures outcome == Completed && posted == old(posted) + InitialRequests()
      ensures handlers == old(handlers) && invoked == old(invoked) && settled == old(settled)
      ensures timelineData == old(timelineData) && programData == old(programData) && ViewsKept()
    {
      ExecuteCode(Commands.GetAvailablePrograms, GetPrograms);
      ExecuteCode(Commands.GetAvailableProcessors, GetProcessors);
      outcome := Completed;
    }

    /** The body of the standing handler `name`, run on `data`. */
    method RunStanding(name: string, data: string, sel: Commands.Selection, parsed: Option<Json>) returns (outcome: Outcome)
      modifies this
      ensures StandingRan(name, data, sel, parsed, outcome)
      ensures outcome == Thrown(SyntaxError) <==> name in ParsingHandlers && parsed.None?
    {
      invoked := invoked + [Invocation(name, data)];
      if name in ParsingHandlers && parsed.None? {
        return Thrown(SyntaxError);
      }
      if name == GenerateSchedulerAnalysis {
        outcome := ShowAnalysis(parsed.value, sel);
      } else if name == GetProcessors || name == SaveProcessorInfo {
        outcome := RequestNext(name, sel, parsed);
      } else {
        outcome := Store(name, data, parsed);
      }
    }

    /**
      `generate_scheduler_analysis` on a reply that parsed: the run on the
      stored processor, and what it draws.
    */
    method ShowAnalysis(reply: Json, sel: Commands.Selection) returns (outcome: Outcome)
      modifies this
      ensures var run := Analysis.Run(reply, old(processorInfo), sel.robSize);
        && outcome == AnalysisOutcome(run)
        && simulationGraph == GraphAfter(run, old(simulationGraph))
        && criticalPathList == ListAfter(run, old(criticalPathList))
      ensures handlers == old(handlers) && settled == old(settled) && invoked == old(invoked) && posted == old(posted)
      ensures timelineData == old(timelineData) && programData == old(programData)
      ensures processorInfo == old(processorInfo) && listing == old(listing) && annotations == old(annotations)
    {
      var run := Analysis.SchedulerAnalysis(reply, processorInfo, sel.robSize);
      outcome := AnalysisOutcome(run);
      simulationGraph := GraphAfter(run, simulationGraph);
      criticalPathList := ListAfter(run, criticalPathList);
    }

    /**
      `get_processors` and `save_processor_info` on a reply that parsed: the
      requests they post, and the processor the second one stores.
    */
    method RequestNext(name: string, sel: Commands.Selection, parsed: Option<Json>) returns (outcome: Outcome)
      requires name == GetProcessors || name == SaveProcessorInfo
      modifies this
      ensures outcome == Completed && posted == old(posted) + StandingPosts(name, sel)
      ensures processorInfo == (if name == SaveProcessorInfo then parsed else old(processorInfo))
      ensures handlers == old(handlers) && settled == old(settled) && invoked == old(invoked)
      ensures timelineData == old(timelineData) && programData == old(programData) && listing == old(listing)
      ensures annotations == old(annotations) && simulationGraph == old(simulationGraph) && criticalPathList == old(criticalPathList)
    {
      outcome := Completed;
      if name == GetProcessors {
        ExecuteCode(Commands.RvcatHeader(sel) + Commands.ProgShowExecution, ProgShow);
        ExecuteCode(Commands.RvcatHeader(sel) + Commands.ShowProcessor, SaveProcessorInfo);
      } else {
        processorInfo := parsed;
        ExecuteCode(Commands.RvcatHeader(sel) + Commands.RunProgramAnalysis, GenerateSchedulerAnalysis);
      }
    }

    /** The other standing handlers: each stores or shows what it was given, and posts nothing. */
    method Store(name: string, data: string, parsed: Option<Json>) returns (outcome: Outcome)
      requires name != GenerateSchedulerAnalysis && name != GetProcessors && name != SaveProcessorInfo
      modifies this
      ensures outcome == Completed
      ensures timelineData == (if name == FormatTimeline then Some(data) else old(timelineData))
      ensures programData == (if name == GetProgramJson then parsed else old(programData))
      ensures processorInfo == (if name == GetProcSettings then parsed else old(processorInfo))
      ensures listing == (if name == ProgShow then ProgramText.ProgramListing(data) else old(listing))
      ensures annotations == (if name == ProgShowAnnotations then ProgramText.Annotations(data) else old(annotations))
      ensures handlers == old(handlers) && settled == old(settled) && invoked == old(invoked) && posted == old(posted)
      ensures simulationGraph == old(simulationGraph) && criticalPathList == old(criticalPathList)
    {
      outcome := Completed;
      if name == ProgShow {
        var lines := ProgramText.Lines(ProgramText.BeforeFirst(data, ProgramText.Through));
        var kept := ProgramText.TrimBlankLines(lines);
        listing := ProgramText.Join(kept);
      } else if name == ProgShowAnnotations {
        annotations := ProgramText.Annotations(data);
      } else if name == GetProcSettings {
        processorInfo := parsed;
      } else if name == FormatTimeline {
        timelineData := Some(data);
      } else if name == GetProgramJson {
        programData := parsed;
      }
    }

    /**
      `getTimeline()`: clamp the count, install the one-shot timeline handler
      over the current one for the request about to be posted, and post it
      under its key.
    */
    method GetTimeline(field: string, sel: Commands.Selection) returns (count: FieldRead)
      requires Valid()
      modifies this
      ensures Valid()
      ensures count == TimelineIterations(field)
      ensures handlers == old(handlers)[FormatTimeline := TimelineOnce(old(handlers)[FormatTimeline], |old(posted)|)]
      ensures posted == old(posted) + [W.ExecuteRequest(Commands.RvcatHeader(sel) + Commands.ShowTimeline(count.value), Some(FormatTimeline))]
      ensures timelineData == old(timelineData) && programData == old(programData) && ViewsKept()
      ensures invoked == old(invoked) && settled == old(settled)
    {
      count := TimelineIterations(field);
      var original := handlers[FormatTimeline];
      handlers := handlers[FormatTimeline := TimelineOnce(original, |posted|)];
      ExecuteCode(Commands.RvcatHeader(sel) + Commands.ShowTimeline(count.value), FormatTimeline);
    }

    /** `getProgramJSON()`: install the one-shot program handler over the current one and request the program. */
    method GetProgramJSON()
      requires Valid()
      modifies this
      ensures Valid()
      ensures handlers == old(handlers)[GetProgramJson := ProgramJsonOnce(old(handlers)[GetProgramJson], |old(posted)|)]
      ensures posted == old(posted) + [W.ExecuteRequest(Commands.GetProgramJson, Some(GetProgramJson))]
      ensures timelineData == old(timelineData) && programData == old(programData) && ViewsKept()
      ensures invoked == old(invoked) && settled == old(settled)
    {
      var original := handlers[GetProgramJson];
      handlers := handlers[GetProgramJson := ProgramJsonOnce(original, |posted|)];
      ExecuteCode(Commands.GetProgramJson, GetProgramJson);
    }

    /**
      The reply to a pending timeline request arrives: the one-shot handler
      on top of `format_timeline` stores the text, resolves the promise of
      the request that installed it, and puts back the handler it replaced.
    */
    method AnswerTimeline(text: string, sel: Commands.Selection, parsed: Option<Json>) returns (outcome: Outcome)
      requires Valid() && handlers[FormatTimeline].TimelineOnce?
      modifies this
      ensures Valid() && outcome == Completed
      ensures handlers == old(handlers)[FormatTimeline := old(handlers)[FormatTimeline].previous]
      ensures timelineData == Some(text) && settled == old(settled) + [Resolved(old(handlers)[FormatTimeline].request, text)]
      ensures invoked == old(invoked) && posted == old(posted) && programData == old(programData) && ViewsKept()
    {
      var top := handlers[FormatTimeline];
      assert RouteOf(W.Executed(text, W.Text, Some(FormatTimeline)), handlers) == Call(FormatTimeline, top);
      outcome := Deliver(W.Executed(text, W.Text, Some(FormatTimeline)), sel, parsed);
    }

    /**
      The reply to a pending program request arrives: the one-shot handler
      on top of `get_program_json` stores and resolves what parses, rejects
      what does not, and puts back the handler it replaced.
    */
    method AnswerProgramJson(text: string, sel: Commands.Selection, parsed: Option<Json>) returns (outcome: Outcome)
      requires Valid() && handlers[GetProgramJson].ProgramJsonOnce?
      modifies this
      ensures Valid() && outcome == Completed
      ensures handlers == old(handlers)[GetProgramJson := old(handlers)[GetProgramJson].previous]
      ensures programData == (if parsed.Some? then parsed else old(programData))
      ensures var request := old(handlers)[GetProgramJson].request;
        settled == old(settled) + [if parsed.Some? then ResolvedJson(request, parsed.value) else Rejected(request)]
      ensures invoked == old(invoked) && posted == old(posted) && timelineData == old(timelineData) && ViewsKept()
    {
      var top := handlers[GetProgramJson];
      assert RouteOf(W.Executed(text, W.Text, Some(GetProgramJson)), handlers) == Call(GetProgramJson, top);
      outcome := Deliver(W.Executed(text, W.Text, Some(GetProgramJson)), sel, parsed);
    }

    /** An error reply arrives: it is logged, and nothing on the page changes. */
    method AnswerError(description: string, id: Option<string>, sel: Commands.Selection, parsed: Option<Json>) returns (outcome: Outcome)
      requires Valid()
      modifies this
      ensures outcome == Completed && handlers == old(handlers) && settled == old(settled) && posted == old(posted)
      ensures timelineData == old(timelineData) && programData == old(programData) && invoked == old(invoked) && ViewsKept()
    {
      assert RouteOf(W.Executed(description, W.Error, id), handlers) == LogError;
      outcome := Deliver(W.Executed(description, W.Error, id), sel, parsed);
    }

    // -------------------------------------------------------------------------
    // Override and restore
    // -------------------------------------------------------------------------

    /**
      A timeline request answered with text: the one-shot handler stores the
      text and resolves the promise of that request, and the table is back
      to what it was before the request.
    */
    method TimelineRoundTrip(field: string, sel: Commands.Selection, text: string, parsed: Option<Json>)
      requires Valid()
      modifies this
      ensures Valid() && handlers == old(handlers)
      ensures timelineData == Some(text) && settled == old(settled) + [Resolved(|old(posted)|, text)]
      ensures invoked == old(invoked)
    {
      var _ := GetTimeline(field, sel);
      var _ := AnswerTimeline(text, sel, parsed);
      assert handlers == old(handlers)[FormatTimeline := old(handlers)[FormatTimeline]];
    }

    /**
      A program request answered with text: whether the text parses (and is
      stored and resolved) or not (and the promise is rejected), the table is
      back to what it was before the request.
    */
    method ProgramJsonRoundTrip(sel: Commands.Selection, text: string, parsed: Option<Json>)
      requires Valid()
      modifies this
      ensures Valid() && handlers == old(handlers)
      ensures parsed.Some? ==> programData == parsed && settled == old(settled) + [ResolvedJson(|old(posted)|, parsed.value)]
      ensures parsed.None? ==> programData == old(programData) && settled == old(settled) + [Rejected(|old(posted)|)]
    {
      GetProgramJSON();
      var _ := AnswerProgramJson(text, sel, parsed);
      assert handlers == old(handlers)[GetProgramJson := old(handlers)[GetProgramJson]];
    }

    /**
      A timeline request answered with an error: no handler runs, so the
      one-shot handler stays installed and the request's promise never
      settles.
    */
    method TimelineErrorKeepsOverride(field: string, sel: Commands.Selection, description: string, parsed: Option<Json>)
      requires Valid()
      modifies this
      ensures Valid()
      ensures handlers == old(handlers)[FormatTimeline := TimelineOnce(old(handlers)[FormatTimeline], |old(posted)|)]
      ensures settled == old(settled) && timelineData == old(timelineData)
    {
      var _ := GetTimeline(field, sel);
      var _ := AnswerError(description, Some(FormatTimeline), sel, parsed);
    }

    /**
      Two timeline requests before either reply. Each override saves the
      handler it replaces, so the overrides stack up, while the worker
      answers the requests in the order they were posted. The reply `first`
      to the earlier request therefore runs the later request's handler and
      resolves the later promise; `second` resolves the earlier one. After
      both the table is as it was, and `timelineData` holds `second`.
    */
    method NestedTimelines(field: string, sel: Commands.Selection, first: string, second: string, parsed: Option<Json>)
      requires Valid()
      modifies this
      ensures Valid() && handlers == old(handlers)
      ensures |posted| == |old(posted)| + 2 && posted[|old(posted)|] == posted[|old(posted)| + 1]
      ensures posted[|old(posted)|].id == Some(FormatTimeline)
      ensures timelineData == Some(second)
      ensures settled == old(settled) + [Resolved(|old(posted)| + 1, first), Resolved(|old(posted)|, second)]
    {
      var original := handlers[FormatTimeline];
      var earlier := |posted|;
      var _ := GetTimeline(field, sel);
      var _ := GetTimeline(field, sel);
      assert handlers[FormatTimeline] == TimelineOnce(TimelineOnce(original, earlier), earlier + 1);
      var _ := AnswerTimeline(first, sel, parsed);
      assert handlers[FormatTimeline] == TimelineOnce(original, earlier);
      var _ := AnswerTimeline(second, sel, parsed);
      assert handlers == old(handlers)[FormatTimeline := old(handlers)[FormatTimeline]];
    }
  }
}
