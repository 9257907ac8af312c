/**
  The `generate_scheduler_analysis` reply handler of public/rvcat.js and the
  critical-path list it draws: the report's IPC turned into stage usage
  percentages, the per-port usage read in the processor's port order, the
  full pipeline diagram drawn from them, and the coloured list of the
  critical path's shares.
*/
module Analysis {
  import opened Base
  import opened Diagram
  import Processor

  /** What `processorInfo` supplies: the stage widths and the port keys in `Object.keys` order. */
  datatype ProcessorInfo = ProcessorInfo(dispatch: int, execute: int, retire: int, portKeys: seq<string>)

  /**
    One entry of `critical_path.instructions`: what its `instruction` member
    holds (`None` when it has none), printed as the row's caption, and its
    share of the path, in percent.
  */
  datatype Share = Share(instruction: Option<Json>, percentage: real)

  /** `critical_path`: the dispatch share, the instructions' shares in order, and the retire share. */
  datatype CriticalPath = CriticalPath(dispatch: real, instructions: seq<Share>, retire: real)

  /** What the aggregation reads from the report: the IPC, and the usage of each port by its key where it is a number. */
  datatype Report = Report(ipc: real, ports: map<string, real>)

  // ---------------------------------------------------------------------------
  // Usage aggregation
  // ---------------------------------------------------------------------------

  /** `(ipc / width) * 100`: the percentage of a stage's slots in use. */
  function StageUsage(ipc: real, width: int): (u: real)
    requires width > 0
    ensures u * width as real == ipc * 100.0
  {
    ipc / width as real * 100.0
  }

  /** `d.ports[key]`, `undefined` when the report has no entry for the key. */
  function PortEntry(ports: map<string, real>, key: string): Option<real>
  {
    if key in ports then Some(ports[key]) else None
  }

  /** The `usage` object the handler builds. */
  function Usage(info: ProcessorInfo, report: Report): UsageSample
    requires info.dispatch > 0 && info.execute > 0 && info.retire > 0
  {
    UsageSample(
      StageUsage(report.ipc, info.dispatch),
      StageUsage(report.ipc, info.execute),
      StageUsage(report.ipc, info.retire),
      seq(|info.portKeys|, i requires 0 <= i < |info.portKeys| => PortEntry(report.ports, info.portKeys[i])))
  }

  /** The aggregation: the three stage percentages, then `usage.ports[i] = d.ports[keys[i]]` for each key in turn. */
  method AggregateUsage(info: ProcessorInfo, report: Report) returns (u: UsageSample)
    requires info.dispatch > 0 && info.execute > 0 && info.retire > 0
    ensures u == Usage(info, report)
  {
    var keys := info.portKeys;
    var ports: seq<Option<real>> := [];
    var i := 0;
    while i < |keys|
      invariant 0 <= i <= |keys| && |ports| == i
      invariant forall k :: 0 <= k < i ==> ports[k] == PortEntry(report.ports, keys[k])
    {
      ports := ports + [PortEntry(report.ports, keys[i])];
      i := i + 1;
    }
    u := UsageSample(
      report.ipc / info.dispatch as real * 100.0,
      report.ipc / info.execute as real * 100.0,
      report.ipc / info.retire as real * 100.0,
      ports);
  }

  /**
    The usage sample holds each stage's percentage of slots in use, and one
    entry per processor port in key order: the i-th port's usage is the
    report's entry for the i-th key, and there is nothing past the last key.
  */
  lemma UsageFacts(info: ProcessorInfo, report: Report)
    requires info.dispatch > 0 && info.execute > 0 && info.retire > 0
    ensures var u := Usage(info, report);
      && u.dispatch * info.dispatch as real == report.ipc * 100.0
      && u.execute * info.execute as real == report.ipc * 100.0
      && u.retire * info.retire as real == report.ipc * 100.0
      && (forall i: nat :: i < |info.portKeys| ==> PortUsage(u, i) == PortEntry(report.ports, info.portKeys[i]))
      && (forall i: nat :: i >= |info.portKeys| ==> PortUsage(u, i).None?)
  {
  }

  /**
    Drawn with as many ports as the processor has keys, the full diagram
    succeeds exactly when the report has an entry for every key; then each
    port's node is filled with the colour of its entry, unless that is 0.
  */
  lemma AggregatedDiagram(info: ProcessorInfo, report: Report, robSize: string)
    requires info.dispatch > 0 && info.execute > 0 && info.retire > 0
    ensures var n, u := |info.portKeys|, Usage(info, report);
      var r := Processor.Full(info.dispatch, n, info.retire, robSize, Some(u));
      && (r.Success? <==> forall i :: 0 <= i < n ==> info.portKeys[i] in report.ports)
      && (r.Failure? ==> r.error == Processor.UndefinedPortUsage)
      && (r.Success? ==> forall p: nat | p < n ::
            && |DeclsOf(r.value, Port(p))| == 1
            && var d, v := DeclsOf(r.value, Port(p))[0], report.ports[info.portKeys[p]];
               (d.fill.None? <==> v == 0.0) && (v != 0.0 ==> d.fill == Some(UsageColor(v))))
  {
    var n, u := |info.portKeys|, Usage(info, report);
    UsageFacts(info, report);
    var r := Processor.Full(info.dispatch, n, info.retire, robSize, Some(u));
    assert Processor.AllPortsKnown(u, n) <==> forall i :: 0 <= i < n ==> info.portKeys[i] in report.ports by {
      if !Processor.AllPortsKnown(u, n) {
        var i :| 0 <= i < n && PortUsage(u, i).None?;
        assert info.portKeys[i] !in report.ports;
      }
    }
    if r.Success? {
      forall p: nat | p < n
        ensures && |DeclsOf(r.value, Port(p))| == 1
          && var d, v := DeclsOf(r.value, Port(p))[0], report.ports[info.portKeys[p]];
             (d.fill.None? <==> v == 0.0) && (v != 0.0 ==> d.fill == Some(UsageColor(v)))
      {
        Processor.FullPorts(info.dispatch, n, info.retire, robSize, u, p);
      }
    }
  }

  // ---------------------------------------------------------------------------
  // The critical-path list
  // ---------------------------------------------------------------------------

  /**
    The tenths `toFixed(1)` rounds to: the nearest integer to 10x, ties away
    from zero (the sign is set aside first and put back afterwards).
  */
  function RoundTenth(x: real): int
  {
    if x >= 0.0 then (10.0 * x + 0.5).Floor else -((-10.0 * x + 0.5).Floor)
  }

  /** `toFixed(1) != 0.0` fails, for "0.0" and "-0.0" alike, exactly when |x| < 0.05. */
  lemma RoundTenthZero(x: real)
    ensures RoundTenth(x) == 0 <==> -0.05 < x < 0.05
  {
    if x >= 0.0 {
      var f := (10.0 * x + 0.5).Floor;
      assert f as real <= 10.0 * x + 0.5 < f as real + 1.0;
    } else {
      var f := (-10.0 * x + 0.5).Floor;
      assert f as real <= -10.0 * x + 0.5 < f as real + 1.0;
    }
  }

  /** The background of a row: white for a share that reads 0.0, the gradient colour otherwise. */
  function LineColor(percentage: real): string
  {
    if RoundTenth(percentage) == 0 then "white" else UsageColor(percentage)
  }

  /** What a row names: the dispatch stage, an instruction by its index, or the retire stage. */
  datatype Caption = DispatchRow | InstructionRow(instruction: Option<Json>) | RetireRow

  /** A row of the list: its background, the share it shows and its caption. */
  datatype PathItem = PathItem(background: string, percentage: real, caption: Caption)

  function InstructionItem(s: Share): PathItem
  {
    PathItem(LineColor(s.percentage), s.percentage, InstructionRow(s.instruction))
  }

  /** The rows of the list, in order. */
  function PathItems(path: CriticalPath): seq<PathItem>
  {
    [PathItem(LineColor(path.dispatch), path.dispatch, DispatchRow)]
    + seq(|path.instructions|, k requires 0 <= k < |path.instructions| => InstructionItem(path.instructions[k]))
    + [PathItem(LineColor(path.retire), path.retire, RetireRow)]
  }

  /** `createCriticalPathList`: the DISPATCH row, one row per instruction in turn, then the RETIRE row. */
  method CriticalPathList(path: CriticalPath) returns (items: seq<PathItem>)
    ensures items == PathItems(path)
  {
    items := [PathItem(LineColor(path.dispatch), path.dispatch, DispatchRow)];
    var i := 0;
    while i < |path.instructions|
      invariant 0 <= i <= |path.instructions| && |items| == i + 1
      invariant items[0] == PathItem(LineColor(path.dispatch), path.dispatch, DispatchRow)
      invariant forall k :: 0 <= k < i ==> items[k + 1] == InstructionItem(path.instructions[k])
    {
      var share := path.instructions[i];
      items := items + [PathItem(LineColor(share.percentage), share.percentage, InstructionRow(share.instruction))];
      i := i + 1;
    }
    items := items + [PathItem(LineColor(path.retire), path.retire, RetireRow)];
  }

  /** Each row is white exactly when its share reads 0.0, and otherwise takes the share's gradient colour. */
  lemma PathItemsColours(path: CriticalPath)
    ensures var items := PathItems(path);
      forall k :: 0 <= k < |items| ==>
        && (items[k].background == "white" <==> -0.05 < items[k].percentage < 0.05)
        && (!(-0.05 < items[k].percentage < 0.05) ==> items[k].background == UsageColor(items[k].percentage))
  {
    var items := PathItems(path);
    forall k | 0 <= k < |items|
      ensures && (items[k].background == "white" <==> -0.05 < items[k].percentage < 0.05)
        && (!(-0.05 < items[k].percentage < 0.05) ==> items[k].background == UsageColor(items[k].percentage))
    {
      var p := items[k].percentage;
      RoundTenthZero(p);
      assert items[k].background == LineColor(p);
      assert "white" !in Palette;
      assert UsageColor(p) != "white";
    }
  }

  /**
    The list has one row per instruction between DISPATCH first and RETIRE
    last, each showing its own share in input order; a row is white exactly
    when its share is within 0.05 of zero, and otherwise takes the unclamped
    gradient colour of the share.
  */
  lemma PathItemsOrder(path: CriticalPath)
    ensures var items := PathItems(path);
      && |items| == |path.instructions| + 2
      && items[0].caption == DispatchRow && items[0].percentage == path.dispatch
      && items[|items| - 1].caption == RetireRow && items[|items| - 1].percentage == path.retire
      && (forall k :: 0 <= k < |path.instructions| ==>
            items[k + 1].caption == InstructionRow(path.instructions[k].instruction)
            && items[k + 1].percentage == path.instructions[k].percentage)
      && (forall k :: 0 <= k < |items| ==>
            && (items[k].background == "white" <==> -0.05 < items[k].percentage < 0.05)
            && (!(-0.05 < items[k].percentage < 0.05) ==> items[k].background == UsageColor(items[k].percentage)))
  {
    PathItemsColours(path);
  }

  /** A share of at least 0.05 and at most 100 gets one of the table's 21 lower colours; from 110 on it reads past the table. */
  lemma LineColorRange(p: real)
    ensures 0.05 <= p <= 100.0 ==> LineColor(p) in Palette[..21]
    ensures p >= 110.0 ==> LineColor(p) == Undefined
  {
    RoundTenthZero(p);
    if 0.05 <= p <= 100.0 {
      ColorIndexInTable(p);
    }
    ColorIndexUnclamped(p);
  }


  // ---------------------------------------------------------------------------
  // Reading the parsed reply and the processor
  // ---------------------------------------------------------------------------

  /** The value of the last member named `name`, since `JSON.parse` keeps the last of repeated names. */
  function LastNamed(members: seq<Member>, name: string): (r: Option<Json>)
    ensures r.None? <==> forall k :: 0 <= k < |members| ==> members[k].name != name
    ensures r.Some? ==> exists k :: 0 <= k < |members| && members[k] == Member(name, r.value)
                                    && forall j :: k < j < |members| ==> members[j].name != name
    decreases |members|
  {
    if members == [] then None
    else if members[|members| - 1].name == name then Some(members[|members| - 1].value)
    else LastNamed(members[..|members| - 1], name)
  }

  /** `value[name]`: a member's value for an object, `undefined` (`None`) for anything else. */
  function Get(value: Json, name: string): Option<Json>
  {
    if value.JObject? then LastNamed(value.members, name) else None
  }

  /** `null` or `undefined`: reading a property of either throws a TypeError. */
  predicate Nullish(v: Option<Json>)
  {
    v.None? || v.value.JNull?
  }

  /** `value[name]` when it is a number, the only kind of value `toFixed` works on. */
  function NumberIn(value: Json, name: string): Option<real>
  {
    match Get(value, name)
    case Some(JNumber(x)) => Some(x)
    case _ => None
  }

  /** `stages[name]` when it is a positive whole number. */
  function WidthIn(stages: Json, name: string): Option<int>
  {
    match NumberIn(stages, name)
    case Some(x) => if x.Floor as real == x && x.Floor > 0 then Some(x.Floor) else None
    case None => None
  }

  /** `Object.keys` of a parsed object: the distinct member names, in the order they first appear. */
  function Keys(members: seq<Member>): (keys: seq<string>)
    ensures Distinct(keys)
    ensures forall name :: name in keys <==> exists k :: 0 <= k < |members| && members[k].name == name
    decreases |members|
  {
    if members == [] then []
    else
      var front, last := Keys(members[..|members| - 1]), members[|members| - 1].name;
      if last in front then front else front + [last]
  }

  /** Reading a value out of parsed data: the value, a TypeError, or a shape the model does not follow. */
  datatype Read<T> = Got(value: T) | Throws | Unfollowed

  /**
    `processorInfo.stages.dispatch`, `.execute` and `.retire`, then
    `Object.keys(processorInfo.ports)`: a null `processorInfo`, or one
    without `stages` or `ports`, throws. The model follows stage widths
    that are positive whole numbers and `ports` that is an object, a
    number or a boolean (the last two have no keys).
  */
  function ReadInfo(info: Option<Json>): (r: Read<ProcessorInfo>)
    ensures Nullish(info) ==> r.Throws?
    ensures r.Got? ==> r.value.dispatch > 0 && r.value.execute > 0 && r.value.retire > 0 && Distinct(r.value.portKeys)
  {
    if Nullish(info) then Throws
    else
      var stages := Get(info.value, "stages");
      if Nullish(stages) then Throws
      else
        var dispatch, execute, retire := WidthIn(stages.value, "dispatch"), WidthIn(stages.value, "execute"), WidthIn(stages.value, "retire");
        if dispatch.None? || execute.None? || retire.None? then Unfollowed
        else
          var ports := Get(info.value, "ports");
          if Nullish(ports) then Throws
          else if ports.value.JArray? || ports.value.JString? then Unfollowed
          else Got(ProcessorInfo(dispatch.value, execute.value, retire.value,
                                 if ports.value.JObject? then Keys(ports.value.members) else []))
  }

  /**
    `usage.ports[i] = d.ports[key]` for each key in turn: with at least one
    key, a report without `ports` throws. An entry that is not a number is
    kept out of the map, since drawing it throws as drawing `undefined`
    does. An array of ports is not followed.
  */
  function ReadPorts(report: Json, keys: seq<string>): (r: Read<map<string, real>>)
    ensures keys != [] ==> (r.Throws? <==> Nullish(Get(report, "ports")))
    ensures r.Got? ==> forall key :: key in r.value ==> key in keys
    ensures r.Got? && keys != [] ==> (
      && !Nullish(Get(report, "ports"))
      && forall key :: key in keys ==> PortEntry(r.value, key) == NumberIn(Get(report, "ports").value, key))
  {
    if keys == [] then Got(map[])
    else
      var ports := Get(report, "ports");
      if Nullish(ports) then Throws
      else if ports.value.JArray? then Unfollowed
      else Got(map key | key in keys && NumberIn(ports.value, key).Some? :: NumberIn(ports.value, key).value)
  }

  /** One share per enumerated item, each needing a numeric `percentage`; `None` when one has none. */
  function SharesOf(items: seq<Json>): Option<seq<Share>>
  {
    if forall j :: 0 <= j < |items| ==> NumberIn(items[j], "percentage").Some? then
      Some(seq(|items|, j requires 0 <= j < |items| => Share(Get(items[j], "instruction"), NumberIn(items[j], "percentage").value)))
    else None
  }

  /** The member values of an object in `Object.keys` order, each the last so named. */
  function ValuesOf(members: seq<Member>): seq<Json>
  {
    var keys := Keys(members);
    seq(|keys|, j requires 0 <= j < |keys| => assert keys[j] in keys; LastNamed(members, keys[j]).value)
  }

  /**
    `for (let i in data['instructions'])`: an array by index, an object by
    key; nothing is enumerated in a missing value, `null`, a number, a
    boolean or an empty string, and a non-empty string enumerates
    characters, whose missing `percentage` throws.
  */
  function InstructionShares(instructions: Option<Json>): Option<seq<Share>>
  {
    if instructions.None? then Some([])
    else match instructions.value
      case JArray(items) => SharesOf(items)
      case JObject(members) => SharesOf(ValuesOf(members))
      case JString(text) => if text == "" then Some([]) else None
      case _ => Some([])
  }

  /**
    What `createCriticalPathList` reads: `dispatch`, each instruction's
    `percentage` and `retire`, all with `toFixed`. A missing path, or one of
    these that is not a number, throws (`None`).
  */
  function ReadPath(path: Option<Json>): Option<CriticalPath>
  {
    if Nullish(path) then None
    else
      var dispatch, retire := NumberIn(path.value, "dispatch"), NumberIn(path.value, "retire");
      var shares := InstructionShares(Get(path.value, "instructions"));
      if dispatch.None? || shares.None? || retire.None? then None
      else Some(CriticalPath(dispatch.value, shares.value, retire.value))
  }

  // ---------------------------------------------------------------------------
  // The handler
  // ---------------------------------------------------------------------------

  /** `createProcessorSimulationGraph(dispatch, ports, retire, usage)`: the full diagram of the aggregated usage. */
  function SimulationDiagram(info: ProcessorInfo, report: Report, robSize: string): Result<Graph, Processor.DiagramError>
    requires info.dispatch > 0 && info.execute > 0 && info.retire > 0
  {
    Processor.Full(info.dispatch, |info.portKeys|, info.retire, robSize, Some(Usage(info, report)))
  }

  /**
    How `generate_scheduler_analysis` ends. An error report only restores
    the page. A TypeError is thrown, after the diagram was drawn when it is
    the critical-path list that throws. A value may have a shape the model
    does not follow. Otherwise the diagram and the list are both shown.
  */
  datatype AnalysisRun =
    | ErrorReport
    | Threw(drawn: Option<Graph>)
    | NotFollowed
    | Shown(graph: Graph, pathList: seq<PathItem>)

  /**
    The handler on the parsed reply and the page's `processorInfo` (`None`
    for `null`), read by read in the handler's order. The first read that
    throws ends it, so the list comes only after the diagram is drawn.
  */
  function Run(reply: Json, info: Option<Json>, robSize: string): AnalysisRun
  {
    if reply.JNull? then Threw(None)
    else if Get(reply, "data_type") == Some(JString("error")) then ErrorReport
    else if NumberIn(reply, "ipc").None? || NumberIn(reply, "cycles_per_iteration").None? then Threw(None)
    else match ReadInfo(info)
      case Throws => Threw(None)
      case Unfollowed => NotFollowed
      case Got(processor) =>
        match ReadPorts(reply, processor.portKeys)
        case Throws => Threw(None)
        case Unfollowed => NotFollowed
        case Got(ports) =>
          match SimulationDiagram(processor, Report(NumberIn(reply, "ipc").value, ports), robSize)
          case Failure(_) => Threw(None)
          case Success(graph) =>
            match ReadPath(Get(reply, "critical_path"))
            case None => Threw(Some(graph))
            case Some(path) => Shown(graph, PathItems(path))
  }

  /** The handler, with the usage loop, the diagram builder and the list loop as methods. */
  method SchedulerAnalysis(reply: Json, info: Option<Json>, robSize: string) returns (run: AnalysisRun)
    ensures run == Run(reply, info, robSize)
  {
    if reply.JNull? {
      return Threw(None);
    }
    if Get(reply, "data_type") == Some(JString("error")) {
      return ErrorReport;
    }
    var ipc, cycles := NumberIn(reply, "ipc"), NumberIn(reply, "cycles_per_iteration");
    if ipc.None? || cycles.None? {
      return Threw(None);
    }
    var processor := ReadInfo(info);
    if processor.Throws? {
      return Threw(None);
    } else if processor.Unfollowed? {
      return NotFollowed;
    }
    var ports := ReadPorts(reply, processor.value.portKeys);
    if ports.Throws? {
      return Threw(None);
    } else if ports.Unfollowed? {
      return NotFollowed;
    }
    var usage := AggregateUsage(processor.value, Report(ipc.value, ports.value));
    var diagram := Processor.BuildFull(processor.value.dispatch, |processor.value.portKeys|, processor.value.retire, robSize, Some(usage));
    if diagram.Failure? {
      return Threw(None);
    }
    var path := ReadPath(Get(reply, "critical_path"));
    if path.None? {
      return Threw(Some(diagram.value));
    }
    var pathList := CriticalPathList(path.value);
    run := Shown(diagram.value, pathList);
  }

  // ---------------------------------------------------------------------------
  // Properties of the handler
  // ---------------------------------------------------------------------------

  /** An error report restores the page whatever else it holds, even with no processor loaded. */
  lemma ErrorReportRestores(reply: Json, info: Option<Json>, robSize: string)
    requires Get(reply, "data_type") == Some(JString("error"))
    ensures Run(reply, info, robSize) == ErrorReport
  {
  }

  /** A report without a numeric `ipc` or `cycles_per_iteration` throws before anything is drawn. */
  lemma FiguresNeeded(reply: Json, info: Option<Json>, robSize: string)
    requires Get(reply, "data_type") != Some(JString("error"))
    requires NumberIn(reply, "ipc").None? || NumberIn(reply, "cycles_per_iteration").None?
    ensures Run(reply, info, robSize) == Threw(None)
  {
  }

  /** With `processorInfo` still null, as after `save_processor_info` parsed `null`, any other report throws before drawing. */
  lemma ProcessorNeeded(reply: Json, robSize: string)
    requires Get(reply, "data_type") != Some(JString("error"))
    ensures Run(reply, None, robSize) == Threw(None)
    ensures Run(reply, Some(JNull), robSize) == Threw(None)
  {
  }

  /** Every read before the list succeeds and the report has a number for every port key, so the diagram is drawn. */
  predicate DiagramDrawn(reply: Json, info: Option<Json>)
  {
    && !reply.JNull? && Get(reply, "data_type") != Some(JString("error"))
    && NumberIn(reply, "ipc").Some? && NumberIn(reply, "cycles_per_iteration").Some?
    && ReadInfo(info).Got?
    && var keys := ReadInfo(info).value.portKeys;
       ReadPorts(reply, keys).Got? && forall key :: key in keys ==> key in ReadPorts(reply, keys).value
  }

  /** With the processor and the ports read, drawing succeeds exactly when every port key has a numeric entry. */
  lemma DiagramSucceeds(reply: Json, info: Option<Json>, robSize: string)
    requires !reply.JNull? && Get(reply, "data_type") != Some(JString("error"))
    requires NumberIn(reply, "ipc").Some? && NumberIn(reply, "cycles_per_iteration").Some?
    requires ReadInfo(info).Got? && ReadPorts(reply, ReadInfo(info).value.portKeys).Got?
    ensures var processor := ReadInfo(info).value;
      var report := Report(NumberIn(reply, "ipc").value, ReadPorts(reply, processor.portKeys).value);
      SimulationDiagram(processor, report, robSize).Success? <==> DiagramDrawn(reply, info)
  {
    var processor := ReadInfo(info).value;
    var report := Report(NumberIn(reply, "ipc").value, ReadPorts(reply, processor.portKeys).value);
    AggregatedDiagram(processor, report, robSize);
    var keys := processor.portKeys;
    assert (forall i :: 0 <= i < |keys| ==> keys[i] in report.ports) <==> (forall key :: key in keys ==> key in report.ports) by {
      if forall i :: 0 <= i < |keys| ==> keys[i] in report.ports {
        forall key | key in keys
          ensures key in report.ports
        {
          var i :| 0 <= i < |keys| && keys[i] == key;
        }
      }
    }
  }

  /**
    The diagram is drawn exactly when `DiagramDrawn` holds; then the list is
    shown when the critical path reads, and a TypeError is thrown after the
    drawing when it does not. No list is ever shown without the diagram.
  */
  lemma DrawnExactly(reply: Json, info: Option<Json>, robSize: string)
    ensures var run := Run(reply, info, robSize);
      && (run.Shown? <==> DiagramDrawn(reply, info) && ReadPath(Get(reply, "critical_path")).Some?)
      && ((run.Threw? && run.drawn.Some?) <==> DiagramDrawn(reply, info) && ReadPath(Get(reply, "critical_path")).None?)
      && (run.Shown? ==> run.pathList == PathItems(ReadPath(Get(reply, "critical_path")).value))
  {
    if !reply.JNull? && Get(reply, "data_type") != Some(JString("error"))
      && NumberIn(reply, "ipc").Some? && NumberIn(reply, "cycles_per_iteration").Some?
      && ReadInfo(info).Got? && ReadPorts(reply, ReadInfo(info).value.portKeys).Got?
    {
      DiagramSucceeds(reply, info, robSize);
    }
  }

  /**
    A report without a numeric entry for one of the processor's port keys
    throws while the diagram is drawn: nothing is drawn, and no
    critical-path list is shown.
  */
  lemma MissingPortThrows(reply: Json, info: Option<Json>, robSize: string, key: string)
    requires !reply.JNull? && Get(reply, "data_type") != Some(JString("error"))
    requires NumberIn(reply, "ipc").Some? && NumberIn(reply, "cycles_per_iteration").Some?
    requires ReadInfo(info).Got? && key in ReadInfo(info).value.portKeys
    requires !Nullish(Get(reply, "ports")) && Get(reply, "ports").value.JObject?
    requires NumberIn(Get(reply, "ports").value, key).None?
    ensures Run(reply, info, robSize) == Threw(None)
  {
    var keys := ReadInfo(info).value.portKeys;
    assert ReadPorts(reply, keys).Got?;
    assert PortEntry(ReadPorts(reply, keys).value, key).None?;
    DiagramSucceeds(reply, info, robSize);
  }

  /**
    When the diagram is drawn, each port of the processor appears once, and
    is left unfilled exactly when the report's entry for its key is 0.
  */
  lemma DrawnPorts(reply: Json, info: Option<Json>, robSize: string)
    requires DiagramDrawn(reply, info)
    ensures var run := Run(reply, info, robSize);
      && (run.Shown? || (run.Threw? && run.drawn.Some?))
      && var graph, keys := (if run.Shown? then run.graph else run.drawn.value), ReadInfo(info).value.portKeys;
         var ports := ReadPorts(reply, keys).value;
         forall p: nat | p < |keys| ::
           && |DeclsOf(graph, Port(p))| == 1
           && (DeclsOf(graph, Port(p))[0].fill.None? <==> ports[keys[p]] == 0.0)
  {
    var processor := ReadInfo(info).value;
    var keys := processor.portKeys;
    var report := Report(NumberIn(reply, "ipc").value, ReadPorts(reply, keys).value);
    DiagramSucceeds(reply, info, robSize);
    DrawnExactly(reply, info, robSize);
    AggregatedDiagram(processor, report, robSize);
  }
}
