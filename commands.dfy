/**
  The Python command texts of public/rvcat_code.js that the controller sends
  to the worker. Only their shape is modelled: which load statements the
  header holds and in what order, and where the arguments are embedded; what
  the Python does is outside the model.
*/
module Commands {
  import opened Base

  /** What the page has selected: processor and program names, and the printed iteration count and ROB size. */
  datatype Selection = Selection(processor: string, program: string, iterations: string, robSize: string)

  // ---------------------------------------------------------------------------
  // Fixed commands
  // ---------------------------------------------------------------------------

  /** `GET_AVAIL_PROGRAMS`: the program list as JSON text. */
  const GetAvailablePrograms: string :=
    "import json, rvcat\n_prog = getattr(rvcat, '_program', None)\n_files = getattr(rvcat, 'files', None)\n_result = []\n"
    + "if _prog is not None and hasattr(_prog, 'list_programs_json'):\n  _result = _prog.list_programs_json()\n"
    + "elif _files is not None:\n  _result = _files.list_json(False)\n"
    + "_result if isinstance(_result, str) else json.dumps(_result)\n"

  /** `GET_AVAIL_PROCESSORS`: the processor list as JSON text. */
  const GetAvailableProcessors: string :=
    "import json, rvcat\n_proc = getattr(rvcat, '_processor', None)\n_files = getattr(rvcat, 'files', None)\n_result = []\n"
    + "if _proc is not None and hasattr(_proc, 'list_processors_json'):\n  _result = _proc.list_processors_json()\n"
    + "elif _files is not None:\n  _result = _files.list_json(True)\n"
    + "_result if isinstance(_result, str) else json.dumps(_result)\n"

  /** `GET_PROGRAM_JSON`: the loaded program as JSON text. */
  const GetProgramJson: string :=
    "import rvcat\n_prog = getattr(rvcat, '_program', None)\n_func = getattr(_prog, 'json', None)\n"
    + "_func() if callable(_func) else ''\n"

  /** `PROG_SHOW_EXECUTION`: the program listing, annotated when the engine can. */
  const ProgShowExecution: string :=
    "import rvcat\n_prog = getattr(rvcat, '_program', None)\n_func = None\n"
    + "for _name in ('annotate_execution', 'show_code'):\n  _func = getattr(_prog, _name, None)\n"
    + "  if callable(_func):\n    break\n_func() if callable(_func) else ''\n"

  /** `SHOW_PROCESSOR`: the loaded processor as JSON text. */
  const ShowProcessor: string :=
    "import rvcat\n_proc = getattr(rvcat, '_processor', None)\n_func = getattr(_proc, 'json', None)\n"
    + "_func() if callable(_func) else ''\n"

  /** `RUN_PROGRAM_ANALYSIS`: the scheduler's analysis as JSON text. */
  const RunProgramAnalysis: string :=
    "import rvcat\n_sched = getattr(rvcat, '_scheduler', None)\n_func = getattr(_sched, 'format_analysis_json', None)\n"
    + "_func() if callable(_func) else ''\n"

  // ---------------------------------------------------------------------------
  // RVCAT_HEADER
  // ---------------------------------------------------------------------------

  const ImportLine: string := "import rvcat\n"

  /** `rvcat.<component>.<operation>('<name>')`. */
  function LoadCall(component: string, operation: string, name: string): string
  {
    "rvcat." + component + "." + operation + "('" + name + "')"
  }

  /** Load `name` into a component through `primary` when the engine has it, through `load` otherwise. */
  function LoadBlock(component: string, primary: string, name: string): string
  {
    "if hasattr(rvcat." + component + ", '" + primary + "'):\n    " + LoadCall(component, primary, name)
    + "\nelse:\n    " + LoadCall(component, "load", name) + "\n"
  }

  function ProcessorBlock(name: string): string
  {
    LoadBlock("_processor", "load_processor", name)
  }

  function ProgramBlock(name: string): string
  {
    LoadBlock("_program", "load_program", name)
  }

  /** `iterations=<iterations>, window_size=<robSize>`. */
  function SchedulerArguments(iterations: string, robSize: string): string
  {
    "iterations=" + iterations + ", window_size=" + robSize
  }

  /** Hand the loaded program to the scheduler with the iteration count and window size. */
  function SchedulerBlock(iterations: string, robSize: string): string
  {
    "if hasattr(rvcat._scheduler, 'load_program'):\n    rvcat._scheduler.load_program(rvcat._program, "
    + SchedulerArguments(iterations, robSize) + ")\nelif hasattr(rvcat._scheduler, 'init'):\n    rvcat._scheduler.init("
    + SchedulerArguments(iterations, robSize) + ")\n"
  }

  /**
    `RVCAT_HEADER()`: the import line, then the processor block when a
    processor is selected, then the program block when a program is selected,
    followed by the scheduler block when both are. An empty name is falsy.
  */
  function RvcatHeader(sel: Selection): string
  {
    var res := ImportLine;
    var res := if sel.processor != "" then res + ProcessorBlock(sel.processor) else res;
    if sel.program != "" then
      var res := res + ProgramBlock(sel.program);
      if sel.processor != "" then res + SchedulerBlock(sel.iterations, sel.robSize) else res
    else res
  }

  /** The load steps of a header, as a plan independent of their text. */
  datatype HeaderBlock =
    | LoadProcessor(name: string)
    | LoadProgram(name: string)
    | LoadScheduler(iterations: string, robSize: string)

  /** The plan of a header: the steps a selection calls for, in order. */
  function HeaderBlocks(sel: Selection): seq<HeaderBlock>
  {
    (if sel.processor != "" then [LoadProcessor(sel.processor)] else [])
    + (if sel.program != "" then [LoadProgram(sel.program)] else [])
    + (if sel.processor != "" && sel.program != "" then [LoadScheduler(sel.iterations, sel.robSize)] else [])
  }

  function BlockText(b: HeaderBlock): string
  {
    match b
    case LoadProcessor(name) => ProcessorBlock(name)
    case LoadProgram(name) => ProgramBlock(name)
    case LoadScheduler(iterations, robSize) => SchedulerBlock(iterations, robSize)
  }

  /** The texts of a plan's steps, in order. */
  function BlockTexts(blocks: seq<HeaderBlock>): seq<string>
  {
    seq(|blocks|, k requires 0 <= k < |blocks| => BlockText(blocks[k]))
  }

  /** The text of a plan: the import line, then each step's text in order. */
  function HeaderText(blocks: seq<HeaderBlock>): string
  {
    ImportLine + Concat(BlockTexts(blocks))
  }

  /** With both selected, the header is the import line and the three blocks. */
  lemma HeaderOfBoth(sel: Selection)
    requires sel.processor != "" && sel.program != ""
    ensures RvcatHeader(sel)
         == ImportLine + ProcessorBlock(sel.processor) + ProgramBlock(sel.program) + SchedulerBlock(sel.iterations, sel.robSize)
  {
  }

  /** With both selected, the plan's texts are its three steps' texts in order. */
  lemma TextsOfBoth(sel: Selection)
    requires sel.processor != "" && sel.program != ""
    ensures var p, q, r := LoadProcessor(sel.processor), LoadProgram(sel.program), LoadScheduler(sel.iterations, sel.robSize);
      BlockTexts(HeaderBlocks(sel)) == [BlockText(p), BlockText(q), BlockText(r)]
  {
    var bs := HeaderBlocks(sel);
    assert bs == [LoadProcessor(sel.processor), LoadProgram(sel.program), LoadScheduler(sel.iterations, sel.robSize)];
  }

  /** The scheduler step's text is the scheduler block. */
  lemma SchedulerStepText(iterations: string, robSize: string)
    ensures BlockText(LoadScheduler(iterations, robSize)) == SchedulerBlock(iterations, robSize)
  {
  }

  /** With one name selected, the plan's text is that name's block. */
  lemma TextsOfOne(sel: Selection)
    requires (sel.processor == "") != (sel.program == "")
    ensures BlockTexts(HeaderBlocks(sel))
         == [if sel.processor != "" then ProcessorBlock(sel.processor) else ProgramBlock(sel.program)]
  {
    var bs := HeaderBlocks(sel);
    assert bs == [if sel.processor != "" then LoadProcessor(sel.processor) else LoadProgram(sel.program)];
    assert BlockTexts(bs)[0] == if sel.processor != "" then ProcessorBlock(sel.processor) else ProgramBlock(sel.program);
  }

  /** The header is the text of its plan. */
  lemma HeaderRendersPlan(sel: Selection)
    ensures RvcatHeader(sel) == HeaderText(HeaderBlocks(sel))
  {
    if sel.processor != "" && sel.program != "" {
      var a, b, c := ProcessorBlock(sel.processor), ProgramBlock(sel.program), SchedulerBlock(sel.iterations, sel.robSize);
      TextsOfBoth(sel);
      SchedulerStepText(sel.iterations, sel.robSize);
      ConcatOfThree(a, b, c);
      HeaderOfBoth(sel);
      AppendAssocFour(ImportLine, a, b, c);
    } else if sel.processor != "" || sel.program != "" {
      TextsOfOne(sel);
      ConcatOfOne(if sel.processor != "" then ProcessorBlock(sel.processor) else ProgramBlock(sel.program));
    } else {
      assert HeaderBlocks(sel) == [];
      assert BlockTexts([]) == [];
      AppendEmpty(ImportLine);
    }
  }

  /**
    The plan holds a processor step exactly when a processor is selected, a
    program step exactly when a program is selected and a scheduler step
    exactly when both are; the steps come in that order, each at most once,
    and carry the selected names, count and size.
  */
  lemma HeaderBlocksPresence(sel: Selection)
    ensures var bs := HeaderBlocks(sel);
      && ((exists k :: 0 <= k < |bs| && bs[k].LoadProcessor?) <==> sel.processor != "")
      && ((exists k :: 0 <= k < |bs| && bs[k].LoadProgram?) <==> sel.program != "")
      && ((exists k :: 0 <= k < |bs| && bs[k].LoadScheduler?) <==> sel.processor != "" && sel.program != "")
      && (forall k :: 0 <= k < |bs| && bs[k].LoadProcessor? ==> k == 0 && bs[k].name == sel.processor)
      && (forall k :: 0 <= k < |bs| && bs[k].LoadProgram? ==>
            k == (if sel.processor != "" then 1 else 0) && bs[k].name == sel.program)
      && (forall k :: 0 <= k < |bs| && bs[k].LoadScheduler? ==>
            k == |bs| - 1 && bs[k] == LoadScheduler(sel.iterations, sel.robSize))
  {
    var bs := HeaderBlocks(sel);
    if sel.processor != "" {
      assert bs[0].LoadProcessor?;
    }
    if sel.program != "" {
      assert bs[if sel.processor != "" then 1 else 0].LoadProgram?;
    }
    if sel.processor != "" && sel.program != "" {
      assert bs[2].LoadScheduler?;
    }
  }

  /** The header always begins with the import line. */
  lemma HeaderStartsWithImport(sel: Selection)
    ensures StartsWith(RvcatHeader(sel), ImportLine)
  {
    HeaderRendersPlan(sel);
    StartsWithAppend(ImportLine, Concat(BlockTexts(HeaderBlocks(sel))));
  }

  /** With neither a processor nor a program selected, the header is the import line alone. */
  lemma HeaderWithoutSelection(iterations: string, robSize: string)
    ensures RvcatHeader(Selection("", "", iterations, robSize)) == ImportLine
  {
  }

  /** Both load calls of a block, and so the name, occur in the block. */
  lemma LoadBlockCalls(component: string, primary: string, name: string)
    ensures Occurs(LoadCall(component, primary, name), LoadBlock(component, primary, name))
    ensures Occurs(LoadCall(component, "load", name), LoadBlock(component, primary, name))
  {
    var test := "if hasattr(rvcat." + component + ", '" + primary + "'):\n    ";
    var c1, c2 := LoadCall(component, primary, name), LoadCall(component, "load", name);
    OccursAtEnd(test, c1);
    OccursAppend(c1, test + c1, "\nelse:\n    ");
    OccursAppend(c1, test + c1 + "\nelse:\n    ", c2);
    OccursAppend(c1, test + c1 + "\nelse:\n    " + c2, "\n");
    OccursAtEnd(test + c1 + "\nelse:\n    ", c2);
    OccursAppend(c2, test + c1 + "\nelse:\n    " + c2, "\n");
  }

  /** With a processor selected, the header is the import line and its block followed by the rest. */
  lemma HeaderAfterProcessor(sel: Selection)
    requires sel.processor != ""
    ensures RvcatHeader(sel) == ImportLine + ProcessorBlock(sel.processor)
      + (if sel.program != "" then ProgramBlock(sel.program) + SchedulerBlock(sel.iterations, sel.robSize) else "")
  {
    var front := ImportLine + ProcessorBlock(sel.processor);
    if sel.program != "" {
      AppendAssoc(front, ProgramBlock(sel.program), SchedulerBlock(sel.iterations, sel.robSize));
    } else {
      AppendEmpty(front);
    }
  }

  /** A selected processor's block comes right after the import line and embeds the name in both load calls. */
  lemma HeaderLoadsProcessor(sel: Selection)
    requires sel.processor != ""
    ensures StartsWith(RvcatHeader(sel), ImportLine + ProcessorBlock(sel.processor))
    ensures Occurs(LoadCall("_processor", "load_processor", sel.processor), RvcatHeader(sel))
    ensures Occurs(LoadCall("_processor", "load", sel.processor), RvcatHeader(sel))
  {
    var front := ImportLine + ProcessorBlock(sel.processor);
    var rest := if sel.program != "" then ProgramBlock(sel.program) + SchedulerBlock(sel.iterations, sel.robSize) else "";
    HeaderAfterProcessor(sel);
    StartsWithAppend(front, rest);
    LoadBlockCalls("_processor", "load_processor", sel.processor);
    var c1, c2 := LoadCall("_processor", "load_processor", sel.processor), LoadCall("_processor", "load", sel.processor);
    OccursPrepend(ImportLine, c1, ProcessorBlock(sel.processor));
    OccursAppend(c1, front, rest);
    OccursPrepend(ImportLine, c2, ProcessorBlock(sel.processor));
    OccursAppend(c2, front, rest);
  }

  /** A selected program's block follows the processor block (if any) and embeds the name in both load calls. */
  lemma HeaderLoadsProgram(sel: Selection)
    requires sel.program != ""
    ensures var before := if sel.processor != "" then ImportLine + ProcessorBlock(sel.processor) else ImportLine;
      StartsWith(RvcatHeader(sel), before + ProgramBlock(sel.program))
    ensures Occurs(LoadCall("_program", "load_program", sel.program), RvcatHeader(sel))
    ensures Occurs(LoadCall("_program", "load", sel.program), RvcatHeader(sel))
  {
    var before := if sel.processor != "" then ImportLine + ProcessorBlock(sel.processor) else ImportLine;
    var block := ProgramBlock(sel.program);
    var tail := if sel.processor != "" then SchedulerBlock(sel.iterations, sel.robSize) else "";
    if sel.processor == "" {
      AppendEmpty(before + block);
    }
    assert RvcatHeader(sel) == before + block + tail;
    StartsWithAppend(before + block, tail);
    LoadBlockCalls("_program", "load_program", sel.program);
    var c1, c2 := LoadCall("_program", "load_program", sel.program), LoadCall("_program", "load", sel.program);
    OccursPrepend(before, c1, block);
    OccursAppend(c1, before + block, tail);
    OccursPrepend(before, c2, block);
    OccursAppend(c2, before + block, tail);
  }

  /** A piece repeated in a text `a + x + m + x + t` occurs in it. */
  lemma OccursRepeated(a: string, x: string, m: string, t: string)
    ensures Occurs(x, a + x + m + x + t)
  {
    OccursAtEnd(a, x);
    OccursAppend(x, a + x, m);
    OccursAppend(x, a + x + m, x);
    OccursAppend(x, a + x + m + x, t);
  }

  /** The iteration count and window size occur in the scheduler block. */
  lemma SchedulerBlockArguments(iterations: string, robSize: string)
    ensures Occurs(SchedulerArguments(iterations, robSize), SchedulerBlock(iterations, robSize))
  {
    OccursRepeated(
      "if hasattr(rvcat._scheduler, 'load_program'):\n    rvcat._scheduler.load_program(rvcat._program, ",
      SchedulerArguments(iterations, robSize),
      ")\nelif hasattr(rvcat._scheduler, 'init'):\n    rvcat._scheduler.init(",
      ")\n");
  }

  /** With both selected, the header ends with the scheduler block carrying the iteration count and window size. */
  lemma HeaderEndsWithScheduler(sel: Selection)
    requires sel.processor != "" && sel.program != ""
    ensures var h := RvcatHeader(sel);
      var s := SchedulerBlock(sel.iterations, sel.robSize);
      |s| <= |h| && h[|h| - |s|..] == s
    ensures Occurs(SchedulerArguments(sel.iterations, sel.robSize), RvcatHeader(sel))
  {
    var front := ImportLine + ProcessorBlock(sel.processor) + ProgramBlock(sel.program);
    var s := SchedulerBlock(sel.iterations, sel.robSize);
    assert RvcatHeader(sel) == front + s;
    EndsWithAppend(front, s);
    SchedulerBlockArguments(sel.iterations, sel.robSize);
    OccursPrepend(front, SchedulerArguments(sel.iterations, sel.robSize), s);
  }

  /** A header without a selected program carries no scheduler call. */
  lemma HeaderWithoutProgram(sel: Selection)
    requires sel.program == ""
    ensures RvcatHeader(sel) == if sel.processor != "" then ImportLine + ProcessorBlock(sel.processor) else ImportLine
  {
  }

  // ---------------------------------------------------------------------------
  // Builders with arguments
  // ---------------------------------------------------------------------------

  /** A JavaScript boolean written as a Python literal. */
  function PyBool(b: bool): (s: string)
    ensures s == "True" || s == "False"
  {
    if b then "True" else "False"
  }

  /** Reading a Python boolean literal back. */
  function ParsePyBool(s: string): Option<bool>
  {
    if s == "True" then Some(true) else if s == "False" then Some(false) else None
  }

  /** Every flag reads back as itself, so distinct flags give distinct literals. */
  lemma PyBoolRoundTrip(b: bool)
    ensures ParsePyBool(PyBool(b)) == Some(b)
    ensures PyBool(b) == "True" <==> b
  {
  }

  /** `_func(<keyword>=<count>)`: the call that receives the iteration count. */
  function CountCall(keyword: string, numIters: string): string
  {
    "_func(" + keyword + "=" + numIters + ")"
  }

  const CallTail: string := " if callable(_func) else ''\n"

  const DependenciesHead: string :=
    "import rvcat\n_prog = getattr(rvcat, '_program', None)\n_func = None\n"
    + "for _name in ('get_dependencies_grapviz', 'show_graphviz'):\n  _func = getattr(_prog, _name, None)\n"
    + "  if callable(_func):\n    break\n"

  /** `prog_show_dependencies_graphviz(num_iters)`, with `num_iters` as printed. */
  function DependenciesGraphviz(numIters: string): string
  {
    DependenciesHead + CountCall("num_iters", numIters) + CallTail
  }

  const TimelineHead: string :=
    "import rvcat\n_sched = getattr(rvcat, '_scheduler', None)\n_func = getattr(_sched, 'format_timeline', None)\n"

  /** `show_timeline(num_iters)`, with `num_iters` as printed. */
  function ShowTimeline(numIters: string): string
  {
    TimelineHead + CountCall("niters", numIters) + CallTail
  }

  /** Recovering the count from a call `_func(<keyword>=<count>)`. */
  function CountOf(keyword: string, call: string): Option<string>
  {
    var open := "_func(" + keyword + "=";
    if |open| + 1 <= |call| && call[..|open|] == open && call[|call| - 1] == ')'
    then Some(call[|open|..|call| - 1])
    else None
  }

  /** A builder's text, with its fixed head and tail, leaves the call in between. */
  function CallBetween(head: string, text: string): string
  {
    if |head| + |CallTail| <= |text| then text[|head|..|text| - |CallTail|] else ""
  }

  lemma CountCallRoundTrip(keyword: string, numIters: string)
    ensures CountOf(keyword, CountCall(keyword, numIters)) == Some(numIters)
  {
    var open := "_func(" + keyword + "=";
    var c := CountCall(keyword, numIters);
    assert c == open + numIters + ")";
    assert c[..|open|] == open;
    assert c[|open|..|c| - 1] == numIters;
  }

  /** Both builders embed the count verbatim as the keyword argument of the call, and it reads back unchanged. */
  lemma IterationArgumentRoundTrip(numIters: string)
    ensures CountOf("num_iters", CallBetween(DependenciesHead, DependenciesGraphviz(numIters))) == Some(numIters)
    ensures CountOf("niters", CallBetween(TimelineHead, ShowTimeline(numIters))) == Some(numIters)
    ensures Occurs(CountCall("num_iters", numIters), DependenciesGraphviz(numIters))
    ensures Occurs(CountCall("niters", numIters), ShowTimeline(numIters))
  {
    var d, dc := DependenciesGraphviz(numIters), CountCall("num_iters", numIters);
    assert d[|DependenciesHead|..|d| - |CallTail|] == dc;
    CountCallRoundTrip("num_iters", numIters);
    OccursInConcat(DependenciesHead, dc, CallTail);
    var t, tc := ShowTimeline(numIters), CountCall("niters", numIters);
    assert t[|TimelineHead|..|t| - |CallTail|] == tc;
    CountCallRoundTrip("niters", numIters);
    OccursInConcat(TimelineHead, tc, CallTail);
  }

  /** The keyword arguments of the primary call of `getCriticalPathsGraph`. */
  function PrimaryArguments(numIters: string, constants: bool, readOnly: bool, internal: bool, latency: bool): string
  {
    "num_iters=" + numIters + ", constants=" + PyBool(constants) + ", read_only=" + PyBool(readOnly)
    + ", internal=" + PyBool(internal) + ", latency=" + PyBool(latency)
  }

  /** The keyword arguments of the `show_graphviz` fallback. */
  function FallbackArguments(numIters: string, constants: bool, readOnly: bool, internal: bool, latency: bool): string
  {
    "num_iters=" + numIters + ", show_const=" + PyBool(constants) + ", show_readonly=" + PyBool(readOnly)
    + ", show_internal=" + PyBool(internal) + ", show_latency=" + PyBool(latency)
  }

  const CriticalHead: string :=
    "import rvcat\n_result = ''\n_prog = getattr(rvcat, '_program', None)\nif _prog is not None:\n"
    + "  _func = getattr(_prog, 'get_recurrent_paths_graphviz', None)\n  if callable(_func):\n    try:\n"
    + "      _result = "
  const CriticalRetry: string := "\n    except TypeError:\n      try:\n        _result = "
  const CriticalFallback: string :=
    "\n      except TypeError:\n        _result = _func()\n  else:\n"
    + "    _alt = getattr(_prog, 'show_graphviz', None)\n    if callable(_alt):\n"
    + "      _result = "
  const CriticalTail: string := "\n_result\n"

  /** The first attempt: the recurrent-paths call with every option. */
  function PrimaryCall(arguments: string): string
  {
    CriticalHead + "_func(" + arguments + ")"
  }

  /** The retry of an engine that takes the count alone. */
  function RetryCall(numIters: string): string
  {
    CriticalRetry + "_func(" + numIters + ")"
  }

  /** The fall-back to the plain dependence graph of an older engine. */
  function FallbackCall(arguments: string): string
  {
    CriticalFallback + "_alt(" + arguments + ")"
  }

  /** `getCriticalPathsGraph(num_iters, constants, read_only, internal, latency)`. */
  function CriticalPathsGraph(numIters: string, constants: bool, readOnly: bool, internal: bool, latency: bool): string
  {
    PrimaryCall(PrimaryArguments(numIters, constants, readOnly, internal, latency))
    + RetryCall(numIters)
    + FallbackCall(FallbackArguments(numIters, constants, readOnly, internal, latency))
    + CriticalTail
  }

  /** A text occurring in any of four pieces occurs in their concatenation. */
  lemma OccursInFour(needle: string, a: string, b: string, c: string, d: string)
    requires Occurs(needle, a) || Occurs(needle, b) || Occurs(needle, c)
    ensures Occurs(needle, a + b + c + d)
  {
    if Occurs(needle, a) {
      OccursAppend(needle, a, b);
      OccursAppend(needle, a + b, c);
    } else if Occurs(needle, b) {
      OccursPrepend(a, needle, b);
      OccursAppend(needle, a + b, c);
    } else {
      OccursPrepend(a + b, needle, c);
    }
    OccursAppend(needle, a + b + c, d);
  }

  /** The primary call carries every option. */
  lemma CriticalPrimaryOccurs(numIters: string, constants: bool, readOnly: bool, internal: bool, latency: bool)
    ensures Occurs(PrimaryArguments(numIters, constants, readOnly, internal, latency),
                   CriticalPathsGraph(numIters, constants, readOnly, internal, latency))
  {
    var pa := PrimaryArguments(numIters, constants, readOnly, internal, latency);
    var fa := FallbackArguments(numIters, constants, readOnly, internal, latency);
    OccursInConcat(CriticalHead + "_func(", pa, ")");
    OccursInFour(pa, PrimaryCall(pa), RetryCall(numIters), FallbackCall(fa), CriticalTail);
  }

  /** The retry passes the count alone. */
  lemma CriticalRetryOccurs(numIters: string, constants: bool, readOnly: bool, internal: bool, latency: bool)
    ensures Occurs("_func(" + numIters, CriticalPathsGraph(numIters, constants, readOnly, internal, latency))
  {
    var pa := PrimaryArguments(numIters, constants, readOnly, internal, latency);
    var fa := FallbackArguments(numIters, constants, readOnly, internal, latency);
    AppendAssoc(CriticalRetry, "_func(", numIters);
    OccursInConcat(CriticalRetry, "_func(" + numIters, ")");
    OccursInFour("_func(" + numIters, PrimaryCall(pa), RetryCall(numIters), FallbackCall(fa), CriticalTail);
  }

  /** The fall-back call carries every option under its older names. */
  lemma CriticalFallbackOccurs(numIters: string, constants: bool, readOnly: bool, internal: bool, latency: bool)
    ensures Occurs(FallbackArguments(numIters, constants, readOnly, internal, latency),
                   CriticalPathsGraph(numIters, constants, readOnly, internal, latency))
  {
    var pa := PrimaryArguments(numIters, constants, readOnly, internal, latency);
    var fa := FallbackArguments(numIters, constants, readOnly, internal, latency);
    OccursInConcat(CriticalFallback + "_alt(", fa, ")");
    OccursInFour(fa, PrimaryCall(pa), RetryCall(numIters), FallbackCall(fa), CriticalTail);
  }

  /**
    Each flag is written as exactly `True` or `False` under both its names,
    reading back as the flag, and the count is passed to all three call forms.
  */
  lemma CriticalPathsFlags(numIters: string, constants: bool, readOnly: bool, internal: bool, latency: bool)
    ensures var g := CriticalPathsGraph(numIters, constants, readOnly, internal, latency);
      && Occurs(PrimaryArguments(numIters, constants, readOnly, internal, latency), g)
      && Occurs(FallbackArguments(numIters, constants, readOnly, internal, latency), g)
      && Occurs("_func(" + numIters, g)
    ensures ParsePyBool(PyBool(constants)) == Some(constants) && ParsePyBool(PyBool(readOnly)) == Some(readOnly)
    ensures ParsePyBool(PyBool(internal)) == Some(internal) && ParsePyBool(PyBool(latency)) == Some(latency)
  {
    CriticalPrimaryOccurs(numIters, constants, readOnly, internal, latency);
    CriticalRetryOccurs(numIters, constants, readOnly, internal, latency);
    CriticalFallbackOccurs(numIters, constants, readOnly, internal, latency);
    PyBoolRoundTrip(constants);
    PyBoolRoundTrip(readOnly);
    PyBoolRoundTrip(internal);
    PyBoolRoundTrip(latency);
  }
}
