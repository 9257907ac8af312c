# RVCAT web UI: a verified model of its controller

RVCAT is a RISC-V pipeline performance analyser. Its web front end runs the
rvcat Python engine inside a web worker, sends it small Python programs and
draws what comes back. This project models the browser-side logic of that
front end in Dafny and proves properties of the model:

- **Pipeline diagrams** (`Processor`, over the graph data model in `Diagram`):
  the reduced diagram elides ports; the full diagram draws every port and
  colours stages and ports from a 22-entry gradient. Each diagram is a
  structured list of DOT statements, in the order the builder emits them.
- **Worker protocol** (`Worker`): the interpreter is loaded once, and every
  message gets its reply envelope.
- **Command texts** (`Commands`): `RVCAT_HEADER` and the Python templates
  with arguments.
- **Reply handling on the page** (`Controller`, `ProgramText`, `Analysis`):
  - routing of worker replies through the handler table;
  - the one-shot handlers of `getTimeline` and `getProgramJSON`, which
    override and then restore;
  - the iteration clamps;
  - the cleaning of the program listing;
  - the scheduler-analysis handler, with its usage aggregation and its
    critical-path list.
- **Run history** (`Storage`): the executions saved under one storage key.

The imperative parts of the source keep that form. Examples:

- the diagram builders are methods proved equal to the graph functions;
- the worker and the page are classes whose methods update fields;
- the blank-line trimming, the port loop and the usage loop are `while`
  loops with invariants;
- the run history is a class over the stored slot.

What the browser or the interpreter supplies is passed in as a parameter:

- the text of a page field, the current selection, and the ROB size;
- what `JSON.parse` makes of a reply;
- the outcome of running Python code;
- fresh ids and timestamps.

## Model

| member | source | states |
|---|---|---|
| Diagram.ColorIndexBand | public/processor.js:151 | The colour index of a usage p is k exactly when 5k <= p < 5k+5 (floor of p/5). |
| Diagram.ColorIndexInTable | public/processor.js:126-151 | For 0 <= p <= 100 the index lies in 0..20, inside the 22-entry table, and the colour is that entry. |
| Diagram.ColorIndexEnds | public/processor.js:126-151 | 0% gives index 0 (#ffffff) and 100% gives index 20 (#d51c00). |
| Diagram.ColorIndexMonotone | public/processor.js:151 | A higher usage never gets a lower colour index. |
| Diagram.ColorIndexUnclamped | public/processor.js:151 | The index is not clamped: the colour reads as `undefined` exactly when p >= 110 or p < 0. |
| Processor.ReducedPortNodes | public/processor.js:47-63 | The cluster loop emits the ports of `ShownPorts(n)`, highest first, with "..." above four ports. |
| Processor.AppendPortEdges | public/processor.js:67-69 | The edge loop appends one edge per shown port, in order, from the Waiting Buffer or into the ROB. |
| Processor.ReducedRowMembers | public/processor.js:83-96 | The `rank=same` row lists P0, P1, P2, "..." (above four ports) and the last port, or the shown ports in order. |
| Processor.BuildReduced | public/processor.js:11-115 | The builder produces exactly the reduced diagram `Reduced`. |
| Processor.ShownPortsExactly | public/processor.js:48-49 | From four ports on, the shown ports are exactly {0, 1, 2, n-1}. Below four, every port is shown once, in descending order. |
| Processor.ReducedPorts | public/processor.js:67-69 | A port appears in the reduced diagram iff it is shown. A shown port has exactly one edge from the Waiting Buffer and one into the ROB, and sits in the `rank=same` row. |
| Processor.ReducedDeclarationOrder | public/processor.js:58-62 | The ports are declared as P(n-1), P2, P1, P0 from four ports on, and as every port in descending order otherwise. |
| Processor.ReducedEllipsis | public/processor.js:52-54 | The "..." node is mentioned iff n > 4. It is then declared once and joined to the Waiting Buffer by one invisible edge. |
| Processor.ReducedEllipsisCount | public/processor.js:70-72 | The placeholder's declaration and its Waiting Buffer edge each occur once above four ports and never otherwise. |
| Processor.ReducedStages | public/processor.js:31-111 | The dispatch and retire labels carry the literal widths and no usage. The ROB is labelled with its size and sits in the sink rank. |
| Processor.FullPortLoop | public/processor.js:179-187 | The descending port loop gives the port block when every port has a usage. It fails with `UndefinedPortUsage` otherwise. |
| Processor.BuildFull | public/processor.js:118-234 | The builder produces exactly `Full`, including its two exceptions. |
| Processor.FullFailsExactly | public/processor.js:151 | The full builder throws `NullUsage` iff usage is null, and `UndefinedPortUsage` iff some port below n has no usage. |
| Processor.FullPorts | public/processor.js:179-187 | Every port 0..n-1 is drawn and no other. Each has one Waiting Buffer edge, one ROB edge, a `rank=same` place and one box3d declaration. That declaration is unfilled iff usage is 0.0, else filled with the gradient colour, and its tooltip is the usage. |
| Processor.FullDeclarationOrder | public/processor.js:179 | The full diagram declares every port, highest first, and never the placeholder. |
| Processor.FullStages | public/processor.js:163-229 | The labels carry the literal widths with the stage usage and its gradient colour, and the usage as tooltip. The ROB sits in the sink rank and the cluster is titled "Execute". |
| Processor.FullExample | public/processor.js:118-234 | A concrete five-port processor yields ports 4..0, with P1 and P3 unfilled, P0 in #f18c00 and the dispatch label in #96ee4d. |
| Worker.InitializeState | public/worker.js:7-13 | After `initialize` the interpreter is loaded. If it already was, nothing changes; otherwise numpy and the rvcat wheel are added. |
| Worker.WebWorker.constructor | public/worker.js:8 | A fresh worker has no interpreter, no packages and no posted replies. |
| Worker.WebWorker.Initialize | public/worker.js:7-13 | The method updates the fields to `InitializeState` of the old state and posts nothing. |
| Worker.WebWorker.Receive | public/worker.js:15-45 | The handler reaches the state of `Step` and posts exactly the replies of `Step`. |
| Worker.InitializeIdempotent | public/worker.js:8 | A second `initialize` changes nothing. |
| Worker.StepKeepsCoherent | public/worker.js:7-25 | Every message keeps the packages coherent with the interpreter. |
| Worker.InitializeReply | public/worker.js:17-21 | An `initialize` message gets exactly one reply, `initialized`, and leaves the interpreter loaded. |
| Worker.ExecuteReply | public/worker.js:26-44 | An `execute` gets exactly one `executed` reply that carries an id iff the request did, and that id. It is `text` with the value when the run returns, and `error` with the description when it raises. The state is unchanged. |
| Worker.ExecuteBeforeInitialize | public/worker.js:29 | Before `initialize`, an `execute` still gets one reply: an error naming the missing interpreter. |
| Worker.LoadPackageReply | public/worker.js:22-25 | With an interpreter, the reply echoes the package and the package is added. Without one, there is no reply and no change. |
| Worker.RunReplyCounts | public/worker.js:15-45 | Over any sequence of messages there is exactly one `initialized` per `initialize` and one `executed` per `execute`, and coherence holds. |
| Worker.RunKeepsInterpreter | public/worker.js:8-12 | Once loaded, the interpreter stays loaded and no package is lost. |
| Commands.HeaderRendersPlan | public/rvcat_code.js:227-243 | The header text is the import line followed by the text of each planned block, in order. |
| Commands.HeaderBlocksPresence | public/rvcat_code.js:231-240 | Each block's presence matches the selection. The processor block is present iff a processor is selected, the program block iff a program is, and the scheduler block iff both are. They come in that order and carry the selected names, count and size. |
| Commands.HeaderStartsWithImport | public/rvcat_code.js:230 | The header always begins with `import rvcat\n`. |
| Commands.HeaderWithoutSelection | public/rvcat_code.js:230-242 | With neither name selected, the header is exactly the import line. |
| Commands.LoadBlockCalls | public/rvcat_code.js:232 | A load block contains both the primary and the fallback load call, each with the name. |
| Commands.HeaderAfterProcessor | public/rvcat_code.js:231-233 | With a processor selected, the header starts with the import line followed by the processor block. |
| Commands.HeaderLoadsProcessor | public/rvcat_code.js:231-233 | A selected processor's block follows the import line and embeds the name in both load calls. |
| Commands.HeaderLoadsProgram | public/rvcat_code.js:235-236 | A selected program's block follows the processor block (if any) and embeds the name in both load calls. |
| Commands.HeaderEndsWithScheduler | public/rvcat_code.js:237-239 | With both selected, the header ends with the scheduler block, which carries the iteration count and window size. |
| Commands.HeaderWithoutProgram | public/rvcat_code.js:235-240 | Without a program, the header carries no scheduler call. |
| Commands.PyBool | public/rvcat_code.js:62-65 | A flag is written as `True` or `False`. |
| Commands.PyBoolRoundTrip | public/rvcat_code.js:62-65 | The literal reads back as the flag; `True` iff the flag is set. |
| Commands.CountCallRoundTrip | public/rvcat_code.js:57 | The count read back from `_func(kw=count)` is the count. |
| Commands.IterationArgumentRoundTrip | public/rvcat_code.js:49-59 | `prog_show_dependencies_graphviz` and `show_timeline` (lines 144-150) embed the count verbatim as `num_iters=` / `niters=`, and it reads back unchanged. |
| Commands.CriticalPathsFlags | public/rvcat_code.js:61-86 | Both argument lists, the primary one and the `show_graphviz` fallback, occur with each flag mapped to `True`/`False`, and so does the count-only retry. |
| ProgramText.BeforeFirstSplits | public/rvcat.js:38-39 | `split(sep)[0]` is a prefix with no earlier occurrence of sep: either all of the text, or sep starts right after it. |
| ProgramText.AfterFirstSplits | public/rvcat.js:60-61 | `split(sep)[1]` exists iff the text before the first sep is not the whole text; the text is then that prefix, sep, and what follows. |
| ProgramText.Lines | public/rvcat.js:42 | The split has at least one line and no line contains a line feed. |
| ProgramText.JoinLines | public/rvcat.js:42-49 | Joining the lines of a text gives the text back. |
| ProgramText.LinesJoin | public/rvcat.js:42-49 | Splitting a join of line-feed-free lines gives the lines back. |
| ProgramText.TrimBlankLines | public/rvcat.js:45-46 | The `shift`/`pop` loops produce `Trimmed`. |
| ProgramText.TrimmedSlice | public/rvcat.js:45-46 | Trimming keeps one contiguous run of lines, unchanged, with only blank lines outside it, and non-blank first and last lines. |
| ProgramText.TrimmedUnchanged | public/rvcat.js:45-46 | Lines that neither start nor end blank are kept as they are. |
| ProgramText.TrimmedIdempotent | public/rvcat.js:45-46 | Trimming twice equals trimming once. |
| ProgramText.TrimTextIdempotent | public/rvcat.js:42-49 | Cleaning an already cleaned text changes nothing. |
| ProgramText.ProgramListingFacts | public/rvcat.js:37-53 | The listing comes from the text before the first "Through". Its lines are a contiguous run of that text's lines, and cleaning again changes nothing. |
| ProgramText.ProgramListingPlain | public/rvcat.js:37-53 | A reply without "Through" and without blank edge lines is shown unchanged. |
| ProgramText.CutAtFirst | public/rvcat.js:62-63 | `split(sep)[0]` is a prefix of the text, and all of it exactly when sep does not occur. |
| ProgramText.AnnotationsFacts | public/rvcat.js:58-66 | With no "Through" in the reply the annotations are "Through" followed by `undefined`. Otherwise they are "Through" followed by the text after the first "Through" up to the next one (segment 1), cut exactly where the first "CACHE" in "Through" plus segment 1 begins: all of segment 1 exactly when "Through" plus segment 1 holds no "CACHE". They always start with "Through" and contain no "CACHE". |
| Analysis.StageUsage | public/rvcat.js:123-125 | The stage usage u satisfies u * width == ipc * 100. |
| Analysis.AggregateUsage | public/rvcat.js:122-132 | The loop over the port keys builds `Usage`. |
| Analysis.UsageFacts | public/rvcat.js:122-132 | Each stage share times its width equals ipc * 100. Port i holds `d.ports[keys[i]]` (undefined when missing), and there is nothing past the last key. |
| Analysis.AggregatedDiagram | public/rvcat.js:133 | The drawing succeeds iff the report has every key, and fails with `UndefinedPortUsage` otherwise. Each port is then declared once and filled with its entry's colour unless that is 0. |
| Analysis.RoundTenthZero | public/rvcat.js:557 | `toFixed(1) != 0.0` is false exactly when -0.05 < x < 0.05. |
| Analysis.CriticalPathList | public/rvcat.js:520-597 | The list building produces `PathItems`. |
| Analysis.PathItemsOrder | public/rvcat.js:557-594 | The list has DISPATCH first, one item per instruction in input order, and RETIRE last. An item is white iff its share is within 0.05 of zero, and otherwise takes the gradient colour. |
| Analysis.LineColorRange | public/rvcat.js:558 | A share in [0.05, 100] gets one of the first 21 colours; from 110 on it reads past the table. |
| Analysis.LastNamed | public/rvcat.js:104 | A parsed object's member is missing iff no member has the name; otherwise its value is the one given by the last member with that name. |
| Analysis.Keys | public/rvcat.js:128 | `Object.keys` lists distinct names, exactly the object's member names. |
| Analysis.ReadInfo | public/rvcat.js:123-128 | A null or missing `processorInfo` throws. A successful read gives positive stage widths and distinct port keys. |
| Analysis.ReadPorts | public/rvcat.js:126-132 | With at least one key, the loop throws iff `d.ports` is null or missing. Otherwise each key's entry is `d.ports[key]` where that is a number, and no other key has one. |
| Analysis.SchedulerAnalysis | public/rvcat.js:104-134 | The handler, read by read in the source's order, with the usage loop, the diagram builder and the list loop, ends as `Run` does. |
| Analysis.ErrorReportRestores | public/rvcat.js:105-114 | A report whose `data_type` is "error" only restores the page, whatever the processor. |
| Analysis.FiguresNeeded | public/rvcat.js:118-119 | A report without a numeric `ipc` or `cycles_per_iteration` throws a TypeError before anything is drawn. |
| Analysis.ProcessorNeeded | public/rvcat.js:123 | With `processorInfo` null, every report other than an error report throws before anything is drawn. |
| Analysis.DiagramSucceeds | public/rvcat.js:129-133 | Once the figures, the processor and the ports are read, drawing succeeds iff every port key has a numeric entry. |
| Analysis.DrawnExactly | public/rvcat.js:133-134 | The list is shown iff the diagram is drawn and the critical path reads. The handler throws after drawing iff the diagram is drawn and the path does not read. A shown list is `PathItems` of the path. |
| Analysis.MissingPortThrows | public/processor.js:182 | A port key without a numeric entry in `d.ports` makes the drawing throw: no diagram and no list. |
| Analysis.DrawnPorts | public/rvcat.js:126-133 | When drawn, each port of the processor is declared once, and is unfilled iff the report's entry for its key is 0. |
| Controller.NumberOfPrinted | public/rvcat.js:204-207 | A number written into a field reads back as itself. |
| Controller.CurrentIterationsFacts | public/rvcat.js:199-214 | The count is 200 with no field and 100 for an empty field, never above 3000, and otherwise the field's own text. The field shows the value afterwards, so reading again gives the same. |
| Controller.TimelineIterationsFacts | public/rvcat.js:448-455 | The timeline count is 3 for an empty field and never above 50; otherwise it is the field's text and the field is unchanged. |
| Controller.InitialTable | public/rvcat.js:10-159 | The table has 14 distinct keys, each mapped to its own standing handler. |
| Controller.RouteOf | public/rvcat.js:162-186 | A reply routed to a call goes to a registered key and its handler. |
| Controller.RouteRules | public/rvcat.js:171-184 | An error reply is logged whatever its id. A text reply without an id is ignored. One with an id calls `handlers[id]` iff the id is registered, and throws otherwise. |
| Controller.PostedReplyRoutes | public/rvcat.js:303-307 | A request posted under a registered id is answered by exactly one reply. That reply is either logged as an error (no interpreter, or the run raised) or routed to the handler under that id. |
| Controller.Page.constructor | public/rvcat.js:2-10 | A new page has the initial table, null globals, empty texts and nothing posted. |
| Controller.Page.ExecuteCode | public/rvcat.js:303-307 | The method posts one `execute` with the code and id, and changes nothing else. |
| Controller.Page.Deliver | public/rvcat.js:162-186 | `initialized` posts the two list requests; `loadedPackage`, error replies and id-less replies change nothing; an unregistered id throws. A standing handler has the effect `StandingRan` states, with the reply's result. A one-shot handler stores and resolves its own request's promise, or rejects on unparsable JSON, and puts back the saved handler. Every field is accounted for in every case. |
| Controller.Page.RequestLists | public/rvcat.js:164-167 | `initialized` posts the program-list request, then the processor-list request, and changes nothing else. |
| Controller.Page.SettleTimeline | public/rvcat.js:460-469 | The one-shot timeline handler stores the text, resolves the promise of its own request, and puts back the handler it saved. |
| Controller.Page.SettleProgramJson | public/rvcat.js:493-503 | The one-shot program handler stores and resolves what parses, rejects what does not, and puts back the handler it saved. |
| Controller.Page.RunStanding | public/rvcat.js:10-159 | Each standing handler's effect, `StandingRan`. Parsing handlers throw a SyntaxError on unparsable text before anything else, and only then. `get_processors` posts `prog_show` then `save_processor_info`, and `save_processor_info` posts the analysis request. The scheduler analysis ends as its run on the stored processor: a TypeError where that run throws, showing the diagram it drew before. Also modelled: the globals each handler sets, the cleaned listing, and the annotations. |
| Controller.Page.ShowAnalysis | public/rvcat.js:104-134 | The analysis handler's outcome, diagram and list are those of `Analysis.Run` on the stored processor, and nothing else changes. |
| Controller.Page.RequestNext | public/rvcat.js:22-74 | `get_processors` and `save_processor_info` post their follow-up requests, and the second stores the processor. |
| Controller.Page.Store | public/rvcat.js:37-154 | The other standing handlers store or show what they were given, and post nothing. |
| Controller.Page.GetTimeline | public/rvcat.js:445-477 | Clamps the count, installs the one-shot handler over the current one, and posts `show_timeline` under `format_timeline`. |
| Controller.Page.GetProgramJSON | public/rvcat.js:488-509 | Installs the one-shot handler over the current one and posts `GET_PROGRAM_JSON`. |
| Controller.Page.AnswerTimeline | public/rvcat.js:458-469 | A text reply to a pending timeline request runs the handler on top, resolves that handler's request and pops it off. |
| Controller.Page.AnswerProgramJson | public/rvcat.js:491-503 | A text reply to a pending program request runs the handler on top, resolves or rejects that handler's request and pops it off. |
| Controller.Page.AnswerError | public/rvcat.js:171-175 | An error reply is logged and changes nothing on the page. |
| Controller.Page.TimelineRoundTrip | public/rvcat.js:458-470 | After a text reply the table is as before, and the timeline text is stored and resolves the promise of the request just posted. |
| Controller.Page.ProgramJsonRoundTrip | public/rvcat.js:491-504 | After the reply the table is as before, and the promise of the request just posted is resolved with the parsed value (stored) or rejected. |
| Controller.Page.TimelineErrorKeepsOverride | public/rvcat.js:171-175 | After an error reply the one-shot handler stays installed and nothing settles. |
| Controller.Page.NestedTimelines | public/rvcat.js:458-470 | Two timeline requests posted before either reply stack their overrides, so the first reply resolves the second request's promise and the second reply the first's. The table is then as before and `timelineData` holds the second reply. |
| Storage.NewEntry | src/utils/simulationStorage.js:37-42 | The entry keeps the data and adds the id and timestamp. Its name is the given name when non-empty, else "Run n+1". |
| Storage.DefaultNamesDistinct | src/utils/simulationStorage.js:41 | The default names for different list lengths differ. |
| Storage.DefaultNameCanRepeat | src/utils/simulationStorage.js:41 | The default name counts the entries stored at that moment, so after a delete a new unnamed run can get the name a kept one already has. |
| Storage.FirstWithId | src/utils/simulationStorage.js:77 | The found index has the id, and no earlier entry has it. No index is found iff no entry has the id. |
| Storage.ExecutionStore.GetStoredExecutions | src/utils/simulationStorage.js:9-17 | Gives the stored list, or [] when nothing is stored or the text does not parse. |
| Storage.ExecutionStore.SaveExecution | src/utils/simulationStorage.js:32-52 | Writes back the previous list plus the new entry, and returns that entry. |
| Storage.ExecutionStore.DeleteExecution | src/utils/simulationStorage.js:58-67 | Writes back the list without the id. |
| Storage.ExecutionStore.RenameExecution | src/utils/simulationStorage.js:74-86 | Renames only the first entry with the id. With no such entry nothing is written. |
| Storage.ExecutionStore.ClearAllExecutions | src/utils/simulationStorage.js:91-98 | Removes the key, so reading gives []. |
| Storage.ExecutionStore.GetExecutionStats | src/utils/simulationStorage.js:112-137 | Returns the statistics of the stored list. |
| Storage.SaveAppends | src/utils/simulationStorage.js:44 | One entry is appended at the end and the earlier ones are unchanged. |
| Storage.WithoutMembers | src/utils/simulationStorage.js:61 | An entry survives deletion iff it was stored and has another id. |
| Storage.WithoutOrder | src/utils/simulationStorage.js:61 | Deleting distributes over concatenation, so the survivors keep their order. |
| Storage.WithoutIdempotent | src/utils/simulationStorage.js:61 | Deleting twice equals deleting once, and an unused id deletes nothing. |
| Storage.RenameOnlyFirst | src/utils/simulationStorage.js:77-79 | Renaming changes only the name of the first match; its id, data and timestamp and every other entry stay. |
| Storage.ClearedIsEmpty | src/utils/simulationStorage.js:91-94 | After clearing, the list is [] and the statistics are all zero. |
| Storage.TotalsAfterSave | src/utils/simulationStorage.js:124-129 | Saving one more entry adds its values to the totals, a missing one as 0. |
| Storage.TotalsAppend | src/utils/simulationStorage.js:124-129 | The totals of two lists add up. |
| Storage.TotalsOfMissing | src/utils/simulationStorage.js:125-127 | Entries with all values missing add nothing. |
| Storage.StatsMeans | src/utils/simulationStorage.js:112-137 | The count is the list's length. An empty list gives all zeros; otherwise each mean times the count is its total. |

## Left out

- Page elements: the DOM reads and writes, spinners, alerts and list options. Field texts and the selection are parameters, and the shown texts are fields of `Controller.Page`.
- Rendering with Viz/Graphviz, and the serialisation of the graph to DOT text. Diagrams are modelled as statement lists, without the layout-only attributes (height, width, font).
- `insert_cache_annotations` in `construct_reduced_processor_dot`: it only writes the page.
- The Python interpreter, what the rvcat engine does with the code, and the transport and `async` scheduling of `postMessage`. Run outcomes are parameters, and messages are values processed one at a time.
- The worker's package-load failures: loading is assumed to succeed.
- Worker.NoInterpreter: the browser's exact wording of the TypeError raised without an interpreter is a constant.
- `JSON.parse` and `JSON.stringify`: parse results are a parameter (`None` when the text does not parse). The stored run history is the list it encodes.
- Formatting with `toFixed` and `Math.round`. Percentages, tooltips and the averages of `getExecutionStats` are exact reals. Only the zero test of `createCriticalPathList` models `toFixed(1)`.
- Controller.NumberOf: the comparison of a field with a number reads only plain decimal numerals. Other numeric spellings (signs, exponents, surrounding blanks) are compared as NaN.
- Analysis.StageUsage: requires a positive stage width, as do Analysis.Usage and Analysis.AggregateUsage. The source would divide by a zero width and produce Infinity or NaN.
- Analysis.ReadInfo: stage widths that are not positive whole numbers (zero, fractions, strings, booleans) and `ports` given as an array or a string end the run as `NotFollowed`. The source goes on with Infinity, NaN or coerced values, or with array indices as keys.
- Analysis.ReadPorts: a `d.ports` given as an array ends the run as `NotFollowed`. An entry that is not a number draws as a throw, the same as a missing one.
- Analysis.Keys: `Object.keys` puts integer-like names first, in ascending order. The model keeps first-appearance order for all names.
- Analysis.Run: the figures written at rvcat.js:116-119 and the section toggles after the list are page writes. Only the throws of lines 118-119 are modelled.
- The TypeError `showProcessor` raises on a processor without `stages` or `ports` while `save_processor_info` runs. The model stores the processor and posts the analysis request anyway.
- `lastExecutedCommand` and the re-run of the last command after `prog_show`; `showProcessor` and the drawing of the reduced diagram it triggers from `save_processor_info` and `getSchedulerAnalysis`.
- The list handlers `get_programs` and `get_processors` do not iterate their parsed lists into the page. What they post is modelled; a parsed value that is not iterable is not.
- Handler keys inherited from the object prototype: an id such as `toString` is treated as unregistered.
- `currentROBSize`: it never clamps, and the ROB size is passed in as text.
- Python templates that no modelled operation sends, among them `addModifiedProcessor` and `addNewProgram`, are left out. The ones the model sends are copied as constant text.
- `generateExecutionId`, `Date.now`, `Math.random` and the timestamps: fresh ids and timestamps are parameters. Failures of storage writes, and a stored value that parses to something other than a list, are not modelled.
- The commented-out old diagram, `setup.py`, `src/router/index.js` and `src/main.js` are not part of this model: they hold none of the logic of the modules listed above.
