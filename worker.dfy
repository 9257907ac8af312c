/**
  The web worker of public/worker.js: it owns the Python interpreter, loads it
  on the first `initialize` message and answers each message with a reply
  envelope. The interpreter and the Python run are abstract: whether the
  interpreter is loaded is a flag, the loaded packages a set, and the outcome
  of running a piece of code is passed in.
*/
module Worker {
  import opened Base

  /** The packages `initialize` loads after the interpreter. */
  const Numpy: string := "numpy"
  const RvcatWheel: string := "rvcat-0.1.36-py3-none-any.whl"

  /** A message from the page: its `action`, and the `package`, `code` and optional `id` it may carry. */
  datatype Request = Request(action: string, package: string, code: string, id: Option<string>)

  function InitializeRequest(): Request { Request("initialize", "", "", None) }
  function ExecuteRequest(code: string, id: Option<string>): Request { Request("execute", "", code, id) }
  function LoadPackageRequest(package: string): Request { Request("loadPackage", package, "", None) }

  /** The `data_type` of an `executed` reply. */
  datatype DataType = Text | Error

  /** A reply posted back to the page; an `id` of `None` is a reply without the field. */
  datatype Reply =
    | Initialized
    | LoadedPackage(package: string)
    | Executed(result: string, dataType: DataType, id: Option<string>)

  /** What running the code does: it returns a value, or it raises and `err.toString()` is the description. */
  datatype RunOutcome = Returned(value: string) | Raised(description: string)

  /** What `self.pyodide.runPythonAsync` raises when the interpreter was never loaded. */
  const NoInterpreter: string := "TypeError: self.pyodide is undefined"

  /** The worker's state as a value: whether `self.pyodide` is set, and the packages loaded into it. */
  datatype WorkerState = WorkerState(interpreter: bool, packages: set<string>)

  /** Packages live in the interpreter: none without it, and the two start-up packages with it. */
  predicate Coherent(s: WorkerState)
  {
    if s.interpreter then Numpy in s.packages && RvcatWheel in s.packages else s.packages == {}
  }

  /** `initialize()`: load the interpreter and the two packages, only when the interpreter is absent. */
  function InitializeState(s: WorkerState): (t: WorkerState)
    ensures t.interpreter
    ensures s.interpreter ==> t == s
    ensures !s.interpreter ==> t.packages == s.packages + {Numpy, RvcatWheel}
  {
    if s.interpreter then s else WorkerState(true, s.packages + {Numpy, RvcatWheel})
  }

  /** The envelope of the reply to an `execute` message. */
  function ExecutedReply(s: WorkerState, req: Request, run: RunOutcome): Reply
  {
    if !s.interpreter then Executed(NoInterpreter, Error, req.id)
    else match run
      case Returned(v) => Executed(v, Text, req.id)
      case Raised(e) => Executed(e, Error, req.id)
  }

  /** The effect of one message: the new state and the replies posted, in order. */
  datatype Transition = Transition(state: WorkerState, replies: seq<Reply>)

  /**
    One message as `self.onmessage` handles it. A `loadPackage` before the
    interpreter exists rejects inside the handler, so nothing is posted and
    nothing is loaded; an unknown action is ignored.
  */
  function Step(s: WorkerState, req: Request, run: RunOutcome): Transition
  {
    if req.action == "initialize" then Transition(InitializeState(s), [Initialized])
    else if req.action == "loadPackage" then
      if s.interpreter then Transition(s.(packages := s.packages + {req.package}), [LoadedPackage(req.package)])
      else Transition(s, [])
    else if req.action == "execute" then Transition(s, [ExecutedReply(s, req, run)])
    else Transition(s, [])
  }

  /** The worker itself: `self.pyodide` and what has been loaded into it, and the replies posted so far. */
  class WebWorker {
    var interpreter: bool
    var packages: set<string>
    var posted: seq<Reply>

    function State(): WorkerState
      reads this
    {
      WorkerState(interpreter, packages)
    }

    /** A fresh worker: no interpreter, nothing posted. */
    constructor ()
      ensures State() == WorkerState(false, {}) && posted == []
    {
      interpreter, packages, posted := false, {}, [];
    }

    /** `initialize()`. */
    method Initialize()
      modifies this
      ensures State() == InitializeState(old(State())) && posted == old(posted)
    {
      if !interpreter {
        interpreter := true;
        packages := packages + {Numpy};
        packages := packages + {RvcatWheel};
      }
    }

    /** `self.onmessage`: the three action tests in turn, each posting its reply. */
    method Receive(req: Request, run: RunOutcome)
      modifies this
      ensures State() == Step(old(State()), req, run).state
      ensures posted == old(posted) + Step(old(State()), req, run).replies
    {
      if req.action == "initialize" {
        Initialize();
        posted := posted + [Initialized];
      }
      if req.action == "loadPackage" {
        if interpreter {
          packages := packages + {req.package};
          posted := posted + [LoadedPackage(req.package)];
        }
      }
      if req.action == "execute" {
        var reply;
        if !interpreter {
          reply := Executed(NoInterpreter, Error, req.id);
        } else {
          match run
          case Returned(v) => reply := Executed(v, Text, req.id);
          case Raised(e) => reply := Executed(e, Error, req.id);
        }
        posted := posted + [reply];
      }
    }
  }

  // ---------------------------------------------------------------------------
  // Properties of one message
  // ---------------------------------------------------------------------------

  /** A second `initialize` changes nothing: the interpreter and packages are loaded once. */
  lemma InitializeIdempotent(s: WorkerState)
    ensures InitializeState(InitializeState(s)) == InitializeState(s)
  {
  }

  /** Every message keeps the packages coherent with the interpreter. */
  lemma StepKeepsCoherent(s: WorkerState, req: Request, run: RunOutcome)
    requires Coherent(s)
    ensures Coherent(Step(s, req, run).state)
  {
  }

  /** An `initialize` message gets exactly one reply, `initialized`, and leaves the interpreter loaded. */
  lemma InitializeReply(s: WorkerState, run: RunOutcome)
    ensures Step(s, InitializeRequest(), run).replies == [Initialized]
    ensures Step(s, InitializeRequest(), run).state.interpreter
  {
  }

  /**
    An `execute` message gets exactly one reply, `executed`, which carries an
    id exactly when the request did, and that id; it is `text` with the value
    when the run returns and `error` with the description when it raises.
  */
  lemma ExecuteReply(s: WorkerState, code: string, id: Option<string>, run: RunOutcome)
    requires s.interpreter
    ensures var t := Step(s, ExecuteRequest(code, id), run);
      && t.state == s
      && |t.replies| == 1 && t.replies[0].Executed?
      && (t.replies[0].id.Some? <==> id.Some?)
      && t.replies[0].id == id
      && (t.replies[0].dataType == Text <==> run.Returned?)
      && (run.Returned? ==> t.replies[0].result == run.value)
      && (run.Raised? ==> t.replies[0].result == run.description)
  {
  }

  /** Before the interpreter is loaded an `execute` still gets its one reply, an error naming the missing interpreter. */
  lemma ExecuteBeforeInitialize(s: WorkerState, code: string, id: Option<string>, run: RunOutcome)
    requires !s.interpreter
    ensures Step(s, ExecuteRequest(code, id), run).replies == [Executed(NoInterpreter, Error, id)]
  {
  }

  /** A `loadPackage` reply echoes the package name; before the interpreter exists there is no reply. */
  lemma LoadPackageReply(s: WorkerState, package: string, run: RunOutcome)
    ensures var t := Step(s, LoadPackageRequest(package), run);
      && (s.interpreter ==> t.replies == [LoadedPackage(package)] && t.state.packages == s.packages + {package})
      && (!s.interpreter ==> t.replies == [] && t.state == s)
  {
  }

  // ---------------------------------------------------------------------------
  // Properties of a conversation
  // ---------------------------------------------------------------------------

  /** The state and replies after a sequence of messages, each with its run outcome. */
  function Run(s: WorkerState, reqs: seq<Request>, runs: seq<RunOutcome>): Transition
    requires |reqs| == |runs|
    decreases |reqs|
  {
    if reqs == [] then Transition(s, [])
    else
      var first := Step(s, reqs[0], runs[0]);
      var rest := Run(first.state, reqs[1..], runs[1..]);
      Transition(rest.state, first.replies + rest.replies)
  }

  /** How many messages carry the action. */
  function CountAction(reqs: seq<Request>, action: string): nat
  {
    if reqs == [] then 0 else (if reqs[0].action == action then 1 else 0) + CountAction(reqs[1..], action)
  }

  /** How many replies satisfy a test. */
  function CountInitialized(rs: seq<Reply>): nat
  {
    if rs == [] then 0 else (if rs[0].Initialized? then 1 else 0) + CountInitialized(rs[1..])
  }

  function CountExecuted(rs: seq<Reply>): nat
  {
    if rs == [] then 0 else (if rs[0].Executed? then 1 else 0) + CountExecuted(rs[1..])
  }

  lemma {:induction false} CountInitializedAppend(a: seq<Reply>, b: seq<Reply>)
    ensures CountInitialized(a + b) == CountInitialized(a) + CountInitialized(b)
    decreases |a|
  {
    if a != [] {
      assert (a + b)[0] == a[0] && (a + b)[1..] == a[1..] + b;
      CountInitializedAppend(a[1..], b);
    } else {
      assert a + b == b;
    }
  }

  lemma {:induction false} CountExecutedAppend(a: seq<Reply>, b: seq<Reply>)
    ensures CountExecuted(a + b) == CountExecuted(a) + CountExecuted(b)
    decreases |a|
  {
    if a != [] {
      assert (a + b)[0] == a[0] && (a + b)[1..] == a[1..] + b;
      CountExecutedAppend(a[1..], b);
    } else {
      assert a + b == b;
    }
  }

  /**
    Over any conversation, the worker posts exactly one `initialized` per
    `initialize` message and exactly one `executed` per `execute` message,
    and the packages stay coherent with the interpreter.
  */
  lemma {:induction false} RunReplyCounts(s: WorkerState, reqs: seq<Request>, runs: seq<RunOutcome>)
    requires |reqs| == |runs| && Coherent(s)
    ensures CountInitialized(Run(s, reqs, runs).replies) == CountAction(reqs, "initialize")
    ensures CountExecuted(Run(s, reqs, runs).replies) == CountAction(reqs, "execute")
    ensures Coherent(Run(s, reqs, runs).state)
    decreases |reqs|
  {
    if reqs != [] {
      var first := Step(s, reqs[0], runs[0]);
      StepKeepsCoherent(s, reqs[0], runs[0]);
      RunReplyCounts(first.state, reqs[1..], runs[1..]);
      var rest := Run(first.state, reqs[1..], runs[1..]);
      CountInitializedAppend(first.replies, rest.replies);
      CountExecutedAppend(first.replies, rest.replies);
    }
  }

  /** After the first `initialize` of a conversation the interpreter stays loaded. */
  lemma {:induction false} RunKeepsInterpreter(s: WorkerState, reqs: seq<Request>, runs: seq<RunOutcome>)
    requires |reqs| == |runs| && s.interpreter
    ensures Run(s, reqs, runs).state.interpreter
    ensures s.packages <= Run(s, reqs, runs).state.packages
    decreases |reqs|
  {
    if reqs != [] {
      RunKeepsInterpreter(Step(s, reqs[0], runs[0]).state, reqs[1..], runs[1..]);
    }
  }
}
