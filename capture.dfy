/** The output capture of src/App.tsx (`handleRun`, lines 45-56 and 70):
    while a run is in progress, `console.log` is replaced by a wrapper that
    formats its arguments into one line, pushes that line onto the run's
    buffer, and forwards the call to the function it replaced. The global
    console is an explicit `Console` object whose `log` field says which
    function is installed. */
module Capture {
  import opened Strings
  import opened JsValues

  /** One `console.log(...args)` call as a buffer line: each argument
      rendered, joined by a single space. */
  function Format(render: Renderer, args: seq<Value>): string
  {
    Join(seq(|args|, i requires 0 <= i < |args| => RenderArg(render, args[i])), ' ')
  }

  /** The buffer lines for a sequence of `console.log` calls, one per call. */
  function FormatAll(render: Renderer, calls: seq<seq<Value>>): seq<string>
  {
    seq(|calls|, k requires 0 <= k < |calls| => Format(render, calls[k]))
  }

  /** A single argument is rendered on its own, with no separator. */
  lemma FormatOne(render: Renderer, v: Value)
    ensures Format(render, [v]) == RenderArg(render, v)
  {
  }

  /** The arguments of one call are separated by exactly one space: the
      line for `a` followed by `b` is the line for `a`, a space, and the
      line for `b`. */
  lemma FormatAppend(render: Renderer, a: seq<Value>, b: seq<Value>)
    requires |a| >= 1 && |b| >= 1
    ensures Format(render, a + b) == Format(render, a) + " " + Format(render, b)
  {
    var ra := seq(|a|, i requires 0 <= i < |a| => RenderArg(render, a[i]));
    var rb := seq(|b|, i requires 0 <= i < |b| => RenderArg(render, b[i]));
    assert seq(|a + b|, i requires 0 <= i < |a + b| => RenderArg(render, (a + b)[i])) == ra + rb;
    JoinAppend(ra, rb, ' ');
  }

  /** The buffer lines of consecutive calls are the lines of each part. */
  lemma FormatAllAppend(render: Renderer, xs: seq<seq<Value>>, ys: seq<seq<Value>>)
    ensures FormatAll(render, xs + ys) == FormatAll(render, xs) + FormatAll(render, ys)
  {
  }

  /** The run-local `logs` array, which the wrapper appends to. */
  class LogBuffer {
    var lines: seq<string>

    constructor ()
      ensures lines == []
    {
      lines := [];
    }

    /** `logs.push(line)`. */
    method Push(line: string)
      modifies this
      ensures lines == old(lines) + [line]
    {
      lines := lines + [line];
    }
  }

  /** The function installed as `console.log`: the runtime's own, or a
      capture wrapper around the function that was installed before it. */
  datatype LogFn =
    | NativeLog
    | CapturingLog(buffer: LogBuffer, original: LogFn)

  /** The buffers that a call through `f` appends to. */
  ghost function Buffers(f: LogFn): set<LogBuffer>
  {
    match f
    case NativeLog => {}
    case CapturingLog(b, original) => {b} + Buffers(original)
  }

  /** The buffers of an allocated chain are allocated. */
  lemma BuffersAllocated(f: LogFn)
    ensures forall b :: b in Buffers(f) ==> allocated(b)
  {
  }

  /** No buffer is wrapped twice along the chain, so each call appends to
      each buffer once. */
  ghost predicate DistinctBuffers(f: LogFn)
  {
    match f
    case NativeLog => true
    case CapturingLog(b, original) => b !in Buffers(original) && DistinctBuffers(original)
  }

  /** The global console. `printed` is what has reached the runtime's own
      log sink. */
  class Console {
    const render: Renderer
    var log: LogFn
    var printed: seq<seq<Value>>

    ghost predicate Valid()
      reads this
    {
      DistinctBuffers(log)
    }

    ghost function Captures(): set<LogBuffer>
      reads this
    {
      Buffers(log)
    }

    constructor (render: Renderer)
      ensures this.render == render && log == NativeLog && printed == []
      ensures Valid()
    {
      this.render := render;
      log := NativeLog;
      printed := [];
    }

    /** Between the earlier state and now, exactly the calls `logged` went
        through the installed function: their arguments reached the
        runtime's sink, and every capture buffer along the chain got one
        formatted line per call. */
    twostate predicate LoggedSince(logged: seq<seq<Value>>)
      reads this, Captures()
    {
      printed == old(printed) + logged &&
      forall b :: b in Captures() ==> old(allocated(b)) && b.lines == old(b.lines) + FormatAll(render, logged)
    }

    /** `console.log(...args)`: every capture buffer along the installed
        chain gets the formatted line, and the arguments reach the
        runtime's sink once. */
    method Log(args: seq<Value>)
      requires Valid()
      modifies this`printed, Captures()
      ensures LoggedSince([args])
    {
      BuffersAllocated(log);
      Call(log, args);
    }

    /** Calls `f` with `args`: a wrapper pushes the formatted line and then
        forwards the call to the function it saved. */
    method Call(f: LogFn, args: seq<Value>)
      requires DistinctBuffers(f)
      modifies this`printed, Buffers(f)
      decreases f
      ensures printed == old(printed) + [args]
      ensures forall b :: b in Buffers(f) ==> old(allocated(b))
      ensures forall b :: b in Buffers(f) ==> b.lines == old(b.lines) + [Format(render, args)]
    {
      BuffersAllocated(f);
      match f
      case NativeLog =>
        printed := printed + [args];
      case CapturingLog(buffer, original) =>
        buffer.Push(Format(render, args));
        Call(original, args);
    }
  }

  /** One capture window: two calls inside it give two lines, a string as
      itself and an object as JSON; after the original function is back,
      a further call reaches the runtime's sink but not the buffer. */
  method CaptureWindowExample(render: Renderer, handle: nat) returns (lines: seq<string>, printed: seq<seq<Value>>)
    ensures lines == ["x", render.json(Composite(handle))]
    ensures printed == [[Str("x")], [Composite(handle)], [Str("y")]]
  {
    var console := new Console(render);
    var logs := new LogBuffer();
    var originalLog := console.log;
    console.log := CapturingLog(logs, originalLog);
    assert Buffers(originalLog) == {};
    assert console.Captures() == {logs};
    console.Log([Str("x")]);
    console.Log([Composite(handle)]);
    console.log := originalLog;
    console.Log([Str("y")]);
    lines := logs.lines;
    printed := console.printed;
  }
}
