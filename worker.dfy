/** The Python worker of multirunner/handlers/python.py: the capture of the process-wide
    output streams, the validation of the specification line in four phases, the record
    built for each item, and the line protocol of `main`.

    Everything the worker does to the outside world is an oracle in `Env`: decoding JSON,
    the temporary file `tempfile` would create, `os.path.isfile`, importing a module from
    a path, looking up and calling attributes of it, and the traceback text. */
module Worker {
  import opened Common

  // -------------------------------------------------------------- output capture

  datatype StreamName = Stdout | Stderr

  /** The order in which `__enter__` and `__exit__` visit the two streams. */
  const STREAM_NAMES: seq<StreamName> := [Stdout, Stderr]

  /** A text stream object, by identity. */
  type Sink = nat

  /** The interpreter's `sys` module, as far as `stdout` and `stderr` go. */
  class Sys {
    var sinks: map<StreamName, Sink>

    ghost predicate Valid()
      reads this
    {
      Stdout in sinks && Stderr in sinks
    }

    constructor (out: Sink, err: Sink)
      ensures Valid() && sinks == map[Stdout := out, Stderr := err]
    {
      sinks := map[Stdout := out, Stderr := err];
    }
  }

  /** `OutputCapture(stdout, stderr)`: which streams to capture, the two buffers, and the
      streams in place when the object was made. The `StringIO` buffers the source creates
      are given as parameters; the model does not require them to be new or distinct. */
  class OutputCapture {
    const capture: map<StreamName, bool>
    const streams: map<StreamName, Sink>
    const saves: map<StreamName, Sink>

    ghost predicate Valid()
    {
      forall n :: n in STREAM_NAMES ==> n in capture && n in streams && n in saves
    }

    constructor (sys: Sys, stdout: bool, stderr: bool, outBuffer: Sink, errBuffer: Sink)
      requires sys.Valid()
      ensures Valid()
      ensures capture == map[Stdout := stdout, Stderr := stderr]
      ensures streams == map[Stdout := outBuffer, Stderr := errBuffer]
      ensures saves == sys.sinks
    {
      capture := map[Stdout := stdout, Stderr := stderr];
      streams := map[Stdout := outBuffer, Stderr := errBuffer];
      saves := sys.sinks;
    }

    /** `__enter__`: each flagged stream is replaced by its buffer; the others stay. */
    method Enter(sys: Sys)
      requires Valid() && sys.Valid()
      modifies sys
      ensures sys.Valid() && sys.sinks.Keys == old(sys.sinks.Keys)
      ensures forall n :: n in STREAM_NAMES ==> sys.sinks[n] == if capture[n] then streams[n] else old(sys.sinks[n])
    {
      ghost var before := sys.sinks;
      for i := 0 to |STREAM_NAMES|
        invariant sys.Valid() && sys.sinks.Keys == before.Keys
        invariant forall j :: 0 <= j < i ==> sys.sinks[STREAM_NAMES[j]] == if capture[STREAM_NAMES[j]] then streams[STREAM_NAMES[j]] else before[STREAM_NAMES[j]]
        invariant forall j :: i <= j < |STREAM_NAMES| ==> sys.sinks[STREAM_NAMES[j]] == before[STREAM_NAMES[j]]
      {
        var name := STREAM_NAMES[i];
        if capture[name] {
          sys.sinks := sys.sinks[name := streams[name]];
        }
      }
    }

    /** `__exit__`: both streams are put back as they were when the object was made,
        whether or not they were captured. */
    method Exit(sys: Sys)
      requires Valid() && sys.Valid()
      modifies sys
      ensures sys.Valid() && sys.sinks.Keys == old(sys.sinks.Keys)
      ensures forall n :: n in STREAM_NAMES ==> sys.sinks[n] == saves[n]
    {
      ghost var before := sys.sinks;
      for i := 0 to |STREAM_NAMES|
        invariant sys.Valid() && sys.sinks.Keys == before.Keys
        invariant forall j :: 0 <= j < i ==> sys.sinks[STREAM_NAMES[j]] == saves[STREAM_NAMES[j]]
      {
        var name := STREAM_NAMES[i];
        sys.sinks := sys.sinks[name := saves[name]];
      }
    }
  }

  /** A `with OutputCapture(...)` block around code that leaves the streams alone: inside,
      the flagged streams write to the buffers; afterwards the two streams are the ones
      in place when the block began. */
  method Captured(sys: Sys, stdout: bool, stderr: bool, outBuffer: Sink, errBuffer: Sink)
    returns (inside: map<StreamName, Sink>)
    requires sys.Valid()
    modifies sys
    ensures sys.Valid() && sys.sinks == old(sys.sinks)
    ensures Stdout in inside && Stderr in inside
    ensures inside[Stdout] == (if stdout then outBuffer else old(sys.sinks[Stdout]))
    ensures inside[Stderr] == (if stderr then errBuffer else old(sys.sinks[Stderr]))
  {
    var oc := new OutputCapture(sys, stdout, stderr, outBuffer, errBuffer);
    oc.Enter(sys);
    assert Stdout == STREAM_NAMES[0] && Stderr == STREAM_NAMES[1];
    inside := sys.sinks;
    oc.Exit(sys);
    forall n | n in sys.sinks ensures sys.sinks[n] == old(sys.sinks[n]) {
      assert n == STREAM_NAMES[0] || n == STREAM_NAMES[1];
    }
  }

  // ------------------------------------------------------------------- oracles

  /** What running foreign code does: it returns a value, raises an ordinary exception, or
      raises `KeyboardInterrupt`/`SystemExit`, which every handler here lets through. */
  datatype Outcome<+T> = Returns(value: T) | Raises | Exits

  /** A loaded module, by identity. */
  type Module = nat

  /** The handler function `validate_spec` hands back: an attribute of a loaded module. */
  datatype Handler = Handler(mod: Module, name: Json)

  /** What `int(x)` makes of a handler's return value. */
  datatype Coerced = IntLike(n: int) | NotCoercible

  /** One handler call: what it wrote to the two streams, and how it ended. */
  datatype Call =
    | Returned(out: string, err: string, code: Coerced)
    | Threw(out: string, err: string)
    | Quit

  datatype Env = Env(
    /** `json.loads`, or `None` when it raises. */
    parse: string -> Option<Json>,
    /** The name of the file `NamedTemporaryFile` creates, or `None` when it cannot. */
    tempFile: Option<string>,
    /** `os.path.isfile`. */
    isFile: Json -> bool,
    /** Loading the source file at a path under a module name (`get_handler`'s import). */
    load: (Json, Json) -> Outcome<Module>,
    /** Whether `getattr(mod, name)` finds an attribute. */
    hasAttr: (Module, Json) -> bool,
    /** `getattr(mod, name)()` for the setup hook. */
    hook: (Module, Json) -> Outcome<()>,
    /** The handler called with a series of arguments. */
    call: (Handler, seq<Json>) -> Call,
    /** The text `traceback` renders for the exception being handled. */
    trace: string)

  // ------------------------------------------------------------- validate_spec

  const WHEN_SPEC := "loading spec"
  const WHEN_CODE := "loading code"
  const WHEN_MODULE := "loading module"
  const WHEN_HOOK := "setup hook"

  /** How `validate_spec` ends: with the handler, with the phase that failed (the record
      sent back is `DiagnosticRecord` of it), or by letting `KeyboardInterrupt` or
      `SystemExit` through. */
  datatype Verdict = Accepted(handler: Handler) | Rejected(when: string) | Interrupted

  /** A verdict with its effect on the file system: the temporary file created, if any,
      and the paths handed to `os.remove`, in order. */
  datatype Validation = Validation(verdict: Verdict, created: Option<string>, removed: seq<string>)

  /** `{'stack': ..., 'when': ...}`. */
  function DiagnosticRecord(when: string, stack: string): (r: Json)
    ensures r.JObj? && r.fields.Keys == ({"stack", "when"}) && r.fields["when"] == JStr(when)
  {
    JObj(map["stack" := JStr(stack), "when" := JStr(when)])
  }

  function OptionSeq<T>(o: Option<T>): (r: seq<T>)
    ensures o.Some? ==> r == [o.value]
    ensures o.None? ==> r == []
  {
    if o.Some? then [o.value] else []
  }

  /** The code descriptor: a dictionary gives its `type` and `data`, anything else is
      inline source; `None` when a subscript raises. */
  function CodeSource(info: Json): (r: Option<(Json, Json)>)
    ensures r.Some? ==> info.JObj? && "code" in info.fields
  {
    if !info.JObj? || "code" !in info.fields then None
    else
      var code := info.fields["code"];
      if !code.JObj? then Some((JStr("string"), code))
      else if "type" in code.fields && "data" in code.fields then Some((code.fields["type"], code.fields["data"]))
      else None
  }

  /** Where the code ends up: a path to load and the temporary file to remove afterwards,
      or a failure together with the temporary file already created, if any. */
  datatype Placement = Placed(path: Json, temp: Option<string>) | NotPlaced(created: Option<string>)

  /** Inline source is written to a fresh temporary file (writing anything but text
      raises); a `path` must name an existing file and is used in place. */
  function PlaceCode(env: Env, inputType: Json, data: Json): (r: Placement)
    ensures r.Placed? && r.temp.Some? ==> r.path == JStr(r.temp.value) && env.tempFile == r.temp
    ensures r.NotPlaced? && r.created.Some? ==> env.tempFile == r.created
  {
    if inputType == JStr("string") then
      match env.tempFile
      case None => NotPlaced(None)
      case Some(name) => if data.JStr? then Placed(JStr(name), Some(name)) else NotPlaced(Some(name))
    else if inputType == JStr("path") && env.isFile(data) then
      Placed(data, None)
    else
      NotPlaced(None)
  }

  /** The third and fourth phases: the module is loaded and the handler looked up (the
      names default to `run` and `main`), then the setup hook, when one is named, is
      called. */
  function LoadHandler(env: Env, fields: map<string, Json>, path: Json): (r: Verdict)
    ensures r != Rejected(WHEN_SPEC) && r != Rejected(WHEN_CODE)
  {
    match env.load(path, Get(fields, "mod_name", JStr("run")))
    case Raises => Rejected(WHEN_MODULE)
    case Exits => Interrupted
    case Returns(m) =>
      var name := Get(fields, "handler", JStr("main"));
      if !env.hasAttr(m, name) then Rejected(WHEN_MODULE)
      else
        var hook := Get(fields, "setup_hook", JNull);
        if hook == JNull then Accepted(Handler(m, name))
        else match env.hook(m, hook)
          case Raises => Rejected(WHEN_HOOK)
          case Exits => Interrupted
          case Returns(_) => Accepted(Handler(m, name))
  }

  /** `validate_spec(spec)`. A temporary file is removed where the code phase fails, and
      in the `finally` clause once the later phases are over, however they end. */
  function ValidateSpec(env: Env, line: string): (r: Validation)
    ensures r.removed == OptionSeq(r.created)
  {
    match env.parse(line)
    case None => Validation(Rejected(WHEN_SPEC), None, [])
    case Some(info) =>
      match CodeSource(info)
      case None => Validation(Rejected(WHEN_CODE), None, [])
      case Some(source) =>
        match PlaceCode(env, source.0, source.1)
        case NotPlaced(created) => Validation(Rejected(WHEN_CODE), created, OptionSeq(created))
        case Placed(path, temp) => Validation(LoadHandler(env, info.fields, path), temp, OptionSeq(temp))
  }

  /** The code phase succeeds exactly when this holds: the descriptor is complete and is
      either text to write to a temporary file that can be created, or an existing path. */
  ghost predicate CodeUsable(env: Env, info: Json)
  {
    && info.JObj? && "code" in info.fields
    && var code := info.fields["code"];
       if code.JObj? then
         && "type" in code.fields && "data" in code.fields
         && ((code.fields["type"] == JStr("string") && env.tempFile.Some? && code.fields["data"].JStr?)
             || (code.fields["type"] == JStr("path") && env.isFile(code.fields["data"])))
       else
         env.tempFile.Some? && code.JStr?
  }

  /** Each phase label is reported exactly when that phase is the first to fail. */
  lemma Phases(env: Env, line: string)
    ensures ValidateSpec(env, line).verdict == Rejected(WHEN_SPEC) <==> env.parse(line).None?
    ensures ValidateSpec(env, line).verdict == Rejected(WHEN_CODE)
            <==> env.parse(line).Some? && !CodeUsable(env, env.parse(line).value)
    ensures ValidateSpec(env, line).verdict in {Rejected(WHEN_MODULE), Rejected(WHEN_HOOK), Interrupted}
            || ValidateSpec(env, line).verdict.Accepted?
            || ValidateSpec(env, line).verdict in {Rejected(WHEN_SPEC), Rejected(WHEN_CODE)}
    ensures ValidateSpec(env, line).verdict.Accepted? || ValidateSpec(env, line).verdict.Interrupted?
            || ValidateSpec(env, line).verdict == Rejected(WHEN_MODULE) || ValidateSpec(env, line).verdict == Rejected(WHEN_HOOK)
            ==> env.parse(line).Some? && CodeUsable(env, env.parse(line).value)
  {
    var r := ValidateSpec(env, line);
    match env.parse(line)
    case None =>
    case Some(info) =>
      match CodeSource(info)
      case None =>
      case Some(source) =>
        var p := PlaceCode(env, source.0, source.1);
        assert p.Placed? <==> CodeUsable(env, info);
  }

  /** An accepted specification yields the attribute named by `handler` (default `main`)
      of the module loaded under `mod_name` (default `run`), and its setup hook, if it
      names one, returned normally. */
  lemma AcceptedHandler(env: Env, line: string)
    requires ValidateSpec(env, line).verdict.Accepted?
    ensures var info := env.parse(line).value;
            var h := ValidateSpec(env, line).verdict.handler;
            var hook := Get(info.fields, "setup_hook", JNull);
            && info.JObj? && CodeUsable(env, info)
            && h.name == Get(info.fields, "handler", JStr("main"))
            && env.hasAttr(h.mod, h.name)
            && (exists path :: env.load(path, Get(info.fields, "mod_name", JStr("run"))) == Returns(h.mod))
            && (hook == JNull || env.hook(h.mod, hook).Returns?)
  {
    Phases(env, line);
    var info := env.parse(line).value;
    var source := CodeSource(info).value;
    var path := PlaceCode(env, source.0, source.1).path;
    assert env.load(path, Get(info.fields, "mod_name", JStr("run"))).Returns?;
  }

  /** Whatever the outcome, a temporary file created for inline code is removed exactly
      once, and nothing else is removed; a file given by `path` is never created nor
      removed. */
  lemma TempFileRemoved(env: Env, line: string)
    ensures var r := ValidateSpec(env, line);
            && (r.created.Some? ==> r.removed == [r.created.value] && env.tempFile == r.created)
            && (r.created.None? ==> r.removed == [])
    ensures var info := env.parse(line);
            info.Some? && info.value.JObj? && "code" in info.value.fields && info.value.fields["code"].JObj?
            && "type" in info.value.fields["code"].fields && info.value.fields["code"].fields["type"] == JStr("path")
            ==> ValidateSpec(env, line).removed == []
  {
  }

  /** The setup hook oracle is consulted only when the specification names a hook. */
  lemma HookOnlyWhenNamed(env: Env, line: string, hook: (Module, Json) -> Outcome<()>)
    requires env.parse(line).Some? && env.parse(line).value.JObj?
    requires Get(env.parse(line).value.fields, "setup_hook", JNull) == JNull
    ensures ValidateSpec(env.(hook := hook), line) == ValidateSpec(env, line)
  {
    var info := env.parse(line).value;
    match CodeSource(info)
    case None =>
    case Some(source) =>
      assert PlaceCode(env.(hook := hook), source.0, source.1) == PlaceCode(env, source.0, source.1);
      match PlaceCode(env, source.0, source.1)
      case NotPlaced(_) =>
      case Placed(path, _) =>
        assert LoadHandler(env.(hook := hook), info.fields, path) == LoadHandler(env, info.fields, path);
  }

  // --------------------------------------------------------------- handle_item

  /** The record built for one item. */
  datatype Item = Item(data: string, exit: int, stdout: string, stderr: string)

  function ItemRecord(it: Item): (r: Json)
    ensures r.JObj? && r.fields.Keys == ({"data", "exit", "stdout", "stderr"})
    ensures r.fields["data"] == JStr(it.data) && r.fields["exit"] == JInt(it.exit)
  {
    JObj(map["data" := JStr(it.data), "exit" := JInt(it.exit), "stdout" := JStr(it.stdout), "stderr" := JStr(it.stderr)])
  }

  /** `handle_item(handler, item, context_arg)`, with both streams captured; `None` when
      the handler raises `KeyboardInterrupt` or `SystemExit`, which escapes. */
  function HandleItem(env: Env, handler: Handler, item: string, contextArg: bool): (r: Option<Item>)
    ensures r.Some? ==> r.value.data == item
  {
    match env.parse(item)
    case None => Some(Item(item, 1, "", env.trace))
    case Some(v) =>
      match env.call(handler, [v] + if contextArg then [JObj(map[])] else [])
      case Quit => None
      case Threw(out, err) => Some(Item(item, 1, out, err + env.trace))
      case Returned(out, err, code) => Some(Item(item, if code.IntLike? then code.n else 0, out, err))
  }

  /** The exit code of a record: 1 with the traceback appended to the captured error
      stream when the item does not decode or the handler raises; otherwise what the
      handler returned, as an integer, or 0 when that does not convert. Only a handler
      quitting the interpreter yields no record. */
  lemma ItemExit(env: Env, handler: Handler, item: string, contextArg: bool)
    ensures var r := HandleItem(env, handler, item, contextArg);
            var args := if env.parse(item).Some? then [env.parse(item).value] + (if contextArg then [JObj(map[])] else []) else [];
            && (r.None? <==> env.parse(item).Some? && env.call(handler, args).Quit?)
            && (r.Some? && (env.parse(item).None? || env.call(handler, args).Threw?)
                ==> r.value.exit == 1 && EndsWith(r.value.stderr, env.trace))
            && (env.parse(item).Some? && env.call(handler, args).Returned?
                ==> r == Some(Item(item, if env.call(handler, args).code.IntLike? then env.call(handler, args).code.n else 0,
                                   env.call(handler, args).out, env.call(handler, args).err)))
  {
  }

  predicate EndsWith(s: string, suffix: string)
  {
    |suffix| <= |s| && s[|s| - |suffix|..] == suffix
  }

  // ---------------------------------------------------------------------- main

  /** One line written to standard output: text, or `json.dumps` of a value (with the keys
      sorted or in insertion order). `print` ends each with a line terminator. */
  datatype OutLine = Text(s: string) | Dumped(value: Json, sortKeys: bool)

  /** How the worker process ends: normally; silently, on `KeyboardInterrupt` or
      `SystemExit`; or with an uncaught exception. */
  datatype Ending = Finished | Quiet | Crashed

  /** `out` holds one record line per item of `items`, in order. */
  ghost predicate Answers(env: Env, h: Handler, items: seq<string>, out: seq<OutLine>, sortKeys: bool)
  {
    && |out| == |items|
    && forall i :: 0 <= i < |items| ==>
         HandleItem(env, h, items[i], true).Some? && out[i] == Dumped(ItemRecord(HandleItem(env, h, items[i], true).value), sortKeys)
  }

  /** The item loop of `main`: a record line per item until a handler quits the
      interpreter. */
  method AnswerItems(env: Env, h: Handler, items: seq<string>, sortKeys: bool) returns (out: seq<OutLine>, ending: Ending)
    ensures ending != Crashed && |out| <= |items|
    ensures Answers(env, h, items[..|out|], out, sortKeys)
    ensures ending == Finished <==> |out| == |items|
    ensures ending == Quiet ==> HandleItem(env, h, items[|out|], true).None?
  {
    out := [];
    ending := Finished;
    var i := 0;
    while i < |items|
      invariant i <= |items| && |out| == i
      invariant Answers(env, h, items[..i], out, sortKeys)
    {
      var val := HandleItem(env, h, items[i], true);
      if val.None? {
        return out, Quiet;
      }
      assert items[..i + 1] == items[..i] + [items[i]];
      out := out + [Dumped(ItemRecord(val.value), sortKeys)];
      i := i + 1;
    }
    assert items[..i] == items;
  }

  /** `main(lines)`: the first line is the specification. With it accepted the worker
      writes `OK` and then one sorted-key record line per further line; with it rejected,
      `ERROR` and the diagnostic record, and reads nothing more. Input without a first
      line ends in an uncaught `StopIteration`. */
  method Serve(env: Env, lines: seq<string>) returns (out: seq<OutLine>, ending: Ending)
    ensures lines == [] ==> out == [] && ending == Crashed
    ensures lines != [] ==>
      match ValidateSpec(env, lines[0]).verdict
      case Rejected(when) => out == [Text("ERROR"), Dumped(DiagnosticRecord(when, env.trace), true)] && ending == Finished
      case Interrupted => out == [] && ending == Quiet
      case Accepted(h) =>
        && 1 <= |out| <= |lines| && out[0] == Text("OK")
        && Answers(env, h, lines[1..|out|], out[1..], true)
        && (ending == Finished <==> |out| == |lines|)
        && (ending == Quiet ==> HandleItem(env, h, lines[|out|], true).None?)
        && ending != Crashed
  {
    if lines == [] {
      return [], Crashed;
    }
    var v := ValidateSpec(env, lines[0]);
    match v.verdict
    case Rejected(when) =>
      out, ending := [Text("ERROR"), Dumped(DiagnosticRecord(when, env.trace), true)], Finished;
    case Interrupted =>
      out, ending := [], Quiet;
    case Accepted(h) =>
      var records;
      records, ending := AnswerItems(env, h, lines[1..], true);
      out := [Text("OK")] + records;
      assert out[1..] == records;
      assert lines[1..][..|records|] == lines[1..|out|];
  }
}
