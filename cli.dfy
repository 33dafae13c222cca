/** The command line entry point of multirunner/__main__.py: the messages of
    `validate_spec`, the overrides `load_spec` applies to the specification, the
    resolution of the `--loglevel` argument, and how `main` writes result lines and
    chooses its exit status.

    Argument parsing, opening files and loading the specification file are inputs: the
    specification as loaded (or the failure to load it), the override arguments, and the
    outcomes of the runner's `setup` and `run`, which the `Runner` module models. */
module Cli {
  import opened Common
  import Runner

  // ------------------------------------------------------------- validate_spec

  const MSG_EXEC_TYPE := "You must specify an exec_type!"
  const MSG_EXEC_INFO := "You must specify exec_info!"

  /** `list(validate_spec(spec))`. */
  function SpecErrors(spec: map<string, Json>): (r: seq<string>)
    ensures r == [] <==> "exec_type" in spec && "exec_info" in spec
    ensures MSG_EXEC_TYPE in r <==> "exec_type" !in spec
    ensures MSG_EXEC_INFO in r <==> "exec_info" !in spec
    ensures |r| == (if "exec_type" in spec then 0 else 1) + (if "exec_info" in spec then 0 else 1)
    ensures "exec_type" !in spec && "exec_info" !in spec ==> r == [MSG_EXEC_TYPE, MSG_EXEC_INFO]
  {
    (if "exec_type" !in spec then [MSG_EXEC_TYPE] else []) + (if "exec_info" !in spec then [MSG_EXEC_INFO] else [])
  }

  // ----------------------------------------------------------------- load_spec

  /** The override arguments `--exec-type`, `--code`, `--handler` and `--setup-hook`. */
  datatype Overrides = Overrides(execType: Option<string>, code: Option<string>, handler: Option<string>,
                                 setupHook: Option<string>)

  predicate TouchesInfo(args: Overrides)
  {
    args.code.Some? || args.handler.Some? || args.setupHook.Some?
  }

  /** The code descriptor `--code` stands for: a file path. */
  function PathCode(path: string): Json
  {
    JObj(map["type" := JStr("path"), "data" := JStr(path)])
  }

  /** The members of the specification's `exec_info` object, none when it has none. */
  function InfoFields(spec: map<string, Json>): map<string, Json>
  {
    if "exec_info" in spec && spec["exec_info"].JObj? then spec["exec_info"].fields else map[]
  }

  /** The job description after the overrides, from the one before them. */
  function InfoAfter(fields: map<string, Json>, args: Overrides): map<string, Json>
  {
    var a := if args.code.Some? then fields["code" := PathCode(args.code.value)] else fields;
    var b := if args.handler.Some? then a["handler" := JStr(args.handler.value)] else a;
    if args.setupHook.Some? then b["setup_hook" := JStr(args.setupHook.value)] else b
  }

  /** `exec_info = spec.setdefault('exec_info', {}); exec_info[key] = value`. Storing into
      an `exec_info` that is not an object raises `TypeError`, reported as `None`. */
  method SetInfo(spec: map<string, Json>, key: string, value: Json) returns (r: Option<map<string, Json>>)
    ensures r.None? <==> "exec_info" in spec && !spec["exec_info"].JObj?
    ensures r.Some? ==> r.value == spec["exec_info" := JObj(InfoFields(spec)[key := value])]
  {
    var info := if "exec_info" in spec then spec["exec_info"] else JObj(map[]);
    var s := spec["exec_info" := info];
    if !info.JObj? {
      return None;
    }
    s := s["exec_info" := JObj(info.fields[key := value])];
    return Some(s);
  }

  /** The specification after the overrides: `--exec-type` replaces `exec_type`; the other
      three set their own member of `exec_info`, creating it when absent; `None` when one of
      them meets an `exec_info` that is not an object. */
  function SpecAfter(spec0: map<string, Json>, args: Overrides): Option<map<string, Json>>
  {
    var typed := if args.execType.Some? then spec0["exec_type" := JStr(args.execType.value)] else spec0;
    if !TouchesInfo(args) then Some(typed)
    else if "exec_info" in spec0 && !spec0["exec_info"].JObj? then None
    else Some(typed["exec_info" := JObj(InfoAfter(InfoFields(spec0), args))])
  }

  /** The overrides touch only `exec_type` and `exec_info`: both are set as the arguments
      say, every other member is kept, and the only failure is an `exec_info` that is not an
      object when an argument stores into it. */
  lemma SpecAfterMembers(spec0: map<string, Json>, args: Overrides)
    ensures var r := SpecAfter(spec0, args);
      && (r.None? <==> TouchesInfo(args) && "exec_info" in spec0 && !spec0["exec_info"].JObj?)
      && (r.Some? ==>
        && r.value.Keys == spec0.Keys + (if args.execType.Some? then {"exec_type"} else {})
                                      + (if TouchesInfo(args) then {"exec_info"} else {})
        && (forall k :: k in spec0 && k != "exec_type" && k != "exec_info" ==> r.value[k] == spec0[k])
        && (args.execType.Some? ==> r.value["exec_type"] == JStr(args.execType.value))
        && (args.execType.None? && "exec_type" in spec0 ==> r.value["exec_type"] == spec0["exec_type"])
        && (!TouchesInfo(args) && "exec_info" in spec0 ==> r.value["exec_info"] == spec0["exec_info"])
        && (TouchesInfo(args) ==> r.value["exec_info"] == JObj(InfoAfter(InfoFields(spec0), args))))
  {
  }

  /** The override part of `load_spec`, one `setdefault` and store per argument, computes
      `SpecAfter`. */
  method ApplyOverrides(spec0: map<string, Json>, args: Overrides) returns (r: Option<map<string, Json>>)
    ensures r == SpecAfter(spec0, args)
  {
    var spec := spec0;
    if args.execType.Some? {
      spec := spec["exec_type" := JStr(args.execType.value)];
    }
    ghost var typed := spec;
    ghost var fields := InfoFields(spec0);
    ghost var touched := false;
    assert InfoFields(typed) == fields;
    if args.code.Some? {
      var s := SetInfo(spec, "code", PathCode(args.code.value));
      if s.None? {
        return None;
      }
      spec := s.value;
      fields := fields["code" := PathCode(args.code.value)];
      touched := true;
    }
    assert touched ==> spec == typed["exec_info" := JObj(fields)];
    assert !touched ==> spec == typed;
    if args.handler.Some? {
      var s := SetInfo(spec, "handler", JStr(args.handler.value));
      if s.None? {
        return None;
      }
      spec := s.value;
      fields := fields["handler" := JStr(args.handler.value)];
      touched := true;
    }
    assert touched ==> spec == typed["exec_info" := JObj(fields)];
    assert !touched ==> spec == typed;
    if args.setupHook.Some? {
      var s := SetInfo(spec, "setup_hook", JStr(args.setupHook.value));
      if s.None? {
        return None;
      }
      spec := s.value;
      fields := fields["setup_hook" := JStr(args.setupHook.value)];
      touched := true;
    }
    assert fields == InfoAfter(InfoFields(spec0), args);
    assert touched ==> spec == typed["exec_info" := JObj(fields)];
    assert touched == TouchesInfo(args);
    return Some(spec);
  }

  /** How `load_spec` ends: with the specification; with `parser.error`, which exits with
      status 2; or with the uncaught `TypeError` of storing into an `exec_info` that is
      not an object. */
  datatype Loaded = Loaded(spec: map<string, Json>) | UsageError | LoadCrashed

  /** The specification file's members, none when no file is named or it is unusable. */
  function SpecOf(file: Option<Option<Json>>): map<string, Json>
  {
    if file.Some? && file.value.Some? && file.value.value.JObj? then file.value.value.fields else map[]
  }

  /** No file is named, or the named one holds a JSON object. */
  predicate Readable(file: Option<Option<Json>>)
  {
    file.None? || (file.value.Some? && file.value.value.JObj?)
  }

  /** `load_spec(args, parser)`; `file` is the specification file's content when one is
      named, `None` inside it when opening or decoding it fails. */
  method LoadSpec(file: Option<Option<Json>>, args: Overrides) returns (r: Loaded)
    ensures r.Loaded? <==> LoadsSpec(file, args)
    ensures r == LoadCrashed <==> LoadCrashes(file, args)
    ensures r == UsageError <==> !LoadsSpec(file, args) && !LoadCrashes(file, args)
    ensures !Readable(file) ==> r == UsageError
    ensures r.Loaded? ==> Some(r.spec) == SpecAfter(SpecOf(file), args)
    ensures r.Loaded? ==> SpecErrors(r.spec) == []
  {
    var spec: map<string, Json> := map[];
    if file.Some? {
      if file.value.None? || !file.value.value.JObj? {
        return UsageError;
      }
      spec := file.value.value.fields;
    }
    var o := ApplyOverrides(spec, args);
    if o.None? {
      SpecAfterMembers(spec, args);
      return LoadCrashed;
    }
    var errs := SpecErrors(o.value);
    SpecAfterMembers(spec, args);
    if |errs| > 0 {
      return UsageError;
    }
    return Loaded(o.value);
  }

  /** Whether `load_spec` returns a specification: the file is usable, the overrides do not
      store into a non-object `exec_info`, and both required members are present after them. */
  ghost predicate LoadsSpec(file: Option<Option<Json>>, args: Overrides)
  {
    var spec0 := SpecOf(file);
    && Readable(file)
    && !(TouchesInfo(args) && "exec_info" in spec0 && !spec0["exec_info"].JObj?)
    && ("exec_type" in spec0 || args.execType.Some?)
    && ("exec_info" in spec0 || TouchesInfo(args))
  }

  /** Whether `load_spec` raises the `TypeError` of storing into a non-object `exec_info`. */
  ghost predicate LoadCrashes(file: Option<Option<Json>>, args: Overrides)
  {
    Readable(file) && TouchesInfo(args) && "exec_info" in SpecOf(file) && !SpecOf(file)["exec_info"].JObj?
  }

  // ------------------------------------------------------------------ log level

  predicate IsDigit(c: char)
  {
    '0' <= c <= '9'
  }

  /** `digit (["_"] digit)*`, the body of a base-10 literal `int()` accepts. */
  predicate DigitRun(d: string)
  {
    && |d| > 0 && IsDigit(d[0]) && IsDigit(d[|d| - 1])
    && (forall i :: 0 <= i < |d| ==> IsDigit(d[i]) || d[i] == '_')
    && (forall i :: 0 <= i < |d| - 1 ==> d[i] == '_' ==> d[i + 1] != '_')
  }

  /** The number the digits of `d` denote, underscores skipped. */
  function DigitsValue(d: string): nat
  {
    if d == [] then 0
    else if IsDigit(d[|d| - 1]) then DigitsValue(d[..|d| - 1]) * 10 + (d[|d| - 1] as int - '0' as int)
    else DigitsValue(d[..|d| - 1])
  }

  /** `int(s)` on a string: surrounding whitespace, an optional sign, then the digits. */
  function ParseInt(s: string): (r: Option<int>)
    ensures r.Some? ==> |Strip(s)| > 0 && IsDigit(Strip(s)[|Strip(s)| - 1])
    ensures r.Some? && r.value < 0 ==> Strip(s)[0] == '-'
  {
    var t := Strip(s);
    if |t| > 0 && (t[0] == '+' || t[0] == '-') then
      if DigitRun(t[1..]) then Some(if t[0] == '-' then -(DigitsValue(t[1..]) as int) else DigitsValue(t[1..])) else None
    else if DigitRun(t) then Some(DigitsValue(t))
    else None
  }

  /** The decimal digits of `n`. */
  function Decimal(n: nat): (d: string)
    ensures |d| > 0 && forall i :: 0 <= i < |d| ==> IsDigit(d[i])
  {
    (if n < 10 then [] else Decimal(n / 10)) + [('0' as int + n % 10) as char]
  }

  lemma {:induction false} DecimalValue(n: nat)
    ensures DigitsValue(Decimal(n)) == n
  {
    var d := Decimal(n);
    assert d[..|d| - 1] == if n < 10 then [] else Decimal(n / 10);
    if n >= 10 {
      DecimalValue(n / 10);
    }
  }

  lemma DecimalRun(n: nat)
    ensures DigitRun(Decimal(n))
  {
  }

  /** Text that starts and ends with a character other than whitespace is not stripped. */
  lemma StripKeeps(t: string)
    requires |t| > 0 && !IsSpace(t[0]) && !IsSpace(t[|t| - 1])
    ensures Strip(t) == t
  {
  }

  /** Any natural number written in decimal is read back as itself. */
  lemma ParseDecimal(n: nat)
    ensures ParseInt(Decimal(n)) == Some(n as int)
  {
    assert ParseInt(Decimal(n)) == Some(DigitsValue(Decimal(n)) as int) by {
      DecimalRun(n);
      ParseUnsigned(Decimal(n));
    }
    DecimalValue(n);
  }

  /** A digit run is read as its value. */
  lemma ParseUnsigned(d: string)
    requires DigitRun(d)
    ensures ParseInt(d) == Some(DigitsValue(d) as int)
  {
    StripKeeps(d);
  }

  /** A signed digit run is read as its value, negated after a minus sign. */
  lemma ParseSigned(sign: char, d: string)
    requires sign == '+' || sign == '-'
    requires DigitRun(d)
    ensures ParseInt([sign] + d) == Some(if sign == '-' then -(DigitsValue(d) as int) else DigitsValue(d) as int)
  {
    var t := [sign] + d;
    assert t[0] == sign && t[1..] == d;
    StripKeeps(t);
    assert Strip(t) == t;
    assert DigitRun(t[1..]);
  }

  /** Text whose first character is neither whitespace, a sign nor a digit is no integer. */
  lemma NonNumericFirst(s: string)
    requires |s| > 0 && !IsSpace(s[0]) && !IsDigit(s[0]) && s[0] != '+' && s[0] != '-'
    ensures ParseInt(s) == None
  {
    var t := Strip(s);
    StripSlice(s);
    assert SkipSpace(s, 0) == 0;
    if |t| > 0 {
      assert t[0] == s[0];
    }
  }

  /** The names `getattr(logging, name)` resolves to a level. */
  const LEVELS: map<string, int> := map["CRITICAL" := 50, "FATAL" := 50, "ERROR" := 40, "WARNING" := 30,
                                       "WARN" := 30, "INFO" := 20, "DEBUG" := 10, "NOTSET" := 0]

  /** `args.loglevel` after `parse_args`: the default when the argument is absent; the
      integer a numeric argument denotes; otherwise the level its upper case names, or
      the default when it names none. */
  function ResolveLogLevel(arg: Option<string>, default: int): (r: int)
    ensures arg.None? ==> r == default
    ensures r == default || r in LEVELS.Values || (arg.Some? && ParseInt(arg.value) == Some(r))
  {
    match arg
    case None => default
    case Some(s) =>
      match ParseInt(s)
      case Some(n) => n
      case None => var u := Upper(s); if u in LEVELS then LEVELS[u] else default
  }

  /** A numeric argument is that number. */
  lemma NumericLevel(n: nat, default: int)
    ensures ResolveLogLevel(Some(Decimal(n)), default) == n
  {
    ParseDecimal(n);
  }

  /** Every level name starts with a letter. */
  lemma LevelInitial(u: string)
    requires u in LEVELS
    ensures |u| > 0 && 'A' <= u[0] <= 'Z'
  {
  }

  /** A character whose upper case starts with a letter is neither whitespace, a sign nor
      a digit. */
  lemma UpperLetter(c: char)
    requires |UpperChar(c)| > 0 && 'A' <= UpperChar(c)[0] <= 'Z'
    ensures !IsSpace(c) && !IsDigit(c) && c != '+' && c != '-'
  {
  }

  /** The upper case of a text starts with the upper case of its first character. */
  lemma UpperHead(s: string)
    requires |Upper(s)| > 0
    ensures s != [] && |UpperChar(s[0])| > 0 && Upper(s)[0] == UpperChar(s[0])[0]
  {
    assert s != [];
    var u, t := UpperChar(s[0]), Upper(s[1..]);
    assert Upper(s) == u + t;
    assert (u + t)[0] == u[0];
  }

  /** A level name is recognised in any case, whatever characters spell it. */
  lemma NamedLevel(s: string, default: int)
    requires Upper(s) in LEVELS
    ensures ResolveLogLevel(Some(s), default) == LEVELS[Upper(s)]
  {
    LevelInitial(Upper(s));
    UpperHead(s);
    UpperLetter(s[0]);
    NonNumericFirst(s);
  }

  /** Level names in lower or mixed case. */
  lemma LowerExample(default: int)
    ensures ResolveLogLevel(Some("warn"), default) == 30
  {
    StripKeeps("warn");
    assert Upper("warn") == "WARN";
  }

  lemma MixedExample(default: int)
    ensures ResolveLogLevel(Some("Info"), default) == 20
  {
    StripKeeps("Info");
    assert Upper("Info") == "INFO";
  }

  /** A dotless i upper-cases to `I`, so it spells a level name too. */
  lemma DotlessExample(default: int)
    ensures ResolveLogLevel(Some("\U{131}nfo"), default) == 20
  {
    var c := "\U{131}nfo";
    StripKeeps(c);
    assert Upper(c) == "INFO";
  }

  /** `int` accepts an underscore between digits. */
  lemma UnderscoreExample(default: int)
    ensures ResolveLogLevel(Some("1_0"), default) == 10
  {
    StripKeeps("1_0");
    assert DigitsValue("1_0") == 10 by {
      assert "1_0"[..2] == "1_" && "1_"[..1] == "1" && "1"[..0] == "";
    }
  }

  /** Text that is no integer and whose upper case names no level leaves the default. */
  lemma UnknownLevel(s: string, default: int)
    requires |s| > 0 && !IsSpace(s[0]) && !IsDigit(s[0]) && s[0] != '+' && s[0] != '-'
    requires Upper(s) !in LEVELS
    ensures ResolveLogLevel(Some(s), default) == default
  {
    NonNumericFirst(s);
  }

  /** `trace` names no level. */
  lemma UnknownExample(default: int)
    ensures ResolveLogLevel(Some("trace"), default) == default
  {
    StripKeeps("trace");
    assert Upper("trace") == "TRACE";
  }

  // ---------------------------------------------------------------------- main

  /** How `runner.setup()` ends: with its outcome, or by raising `KeyboardInterrupt` or
      `SystemExit`. */
  datatype SetupEnd = SetupReturned(outcome: Runner.SetupOutcome) | SetupInterrupted

  /** What iterating the runner's items produces: the items yielded, and whether an
      exception ended the iteration. */
  datatype RunEnd = RunEnd(items: seq<string>, raised: bool)

  /** The exit status of the process and the text written to the output file. */
  datatype Exit = Exit(status: int, written: seq<string>)

  /** The item loop of `main`: each item is written with a line terminator appended
      unless it already ends with one. */
  method WriteResults(items: seq<string>) returns (written: seq<string>)
    ensures |written| == |items|
    ensures forall i :: 0 <= i < |items| ==>
              EndsWithNewline(written[i]) && StartsWith(written[i], items[i]) && |written[i]| <= |items[i]| + 1
    ensures forall i :: 0 <= i < |items| ==> (written[i] == items[i] <==> EndsWithNewline(items[i]))
  {
    written := [];
    for i := 0 to |items|
      invariant |written| == i
      invariant forall j :: 0 <= j < i ==> written[j] == EnsureNewline(items[j])
    {
      var item := items[i];
      if !EndsWithNewline(item) {
        item := item + "\n";
      }
      written := written + [item];
    }
  }

  /** `parser.error(... % (err['when'], err['stack']))` can report the failure record: a
      record built by `setup` always can; a record decoded from the worker's output only
      when it is an object with both members, since subscripting anything else raises
      `TypeError` or `KeyError`, which `main` does not catch. */
  predicate Reportable(e: Runner.SetupError)
  {
    e.Local? || (e.record.JObj? && "when" in e.record.fields && "stack" in e.record.fields)
  }

  /** `main(argv)` as written: the loop iterates `runner.run()`, a context manager, which
      is not iterable; the `TypeError` is not caught, so a job whose setup succeeds writes
      nothing and exits with status 1 (and `run`'s cleanup never runs). `setup` is the
      corrected runner's outcome: with the runner as written, a rejected worker whose record
      decodes makes `setup` return `(False, None)`, `err['when']` raises `TypeError`, and
      the status is 1 rather than the 2 returned here for a reportable `SetupFailed`. */
  method ExecuteAsWritten(file: Option<Option<Json>>, args: Overrides, setup: SetupEnd, run: RunEnd) returns (r: Exit)
    ensures r.written == []
    ensures setup == SetupReturned(Runner.SetupOk) && LoadsSpec(file, args) ==> r.status == 1
    ensures !LoadsSpec(file, args) ==> r.status == (if LoadCrashes(file, args) then 1 else 2)
    ensures LoadsSpec(file, args) && setup.SetupReturned? && setup.outcome.SetupFailed? ==>
              r.status == (if Reportable(setup.outcome.error) then 2 else 1)
  {
    var loaded := LoadSpec(file, args);
    if !loaded.Loaded? {
      return Exit(if loaded.UsageError? then 2 else 1, []);
    }
    match setup
    case SetupInterrupted => return Exit(1, []);
    case SetupReturned(outcome) =>
      if outcome.SetupFailed? {
        return Exit(if Reportable(outcome.error) then 2 else 1, []);
      }
      return Exit(1, []);
  }

  /** `main(argv)` with the items taken from the generator `run()` yields inside its
      `with` block: status 2 for a specification error or a reportable setup failure, 1
      when setup or the run is interrupted or raises (reporting an unreportable record
      among them), and 0 once every item is written. */
  method Execute(file: Option<Option<Json>>, args: Overrides, setup: SetupEnd, run: RunEnd) returns (r: Exit)
    ensures r.status in {0, 1, 2}
    ensures r.status == 0 <==> setup == SetupReturned(Runner.SetupOk) && !run.raised && LoadsSpec(file, args)
    ensures r.status == 2 <==>
              || (!LoadsSpec(file, args) && !LoadCrashes(file, args))
              || (LoadsSpec(file, args) && setup.SetupReturned? && setup.outcome.SetupFailed?
                  && Reportable(setup.outcome.error))
    ensures r.written != [] ==> setup == SetupReturned(Runner.SetupOk) && LoadsSpec(file, args)
    ensures setup == SetupReturned(Runner.SetupOk) && LoadsSpec(file, args) ==>
              |r.written| == |run.items| && forall i :: 0 <= i < |run.items| ==> r.written[i] == EnsureNewline(run.items[i])
  {
    var loaded := LoadSpec(file, args);
    if !loaded.Loaded? {
      return Exit(if loaded.UsageError? then 2 else 1, []);
    }
    match setup
    case SetupInterrupted => return Exit(1, []);
    case SetupReturned(outcome) =>
      if outcome.SetupFailed? {
        return Exit(if Reportable(outcome.error) then 2 else 1, []);
      }
      if outcome.SetupRaised? {
        return Exit(1, []);
      }
      var written := WriteResults(run.items);
      assert forall i :: 0 <= i < |run.items| ==> written[i] == EnsureNewline(run.items[i]);
      return Exit(if run.raised then 1 else 0, written);
  }
}
