/** The older Python worker of multirunner/python.py. Its output capture and `handle_item`
    are the same code as in multirunner/handlers/python.py and are modelled once, in
    `Worker`. What differs: the specification wraps the job in `exec_info`, the code is
    always inline source written to a temporary file (failures report `writing file`),
    the file is removed in a `finally` clause, and records are written with their keys
    in insertion order. */
module LegacyWorker {
  import opened Common
  import opened Worker

  const WHEN_WRITE := "writing file"

  /** The job description inside a decoded specification line: it must be an object with
      an `exec_info` member (a subscript that raises reports `loading spec`). */
  function ExecInfo(env: Env, line: string): (r: Option<Json>)
    ensures r.Some? ==> env.parse(line).Some? && env.parse(line).value.JObj? && "exec_info" in env.parse(line).value.fields
                        && r.value == env.parse(line).value.fields["exec_info"]
    ensures r.None? ==> env.parse(line).None? || !env.parse(line).value.JObj? || "exec_info" !in env.parse(line).value.fields
  {
    match env.parse(line)
    case None => None
    case Some(spec) => if spec.JObj? && "exec_info" in spec.fields then Some(spec.fields["exec_info"]) else None
  }

  /** `validate_spec` as written either returns, or lets an exception escape. */
  datatype Checked = Checked(v: Validation) | Unbound

  /** `validate_spec(spec)` as written. When `execution_info['code']` raises, or the
      temporary file cannot be created, the `except` clause calls `os.remove(path)` before
      `path` is ever assigned; the resulting `UnboundLocalError` escapes. */
  function ValidateSpecAsWritten(env: Env, line: string): (r: Checked)
    ensures r.Checked? ==> r.v.removed == OptionSeq(r.v.created)
  {
    match ExecInfo(env, line)
    case None => Checked(Validation(Rejected(WHEN_SPEC), None, []))
    case Some(info) =>
      if !info.JObj? || "code" !in info.fields || env.tempFile.None? then Unbound
      else
        var name := env.tempFile.value;
        if !info.fields["code"].JStr? then Checked(Validation(Rejected(WHEN_WRITE), Some(name), [name]))
        else Checked(Validation(LoadHandler(env, info.fields, JStr(name)), Some(name), [name]))
  }

  /** A job description without `code` makes every well-formed specification line crash
      the worker instead of producing its `ERROR` diagnostic. */
  lemma MissingCodeEscapes(env: Env, line: string)
    requires ExecInfo(env, line).Some? && ExecInfo(env, line).value.JObj?
    requires "code" !in ExecInfo(env, line).value.fields
    ensures ValidateSpecAsWritten(env, line) == Unbound
    ensures ValidateSpec(env, line).verdict == Rejected(WHEN_WRITE)
  {
  }

  /** `validate_spec` with the removal in the `except` clause done only once the temporary
      file exists: every failure to obtain or write the code reports `writing file`. */
  function ValidateSpec(env: Env, line: string): (r: Validation)
    ensures r.removed == OptionSeq(r.created)
    ensures ValidateSpecAsWritten(env, line).Checked? ==> ValidateSpecAsWritten(env, line).v == r
  {
    match ExecInfo(env, line)
    case None => Validation(Rejected(WHEN_SPEC), None, [])
    case Some(info) =>
      if !info.JObj? || "code" !in info.fields || env.tempFile.None? then Validation(Rejected(WHEN_WRITE), None, [])
      else
        var name := env.tempFile.value;
        if !info.fields["code"].JStr? then Validation(Rejected(WHEN_WRITE), Some(name), [name])
        else Validation(LoadHandler(env, info.fields, JStr(name)), Some(name), [name])
  }

  /** Each phase label is reported exactly when that phase is the first to fail; a created
      temporary file is removed exactly once, however validation ends. */
  lemma Phases(env: Env, line: string)
    ensures var r := ValidateSpec(env, line);
            && (r.verdict == Rejected(WHEN_SPEC) <==> ExecInfo(env, line).None?)
            && (r.verdict == Rejected(WHEN_WRITE)
                <==> ExecInfo(env, line).Some? && !CodeWritable(env, ExecInfo(env, line).value))
            && (r.created.Some? <==> ExecInfo(env, line).Some? && CodeFound(env, ExecInfo(env, line).value))
            && (r.created.Some? ==> r.removed == [r.created.value] && r.created == env.tempFile)
  {
    var r := ValidateSpec(env, line);
    if ExecInfo(env, line).Some? && CodeWritable(env, ExecInfo(env, line).value) {
      assert r.verdict == LoadHandler(env, ExecInfo(env, line).value.fields, JStr(env.tempFile.value));
    }
  }

  /** The code can be looked up and a temporary file created for it. */
  ghost predicate CodeFound(env: Env, info: Json)
  {
    info.JObj? && "code" in info.fields && env.tempFile.Some?
  }

  /** ... and the code is text, which is what writing it in text mode accepts. */
  ghost predicate CodeWritable(env: Env, info: Json)
  {
    CodeFound(env, info) && info.fields["code"].JStr?
  }

  /** `main(lines)` with the corrected validation `ValidateSpec` (where the source as
      written crashes, see `ValidateSpecAsWritten`): `OK` and then one record line per
      further line, keys in insertion order; or `ERROR` and the diagnostic record. */
  method Serve(env: Env, lines: seq<string>) returns (out: seq<OutLine>, ending: Ending)
    ensures lines == [] ==> out == [] && ending == Crashed
    ensures lines != [] ==>
      match ValidateSpec(env, lines[0]).verdict
      case Rejected(when) => out == [Text("ERROR"), Dumped(DiagnosticRecord(when, env.trace), false)] && ending == Finished
      case Interrupted => out == [] && ending == Quiet
      case Accepted(h) =>
        && 1 <= |out| <= |lines| && out[0] == Text("OK")
        && Answers(env, h, lines[1..|out|], out[1..], false)
        && (ending == Finished <==> |out| == |lines|)
        && (ending == Quiet ==> HandleItem(env, h, lines[|out|], true).None?)
        && ending != Crashed
  {
    if lines == [] {
      return [], Crashed;
    }
    var v := ValidateSpec(env, lines[0]);
    match v.verdict
    case Rejected(when) =>
      out, ending := [Text("ERROR"), Dumped(DiagnosticRecord(when, env.trace), false)], Finished;
    case Interrupted =>
      out, ending := [], Quiet;
    case Accepted(h) =>
      var records;
      records, ending := AnswerItems(env, h, lines[1..], false);
      out := [Text("OK")] + records;
      assert out[1..] == records;
      assert lines[1..][..|records|] == lines[1..|out|];
  }
}
