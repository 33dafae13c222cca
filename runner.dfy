/** The orchestrator of multirunner/runner.py: how many workers to start, how the job
    specification names an interpreter and a handler, the handshake that accepts a
    freshly started worker, and the `JobRunner` bookkeeping that hands items from the
    input stream to workers, refills them as replies arrive, replaces dead workers and
    cleans up at the end.

    Processes, pipes and `select` are replaced by oracle parameters: what a worker's
    first reply line is, which workers have a reply ready in a round, what the reply is,
    and whether writing the next item to a worker raises. A worker is a number that
    serves both as its pid and as the descriptor number of its stdout, so the tables
    `procs` and `streams` are keyed and valued by these numbers. */
module Runner {
  import opened Common
  import Utils

  type Fd = nat

  // ------------------------------------------------------------------- n_procs

  /** `JobRunner.n_procs()`: an explicit count wins; otherwise the smaller of the memory
      and the cpu budget, and at least one. */
  function NProcs(explicit: Option<int>, memoryProcs: int, cpuProcs: int): (n: int)
    ensures explicit.Some? ==> n == explicit.value
    ensures explicit.None? ==> n >= 1 && (n > 1 ==> n <= memoryProcs && n <= cpuProcs)
  {
    if explicit.Some? then explicit.value else Max(Min(memoryProcs, cpuProcs), 1)
  }

  /** Without an explicit count, no count that fits both budgets is larger. */
  lemma NProcsLargest(memoryProcs: int, cpuProcs: int, k: int)
    requires 1 <= k && k <= memoryProcs && k <= cpuProcs
    ensures k <= NProcs(None, memoryProcs, cpuProcs)
  {
  }

  // ----------------------------------------------------------------- handshake

  /** The readiness test of `create_process`: the worker's first line, stripped, upper-cased
      and with its non-ASCII characters dropped, must be exactly `OK`. */
  predicate IsReadyReply(line: string)
  {
    AsciiOnly(Upper(Strip(line))) == "OK"
  }

  /** On an ASCII line the test accepts exactly `ok` in any letter case, surrounded by
      any whitespace. */
  lemma ReadyReplyAscii(line: string)
    requires IsAscii(line)
    ensures IsReadyReply(line) <==> Strip(line) in {"OK", "Ok", "oK", "ok"}
  {
    AsciiOk(Strip(line));
  }

  lemma {:induction false} AsciiOk(s: string)
    requires IsAscii(s)
    ensures AsciiOnly(Upper(s)) == "OK" <==> s in {"OK", "Ok", "oK", "ok"}
  {
    var u := Upper(s);
    assert AsciiOnly(u) == u;
    if |s| == 2 {
      assert u == [AsciiUpper(s[0]), AsciiUpper(s[1])];
      if u == "OK" {
        assert s[0] == 'O' || s[0] == 'o';
        assert s[1] == 'K' || s[1] == 'k';
        assert s == [s[0], s[1]];
      }
    }
  }

  // ------------------------------------------------------------ spec resolution

  /** What a worker is started with: `executable + [handler]`. An executable given
      verbatim in a dictionary `exec_type` stays a string. */
  datatype Executable = Command(argv: seq<string>) | Plain(text: string)

  datatype Resolution = Resolution(executable: Executable, handler: string)

  /** A traceback as `traceback.format_exc()` renders it, or text passed on as it is. */
  datatype Stack = Traceback | RawText(text: string)

  /** The `{'stack': ..., 'when': ...}` record returned with a failure. */
  datatype Diagnostic = Diagnostic(stack: Stack, when: string)

  const WHEN_EXEC_TYPE := "getting exec_type"
  const WHEN_PATHS := "resolving executable/handler paths"
  const WHEN_EXEC_INFO := "getting exec_info"
  const WHEN_RAW := "decoding error (raw provided)"

  /** A `!name` entry is looked up in its table; any other string is taken as given. */
  function Entry<V>(text: string, table: map<string, V>, given: string -> V): (r: Option<V>)
    ensures StartsWith(text, "!") ==> (r.Some? <==> text[1..] in table)
    ensures StartsWith(text, "!") && r.Some? ==> r.value == table[text[1..]]
    ensures !StartsWith(text, "!") ==> r == Some(given(text))
  {
    if StartsWith(text, "!") then
      if text[1..] in table then Some(table[text[1..]]) else None
    else
      Some(given(text))
  }

  /** A dictionary `exec_type` has a string `executable` and a string `handler`
      (a missing field raises `KeyError`, a non-string one has no `startswith`). */
  predicate DictFields(f: map<string, Json>)
  {
    "executable" in f && f["executable"].JStr? && "handler" in f && f["handler"].JStr?
  }

  /** A `!name` field names a known preset; any other text needs none. */
  predicate PresetKnown(text: string, names: set<string>)
  {
    StartsWith(text, "!") ==> text[1..] in names
  }

  /** The second step of `setup`: a dictionary `exec_type` names its executable and handler,
      each either verbatim or as `!preset`; a string names a preset of both tables; any
      other value fails. */
  function Resolve(execType: Json, executables: map<string, seq<string>>, handlers: map<string, string>)
    : (r: Option<Resolution>)
    ensures r.Some? ==> execType.JStr? || execType.JObj?
    ensures execType.JStr? ==> (r.Some? <==> execType.s in executables && execType.s in handlers)
    ensures execType.JStr? && r.Some? ==>
              r.value == Resolution(Command(executables[execType.s]), handlers[execType.s])
    ensures r.Some? && r.value.executable.Command? ==> r.value.executable.argv in executables.Values
    ensures r.Some? && r.value.executable.Plain? ==> execType.JObj? && !StartsWith(r.value.executable.text, "!")
    ensures r.Some? && !(r.value.handler in handlers.Values) ==> execType.JObj? && !StartsWith(r.value.handler, "!")
    ensures execType.JObj? ==>
              (r.Some? <==> DictFields(execType.fields)
                            && PresetKnown(execType.fields["executable"].s, executables.Keys)
                            && PresetKnown(execType.fields["handler"].s, handlers.Keys))
    ensures execType.JObj? && r.Some? ==>
              var x, h := execType.fields["executable"].s, execType.fields["handler"].s;
              && r.value.executable == (if StartsWith(x, "!") then Command(executables[x[1..]]) else Plain(x))
              && r.value.handler == (if StartsWith(h, "!") then handlers[h[1..]] else h)
  {
    match execType
    case JObj(f) =>
      if "executable" in f && f["executable"].JStr? && "handler" in f && f["handler"].JStr? then
        var e := Entry(f["executable"].s, map n | n in executables :: Command(executables[n]), t => Plain(t));
        var h := Entry(f["handler"].s, handlers, t => t);
        if e.Some? && h.Some? then Some(Resolution(e.value, h.value)) else None
      else
        None
    case JStr(n) =>
      if n in executables && n in handlers then Some(Resolution(Command(executables[n]), handlers[n])) else None
    case _ => None
  }

  /** A preset name means the same as a dictionary that names that preset for both fields. */
  lemma ResolvePresetAsDictionary(name: string, executables: map<string, seq<string>>, handlers: map<string, string>)
    ensures Resolve(JStr(name), executables, handlers)
            == Resolve(JObj(map["executable" := JStr("!" + name), "handler" := JStr("!" + name)]), executables, handlers)
  {
    var f := map["executable" := JStr("!" + name), "handler" := JStr("!" + name)];
    assert f["executable"].s[1..] == name && f["handler"].s[1..] == name;
  }

  /** The three lookups `setup` makes before starting workers, with the label of the step
      that failed: `exec_type`, then the executable and handler, then `exec_info`. */
  function Prepare(spec: map<string, Json>, executables: map<string, seq<string>>, handlers: map<string, string>)
    : (r: Result<(Resolution, Json), string>)
    ensures r.Err? <==> "exec_type" !in spec
                        || Resolve(spec["exec_type"], executables, handlers).None?
                        || "exec_info" !in spec
    ensures "exec_type" !in spec ==> r == Err(WHEN_EXEC_TYPE)
    ensures "exec_type" in spec && Resolve(spec["exec_type"], executables, handlers).None? ==> r == Err(WHEN_PATHS)
    ensures r.Err? && "exec_type" in spec && Resolve(spec["exec_type"], executables, handlers).Some? ==>
              r == Err(WHEN_EXEC_INFO)
    ensures r.Ok? ==> r.value == (Resolve(spec["exec_type"], executables, handlers).value, spec["exec_info"])
  {
    if "exec_type" !in spec then Err(WHEN_EXEC_TYPE)
    else
      var res := Resolve(spec["exec_type"], executables, handlers);
      if res.None? then Err(WHEN_PATHS)
      else if "exec_info" !in spec then Err(WHEN_EXEC_INFO)
      else Ok((res.value, spec["exec_info"]))
  }

  // ------------------------------------------------- failed handshake diagnostic

  /** Why the pool could not be created: a record built here, or the record the worker
      itself sent (its stdout and stderr after the rejected first line, decoded). */
  datatype SetupError = Local(diag: Diagnostic) | FromWorker(record: Json)

  /** The failure record `setup` builds from a rejected worker's remaining output, as
      written: when that output decodes as JSON the record is lost and `None` is returned. */
  function WorkerDiagnosticAsWritten(rest: string, decoded: Option<Json>): (r: Option<SetupError>)
    ensures decoded.None? ==> r == Some(Local(Diagnostic(RawText(rest), WHEN_RAW)))
  {
    if decoded.None? then Some(Local(Diagnostic(RawText(rest), WHEN_RAW))) else None
  }

  /** A worker that rejects its specification sends `ERROR` and then its diagnostic record
      as one JSON line; that is exactly the case in which the record as written is lost. */
  lemma WorkerRecordLost(rest: string, record: Json)
    ensures WorkerDiagnosticAsWritten(rest, Some(record)) == None
  {
  }

  /** The failure record with the decoded worker record kept. */
  function WorkerDiagnostic(rest: string, decoded: Option<Json>): (r: SetupError)
    ensures decoded.None? ==> r == Local(Diagnostic(RawText(rest), WHEN_RAW))
    ensures decoded.Some? ==> r == FromWorker(decoded.value)
    ensures WorkerDiagnosticAsWritten(rest, decoded) == Some(r) || decoded.Some?
  {
    if decoded.None? then Local(Diagnostic(RawText(rest), WHEN_RAW)) else FromWorker(decoded.value)
  }

  // -------------------------------------------------------------- sequences

  /** `s` with every occurrence of `x` removed. */
  function Without(s: seq<Fd>, x: Fd): (r: seq<Fd>)
    ensures forall y :: y in r <==> y in s && y != x
    ensures |r| <= |s|
  {
    if s == [] then []
    else
      var t := Without(s[1..], x);
      assert forall y :: y in s <==> y == s[0] || y in s[1..];
      if s[0] == x then t else [s[0]] + t
  }

  /** Removing a value keeps a list without repeats free of repeats. */
  lemma {:induction false} WithoutDistinct(s: seq<Fd>, x: Fd)
    requires Distinct(s)
    ensures Distinct(Without(s, x))
  {
    if s != [] {
      assert Distinct(s[1..]) by {
        forall i, j | 0 <= i < j < |s[1..]| ensures s[1..][i] != s[1..][j] {
          assert s[1..][i] == s[i + 1] && s[1..][j] == s[j + 1];
        }
      }
      WithoutDistinct(s[1..], x);
      if s[0] != x {
        var t := Without(s[1..], x);
        forall j | 0 <= j < |s[1..]| ensures s[1..][j] != s[0] {
          assert s[1..][j] == s[j + 1];
        }
        assert s[0] !in s[1..];
        var r := [s[0]] + t;
        forall i, j | 0 <= i < j < |r| ensures r[i] != r[j] {
          if i == 0 {
            assert r[j] == t[j - 1] && r[j] in t;
          } else {
            assert r[i] == t[i - 1] && r[j] == t[j - 1];
          }
        }
      }
    }
  }

  /** Removing a value that occurs exactly once drops exactly that position. */
  lemma {:induction false} WithoutMember(a: seq<Fd>, x: Fd, b: seq<Fd>)
    requires x !in a && x !in b
    ensures Without(a + [x] + b, x) == a + b
  {
    var s := a + [x] + b;
    if a == [] {
      assert s[0] == x && s[1..] == b;
      WithoutAbsent(b, x);
    } else {
      assert s[0] == a[0] && s[1..] == a[1..] + [x] + b;
      WithoutMember(a[1..], x, b);
      calc {
        Without(s, x);
        [a[0]] + Without(a[1..] + [x] + b, x);
        [a[0]] + (a[1..] + b);
        { assert a == [a[0]] + a[1..]; }
        a + b;
      }
    }
  }

  lemma {:induction false} WithoutAbsent(s: seq<Fd>, x: Fd)
    requires x !in s
    ensures Without(s, x) == s
  {
    if s != [] {
      assert x !in s[1..];
      WithoutAbsent(s[1..], x);
      assert s == [s[0]] + s[1..];
    }
  }

  /** In a list without repeats, a member occurs neither before nor after its position. */
  lemma DistinctSplit(a: seq<Fd>, x: Fd, b: seq<Fd>)
    requires Distinct(a + [x] + b)
    ensures x !in a && x !in b
  {
    var s := a + [x] + b;
    forall i | 0 <= i < |a|
      ensures a[i] != x
    {
      assert s[i] == a[i] && s[|a|] == x;
    }
    forall i | 0 <= i < |b|
      ensures b[i] != x
    {
      assert s[|a| + 1 + i] == b[i] && s[|a|] == x;
    }
  }

  /** The members of `s` for which `keep` holds, in order (the list `select` returns:
      the waiters that are readable, in the order they were passed). */
  function Filter(s: seq<Fd>, keep: Fd -> bool): (r: seq<Fd>)
    ensures forall y :: y in r <==> y in s && keep(y)
    ensures |r| <= |s|
    ensures Distinct(s) ==> Distinct(r)
  {
    if s == [] then []
    else
      var t := Filter(s[1..], keep);
      assert forall y :: y in s <==> y == s[0] || y in s[1..];
      assert Distinct(s) ==> s[0] !in s[1..];
      if keep(s[0]) then [s[0]] + t else t
  }

  // ---------------------------------------------------------------- dispatch

  /** One item written to a worker's stdin (`write_line` appends the line terminator). */
  datatype Sent = Sent(fd: Fd, item: string)

  /** The items of a write log, in order. */
  function SentItems(log: seq<Sent>): (r: seq<string>)
    ensures |r| == |log|
    ensures forall i :: 0 <= i < |log| ==> r[i] == log[i].item
  {
    if log == [] then [] else SentItems(log[..|log| - 1]) + [log[|log| - 1].item]
  }

  lemma SentItemsAppend(log: seq<Sent>, more: seq<Sent>)
    ensures SentItems(log + more) == SentItems(log) + SentItems(more)
  {
    assert forall i :: 0 <= i < |log + more| ==> SentItems(log + more)[i] == (SentItems(log) + SentItems(more))[i];
  }

  /** The writes that give the `i`-th worker the `i`-th item. */
  function Dispatch(fds: seq<Fd>, items: seq<string>): (r: seq<Sent>)
    requires |fds| == |items|
    ensures |r| == |fds|
    ensures forall i :: 0 <= i < |fds| ==> r[i] == Sent(fds[i], items[i])
    ensures SentItems(r) == items
  {
    if fds == [] then []
    else Dispatch(fds[..|fds| - 1], items[..|items| - 1]) + [Sent(fds[|fds| - 1], items[|items| - 1])]
  }

  /** One more worker served by `seed_procs`: the write log and the remaining items move
      on by one. */
  lemma SeedGrow(log0: seq<Sent>, log: seq<Sent>, log2: seq<Sent>, fds: seq<Fd>, items: seq<string>, k: nat,
                 d: seq<string>, d2: seq<string>)
    requires k < |fds| && k < |items|
    requires log == log0 + Dispatch(fds[..k], items[..k]) && d == items[k..]
    requires d != [] && log2 == log + [Sent(fds[k], d[0])] && d2 == d[1..]
    ensures log2 == log0 + Dispatch(fds[..k + 1], items[..k + 1]) && d2 == items[k + 1..]
  {
    assert fds[..k + 1][..k] == fds[..k];
    assert items[..k + 1][..k] == items[..k];
    ConcatAssoc(log0, Dispatch(fds[..k], items[..k]), [Sent(fds[k], items[k])]);
  }

  /** One more worker retired: it leaves the key set and joins the killed set. */
  lemma RetireGrow(keys0: set<Fd>, k: set<Fd>, k2: set<Fd>, killed0: set<Fd>, kl: set<Fd>, kl2: set<Fd>, x: Fd)
    requires k <= keys0 && kl == killed0 + (keys0 - k) && x in k
    requires k2 == k - {x} && kl2 == kl + {x}
    ensures k2 <= keys0 && kl2 == killed0 + (keys0 - k2)
  {
  }

  /** How many workers `seed_procs` gives an item: workers in table order are served while
      items remain, up to the first whose write raises. */
  function SeededCount(fds: seq<Fd>, writeOk: Fd -> bool, available: nat): (s: nat)
    ensures s <= |fds| && s <= available
    ensures AllWritable(writeOk, fds, s)
    ensures s < |fds| && s < available ==> !writeOk(fds[s])
  {
    if fds == [] || available == 0 || !writeOk(fds[0]) then 0
    else 1 + SeededCount(fds[1..], writeOk, available - 1)
  }

  /** The writes to the first `n` workers of `fds` succeed. */
  ghost predicate AllWritable(writeOk: Fd -> bool, fds: seq<Fd>, n: nat)
    requires n <= |fds|
  {
    forall i :: 0 <= i < n ==> writeOk(fds[i])
  }

  lemma AllWritableNext(writeOk: Fd -> bool, fds: seq<Fd>, n: nat)
    requires n < |fds| && AllWritable(writeOk, fds, n) && writeOk(fds[n])
    ensures AllWritable(writeOk, fds, n + 1)
  {
  }

  /** The stop point is the first position where items run out or a write raises. */
  lemma SeededCountIs(fds: seq<Fd>, writeOk: Fd -> bool, available: nat, k: nat)
    requires k <= |fds| && k <= available
    requires AllWritable(writeOk, fds, k)
    requires k == |fds| || k == available || !writeOk(fds[k])
    ensures SeededCount(fds, writeOk, available) == k
  {
  }

  // ---------------------------------------------------------------- JobRunner

  /** A worker start as the oracle reports it: the first line the worker sends back, the
      rest of its stdout and stderr, and whether that rest decodes as JSON. */
  datatype Attempt = Attempt(firstLine: string, rest: string, decoded: Option<Json>)

  datatype SetupOutcome =
    | SetupOk
    | SetupFailed(error: SetupError)
    /** `create_process` raised: a verbatim executable string has no `copy`. */
    | SetupRaised

  /** What `seed` did: no item was left, one item was written, or the write raised (and the
      item was put back at the front of the stream). */
  datatype SeedOutcome = Exhausted | Seeded | WriteRaised

  /** One call of `loop`: whether a SIGINT arrives first, the waiters `select` reports
      readable, and for every worker the line it replies with, whether writing its next item
      raises, and how a worker started in its place would answer the handshake. */
  datatype Round = Round(interrupted: bool, readable: set<Fd>, reply: Fd -> string, writeOk: Fd -> bool,
                         respawn: Fd -> Attempt)

  class JobRunner {
    const spec: map<string, Json>
    const executables: map<string, seq<string>>
    const handlers: map<string, string>
    const explicitProcs: Option<int>
    /** The items the runner was created with. */
    ghost const input: seq<string>

    /** The items not yet handed to a worker. */
    var dataStream: seq<string>
    var procs: map<Fd, Fd>
    var streams: map<Fd, Fd>
    /** The keys of `procs` in insertion order (the iteration order of the dictionaries). */
    var order: seq<Fd>
    var resolution: Option<Resolution>
    var execInfo: Option<Json>
    var signalsRecvd: map<int, nat>
    var create: bool
    var itemsProcessed: nat
    /** The next worker number; numbers are never reused. */
    var nextId: nat
    /** Every item written to a worker, in order. */
    ghost var sent: seq<Sent>
    /** Workers started, workers killed or terminated, and workers left running outside the
        tables. */
    ghost var spawned: set<Fd>
    ghost var killed: set<Fd>
    ghost var leaked: set<Fd>

    ghost predicate Valid()
      reads this
    {
      && streams == procs
      && (forall fd :: fd in procs ==> procs[fd] == fd && fd < nextId)
      && Distinct(order)
      && (forall fd :: fd in order <==> fd in procs)
      && SentItems(sent) + dataStream == input
      && spawned <= killed + leaked + procs.Keys
    }

    constructor (spec: map<string, Json>, items: seq<string>, executables: map<string, seq<string>>,
                 handlers: map<string, string>, explicitProcs: Option<int>)
      ensures Valid()
      ensures this.spec == spec && this.executables == executables && this.handlers == handlers
      ensures this.explicitProcs == explicitProcs && input == items && dataStream == items
      ensures procs == map[] && streams == map[] && order == [] && signalsRecvd == map[]
      ensures create && itemsProcessed == 0 && resolution.None? && execInfo.None?
      ensures sent == [] && spawned == {} && killed == {} && leaked == {}
    {
      this.spec := spec;
      this.executables := executables;
      this.handlers := handlers;
      this.explicitProcs := explicitProcs;
      input := items;
      dataStream := items;
      procs, streams, order := map[], map[], [];
      resolution, execInfo := None, None;
      signalsRecvd := map[];
      create := true;
      itemsProcessed := 0;
      nextId := 0;
      sent, spawned, killed, leaked := [], {}, {}, {};
    }

    /** `seed(proc.stdin)` for worker `fd`: takes the next item and writes it; when the write
        raises, the item goes back to the front of the stream. */
    method Seed(fd: Fd, writeOk: bool) returns (r: SeedOutcome)
      requires Valid()
      modifies this`dataStream, this`sent
      ensures Valid()
      ensures old(dataStream) == [] ==> r == Exhausted && dataStream == [] && sent == old(sent)
      ensures old(dataStream) != [] && writeOk ==>
                r == Seeded && dataStream == old(dataStream)[1..] && sent == old(sent) + [Sent(fd, old(dataStream)[0])]
      ensures old(dataStream) != [] && !writeOk ==>
                r == WriteRaised && dataStream == old(dataStream) && sent == old(sent)
    {
      if dataStream == [] {
        return Exhausted;
      }
      var val := dataStream[0];
      dataStream := dataStream[1..];
      if !writeOk {
        dataStream := [val] + dataStream;
        return WriteRaised;
      }
      SentItemsAppend(sent, [Sent(fd, val)]);
      sent := sent + [Sent(fd, val)];
      r := Seeded;
    }

    /** Kills worker `fd` and deletes it from both tables. */
    method Retire(fd: Fd)
      requires Valid() && fd in procs
      modifies this`procs, this`streams, this`order, this`killed
      ensures Valid()
      ensures procs == old(procs) - {fd} && streams == old(streams) - {fd}
      ensures order == Without(old(order), fd)
      ensures killed == old(killed) + {old(procs)[fd]}
    {
      WithoutDistinct(order, fd);
      killed := killed + {procs[fd]};
      procs := procs - {fd};
      streams := streams - {fd};
      order := Without(order, fd);
    }

    /** Starts worker number `nextId`. */
    method NewWorker() returns (fd: Fd)
      requires Valid()
      modifies this`nextId
      ensures Valid()
      ensures fd == old(nextId) && nextId == fd + 1 && fd !in procs
    {
      fd := nextId;
      nextId := nextId + 1;
    }

    /** Registers a started worker at the end of both tables. */
    method Register(fd: Fd)
      requires Valid() && fd !in procs && fd < nextId
      modifies this`procs, this`streams, this`order, this`spawned
      ensures Valid()
      ensures procs == old(procs)[fd := fd] && streams == old(streams)[fd := fd] && order == old(order) + [fd]
      ensures procs.Keys == old(procs).Keys + {fd}
      ensures spawned == old(spawned) + {fd}
    {
      procs := procs[fd := fd];
      streams := streams[fd := fd];
      order := order + [fd];
      spawned := spawned + {fd};
    }

    /** Records a started worker that was killed before it entered the tables. */
    method Discard(fd: Fd)
      requires Valid()
      modifies this`spawned, this`killed
      ensures Valid()
      ensures spawned == old(spawned) + {fd} && killed == old(killed) + {fd}
    {
      spawned := spawned + {fd};
      killed := killed + {fd};
    }

    /** Records a started worker left running outside the tables. */
    method Leak(fd: Fd)
      requires Valid()
      modifies this`spawned, this`leaked
      ensures Valid()
      ensures spawned == old(spawned) + {fd} && leaked == old(leaked) + {fd}
    {
      spawned := spawned + {fd};
      leaked := leaked + {fd};
    }

    /** `terminate()`: a kill for every worker in the table; the tables are kept. */
    method Terminate()
      requires Valid()
      modifies this`killed
      ensures Valid()
      ensures killed == old(killed) + procs.Keys
    {
      ghost var killed0 := killed;
      var i := 0;
      while i < |order|
        invariant i <= |order|
        invariant Valid()
        invariant killed == killed0 + set j | 0 <= j < i :: order[j]
      {
        killed := killed + {procs[order[i]]};
        i := i + 1;
      }
      assert (set j | 0 <= j < |order| :: order[j]) == procs.Keys by {
        forall fd | fd in procs ensures fd in set j | 0 <= j < |order| :: order[j] {
          var j :| 0 <= j < |order| && order[j] == fd;
        }
      }
    }

    /** Clears both tables once every worker in them has been killed. */
    method Clear()
      requires Valid() && procs.Keys <= killed
      modifies this`procs, this`streams, this`order
      ensures Valid()
      ensures procs == map[] && streams == map[] && order == []
    {
      procs, streams, order := map[], map[], [];
    }

    /** The outcome of the pool loop of `setup` for `count` starts from worker number
        `base`: success exactly when every handshake is accepted, with the new workers
        appended to the tables in order; otherwise the diagnostic of the first rejected start,
        and every worker started, and every worker that was in the tables, killed. */
    ghost predicate PoolStarted(out: SetupOutcome, count: nat, attempts: nat -> Attempt, ok: nat -> bool, base: nat,
                                order0: seq<Fd>, tabled: set<Fd>, spawned0: set<Fd>, killed0: set<Fd>)
      reads this
    {
      && (out.SetupOk? || out.SetupFailed?)
      && (out == SetupOk <==> AllAccepted(ok, count))
      && (out == SetupOk ==> Started(base, count, order0, tabled, spawned0, killed0))
      && (out.SetupFailed? ==>
            var f := FirstFalse(ok, 0, count);
            f < count
            && out.error == WorkerDiagnostic(attempts(f).rest, attempts(f).decoded)
            && procs == map[] && streams == map[] && order == [] && nextId == base + f + 1
            && spawned == spawned0 + Ids(base, f + 1)
            && killed == killed0 + tabled + Ids(base, f + 1))
    }

    /** After `i` starts of the pool loop from worker number `base`, all accepted: the
        workers `base` .. `base + i - 1` were added to the tables, in order. */
    ghost predicate Started(base: nat, i: nat, order0: seq<Fd>, tabled: set<Fd>, spawned0: set<Fd>, killed0: set<Fd>)
      reads this
    {
      && nextId == base + i
      && order == order0 + Range(base, i)
      && procs.Keys == tabled + Ids(base, i)
      && spawned == spawned0 + Ids(base, i)
      && killed == killed0
    }

    /** A start in the pool loop whose handshake is accepted: a new worker joins the tables. */
    method Join(ghost base: nat, ghost i: nat, ghost order0: seq<Fd>, ghost tabled: set<Fd>,
                ghost spawned0: set<Fd>, ghost killed0: set<Fd>)
      requires Valid() && Started(base, i, order0, tabled, spawned0, killed0)
      modifies this`procs, this`streams, this`order, this`spawned, this`nextId
      ensures Valid() && Started(base, i + 1, order0, tabled, spawned0, killed0)
    {
      var fd := NewWorker();
      ghost var o, k, sp := order, procs.Keys, spawned;
      Register(fd);
      RangeGrow(order0, o, order, base, i, fd);
      IdsGrow(tabled, k, procs.Keys, base, i, fd);
      IdsGrow(spawned0, sp, spawned, base, i, fd);
    }

    /** A start in the pool loop whose handshake is rejected: the new worker and every worker
        in the tables are killed, and the tables are emptied. */
    method Reject(ghost base: nat, ghost i: nat, ghost order0: seq<Fd>, ghost tabled: set<Fd>,
                  ghost spawned0: set<Fd>, ghost killed0: set<Fd>)
      requires Valid() && Started(base, i, order0, tabled, spawned0, killed0)
      modifies this`procs, this`streams, this`order, this`killed, this`spawned, this`nextId
      ensures Valid()
      ensures nextId == base + i + 1 && procs == map[] && streams == map[] && order == []
      ensures spawned == spawned0 + Ids(base, i + 1) && killed == killed0 + tabled + Ids(base, i + 1)
    {
      var fd := NewWorker();
      ghost var k, sp := procs.Keys, spawned;
      Discard(fd);
      Terminate();
      ghost var sp2, kl := spawned, killed;
      Clear();
      IdsGrow(spawned0, sp, sp2, base, i, fd);
      KilledGrow(killed0, kl, tabled, k, base, i, fd);
    }

    /** The worker count `setup(n_procs)` starts: the argument, else `n_procs()`. */
    function PoolSize(nArg: Option<int>, memoryProcs: int, cpuProcs: int): int
      reads this
    {
      if nArg.Some? then nArg.value else NProcs(explicitProcs, memoryProcs, cpuProcs)
    }

    /** `setup`: resolves the specification, then starts workers one by one until the first
        rejected handshake, in which case every worker started is terminated, the tables are
        emptied and the failure record is returned. This applies the correction of
        `WorkerDiagnostic`: a rejected worker's decoded record is returned, where the source
        as written returns `None` (see `WorkerDiagnosticAsWritten`). */
    method Setup(nArg: Option<int>, memoryProcs: int, cpuProcs: int, attempts: nat -> Attempt) returns (out: SetupOutcome)
      requires Valid()
      modifies this`procs, this`streams, this`order, this`killed, this`spawned, this`nextId, this`resolution, this`execInfo
      ensures Valid()
      ensures "exec_type" in spec && Resolve(spec["exec_type"], executables, handlers).Some? ==>
                resolution == Resolve(spec["exec_type"], executables, handlers)
      ensures var p := Prepare(spec, executables, handlers);
              p.Err? ==> out == SetupFailed(Local(Diagnostic(Traceback, p.error)))
                         && procs == old(procs) && order == old(order) && nextId == old(nextId)
      ensures var p := Prepare(spec, executables, handlers);
              var n := Max(PoolSize(nArg, memoryProcs, cpuProcs), 0);
              p.Ok? ==> execInfo == Some(p.value.1)
                        && (p.value.0.executable.Plain? && n >= 1 ==>
                              out == SetupRaised && procs == old(procs) && nextId == old(nextId))
                        && (!(p.value.0.executable.Plain? && n >= 1) ==>
                              PoolStarted(out, n, attempts, Handshakes(attempts), old(nextId), old(order), old(procs).Keys,
                                          old(spawned), old(killed)))
    {
      var p := Configure();
      if p.Err? {
        return SetupFailed(Local(Diagnostic(Traceback, p.error)));
      }
      var count := Max(PoolSize(nArg, memoryProcs, cpuProcs), 0);
      if p.value.0.executable.Plain? && count >= 1 {
        return SetupRaised;
      }
      out := StartPool(count, attempts, Handshakes(attempts));
    }

    /** The first three steps of `setup`: the worker kind, its executable and handler, and
        the worker specification. */
    method Configure() returns (p: Result<(Resolution, Json), string>)
      modifies this`resolution, this`execInfo
      ensures p == Prepare(spec, executables, handlers)
      ensures "exec_type" in spec && Resolve(spec["exec_type"], executables, handlers).Some? ==>
                resolution == Resolve(spec["exec_type"], executables, handlers)
      ensures !("exec_type" in spec && Resolve(spec["exec_type"], executables, handlers).Some?) ==>
                resolution == old(resolution)
      ensures p.Ok? ==> execInfo == Some(p.value.1)
      ensures p.Err? ==> execInfo == old(execInfo)
    {
      p := Prepare(spec, executables, handlers);
      if "exec_type" in spec && Resolve(spec["exec_type"], executables, handlers).Some? {
        resolution := Resolve(spec["exec_type"], executables, handlers);
      }
      if p.Ok? {
        execInfo := Some(p.value.1);
      }
    }

    /** The pool loop of `setup`: `count` worker starts, stopping at the first whose
        handshake `ok` rejects, after which every worker started is gone from the tables and
        killed. */
    method StartPool(count: nat, attempts: nat -> Attempt, ok: nat -> bool) returns (out: SetupOutcome)
      requires Valid()
      modifies this`procs, this`streams, this`order, this`killed, this`spawned, this`nextId
      ensures Valid()
      ensures PoolStarted(out, count, attempts, ok, old(nextId), old(order), old(procs).Keys, old(spawned), old(killed))
    {
      ghost var base, order0, tabled, spawned0, killed0 := nextId, order, procs.Keys, spawned, killed;
      var i := 0;
      while i < count
        invariant i <= count
        invariant Valid() && Started(base, i, order0, tabled, spawned0, killed0)
        invariant AllAccepted(ok, i)
      {
        if !ok(i) {
          Reject(base, i, order0, tabled, spawned0, killed0);
          FirstFalseAt(ok, 0, count, i);
          var a := attempts(i);
          return SetupFailed(WorkerDiagnostic(a.rest, a.decoded));
        }
        Join(base, i, order0, tabled, spawned0, killed0);
        AllAcceptedNext(ok, i);
        i := i + 1;
      }
      FirstFalseAt(ok, 0, count, count);
      return SetupOk;
    }

    /** `seed_procs`: every worker in table order is given the next item, stopping when the
        items run out (the workers not served are then killed and deleted) or when a write
        raises (the exception escapes, the tables are kept). */
    method SeedProcs(writeOk: Fd -> bool) returns (raised: bool)
      requires Valid()
      modifies this`dataStream, this`sent, this`procs, this`streams, this`order, this`killed
      ensures Valid()
      ensures var s := SeededCount(old(order), writeOk, |old(dataStream)|);
              && dataStream == old(dataStream)[s..]
              && sent == old(sent) + Dispatch(old(order)[..s], old(dataStream)[..s])
              && (raised <==> s < |old(order)| && s < |old(dataStream)|)
              && (raised ==> procs == old(procs) && streams == old(streams) && order == old(order)
                             && killed == old(killed))
              && (!raised ==> order == old(order)[..s] && killed == old(killed) + (old(procs).Keys - procs.Keys))
    ensures !raised && old(procs) != map[] ==> dataStream == [] || procs != map[]
    {
      var served;
      served, raised := SeedInOrder(writeOk);
      if !raised {
        ghost var o := order;
        RetireFrom(served);
        if dataStream != [] && old(procs) != map[] {
          var fd :| fd in old(procs);
          assert o != [] && 0 < served && order[0] in procs;
        }
      }
    }

    /** The first loop of `seed_procs`. */
    method SeedInOrder(writeOk: Fd -> bool) returns (served: nat, raised: bool)
      requires Valid()
      modifies this`dataStream, this`sent
      ensures Valid()
      ensures served == SeededCount(order, writeOk, |old(dataStream)|)
      ensures dataStream == old(dataStream)[served..]
      ensures sent == old(sent) + Dispatch(order[..served], old(dataStream)[..served])
      ensures raised <==> served < |order| && served < |old(dataStream)|
    {
      ghost var ds := dataStream;
      served := 0;
      var r := Seeded;
      while served < |order| && r == Seeded
        invariant Valid() && Served(writeOk, ds, old(sent), served)
        invariant r == Exhausted ==> served == |ds|
        invariant r == WriteRaised ==> served < |order| && served < |ds| && !writeOk(order[served])
        decreases |order| - served + (if r == Seeded then 1 else 0)
      {
        r := SeedNext(writeOk, ds, old(sent), served);
        if r == Seeded {
          served := served + 1;
        }
      }
      SeededCountIs(order, writeOk, |ds|, served);
      raised := r == WriteRaised;
    }

    /** After the first `k` workers of the table order were each given an item. */
    ghost predicate Served(writeOk: Fd -> bool, ds: seq<string>, log0: seq<Sent>, k: nat)
      reads this
    {
      && k <= |order| && k <= |ds|
      && dataStream == ds[k..]
      && sent == log0 + Dispatch(order[..k], ds[..k])
      && AllWritable(writeOk, order, k)
    }

    /** One step of the first loop of `seed_procs`: seeds worker `order[k]`. */
    method SeedNext(writeOk: Fd -> bool, ghost ds: seq<string>, ghost log0: seq<Sent>, k: nat) returns (r: SeedOutcome)
      requires Valid() && Served(writeOk, ds, log0, k) && k < |order|
      modifies this`dataStream, this`sent
      ensures Valid()
      ensures r == Exhausted ==> Served(writeOk, ds, log0, k) && k == |ds|
      ensures r == WriteRaised ==> Served(writeOk, ds, log0, k) && k < |ds| && !writeOk(order[k])
      ensures r == Seeded ==> Served(writeOk, ds, log0, k + 1)
    {
      ghost var d, log := dataStream, sent;
      r := Seed(order[k], writeOk(order[k]));
      if r == Seeded {
        SeedGrow(log0, log, sent, order, ds, k, d, dataStream);
        AllWritableNext(writeOk, order, k);
      }
    }

    /** The second half of `seed_procs`: the workers from position `served` of the table
        order on are killed and deleted. */
    method RetireFrom(served: nat)
      requires Valid() && served <= |order|
      modifies this`procs, this`streams, this`order, this`killed
      ensures Valid()
      ensures order == old(order)[..served]
      ensures killed == old(killed) + (old(procs).Keys - procs.Keys)
    {
      var vals := order;
      ghost var keys0, killed0 := procs.Keys, killed;
      var j := served;
      while j < |vals|
        invariant Valid() && Retiring(vals, served, j, keys0, killed0)
        decreases |vals| - j
      {
        RetireNext(vals, served, j, keys0, killed0);
        j := j + 1;
      }
      assert vals[|vals|..] == [];
    }

    /** The workers at positions `served` .. `j - 1` of the table order `vals` were killed
        and deleted. */
    ghost predicate Retiring(vals: seq<Fd>, served: nat, j: nat, keys0: set<Fd>, killed0: set<Fd>)
      reads this
    {
      && served <= j <= |vals|
      && order == vals[..served] + vals[j..]
      && procs.Keys <= keys0
      && killed == killed0 + (keys0 - procs.Keys)
    }

    /** One step of the second half of `seed_procs`: retires worker `vals[j]`. */
    method RetireNext(vals: seq<Fd>, served: nat, j: nat, ghost keys0: set<Fd>, ghost killed0: set<Fd>)
      requires Valid() && Retiring(vals, served, j, keys0, killed0) && j < |vals|
      modifies this`procs, this`streams, this`order, this`killed
      ensures Valid() && Retiring(vals, served, j + 1, keys0, killed0)
    {
      assert vals[j..] == [vals[j]] + vals[j + 1..];
      ConcatAssoc(vals[..served], [vals[j]], vals[j + 1..]);
      DistinctSplit(vals[..served], vals[j], vals[j + 1..]);
      WithoutMember(vals[..served], vals[j], vals[j + 1..]);
      assert vals[j] in order;
      ghost var k, kl := procs.Keys, killed;
      Retire(vals[j]);
      RetireGrow(keys0, k, procs.Keys, killed0, kl, killed, vals[j]);
    }

    /** While workers may be replaced and no SIGINT has arrived, items are never left over
        with no worker to take them. */
    ghost predicate Sustained()
      reads this
    {
      create && Utils.CountOf(signalsRecvd, Utils.SIGINT) == 0 && dataStream != [] ==> procs != map[]
    }

    /** `handle_stream` for worker `fd`, whose reply line is `reply`: refills the worker, or
        kills and deletes it when the items are exhausted. `None` stands for the
        `BrokenPipeError` of a refill write, in which case the reply is dropped and the item
        stays in the stream. */
    method HandleStream(fd: Fd, reply: string, writeOk: bool) returns (out: Option<string>)
      requires Valid() && fd in procs
      modifies this`dataStream, this`sent, this`procs, this`streams, this`order, this`killed
      ensures Valid()
      ensures old(dataStream) == [] ==>
                out == Some(reply) && procs == old(procs) - {fd} && streams == old(streams) - {fd}
                && order == Without(old(order), fd) && killed == old(killed) + {fd}
                && dataStream == [] && sent == old(sent)
      ensures old(dataStream) != [] && writeOk ==>
                out == Some(reply) && procs == old(procs) && order == old(order) && killed == old(killed)
                && dataStream == old(dataStream)[1..] && sent == old(sent) + [Sent(fd, old(dataStream)[0])]
      ensures old(dataStream) != [] && !writeOk ==>
                out == None && procs == old(procs) && order == old(order) && killed == old(killed)
                && dataStream == old(dataStream) && sent == old(sent)
    {
      var r := Seed(fd, writeOk);
      if r == WriteRaised {
        return None;
      }
      if r == Exhausted {
        Retire(fd);
      }
      out := Some(reply);
    }

    /** `handle_broken_stream` for worker `fd`: kills and deletes it, and unless a SIGINT
        was received or replacement is switched off, starts a replacement (see `Respawn`).
        `raised` reports an exception escaping. */
    method HandleBrokenStream(fd: Fd, respawn: Attempt, writeOk: Fd -> bool) returns (raised: bool)
      requires Valid() && fd in procs
      modifies this`dataStream, this`sent, this`procs, this`streams, this`order, this`killed, this`spawned,
               this`leaked, this`nextId, this`create
      ensures Valid()
      ensures old(procs).Keys - {fd} <= procs.Keys && fd !in procs
      ensures fd in killed && killed <= old(killed) + {fd, old(nextId)}
      ensures Replaced(Utils.CountOf(signalsRecvd, Utils.SIGINT) > 0 || !old(create), raised, respawn, writeOk,
                       old(procs) - {fd}, Without(old(order), fd), old(nextId), old(spawned), old(leaked),
                       old(dataStream), old(sent), old(create))
      ensures !raised ==> Sustained()
      ensures leaked != old(leaked) ==> raised
      ensures create ==> old(create)
    {
      Retire(fd);
      if Utils.CountOf(signalsRecvd, Utils.SIGINT) > 0 || !create {
        return false;
      }
      raised := Respawn(respawn, writeOk);
    }

    /** The second half of `handle_broken_stream`, after the broken worker was deleted
        from the tables `procs0`/`order0`: when `stop` (a SIGINT was received, or replacement
        is switched off) nothing more happens, otherwise a replacement is started. */
    ghost predicate Replaced(stop: bool, raised: bool, respawn: Attempt, writeOk: Fd -> bool, procs0: map<Fd, Fd>,
                             order0: seq<Fd>, id: Fd, spawned0: set<Fd>, leaked0: set<Fd>,
                             ds0: seq<string>, sent0: seq<Sent>, create0: bool)
      reads this
    {
      if stop then
        !raised && procs == procs0 && order == order0 && nextId == id && spawned == spawned0 && leaked == leaked0
        && create == create0 && dataStream == ds0 && sent == sent0
      else
        Respawned(raised, respawn, writeOk, procs0, order0, id, spawned0, leaked0, ds0, sent0)
    }

    /** What starting a replacement worker does, from tables `procs0`/`order0`, next
        worker number `id`, and items `ds0` left: with no usable command (`executable.copy()`
        fails on a verbatim string or on `None`) an exception escapes; a rejected handshake
        switches replacement off; an accepted one is described by `Admitted`. */
    ghost predicate Respawned(raised: bool, respawn: Attempt, writeOk: Fd -> bool, procs0: map<Fd, Fd>,
                              order0: seq<Fd>, id: Fd, spawned0: set<Fd>, leaked0: set<Fd>,
                              ds0: seq<string>, sent0: seq<Sent>)
      reads this
    {
      if resolution.None? || resolution.value.executable.Plain? then
        raised && procs == procs0 && order == order0 && nextId == id && spawned == spawned0 && leaked == leaked0
        && dataStream == ds0 && sent == sent0
      else
        nextId == id + 1
        && Answered(raised, id, IsReadyReply(respawn.firstLine), writeOk(id), procs0, order0, spawned0, leaked0, ds0, sent0)
    }

    /** A started worker `id` whose handshake was rejected is killed and replacement is
        switched off; an accepted one is described by `Admitted`. */
    ghost predicate Answered(raised: bool, id: Fd, ready: bool, writeOk: bool, procs0: map<Fd, Fd>, order0: seq<Fd>,
                             spawned0: set<Fd>, leaked0: set<Fd>, ds0: seq<string>, sent0: seq<Sent>)
      reads this
    {
      if !ready then
        !raised && !create && spawned == spawned0 + {id} && id in killed
        && procs == procs0 && order == order0 && leaked == leaked0 && dataStream == ds0 && sent == sent0
      else
        Admitted(raised, id, writeOk, procs0, order0, spawned0, leaked0, ds0, sent0)
    }

    /** A started worker `id` whose handshake was accepted is given the next item and
        tabled; it is killed when no item is left, and left running outside the tables when
        the write raises (the `BrokenPipeError` escapes). */
    ghost predicate Admitted(raised: bool, id: Fd, writeOk: bool, procs0: map<Fd, Fd>, order0: seq<Fd>,
                             spawned0: set<Fd>, leaked0: set<Fd>, ds0: seq<string>, sent0: seq<Sent>)
      reads this
    {
      && spawned == spawned0 + {id}
      && (raised <==> ds0 != [] && !writeOk)
      && (ds0 == [] ==> procs == procs0 && order == order0 && id in killed && leaked == leaked0 && dataStream == ds0 && sent == sent0)
      && (ds0 != [] && writeOk ==>
            procs == procs0[id := id] && order == order0 + [id] && leaked == leaked0
            && dataStream == ds0[1..] && sent == sent0 + [Sent(id, ds0[0])])
      && (ds0 != [] && !writeOk ==>
            procs == procs0 && order == order0 && leaked == leaked0 + {id} && dataStream == ds0 && sent == sent0)
    }

    /** The replacement half of `handle_broken_stream`. */
    method Respawn(respawn: Attempt, writeOk: Fd -> bool) returns (raised: bool)
      requires Valid()
      modifies this`dataStream, this`sent, this`procs, this`streams, this`order, this`killed, this`spawned,
               this`leaked, this`nextId, this`create
      ensures Valid()
      ensures Respawned(raised, respawn, writeOk, old(procs), old(order), old(nextId), old(spawned), old(leaked),
                        old(dataStream), old(sent))
      ensures old(killed) <= killed <= old(killed) + {old(nextId)}
      ensures create ==> old(create)
      ensures !raised ==> !create || dataStream == [] || procs != map[]
    {
      if resolution.None? || resolution.value.executable.Plain? {
        return true;
      }
      var id := NewWorker();
      raised := Answer(id, IsReadyReply(respawn.firstLine), writeOk(id));
    }

    /** The handshake check of a started replacement worker `id`. */
    method Answer(id: Fd, ready: bool, writeOk: bool) returns (raised: bool)
      requires Valid() && id !in procs && id < nextId
      modifies this`dataStream, this`sent, this`procs, this`streams, this`order, this`killed, this`spawned,
               this`leaked, this`create
      ensures Valid()
      ensures Answered(raised, id, ready, writeOk, old(procs), old(order), old(spawned), old(leaked), old(dataStream),
                       old(sent))
      ensures old(killed) <= killed <= old(killed) + {id}
      ensures create ==> old(create)
      ensures !raised ==> !create || dataStream == [] || procs != map[]
    {
      if !ready {
        Discard(id);
        create := false;
        return false;
      }
      raised := Admit(id, writeOk);
    }

    /** Seeds a started worker whose handshake was accepted. */
    method Admit(id: Fd, writeOk: bool) returns (raised: bool)
      requires Valid() && id !in procs && id < nextId
      modifies this`dataStream, this`sent, this`procs, this`streams, this`order, this`killed, this`spawned,
               this`leaked
      ensures Valid()
      ensures Admitted(raised, id, writeOk, old(procs), old(order), old(spawned), old(leaked), old(dataStream), old(sent))
      ensures old(killed) <= killed <= old(killed) + {id}
      ensures !raised ==> dataStream == [] || procs != map[]
    {
      var r := Seed(id, writeOk);
      if r == Seeded {
        Register(id);
        assert id in procs;
        raised := false;
      } else if r == Exhausted {
        Discard(id);
        raised := false;
      } else {
        Leak(id);
        raised := true;
      }
    }

    /** The body of the `for` loop of `loop` for one readable worker: `handle_stream`, and
        `handle_broken_stream` when its refill write raises `BrokenPipeError`. `out` is the
        line `handle_stream` returns, `None` when it raised. */
    method Visit(fd: Fd, round: Round) returns (out: Option<string>, raised: bool)
      requires Valid() && fd in procs
      modifies this`dataStream, this`sent, this`procs, this`streams, this`order, this`killed, this`spawned,
               this`leaked, this`nextId, this`create
      ensures Valid()
      ensures old(procs).Keys - {fd} <= procs.Keys
      ensures out.Some? ==> out.value == round.reply(fd)
      ensures out.None? ==> !round.writeOk(fd) && old(dataStream) != []
      ensures raised ==> out.None?
      ensures !raised ==> Sustained()
      ensures leaked != old(leaked) ==> raised
      ensures create ==> old(create)
    {
      out := HandleStream(fd, round.reply(fd), round.writeOk(fd));
      raised := false;
      if out.None? {
        raised := HandleBrokenStream(fd, round.respawn(fd), round.writeOk);
      }
    }

    /** `loop`: raises `IterationCompleted` (`completed`) exactly when there are no
        workers; otherwise handles the readable workers in table order and yields their
        non-empty replies, except the replies dropped because the refill write raised. An
        exception escaping `handle_broken_stream` ends the call after `visited` workers.
        The ghost set `lost` is only bounded: every worker in it had a raising refill write,
        but the contract does not say that every such worker visited is in it. */
    method Loop(round: Round) returns (items: seq<string>, completed: bool, raised: bool,
                                       visited: nat, ghost lost: set<Fd>)
      requires Valid()
      modifies this`dataStream, this`sent, this`procs, this`streams, this`order, this`killed, this`spawned,
               this`leaked, this`nextId, this`create
      ensures Valid()
      ensures completed <==> old(streams) == map[]
      ensures completed ==> items == [] && !raised && procs == old(procs) && dataStream == old(dataStream)
      ensures var ready := Filter(old(order), Readable(round.readable));
              && visited <= |ready| && (!raised ==> visited == |ready|)
              && items == Yielded(ready[..visited], round.reply, lost)
      ensures forall fd :: fd in lost ==> !round.writeOk(fd)
      ensures !raised && old(Sustained()) ==> Sustained()
      ensures leaked != old(leaked) ==> raised
      ensures create ==> old(create)
    {
      items, raised, visited, lost := [], false, 0, {};
      if streams == map[] {
        return [], true, false, 0, {};
      }
      completed := false;
      var ready := Filter(order, Readable(round.readable));
      ghost var s0, create0 := Sustained(), create;
      while visited < |ready| && !raised
        invariant Valid()
        invariant !raised ==> Visiting(round, ready, visited, items, lost, s0, old(leaked), create0)
        invariant raised ==> Stopped(round, ready, visited, items, lost, create0)
        decreases |ready| - visited, if raised then 0 else 1
      {
        items, lost, raised := VisitNext(round, ready, visited, items, lost, s0, old(leaked), create0);
        if !raised {
          visited := visited + 1;
        }
      }
    }

    /** Where `loop` has got to: the first `visited` readable workers `ready` were handled,
        yielding `items`, and the rest are still in the tables. */
    ghost predicate Visiting(round: Round, ready: seq<Fd>, visited: nat, items: seq<string>, lost: set<Fd>,
                            s0: bool, leaked0: set<Fd>, create0: bool)
      reads this
    {
      && Stopped(round, ready, visited, items, lost, create0)
      && Distinct(ready)
      && (forall k :: visited <= k < |ready| ==> ready[k] in procs)
      && (s0 || visited > 0 ==> Sustained())
      && leaked == leaked0
    }

    /** What remains true of `loop` once an exception escaped. */
    ghost predicate Stopped(round: Round, ready: seq<Fd>, visited: nat, items: seq<string>, lost: set<Fd>,
                            create0: bool)
      reads this
    {
      && visited <= |ready|
      && items == Yielded(ready[..visited], round.reply, lost)
      && (forall fd :: fd in lost ==> fd in ready[..visited] && !round.writeOk(fd))
      && (create ==> create0)
    }

    /** One step of `loop`: handles the readable worker `ready[visited]`. */
    method VisitNext(round: Round, ready: seq<Fd>, visited: nat, items: seq<string>, ghost lost: set<Fd>,
                     ghost s0: bool, ghost leaked0: set<Fd>, ghost create0: bool)
      returns (items2: seq<string>, ghost lost2: set<Fd>, raised: bool)
      requires Valid() && Visiting(round, ready, visited, items, lost, s0, leaked0, create0) && visited < |ready|
      modifies this`dataStream, this`sent, this`procs, this`streams, this`order, this`killed, this`spawned,
               this`leaked, this`nextId, this`create
      ensures Valid()
      ensures !raised ==> Visiting(round, ready, visited + 1, items2, lost2, s0, leaked0, create0)
      ensures raised ==> Stopped(round, ready, visited, items2, lost2, create0)
    {
      var fd := ready[visited];
      ghost var keys := procs.Keys;
      var out;
      out, raised := Visit(fd, round);
      items2, lost2 := items, lost;
      if !raised {
        if out.None? {
          lost2 := lost + {fd};
        }
        assert ready[..visited + 1] == ready[..visited] + [fd];
        YieldedNext(ready, visited, round.reply, lost, lost2, items, out);
        if out.Some? && out.value != "" {
          items2 := items + [out.value];
        }
        forall k | visited + 1 <= k < |ready| ensures ready[k] in procs {
          assert ready[k] in keys && ready[k] != fd;
        }
      }
    }

    /** `handle_sigint` as `signal_handler` wraps it: the signal is counted, and from the
        second SIGINT on every worker in the tables is killed (the tables are kept). It
        then raises `KeyboardInterrupt`, which its callers treat as an escaping exception. */
    method HandleSigint(signum: int)
      requires Valid()
      modifies this`signalsRecvd, this`killed
      ensures Valid()
      ensures signalsRecvd == Utils.Bumped(old(signalsRecvd), signum)
      ensures Utils.CountOf(signalsRecvd, signum) > 1 ==> killed == old(killed) + procs.Keys
      ensures Utils.CountOf(signalsRecvd, signum) <= 1 ==> killed == old(killed)
    {
      signalsRecvd := Utils.Bumped(signalsRecvd, signum);
      if signalsRecvd[signum] > 1 {
        Terminate();
      }
    }

    /** `gen`: calls `loop` once per round, counting every line it yields, until `loop`
        raises `IterationCompleted`. A round that begins with a SIGINT ends in
        `handle_sigint`, whose `KeyboardInterrupt` escapes; so does an exception escaping
        `loop`. The rounds may also run out first (the consumer stops drawing lines). */
    method Gen(rounds: seq<Round>) returns (items: seq<string>, completed: bool, raised: bool)
      requires Valid()
      modifies this`dataStream, this`sent, this`procs, this`streams, this`order, this`killed, this`spawned,
               this`leaked, this`nextId, this`create, this`itemsProcessed, this`signalsRecvd
      ensures Valid()
      ensures Generating(items, completed, raised, old(itemsProcessed), old(Sustained()), old(leaked), old(create),
                         old(signalsRecvd))
    {
      items, completed, raised := [], false, false;
      ghost var ip0, s0, leaked0, create0, signals0 := itemsProcessed, Sustained(), leaked, create, signalsRecvd;
      var r := 0;
      while r < |rounds| && !completed && !raised
        invariant Valid() && r <= |rounds|
        invariant Generating(items, completed, raised, ip0, s0, leaked0, create0, signals0)
      {
        items, completed, raised := GenNext(rounds[r], items, ip0, s0, leaked0, create0, signals0);
        r := r + 1;
      }
    }

    /** After some rounds of `gen`: every yielded line was counted and is non-empty;
        completion means the tables are empty; and unless an exception escaped, no signal
        arrived, no worker was left outside the tables and items left over still have a
        worker. */
    ghost predicate Generating(items: seq<string>, completed: bool, raised: bool, ip0: nat, s0: bool,
                               leaked0: set<Fd>, create0: bool, signals0: map<int, nat>)
      reads this
    {
      && itemsProcessed == ip0 + |items|
      && (forall k :: 0 <= k < |items| ==> items[k] != "")
      && (completed ==> !raised && procs == map[])
      && (!raised ==> signalsRecvd == signals0 && leaked == leaked0 && (s0 ==> Sustained()))
      && (create ==> create0)
    }

    /** One round of `gen`. */
    method GenNext(round: Round, items: seq<string>, ghost ip0: nat, ghost s0: bool, ghost leaked0: set<Fd>,
                   ghost create0: bool, ghost signals0: map<int, nat>)
      returns (items2: seq<string>, completed: bool, raised: bool)
      requires Valid() && Generating(items, false, false, ip0, s0, leaked0, create0, signals0)
      modifies this`dataStream, this`sent, this`procs, this`streams, this`order, this`killed, this`spawned,
               this`leaked, this`nextId, this`create, this`itemsProcessed, this`signalsRecvd
      ensures Valid()
      ensures Generating(items2, completed, raised, ip0, s0, leaked0, create0, signals0)
    {
      if round.interrupted {
        HandleSigint(Utils.SIGINT);
        return items, false, true;
      }
      var its, visited;
      ghost var lost;
      its, completed, raised, visited, lost := Loop(round);
      items2 := items + its;
      itemsProcessed := itemsProcessed + |its|;
      assert forall k :: 0 <= k < |its| ==> items2[|items| + k] == its[k];
    }

    /** `run` as a context manager whose body drains the generator: replacement is switched
        on and the count reset, the workers are seeded, the generator is drained over
        `rounds`, and whatever happens every worker in the tables is then killed and the
        tables emptied. A run that completes from a non-empty pool, with no SIGINT and no
        refused replacement, has written every item of the input to a worker exactly once and
        in order. */
    method Run(seedWriteOk: Fd -> bool, rounds: seq<Round>) returns (items: seq<string>, completed: bool, raised: bool)
      requires Valid()
      modifies this`dataStream, this`sent, this`procs, this`streams, this`order, this`killed, this`spawned,
               this`leaked, this`nextId, this`create, this`itemsProcessed, this`signalsRecvd
      ensures Valid()
      ensures procs == map[] && streams == map[] && order == []
      ensures spawned <= killed + leaked
      ensures leaked != old(leaked) ==> raised
      ensures itemsProcessed == |items|
      ensures forall k :: 0 <= k < |items| ==> items[k] != ""
      ensures completed ==> !raised && signalsRecvd == old(signalsRecvd)
      ensures completed && old(procs) != map[] && create && Utils.CountOf(signalsRecvd, Utils.SIGINT) == 0 ==>
                SentItems(sent) == input
    {
      raised := Begin(seedWriteOk);
      items, completed := [], false;
      if !raised {
        items, completed, raised := Gen(rounds);
      }
      Finish();
    }

    /** The start of `run`: replacement switched on, the count reset, the workers seeded. */
    method Begin(seedWriteOk: Fd -> bool) returns (raised: bool)
      requires Valid()
      modifies this`dataStream, this`sent, this`procs, this`streams, this`order, this`killed, this`create,
               this`itemsProcessed
      ensures Valid()
      ensures create && itemsProcessed == 0
      ensures !raised && old(procs) != map[] ==> Sustained()
    {
      create := true;
      itemsProcessed := 0;
      raised := SeedProcs(seedWriteOk);
    }

    /** The `finally` clause of `run`: `terminate(soft=False, wait=True)` and empty tables. */
    method Finish()
      requires Valid()
      modifies this`procs, this`streams, this`order, this`killed
      ensures Valid()
      ensures procs == map[] && streams == map[] && order == []
      ensures spawned <= killed + leaked
    {
      Terminate();
      Clear();
    }
  }

  /** The waiters `select` reports ready. */
  function Readable(readable: set<Fd>): Fd -> bool
  {
    fd => fd in readable
  }

  /** The lines `loop` yields for the handled workers `ready`: each non-empty reply, in
      order, except those of the workers in `lost`. */
  function Yielded(ready: seq<Fd>, reply: Fd -> string, lost: set<Fd>): (r: seq<string>)
    ensures |r| <= |ready|
    ensures forall k :: 0 <= k < |r| ==> r[k] != ""
  {
    if ready == [] then []
    else
      var fd := ready[|ready| - 1];
      Yielded(ready[..|ready| - 1], reply, lost) + (if fd !in lost && reply(fd) != "" then [reply(fd)] else [])
  }

  /** One more handled worker in `loop`. */
  lemma YieldedNext(ready: seq<Fd>, j: nat, reply: Fd -> string, lost: set<Fd>, lost2: set<Fd>,
                    items: seq<string>, out: Option<string>)
    requires j < |ready| && Distinct(ready) && items == Yielded(ready[..j], reply, lost)
    requires forall fd :: fd in lost ==> fd in ready[..j]
    requires out.Some? ==> out.value == reply(ready[j]) && lost2 == lost
    requires out.None? ==> lost2 == lost + {ready[j]}
    ensures Yielded(ready[..j + 1], reply, lost2)
            == items + (if out.Some? && out.value != "" then [out.value] else [])
  {
    assert ready[..j + 1][..j] == ready[..j];
    assert ready[..j + 1][j] == ready[j];
    assert ready[j] !in ready[..j] by {
      forall k | 0 <= k < j ensures ready[..j][k] != ready[j] {
        assert ready[..j][k] == ready[k];
      }
    }
    YieldedFrame(ready[..j], reply, lost, lost2);
  }

  /** Workers outside the handled prefix do not affect what it yields. */
  lemma {:induction false} YieldedFrame(ready: seq<Fd>, reply: Fd -> string, lost: set<Fd>, lost2: set<Fd>)
    requires forall fd :: fd in ready ==> (fd in lost <==> fd in lost2)
    ensures Yielded(ready, reply, lost) == Yielded(ready, reply, lost2)
  {
    if ready != [] {
      YieldedFrame(ready[..|ready| - 1], reply, lost, lost2);
    }
  }

  /** One more accepted start extends the table order by the next worker number. */
  lemma RangeGrow(order0: seq<Fd>, o: seq<Fd>, o2: seq<Fd>, base: nat, i: nat, fd: Fd)
    requires o == order0 + Range(base, i) && fd == base + i && o2 == o + [fd]
    ensures o2 == order0 + Range(base, i + 1)
  {
    RangeNext(base, i);
    ConcatAssoc(order0, Range(base, i), [base + i]);
  }

  /** One more start adds the next worker number to a set of workers. */
  lemma IdsGrow(a: set<Fd>, s: set<Fd>, s2: set<Fd>, base: nat, i: nat, fd: Fd)
    requires s == a + Ids(base, i) && fd == base + i && s2 == s + {fd}
    ensures s2 == a + Ids(base, i + 1)
  {
    RangeNext(base, i);
    UnionAssoc(a, Ids(base, i), {base + i});
  }

  /** A rejected start kills the new worker and every worker in the tables. */
  lemma KilledGrow(killed0: set<Fd>, kl: set<Fd>, tabled: set<Fd>, k: set<Fd>, base: nat, i: nat, fd: Fd)
    requires k == tabled + Ids(base, i) && fd == base + i && kl == killed0 + {fd} + k
    ensures kl == killed0 + tabled + Ids(base, i + 1)
  {
    RangeNext(base, i);
  }

  lemma UnionAssoc(a: set<Fd>, b: set<Fd>, c: set<Fd>)
    ensures a + b + c == a + (b + c)
  {
  }

  lemma ConcatAssoc<T>(a: seq<T>, b: seq<T>, c: seq<T>)
    ensures a + b + c == a + (b + c)
  {
  }

  /** The first `n` starts are accepted. */
  ghost predicate AllAccepted(ok: nat -> bool, n: nat)
  {
    forall j :: 0 <= j < n ==> ok(j)
  }

  lemma AllAcceptedNext(ok: nat -> bool, n: nat)
    requires AllAccepted(ok, n) && ok(n)
    ensures AllAccepted(ok, n + 1)
  {
  }

  /** The numbers `base`, `base + 1`, ..., `base + k - 1`. */
  function Range(base: nat, k: nat): (r: seq<Fd>)
    ensures |r| == k && forall i :: 0 <= i < k ==> r[i] == base + i
  {
    if k == 0 then [] else Range(base, k - 1) + [base + k - 1]
  }

  lemma RangeNext(base: nat, k: nat)
    ensures Range(base, k + 1) == Range(base, k) + [base + k]
    ensures Ids(base, k + 1) == Ids(base, k) + {base + k}
  {
    assert Range(base, k + 1) == Range(base, k) + [base + k];
  }

  /** The worker numbers `base`, ..., `base + k - 1` as a set. */
  function Ids(base: nat, k: nat): set<Fd>
  {
    if k == 0 then {} else Ids(base, k - 1) + {base + k - 1}
  }

  lemma {:induction false} IdsMembers(base: nat, k: nat)
    ensures forall fd :: fd in Ids(base, k) <==> base <= fd < base + k
  {
    if k > 0 {
      IdsMembers(base, k - 1);
    }
  }

  /** Which worker starts pass the handshake, by position. */
  function Handshakes(attempts: nat -> Attempt): nat -> bool
  {
    (i: nat) => IsReadyReply(attempts(i).firstLine)
  }

  /** The first position from `i` on where `ok` fails, or `count` when it holds throughout. */
  function FirstFalse(ok: nat -> bool, i: nat, count: nat): (f: nat)
    requires i <= count
    ensures i <= f <= count
    ensures forall j :: i <= j < f ==> ok(j)
    ensures f < count ==> !ok(f)
    decreases count - i
  {
    if i == count || !ok(i) then i else FirstFalse(ok, i + 1, count)
  }

  /** The stop point is the first failing position. */
  lemma {:induction false} FirstFalseAt(ok: nat -> bool, i: nat, count: nat, k: nat)
    requires i <= k <= count
    requires forall j :: i <= j < k ==> ok(j)
    requires k == count || !ok(k)
    ensures FirstFalse(ok, i, count) == k
    decreases k - i
  {
    if i < k {
      FirstFalseAt(ok, i + 1, count, k);
    }
  }
}
