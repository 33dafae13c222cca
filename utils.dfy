/** The helpers of multirunner/utils.py: the per-signal counter kept by the
    `signal_handler` decorator, the partition-and-stop loop of `read_wait` with
    `select` as an oracle, and the first-match choice of an interpreter command. */
module Utils {
  import opened Common

  const SIGINT: int := 2

  /** The count a signal table holds for `signum`, zero when it has none. */
  function CountOf(counts: map<int, nat>, signum: int): nat
  {
    if signum in counts then counts[signum] else 0
  }

  /** `counts.setdefault(signum, 0); counts[signum] += 1`. */
  function Bumped(counts: map<int, nat>, signum: int): (r: map<int, nat>)
    ensures r.Keys == counts.Keys + {signum}
    ensures CountOf(r, signum) == CountOf(counts, signum) + 1
    ensures forall s :: s in counts && s != signum ==> r[s] == counts[s]
  {
    counts[signum := CountOf(counts, signum) + 1]
  }

  /** The table after a series of stored deliveries, in order. */
  function Delivered(counts: map<int, nat>, signals: seq<int>): map<int, nat>
  {
    if signals == [] then counts else Bumped(Delivered(counts, signals[..|signals| - 1]), signals[|signals| - 1])
  }

  /** Each signal's count grows by exactly the number of times it was delivered. */
  lemma {:induction false} DeliveredCounts(counts: map<int, nat>, signals: seq<int>, signum: int)
    ensures CountOf(Delivered(counts, signals), signum) == CountOf(counts, signum) + multiset(signals)[signum]
  {
    if signals != [] {
      var front, last := signals[..|signals| - 1], signals[|signals| - 1];
      assert signals == front + [last];
      DeliveredCounts(counts, front, signum);
      assert multiset(signals) == multiset(front) + multiset{last};
    }
  }

  /** An object whose handler method is wrapped by `signal_handler`; it need not have a
      `signals_recvd` attribute before the first signal arrives. */
  class SignalReceiver {
    var signalsRecvd: Option<map<int, nat>>
    /** How many times the wrapped handler has been invoked. */
    var handlerCalls: nat

    constructor ()
      ensures signalsRecvd == None && handlerCalls == 0
    {
      signalsRecvd := None;
      handlerCalls := 0;
    }

    /** One delivery of `signum`; `store` is the wrapper's keyword argument. */
    method Handle(signum: int, store: bool)
      modifies this
      ensures store ==> signalsRecvd.Some?
                        && signalsRecvd.value == Bumped(if old(signalsRecvd).Some? then old(signalsRecvd).value else map[], signum)
      ensures !store ==> signalsRecvd == old(signalsRecvd)
      ensures handlerCalls == old(handlerCalls) + 1
    {
      if store {
        if signalsRecvd.None? {
          signalsRecvd := Some(map[]);
        }
        signalsRecvd := Some(Bumped(signalsRecvd.value, signum));
      }
      handlerCalls := handlerCalls + 1;
    }
  }

  // ---------------------------------------------------------------- read_wait

  /** `list.remove(x)`: drops the first occurrence of `x`. */
  function RemoveFirst<S(==)>(s: seq<S>, x: S): (r: seq<S>)
    ensures x in s ==> multiset(r) == multiset(s) - multiset{x}
    ensures x !in s ==> r == s
  {
    if s == [] then []
    else if s[0] == x then
      assert s == [s[0]] + s[1..];
      s[1..]
    else
      assert s == [s[0]] + s[1..];
      [s[0]] + RemoveFirst(s[1..], x)
  }

  /** What `select` reports out of the descriptors that have data: only streams it was
      asked about, each occurrence at most once. */
  function Among<S(==)>(candidates: seq<S>, pending: seq<S>): (r: seq<S>)
    ensures multiset(r) <= multiset(pending)
  {
    if candidates == [] then []
    else if candidates[0] in pending then
      var rest := Among(candidates[1..], RemoveFirst(pending, candidates[0]));
      assert multiset([candidates[0]] + rest) == multiset{candidates[0]} + multiset(rest);
      [candidates[0]] + rest
    else
      Among(candidates[1..], pending)
  }

  /** `for val in done: streams.remove(val)`. */
  function RemoveAll<S(==)>(s: seq<S>, done: seq<S>): (r: seq<S>)
    requires multiset(done) <= multiset(s)
    ensures multiset(r) + multiset(done) == multiset(s)
    decreases |done|
  {
    if done == [] then s
    else
      assert done == [done[0]] + done[1..];
      assert multiset(done) == multiset{done[0]} + multiset(done[1..]);
      assert done[0] in multiset(s);
      RemoveAll(RemoveFirst(s, done[0]), done[1..])
  }

  /** One step of `RemoveAll`: the first value to remove is pending, and the rest can be
      removed from what is left. */
  lemma RemoveAllStep<S>(s: seq<S>, done: seq<S>)
    requires done != [] && multiset(done) <= multiset(s)
    ensures done[0] in s && multiset(done[1..]) <= multiset(RemoveFirst(s, done[0]))
    ensures RemoveAll(s, done) == RemoveAll(RemoveFirst(s, done[0]), done[1..])
  {
    assert done == [done[0]] + done[1..];
    assert multiset(done) == multiset{done[0]} + multiset(done[1..]);
    assert done[0] in multiset(s);
  }

  /** One pass of the loop: the clock reading `time.time() - beg` taken before the pass,
      and the streams `select` finds readable. */
  datatype Pass<S> = Pass(elapsed: real, readable: seq<S>)

  /** How `read_wait` ends: with the streams found ready, by raising `TimeoutError`, or
      (when the oracle has no further pass) still waiting. */
  datatype Waited<S> = Ready(done: seq<S>) | TimedOut | StillWaiting

  /** `min_ready` defaults to the number of streams. */
  function MinReady<S>(streams: seq<S>, minReady: Option<int>): (m: int)
    ensures minReady.None? ==> m == |streams|
    ensures minReady.Some? ==> m == minReady.value
  {
    if minReady.Some? then minReady.value else |streams|
  }

  /** The loop of `read_wait` from a state with `pending` still to wait for. */
  function Wait<S(==)>(pending: seq<S>, done: seq<S>, minReady: int, timeout: Option<real>, passes: seq<Pass<S>>): Waited<S>
    decreases |passes|
  {
    if passes == [] then StillWaiting
    else if timeout.Some? && timeout.value - passes[0].elapsed < 0.0 then TimedOut
    else
      var got := Among(passes[0].readable, pending);
      var rest := RemoveAll(pending, got);
      if |done + got| >= minReady || |rest| == 0 then Ready(done + got)
      else Wait(rest, done + got, minReady, timeout, passes[1..])
  }

  /** The streams reported ready and the streams still pending always split the original
      streams; the loop stops only once enough are ready or none is pending. */
  lemma {:induction false} WaitPartition<S>(pending: seq<S>, done: seq<S>, minReady: int, timeout: Option<real>, passes: seq<Pass<S>>)
    requires Wait(pending, done, minReady, timeout, passes).Ready?
    ensures var d := Wait(pending, done, minReady, timeout, passes).done;
            StartsWith(d, done)
            && multiset(d) <= multiset(done) + multiset(pending)
            && (|d| >= minReady || multiset(d) == multiset(done) + multiset(pending))
    decreases |passes|
  {
    var got := Among(passes[0].readable, pending);
    var rest := RemoveAll(pending, got);
    assert multiset(rest) + multiset(got) == multiset(pending);
    assert multiset(done + got) == multiset(done) + multiset(got);
    if |done + got| >= minReady || |rest| == 0 {
      assert (done + got)[..|done|] == done;
      if |rest| == 0 {
        assert multiset(rest) == multiset{};
      }
    } else {
      WaitPartition(rest, done + got, minReady, timeout, passes[1..]);
      var d := Wait(rest, done + got, minReady, timeout, passes[1..]).done;
      assert d[..|done|] == (d[..|done + got|])[..|done|];
    }
  }

  /** With a timeout, the first pass whose clock reading exceeds it raises. */
  lemma TimeoutRaises<S>(pending: seq<S>, done: seq<S>, minReady: int, timeout: real, passes: seq<Pass<S>>)
    requires passes != [] && passes[0].elapsed > timeout
    ensures Wait(pending, done, minReady, Some(timeout), passes) == TimedOut
  {
  }

  /** The inner loop of a pass: removes the reported streams from the pending list. */
  method RemoveEach<S(==)>(pending: seq<S>, got: seq<S>) returns (rest: seq<S>)
    requires multiset(got) <= multiset(pending)
    ensures rest == RemoveAll(pending, got)
  {
    rest := pending;
    for j := 0 to |got|
      invariant multiset(got[j..]) <= multiset(rest)
      invariant RemoveAll(rest, got[j..]) == RemoveAll(pending, got)
    {
      RemoveAllStep(rest, got[j..]);
      assert got[j..][0] == got[j] && got[j..][1..] == got[j + 1..];
      rest := RemoveFirst(rest, got[j]);
    }
  }

  /** One pass of `Wait` that does not time out. */
  lemma WaitStep<S>(pending: seq<S>, done: seq<S>, minReady: int, timeout: Option<real>, passes: seq<Pass<S>>,
                    got: seq<S>, rest: seq<S>)
    requires passes != [] && !(timeout.Some? && timeout.value - passes[0].elapsed < 0.0)
    requires got == Among(passes[0].readable, pending) && rest == RemoveAll(pending, got)
    ensures |done + got| >= minReady || |rest| == 0 ==> Wait(pending, done, minReady, timeout, passes) == Ready(done + got)
    ensures !(|done + got| >= minReady || |rest| == 0) ==>
              Wait(pending, done, minReady, timeout, passes) == Wait(rest, done + got, minReady, timeout, passes[1..])
  {
  }

  method ReadWait<S(==)>(streams: seq<S>, timeout: Option<real>, minReady: Option<int>, passes: seq<Pass<S>>)
    returns (r: Waited<S>)
    ensures r == Wait(streams, [], MinReady(streams, minReady), timeout, passes)
    ensures r.Ready? ==> multiset(r.done) <= multiset(streams)
    ensures r.Ready? ==> |r.done| >= MinReady(streams, minReady) || multiset(r.done) == multiset(streams)
  {
    var pending := streams;
    var min := MinReady(streams, minReady);
    var done: seq<S> := [];
    var i := 0;
    r := StillWaiting;
    while i < |passes|
      invariant 0 <= i <= |passes|
      invariant Wait(pending, done, min, timeout, passes[i..]) == Wait(streams, [], min, timeout, passes)
      decreases |passes| - i
    {
      var pass := passes[i];
      ghost var tail := passes[i..];
      assert tail[0] == pass && tail[1..] == passes[i + 1..];
      if timeout.Some? && timeout.value - pass.elapsed < 0.0 {
        r := TimedOut;
        break;
      }
      var got := Among(pass.readable, pending);
      var rest := RemoveEach(pending, got);
      WaitStep(pending, done, min, timeout, tail, got, rest);
      pending := rest;
      done := done + got;
      if |done| >= min || |pending| == 0 {
        r := Ready(done);
        break;
      }
      i := i + 1;
    }
    if r.Ready? {
      WaitPartition(streams, [], min, timeout, passes);
    }
  }

  // ---------------------------------------------------------- interpreter choice

  /** The shared loop of `python2_cmd`, `python3_cmd` and `node_cmd`: the running
      interpreter when its major version is the one wanted, otherwise the first
      candidate command that exists, otherwise the default. */
  method FirstCommand(runningMatches: bool, executable: string, default: string, ops: seq<string>,
                      commandExists: string -> bool) returns (cmd: string)
    ensures runningMatches ==> cmd == executable
    ensures !runningMatches && (exists i :: 0 <= i < |ops| && commandExists(ops[i])) ==>
              exists i :: 0 <= i < |ops| && cmd == ops[i] && commandExists(ops[i])
                          && forall j :: 0 <= j < i ==> !commandExists(ops[j])
    ensures !runningMatches && (forall i :: 0 <= i < |ops| ==> !commandExists(ops[i])) ==> cmd == default
  {
    if runningMatches {
      return executable;
    }
    for i := 0 to |ops|
      invariant forall j :: 0 <= j < i ==> !commandExists(ops[j])
    {
      if commandExists(ops[i]) {
        return ops[i];
      }
    }
    return default;
  }

  method Python2Cmd(major: int, executable: string, commandExists: string -> bool) returns (cmd: string)
    ensures major == 2 ==> cmd == executable
    ensures major != 2 && commandExists("python2") ==> cmd == "python2"
    ensures major != 2 && !commandExists("python2") && commandExists("python") ==> cmd == "python"
    ensures major != 2 && !commandExists("python2") && !commandExists("python") ==> cmd == "python"
  {
    var ops := ["python2", "python"];
    assert ops[0] == "python2" && ops[1] == "python";
    cmd := FirstCommand(major == 2, executable, "python", ops, commandExists);
  }

  method Python3Cmd(major: int, executable: string, commandExists: string -> bool) returns (cmd: string)
    ensures major == 3 ==> cmd == executable
    ensures major != 3 && commandExists("python3") ==> cmd == "python3"
    ensures major != 3 && !commandExists("python3") && commandExists("python") ==> cmd == "python"
    ensures major != 3 && !commandExists("python3") && !commandExists("python") ==> cmd == "python3"
  {
    var ops := ["python3", "python"];
    assert ops[0] == "python3" && ops[1] == "python";
    cmd := FirstCommand(major == 3, executable, "python3", ops, commandExists);
  }

  method NodeCmd(commandExists: string -> bool) returns (cmd: string)
    ensures commandExists("node.js") ==> cmd == "node.js"
    ensures !commandExists("node.js") && commandExists("node") ==> cmd == "node"
    ensures !commandExists("node.js") && !commandExists("node") ==> cmd == "node"
  {
    var ops := ["node.js", "node"];
    assert ops[0] == "node.js" && ops[1] == "node";
    cmd := FirstCommand(false, "", "node", ops, commandExists);
  }
}
