/** The interactive proxy: `interact_with_process` in src/main.rs and `do_proxy` in
    deptyr.c. Each iteration resizes the PTY if a SIGWINCH was recorded, waits for
    the local terminal or the PTY to become readable, and relays a chunk from each
    ready side. One iteration is a function of the flag and of the kernel's replies
    in that iteration (a `Tick`); the loops are methods proved against the fold of
    that function over a sequence of ticks. */
module Proxy {
  import opened Os
  import opened Relay
  import opened WindowSize

  /** The flag the SIGWINCH handler sets: `WINCH_HAPPENED` in src/main.rs,
      `winch_happened` in deptyr.c. */
  class SignalFlag {
    var happened: bool

    constructor ()
      ensures !happened
    {
      happened := false;
    }

    /** `handle_winch` / `do_winch`. */
    method Handle()
      modifies this
      ensures happened
    {
      happened := true;
    }
  }

  /** The relay buffer of both revisions. */
  const BUFFER_SIZE: nat := 4096

  /** Which descriptors the readiness wait reported ready. */
  datatype Ready = Ready(stdin: bool, pty: bool)

  /** The kernel's replies to one `proxy_write`: the read, then the writes. */
  datatype RelayEnv = RelayEnv(read: Result<seq<byte>, NixError>, writes: seq<Result<nat, NixError>>)

  /** The kernel's replies during one iteration of `interact_with_process`: the resize
      (used only if the flag is set), the pselect, whether SIGWINCH was handled
      while pselect had it unblocked, and the two relays (each used only if its side
      is ready). */
  datatype Tick = Tick(resize: ResizeEnv, wait: Result<Ready, NixError>, signal: bool,
                       fromPty: RelayEnv, fromStdin: RelayEnv)

  /** A read never returns more than the buffer holds. */
  predicate Fits(t: Tick) {
    && (t.fromPty.read.Ok? ==> |t.fromPty.read.value| <= BUFFER_SIZE)
    && (t.fromStdin.read.Ok? ==> |t.fromStdin.read.value| <= BUFFER_SIZE)
  }

  /** After an iteration: loop again, or return from the session. */
  datatype Next = Again | Stop(res: Outcome<Result<(), NixError>>)

  /** The actions of one iteration, the flag afterwards, and what follows. */
  datatype Iteration = Iteration(trace: seq<Action>, winch: bool, next: Next)

  /** A relay that does not let the loop go on: end of file is a normal return. */
  function Finish(res: Outcome<Result<bool, NixError>>): Outcome<Result<(), NixError>> {
    match res
    case Pending => Pending
    case Returned(Ok(_)) => Returned(Ok(()))
    case Returned(Err(e)) => Returned(Err(e))
  }

  /** A relay that lets the loop go on. */
  const GoOn: Outcome<Result<bool, NixError>> := Returned(Ok(false))

  /** The resize at the top of an iteration, when the flag is set. */
  function Precheck(pty: RawFd, winch: bool, t: Tick): Resized {
    if winch then ResizePty(STDIN, pty, t.resize) else Resized(Ok(()), [])
  }

  /** One iteration of the loop of `interact_with_process(pty)`. */
  function RustIteration(pty: RawFd, winch: bool, t: Tick): (it: Iteration) {
    var pre := Precheck(pty, winch, t);
    if pre.res.Err? then Iteration(pre.trace, false, Stop(Returned(Err(pre.res.error))))
    else
      var waited := pre.trace + [Wait];
      match t.wait
      case Err(e) => Iteration(waited, t.signal, if e == INTERRUPTED then Again else Stop(Returned(Err(e))))
      case Ok(ready) =>
        var a := if ready.pty then RelayChunk(pty, STDOUT, t.fromPty.read, t.fromPty.writes)
                 else Relayed(GoOn, [], 0);
        if a.res != GoOn then Iteration(waited + a.trace, t.signal, Stop(Finish(a.res)))
        else
          var b := if ready.stdin then RelayChunk(STDIN, pty, t.fromStdin.read, t.fromStdin.writes)
                   else Relayed(GoOn, [], 0);
          Iteration(waited + a.trace + b.trace, t.signal, if b.res != GoOn then Stop(Finish(b.res)) else Again)
  }

  /** A session: its actions, the flag at its end, and how it ended. */
  datatype Session = Session(trace: seq<Action>, winch: bool, res: Outcome<Result<(), NixError>>)

  /** The loop of `interact_with_process` over the kernel's replies, one tick per iteration. */
  function RunTicks(pty: RawFd, winch: bool, ticks: seq<Tick>): Session
    decreases |ticks|, 0
  {
    if |ticks| == 0 then Session([], winch, Pending)
    else Follow(pty, RustIteration(pty, winch, ticks[0]), ticks[1..])
  }

  /** The session after iteration `it`, with `ticks` left for the iterations after it. */
  function Follow(pty: RawFd, it: Iteration, ticks: seq<Tick>): Session
    decreases |ticks|, 1
  {
    match it.next
    case Stop(res) => Session(it.trace, it.winch, res)
    case Again =>
      var s := RunTicks(pty, it.winch, ticks);
      Session(it.trace + s.trace, s.winch, s.res)
  }

  /** `interact_with_process(pty)`: one resize before the loop, then the loop. A
      failed first resize returns its error before anything is waited for. */
  function InteractSpec(pty: RawFd, winch: bool, initial: ResizeEnv, ticks: seq<Tick>): (s: Session)
    ensures |s.trace| >= 2 && s.trace[..2] == [GetWinsize(STDIN), SetWinsize(pty, Chosen(initial))]
    ensures initial.update.Err? ==>
              s.res == Returned(Err(initial.update.error)) && |s.trace| == 2 && s.winch == winch
    ensures initial.update.Ok? ==> s.res == RunTicks(pty, winch, ticks).res && s.winch == RunTicks(pty, winch, ticks).winch
  {
    var z := ResizePty(STDIN, pty, initial);
    if z.res.Err? then Session(z.trace, winch, Returned(Err(z.res.error)))
    else
      var s := RunTicks(pty, winch, ticks);
      Session(z.trace + s.trace, s.winch, s.res)
  }

  /** One iteration of the loop of `interact_with_process`, on the static flag and
      the relay buffer. */
  method RustIterate(pty: RawFd, flag: SignalFlag, buffer: array<byte>, t: Tick)
    returns (next: Next, trace: seq<Action>)
    requires Fits(t) && buffer.Length == BUFFER_SIZE
    modifies flag, buffer
    ensures Iteration(trace, flag.happened, next) == RustIteration(pty, old(flag.happened), t)
  {
    trace := [];
    if flag.happened {
      flag.happened := false;
      var z := ResizePty(STDIN, pty, t.resize);
      trace := z.trace;
      if z.res.Err? {
        return Stop(Returned(Err(z.res.error))), trace;
      }
    }
    trace := trace + [Wait];
    if t.signal {
      flag.Handle();
    }
    if t.wait.Err? {
      if t.wait.error == INTERRUPTED {
        return Again, trace;
      }
      return Stop(Returned(Err(t.wait.error))), trace;
    }
    var ready := t.wait.value;
    if ready.pty {
      var res, relayed, _ := ProxyWrite(buffer, pty, STDOUT, t.fromPty.read, t.fromPty.writes);
      trace := trace + relayed;
      if res != GoOn {
        return Stop(Finish(res)), trace;
      }
    }
    ghost var mid := trace;
    if ready.stdin {
      var res, relayed, _ := ProxyWrite(buffer, STDIN, pty, t.fromStdin.read, t.fromStdin.writes);
      trace := trace + relayed;
      if res != GoOn {
        return Stop(Finish(res)), trace;
      }
    } else {
      assert trace == mid + [];
    }
    next := Again;
  }

  /** RunTicks, one iteration at a time. */
  lemma RunTicksUnfold(pty: RawFd, winch: bool, ticks: seq<Tick>, i: nat)
    requires i < |ticks|
    ensures RunTicks(pty, winch, ticks[i..]) == Follow(pty, RustIteration(pty, winch, ticks[i]), ticks[i + 1..])
  {
    assert ticks[i..][0] == ticks[i];
    assert ticks[i..][1..] == ticks[i + 1..];
  }

  /** `interact_with_process(pty)` of src/main.rs, on the replies of a whole session.
      The signal mask and handler installation before the first resize are not modelled. */
  method InteractWithProcess(pty: RawFd, flag: SignalFlag, initial: ResizeEnv, ticks: seq<Tick>)
    returns (res: Outcome<Result<(), NixError>>, trace: seq<Action>)
    requires forall i :: 0 <= i < |ticks| ==> Fits(ticks[i])
    modifies flag
    ensures Session(trace, flag.happened, res) == InteractSpec(pty, old(flag.happened), initial, ticks)
  {
    var buffer := new byte[BUFFER_SIZE];
    var z := ResizePty(STDIN, pty, initial);
    trace := z.trace;
    if z.res.Err? {
      return Returned(Err(z.res.error)), trace;
    }
    ghost var whole := RunTicks(pty, flag.happened, ticks);
    var looped: seq<Action> := [];
    var i := 0;
    assert ticks[0..] == ticks;
    while i < |ticks|
      invariant 0 <= i <= |ticks|
      invariant buffer.Length == BUFFER_SIZE
      invariant whole == LoopFrom(pty, flag.happened, ticks, i, looped)
      decreases |ticks| - i
    {
      ghost var before := flag.happened;
      RunTicksUnfold(pty, before, ticks, i);
      var next, tr := RustIterate(pty, flag, buffer, ticks[i]);
      LoopStep(pty, before, ticks, i, looped, Iteration(tr, flag.happened, next));
      looped := looped + tr;
      i := i + 1;
      if next.Stop? {
        return next.res, trace + looped;
      }
    }
    assert ticks[i..] == [];
    res, trace := Pending, trace + looped;
  }

  /** One step of the loop of `InteractWithProcess`. */
  lemma LoopStep(pty: RawFd, winch: bool, ticks: seq<Tick>, i: nat, looped: seq<Action>, it: Iteration)
    requires i < |ticks| && RunTicks(pty, winch, ticks[i..]) == Follow(pty, it, ticks[i + 1..])
    ensures it.next.Stop? ==> LoopFrom(pty, winch, ticks, i, looped) == Session(looped + it.trace, it.winch, it.next.res)
    ensures it.next.Again? ==>
              LoopFrom(pty, winch, ticks, i, looped) == LoopFrom(pty, it.winch, ticks, i + 1, looped + it.trace)
  {
    if it.next.Again? {
      var rest := RunTicks(pty, it.winch, ticks[i + 1..]);
      assert looped + (it.trace + rest.trace) == looped + it.trace + rest.trace;
    }
  }

  /** The session seen from iteration `i`, after the iterations before it recorded `looped`. */
  ghost function LoopFrom(pty: RawFd, winch: bool, ticks: seq<Tick>, i: nat, looped: seq<Action>): Session
    requires i <= |ticks|
  {
    var s := RunTicks(pty, winch, ticks[i..]);
    Session(looped + s.trace, s.winch, s.res)
  }

  /** `a` is a read, successful or not, of `fd`. */
  predicate ReadsFrom(a: Action, fd: RawFd) {
    (a.Read? || a.ReadFailed?) && a.fd == fd
  }

  /** The top of an iteration: the resize runs first, and only when the flag was set;
      the wait follows unless that resize failed, and afterwards the flag says whether
      SIGWINCH was handled during the wait. A failed resize leaves the flag cleared. */
  lemma IterationBegins(pty: RawFd, winch: bool, t: Tick)
    ensures var it := RustIteration(pty, winch, t);
            && (winch ==> |it.trace| >= 2 && it.trace[..2] == [GetWinsize(STDIN), SetWinsize(pty, Chosen(t.resize))])
            && (!winch ==> |it.trace| >= 1 && it.trace[0] == Wait)
            && (Wait in it.trace <==> !winch || t.resize.update.Ok?)
            && (Wait in it.trace ==> it.winch == t.signal)
            && (Wait !in it.trace ==> !it.winch && it.next == Stop(Returned(Err(t.resize.update.error))))
  {
  }

  /** A wait interrupted by the handler reads nothing and starts the next iteration. */
  lemma InterruptedWaitContinues(pty: RawFd, winch: bool, t: Tick)
    requires !winch || t.resize.update.Ok?
    requires t.wait == Err(INTERRUPTED)
    ensures var it := RustIteration(pty, winch, t);
            && it.next == Again
            && it.trace == Precheck(pty, winch, t).trace + [Wait]
            && forall a :: a in it.trace ==> !a.Read? && !a.ReadFailed? && !a.Write?
  {
  }

  /** Any other failure of the wait ends the session with that error, before any read. */
  lemma FailedWaitStops(pty: RawFd, winch: bool, t: Tick)
    requires !winch || t.resize.update.Ok?
    requires t.wait.Err? && t.wait.error != INTERRUPTED
    ensures var it := RustIteration(pty, winch, t);
            && it.next == Stop(Returned(Err(t.wait.error)))
            && it.trace[|it.trace| - 1] == Wait
            && forall a :: a in it.trace ==> !a.Read? && !a.ReadFailed? && !a.Write?
  {
  }

  /** When both sides are ready the PTY is served first: no read of the PTY follows a
      read of stdin, and a read of stdin is preceded by a read of the PTY. */
  lemma PtyBeforeStdin(pty: RawFd, winch: bool, t: Tick)
    requires pty != STDIN
    ensures var it := RustIteration(pty, winch, t);
            forall j, k :: 0 <= j < k < |it.trace| && ReadsFrom(it.trace[j], STDIN) ==> !ReadsFrom(it.trace[k], pty)
    ensures var it := RustIteration(pty, winch, t);
            t.wait.Ok? && t.wait.value.pty ==>
              forall k :: 0 <= k < |it.trace| && ReadsFrom(it.trace[k], STDIN) ==>
                exists j :: 0 <= j < k && ReadsFrom(it.trace[j], pty)
  {
    var it := RustIteration(pty, winch, t);
    var pre := Precheck(pty, winch, t);
    var head := pre.trace + [Wait];
    assert forall k :: 0 <= k < |pre.trace| ==> !ReadsFrom(pre.trace[k], STDIN) && !ReadsFrom(pre.trace[k], pty);
    if pre.res.Err? {
      assert it.trace == pre.trace + [] + [];
      ServedInOrder(pre.trace, [], [], pty, STDIN);
    } else if t.wait.Err? {
      assert it.trace == head + [] + [];
      ServedInOrder(head, [], [], pty, STDIN);
    } else {
      var ready := t.wait.value;
      var a := if ready.pty then RelayChunk(pty, STDOUT, t.fromPty.read, t.fromPty.writes)
               else Relayed(GoOn, [], 0);
      var b := if a.res == GoOn && ready.stdin then RelayChunk(STDIN, pty, t.fromStdin.read, t.fromStdin.writes)
               else Relayed(GoOn, [], 0);
      assert it.trace == head + a.trace + b.trace;
      RelayReadsOne(ready.pty, pty, STDOUT, t.fromPty, STDIN);
      RelayReadsOne(a.res == GoOn && ready.stdin, STDIN, pty, t.fromStdin, pty);
      ServedInOrder(head, a.trace, b.trace, pty, STDIN);
    }
  }

  /** A relay, if it runs, reads its own side first and never reads `other`. */
  lemma RelayReadsOne(active: bool, r: RawFd, w: RawFd, env: RelayEnv, other: RawFd)
    requires other != r
    ensures var x := if active then RelayChunk(r, w, env.read, env.writes) else Relayed(GoOn, [], 0);
            && (forall k :: 0 <= k < |x.trace| ==> !ReadsFrom(x.trace[k], other))
            && (active ==> |x.trace| > 0 && ReadsFrom(x.trace[0], r))
  {
  }

  /** Reads in `head + a + b`, where `head` reads neither `first` nor `second`, `a`
      does not read `second` and `b` does not read `first`: no read of `first`
      follows a read of `second`, and when `a` begins with a read of `first`, every
      read of `second` comes after one. */
  lemma ServedInOrder(head: seq<Action>, a: seq<Action>, b: seq<Action>, first: RawFd, second: RawFd)
    requires first != second
    requires forall k :: 0 <= k < |head| ==> !ReadsFrom(head[k], first) && !ReadsFrom(head[k], second)
    requires forall k :: 0 <= k < |a| ==> !ReadsFrom(a[k], second)
    requires forall k :: 0 <= k < |b| ==> !ReadsFrom(b[k], first)
    ensures var t := head + a + b;
            forall j, k :: 0 <= j < k < |t| && ReadsFrom(t[j], second) ==> !ReadsFrom(t[k], first)
    ensures var t := head + a + b;
            |a| > 0 && ReadsFrom(a[0], first) ==>
              forall k :: 0 <= k < |t| && ReadsFrom(t[k], second) ==> exists j :: 0 <= j < k && ReadsFrom(t[j], first)
  {
    var t := head + a + b;
    forall j, k | 0 <= j < k < |t| && ReadsFrom(t[j], second)
      ensures !ReadsFrom(t[k], first)
    {
      assert t[k] == b[k - |head| - |a|];
    }
    if |a| > 0 && ReadsFrom(a[0], first) {
      assert t[|head|] == a[0];
      forall k | 0 <= k < |t| && ReadsFrom(t[k], second)
        ensures exists j :: 0 <= j < k && ReadsFrom(t[j], first)
      {
      }
    }
  }

  /** End of file on either side is a normal return, and is exactly the case where the
      iteration's last action is a read that returned nothing. */
  lemma EndOfFileStops(pty: RawFd, winch: bool, t: Tick)
    ensures var it := RustIteration(pty, winch, t);
            it.next == Stop(Returned(Ok(()))) <==>
              |it.trace| > 0 && it.trace[|it.trace| - 1].Read? && it.trace[|it.trace| - 1].data == []
    ensures var it := RustIteration(pty, winch, t);
            it.next == Stop(Returned(Ok(()))) ==>
              it.trace[|it.trace| - 1] == Read(pty, []) || it.trace[|it.trace| - 1] == Read(STDIN, [])
  {
    var it := RustIteration(pty, winch, t);
    var pre := Precheck(pty, winch, t);
    if pre.res.Ok? && t.wait.Ok? {
      var ready := t.wait.value;
      var a := if ready.pty then RelayChunk(pty, STDOUT, t.fromPty.read, t.fromPty.writes)
               else Relayed(GoOn, [], 0);
      var head := pre.trace + [Wait];
      if a.res == GoOn {
        var b := if ready.stdin then RelayChunk(STDIN, pty, t.fromStdin.read, t.fromStdin.writes)
                 else Relayed(GoOn, [], 0);
        assert it.trace == head + a.trace + b.trace;
        if b.trace == [] {
          assert a.trace == [] || a.trace[|a.trace| - 1].Write?;
        }
      } else {
        assert it.trace == head + a.trace;
      }
    }
  }

  /** When the PTY's relay ends the session, stdin is not read in that iteration. */
  lemma PtyStopSkipsStdin(pty: RawFd, winch: bool, t: Tick)
    requires pty != STDIN
    requires !winch || t.resize.update.Ok?
    requires t.wait.Ok? && t.wait.value.pty
    requires RelayChunk(pty, STDOUT, t.fromPty.read, t.fromPty.writes).res != GoOn
    ensures var it := RustIteration(pty, winch, t);
            && it.next.Stop?
            && forall a :: a in it.trace ==> !ReadsFrom(a, STDIN)
  {
  }

  /** The bytes the successful reads of `fd` in `trace` returned, in order. */
  function ReadBytes(trace: seq<Action>, fd: RawFd): seq<byte>
  {
    if trace == [] then []
    else
      var last := trace[|trace| - 1];
      ReadBytes(trace[..|trace| - 1], fd) + (if last.Read? && last.fd == fd then last.data else [])
  }

  /** The bytes `fd` accepted from the writes in `trace`, in order. */
  function Written(trace: seq<Action>, fd: RawFd): seq<byte>
  {
    if trace == [] then []
    else
      var last := trace[|trace| - 1];
      Written(trace[..|trace| - 1], fd) + (if last.Write? && last.fd == fd then last.data else [])
  }

  lemma {:induction false} ReadBytesAppend(s: seq<Action>, u: seq<Action>, fd: RawFd)
    ensures ReadBytes(s + u, fd) == ReadBytes(s, fd) + ReadBytes(u, fd)
    decreases |u|
  {
    if u == [] {
      assert s + u == s;
    } else {
      var v := u[..|u| - 1];
      var last := u[|u| - 1];
      var piece := if last.Read? && last.fd == fd then last.data else [];
      assert (s + u)[..|s + u| - 1] == s + v;
      assert (s + u)[|s + u| - 1] == last;
      assert ReadBytes(s + u, fd) == ReadBytes(s + v, fd) + piece;
      assert ReadBytes(u, fd) == ReadBytes(v, fd) + piece;
      ReadBytesAppend(s, v, fd);
      assert ReadBytes(s, fd) + ReadBytes(v, fd) + piece == ReadBytes(s, fd) + (ReadBytes(v, fd) + piece);
    }
  }

  lemma {:induction false} WrittenAppend(s: seq<Action>, u: seq<Action>, fd: RawFd)
    ensures Written(s + u, fd) == Written(s, fd) + Written(u, fd)
    decreases |u|
  {
    if u == [] {
      assert s + u == s;
    } else {
      var v := u[..|u| - 1];
      var last := u[|u| - 1];
      var piece := if last.Write? && last.fd == fd then last.data else [];
      assert (s + u)[..|s + u| - 1] == s + v;
      assert (s + u)[|s + u| - 1] == last;
      assert Written(s + u, fd) == Written(s + v, fd) + piece;
      assert Written(u, fd) == Written(v, fd) + piece;
      WrittenAppend(s, v, fd);
      assert Written(s, fd) + Written(v, fd) + piece == Written(s, fd) + (Written(v, fd) + piece);
    }
  }

  /** `w` is handed a prefix of what `trace` read from `r`. */
  predicate Forwards(trace: seq<Action>, r: RawFd, w: RawFd) {
    Written(trace, w) <= ReadBytes(trace, r)
  }

  /** `w` is handed all that `trace` read from `r`. */
  predicate ForwardsAll(trace: seq<Action>, r: RawFd, w: RawFd) {
    Written(trace, w) == ReadBytes(trace, r)
  }

  /** One chunk relayed from `r` to `w`: `w` accepts a prefix of the chunk, all of it
      when the relay lets the loop go on; no other descriptor is read or written. */
  lemma RelayChunkForwards(r: RawFd, w: RawFd, read: Result<seq<byte>, NixError>,
                           writes: seq<Result<nat, NixError>>, fd: RawFd)
    ensures var x := RelayChunk(r, w, read, writes);
            && Forwards(x.trace, r, w)
            && (x.res.Returned? && x.res.value.Ok? ==> ForwardsAll(x.trace, r, w))
            && (fd != w ==> Written(x.trace, fd) == [])
            && (fd != r ==> ReadBytes(x.trace, fd) == [])
  {
    var x := RelayChunk(r, w, read, writes);
    if read.Err? {
      assert x.trace == [ReadFailed(r)];
      PairBytes(ReadFailed(r), Wait, fd);
      PairBytes(ReadFailed(r), Wait, w);
    } else if read.value == [] {
      assert x.trace == [Read(r, [])];
      PairBytes(Read(r, []), Wait, fd);
      PairBytes(Read(r, []), Wait, w);
    } else {
      var data := read.value;
      var put := x.trace[1];
      assert x.trace == [Read(r, data), put];
      ReadThenWriteForwards(r, w, data, put, fd);
    }
  }

  /** A read of `data` from `r` followed by a write to `w` of a prefix of it. */
  lemma ReadThenWriteForwards(r: RawFd, w: RawFd, data: seq<byte>, put: Action, fd: RawFd)
    requires put.Write? && put.fd == w && put.data <= data
    ensures Forwards([Read(r, data), put], r, w)
    ensures put.data == data ==> ForwardsAll([Read(r, data), put], r, w)
    ensures fd != w ==> Written([Read(r, data), put], fd) == []
    ensures fd != r ==> ReadBytes([Read(r, data), put], fd) == []
  {
    PairBytes(Read(r, data), put, r);
    PairBytes(Read(r, data), put, w);
    PairBytes(Read(r, data), put, fd);
  }

  /** The bytes of a trace of one or two actions. */
  lemma PairBytes(a: Action, b: Action, fd: RawFd)
    ensures ReadBytes([a], fd) == (if a.Read? && a.fd == fd then a.data else [])
    ensures Written([a], fd) == (if a.Write? && a.fd == fd then a.data else [])
    ensures ReadBytes([a, b], fd) == ReadBytes([a], fd) + (if b.Read? && b.fd == fd then b.data else [])
    ensures Written([a, b], fd) == Written([a], fd) + (if b.Write? && b.fd == fd then b.data else [])
  {
    assert [a][..0] == [];
    assert [a, b][..1] == [a];
  }

  /** No action of `trace` reads or writes data. */
  predicate Quiet(trace: seq<Action>) {
    forall k :: 0 <= k < |trace| ==> !trace[k].Read? && !trace[k].Write?
  }

  lemma {:induction false} QuietBytes(trace: seq<Action>, fd: RawFd)
    requires Quiet(trace)
    ensures ReadBytes(trace, fd) == [] && Written(trace, fd) == []
    decreases |trace|
  {
    if trace != [] {
      QuietBytes(trace[..|trace| - 1], fd);
    }
  }

  /** The prefix of a concatenation. */
  lemma PrefixAppend(a: seq<byte>, b: seq<byte>, c: seq<byte>, d: seq<byte>)
    requires a <= c && (b != [] ==> a == c) && b <= d
    ensures a + b <= c + d
  {
    if b != [] {
      assert (a + b) == (c + d)[..|a + b|];
    }
  }

  /** An iteration's trace is a quiet head, the PTY-to-stdout relay, and the
      stdin-to-PTY relay, each touching only its own two descriptors. */
  lemma SegmentsForward(pty: RawFd, head: seq<Action>, x: seq<Action>, y: seq<Action>)
    requires Quiet(head)
    requires Forwards(x, pty, STDOUT) && Written(x, pty) == [] && ReadBytes(x, STDIN) == []
    requires Forwards(y, STDIN, pty) && Written(y, STDOUT) == [] && ReadBytes(y, pty) == []
    ensures Forwards(head + x + y, pty, STDOUT) && Forwards(head + x + y, STDIN, pty)
    ensures ForwardsAll(x, pty, STDOUT) && ForwardsAll(y, STDIN, pty) ==>
              ForwardsAll(head + x + y, pty, STDOUT) && ForwardsAll(head + x + y, STDIN, pty)
  {
    QuietBytes(head, pty);
    QuietBytes(head, STDIN);
    QuietBytes(head, STDOUT);
    ReadBytesAppend(head, x, pty);
    ReadBytesAppend(head, x, STDIN);
    WrittenAppend(head, x, pty);
    WrittenAppend(head, x, STDOUT);
    ReadBytesAppend(head + x, y, pty);
    ReadBytesAppend(head + x, y, STDIN);
    WrittenAppend(head + x, y, pty);
    WrittenAppend(head + x, y, STDOUT);
  }

  /** What a relay of one side contributes to an iteration: the relay itself, or
      nothing when that side was not ready. */
  lemma SideForwards(active: bool, r: RawFd, w: RawFd, env: RelayEnv, other: RawFd)
    requires r != w && other != r && other != w
    ensures var x := if active then RelayChunk(r, w, env.read, env.writes) else Relayed(GoOn, [], 0);
            && Forwards(x.trace, r, w)
            && (x.res.Returned? && x.res.value.Ok? ==> ForwardsAll(x.trace, r, w))
            && Written(x.trace, r) == [] && ReadBytes(x.trace, other) == []
            && Written(x.trace, other) == [] && ReadBytes(x.trace, w) == []
  {
    if active {
      RelayChunkForwards(r, w, env.read, env.writes, other);
      RelayChunkForwards(r, w, env.read, env.writes, r);
      RelayChunkForwards(r, w, env.read, env.writes, w);
    } else {
      QuietBytes([], r);
      QuietBytes([], w);
      QuietBytes([], other);
    }
  }

  /** One iteration relays a prefix of what it read from the PTY to stdout and of what
      it read from stdin to the PTY; all of both when it goes on or ends normally. */
  lemma IterationForwards(pty: RawFd, winch: bool, t: Tick)
    requires pty != STDIN && pty != STDOUT
    ensures var it := RustIteration(pty, winch, t);
            && Forwards(it.trace, pty, STDOUT) && Forwards(it.trace, STDIN, pty)
            && (it.next == Again || it.next == Stop(Returned(Ok(()))) ==>
                  ForwardsAll(it.trace, pty, STDOUT) && ForwardsAll(it.trace, STDIN, pty))
  {
    var it := RustIteration(pty, winch, t);
    var pre := Precheck(pty, winch, t);
    var head := pre.trace + [Wait];
    assert Quiet(pre.trace) && Quiet(head);
    QuietBytes([], pty);
    QuietBytes([], STDIN);
    if pre.res.Err? {
      SegmentsForward(pty, pre.trace, [], []);
      assert it.trace == pre.trace + [] + [];
    } else if t.wait.Err? {
      SegmentsForward(pty, head, [], []);
      assert it.trace == head + [] + [];
    } else {
      var ready := t.wait.value;
      ReadyForwards(pty, head, ready, t);
      var a := if ready.pty then RelayChunk(pty, STDOUT, t.fromPty.read, t.fromPty.writes)
               else Relayed(GoOn, [], 0);
      if a.res != GoOn {
        assert it.trace == head + a.trace + [];
      }
    }
  }

  /** The relays of an iteration whose wait reported `ready`, after the quiet `head`. */
  lemma ReadyForwards(pty: RawFd, head: seq<Action>, ready: Ready, t: Tick)
    requires pty != STDIN && pty != STDOUT
    requires Quiet(head)
    ensures var a := if ready.pty then RelayChunk(pty, STDOUT, t.fromPty.read, t.fromPty.writes)
                     else Relayed(GoOn, [], 0);
            var b := if a.res == GoOn && ready.stdin then RelayChunk(STDIN, pty, t.fromStdin.read, t.fromStdin.writes)
                     else Relayed(GoOn, [], 0);
            var trace := head + a.trace + b.trace;
            && Forwards(trace, pty, STDOUT) && Forwards(trace, STDIN, pty)
            && (a.res.Returned? && a.res.value.Ok? && b.res.Returned? && b.res.value.Ok? ==>
                  ForwardsAll(trace, pty, STDOUT) && ForwardsAll(trace, STDIN, pty))
  {
    var a := if ready.pty then RelayChunk(pty, STDOUT, t.fromPty.read, t.fromPty.writes)
             else Relayed(GoOn, [], 0);
    SideForwards(ready.pty, pty, STDOUT, t.fromPty, STDIN);
    var b := if a.res == GoOn && ready.stdin then RelayChunk(STDIN, pty, t.fromStdin.read, t.fromStdin.writes)
             else Relayed(GoOn, [], 0);
    SideForwards(a.res == GoOn && ready.stdin, STDIN, pty, t.fromStdin, STDOUT);
    SegmentsForward(pty, head, a.trace, b.trace);
  }

  /** The loop relays, in order, a prefix of what it read from each side to the other;
      a session that ends normally relays all of it. */
  lemma {:induction false} SessionForwards(pty: RawFd, winch: bool, ticks: seq<Tick>)
    requires pty != STDIN && pty != STDOUT
    ensures var s := RunTicks(pty, winch, ticks);
            && Forwards(s.trace, pty, STDOUT) && Forwards(s.trace, STDIN, pty)
            && (s.res == Returned(Ok(())) ==> ForwardsAll(s.trace, pty, STDOUT) && ForwardsAll(s.trace, STDIN, pty))
    decreases |ticks|
  {
    if ticks == [] {
      QuietBytes([], pty);
      QuietBytes([], STDIN);
    } else {
      var it := RustIteration(pty, winch, ticks[0]);
      IterationForwards(pty, winch, ticks[0]);
      if it.next.Again? {
        var rest := RunTicks(pty, it.winch, ticks[1..]);
        SessionForwards(pty, it.winch, ticks[1..]);
        ReadBytesAppend(it.trace, rest.trace, pty);
        ReadBytesAppend(it.trace, rest.trace, STDIN);
        WrittenAppend(it.trace, rest.trace, pty);
        WrittenAppend(it.trace, rest.trace, STDOUT);
        PrefixAppend(Written(it.trace, STDOUT), Written(rest.trace, STDOUT),
                     ReadBytes(it.trace, pty), ReadBytes(rest.trace, pty));
        PrefixAppend(Written(it.trace, pty), Written(rest.trace, pty),
                     ReadBytes(it.trace, STDIN), ReadBytes(rest.trace, STDIN));
      }
    }
  }

  /** `interact_with_process` relays, in order and without loss or invention, what it
      reads from the PTY to stdout and what it reads from stdin to the PTY: a prefix
      of it whatever happens, all of it when it returns `Ok(())`. */
  lemma InteractForwards(pty: RawFd, winch: bool, initial: ResizeEnv, ticks: seq<Tick>)
    requires pty != STDIN && pty != STDOUT
    ensures var s := InteractSpec(pty, winch, initial, ticks);
            && Forwards(s.trace, pty, STDOUT) && Forwards(s.trace, STDIN, pty)
            && (s.res == Returned(Ok(())) ==> ForwardsAll(s.trace, pty, STDOUT) && ForwardsAll(s.trace, STDIN, pty))
  {
    var z := ResizePty(STDIN, pty, initial);
    assert Quiet(z.trace);
    QuietBytes(z.trace, pty);
    QuietBytes(z.trace, STDIN);
    QuietBytes(z.trace, STDOUT);
    if z.res.Ok? {
      var s := RunTicks(pty, winch, ticks);
      SessionForwards(pty, winch, ticks);
      ReadBytesAppend(z.trace, s.trace, pty);
      ReadBytesAppend(z.trace, s.trace, STDIN);
      WrittenAppend(z.trace, s.trace, pty);
      WrittenAppend(z.trace, s.trace, STDOUT);
    }
  }
}
