/** The proxy loop of the C revision: `do_proxy` in deptyr.c. It differs from the
    Rust one in three ways: stdin is served before the PTY, a 0-byte read of stdin
    does not end the loop (only a failed one does), and what `writeall` reports is
    ignored, so a failed write drops the rest of its chunk and the loop goes on. */
module CProxy {
  import opened Os
  import opened Relay
  import opened WindowSize
  import opened Proxy

  /** The kernel's replies to one relay of do_proxy: the read, then the writes of
      `writeall`. */
  datatype CRelayEnv = CRelayEnv(read: Result<seq<byte>, Errno>, writes: seq<SysRet>)

  /** The kernel's replies during one iteration of do_proxy: the resize (used only if
      the flag is set), the select, whether SIGWINCH was handled during the
      iteration, and the two relays (each used only if its side is ready). A select
      that timed out reports neither side ready. */
  datatype CTick = CTick(resize: CResizeEnv, wait: Result<Ready, Errno>, signal: bool,
                         fromStdin: CRelayEnv, fromPty: CRelayEnv)

  /** A read never returns more than the buffer holds. */
  predicate CFits(t: CTick) {
    && (t.fromStdin.read.Ok? ==> |t.fromStdin.read.value| <= BUFFER_SIZE)
    && (t.fromPty.read.Ok? ==> |t.fromPty.read.value| <= BUFFER_SIZE)
  }

  /** After one relay or iteration: loop again, return from do_proxy, or stay inside
      a `writeall` whose scripted replies ran out. */
  datatype CNext = Loop | Exit | Stuck

  datatype CRelayed = CRelayed(trace: seq<Action>, next: CNext)

  /** One relay of do_proxy from `r` to `w`: read a chunk, then `writeall` it,
      ignoring what `writeall` returns. A failed read returns from do_proxy; so does
      a 0-byte read when `eofEnds` (the PTY side) but not otherwise (the stdin side),
      and a 0-byte chunk makes no write call. */
  function CRelayChunk(r: RawFd, w: RawFd, env: CRelayEnv, eofEnds: bool): (x: CRelayed)
    ensures x.next == Exit <==> env.read.Err? || (eofEnds && env.read == Ok([]))
    ensures |x.trace| >= 1
    ensures env.read.Err? ==> x.trace[0] == ReadFailed(r)
    ensures env.read.Ok? ==> x.trace[0] == Read(r, env.read.value)
    ensures env.read.Ok? && env.read.value != [] ==>
              |x.trace| == 2 && x.trace[1].Write? && x.trace[1].fd == w && x.trace[1].data <= env.read.value
    ensures env.read.Ok? && env.read.value != [] && Failed !in CReplies(env.writes) ==>
              x.next == Loop ==> x.trace[1].data == env.read.value
  {
    match env.read
    case Err(_) => CRelayed([ReadFailed(r)], Exit)
    case Ok(data) =>
      if data == [] then CRelayed([Read(r, [])], if eofEnds then Exit else Loop)
      else
        var d := Drain(data, CReplies(env.writes));
        DrainFacts(data, CReplies(env.writes));
        CRelayed([Read(r, data), Write(w, d.written)], if d.end == OutOfReplies then Stuck else Loop)
  }

  datatype CIteration = CIteration(trace: seq<Action>, winch: bool, next: CNext)

  const SELECT_FAILED: string := "select: %m"

  /** One iteration of the loop of `do_proxy(pty)`. */
  function CIterationSpec(pty: RawFd, winch: bool, t: CTick): CIteration {
    var waited := (if winch then CResizePty(pty, t.resize) else []) + [Wait];
    match t.wait
    case Err(e) =>
      if e == EINTR then CIteration(waited, t.signal, Loop)
      else CIteration(waited + [Log(SELECT_FAILED)], t.signal, Exit)
    case Ok(ready) =>
      var a := if ready.stdin then CRelayChunk(STDIN, pty, t.fromStdin, false) else CRelayed([], Loop);
      if a.next != Loop then CIteration(waited + a.trace, t.signal, a.next)
      else
        var b := if ready.pty then CRelayChunk(pty, STDOUT, t.fromPty, true) else CRelayed([], Loop);
        CIteration(waited + a.trace + b.trace, t.signal, b.next)
  }

  /** A run of do_proxy: its actions, the flag at its end, and how it ended (`Loop`
      when the ticks ran out while it was still looping). */
  datatype CSession = CSession(trace: seq<Action>, winch: bool, next: CNext)

  /** The loop of do_proxy over the kernel's replies, one tick per iteration. */
  function CRunTicks(pty: RawFd, winch: bool, ticks: seq<CTick>): CSession
    decreases |ticks|
  {
    if |ticks| == 0 then CSession([], winch, Loop)
    else
      var it := CIterationSpec(pty, winch, ticks[0]);
      if it.next != Loop then CSession(it.trace, it.winch, it.next)
      else
        var s := CRunTicks(pty, it.winch, ticks[1..]);
        CSession(it.trace + s.trace, s.winch, s.next)
  }

  /** The read of one relay of do_proxy into `buf`, then `writeall` of what was read. */
  method CRelay(buf: array<byte>, r: RawFd, w: RawFd, env: CRelayEnv, eofEnds: bool)
    returns (x: CRelayed)
    requires env.read.Ok? ==> |env.read.value| <= buf.Length
    modifies buf
    ensures x == CRelayChunk(r, w, env, eofEnds)
  {
    if env.read.Err? {
      return CRelayed([ReadFailed(r)], Exit);
    }
    var data := env.read.value;
    var count := |data|;
    forall j | 0 <= j < count {
      buf[j] := data[j];
    }
    assert buf[..][..count] == data;
    if count == 0 {
      if eofEnds {
        return CRelayed([Read(r, [])], Exit);
      }
      x := CRelayed([Read(r, [])], Loop);
      return;
    }
    var rv, written, _ := WriteAll(w, buf[..], count, env.writes);
    x := CRelayed([Read(r, data), Write(w, written)], if rv.Pending? then Stuck else Loop);
  }

  /** One iteration of the loop of `do_proxy`, on the global flag and the buffer. */
  method CIterate(pty: RawFd, flag: SignalFlag, buf: array<byte>, t: CTick)
    returns (next: CNext, trace: seq<Action>)
    requires CFits(t) && buf.Length == BUFFER_SIZE
    modifies flag, buf
    ensures CIteration(trace, flag.happened, next) == CIterationSpec(pty, old(flag.happened), t)
  {
    trace := [];
    if flag.happened {
      flag.happened := false;
      trace := CResizePty(pty, t.resize);
    }
    trace := trace + [Wait];
    if t.signal {
      flag.Handle();
    }
    if t.wait.Err? {
      if t.wait.error == EINTR {
        return Loop, trace;
      }
      return Exit, trace + [Log(SELECT_FAILED)];
    }
    var ready := t.wait.value;
    ghost var waited := trace;
    if ready.stdin {
      var a := CRelay(buf, STDIN, pty, t.fromStdin, false);
      trace := trace + a.trace;
      if a.next != Loop {
        return a.next, trace;
      }
    }
    ghost var mid := trace;
    assert !ready.stdin ==> mid == waited + [];
    if ready.pty {
      var b := CRelay(buf, pty, STDOUT, t.fromPty, true);
      trace := trace + b.trace;
      return b.next, trace;
    }
    assert trace == mid + [];
    next := Loop;
  }

  /** `do_proxy(pty)` of deptyr.c, on the replies of a whole run. `Loop` means the
      ticks ran out while it was still looping. */
  method DoProxy(pty: RawFd, flag: SignalFlag, ticks: seq<CTick>)
    returns (next: CNext, trace: seq<Action>)
    requires forall i :: 0 <= i < |ticks| ==> CFits(ticks[i])
    modifies flag
    ensures CSession(trace, flag.happened, next) == CRunTicks(pty, old(flag.happened), ticks)
  {
    var buf := new byte[BUFFER_SIZE];
    ghost var whole := CRunTicks(pty, flag.happened, ticks);
    trace := [];
    var i := 0;
    assert ticks[0..] == ticks;
    while i < |ticks|
      invariant 0 <= i <= |ticks|
      invariant buf.Length == BUFFER_SIZE
      invariant whole == CLoopFrom(pty, flag.happened, ticks, i, trace)
      decreases |ticks| - i
    {
      ghost var before := flag.happened;
      var n, tr := CIterate(pty, flag, buf, ticks[i]);
      CLoopStep(pty, before, ticks, i, trace, CIteration(tr, flag.happened, n));
      trace := trace + tr;
      i := i + 1;
      if n != Loop {
        return n, trace;
      }
    }
    assert ticks[i..] == [];
    next := Loop;
  }

  /** The run seen from iteration `i`, after the iterations before it recorded `looped`. */
  ghost function CLoopFrom(pty: RawFd, winch: bool, ticks: seq<CTick>, i: nat, looped: seq<Action>): CSession
    requires i <= |ticks|
  {
    var s := CRunTicks(pty, winch, ticks[i..]);
    CSession(looped + s.trace, s.winch, s.next)
  }

  /** One step of the loop of `DoProxy`. */
  lemma CLoopStep(pty: RawFd, winch: bool, ticks: seq<CTick>, i: nat, looped: seq<Action>, it: CIteration)
    requires i < |ticks| && it == CIterationSpec(pty, winch, ticks[i])
    ensures it.next != Loop ==> CLoopFrom(pty, winch, ticks, i, looped) == CSession(looped + it.trace, it.winch, it.next)
    ensures it.next == Loop ==>
              CLoopFrom(pty, winch, ticks, i, looped) == CLoopFrom(pty, it.winch, ticks, i + 1, looped + it.trace)
  {
    assert ticks[i..][0] == ticks[i] && ticks[i..][1..] == ticks[i + 1..];
    if it.next == Loop {
      var s := CRunTicks(pty, it.winch, ticks[i + 1..]);
      assert looped + (it.trace + s.trace) == looped + it.trace + s.trace;
    }
  }

  /** stdin is served before the PTY: no read of stdin follows a read of the PTY in
      one iteration, and when stdin is ready it is read before anything else. */
  lemma CStdinBeforePty(pty: RawFd, winch: bool, t: CTick)
    requires pty != STDIN
    ensures var it := CIterationSpec(pty, winch, t);
            forall j, k :: 0 <= j < k < |it.trace| && ReadsFrom(it.trace[j], pty) ==> !ReadsFrom(it.trace[k], STDIN)
    ensures var it := CIterationSpec(pty, winch, t);
            t.wait.Ok? && t.wait.value.stdin ==>
              forall k :: 0 <= k < |it.trace| && ReadsFrom(it.trace[k], pty) ==>
                exists j :: 0 <= j < k && ReadsFrom(it.trace[j], STDIN)
  {
    var it := CIterationSpec(pty, winch, t);
    var head := (if winch then CResizePty(pty, t.resize) else []) + [Wait];
    assert forall k :: 0 <= k < |head| ==> !ReadsFrom(head[k], STDIN) && !ReadsFrom(head[k], pty);
    if t.wait.Err? {
      assert it.trace == head + (if t.wait.error == EINTR then [] else [Log(SELECT_FAILED)]) + [];
      ServedInOrder(head, if t.wait.error == EINTR then [] else [Log(SELECT_FAILED)], [], STDIN, pty);
    } else {
      var ready := t.wait.value;
      var a := if ready.stdin then CRelayChunk(STDIN, pty, t.fromStdin, false) else CRelayed([], Loop);
      var b := if a.next == Loop && ready.pty then CRelayChunk(pty, STDOUT, t.fromPty, true) else CRelayed([], Loop);
      assert it.trace == head + a.trace + b.trace;
      ServedInOrder(head, a.trace, b.trace, STDIN, pty);
    }
  }

  /** When do_proxy returns: after a select error other than EINTR, a failed read of
      stdin, or a read of the PTY that failed or returned 0 bytes — and on nothing
      else. */
  lemma CExitConditions(pty: RawFd, winch: bool, t: CTick)
    ensures CIterationSpec(pty, winch, t).next == Exit <==>
              || (t.wait.Err? && t.wait.error != EINTR)
              || (t.wait.Ok? && t.wait.value.stdin && t.fromStdin.read.Err?)
              || (t.wait.Ok? && t.wait.value.pty && (!t.wait.value.stdin || CRelayChunk(STDIN, pty, t.fromStdin, false).next == Loop)
                  && (t.fromPty.read.Err? || t.fromPty.read == Ok([])))
  {
  }

  /** A 0-byte read of stdin does not end do_proxy: the iteration records the read,
      writes nothing to the PTY, and goes on exactly as it would had only the PTY
      been reported ready; with the PTY not ready it loops. */
  lemma CStdinEofContinues(pty: RawFd, winch: bool, t: CTick)
    requires t.wait.Ok? && t.wait.value.stdin && t.fromStdin.read == Ok([])
    ensures var it := CIterationSpec(pty, winch, t);
            var alone := CIterationSpec(pty, winch, t.(wait := Ok(Ready(false, t.wait.value.pty))));
            var head := (if winch then CResizePty(pty, t.resize) else []) + [Wait];
            && it.next == alone.next && it.winch == alone.winch
            && |alone.trace| >= |head| && alone.trace[..|head|] == head
            && it.trace == head + [Read(STDIN, [])] + alone.trace[|head|..]
    ensures var it := CIterationSpec(pty, winch, t);
            !t.wait.value.pty ==> it.next == Loop && it.trace[|it.trace| - 1] == Read(STDIN, [])
  {
    var it := CIterationSpec(pty, winch, t);
    var u := t.(wait := Ok(Ready(false, t.wait.value.pty)));
    var alone := CIterationSpec(pty, winch, u);
    var head := (if winch then CResizePty(pty, t.resize) else []) + [Wait];
    var b := if t.wait.value.pty then CRelayChunk(pty, STDOUT, t.fromPty, true) else CRelayed([], Loop);
    assert it.trace == head + [Read(STDIN, [])] + b.trace;
    assert alone.trace == head + [] + b.trace;
    assert alone.trace[|head|..] == b.trace;
  }

  /** An interrupted select reads nothing and loops; another failure of select logs
      it and returns, also without reading. */
  lemma CSelectFailure(pty: RawFd, winch: bool, t: CTick)
    requires t.wait.Err?
    ensures var it := CIterationSpec(pty, winch, t);
            && (it.next == Loop <==> t.wait.error == EINTR)
            && (it.next == Exit <==> t.wait.error != EINTR)
            && (t.wait.error != EINTR ==> it.trace[|it.trace| - 1] == Log(SELECT_FAILED))
            && forall k :: 0 <= k < |it.trace| ==> !it.trace[k].Read? && !it.trace[k].ReadFailed?
  {
  }

  /** The flag at the top of an iteration: when set, it is cleared and the PTY is
      resized before the select; afterwards it says whether SIGWINCH was handled
      during the iteration. */
  lemma CResizeBeforeWait(pty: RawFd, winch: bool, t: CTick)
    ensures var it := CIterationSpec(pty, winch, t);
            && it.winch == t.signal
            && (winch ==> it.trace[0] == GetWinsize(STDIN) && it.trace[1].SetWinsize? && it.trace[1].fd == pty
                          && exists k :: 1 < k < |it.trace| && it.trace[k] == Wait)
            && (!winch ==> it.trace[0] == Wait)
  {
    var it := CIterationSpec(pty, winch, t);
    var pre := if winch then CResizePty(pty, t.resize) else [];
    assert it.trace[..|pre| + 1] == pre + [Wait];
    assert it.trace[|pre|] == Wait;
  }

  /** Each chunk read is handed on in order: the PTY receives a prefix of what the
      iteration read from stdin, stdout a prefix of what it read from the PTY, and
      all of each when no write failed. */
  lemma CIterationForwards(pty: RawFd, winch: bool, t: CTick)
    requires pty != STDIN && pty != STDOUT
    ensures var it := CIterationSpec(pty, winch, t);
            && Forwards(it.trace, STDIN, pty) && Forwards(it.trace, pty, STDOUT)
    ensures var it := CIterationSpec(pty, winch, t);
            && Failed !in CReplies(t.fromStdin.writes) && Failed !in CReplies(t.fromPty.writes)
            && it.next != Stuck
            ==> ForwardsAll(it.trace, STDIN, pty) && ForwardsAll(it.trace, pty, STDOUT)
  {
    var it := CIterationSpec(pty, winch, t);
    var pre := if winch then CResizePty(pty, t.resize) else [];
    var head := pre + [Wait];
    assert Quiet(head);
    if t.wait.Err? {
      assert Quiet(it.trace);
      QuietBytes(it.trace, pty);
      QuietBytes(it.trace, STDIN);
      QuietBytes(it.trace, STDOUT);
    } else {
      var ready := t.wait.value;
      var a := if ready.stdin then CRelayChunk(STDIN, pty, t.fromStdin, false) else CRelayed([], Loop);
      var b := if a.next != Loop || !ready.pty then CRelayed([], Loop) else CRelayChunk(pty, STDOUT, t.fromPty, true);
      CSideForwards(ready.stdin, STDIN, pty, t.fromStdin, false, STDOUT);
      CSideForwards(a.next == Loop && ready.pty, pty, STDOUT, t.fromPty, true, STDIN);
      assert it.trace == head + a.trace + b.trace;
      CJoin(pty, head, a.trace, b.trace);
    }
  }

  /** An iteration of do_proxy is a quiet head, the stdin-to-PTY relay, then the
      PTY-to-stdout relay, each touching only its own two descriptors. */
  lemma CJoin(pty: RawFd, head: seq<Action>, x: seq<Action>, y: seq<Action>)
    requires pty != STDIN && pty != STDOUT
    requires Quiet(head)
    requires Forwards(x, STDIN, pty) && Written(x, STDOUT) == [] && ReadBytes(x, pty) == []
    requires Forwards(y, pty, STDOUT) && Written(y, pty) == [] && ReadBytes(y, STDIN) == []
    ensures Forwards(head + x + y, STDIN, pty) && Forwards(head + x + y, pty, STDOUT)
    ensures ForwardsAll(x, STDIN, pty) && ForwardsAll(y, pty, STDOUT) ==>
              ForwardsAll(head + x + y, STDIN, pty) && ForwardsAll(head + x + y, pty, STDOUT)
  {
    QuietBytes(head, pty);
    QuietBytes(head, STDIN);
    QuietBytes(head, STDOUT);
    ReadBytesAppend(head, x, pty);
    ReadBytesAppend(head, x, STDIN);
    WrittenAppend(head, x, pty);
    WrittenAppend(head, x, STDOUT);
    ReadBytesAppend(head + x, y, pty);
    ReadBytesAppend(head + x, y, STDIN);
    WrittenAppend(head + x, y, pty);
    WrittenAppend(head + x, y, STDOUT);
  }

  /** What one relay of do_proxy contributes to an iteration's bytes. */
  lemma CSideForwards(active: bool, r: RawFd, w: RawFd, env: CRelayEnv, eofEnds: bool, other: RawFd)
    requires r != w && other != r && other != w
    ensures var x := if active then CRelayChunk(r, w, env, eofEnds) else CRelayed([], Loop);
            && Forwards(x.trace, r, w)
            && (Failed !in CReplies(env.writes) && x.next != Stuck ==> ForwardsAll(x.trace, r, w))
            && Written(x.trace, r) == [] && ReadBytes(x.trace, other) == []
            && Written(x.trace, other) == [] && ReadBytes(x.trace, w) == []
  {
    var x := if active then CRelayChunk(r, w, env, eofEnds) else CRelayed([], Loop);
    if !active {
      QuietBytes([], r);
      QuietBytes([], w);
      QuietBytes([], other);
    } else if env.read.Err? || env.read.value == [] {
      PairBytes(x.trace[0], Wait, r);
      PairBytes(x.trace[0], Wait, w);
      PairBytes(x.trace[0], Wait, other);
    } else {
      var data := env.read.value;
      var ws := CReplies(env.writes);
      DrainFacts(data, ws);
      if Failed !in ws && x.next != Stuck {
        assert Drain(data, ws).end == AllWritten;
      }
      PairBytes(Read(r, data), x.trace[1], r);
      PairBytes(Read(r, data), x.trace[1], w);
      PairBytes(Read(r, data), x.trace[1], other);
    }
  }
}
