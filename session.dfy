/** The two subcommands of src/main.rs: `interact`, which serves the PTYs other
    processes hand it one connection at a time, and `run`, which opens a PTY, makes
    it the command's terminal, hands its controlling side over and runs the command. */
module Deptyr {
  import opened Os
  import WindowSize
  import Proxy
  import Terminal
  import Channel

  // ---------------------------------------------------------------------------
  // interact

  /** The kernel's replies while one connection is served: the accept, the
      descriptor received on the stream, `RawTermios::setup`'s two calls, the session
      with the process, and the calls of `restore`. */
  datatype Connection = Connection(
    accept: Result<RawFd, IoError>,
    recv: Result<RawFd, IoError>,
    getFails: Option<NixError>,
    setReply: Result<(), NixError>,
    initial: WindowSize.ResizeEnv,
    ticks: seq<Proxy.Tick>,
    restore: seq<Result<(), NixError>>)

  /** Every read of the session fits the relay buffer. */
  predicate Fits(c: Connection) {
    forall i :: 0 <= i < |c.ticks| ==> Proxy.Fits(c.ticks[i])
  }

  /** The line printed for a session that ended in an error (the error's own text
      is not modelled). */
  const ENCOUNTERED_ERROR: string := "Encountered error: "

  /** After one connection: accept the next, leave the loop because accept failed,
      or leave `interact` with a result. */
  datatype After = Again | ListenerDone | Exit(res: Outcome<Result<(), Error>>)

  /** One pass of the loop of `interact`: its actions, the terminal's attributes and
      the SIGWINCH flag afterwards, and what follows. */
  datatype Turn = Turn(trace: seq<Action>, attrs: Termios, winch: bool, next: After)

  /** One pass of the loop of `interact` on `listener`, with the terminal's attributes
      `attrs` and the flag `winch` at its start. A session that fails is reported
      with a line and the loop goes on; a failure to receive the PTY, to enter raw
      mode or to restore the terminal leaves `interact` with that error. Whenever
      the pass is over (the next connection or an error), the accepted stream has
      been dropped, which closes it. */
  function ServeOne(listener: RawFd, attrs: Termios, winch: bool, c: Connection): (t: Turn)
    ensures t.next == ListenerDone <==> c.accept.Err?
    ensures t.next == ListenerDone ==> t.trace == [Accept(listener)] && t.attrs == attrs
    ensures c.accept.Ok? ==> |t.trace| >= 2 && t.trace[..2] == [Accept(listener), RecvFd(c.accept.value)]
    ensures c.accept.Ok? && (t.next == Again || (t.next.Exit? && t.next.res.Returned?)) ==>
              Close(c.accept.value) in t.trace
    ensures t.next == Again ==> t.attrs == attrs && c.recv.Ok? && c.getFails.None? && c.setReply.Ok?
    ensures c.accept.Ok? && c.recv.Err? ==>
              && t.next == Exit(Returned(Err(Error.Io(c.recv.error)))) && t.attrs == attrs
              && t.trace == [Accept(listener), RecvFd(c.accept.value), Close(c.accept.value)]
    ensures c.accept.Ok? && c.recv.Ok? && c.getFails.None? && c.setReply.Ok? ==>
              var a := Attend(c.accept.value, c.recv.value, attrs, winch, c);
              t == Turn([Accept(listener), RecvFd(c.accept.value)] + a.trace, a.attrs, a.winch, a.next)
    ensures t.next.Exit? && t.next.res.Returned? ==> t.next.res.value.Err?
    ensures t.attrs == attrs || t.attrs == Raw(attrs)
  {
    match c.accept
    case Err(_) => Turn([Accept(listener)], attrs, winch, ListenerDone)
    case Ok(stream) =>
      var started := [Accept(listener), RecvFd(stream)];
      var dropped := started + [Close(stream)];
      if c.recv.Err? then Turn(dropped, attrs, winch, Exit(Returned(Err(Error.Io(c.recv.error)))))
      else if c.getFails.Some? then Turn(dropped, attrs, winch, Exit(Returned(Err(Nix(c.getFails.value)))))
      else if c.setReply.Err? then Turn(dropped, attrs, winch, Exit(Returned(Err(Nix(c.setReply.error)))))
      else
        var t := Attend(stream, c.recv.value, attrs, winch, c);
        ghost var s := Proxy.InteractSpec(c.recv.value, winch, c.initial, c.ticks);
        assert t.next == Again || (t.next.Exit? && t.next.res.Returned?) ==>
                 (started + t.trace)[2 + |s.trace|] == t.trace[..|s.trace| + 1][|s.trace|];
        Turn(started + t.trace, t.attrs, t.winch, t.next)
  }

  /** The part of a pass after raw mode is entered on a terminal whose attributes
      were `attrs`: the session with the process on `pty`, the stream dropped, the
      attributes restored, and the line printed when the session failed. */
  function Attend(stream: RawFd, pty: RawFd, attrs: Termios, winch: bool, c: Connection): (t: Turn)
    ensures t.next != ListenerDone
    ensures t.next == Again || (t.next.Exit? && t.next.res.Returned?) ==>
              var s := Proxy.InteractSpec(pty, winch, c.initial, c.ticks);
              |t.trace| > |s.trace| && t.trace[..|s.trace| + 1] == s.trace + [Close(stream)]
    ensures t.next == Again ==> t.attrs == attrs
    ensures t.next.Exit? && t.next.res.Returned? ==> t.next.res.value.Err?
    ensures t.attrs == attrs || t.attrs == Raw(attrs)
    ensures var s := Proxy.InteractSpec(pty, winch, c.initial, c.ticks);
            s.res.Returned? && Terminal.Settled(c.restore) == Returned(Ok(())) ==>
              && t.next == Again && t.attrs == attrs && t.winch == s.winch
              && t.trace == s.trace + [Close(stream)] + (if s.res.value.Err? then [Log(ENCOUNTERED_ERROR)] else [])
    ensures var s := Proxy.InteractSpec(pty, winch, c.initial, c.ticks);
            var r := Terminal.Settled(c.restore);
            s.res.Returned? && r.Returned? && r.value.Err? ==>
              && t.next == Exit(Returned(Err(Nix(r.value.error)))) && t.attrs == Raw(attrs)
              && t.trace == s.trace + [Close(stream)]
    ensures var s := Proxy.InteractSpec(pty, winch, c.initial, c.ticks);
            s.res.Pending? || Terminal.Settled(c.restore).Pending? ==> t.next == Exit(Pending) && t.attrs == Raw(attrs)
  {
    var s := Proxy.InteractSpec(pty, winch, c.initial, c.ticks);
    if s.res.Pending? then Turn(s.trace, Raw(attrs), s.winch, Exit(Pending))
    else
      var closed := s.trace + [Close(stream)];
      match Terminal.Settled(c.restore)
      case Pending => Turn(closed, Raw(attrs), s.winch, Exit(Pending))
      case Returned(Err(e)) => Turn(closed, Raw(attrs), s.winch, Exit(Returned(Err(Nix(e)))))
      case Returned(Ok(_)) =>
        Turn(closed + (if s.res.value.Err? then [Log(ENCOUNTERED_ERROR)] else []), attrs, s.winch, Again)
  }

  /** The loop of `interact`: its actions, the attributes and flag at its end, and
      how it ended (never `Again`). */
  datatype Served = Served(trace: seq<Action>, attrs: Termios, winch: bool, end: After)

  /** The loop of `interact` over the replies for successive connections. When the
      loop ends because accept failed, the terminal has the attributes it had before
      the first connection: each session puts back what it changed. */
  function Serve(listener: RawFd, attrs: Termios, winch: bool, conns: seq<Connection>): (s: Served)
    ensures !s.end.Again?
    ensures s.end == ListenerDone ==> s.attrs == attrs
    ensures s.end.Exit? && s.end.res.Returned? ==> s.end.res.value.Err?
    decreases |conns|
  {
    if |conns| == 0 then Served([], attrs, winch, Exit(Pending))
    else
      var t := ServeOne(listener, attrs, winch, conns[0]);
      if t.next.Again? then
        var s := Serve(listener, t.attrs, t.winch, conns[1..]);
        Served(t.trace + s.trace, s.attrs, s.winch, s.end)
      else Served(t.trace, t.attrs, t.winch, t.next)
  }

  /** The loop seen from connection `i`, after the earlier ones recorded `looped`. */
  ghost function ServeFrom(listener: RawFd, attrs: Termios, winch: bool, conns: seq<Connection>, i: nat,
                           looped: seq<Action>): Served
    requires i <= |conns|
  {
    var s := Serve(listener, attrs, winch, conns[i..]);
    Served(looped + s.trace, s.attrs, s.winch, s.end)
  }

  /** One pass of the loop of `interact`, on the terminal and the flag. */
  method ServeConnection(listener: RawFd, line: Terminal.Line, flag: Proxy.SignalFlag, c: Connection)
    returns (next: After, trace: seq<Action>)
    requires Fits(c)
    modifies line, flag
    ensures Turn(trace, line.attrs, flag.happened, next) == ServeOne(listener, old(line.attrs), old(flag.happened), c)
  {
    trace := [Accept(listener)];
    if c.accept.Err? {
      return ListenerDone, trace;
    }
    var stream := c.accept.value;
    trace := trace + [RecvFd(stream)];
    if c.recv.Err? {
      return Exit(Returned(Err(Error.Io(c.recv.error)))), trace + [Close(stream)];
    }
    var pty := c.recv.value;
    var rawmode := Terminal.Setup(line, c.getFails, c.setReply);
    if rawmode.Err? {
      return Exit(Returned(Err(rawmode.error))), trace + [Close(stream)];
    }
    var attended;
    next, attended := AttendSession(stream, pty, line, flag, c, rawmode.value);
    trace := trace + attended;
  }

  /** The session, the drop of the stream and the restore of one pass. */
  method AttendSession(stream: RawFd, pty: RawFd, line: Terminal.Line, flag: Proxy.SignalFlag, c: Connection,
                       rawmode: Terminal.RawTermios)
    returns (next: After, trace: seq<Action>)
    requires Fits(c) && line.attrs == Raw(rawmode.saved)
    modifies line, flag
    ensures Turn(trace, line.attrs, flag.happened, next) == Attend(stream, pty, rawmode.saved, old(flag.happened), c)
  {
    var res;
    res, trace := Proxy.InteractWithProcess(pty, flag, c.initial, c.ticks);
    if res.Pending? {
      return Exit(Pending), trace;
    }
    trace := trace + [Close(stream)];
    var restored := Terminal.Restore(line, rawmode, c.restore);
    if restored != Returned(Ok(())) {
      return Exit(restored), trace;
    }
    if res.value.Err? {
      trace := trace + [Log(ENCOUNTERED_ERROR)];
    }
    next := Again;
  }

  /** One pass in the loop of `ServeLoop`. */
  lemma ServeStep(listener: RawFd, attrs: Termios, winch: bool, conns: seq<Connection>, i: nat,
                  looped: seq<Action>, t: Turn)
    requires i < |conns| && t == ServeOne(listener, attrs, winch, conns[i])
    ensures !t.next.Again? ==>
              ServeFrom(listener, attrs, winch, conns, i, looped) == Served(looped + t.trace, t.attrs, t.winch, t.next)
    ensures t.next.Again? ==>
              ServeFrom(listener, attrs, winch, conns, i, looped) == ServeFrom(listener, t.attrs, t.winch, conns, i + 1, looped + t.trace)
  {
    assert conns[i..][0] == conns[i] && conns[i..][1..] == conns[i + 1..];
    if t.next.Again? {
      var rest := Serve(listener, t.attrs, t.winch, conns[i + 1..]);
      assert looped + (t.trace + rest.trace) == looped + t.trace + rest.trace;
    }
  }

  /** The loop of `interact`: serve connection after connection until one does not
      let the loop go on. */
  method ServeLoop(listener: RawFd, line: Terminal.Line, flag: Proxy.SignalFlag, conns: seq<Connection>)
    returns (end: After, trace: seq<Action>)
    requires forall i :: 0 <= i < |conns| ==> Fits(conns[i])
    modifies line, flag
    ensures Served(trace, line.attrs, flag.happened, end) == Serve(listener, old(line.attrs), old(flag.happened), conns)
  {
    ghost var whole := Serve(listener, line.attrs, flag.happened, conns);
    trace := [];
    var i := 0;
    assert conns[0..] == conns;
    while i < |conns|
      invariant 0 <= i <= |conns|
      invariant whole == ServeFrom(listener, line.attrs, flag.happened, conns, i, trace)
      decreases |conns| - i
    {
      ghost var attrs, winch := line.attrs, flag.happened;
      var next, tr := ServeConnection(listener, line, flag, conns[i]);
      ServeStep(listener, attrs, winch, conns, i, trace, Turn(tr, line.attrs, flag.happened, next));
      trace := trace + tr;
      i := i + 1;
      if !next.Again? {
        return next, trace;
      }
    }
    assert conns[i..] == [];
    end := Exit(Pending);
  }

  /** `interact(socket_path)`: bind a listener at the path (refused when a file is
      already there), serve connections until accept fails, then remove the path.
      Leaving with an error skips the removal, so the socket file stays behind.
      Leaving the function drops the listener, which closes it. */
  method Interact(fs: Channel.FileSystem, line: Terminal.Line, flag: Proxy.SignalFlag, path: string,
                  bindReply: Result<RawFd, IoError>, conns: seq<Connection>, removeReply: Result<(), IoError>)
    returns (res: Outcome<Result<(), Error>>, trace: seq<Action>)
    requires forall i :: 0 <= i < |conns| ==> Fits(conns[i])
    modifies fs, line, flag
    ensures !(path !in old(fs.files) && bindReply.Ok?) ==>
              && res == Returned(Err(Error.Io(if path in old(fs.files) then OsError(Channel.EADDRINUSE) else bindReply.error)))
              && trace == [BindRefused(path)] && fs.files == old(fs.files)
              && line.attrs == old(line.attrs) && flag.happened == old(flag.happened)
    ensures path !in old(fs.files) && bindReply.Ok? ==>
              var s := Serve(bindReply.value, old(line.attrs), old(flag.happened), conns);
              && line.attrs == s.attrs && flag.happened == s.winch
              && (s.end.Exit? ==>
                    && res == s.end.res
                    && trace == [Bind(bindReply.value, path)] + s.trace
                                + (if res.Returned? then [Close(bindReply.value)] else [])
                    && fs.files == old(fs.files) + {path})
              && (s.end == ListenerDone ==>
                    && trace == [Bind(bindReply.value, path)] + s.trace + [RemoveFile(path), Close(bindReply.value)]
                    && res == Returned(if removeReply.Ok? then Ok(()) else Err(Error.Io(removeReply.error)))
                    && fs.files == if removeReply.Ok? then old(fs.files) else old(fs.files) + {path})
  {
    var bound := fs.Bind(path, bindReply);
    if bound.Err? {
      return Returned(Err(Error.Io(bound.error))), [BindRefused(path)];
    }
    var listener := bound.value;
    var end, looped := ServeLoop(listener, line, flag, conns);
    if end.Exit? {
      if end.res.Pending? {
        return end.res, [Bind(listener, path)] + looped;
      }
      return end.res, [Bind(listener, path)] + looped + [Close(listener)];
    }
    var removed := fs.Remove(path, removeReply);
    trace := [Bind(listener, path)] + looped + [RemoveFile(path), Close(listener)];
    if removed.Err? {
      return Returned(Err(Error.Io(removed.error))), trace;
    }
    assert fs.files == old(fs.files);
    res := Returned(Ok(()));
  }

  /** A session that ends in an error is reported and the loop goes on: the stream
      is closed, the terminal restored, the line printed, and the next connection
      is accepted. */
  lemma SessionErrorContinues(listener: RawFd, attrs: Termios, winch: bool, c: Connection, rest: seq<Connection>)
    requires c.accept.Ok? && c.recv.Ok? && c.getFails.None? && c.setReply.Ok?
    requires Proxy.InteractSpec(c.recv.value, winch, c.initial, c.ticks).res.Returned?
    requires Proxy.InteractSpec(c.recv.value, winch, c.initial, c.ticks).res.value.Err?
    requires Terminal.Settled(c.restore) == Returned(Ok(()))
    requires |rest| >= 1
    ensures var t := ServeOne(listener, attrs, winch, c);
            && t.next == Again && t.attrs == attrs
            && |t.trace| >= 2 && t.trace[|t.trace| - 2..] == [Close(c.accept.value), Log(ENCOUNTERED_ERROR)]
            && var s := Serve(listener, attrs, winch, [c] + rest);
               |s.trace| > |t.trace| && s.trace[|t.trace|] == Accept(listener)
  {
    var t := ServeOne(listener, attrs, winch, c);
    var stream := c.accept.value;
    var session := Proxy.InteractSpec(c.recv.value, winch, c.initial, c.ticks);
    assert Attend(stream, c.recv.value, attrs, winch, c).trace == session.trace + [Close(stream)] + [Log(ENCOUNTERED_ERROR)];
    assert t.trace == [Accept(listener), RecvFd(stream)] + session.trace + [Close(stream), Log(ENCOUNTERED_ERROR)];
    assert ([c] + rest)[1..] == rest;
    LoopAccepts(listener, t.attrs, t.winch, rest);
  }

  /** A session that ends normally is not reported: the stream is closed, the
      terminal restored, nothing is printed, and the next connection is accepted. */
  lemma SessionOkContinues(listener: RawFd, attrs: Termios, winch: bool, c: Connection, rest: seq<Connection>)
    requires c.accept.Ok? && c.recv.Ok? && c.getFails.None? && c.setReply.Ok?
    requires Proxy.InteractSpec(c.recv.value, winch, c.initial, c.ticks).res == Returned(Ok(()))
    requires Terminal.Settled(c.restore) == Returned(Ok(()))
    requires |rest| >= 1
    ensures var t := ServeOne(listener, attrs, winch, c);
            && t.next == Again && t.attrs == attrs
            && t.trace == [Accept(listener), RecvFd(c.accept.value)]
                          + Proxy.InteractSpec(c.recv.value, winch, c.initial, c.ticks).trace + [Close(c.accept.value)]
            && var s := Serve(listener, attrs, winch, [c] + rest);
               |s.trace| > |t.trace| && s.trace[|t.trace|] == Accept(listener)
  {
    var t := ServeOne(listener, attrs, winch, c);
    var stream := c.accept.value;
    var session := Proxy.InteractSpec(c.recv.value, winch, c.initial, c.ticks);
    assert t.trace == [Accept(listener), RecvFd(stream)] + (session.trace + [Close(stream)]);
    assert ([c] + rest)[1..] == rest;
    LoopAccepts(listener, t.attrs, t.winch, rest);
  }

  /** Every pass of the loop starts with an accept. */
  lemma LoopAccepts(listener: RawFd, attrs: Termios, winch: bool, conns: seq<Connection>)
    requires |conns| >= 1
    ensures var s := Serve(listener, attrs, winch, conns); |s.trace| >= 1 && s.trace[0] == Accept(listener)
  {
    var u := ServeOne(listener, attrs, winch, conns[0]);
    assert u.trace[0] == Accept(listener) by {
      if conns[0].accept.Ok? {
        assert u.trace[..2][0] == u.trace[0];
      }
    }
    var s := Serve(listener, attrs, winch, conns);
    if u.next.Again? {
      var rest := Serve(listener, u.attrs, u.winch, conns[1..]);
      assert s.trace == u.trace + rest.trace;
      assert s.trace[0] == u.trace[0];
    }
  }

  /** A failure to enter raw mode ends `interact` at once with that error; the
      terminal is left as it was, no session runs, and the stream is dropped. */
  lemma SetupFailureEndsInteract(listener: RawFd, attrs: Termios, winch: bool, c: Connection)
    requires c.accept.Ok? && c.recv.Ok? && (c.getFails.Some? || c.setReply.Err?)
    ensures var t := ServeOne(listener, attrs, winch, c);
            && t.next == Exit(Returned(Err(Nix(if c.getFails.Some? then c.getFails.value else c.setReply.error))))
            && t.attrs == attrs && t.trace == [Accept(listener), RecvFd(c.accept.value), Close(c.accept.value)]
  {
  }

  // ---------------------------------------------------------------------------
  // run

  /** A failure of step `step` of the launch, with the error it reports. */
  datatype Failure = Failure(step: nat, error: Error)

  /** The kernel's replies while a command is launched: the controlling side's
      descriptor, the client side's path name, the descriptors the three opens
      return, and the first step that fails, if one does. */
  datatype LaunchReplies = LaunchReplies(pt: RawFd, clientPath: string, client: RawFd, newIn: RawFd,
                                         newOut: RawFd, failure: Option<Failure>)

  /** The line printed before the session is made (the command's own text is not
      modelled). */
  const RUNNING: string := "Running: "

  /** The steps of `run` after the connection, in order. */
  function Plan(socket: RawFd, command: seq<string>, r: LaunchReplies): (p: seq<Action>)
    ensures |p| == 19
  {
    [ OpenPt, GrantPt(r.pt), UnlockPt(r.pt), PtsName(r.pt),
      Open(r.clientPath, ReadWrite), SetWinsize(r.client, WindowSize.DefaultWinsize()),
      Log(RUNNING), SetPgid, SetSid,
      Open(r.clientPath, ReadOnly), Dup2(r.newIn, STDIN), Close(r.newIn),
      Open(r.clientPath, WriteOnly), Dup2(r.newOut, STDOUT), Dup2(r.newOut, STDERR), Close(r.newOut),
      SendFd(socket, r.pt), Close(r.pt), ExecVp(command) ]
  }

  const LOG_STEP: nat := 6
  const SEND_STEP: nat := 16
  const EXEC_STEP: nat := 18

  /** The failure names a step that can fail with an error of that step's type: the
      descriptor is sent with an io call, every other step is a nix call, and the
      printed line cannot fail. */
  predicate Proper(f: Failure) {
    f.step <= EXEC_STEP && f.step != LOG_STEP && (f.error.Io? <==> f.step == SEND_STEP) && !f.error.Bail?
  }

  /** How a launch ends: the process image is replaced by the command, or a step
      failed. */
  datatype RunEnd = Replaced | Failed(error: Error)

  datatype Launched = Launched(end: RunEnd, trace: seq<Action>)

  /** What `run` closes when it returns early from step `step`: its locals are
      dropped in reverse order of declaration, so the controlling side (owned once
      `posix_openpt` returned it) is closed, then the socket. The descriptors opened
      on the client side are raw numbers and are not closed. */
  function Dropped(socket: RawFd, r: LaunchReplies, step: nat): seq<Action> {
    (if step == 0 then [] else [Close(r.pt)]) + [Close(socket)]
  }

  /** The steps of `run` after the connection, each returning its error with `?`:
      the calls up to and including the failing one are made, none after it, and
      then the descriptors `run` owns are closed, the socket last. */
  function Launch(socket: RawFd, command: seq<string>, r: LaunchReplies): (x: Launched)
    requires r.failure.Some? ==> Proper(r.failure.value)
    ensures x.end.Replaced? <==> r.failure.None?
    ensures x.end.Replaced? ==> x.trace == Plan(socket, command, r)
    ensures x.end.Failed? ==>
              var k := r.failure.value.step;
              && x.end.error == r.failure.value.error
              && |x.trace| == k + (if k == 0 then 2 else 3)
              && x.trace[..k + 1] == Plan(socket, command, r)[..k + 1]
              && (k > 0 ==> x.trace[k + 1] == Close(r.pt))
              && x.trace[|x.trace| - 1] == Close(socket)
    ensures |x.trace| >= 1 && x.trace[0] == OpenPt
  {
    var plan := Plan(socket, command, r);
    match r.failure
    case None => Launched(Replaced, plan)
    case Some(f) => Launched(Failed(f.error), plan[..f.step + 1] + Dropped(socket, r, f.step))
  }

  /** `run(socket_path, command)`: connect (retrying until the listener is there),
      then launch. */
  method Run(path: string, command: seq<string>, connects: seq<Result<RawFd, IoError>>, r: LaunchReplies)
    returns (res: Outcome<RunEnd>, trace: seq<Action>)
    requires |command| >= 1
    requires r.failure.Some? ==> Proper(r.failure.value)
    ensures var c := Channel.Attempts(path, connects);
            && (c.socket.Pending? ==> res == Pending && trace == c.trace)
            && (c.socket.Returned? ==>
                  var x := Launch(c.socket.value, command, r);
                  res == Returned(x.end) && trace == c.trace + x.trace)
  {
    var socket;
    socket, trace := Channel.TryConnect(path, connects);
    if socket.Pending? {
      return Pending, trace;
    }
    var x := Launch(socket.value, command, r);
    res := Returned(x.end);
    trace := trace + x.trace;
  }

  /** The command is run only when every step succeeded, and then it is the last
      call; a failing step is the last call made before the drops, which only
      close, so the PTY is handed over only when everything before succeeded. */
  lemma LaunchStopsAtFirstFailure(socket: RawFd, command: seq<string>, r: LaunchReplies)
    requires r.failure.Some? ==> Proper(r.failure.value)
    ensures var x := Launch(socket, command, r);
            && (ExecVp(command) in x.trace <==> r.failure.None? || r.failure.value.step == EXEC_STEP)
            && (SendFd(socket, r.pt) in x.trace <==> r.failure.None? || r.failure.value.step >= SEND_STEP)
            && (r.failure.Some? ==>
                  var k := r.failure.value.step;
                  x.trace[k] == Plan(socket, command, r)[k]
                  && forall j :: k < j < |x.trace| ==> x.trace[j].Close?)
  {
    var plan := Plan(socket, command, r);
    var x := Launch(socket, command, r);
    PlanSteps(socket, command, r);
    forall j | 0 <= j < |x.trace|
      ensures r.failure.None? || j <= r.failure.value.step ==> x.trace[j] == plan[j]
      ensures r.failure.Some? && j > r.failure.value.step ==> x.trace[j].Close?
    {
      LaunchCall(socket, command, r, j);
    }
    if r.failure.Some? {
      var k := r.failure.value.step;
      if k >= SEND_STEP {
        assert x.trace[SEND_STEP] == plan[SEND_STEP];
      }
      if k == EXEC_STEP {
        assert x.trace[EXEC_STEP] == plan[EXEC_STEP];
      }
    } else {
      assert x.trace[EXEC_STEP] == plan[EXEC_STEP] && x.trace[SEND_STEP] == plan[SEND_STEP];
    }
  }

  /** Call `j` of a launch: the plan's, up to the failing step, and a close after it. */
  lemma LaunchCall(socket: RawFd, command: seq<string>, r: LaunchReplies, j: nat)
    requires r.failure.Some? ==> Proper(r.failure.value)
    requires j < |Launch(socket, command, r).trace|
    ensures r.failure.None? || j <= r.failure.value.step ==> Launch(socket, command, r).trace[j] == Plan(socket, command, r)[j]
    ensures r.failure.Some? && j > r.failure.value.step ==> Launch(socket, command, r).trace[j].Close?
  {
    var x := Launch(socket, command, r);
    if r.failure.Some? {
      var k := r.failure.value.step;
      if j <= k {
        assert x.trace[j] == x.trace[..k + 1][j];
      }
    }
  }

  /** The PTY is handed over at one step of the plan only, and the command runs at
      one step only: the last. */
  lemma PlanSteps(socket: RawFd, command: seq<string>, r: LaunchReplies)
    ensures var p := Plan(socket, command, r);
            && (forall j :: 0 <= j < |p| && p[j].SendFd? ==> j == SEND_STEP)
            && (forall j :: 0 <= j < |p| && p[j].ExecVp? ==> j == EXEC_STEP)
  {
  }

  /** A handover in a launch's calls is the plan's step `SEND_STEP`, and the calls
      up to it are the plan's. */
  lemma HandoffStep(socket: RawFd, command: seq<string>, r: LaunchReplies, k: nat)
    requires r.failure.Some? ==> Proper(r.failure.value)
    requires var x := Launch(socket, command, r); k < |x.trace| && x.trace[k] == SendFd(socket, r.pt)
    ensures k == SEND_STEP
    ensures Launch(socket, command, r).trace[..k + 1] == Plan(socket, command, r)[..k + 1]
  {
    var x := Launch(socket, command, r);
    var plan := Plan(socket, command, r);
    PlanSteps(socket, command, r);
    LaunchCall(socket, command, r, k);
    forall j | 0 <= j <= k
      ensures x.trace[j] == plan[j]
    {
      LaunchCall(socket, command, r, j);
    }
    assert x.trace[..k + 1] == plan[..k + 1];
  }

  /** Before the PTY is handed over, the new session is made and the command's
      stdin, stdout and stderr all lead to the client side. */
  lemma RedirectedBeforeHandoff(socket: RawFd, command: seq<string>, r: LaunchReplies, k: nat)
    requires r.failure.Some? ==> Proper(r.failure.value)
    requires var x := Launch(socket, command, r); k < |x.trace| && x.trace[k] == SendFd(socket, r.pt)
    ensures var t := Launch(socket, command, r).trace;
            && (exists j :: 0 <= j < k && t[j] == SetSid)
            && (exists j :: 0 <= j < k - 1 && t[j] == Open(r.clientPath, ReadOnly) && t[j + 1] == Dup2(r.newIn, STDIN))
            && (exists j :: 0 <= j < k - 2 && t[j] == Open(r.clientPath, WriteOnly) && t[j + 1] == Dup2(r.newOut, STDOUT)
                                           && t[j + 2] == Dup2(r.newOut, STDERR))
  {
    var t := Launch(socket, command, r).trace;
    var plan := Plan(socket, command, r);
    HandoffStep(socket, command, r, k);
    RedirectionSteps(plan, t, k);
    PlanRedirections(socket, command, r);
  }

  /** The new session is made, then stdin is redirected, then stdout and stderr. */
  lemma PlanRedirections(socket: RawFd, command: seq<string>, r: LaunchReplies)
    ensures var p := Plan(socket, command, r);
            && p[8] == SetSid
            && p[9] == Open(r.clientPath, ReadOnly) && p[10] == Dup2(r.newIn, STDIN)
            && p[12] == Open(r.clientPath, WriteOnly) && p[13] == Dup2(r.newOut, STDOUT) && p[14] == Dup2(r.newOut, STDERR)
  {
  }

  /** Calls that agree with the plan up to its handover step agree on the redirections. */
  lemma RedirectionSteps(plan: seq<Action>, t: seq<Action>, k: nat)
    requires k == SEND_STEP && |plan| == 19 && k < |t| && t[..k + 1] == plan[..k + 1]
    ensures forall j :: 8 <= j <= 14 ==> t[j] == plan[j]
  {
    forall j | 8 <= j <= 14
      ensures t[j] == plan[j]
    {
      assert t[j] == t[..k + 1][j];
    }
  }

  /** After the PTY is handed over, the controlling side is closed right before
      the command runs. */
  lemma ClosedBeforeExec(socket: RawFd, command: seq<string>, r: LaunchReplies, j: nat)
    requires r.failure.Some? ==> Proper(r.failure.value)
    requires var t := Launch(socket, command, r).trace; j < |t| && t[j] == ExecVp(command)
    ensures var t := Launch(socket, command, r).trace;
            j == EXEC_STEP && t[j - 1] == Close(r.pt) && t[j - 2] == SendFd(socket, r.pt)
  {
    var t := Launch(socket, command, r).trace;
    var plan := Plan(socket, command, r);
    PlanSteps(socket, command, r);
    LaunchCall(socket, command, r, j);
    assert j == EXEC_STEP;
    LaunchCall(socket, command, r, j - 1);
    LaunchCall(socket, command, r, j - 2);
  }

  /** When the command cannot be run, the controlling side is closed twice: by the
      explicit close before the command and again when its owner is dropped. */
  lemma ExecFailureClosesTwice(socket: RawFd, command: seq<string>, r: LaunchReplies)
    requires r.failure.Some? && Proper(r.failure.value) && r.failure.value.step == EXEC_STEP
    ensures var t := Launch(socket, command, r).trace;
            && |t| == EXEC_STEP + 3
            && t[EXEC_STEP - 1] == Close(r.pt) && t[EXEC_STEP] == ExecVp(command) && t[EXEC_STEP + 1] == Close(r.pt)
  {
    var t := Launch(socket, command, r).trace;
    var plan := Plan(socket, command, r);
    assert t[EXEC_STEP - 1] == t[..EXEC_STEP + 1][EXEC_STEP - 1] == plan[EXEC_STEP - 1];
    assert t[EXEC_STEP] == t[..EXEC_STEP + 1][EXEC_STEP] == plan[EXEC_STEP];
  }
}
