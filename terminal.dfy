/** The local terminal: its attributes as the kernel holds them, raw-mode entry and
    the restoring loop. `TTY` of src/tty.rs, `RawTermios` of src/main.rs and
    `setup_raw` of deptyr.c. */
module Terminal {
  import opened Os
  import opened WindowSize
  import FdIo

  /** The kernel's attributes of the terminal stdin and stdout are attached to. */
  class Line {
    var attrs: Termios

    constructor (attrs: Termios)
      ensures this.attrs == attrs
    {
      this.attrs := attrs;
    }

    /** `tcgetattr` on the line, with the kernel's reply: the attributes, or the
        error when there are none to read (stdin is not a terminal). */
    method GetAttr(fails: Option<NixError>) returns (r: Result<Termios, NixError>)
      ensures r == if fails.Some? then Err(fails.value) else Ok(attrs)
    {
      r := if fails.Some? then Err(fails.value) else Ok(attrs);
    }

    /** `tcsetattr(fd, TCSANOW, t)` on the line, with the kernel's reply: a call that
        succeeds installs `t`, a failed one changes nothing. */
    method SetAttr(t: Termios, reply: Result<(), NixError>) returns (r: Result<(), NixError>)
      modifies this
      ensures r == reply
      ensures attrs == if reply.Ok? then t else old(attrs)
    {
      if reply.Ok? {
        attrs := t;
      }
      r := reply;
    }
  }

  /** The position of the first reply in `replies` that is not EINTR: the call that
      ends a loop retrying on EINTR (`|replies|` when the replies run out first). */
  function FirstSettled(replies: seq<Result<(), NixError>>): (k: nat)
    ensures k <= |replies|
    ensures forall j :: 0 <= j < k ==> replies[j] == Err(INTERRUPTED)
    ensures k < |replies| ==> replies[k] != Err(INTERRUPTED)
  {
    if |replies| == 0 then 0
    else if replies[0] == Err(INTERRUPTED) then 1 + FirstSettled(replies[1..])
    else 0
  }

  /** What a loop retrying on EINTR ends with: the first other reply, or `Pending`
      while the replies are all EINTR. */
  function Settled(replies: seq<Result<(), NixError>>): (r: Outcome<Result<(), NixError>>)
    ensures r.Pending? <==> forall j :: 0 <= j < |replies| ==> replies[j] == Err(INTERRUPTED)
    ensures r.Returned? ==> r.value != Err(INTERRUPTED) && r.value in replies
  {
    var k := FirstSettled(replies);
    if k == |replies| then Pending else Returned(replies[k])
  }

  /** Only the first reply that is not EINTR counts: putting any number of EINTRs in
      front of the replies changes nothing. */
  lemma {:induction false} SettledSkipsInterrupts(n: nat, replies: seq<Result<(), NixError>>)
    ensures Settled(seq(n, _ => Err(INTERRUPTED)) + replies) == Settled(replies)
  {
    if n > 0 {
      var s := seq(n, _ => Err(INTERRUPTED)) + replies;
      assert s[0] == Err(INTERRUPTED);
      assert s[1..] == seq(n - 1, _ => Err(INTERRUPTED)) + replies;
      SettledSkipsInterrupts(n - 1, replies);
    } else {
      assert seq(n, _ => Err(INTERRUPTED)) + replies == replies;
    }
  }

  /** `tcsetattr` of `t` retried while it reports EINTR: the loop of
      `RawTermios::restore` (src/main.rs) and of `Drop for TTY` (src/tty.rs). */
  method RetrySetAttr(line: Line, t: Termios, replies: seq<Result<(), NixError>>)
    returns (res: Outcome<Result<(), NixError>>)
    modifies line
    ensures res == Settled(replies)
    ensures line.attrs == if res == Returned(Ok(())) then t else old(line.attrs)
  {
    var i := 0;
    while i < |replies|
      invariant 0 <= i <= |replies|
      invariant forall j :: 0 <= j < i ==> replies[j] == Err(INTERRUPTED)
      invariant line.attrs == old(line.attrs)
      decreases |replies| - i
    {
      var r := line.SetAttr(t, replies[i]);
      if r.Ok? {
        assert r.value == ();
        FirstSettledAt(replies, i);
        return Returned(Ok(()));
      }
      if r.error == INTERRUPTED {
        i := i + 1;
        continue;
      }
      FirstSettledAt(replies, i);
      return Returned(Err(r.error));
    }
    FirstSettledAt(replies, i);
    res := Pending;
  }

  /** `FirstSettled` is the one position before which every reply is EINTR and at
      which one is not. */
  lemma {:induction false} FirstSettledAt(replies: seq<Result<(), NixError>>, i: nat)
    requires i <= |replies|
    requires forall j :: 0 <= j < i ==> replies[j] == Err(INTERRUPTED)
    requires i < |replies| ==> replies[i] != Err(INTERRUPTED)
    ensures FirstSettled(replies) == i
  {
    if i > 0 {
      FirstSettledAt(replies[1..], i - 1);
    }
  }

  /** `RawTermios` of src/main.rs: the descriptor whose mode was changed and the
      attributes it had before. */
  datatype RawTermios = RawTermios(fd: RawFd, saved: Termios)

  /** `RawTermios::setup()`: read the attributes of stdin, then set their raw-mode
      transform; either failure is returned and leaves the terminal as it was. */
  method Setup(line: Line, getFails: Option<NixError>, setReply: Result<(), NixError>) returns (r: Result<RawTermios, Error>)
    modifies line
    ensures r.Ok? <==> getFails.None? && setReply.Ok?
    ensures r.Ok? ==> r.value == RawTermios(STDIN, old(line.attrs)) && line.attrs == Raw(old(line.attrs))
    ensures r.Err? ==> line.attrs == old(line.attrs)
    ensures r.Err? ==> r.error == Nix(if getFails.Some? then getFails.value else setReply.error)
  {
    var termios := line.GetAttr(getFails);
    if termios.Err? {
      return Err(Nix(termios.error));
    }
    var raw := Raw(termios.value);
    var done := line.SetAttr(raw, setReply);
    if done.Err? {
      return Err(Nix(done.error));
    }
    r := Ok(RawTermios(STDIN, termios.value));
  }

  /** `RawTermios::restore(&self)`: set the saved attributes back, retrying on EINTR;
      any other error is returned. */
  method Restore(line: Line, rt: RawTermios, replies: seq<Result<(), NixError>>)
    returns (r: Outcome<Result<(), Error>>)
    modifies line
    ensures r == match Settled(replies)
                 case Pending => Pending
                 case Returned(Ok(_)) => Returned(Ok(()))
                 case Returned(Err(e)) => Returned(Err(Nix(e)))
    ensures line.attrs == if r == Returned(Ok(())) then rt.saved else old(line.attrs)
  {
    var res := RetrySetAttr(line, rt.saved, replies);
    r := match res
         case Pending => Pending
         case Returned(Ok(_)) => Returned(Ok(()))
         case Returned(Err(e)) => Returned(Err(Nix(e)));
    assert res.Returned? && res.value.Ok? ==> res.value.value == ();
  }

  /** A raw mode entered by `Setup` and left by a `Restore` whose retries end in
      success puts back exactly the attributes the terminal had before. */
  method SetupThenRestore(line: Line, setReply: Result<(), NixError>, n: nat, last: seq<Result<(), NixError>>)
    returns (r: Outcome<Result<(), Error>>)
    requires setReply.Ok?
    modifies line
    ensures r == Returned(Ok(()))
    ensures line.attrs == old(line.attrs)
  {
    var rt := Setup(line, None, setReply);
    SettledSkipsInterrupts(n, [Ok(())] + last);
    r := Restore(line, rt.value, seq(n, _ => Err(INTERRUPTED)) + ([Ok(())] + last));
  }

  /** How dropping a `TTY` ended: the mode is restored (or there was none to
      restore), it panicked on an error other than EINTR, or the replies ran out
      while it was still retrying. */
  datatype DropOutcome = Dropped | Panicked(error: NixError) | StillRetrying

  const SETUP_TWICE: string := "BUG in deptyr: Attempted to set up TTY more than once."

  /** `TTY` of src/tty.rs: the local terminal, as the input and output it reads and
      writes and the attributes it saved on entering raw mode. */
  class TTY {
    const input: FdIo.FdIo
    const output: FdIo.FdIo
    const line: Line
    var savedMode: Option<Termios>

    /** `TTY::default()`: stdin and stdout, nothing saved. */
    constructor (line: Line)
      ensures input == FdIo.From(STDIN) && output == FdIo.From(STDOUT)
      ensures this.line == line && savedMode == None
    {
      input := FdIo.From(STDIN);
      output := FdIo.From(STDOUT);
      this.line := line;
      savedMode := None;
    }

    /** `<TTY as Selectable>::fd`: the descriptor to wait on is the input's. */
    function Fd(): (fd: RawFd)
      ensures fd == input.fd.raw
    {
      input.fd.raw
    }

    /** `TTY::setup_raw`. A second call fails and changes nothing. Otherwise the
        attributes are read and their raw-mode transform set, and only when both
        succeed are the attributes read kept in `savedMode`. */
    method SetupRaw(getFails: Option<NixError>, setReply: Result<(), NixError>) returns (r: Result<(), Error>)
      modifies this, line
      ensures old(savedMode).Some? ==>
                r == Err(Bail(SETUP_TWICE)) && savedMode == old(savedMode) && line.attrs == old(line.attrs)
      ensures old(savedMode).None? ==>
                && (r.Ok? <==> getFails.None? && setReply.Ok?)
                && (r.Ok? ==> savedMode == Some(old(line.attrs)) && line.attrs == Raw(old(line.attrs)))
                && (r.Err? ==> savedMode == None && line.attrs == old(line.attrs)
                               && r.error == Nix(if getFails.Some? then getFails.value else setReply.error))
    {
      if savedMode.Some? {
        return Err(Bail(SETUP_TWICE));
      }
      var termios := line.GetAttr(getFails);
      if termios.Err? {
        return Err(Nix(termios.error));
      }
      var raw := Raw(termios.value);
      var done := line.SetAttr(raw, setReply);
      if done.Err? {
        return Err(Nix(done.error));
      }
      savedMode := Some(termios.value);
      r := Ok(());
    }

    /** `Drop for TTY`: nothing to do when no mode was saved; otherwise set the saved
        attributes back, retrying on EINTR and panicking on any other error. Then
        the input and the output are dropped, which closes their descriptors; a
        panic unwinds through the same drops. */
    method Drop(replies: seq<Result<(), NixError>>) returns (o: DropOutcome, trace: seq<Action>)
      modifies line
      ensures savedMode.None? ==> o == Dropped && line.attrs == old(line.attrs)
      ensures savedMode.Some? ==>
                && o == (match Settled(replies)
                         case Pending => StillRetrying
                         case Returned(Ok(_)) => Dropped
                         case Returned(Err(e)) => Panicked(e))
                && line.attrs == if o == Dropped then savedMode.value else old(line.attrs)
      ensures trace == if o == StillRetrying then [] else FdIo.Release(input) + FdIo.Release(output)
    {
      if savedMode.None? {
        return Dropped, FdIo.Release(input) + FdIo.Release(output);
      }
      var res := RetrySetAttr(line, savedMode.value, replies);
      o := match res
           case Pending => StillRetrying
           case Returned(Ok(_)) => Dropped
           case Returned(Err(e)) => Panicked(e);
      assert res.Returned? && res.value.Ok? ==> res.value.value == ();
      trace := if o == StillRetrying then [] else FdIo.Release(input) + FdIo.Release(output);
    }

    /** `TTY::resize_pty(pty)`: the size of the TTY's own input, or the default, is
        applied to `pty`. */
    function ResizePty(pty: RawFd, env: ResizeEnv): (z: Resized)
      ensures z.trace == [GetWinsize(input.fd.raw), SetWinsize(pty, Chosen(env))]
      ensures z.res.Ok? <==> env.update.Ok?
    {
      WindowSize.ResizePty(input.fd.raw, pty, env)
    }

    /** `<TTY as io::Read>::read`: a read of the input. */
    function Read(reply: Result<seq<byte>, NixError>): (x: FdIo.Transfer<nat>)
      ensures x.res == FdIo.TranslateNixResult(if reply.Ok? then Ok(|reply.value|) else Err(reply.error))
      ensures x.trace == [if reply.Ok? then Os.Read(input.fd.raw, reply.value) else ReadFailed(input.fd.raw)]
    {
      FdIo.Read(input, reply)
    }

    /** `<TTY as io::Write>::write`: a write to the output. */
    function Write(buf: seq<byte>, reply: Result<nat, NixError>): (x: FdIo.Transfer<nat>)
      ensures x.res == FdIo.TranslateNixResult(reply)
      ensures |x.trace| == 1 && x.trace[0].Write? && x.trace[0].fd == output.fd.raw && x.trace[0].data <= buf
    {
      FdIo.Write(output, buf, reply)
    }

    /** `<TTY as io::Write>::flush`: always succeeds and does nothing. */
    function Flush(): (r: Result<(), IoError>)
      ensures r == Ok(())
    {
      Ok(())
    }
  }

  /** A TTY set to raw mode and then dropped, with the restoring retries ending in
      success, leaves the terminal with the attributes it had before; dropping it
      also closes stdin and stdout, which it owns. */
  method RawModeRoundTrip(line: Line, setReply: Result<(), NixError>, n: nat)
    returns (tty: TTY, o: DropOutcome, trace: seq<Action>)
    requires setReply.Ok?
    modifies line
    ensures o == Dropped
    ensures line.attrs == old(line.attrs)
    ensures trace == [Close(STDIN), Close(STDOUT)]
  {
    tty := new TTY(line);
    var r := tty.SetupRaw(None, setReply);
    SettledSkipsInterrupts(n, [Ok(())]);
    o, trace := tty.Drop(seq(n, _ => Err(INTERRUPTED)) + [Ok(())]);
  }

  /** A `struct termios` the caller of `setup_raw` owns and passes by pointer. */
  class TermiosSlot {
    var value: Termios

    constructor (value: Termios)
      ensures this.value == value
    {
      this.value := value;
    }
  }

  const CANNOT_READ_ATTRIBUTES: string := "Unable to read terminal attributes: %m"
  const CANNOT_SET_ATTRIBUTES: string := "Unable to set terminal attributes: %m"

  /** What `setup_raw` ended with. */
  datatype CSetupEnd = SetUp | NotATerminal | Died(message: string)

  /** `setup_raw(save)` of deptyr.c: if the attributes of stdin cannot be read it
      prints a line and returns without touching the terminal; otherwise it stores
      them through `save`, and sets their raw-mode transform or dies. */
  method CSetupRaw(line: Line, save: TermiosSlot, getFails: Option<NixError>, setReply: Result<(), NixError>)
    returns (e: CSetupEnd, trace: seq<Action>)
    modifies line, save
    ensures getFails.Some? ==>
              && e == NotATerminal && trace == [Log(CANNOT_READ_ATTRIBUTES)]
              && line.attrs == old(line.attrs) && save.value == old(save.value)
    ensures getFails.None? ==> save.value == old(line.attrs) && trace == []
    ensures getFails.None? && setReply.Ok? ==> e == SetUp && line.attrs == Raw(old(line.attrs))
    ensures getFails.None? && setReply.Err? ==> e == Died(CANNOT_SET_ATTRIBUTES) && line.attrs == old(line.attrs)
  {
    trace := [];
    var termios := line.GetAttr(getFails);
    if termios.Err? {
      return NotATerminal, [Log(CANNOT_READ_ATTRIBUTES)];
    }
    save.value := termios.value;
    var done := line.SetAttr(Raw(save.value), setReply);
    if done.Err? {
      return Died(CANNOT_SET_ATTRIBUTES), trace;
    }
    e := SetUp;
  }
}
