/** Window sizes: the fallback size and `resize_pty`, which copies the local
    terminal's size to the PTY (src/main.rs, src/tty.rs, deptyr.c). */
module WindowSize {
  import opened Os

  /** `default_winsize()` of src/main.rs and src/tty.rs. */
  function DefaultWinsize(): Winsize {
    Winsize(80, 30, 640, 480)
  }

  /** The fallback `{30, 80, 640, 480}` of `resize_pty` in deptyr.c, in the field
      order of `struct winsize`. */
  function CFallbackWinsize(): Winsize {
    Winsize(30, 80, 640, 480)
  }

  /** The two revisions disagree: the Rust fallback is the C fallback with rows and
      columns swapped. */
  lemma FallbacksTransposed()
    ensures DefaultWinsize().wsRow == CFallbackWinsize().wsCol
    ensures DefaultWinsize().wsCol == CFallbackWinsize().wsRow
    ensures DefaultWinsize().wsXpixel == CFallbackWinsize().wsXpixel == 640
    ensures DefaultWinsize().wsYpixel == CFallbackWinsize().wsYpixel == 480
    ensures DefaultWinsize() != CFallbackWinsize()
  {
  }

  /** `set_winsize(fd, ws)` (`tty_set_winsize` in src/main.rs): the TIOCSWINSZ ioctl
      whose reply is `reply`; on success it hands back the very size it applied. */
  function ApplyWinsize(fd: RawFd, ws: Winsize, reply: Result<(), NixError>): (r: Result<Winsize, NixError>)
    ensures r.Ok? <==> reply.Ok?
    ensures r.Ok? ==> r.value == ws
    ensures r.Err? ==> r.error == reply.error
  {
    match reply
    case Ok(_) => Ok(ws)
    case Err(e) => Err(e)
  }

  /** The kernel's replies to the two ioctls of one resize: the size query on the
      local terminal and the size update on the PTY. */
  datatype ResizeEnv = ResizeEnv(query: Result<Winsize, NixError>, update: Result<(), NixError>)

  datatype Resized = Resized(res: Result<(), NixError>, trace: seq<Action>)

  /** `resize_pty`: the size of the terminal on `local` if it can report one,
      otherwise the default. */
  function Chosen(env: ResizeEnv): Winsize {
    match env.query
    case Ok(ws) => ws
    case Err(_) => DefaultWinsize()
  }

  /** `resize_pty(pty)` of src/main.rs (`local` is stdin) and `TTY::resize_pty` of
      src/tty.rs (`local` is the TTY's input): one query on `local`, then one update
      of `pty`; only the update's failure is reported. */
  function ResizePty(local: RawFd, pty: RawFd, env: ResizeEnv): (z: Resized)
    ensures z.trace == [GetWinsize(local), SetWinsize(pty, Chosen(env))]
    ensures env.query.Ok? ==> z.trace[1].size == env.query.value
    ensures env.query.Err? ==> z.trace[1].size == DefaultWinsize()
    ensures z.res.Ok? <==> env.update.Ok?
    ensures z.res.Err? ==> z.res.error == env.update.error
  {
    var applied := ApplyWinsize(pty, Chosen(env), env.update);
    Resized(if applied.Ok? then Ok(()) else Err(applied.error),
            [GetWinsize(local), SetWinsize(pty, Chosen(env))])
  }

  /** The kernel's replies to `resize_pty` of deptyr.c: the size of stdin, if it has
      one, and whether the update of the PTY succeeded. */
  datatype CResizeEnv = CResizeEnv(query: Option<Winsize>, setOk: bool)

  const CANNOT_SET_SIZE: string := "Cannot set terminal size"

  /** `resize_pty(pty)` of deptyr.c: the queried size is applied and a failure to apply
      it ignored; the fallback is applied when there is none, and only a failure to
      apply the fallback is reported, as a message. */
  function CResizePty(pty: RawFd, env: CResizeEnv): (trace: seq<Action>)
    ensures |trace| >= 2 && trace[0] == GetWinsize(STDIN) && trace[1].SetWinsize? && trace[1].fd == pty
    ensures env.query.Some? ==> trace == [GetWinsize(STDIN), SetWinsize(pty, env.query.value)]
    ensures env.query.None? ==> trace[1].size == CFallbackWinsize()
    ensures Log(CANNOT_SET_SIZE) in trace <==> env.query.None? && !env.setOk
  {
    match env.query
    case Some(sz) => [GetWinsize(STDIN), SetWinsize(pty, sz)]
    case None =>
      [GetWinsize(STDIN), SetWinsize(pty, CFallbackWinsize())]
      + (if env.setOk then [] else [Log(CANNOT_SET_SIZE)])
  }
}
