/** Values shared by every part of the model: bytes and descriptors, errno values,
    the error types of the `nix` and `std::io` libraries, the records the terminal
    system calls exchange, and the trace of system calls the model records.

    System calls are not performed: each operation is given the replies the kernel
    would make (an oracle) and records, as a sequence of `Action`s, the calls it
    made with their arguments. */
module Os {

  newtype byte = x: int | 0 <= x < 0x100
  newtype u16 = x: int | 0 <= x < 0x1_0000

  /** A raw descriptor number, as `RawFd` in Rust and `int` in C. */
  type RawFd = int

  const STDIN: RawFd := 0
  const STDOUT: RawFd := 1
  const STDERR: RawFd := 2

  /** An errno value; the model only ever distinguishes EINTR from the rest. */
  datatype Errno = Errno(code: int)

  /** EINTR on Linux. */
  const EINTR: Errno := Errno(4)

  /** `nix::Error` of the nix version the program uses. */
  datatype NixError = Sys(errno: Errno) | InvalidPath | InvalidUtf8 | UnsupportedOperation

  /** The error a system call interrupted by a signal handler reports. */
  const INTERRUPTED: NixError := Sys(EINTR)

  /** The one `std::io::ErrorKind` the program constructs by hand. */
  datatype IoErrorKind = Other

  /** `std::io::Error`: either a raw OS error or a custom error with a kind and a cause. */
  datatype IoError = OsError(errno: Errno) | Custom(kind: IoErrorKind, cause: NixError)

  /** `failure::Error` as far as the program produces it: a wrapped nix or io error,
      or a message raised with `bail!`. */
  datatype Error = Nix(nix: NixError) | Io(io: IoError) | Bail(message: string)

  datatype Result<+T, +E> = Ok(value: T) | Err(error: E)

  datatype Option<+T> = None | Some(value: T)

  /** The model's answer for a loop that consumes scripted replies: either the call
      returned `value`, or the replies ran out while it was still retrying (the real
      program would still be inside the loop). */
  datatype Outcome<+T> = Returned(value: T) | Pending

  /** `struct winsize`: rows, columns, and the pixel width and height. */
  datatype Winsize = Winsize(wsRow: u16, wsCol: u16, wsXpixel: u16, wsYpixel: u16)

  /** Terminal attributes. Their bit-level content is not modelled; `raw` records
      whether they are the raw-mode transform of some attributes. */
  datatype Termios = Termios(settings: int, raw: bool)

  /** `cfmakeraw`: the raw-mode transform of `t`. Which flags it clears is not
      modelled. */
  function Raw(t: Termios): (r: Termios)
    ensures r.raw
  {
    t.(raw := true)
  }

  /** The system calls the model records, with the arguments that matter. */
  datatype Action =
    | Read(fd: RawFd, data: seq<byte>)         // a read that returned `data` (empty: end of file)
    | ReadFailed(fd: RawFd)                    // a read that reported an error
    | Write(fd: RawFd, data: seq<byte>)        // the write calls relaying one chunk; `data` is what the descriptor accepted
    | Wait                                     // select or pselect on the terminal and the PTY
    | GetWinsize(fd: RawFd)                    // ioctl TIOCGWINSZ
    | SetWinsize(fd: RawFd, size: Winsize)     // ioctl TIOCSWINSZ
    | Log(message: string)                     // a line printed for the user
    | Sleep(seconds: nat)
    | Socket
    | Connect(path: string)
    | Unlink(path: string)
    | Bind(fd: RawFd, path: string)
    | BindRefused(path: string)                // a new socket that could not be bound to `path` (and was closed again)
    | Listen(fd: RawFd)
    | SelectListener(fd: RawFd)                // select on the listening socket
    | Accept(fd: RawFd)
    | SendFd(socket: RawFd, sent: RawFd)
    | RecvFd(socket: RawFd)
    | Close(fd: RawFd)
    | RemoveFile(path: string)
    | OpenPt
    | GrantPt(fd: RawFd)
    | UnlockPt(fd: RawFd)
    | PtsName(fd: RawFd)
    | Open(path: string, mode: OpenMode)
    | Dup2(from: RawFd, to: RawFd)
    | SetPgid
    | SetSid
    | ExecVp(command: seq<string>)

  datatype OpenMode = ReadOnly | WriteOnly | ReadWrite

  function Min(a: int, b: int): int { if a <= b then a else b }
}
