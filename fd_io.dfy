/** `FdIo` of src/fd_io.rs: `std::io::Read` and `std::io::Write` over a descriptor it
    owns, with nix's errors translated into `std::io::Error`s. */
module FdIo {
  import opened Os

  /** `owned_fd::OwnedFd`: the sole owner of one raw descriptor. */
  datatype OwnedFd = OwnedFd(raw: RawFd)

  datatype FdIo = FdIo(fd: OwnedFd)

  /** Dropping the owner of a descriptor: `OwnedFd`'s destructor closes it. */
  function Release(f: FdIo): seq<Action> {
    [Close(f.fd.raw)]
  }

  /** `FdIo::from`: ownership of the handle's descriptor moves into the new value,
      so dropping the value closes that descriptor, once, and nothing else. */
  function From(raw: RawFd): (f: FdIo)
    ensures f.fd.raw == raw
    ensures Release(f) == [Close(raw)]
  {
    FdIo(OwnedFd(raw))
  }

  /** `translate_nix_result`. */
  function TranslateNixResult<T>(res: Result<T, NixError>): (r: Result<T, IoError>)
    ensures r.Ok? <==> res.Ok?
    ensures r.Ok? ==> r.value == res.value
    ensures r.Err? ==> (r.error.OsError? <==> res.error.Sys?)
    ensures r.Err? && res.error.Sys? ==> r.error.errno == res.error.errno
    ensures r.Err? && !res.error.Sys? ==> r.error.kind == Other
  {
    match res
    case Ok(v) => Ok(v)
    case Err(Sys(e)) => Err(OsError(e))
    case Err(e) => Err(Custom(Other, e))
  }

  /** `io::Error::raw_os_error`: the errno an error carries, if it carries one. */
  function RawOsError(e: IoError): Option<Errno> {
    match e
    case OsError(n) => Some(n)
    case Custom(_, _) => None
  }

  /** The translation loses nothing: different nix results give different io
      results, and the io error carries an errno exactly when the nix error was a
      system error with that errno. */
  lemma TranslateIsFaithful<T>(a: Result<T, NixError>, b: Result<T, NixError>, n: Errno)
    ensures TranslateNixResult(a) == TranslateNixResult(b) ==> a == b
    ensures a.Err? ==> (RawOsError(TranslateNixResult(a).error) == Some(n) <==> a.error == Sys(n))
  {
    if a.Err? && b.Err? && TranslateNixResult(a) == TranslateNixResult(b) {
      assert a.error == b.error by {
        match a.error
        case Sys(_) =>
        case _ =>
      }
    }
  }

  /** An I/O call on a descriptor: what it reports and the call it made. */
  datatype Transfer<+T> = Transfer(res: Result<T, IoError>, trace: seq<Action>)

  /** `<FdIo as io::Read>::read` with the reply of read(2) on the owned descriptor:
      the bytes it placed in the buffer, or its error. */
  function Read(f: FdIo, reply: Result<seq<byte>, NixError>): (x: Transfer<nat>)
    ensures x.res == TranslateNixResult(if reply.Ok? then Ok(|reply.value|) else Err(reply.error))
    ensures x.trace == [if reply.Ok? then Os.Read(f.fd.raw, reply.value) else ReadFailed(f.fd.raw)]
  {
    match reply
    case Ok(data) => Transfer(TranslateNixResult(Ok(|data|)), [Os.Read(f.fd.raw, data)])
    case Err(e) => Transfer(TranslateNixResult(Err(e)), [ReadFailed(f.fd.raw)])
  }

  /** `<FdIo as io::Write>::write` of `buf` with the reply of write(2) on the owned
      descriptor: the count it reports and the bytes the descriptor accepted (a
      count above `|buf|`, which the kernel never reports, accepts `buf`). */
  function Write(f: FdIo, buf: seq<byte>, reply: Result<nat, NixError>): (x: Transfer<nat>)
    ensures x.res == TranslateNixResult(reply)
    ensures reply.Ok? ==> x.trace == [Os.Write(f.fd.raw, buf[..Min(reply.value, |buf|)])]
    ensures reply.Err? ==> x.trace == [Os.Write(f.fd.raw, [])]
  {
    var accepted := if reply.Ok? then buf[..Min(reply.value, |buf|)] else [];
    Transfer(TranslateNixResult(reply), [Os.Write(f.fd.raw, accepted)])
  }

  /** `<FdIo as io::Write>::flush`: nothing is buffered, so there is nothing to do. */
  function Flush(f: FdIo): (r: Result<(), IoError>)
    ensures r.Ok?
  {
    Ok(())
  }
}
