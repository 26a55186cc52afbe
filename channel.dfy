/** The descriptor-passing channel of src/unix_socket.rs: the head's listening socket,
    which receives one PTY descriptor per accepted connection and removes its path
    when dropped, and the runner's side, which retries connecting once a second and
    sends one descriptor. */
module Channel {
  import opened Os
  import FdIo

  /** ENOENT and EADDRINUSE on Linux. */
  const ENOENT: Errno := Errno(2)
  const EADDRINUSE: Errno := Errno(98)

  /** The paths that exist on the filesystem, as far as the channel is concerned. */
  class FileSystem {
    var files: set<string>

    constructor (files: set<string>)
      ensures this.files == files
    {
      this.files := files;
    }

    /** Binding a Unix socket to `path` creates the socket file there; the kernel
        refuses a path that already exists. `reply` is the kernel's answer otherwise. */
    method Bind(path: string, reply: Result<RawFd, IoError>) returns (r: Result<RawFd, IoError>)
      modifies this
      ensures path in old(files) ==> r == Err(OsError(EADDRINUSE)) && files == old(files)
      ensures path !in old(files) ==> r == reply
      ensures path !in old(files) ==> files == if reply.Ok? then old(files) + {path} else old(files)
    {
      if path in files {
        return Err(OsError(EADDRINUSE));
      }
      r := reply;
      if r.Ok? {
        files := files + {path};
      }
    }

    /** `std::fs::remove_file(path)`: fails with ENOENT when nothing is there, and
        otherwise with the kernel's `reply`. */
    method Remove(path: string, reply: Result<(), IoError>) returns (r: Result<(), IoError>)
      modifies this
      ensures path !in old(files) ==> r == Err(OsError(ENOENT)) && files == old(files)
      ensures path in old(files) ==> r == reply
      ensures path in old(files) ==> files == if reply.Ok? then old(files) - {path} else old(files)
    {
      if path !in files {
        return Err(OsError(ENOENT));
      }
      r := reply;
      if r.Ok? {
        files := files - {path};
      }
    }
  }

  /** `ListenError`: a wait interrupted on purpose, a nix error of the wait, or an
      I/O error of the accept or the receive. */
  datatype ListenError = Canceled | Nix(nix: NixError) | Io(io: IoError)

  /** `From<io::Error> for ListenError`. */
  function FromIo(err: IoError): (e: ListenError)
    ensures e.Io? && e.io == err
  {
    ListenError.Io(err)
  }

  /** What one `receive_pty` did: the descriptor it hands over, or why not, and the
      calls it made. */
  datatype Received = Received(res: Result<FdIo.OwnedFd, ListenError>, trace: seq<Action>)

  /** How dropping a `ListenSocket` ended. */
  datatype Teardown = Removed | Panicked(error: IoError)

  /** `ListenSocket` of src/unix_socket.rs: the bound path and the listening socket. */
  class ListenSocket {
    const path: string
    const listener: RawFd
    const fs: FileSystem

    constructor (path: string, listener: RawFd, fs: FileSystem)
      ensures this.path == path && this.listener == listener && this.fs == fs
    {
      this.path := path;
      this.listener := listener;
      this.fs := fs;
    }

    /** `ListenSocket::receive_pty`: wait for a connection on the listener, accept
        it, receive one descriptor from it, close it, and hand the descriptor over
        as an owned one. An interrupted wait is a cancellation, any other failure of
        the wait a nix error, a failure to accept or receive an I/O error. */
    function ReceivePty(wait: Result<(), NixError>, accept: Result<RawFd, IoError>,
                        recv: Result<RawFd, IoError>): (x: Received)
      ensures x.res == Err(Canceled) <==> wait == Err(INTERRUPTED)
      ensures wait.Err? && wait.error != INTERRUPTED ==> x.res == Err(ListenError.Nix(wait.error))
      ensures wait.Ok? && accept.Err? ==> x.res == Err(ListenError.Io(accept.error))
      ensures wait.Ok? && accept.Ok? && recv.Err? ==> x.res == Err(ListenError.Io(recv.error))
      ensures x.res.Ok? <==> wait.Ok? && accept.Ok? && recv.Ok?
      ensures x.res.Ok? ==> x.res.value == FdIo.OwnedFd(recv.value)
      ensures |x.trace| >= 1 && x.trace[0] == SelectListener(listener)
    {
      match wait
      case Err(e) =>
        Received(if e == INTERRUPTED then Err(Canceled) else Err(ListenError.Nix(e)), [SelectListener(listener)])
      case Ok(_) =>
        match accept
        case Err(e) => Received(Err(FromIo(e)), [SelectListener(listener), Accept(listener)])
        case Ok(stream) =>
          var calls := [SelectListener(listener), Accept(listener), RecvFd(stream), Close(stream)];
          match recv
          case Err(e) => Received(Err(FromIo(e)), calls)
          case Ok(fd) => Received(Ok(FdIo.OwnedFd(fd)), calls)
    }

    /** `Drop for ListenSocket`: remove the bound path, and panic if that fails.
        The listener field is dropped afterwards (a panic unwinds through the same
        drop), which closes the listening socket. */
    method Drop(reply: Result<(), IoError>) returns (o: Teardown, trace: seq<Action>)
      modifies fs
      ensures path !in old(fs.files) ==> o == Panicked(OsError(ENOENT)) && fs.files == old(fs.files)
      ensures path in old(fs.files) ==> o == if reply.Ok? then Removed else Panicked(reply.error)
      ensures o == Removed ==> fs.files == old(fs.files) - {path}
      ensures o.Panicked? ==> fs.files == old(fs.files)
      ensures trace == [RemoveFile(path), Close(listener)]
    {
      var r := fs.Remove(path, reply);
      o := if r.Ok? then Removed else Panicked(r.error);
      trace := [RemoveFile(path), Close(listener)];
    }
  }

  /** `ListenSocket::listen(path)`: bind a listener to `path`. When binding fails no
      `ListenSocket` exists, so nothing will remove the path. */
  method Listen(fs: FileSystem, path: string, bindReply: Result<RawFd, IoError>)
    returns (r: Result<ListenSocket, Error>)
    modifies fs
    ensures r.Ok? <==> path !in old(fs.files) && bindReply.Ok?
    ensures r.Ok? ==> fresh(r.value) && r.value.path == path && r.value.fs == fs
                      && r.value.listener == bindReply.value && fs.files == old(fs.files) + {path}
    ensures r.Err? ==> fs.files == old(fs.files)
    ensures r.Err? ==> r.error == Error.Io(if path in old(fs.files) then OsError(EADDRINUSE) else bindReply.error)
  {
    var bound := fs.Bind(path, bindReply);
    if bound.Err? {
      return Err(Error.Io(bound.error));
    }
    var socket := new ListenSocket(path, bound.value, fs);
    r := Ok(socket);
  }

  /** A head that binds its path and is later dropped leaves the filesystem as it
      found it, so the next head can bind the same path; while it lives, a second
      bind of the path fails. */
  method ListenThenDrop(fs: FileSystem, path: string, listener: RawFd, other: Result<RawFd, IoError>)
    returns (second: Result<ListenSocket, Error>, o: Teardown)
    requires path !in fs.files
    modifies fs
    ensures second.Err? && second.error == Error.Io(OsError(EADDRINUSE))
    ensures o == Removed && fs.files == old(fs.files)
  {
    var first := Listen(fs, path, Ok(listener));
    second := Listen(fs, path, other);
    var closed;
    o, closed := first.value.Drop(Ok(()));
  }

  /** One accepted connection carries exactly one descriptor: a receive happens only
      on the stream just accepted, at most once, and a descriptor is handed over only
      after that stream has been closed. */
  lemma OneDescriptorPerConnection(ls: ListenSocket, wait: Result<(), NixError>,
                                   accept: Result<RawFd, IoError>, recv: Result<RawFd, IoError>)
    ensures var x := ls.ReceivePty(wait, accept, recv);
            && (forall k :: 0 <= k < |x.trace| && x.trace[k].RecvFd? ==>
                  k == 2 && x.trace[1] == Accept(ls.listener) && x.trace[k].socket == accept.value)
            && (x.res.Ok? ==> |x.trace| == 4 && x.trace[3] == Close(accept.value))
            && (accept.Ok? && wait.Ok? ==> x.trace[|x.trace| - 1] == Close(accept.value))
  {
  }

  const RETRY_MESSAGE: string := ". Retrying in 1s..."

  /** The line `try_connect` prints for a failed attempt (the error's debug text is
      not modelled). */
  function RetryLog(path: string): Action {
    Log("Could not connect to " + path + RETRY_MESSAGE)
  }

  /** The calls of `k` failed attempts: each is a connect, a line printed, and a
      one-second sleep. */
  function Retries(path: string, k: nat): (t: seq<Action>)
    ensures |t| == 3 * k
  {
    if k == 0 then [] else Retries(path, k - 1) + [Connect(path), RetryLog(path), Sleep(1)]
  }

  /** Attempt `j` (from 0) of a run of failed attempts is a connect, then the line,
      then the sleep. */
  lemma {:induction false} RetriesAt(path: string, k: nat, j: nat)
    requires j < k
    ensures Retries(path, k)[3 * j] == Connect(path)
    ensures Retries(path, k)[3 * j + 1] == RetryLog(path)
    ensures Retries(path, k)[3 * j + 2] == Sleep(1)
  {
    if j < k - 1 {
      RetriesAt(path, k - 1, j);
    }
  }

  /** The position of the first successful connect among `replies`, or `|replies|`. */
  function FirstConnected(replies: seq<Result<RawFd, IoError>>): (k: nat)
    ensures k <= |replies|
    ensures forall j :: 0 <= j < k ==> replies[j].Err?
    ensures k < |replies| ==> replies[k].Ok?
  {
    if |replies| == 0 || replies[0].Ok? then 0 else 1 + FirstConnected(replies[1..])
  }

  datatype Connecting = Connecting(socket: Outcome<RawFd>, trace: seq<Action>)

  /** `try_connect(path)`: failed attempts, then the first connection that succeeds. */
  function Attempts(path: string, replies: seq<Result<RawFd, IoError>>): (c: Connecting)
    ensures c.socket.Returned? <==> exists j :: 0 <= j < |replies| && replies[j].Ok?
    ensures c.socket.Returned? ==> c.socket.value == replies[FirstConnected(replies)].value
    ensures c.socket.Returned? ==> |c.trace| == 3 * FirstConnected(replies) + 1 && c.trace[|c.trace| - 1] == Connect(path)
    ensures c.socket.Pending? ==> |c.trace| == 3 * |replies|
  {
    var k := FirstConnected(replies);
    if k == |replies| then Connecting(Pending, Retries(path, k))
    else Connecting(Returned(replies[k].value), Retries(path, k) + [Connect(path)])
  }

  /** `try_connect(socket_path)` of src/unix_socket.rs (and, identically, of
      src/main.rs): connect, and on failure print a line, sleep a second and try
      again, until a connection succeeds. */
  method TryConnect(path: string, replies: seq<Result<RawFd, IoError>>)
    returns (socket: Outcome<RawFd>, trace: seq<Action>)
    ensures Connecting(socket, trace) == Attempts(path, replies)
  {
    var i := 0;
    trace := [];
    while i < |replies|
      invariant 0 <= i <= |replies|
      invariant forall j :: 0 <= j < i ==> replies[j].Err?
      invariant trace == Retries(path, i)
      decreases |replies| - i
    {
      match replies[i]
      case Ok(s) =>
        FirstConnectedAt(replies, i);
        return Returned(s), trace + [Connect(path)];
      case Err(_) =>
        trace := trace + [Connect(path), RetryLog(path), Sleep(1)];
        i := i + 1;
    }
    FirstConnectedAt(replies, i);
    socket := Pending;
  }

  lemma {:induction false} FirstConnectedAt(replies: seq<Result<RawFd, IoError>>, i: nat)
    requires i <= |replies|
    requires forall j :: 0 <= j < i ==> replies[j].Err?
    requires i < |replies| ==> replies[i].Ok?
    ensures FirstConnected(replies) == i
  {
    if i > 0 {
      FirstConnectedAt(replies[1..], i - 1);
    }
  }

  /** `try_connect` returns the socket of the first attempt that succeeds, makes no
      attempt after it, and has slept one second after every failed one. */
  lemma {:induction false} ConnectsOnce(path: string, replies: seq<Result<RawFd, IoError>>, k: nat)
    requires k < |replies| && replies[k].Ok?
    requires forall j :: 0 <= j < k ==> replies[j].Err?
    ensures var c := Attempts(path, replies);
            && c.socket == Returned(replies[k].value)
            && |c.trace| == 3 * k + 1
            && c.trace[3 * k] == Connect(path)
            && (forall j :: 0 <= j < k ==> c.trace[3 * j] == Connect(path) && c.trace[3 * j + 2] == Sleep(1))
  {
    FirstConnectedAt(replies, k);
    var c := Attempts(path, replies);
    forall j | 0 <= j < k
      ensures c.trace[3 * j] == Connect(path) && c.trace[3 * j + 2] == Sleep(1)
    {
      RetriesAt(path, k, j);
    }
  }

  /** `send_control_pty(path, controlling_fd)`: connect, send the PTY's descriptor
      once, then drop the socket and the PTY, which closes both. */
  method SendControlPty(path: string, pty: RawFd, connects: seq<Result<RawFd, IoError>>,
                        send: Result<(), IoError>)
    returns (res: Outcome<Result<(), Error>>, trace: seq<Action>)
    ensures var c := Attempts(path, connects);
            && (c.socket.Pending? ==> res == Pending && trace == c.trace)
            && (c.socket.Returned? ==>
                  && trace == c.trace + [SendFd(c.socket.value, pty), Close(c.socket.value), Close(pty)]
                  && res == Returned(if send.Ok? then Ok(()) else Err(Error.Io(send.error))))
    ensures forall k :: 0 <= k < |trace| && trace[k].SendFd? ==> k == |trace| - 3 && trace[k].sent == pty
  {
    var socket;
    socket, trace := TryConnect(path, connects);
    ghost var c := Attempts(path, connects);
    assert forall k :: 0 <= k < |trace| ==> !trace[k].SendFd? by {
      var n := FirstConnected(connects);
      forall k | 0 <= k < 3 * n ensures !Retries(path, n)[k].SendFd? {
        RetriesAt(path, n, k / 3);
      }
    }
    if socket.Pending? {
      return Pending, trace;
    }
    trace := trace + [SendFd(socket.value, pty), Close(socket.value), Close(pty)];
    res := Returned(if send.Ok? then Ok(()) else Err(Error.Io(send.error)));
  }
}
