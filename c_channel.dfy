/** unix_socket.c: the server and client sockets of the C revision, and the message
    that carries one descriptor as ancillary data. A message is modelled as its data
    bytes and its list of control headers; the byte layout of the control buffer
    (`CMSG_SPACE`, `CMSG_LEN`, alignment) is not. */
module CChannel {
  import opened Os
  import Channel

  /** SOL_SOCKET and SCM_RIGHTS on Linux, and a level/type pair that is not them
      (SCM_CREDENTIALS). */
  const SOL_SOCKET: int := 1
  const SCM_RIGHTS: int := 1
  const SCM_CREDENTIALS: int := 2

  /** One control message header, with the descriptor at the start of its data. */
  datatype ControlHeader = ControlHeader(level: int, kind: int, data: RawFd)

  /** `struct msghdr` as the two functions use it: the bytes of its single iovec and
      its control headers in order. */
  datatype Message = Message(payload: seq<byte>, control: seq<ControlHeader>)

  /** ' ', the one data byte sent along with the descriptor. */
  const SPACE: byte := 32

  predicate IsRights(h: ControlHeader) {
    h.level == SOL_SOCKET && h.kind == SCM_RIGHTS
  }

  /** The message `send_file_descriptor` hands to sendmsg: one data byte, so that
      recvmsg cannot return 0, and one SCM_RIGHTS header carrying `fd`. */
  function FdMessage(fd: RawFd): (m: Message)
    ensures m.payload == [SPACE]
    ensures |m.control| == 1 && IsRights(m.control[0]) && m.control[0].data == fd
  {
    Message([SPACE], [ControlHeader(SOL_SOCKET, SCM_RIGHTS, fd)])
  }

  /** `send_file_descriptor(socket, fd_to_send)`: fill in the message field by field
      and return what sendmsg returns (`reply`). `sent` is the message handed over. */
  method SendFileDescriptor(socket: RawFd, fdToSend: RawFd, reply: int) returns (rv: int, sent: Message)
    ensures sent == FdMessage(fdToSend)
    ensures rv == reply
  {
    var data := [0 as byte];
    var header := ControlHeader(0, 0, 0);
    data := data[0 := SPACE];
    header := header.(level := SOL_SOCKET);
    header := header.(kind := SCM_RIGHTS);
    header := header.(data := fdToSend);
    sent := Message(data, [header]);
    rv := reply;
  }

  /** The first SCM_RIGHTS header's descriptor, if there is such a header. */
  function FirstRights(hs: seq<ControlHeader>): (r: Option<RawFd>)
    ensures r.None? <==> forall i :: 0 <= i < |hs| ==> !IsRights(hs[i])
    ensures r.Some? ==> exists i :: 0 <= i < |hs| && IsRights(hs[i]) && hs[i].data == r.value
                                  && forall j :: 0 <= j < i ==> !IsRights(hs[j])
  {
    if |hs| == 0 then None
    else if IsRights(hs[0]) then Some(hs[0].data)
    else
      var r := FirstRights(hs[1..]);
      assert forall i :: 1 <= i < |hs| ==> hs[i] == hs[1..][i - 1];
      r
  }

  /** What recvmsg reports: its return value and the message it filled in. */
  datatype RecvReply = RecvReply(rv: int, message: Message)

  /** What `recv_file_descriptor` returns for a reply of recvmsg. */
  function ReceivedFd(reply: RecvReply): (fd: int)
    ensures reply.rv <= 0 ==> fd == reply.rv
    ensures reply.rv > 0 && FirstRights(reply.message.control).None? ==> fd == -1
    ensures reply.rv > 0 ==> forall i :: 0 <= i < |reply.message.control| && IsRights(reply.message.control[i])
                                         && (forall j :: 0 <= j < i ==> !IsRights(reply.message.control[j]))
                                         ==> fd == reply.message.control[i].data
  {
    if reply.rv <= 0 then reply.rv
    else match FirstRights(reply.message.control)
         case Some(fd) => fd
         case None => -1
  }

  /** `recv_file_descriptor(socket)`: a recvmsg result of 0 or less is returned as it
      is; otherwise the control headers are walked in order and the descriptor of the
      first SCM_RIGHTS one returned, or -1 when there is none. */
  method RecvFileDescriptor(socket: RawFd, reply: RecvReply) returns (fd: int)
    ensures fd == ReceivedFd(reply)
    ensures reply.rv <= 0 ==> fd == reply.rv
    ensures reply.rv > 0 && (forall i :: 0 <= i < |reply.message.control| ==> !IsRights(reply.message.control[i])) ==> fd == -1
  {
    if reply.rv <= 0 {
      return reply.rv;
    }
    var hs := reply.message.control;
    var i := 0;
    while i < |hs|
      invariant 0 <= i <= |hs|
      invariant forall j :: 0 <= j < i ==> !IsRights(hs[j])
      decreases |hs| - i
    {
      if hs[i].level == SOL_SOCKET && hs[i].kind == SCM_RIGHTS {
        FirstRightsAt(hs, i);
        return hs[i].data;
      }
      i := i + 1;
    }
    fd := -1;
  }

  /** The first SCM_RIGHTS header found by a walk from the front is the one
      `FirstRights` names. */
  lemma {:induction false} FirstRightsAt(hs: seq<ControlHeader>, i: nat)
    requires i < |hs| && IsRights(hs[i])
    requires forall j :: 0 <= j < i ==> !IsRights(hs[j])
    ensures FirstRights(hs) == Some(hs[i].data)
  {
    if i > 0 {
      FirstRightsAt(hs[1..], i - 1);
    }
  }

  /** The kernel delivering `m` whole: recvmsg returns the number of data bytes. */
  function Deliver(m: Message): RecvReply {
    RecvReply(|m.payload|, m)
  }

  /** Round trip: receiving the message `send_file_descriptor` builds yields the
      descriptor it was given, even when headers of other kinds (credentials, say)
      come before it. The data byte is what keeps recvmsg from returning 0. */
  lemma {:induction false} RoundTrip(fd: RawFd, others: seq<ControlHeader>)
    requires forall i :: 0 <= i < |others| ==> !IsRights(others[i])
    ensures ReceivedFd(Deliver(FdMessage(fd))) == fd
    ensures ReceivedFd(Deliver(Message(FdMessage(fd).payload, others + FdMessage(fd).control))) == fd
  {
    var hs := others + FdMessage(fd).control;
    assert hs[|others|] == FdMessage(fd).control[0];
    FirstRightsAt(hs, |others|);
    FirstRightsAt(FdMessage(fd).control, 0);
  }

  /** Without the data byte the round trip would fail: a reply of 0 is returned as
      it is, whatever the headers hold. */
  lemma EmptyPayloadLosesDescriptor(fd: RawFd)
    requires fd != 0
    ensures ReceivedFd(Deliver(Message([], FdMessage(fd).control))) != fd
  {
  }

  const SOCKET_FAILED: string := "Failed to create server socket"
  const BIND_FAILED: string := "Failed to bind server socket"
  const LISTEN_FAILED: string := "Failed to listen on server socket"
  const CLIENT_SOCKET_FAILED: string := "Failed to create client socket"
  const CONNECT_FAILED: string := "Failed to connect to server"

  /** How `create_server` and `connect_server` end: with a descriptor, or in `die`. */
  datatype SetupEnd = Ready(fd: RawFd) | Died(message: string)

  /** `create_server(socket_path)`: create a socket, remove whatever is at the path
      (ignoring the outcome), bind, listen; any failure but the removal's dies.
      `socketRv` is what socket(2) returns, `bindFails` and `listenFails` whether
      those calls fail. */
  method CreateServer(fs: Channel.FileSystem, path: string, socketRv: int, unlinkReply: Result<(), IoError>,
                      bindFails: Option<Errno>, listenFails: bool)
    returns (e: SetupEnd, trace: seq<Action>)
    modifies fs
    ensures socketRv < 0 ==> e == Died(SOCKET_FAILED) && trace == [Socket] && fs.files == old(fs.files)
    ensures socketRv >= 0 ==> |trace| >= 3 && trace[..3] == [Socket, Unlink(path), Bind(socketRv, path)]
    ensures e.Ready? <==> socketRv >= 0 && bindFails.None? && !listenFails
                          && (path in old(fs.files) ==> unlinkReply.Ok?)
    ensures e.Ready? ==> e.fd == socketRv && trace == [Socket, Unlink(path), Bind(socketRv, path), Listen(socketRv)]
                         && path in fs.files
    ensures socketRv >= 0 ==>
              var cleared := if path in old(fs.files) && unlinkReply.Ok? then old(fs.files) - {path} else old(fs.files);
              var bound := path !in cleared && bindFails.None?;
              && (e == Died(BIND_FAILED) <==> !bound)
              && (e == Died(LISTEN_FAILED) <==> bound && listenFails)
              && (!bound ==> trace == [Socket, Unlink(path), Bind(socketRv, path)])
              && fs.files == if bound then cleared + {path} else cleared
  {
    trace := [Socket];
    if socketRv < 0 {
      return Died(SOCKET_FAILED), trace;
    }
    var fd := socketRv;
    var _ := fs.Remove(path, unlinkReply);
    trace := trace + [Unlink(path), Bind(fd, path)];
    var bound := fs.Bind(path, if bindFails.None? then Ok(fd) else Err(OsError(bindFails.value)));
    if bound.Err? {
      return Died(BIND_FAILED), trace;
    }
    trace := trace + [Listen(fd)];
    if listenFails {
      return Died(LISTEN_FAILED), trace;
    }
    e := Ready(fd);
  }

  /** A stale file at the path does not stop `create_server` (unlike
      `ListenSocket::listen`, which fails on it): it is removed before the bind. */
  method CreateServerOverStaleFile(fs: Channel.FileSystem, path: string, fd: RawFd)
    returns (e: SetupEnd)
    requires fd >= 0 && path in fs.files
    modifies fs
    ensures e == Ready(fd) && path in fs.files
  {
    var trace;
    e, trace := CreateServer(fs, path, fd, Ok(()), None, false);
  }

  /** `connect_server(socket_path)`: create a socket and connect it to the path;
      either failure dies, success returns the connected socket. */
  function ConnectServer(path: string, socketRv: int, connectFails: bool): (x: (SetupEnd, seq<Action>))
    ensures x.0.Ready? <==> socketRv >= 0 && !connectFails
    ensures x.0.Ready? ==> x.0.fd == socketRv && x.1 == [Socket, Connect(path)]
    ensures socketRv < 0 ==> x.0 == Died(CLIENT_SOCKET_FAILED)
    ensures socketRv >= 0 && connectFails ==> x.0 == Died(CONNECT_FAILED)
  {
    if socketRv < 0 then (Died(CLIENT_SOCKET_FAILED), [Socket])
    else if connectFails then (Died(CONNECT_FAILED), [Socket, Connect(path)])
    else (Ready(socketRv), [Socket, Connect(path)])
  }
}
