# deptyr, modelled in Dafny

deptyr connects a command to a terminal that lives somewhere else. Both
subcommands take the socket path from the required `-s PATH` option. `deptyr -s
PATH interact` is the *head*. It binds a Unix socket and waits for
connections. Each connection carries the controlling side of a pseudo-terminal
(PTY). The head puts its own terminal into raw mode and relays bytes both ways
until either side reaches end of file, then restores the terminal and waits for
the next connection. `deptyr -s PATH run -- COMMAND ARGS...` is the *runner*. It connects
to the head, retrying once a second until it succeeds. It then opens a new PTY
and makes the PTY's client side the command's terminal and its stdin, stdout and
stderr. It sends the controlling descriptor to the head, closes it, and replaces
itself with the command. An older C revision (deptyr.c, unix_socket.c) has a
similar proxy loop, raw-mode setup, window sizing and descriptor passing. Its loop
serves stdin before the PTY, keeps going after a 0-byte read of stdin, and
ignores write failures. Its fallback window size has rows and columns swapped.

The model replaces every system call by the reply the kernel gives. An operation
takes the replies it will consume as parameters: one reply, or a sequence of
replies for a loop. It returns what the program returns and the trace of calls
it made (`Os.Action`). A loop that is still running when its replies run out
ends in `Pending`, which stands for "still looping in the real program". State
that the program changes in place is modelled by classes:

- the terminal's attributes (`Terminal.Line`);
- the SIGWINCH flag (`Proxy.SignalFlag`);
- the paths present on the filesystem (`Channel.FileSystem`);
- `TTY`'s saved mode (`Terminal.TTY`);
- the caller's `struct termios` (`Terminal.TermiosSlot`).

Each loop is a method proved equal to a specification function: the function
folded over the replies. The properties are proved as lemmas about those
functions.

Modules:

| file | module | models |
|---|---|---|
| os.dfy | `Os` | descriptors, errors, termios, window sizes, the action trace |
| window_size.dfy | `WindowSize` | `default_winsize`, `set_winsize`, `resize_pty` (both revisions) |
| relay.dfy | `Relay` | `proxy_write` and `writeall`, the write-all loop |
| proxy.dfy | `Proxy` | `interact_with_process`, the SIGWINCH flag, byte forwarding |
| c_proxy.dfy | `CProxy` | `do_proxy` |
| fd_io.dfy | `FdIo` | `FdIo`, `translate_nix_result` |
| terminal.dfy | `Terminal` | `RawTermios`, `TTY`, `setup_raw` of deptyr.c |
| channel.dfy | `Channel` | src/unix_socket.rs: `ListenSocket`, `try_connect`, `send_control_pty` |
| c_channel.dfy | `CChannel` | unix_socket.c: the descriptor message, `create_server`, `connect_server` |
| session.dfy | `Deptyr` | `interact` and `run` of src/main.rs |

## Model

| member | source | states |
|---|---|---|
| WindowSize.FallbacksTransposed | deptyr.c:67-78 | The fallback size of the C `resize_pty`, `{30, 80, 640, 480}`, is the Rust `default_winsize` (rows 80, cols 30, 640x480) with rows and columns swapped. The two differ. |
| WindowSize.DefaultWinsize | src/tty.rs:108-115 | The size used when the local terminal reports none: rows 80, columns 30, 640x480 pixels. Its relation to the C fallback is the contract of `FallbacksTransposed`, and its use is in the contract of `ResizePty`. |
| WindowSize.CFallbackWinsize | deptyr.c:71 | The C fallback `{30, 80, 640, 480}`. Its relation to the Rust default is the contract of `FallbacksTransposed`, and its use is in the contract of `CResizePty`. |
| WindowSize.ApplyWinsize | src/tty.rs:125-130 | `set_winsize` succeeds exactly when the ioctl does. On success it returns the very size it was given. On failure it returns the ioctl's error. |
| WindowSize.ResizePty | src/main.rs:243-255 | One size query on the local terminal, then one size update of the PTY. The update applies the queried size when the query succeeded and `default_winsize()` when it failed. The result is Ok exactly when the update succeeded, and otherwise carries the update's error. |
| WindowSize.CResizePty | deptyr.c:67-78 | The C `resize_pty` queries stdin, then sets the PTY to the queried size, or to the fallback when stdin has no size. It logs "Cannot set terminal size" exactly when the fallback could not be applied. A failure to apply a queried size is ignored. |
| Relay.DrainFacts | src/main.rs:199-213 | For any replies, the write-all loop gives the descriptor a prefix of the chunk. It gives all of the chunk exactly when the loop ended normally. No reply before the last one used is a hard failure. A failure ends the loop at the failing reply. Running out of replies means every reply was used. |
| Relay.Drain | src/main.rs:199-213 | The write-all loop as a function of the replies. An empty chunk makes no call, and no more calls are made than there are replies. What it writes and how it ends are the contracts of `DrainFacts`, `DrainStops`, `DrainIgnoresInterrupts` and `DrainCompletes`. |
| Relay.DrainPrefix | src/main.rs:199-213 | By induction over the replies: the bytes written are a prefix of the chunk, and equal to the chunk iff the loop ended with everything written. |
| Relay.DrainStops | src/main.rs:205-210 | By induction: any error other than EINTR stops the loop at once, on the first such reply. |
| Relay.DrainIgnoresInterrupts | src/main.rs:207-209 | EINTR is retried without advancing. Removing every interrupted reply changes neither the bytes written nor how the loop ends. |
| Relay.DrainCompletes | src/main.rs:199-213 | However the writer splits the chunk into short writes, and however many EINTRs it interleaves, the whole chunk is written in order if no write fails and the replies accept at least the chunk's length. |
| Relay.WriteAll | deptyr.c:80-93 | The `writeall` loop over `count` bytes, proved equal to the write-all loop on `buf[..count]`. It returns 0 once all bytes are out, the failing write's return value on a non-EINTR error, and `Pending` if replies run out. It also reports the bytes accepted and the number of write calls. |
| Relay.WriteAllReports | deptyr.c:80-93 | A count of zero or less returns 0 with no write. A return of 0 means exactly `buf[..count]` was written. A nonzero return is negative: the return value of the one write that failed with an errno other than EINTR. |
| Relay.RelayChunk | src/main.rs:194-214 | `proxy_write` returns `Ok(true)` exactly when the read returned 0 bytes, and then makes no write. `Ok(false)` means the chunk read was written whole. A failed read returns its error and makes no write. Any other error is a non-EINTR write error, on the last reply used. Every earlier reply was a count or EINTR. The replies run out exactly when the chunk was not empty, every reply was used, none failed, and part of the chunk is still unwritten. |
| Relay.ProxyWrite | src/main.rs:194-214 | The method reads into the buffer and writes from it. Its result, calls and writes consumed equal `RelayChunk`. The buffer's first bytes hold the chunk read. |
| Relay.WriteOut | src/main.rs:199-212 | The `while offset < n_read` loop is proved equal to the write-all loop on `buffer[..n]`: bytes written, calls made, and how it ended. |
| Proxy.SignalFlag.Handle | src/main.rs:139-141 | The SIGWINCH handler sets the flag. |
| Proxy.RustIteration | src/main.rs:164-191 | One iteration as a function of the flag and the replies. Its properties are the contracts of `IterationBegins`, `InterruptedWaitContinues`, `FailedWaitStops`, `PtyBeforeStdin`, `PtyStopSkipsStdin` and `IterationForwards`. |
| Proxy.RunTicks | src/main.rs:164-191 | The loop as the fold of `RustIteration` over the replies. Its properties are the contracts of `RunTicksUnfold`, `EndOfFileStops` and `SessionForwards`. |
| Proxy.InteractSpec | src/main.rs:143-192 | The session starts with the size query of stdin and the size update of the PTY. A failed first update returns its error at once, before any wait. Otherwise the result and the final flag are those of the loop. |
| Proxy.RustIterate | src/main.rs:164-191 | One iteration on the static flag and the buffer, proved equal to `RustIteration`. If the flag is set: clear it, then resize. Then pselect, then the PTY relay, then the stdin relay. |
| Proxy.InteractWithProcess | src/main.rs:143-192 | One resize before the loop, then the loop over the kernel's replies. Proved equal to `InteractSpec`: trace, final flag and result. |
| Proxy.RunTicksUnfold | src/main.rs:164-191 | The session seen from any iteration is that iteration followed by the rest. |
| Proxy.IterationBegins | src/main.rs:165-168 | The resize runs at the top of an iteration only when the flag was set, and before the wait. A failed resize ends the session with its error, leaves the flag cleared, and skips the wait. After the wait, the flag says whether SIGWINCH arrived during it. |
| Proxy.InterruptedWaitContinues | src/main.rs:172-176 | A pselect interrupted by EINTR starts the next iteration with no read and no write. |
| Proxy.FailedWaitStops | src/main.rs:177-179 | Any other pselect error ends the session with that error, after the wait and before any read or write. |
| Proxy.PtyBeforeStdin | src/main.rs:181-190 | Within an iteration, no read of the PTY follows a read of stdin. When the PTY is ready, every read of stdin comes after a read of the PTY. |
| Proxy.EndOfFileStops | src/main.rs:181-190 | The session returns `Ok(())` exactly when the iteration's last call is a read that returned nothing. That read is of the PTY or of stdin. |
| Proxy.PtyStopSkipsStdin | src/main.rs:181-185 | When the PTY relay ends the session (end of file, an error, or replies run out), stdin is not read in that iteration. |
| Proxy.RelayChunkForwards | src/main.rs:194-214 | One `proxy_write` from r to w gives w a prefix of the bytes it read from r, and all of them when it returns `Ok`. It reads nothing from and writes nothing to any other descriptor. |
| Proxy.IterationForwards | src/main.rs:164-191 | One iteration forwards a prefix of what it read from the PTY to stdout, and of what it read from stdin to the PTY. It forwards all of both when it continues or ends normally. |
| Proxy.SessionForwards | src/main.rs:164-191 | By induction over the iterations: the loop relays each direction's bytes in order, never inventing or reordering. It relays all of them when it returns `Ok(())`. |
| Proxy.InteractForwards | src/main.rs:143-192 | The same holds for the whole of `interact_with_process`, including the first resize. |
| Proxy.ServedInOrder | src/main.rs:181-190 | Take a trace made of a head that reads neither side, then a relay that does not read the second side, then one that does not read the first. Such a trace never reads the first side after the second. |
| CProxy.CRelayChunk | deptyr.c:127-137 | One relay of `do_proxy`. A failed read returns from `do_proxy`. A 0-byte read returns on the PTY side only, and makes no write. Otherwise the destination gets a prefix of the chunk, all of it unless a write failed. The result of `writeall` is ignored. |
| CProxy.CIterationSpec | deptyr.c:107-138 | One iteration of `do_proxy` as a function of the flag and the replies. Its properties are the contracts of `CStdinBeforePty`, `CExitConditions`, `CStdinEofContinues`, `CSelectFailure`, `CResizeBeforeWait` and `CIterationForwards`. |
| CProxy.CRunTicks | deptyr.c:106-139 | The loop as the fold of `CIterationSpec` over the replies. Its unfolding is the contract of `CLoopStep`. |
| CProxy.CRelay | deptyr.c:127-137 | The method reads into the buffer, then calls `writeall`. Proved equal to `CRelayChunk`. |
| CProxy.CIterate | deptyr.c:107-138 | One iteration on the global flag and the buffer. If the flag is set: clear it, then resize. Then select. An EINTR continues. Another error logs and returns. Then the stdin relay, then the PTY relay. Proved equal to `CIterationSpec`. |
| CProxy.DoProxy | deptyr.c:101-140 | The `while (1)` loop over the kernel's replies, proved equal to `CRunTicks`. |
| CProxy.CLoopStep | deptyr.c:106-139 | The run seen from any iteration is that iteration followed by the rest. |
| CProxy.CStdinBeforePty | deptyr.c:127-138 | Within an iteration, no read of stdin follows a read of the PTY. When stdin is ready, every read of the PTY comes after a read of stdin. |
| CProxy.CExitConditions | deptyr.c:121-138 | `do_proxy` returns exactly when one of these happens, and on nothing else: select failed with an error other than EINTR; a stdin read failed; or a PTY read failed or returned 0 bytes, provided the stdin relay, if any, went on. |
| CProxy.CStdinEofContinues | deptyr.c:128-131 | A 0-byte read of stdin does not end `do_proxy`. The iteration records the read and writes nothing to the PTY. It then goes on exactly as it would had only the PTY been reported ready: same later calls, same flag, same outcome. With the PTY not ready, it loops. |
| CProxy.CSelectFailure | deptyr.c:121-126 | An interrupted select loops. Any other select failure logs "select: %m" and returns. Neither reads anything. |
| CProxy.CResizeBeforeWait | deptyr.c:107-115 | When the flag is set at the top of an iteration, the PTY is resized before the select. Afterwards the flag records whether SIGWINCH arrived during the iteration. |
| CProxy.CIterationForwards | deptyr.c:127-138 | One iteration forwards a prefix of what it read from stdin to the PTY, and of what it read from the PTY to stdout. It forwards all of both when no write failed and the replies did not run out. |
| FdIo.From | src/fd_io.rs:12-18 | `FdIo::from` takes ownership of the given descriptor. Dropping the value closes that descriptor, once, and nothing else. |
| FdIo.TranslateNixResult | src/fd_io.rs:20-26 | Ok values pass through unchanged. `Sys(errno)` becomes an OS error with the same errno. Any other nix error becomes an error of kind `Other`. |
| FdIo.TranslateIsFaithful | src/fd_io.rs:20-26 | The translation is injective. The io error carries errno n exactly when the nix error was `Sys(n)`. |
| FdIo.Read | src/fd_io.rs:28-32 | A read acts on the owned descriptor only. Its count or error goes through `translate_nix_result`. |
| FdIo.Write | src/fd_io.rs:34-37 | A write acts on the owned descriptor only. The descriptor accepts a prefix of the buffer, and the count or error goes through `translate_nix_result`. |
| FdIo.Flush | src/fd_io.rs:39-41 | `flush` always succeeds. |
| Terminal.Line.GetAttr | src/main.rs:108 | `tcgetattr` returns the line's current attributes, or the error. |
| Terminal.Line.SetAttr | src/main.rs:112 | `tcsetattr` installs the attributes when it succeeds. A failed call changes nothing. |
| Terminal.FirstSettled | src/main.rs:119-134 | The first reply that is not EINTR: every earlier reply is EINTR. |
| Terminal.Settled | src/main.rs:119-134 | The retry loop is still running exactly when every reply so far was EINTR. When it ends, it ends with one of the replies, and never with EINTR. |
| Terminal.SettledSkipsInterrupts | src/main.rs:119-134 | Any number of EINTRs in front of the replies leave the outcome of the retry loop unchanged. |
| Terminal.RetrySetAttr | src/tty.rs:72-85 | The loop retries `tcsetattr` while it reports EINTR. It ends with the first other reply, and installs the attributes exactly when that reply is Ok. |
| Terminal.Setup | src/main.rs:106-117 | `RawTermios::setup` succeeds exactly when both `tcgetattr` and `tcsetattr` succeed. It then saves the previous attributes and leaves the terminal in their raw transform. Either failure leaves the terminal unchanged. |
| Terminal.Restore | src/main.rs:119-134 | `restore` sets the saved attributes back. It retries EINTR, returns Ok once they are set, and returns any other error. |
| Terminal.SetupThenRestore | src/main.rs:106-134 | Entering raw mode, then restoring with retries that end in success, leaves the terminal exactly as it was. |
| Terminal.TTY.constructor | src/tty.rs:20-28 | `TTY::default()`: input is stdin, output is stdout, and no mode is saved. |
| Terminal.TTY.Fd | src/tty.rs:30-34 | The descriptor to wait on is the input's. |
| Terminal.TTY.SetupRaw | src/tty.rs:55-67 | A second call fails with the "set up TTY more than once" error and changes nothing. Otherwise it succeeds iff both calls do. Then `saved_mode` holds the attributes read and the terminal holds their raw transform. On failure `saved_mode` stays `None` and the terminal is unchanged. |
| Terminal.TTY.Drop | src/tty.rs:70-88 | Nothing is restored when no mode is saved. Otherwise the saved attributes are set back, with EINTR retried, and another error panics. Then the input and the output are dropped, which closes stdin and stdout. |
| Terminal.TTY.ResizePty | src/tty.rs:37-53 | The PTY gets the size of the TTY's own input, or the default when the input reports none. |
| Terminal.TTY.Read | src/tty.rs:99-103 | Reads go to the input. |
| Terminal.TTY.Write | src/tty.rs:90-93 | Writes go to the output. |
| Terminal.TTY.Flush | src/tty.rs:94-96 | `flush` succeeds and does nothing. |
| Terminal.RawModeRoundTrip | src/tty.rs:55-88 | A TTY set to raw mode and then dropped, with its retries ending in success, leaves the terminal's attributes as they were before. The drop closes stdin and then stdout. |
| Terminal.CSetupRaw | deptyr.c:55-65 | If `tcgetattr` fails, `setup_raw` prints "Unable to read terminal attributes" and returns without touching the terminal or `*save`. Otherwise it stores the attributes through `save`. It then sets their raw transform, or dies with "Unable to set terminal attributes". |
| Channel.FileSystem.Bind | src/unix_socket.rs:74 | Binding refuses an existing path with EADDRINUSE. Otherwise it creates the path exactly when the kernel's reply is Ok. |
| Channel.FileSystem.Remove | src/unix_socket.rs:58 | Removing an absent path fails with ENOENT. Otherwise the path is removed exactly when the reply is Ok. |
| Channel.FromIo | src/unix_socket.rs:32-36 | An io error becomes `ListenError::Io` carrying it. |
| Channel.ListenSocket.ReceivePty | src/unix_socket.rs:78-92 | An EINTR from select is `Canceled`, and nothing else is. Any other select error is `Nix` with that error. A failed accept or receive is `Io`. Success means wait, accept and receive all succeeded, and then the received descriptor is handed over as an owned one. |
| Channel.ListenSocket.Drop | src/unix_socket.rs:55-62 | Dropping removes the bound path, and panics when the removal fails. Either way the listening socket is closed afterwards, when its field is dropped. |
| Channel.Listen | src/unix_socket.rs:70-76 | `listen` succeeds iff bind does. Then a fresh `ListenSocket` holds the path and the path exists. On failure no `ListenSocket` exists and the filesystem is unchanged. |
| Channel.ListenThenDrop | src/unix_socket.rs:55-76 | While a listener lives, a second `listen` on its path fails with EADDRINUSE. Dropping the listener leaves the filesystem as it was before the first `listen`. |
| Channel.OneDescriptorPerConnection | src/unix_socket.rs:83-87 | A receive happens at most once, on the stream just accepted. A descriptor is handed over only after that stream has been closed. |
| Channel.RetriesAt | src/unix_socket.rs:97-107 | Failed attempt j is a connect, then the "Retrying in 1s" line, then a one-second sleep. |
| Channel.Retries | src/unix_socket.rs:97-107 | `k` failed attempts make three calls each. What each of them is, is the contract of `RetriesAt`. |
| Channel.Attempts | src/unix_socket.rs:95-110 | The loop returns a socket exactly when some connect succeeds, and it is the socket of the first success. That takes three calls per earlier failure plus the successful connect. With no success, the replies run out after three calls per failure. |
| Channel.FirstConnected | src/unix_socket.rs:95-110 | The first successful connect: every earlier attempt failed. |
| Channel.TryConnect | src/unix_socket.rs:95-110 | The retry loop, proved equal to `Attempts`: the failed attempts, then the first successful connect. |
| Channel.ConnectsOnce | src/unix_socket.rs:95-110 | `try_connect` returns the socket of the first successful attempt and makes no attempt after it. Every failed attempt is followed by a one-second sleep. |
| Channel.SendControlPty | src/unix_socket.rs:112-120 | After connecting, the PTY's descriptor is sent exactly once, on that one connection. The socket and the PTY are then closed. The send's error is reported. |
| CChannel.FdMessage | unix_socket.c:128-145 | The message carries one data byte `' '` and one SOL_SOCKET/SCM_RIGHTS header whose data is the descriptor. |
| CChannel.SendFileDescriptor | unix_socket.c:114-148 | The message is built field by field and equals `FdMessage(fd_to_send)`. The function returns what sendmsg returns. |
| CChannel.FirstRights | unix_socket.c:99-109 | `None` exactly when no header is SOL_SOCKET/SCM_RIGHTS. Otherwise the data of the first such header. |
| CChannel.RecvFileDescriptor | unix_socket.c:69-112 | A recvmsg result of 0 or less is returned unchanged. Otherwise the header walk returns the first SCM_RIGHTS descriptor, or -1 if there is none. |
| CChannel.ReceivedFd | unix_socket.c:95-111 | A recvmsg result of 0 or less is the result. Otherwise the result is the descriptor of the first SOL_SOCKET/SCM_RIGHTS header, or -1 when no header is one. |
| CChannel.FirstRightsAt | unix_socket.c:99-109 | The header the walk stops at is the one `FirstRights` names. |
| CChannel.RoundTrip | unix_socket.c:99-145 | Receiving the message `send_file_descriptor` builds yields the descriptor sent. This holds even with headers of other kinds in front of it. |
| CChannel.EmptyPayloadLosesDescriptor | unix_socket.c:128 | Without the data byte, recvmsg would return 0 and the descriptor would be lost. |
| CChannel.CreateServer | unix_socket.c:14-41 | The sequence is socket, unlink of the path (whatever its outcome), bind, listen. A socket failure dies with its message and touches nothing. After that, the bind fails exactly when a file is still at the path or the kernel refuses. It then dies with the bind message. Listen fails only after a successful bind, and dies with the listen message. The path exists afterwards exactly when the bind succeeded. It is gone if the unlink removed it and the bind did not recreate it. The server is ready exactly when all three succeed and any existing file was removed. |
| CChannel.CreateServerOverStaleFile | unix_socket.c:26-33 | A stale file at the path does not stop `create_server`. It is unlinked before the bind. |
| CChannel.ConnectServer | unix_socket.c:44-66 | A socket or connect failure dies with that step's message. Otherwise the function returns the connected socket. |
| Deptyr.ServeOne | src/main.rs:79-93 | One connection: accept, receive the PTY, enter raw mode, run the session, drop the stream, restore. The loop ends exactly when accept fails. A receive failure leaves `interact` with `Err(Io(e))`, the terminal unchanged and the trace accept, receive, close of the stream. A raw-mode failure also leaves with its error and the terminal unchanged. Once raw mode is entered, the pass is the accept and the receive followed by `Attend`. Continuing means the terminal was restored. Whenever the pass is over, the accepted stream has been closed. |
| Deptyr.Attend | src/main.rs:83-92 | When the session returned and the restore succeeded, the loop goes on with the terminal restored. The trace is the session, the close of the stream, and the "Encountered error" line only if the session returned an Err. When the session returned and the restore failed with e, `interact` leaves with `Err(Nix(e))` on a terminal still raw, after the session and the close. While the session or the restore is still running, the terminal is raw. |
| Deptyr.Serve | src/main.rs:79-94 | The accept loop never ends in "again". When it ends because accept failed, the terminal has the attributes it had before the first connection. Leaving early is always an error. |
| Deptyr.ServeConnection | src/main.rs:79-93 | The method for one connection, on the terminal and the flag. Proved equal to `ServeOne`. |
| Deptyr.AttendSession | src/main.rs:83-92 | The method for the session part. Proved equal to `Attend`. |
| Deptyr.ServeStep | src/main.rs:79-94 | The loop seen from any connection is that connection followed by the rest. |
| Deptyr.ServeLoop | src/main.rs:79-94 | The `while let Ok(..) = accept()` loop, proved equal to `Serve`. |
| Deptyr.Interact | src/main.rs:77-98 | A failed bind returns that error and changes nothing but the attempt. Once the accept loop ends, the path is removed and Ok returned, or the removal's error. Leaving the loop with an error skips the removal, so the path stays. Whenever `interact` returns, its last call closes the listener. |
| Deptyr.SessionErrorContinues | src/main.rs:88-92 | A session ending in error closes the stream, restores the terminal and prints the error, and the next connection is accepted. |
| Deptyr.SessionOkContinues | src/main.rs:83-87 | A session that ends Ok is not reported. The pass is the accept, the receive, the session and the close of the stream, with nothing printed after it. The terminal is restored, and the next connection is accepted. |
| Deptyr.SetupFailureEndsInteract | src/main.rs:81 | A failure to enter raw mode leaves `interact` at once with that error. No session runs, the terminal is unchanged, and the stream is closed. |
| Deptyr.Plan | src/main.rs:278-309 | The 19 calls of `run` after the connection, in the order the source makes them. |
| Deptyr.Launch | src/main.rs:278-311 | Every step returns its error with `?`: the calls up to and including the failing one are made, and none after it. Then the owned descriptors are dropped: the controlling side, once `posix_openpt` returned it, and then the socket. The command replaces the process, after exactly the planned calls, when no step fails. |
| Deptyr.Run | src/main.rs:274-311 | `run` connects with `try_connect` (retrying until the listener is there), then launches. |
| Deptyr.LaunchStopsAtFirstFailure | src/main.rs:278-311 | `execvp` is called only when every earlier step succeeded. The PTY is sent only when every step before the send succeeded. A failing step is the last call made other than the closes of the drops. |
| Deptyr.PlanSteps | src/main.rs:299-309 | The PTY is sent at one step only, and the command is executed at one step only, the last. |
| Deptyr.HandoffStep | src/main.rs:299-301 | A send of the PTY is the plan's send step, and the calls before it are the plan's. |
| Deptyr.RedirectedBeforeHandoff | src/main.rs:288-301 | Before the PTY is sent, the new session exists. By then stdin, stdout and stderr have been redirected to the client side of the PTY. |
| Deptyr.ClosedBeforeExec | src/main.rs:299-309 | When the command is executed, the call just before is the close of the controlling side, and the one before that is the send of it. |
| Deptyr.ExecFailureClosesTwice | src/main.rs:303-311 | When `execvp` fails, the controlling side has already been closed by the explicit `close`. Dropping its owner on the way out closes it a second time. |

## Left out

- System calls are oracle replies. The model does not include real descriptors, the kernel's renumbering of a passed descriptor, blocking, or time. `sleep(1)` and the 1 ms select timeout of `do_proxy` are recorded only as an action and as a reply with neither side ready.
- Signal installation and masking (`sigprocmask`, `sigaction`, src/main.rs:145-158) and asynchronous delivery are not modelled. A SIGWINCH is a per-iteration input saying whether the handler ran during the wait.
- `cfmakeraw` is the abstract transform `Os.Raw`. Termios fields are not modelled.
- In unix_socket.c, the control-buffer layout (`CMSG_SPACE`, `CMSG_LEN`, alignment, `memset`) is replaced by a list of headers. The buffer of `recv_file_descriptor` fits only one header, so headers in front of the rights header are about the walk, not about what the kernel would deliver.
- Command-line parsing is not modelled: clap in src/main.rs:42-75, `getopt`, `usage` and `main` of deptyr.c. `main` of deptyr.c also launches the command much as `run` does, without passing the PTY on; that launch is not part of this model. The `unwrap()` panics of `main` are not modelled either.
- Logging and message text: the error and command text printed by `interact`, `run` and `try_connect` are dropped, and only the fixed part of each line is kept. The varargs logging helpers of deptyr.c are not modelled.
- platform/linux/linux.c (`get_pt`) is not part of this model.
- A scripted reply sequence that runs out is `Pending`. The real program would go on waiting or retrying, and the model says nothing past that point.
- Relay.Drain: a write reply claiming more bytes than were asked for counts as the bytes asked for. The kernel never makes one. The C `writeall` would go past its buffer in that case.
- Proxy.RustIterate, CProxy.CIterate: a read reply must fit the 4096-byte buffer (`Fits`). The kernel never returns more than was asked for.
- Deptyr.Run: the launch steps are recorded in order with the replies they use. `posix_openpt`, `grantpt`, `unlockpt`, `ptsname`, `open`, `dup2`, `setpgid`, `setsid`, `close` and `execvp` themselves are not modelled. The step that fails, if any, is given as a reply. The final `bail!` after a returning `execvp` is not a separate outcome.
- Terminal.TTY.Drop: a panic in the restore is the outcome `Panicked`. The unwinding that follows drops the input and the output as a normal drop does, and the trace records those closes. A second panic during unwinding is not modelled.
- Deptyr.Launch: when the command replaces the process, the socket is not closed in the trace. Rust opens it close-on-exec, so the kernel closes it at `execvp`, outside the program.
- A raw descriptor (`RawFd`) has no owner and is never closed by dropping it. The model records closes only for owned values: streams, listeners, `OwnedFd`, the PTY master.
- Channel.TryConnect: `try_connect` appears twice, identically, in src/main.rs:257-272 and src/unix_socket.rs:95-110. It is modelled once.

## Behaviour worth noting

The model follows the code in each of these.

- `resize_pty` is not retried on EINTR. Only `tcsetattr` in `restore` and in `Drop for TTY` is.
- Rust's `default_winsize` is rows 80, columns 30. The C fallback is rows 30, columns 80 (`WindowSize.FallbacksTransposed`).
- `do_proxy` ignores what `writeall` returns. After a failed write the rest of that chunk is lost and the loop goes on (`CProxy.CRelayChunk`).
- `create_server` unlinks a stale socket file before binding. `interact` and `ListenSocket::listen` fail on an existing path with EADDRINUSE.
- When `interact` leaves its loop with an error, it does not remove the socket file. It also never closes a received PTY: `recvfd` returns a raw descriptor.
- When `execvp` fails, or the `close` before it fails, `run` closes the controlling side twice. The explicit `close(controlling_fd.as_raw_fd())` does not give up ownership, so the drop of `controlling_fd` closes the same number again (`Deptyr.ExecFailureClosesTwice`).
- `Drop for ListenSocket` calls `drop(&self.listener)`, which drops only a reference. The listening socket is closed after the path is removed, when the field itself is dropped (`Channel.ListenSocket.Drop`).
