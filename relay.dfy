/** Relaying one chunk: `proxy_write` in src/main.rs and `writeall` in deptyr.c.
    Both read (or are given) a chunk and keep calling write(2) until the whole chunk
    is out: a short write advances the offset, EINTR is retried, and any other
    error ends the relay. */
module Relay {
  import opened Os

  /** What one write(2) call reported, whichever language surfaces it. */
  datatype WriteReply = Wrote(n: nat) | Interrupted | Failed

  /** A nix write result, as the Rust relay matches on it. */
  function FromNix(r: Result<nat, NixError>): WriteReply {
    match r
    case Ok(n) => Wrote(n)
    case Err(e) => if e == INTERRUPTED then Interrupted else Failed
  }

  /** A C system call result: a negative return value reports failure, the cause in errno. */
  datatype SysRet = SysRet(rv: int, errno: Errno)

  function FromC(r: SysRet): WriteReply {
    if r.rv >= 0 then Wrote(r.rv) else if r.errno == EINTR then Interrupted else Failed
  }

  function NixReplies(rs: seq<Result<nat, NixError>>): (ws: seq<WriteReply>)
    ensures |ws| == |rs|
    ensures forall i :: 0 <= i < |rs| ==> ws[i] == FromNix(rs[i])
  {
    seq(|rs|, i requires 0 <= i < |rs| => FromNix(rs[i]))
  }

  function CReplies(rs: seq<SysRet>): (ws: seq<WriteReply>)
    ensures |ws| == |rs|
    ensures forall i :: 0 <= i < |rs| ==> ws[i] == FromC(rs[i])
  {
    seq(|rs|, i requires 0 <= i < |rs| => FromC(rs[i]))
  }

  /** How a write-all loop ended: the chunk is out, a write failed with an error
      other than EINTR, or the scripted replies ran out first. */
  datatype DrainEnd = AllWritten | WriteFailed | OutOfReplies

  /** The bytes the descriptor accepted, the number of write calls made, and how the loop ended. */
  datatype Drained = Drained(written: seq<byte>, used: nat, end: DrainEnd)

  /** The write-all loop on `chunk` against the kernel's replies. A reply claiming
      more bytes than were asked for counts as the bytes asked for; the kernel never
      makes one. */
  function Drain(chunk: seq<byte>, replies: seq<WriteReply>): (d: Drained)
    decreases |replies|
    ensures d.used <= |replies|
    ensures |chunk| == 0 ==> d == Drained([], 0, AllWritten)
  {
    if |chunk| == 0 then Drained([], 0, AllWritten)
    else if |replies| == 0 then Drained([], 0, OutOfReplies)
    else match replies[0]
      case Wrote(n) =>
        var k := Min(n, |chunk|);
        var rest := Drain(chunk[k..], replies[1..]);
        assert chunk[..k] + chunk[k..] == chunk;
        Drained(chunk[..k] + rest.written, rest.used + 1, rest.end)
      case Interrupted =>
        var rest := Drain(chunk, replies[1..]);
        Drained(rest.written, rest.used + 1, rest.end)
      case Failed =>
        Drained([], 1, WriteFailed)
  }

  /** What any run of the write-all loop guarantees: the descriptor received a prefix
      of the chunk, all of it exactly when the loop ended normally; a failure ends the
      loop at the first failing reply; running out of replies means all were used. */
  lemma DrainFacts(chunk: seq<byte>, replies: seq<WriteReply>)
    ensures var d := Drain(chunk, replies);
            && d.written <= chunk
            && (d.end == AllWritten <==> d.written == chunk)
            && (forall j :: 0 <= j < d.used && (d.end != WriteFailed || j < d.used - 1) ==> replies[j] != Failed)
            && (d.end == WriteFailed ==> 0 < d.used && replies[d.used - 1] == Failed)
            && (d.end == OutOfReplies ==> d.used == |replies| && 0 < |chunk|)
  {
    DrainPrefix(chunk, replies);
    DrainStops(chunk, replies);
  }

  /** The descriptor receives a prefix of the chunk, all of it exactly when the loop
      ended normally; running out of replies means all were used. */
  lemma {:induction false} DrainPrefix(chunk: seq<byte>, replies: seq<WriteReply>)
    ensures var d := Drain(chunk, replies);
            && d.written <= chunk
            && (d.end == AllWritten <==> d.written == chunk)
            && (d.end == OutOfReplies ==> d.used == |replies| && 0 < |chunk|)
    decreases |replies|
  {
    if |chunk| == 0 || |replies| == 0 {
    } else {
      match replies[0]
      case Wrote(n) =>
        var k := Min(n, |chunk|);
        DrainPrefix(chunk[k..], replies[1..]);
        assert chunk[..k] + chunk[k..] == chunk;
      case Interrupted =>
        DrainPrefix(chunk, replies[1..]);
      case Failed =>
    }
  }

  /** A failure ends the loop at the first failing reply. */
  lemma {:induction false} DrainStops(chunk: seq<byte>, replies: seq<WriteReply>)
    ensures var d := Drain(chunk, replies);
            && (forall j :: 0 <= j < d.used && (d.end != WriteFailed || j < d.used - 1) ==> replies[j] != Failed)
            && (d.end == WriteFailed ==> 0 < d.used && replies[d.used - 1] == Failed)
    decreases |replies|
  {
    if |chunk| == 0 || |replies| == 0 {
    } else {
      match replies[0]
      case Wrote(n) =>
        var k := Min(n, |chunk|);
        DrainStops(chunk[k..], replies[1..]);
        var rest := Drain(chunk[k..], replies[1..]);
        forall j | 1 <= j < rest.used + 1 ensures replies[j] == replies[1..][j - 1] { }
      case Interrupted =>
        DrainStops(chunk, replies[1..]);
        var rest := Drain(chunk, replies[1..]);
        forall j | 1 <= j < rest.used + 1 ensures replies[j] == replies[1..][j - 1] { }
      case Failed =>
    }
  }

  /** A write-all loop that has written `written == chunk[..off]` using `i` replies,
      and whose whole run is `total`. */
  ghost predicate Midway(chunk: seq<byte>, ws: seq<WriteReply>, off: nat, i: nat,
                         written: seq<byte>, total: Drained)
  {
    && off <= |chunk| && i <= |ws| && written == chunk[..off]
    && var e := Drain(chunk[off..], ws[i..]);
       total == Drained(written + e.written, i + e.used, e.end)
  }

  lemma MidwayStart(chunk: seq<byte>, ws: seq<WriteReply>)
    ensures Midway(chunk, ws, 0, 0, [], Drain(chunk, ws))
  {
    assert chunk[0..] == chunk && ws[0..] == ws;
  }

  /** One reply more: the offset advances by what the reply accepted. */
  lemma MidwayStep(chunk: seq<byte>, ws: seq<WriteReply>, off: nat, i: nat,
                   written: seq<byte>, total: Drained)
    requires Midway(chunk, ws, off, i, written, total)
    requires off < |chunk| && i < |ws|
    ensures ws[i].Wrote? ==>
              var k := Min(ws[i].n, |chunk| - off);
              Midway(chunk, ws, off + k, i + 1, written + chunk[off..off + k], total)
    ensures ws[i] == Interrupted ==> Midway(chunk, ws, off, i + 1, written, total)
    ensures ws[i] == Failed ==> total == Drained(written, i + 1, WriteFailed)
  {
    assert ws[i..][0] == ws[i];
    assert ws[i..][1..] == ws[i + 1..];
    match ws[i]
    case Wrote(n) =>
      var k := Min(n, |chunk| - off);
      assert chunk[off..][..k] == chunk[off..off + k];
      assert chunk[off..][k..] == chunk[off + k..];
      assert chunk[..off] + chunk[off..off + k] == chunk[..off + k];
      var e := Drain(chunk[off + k..], ws[i + 1..]);
      assert written + (chunk[off..off + k] + e.written) == (written + chunk[off..off + k]) + e.written;
    case Interrupted =>
    case Failed =>
  }

  /** The loop stops: with the chunk out, or with no reply left. */
  lemma MidwayEnd(chunk: seq<byte>, ws: seq<WriteReply>, off: nat, i: nat,
                  written: seq<byte>, total: Drained)
    requires Midway(chunk, ws, off, i, written, total)
    requires off == |chunk| || i == |ws|
    ensures off == |chunk| ==> total == Drained(chunk, i, AllWritten)
    ensures off < |chunk| ==> total == Drained(written, i, OutOfReplies)
  {
    assert chunk[|chunk|..] == [];
    assert ws[|ws|..] == [];
    assert chunk[..|chunk|] == chunk;
  }

  /** The replies with every EINTR taken out. */
  function Uninterrupted(ws: seq<WriteReply>): (r: seq<WriteReply>)
    ensures Interrupted !in r
    ensures |r| <= |ws|
  {
    if |ws| == 0 then []
    else if ws[0] == Interrupted then Uninterrupted(ws[1..])
    else [ws[0]] + Uninterrupted(ws[1..])
  }

  /** EINTR is retried transparently: taking every interrupted write out of the
      kernel's replies changes neither what is written nor how the loop ends. */
  lemma {:induction false} DrainIgnoresInterrupts(chunk: seq<byte>, ws: seq<WriteReply>)
    ensures Drain(chunk, Uninterrupted(ws)).written == Drain(chunk, ws).written
    ensures Drain(chunk, Uninterrupted(ws)).end == Drain(chunk, ws).end
    decreases |ws|
  {
    if |chunk| == 0 || |ws| == 0 {
    } else {
      var u := Uninterrupted(ws);
      match ws[0]
      case Interrupted =>
        DrainIgnoresInterrupts(chunk, ws[1..]);
      case Wrote(n) =>
        assert u[0] == ws[0] && u[1..] == Uninterrupted(ws[1..]);
        DrainIgnoresInterrupts(chunk[Min(n, |chunk|)..], ws[1..]);
      case Failed =>
        assert u[0] == ws[0];
    }
  }

  /** The total number of bytes the replies accept. */
  function Accepted(ws: seq<WriteReply>): nat {
    if |ws| == 0 then 0
    else (match ws[0] case Wrote(n) => n case _ => 0) + Accepted(ws[1..])
  }

  /** However the writer splits the chunk into short writes, and however many EINTRs
      it reports, the whole chunk goes out in order once the writes accept as many
      bytes as the chunk holds and none of them fails. */
  lemma {:induction false} DrainCompletes(chunk: seq<byte>, ws: seq<WriteReply>)
    requires Failed !in ws
    requires Accepted(ws) >= |chunk|
    ensures Drain(chunk, ws).end == AllWritten
    ensures Drain(chunk, ws).written == chunk
    decreases |ws|
  {
    if |chunk| == 0 {
    } else {
      assert ws[0] in ws;
      assert Failed !in ws[1..] by {
        forall j | 0 <= j < |ws[1..]| ensures ws[1..][j] != Failed {
          assert ws[1..][j] == ws[j + 1];
        }
      }
      match ws[0]
      case Wrote(n) =>
        DrainCompletes(chunk[Min(n, |chunk|)..], ws[1..]);
      case Interrupted =>
        DrainCompletes(chunk, ws[1..]);
    }
  }

  /** What `writeall` returns after the write-all loop `d` over `replies`: 0 once the
      chunk is out, or the return value of the write that failed. */
  function WriteAllResult(d: Drained, replies: seq<SysRet>): Outcome<int>
    requires d.end == WriteFailed ==> 0 < d.used <= |replies|
  {
    match d.end
    case AllWritten => Returned(0)
    case WriteFailed => Returned(replies[d.used - 1].rv)
    case OutOfReplies => Pending
  }

  /** `writeall(fd, buf, count)` of deptyr.c. It returns 0 once `count` bytes are
      out, or the negative return value of the first write that failed with an error
      other than EINTR; `written` is what the descriptor accepted and `used` the
      number of write calls. */
  method WriteAll(fd: RawFd, buf: seq<byte>, count: int, replies: seq<SysRet>)
    returns (rv: Outcome<int>, written: seq<byte>, used: nat)
    requires count <= |buf|
    ensures var d := Drain(buf[..if count > 0 then count else 0], CReplies(replies));
            && written == d.written && used == d.used
            && (d.end == WriteFailed ==> 0 < d.used <= |replies|)
            && rv == WriteAllResult(d, replies)
  {
    var n := if count > 0 then count else 0;
    ghost var chunk := buf[..n];
    ghost var ws := CReplies(replies);
    ghost var total := Drain(chunk, ws);
    DrainFacts(chunk, ws);
    var remaining := count;
    var off: nat := 0;
    var i: nat := 0;
    written := [];
    MidwayStart(chunk, ws);
    while remaining > 0
      invariant remaining > 0 ==> remaining == n - off
      invariant remaining <= 0 ==> off == n
      invariant Midway(chunk, ws, off, i, written, total)
      decreases |replies| - i
    {
      if i == |replies| {
        MidwayEnd(chunk, ws, off, i, written, total);
        return Pending, written, i;
      }
      var r := replies[i];
      assert ws[i] == FromC(r);
      MidwayStep(chunk, ws, off, i, written, total);
      i := i + 1;
      if r.rv < 0 {
        if r.errno == EINTR {
          assert Midway(chunk, ws, off, i, written, total);
          continue;
        }
        assert total == Drained(written, i, WriteFailed);
        return Returned(r.rv), written, i;
      }
      var k := Min(r.rv, remaining);
      assert k == Min(ws[i - 1].n, |chunk| - off);
      assert buf[off..off + k] == chunk[off..off + k];
      written := written + buf[off..off + k];
      remaining := remaining - r.rv;
      off := off + k;
    }
    MidwayEnd(chunk, ws, off, i, written, total);
    rv, used := Returned(0), i;
  }

  /** `writeall` returns 0 at once for a count of zero or less, returns 0 only with
      the whole chunk out, and otherwise returns the negative value of the write
      that failed with an error other than EINTR. */
  lemma WriteAllReports(buf: seq<byte>, count: int, replies: seq<SysRet>)
    requires count <= |buf|
    ensures var d := Drain(buf[..if count > 0 then count else 0], CReplies(replies));
            && (d.end == WriteFailed ==> 0 < d.used <= |replies|)
            && var rv := WriteAllResult(d, replies);
               && (count <= 0 ==> rv == Returned(0) && d.used == 0)
               && (rv == Returned(0) ==> d.written == buf[..if count > 0 then count else 0])
               && (rv.Returned? && rv.value != 0 ==>
                     rv.value < 0 && replies[d.used - 1].rv == rv.value && replies[d.used - 1].errno != EINTR)
  {
    var ws := CReplies(replies);
    var d := Drain(buf[..if count > 0 then count else 0], ws);
    DrainFacts(buf[..if count > 0 then count else 0], ws);
    if d.end == WriteFailed {
      assert ws[d.used - 1] == FromC(replies[d.used - 1]);
    }
  }

  /** One relay of proxy_write with the kernel's replies: the spec of `ProxyWrite`. */
  datatype Relayed = Relayed(res: Outcome<Result<bool, NixError>>, trace: seq<Action>, used: nat)

  /** proxy_write from `r` to `w`: the read's reply, then the write-all loop over the
      chunk it returned. `Ok(true)` reports end of file. */
  function RelayChunk(r: RawFd, w: RawFd, read: Result<seq<byte>, NixError>,
                      writes: seq<Result<nat, NixError>>): (x: Relayed)
    ensures x.res == Returned(Ok(true)) <==> read == Ok([])
    ensures x.res == Returned(Ok(true)) ==> x.trace == [Read(r, [])] && x.used == 0
    ensures x.res == Returned(Ok(false)) ==> read.Ok? && x.trace == [Read(r, read.value), Write(w, read.value)]
    ensures x.res.Returned? && x.res.value.Err? ==>
              read == Err(x.res.value.error) ||
              (0 < x.used <= |writes| && writes[x.used - 1] == Err(x.res.value.error)
               && x.res.value.error != INTERRUPTED)
    ensures read.Err? ==> x.res == Returned(Err(read.error)) && x.trace == [ReadFailed(r)] && x.used == 0
    ensures x.used <= |writes|
    ensures forall j :: 0 <= j < x.used && !(x.res.Returned? && x.res.value.Err? && j == x.used - 1) ==>
              writes[j].Ok? || writes[j] == Err(INTERRUPTED)
    ensures read.Ok? && read.value != [] ==>
              |x.trace| == 2 && x.trace[0] == Read(r, read.value)
              && x.trace[1].Write? && x.trace[1].fd == w && x.trace[1].data <= read.value
    ensures x.res == Pending <==>
              && read.Ok? && read.value != [] && x.used == |writes| && x.trace[1].data != read.value
              && forall j :: 0 <= j < |writes| ==> writes[j].Ok? || writes[j] == Err(INTERRUPTED)
  {
    match read
    case Err(e) => Relayed(Returned(Err(e)), [ReadFailed(r)], 0)
    case Ok(data) =>
      if |data| == 0 then Relayed(Returned(Ok(true)), [Read(r, [])], 0)
      else
        var d := Drain(data, NixReplies(writes));
        DrainFacts(data, NixReplies(writes));
        var res := match d.end
                   case AllWritten => Returned(Ok(false))
                   case WriteFailed => Returned(Err(writes[d.used - 1].error))
                   case OutOfReplies => Pending;
        Relayed(res, [Read(r, data), Write(w, d.written)], d.used)
  }

  /** `proxy_write(buffer, r, w)` of src/main.rs: the chunk read lands in `buffer`,
      and the writes take it from there. */
  method ProxyWrite(buffer: array<byte>, r: RawFd, w: RawFd, read: Result<seq<byte>, NixError>,
                    writes: seq<Result<nat, NixError>>)
    returns (res: Outcome<Result<bool, NixError>>, trace: seq<Action>, used: nat)
    requires read.Ok? ==> |read.value| <= buffer.Length
    modifies buffer
    ensures Relayed(res, trace, used) == RelayChunk(r, w, read, writes)
    ensures read.Ok? ==> buffer[..|read.value|] == read.value
  {
    if read.Err? {
      return Returned(Err(read.error)), [ReadFailed(r)], 0;
    }
    var data := read.value;
    var nRead := |data|;
    forall j | 0 <= j < nRead {
      buffer[j] := data[j];
    }
    assert buffer[..nRead] == data;
    if nRead == 0 {
      return Returned(Ok(true)), [Read(r, [])], 0;
    }
    var written, end;
    written, used, end := WriteOut(buffer, nRead, writes);
    DrainFacts(data, NixReplies(writes));
    res := match end
           case AllWritten => Returned(Ok(false))
           case WriteFailed => Returned(Err(writes[used - 1].error))
           case OutOfReplies => Pending;
    trace := [Read(r, data), Write(w, written)];
  }

  /** The write loop of `proxy_write`: write `buffer[..n]` out, advancing past short
      writes and retrying EINTR, until all of it is out or a write fails. */
  method WriteOut(buffer: array<byte>, n: nat, writes: seq<Result<nat, NixError>>)
    returns (written: seq<byte>, used: nat, end: DrainEnd)
    requires n <= buffer.Length
    ensures Drained(written, used, end) == Drain(buffer[..n], NixReplies(writes))
  {
    var data := buffer[..n];
    ghost var ws := NixReplies(writes);
    ghost var total := Drain(data, ws);
    var offset: nat := 0;
    var i: nat := 0;
    written := [];
    MidwayStart(data, ws);
    while offset < n
      invariant Midway(data, ws, offset, i, written, total)
      decreases |writes| - i
    {
      if i == |writes| {
        MidwayEnd(data, ws, offset, i, written, total);
        return written, i, OutOfReplies;
      }
      assert ws[i] == FromNix(writes[i]);
      MidwayStep(data, ws, offset, i, written, total);
      match writes[i]
      case Ok(nWritten) =>
        var k := Min(nWritten, n - offset);
        assert k == Min(ws[i].n, |data| - offset);
        written := written + data[offset..offset + k];
        offset := offset + k;
        i := i + 1;
      case Err(e) =>
        i := i + 1;
        if e == INTERRUPTED {
          assert Midway(data, ws, offset, i, written, total);
          continue;
        }
        assert total == Drained(written, i, WriteFailed);
        return written, i, WriteFailed;
    }
    MidwayEnd(data, ws, offset, i, written, total);
    used, end := i, AllWritten;
  }
}
