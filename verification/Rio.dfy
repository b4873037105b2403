/** The robust I/O package of csapp.c: a buffered reader that hides how the
    kernel cuts a byte stream into pieces, and a writer that retries.
    The kernel is a finite script of outcomes. */
module Rio {
  import Basics
  import ClientUtil

  const RIO_BUFSIZE := 8192
  const INT_MAX := 0x7fff_ffff

  /** One future outcome of read(): bytes that arrive together, EINTR, or
      another error. The end of the script is the end of the file. */
  datatype ReadEvent = Chunk(bytes: string) | ReadInterrupt | ReadFailure

  /** One future outcome of write(): at most `most` bytes are taken, or nothing
      is taken with errno EINTR, or nothing is taken with another errno.
      After the script the kernel takes whatever it is given. */
  datatype WriteEvent = Accept(most: nat) | WriteInterrupt | WriteFailure

  datatype Errno = NoError | EINTR | EIO

  /** The bytes that arrive before the first hard error. */
  function Arriving(events: seq<ReadEvent>): string {
    if events == [] || events[0].ReadFailure? then ""
    else if events[0].Chunk? then events[0].bytes + Arriving(events[1..])
    else Arriving(events[1..])
  }

  predicate ReadBreaks(events: seq<ReadEvent>) {
    ReadFailure in events
  }

  ghost predicate ProperEvents(events: seq<ReadEvent>) {
    forall e :: e in events && e.Chunk? ==> e.bytes != ""
  }

  ghost predicate ProperAccepts(events: seq<WriteEvent>) {
    forall e :: e in events && e.Accept? ==> e.most > 0
  }

  /** The network: bytes arrive in pieces of the given sizes, where 0 stands for an
      interrupted read(), and what the sizes leave over arrives at the end. */
  function Cut(bytes: string, sizes: seq<nat>): seq<ReadEvent>
    decreases |sizes|
  {
    if sizes == [] then (if bytes == "" then [] else [Chunk(bytes)])
    else if sizes[0] == 0 || bytes == "" then [ReadInterrupt] + Cut(bytes, sizes[1..])
    else
      var k := if sizes[0] <= |bytes| then sizes[0] else |bytes|;
      [Chunk(bytes[..k])] + Cut(bytes[k..], sizes[1..])
  }

  lemma {:induction false} CutDelivers(bytes: string, sizes: seq<nat>)
    ensures ProperEvents(Cut(bytes, sizes)) && !ReadBreaks(Cut(bytes, sizes))
    ensures Arriving(Cut(bytes, sizes)) == bytes
    decreases |sizes|
  {
    if sizes == [] {
      assert Arriving([]) == "";
    } else if sizes[0] == 0 || bytes == "" {
      CutDelivers(bytes, sizes[1..]);
    } else {
      var k := if sizes[0] <= |bytes| then sizes[0] else |bytes|;
      CutDelivers(bytes[k..], sizes[1..]);
      assert bytes == bytes[..k] + bytes[k..];
    }
  }

  function SizesOf(events: seq<ReadEvent>): seq<nat> {
    if events == [] then []
    else [if events[0].Chunk? then |events[0].bytes| else 0] + SizesOf(events[1..])
  }

  /** Every script without a hard error is such a cutting of what it delivers. */
  lemma {:induction false} EveryScriptIsACut(events: seq<ReadEvent>)
    requires ProperEvents(events) && !ReadBreaks(events)
    ensures Cut(Arriving(events), SizesOf(events)) == events
  {
    if events != [] {
      EveryScriptIsACut(events[1..]);
      assert events == [events[0]] + events[1..];
      assert SizesOf(events)[1..] == SizesOf(events[1..]);
      if events[0].Chunk? {
        var bytes := events[0].bytes;
        assert Arriving(events)[..|bytes|] == bytes && Arriving(events)[|bytes|..] == Arriving(events[1..]);
      }
    }
  }

  /** An open socket as the process sees it. */
  class Descriptor {
    var incoming: seq<ReadEvent>
    var accepting: seq<WriteEvent>
    var written: string

    ghost predicate Valid()
      reads this
    {
      ProperEvents(incoming) && ProperAccepts(accepting)
    }

    constructor (incoming: seq<ReadEvent>, accepting: seq<WriteEvent>)
      requires ProperEvents(incoming) && ProperAccepts(accepting)
      ensures Valid() && this.incoming == incoming && this.accepting == accepting && written == ""
    {
      this.incoming := incoming;
      this.accepting := accepting;
      this.written := "";
    }

    /** read(fd, buf, n) */
    method Read(buf: array<char>, n: nat) returns (r: int, errno: Errno)
      requires Valid() && 0 < n <= buf.Length
      modifies this`incoming, buf
      ensures Valid()
      ensures -1 <= r <= n
      ensures r > 0 ==> old(Arriving(incoming)) == buf[..r] + Arriving(incoming)
                        && ReadBreaks(incoming) == old(ReadBreaks(incoming))
      ensures r > 0 ==> buf[r..] == old(buf[r..])
      ensures r <= 0 ==> buf[..] == old(buf[..])
      ensures r == 0 <==> old(incoming) == []
      ensures r == 0 ==> incoming == []
      ensures r == -1 && errno == EINTR ==>
                old(incoming) == [ReadInterrupt] + incoming
      ensures r == -1 && errno != EINTR ==> old(incoming) == [ReadFailure] + incoming
    {
      errno := NoError;
      if incoming == [] {
        return 0, errno;
      }
      var e, rest := incoming[0], incoming[1..];
      match e
      case ReadInterrupt =>
        incoming := rest;
        return -1, EINTR;
      case ReadFailure =>
        incoming := rest;
        return -1, EIO;
      case Chunk(bytes) =>
        r := if |bytes| <= n then |bytes| else n;
        forall i | 0 <= i < r {
          buf[i] := bytes[i];
        }
        incoming := if |bytes| <= n then rest else [Chunk(bytes[n..])] + rest;
        assert buf[..r] == bytes[..r];
        assert bytes == bytes[..r] + bytes[r..];
        assert old(incoming) == [e] + rest;
    }

    /** write(fd, buf + off, n): on failure nothing is taken. */
    method Write(buf: string, n: nat) returns (r: int, errno: Errno)
      requires Valid() && 0 < n <= |buf|
      modifies this`accepting, this`written
      ensures Valid() && -1 <= r <= n && r != 0
      ensures r > 0 ==> written == old(written) + buf[..r]
      ensures r < 0 ==> written == old(written) && old(accepting) != []
      ensures r < 0 && errno == EINTR ==> old(accepting) == [WriteInterrupt] + accepting
      ensures r < 0 && errno != EINTR ==> old(accepting) == [WriteFailure] + accepting
      ensures WriteFailure in accepting ==> WriteFailure in old(accepting)
    {
      errno := NoError;
      if accepting == [] {
        written := written + buf[..n];
        return n, errno;
      }
      var e := accepting[0];
      assert accepting == [e] + accepting[1..];
      accepting := accepting[1..];
      match e
      case WriteInterrupt =>
        return -1, EINTR;
      case WriteFailure =>
        return -1, EIO;
      case Accept(most) =>
        r := if most <= n then most else n;
        written := written + buf[..r];
    }
  }

  /** How many bytes a line read takes from the stream `s`: up to and including
      the first newline, but never more than `limit`. */
  function LineLen(s: string, limit: nat): nat {
    if limit == 0 || s == "" then 0
    else if s[0] == '\n' then 1
    else 1 + LineLen(s[1..], limit - 1)
  }

  /** The line is there in full: it cannot grow however many bytes follow. */
  predicate LineComplete(s: string, limit: nat) {
    var k := LineLen(s, limit);
    k == limit || (k > 0 && k <= |s| && s[k - 1] == '\n')
  }

  /** The same length without recursion: the smallest of the limit, the bytes
      there are, and one past the first newline. */
  lemma {:induction false} LineLenIsMinimum(s: string, limit: nat)
    ensures var k := LineLen(s, limit);
            && k <= limit && k <= |s|
            && (forall i :: 0 <= i < k - 1 ==> s[i] != '\n')
            && (k < limit && k < |s| ==> k > 0 && s[k - 1] == '\n')
  {
    if limit > 0 && s != "" && s[0] != '\n' {
      LineLenIsMinimum(s[1..], limit - 1);
      var k := LineLen(s[1..], limit - 1);
      forall i | 0 <= i < k ensures s[i] != '\n' {
        if i > 0 {
          assert s[i] == s[1..][i - 1];
        }
      }
    }
  }

  /** The three ways in which the scan for a line can stop with `line` taken
      and `rest` left. */
  lemma {:induction false} LineStops(line: string, rest: string, limit: nat)
    requires |line| <= limit
    requires |line| == limit || rest == "" || (line != "" && line[|line| - 1] == '\n')
    requires line != "" ==> '\n' !in line[..|line| - 1]
    ensures LineLen(line + rest, limit) == |line|
    ensures LineComplete(line + rest, limit) <==>
              |line| == limit || (line != "" && line[|line| - 1] == '\n')
    ensures (line + rest)[|line|..] == rest && (line + rest)[..|line|] == line
  {
    if |line| > 1 {
      assert (line + rest)[1..] == line[1..] + rest;
      assert line[..|line| - 1] == [line[0]] + line[1..][..|line| - 2];
      LineStops(line[1..], rest, limit - 1);
    }
  }

  /** Storing the next k bytes of `s` behind the i bytes that are there already. */
  lemma CutAt(s: string, k: nat, later: string)
    requires k <= |s|
    ensures s + later == s[..k] + (s[k..] + later)
  {
  }

  lemma LineStored(s: string, line: string, rest: string, limit: nat)
    requires s == line + rest && |line| <= limit
    requires |line| == limit || rest == "" || (line != "" && line[|line| - 1] == '\n')
    requires line != "" ==> '\n' !in line[..|line| - 1]
    ensures LineLen(s, limit) == |line| <= |s| && s[|line|..] == rest && s[..|line|] == line
    ensures LineComplete(s, limit) <==> |line| == limit || (line != "" && line[|line| - 1] == '\n')
  {
    LineStops(line, rest, limit);
  }

  /** rio_t together with the descriptor it reads from. */
  class RioBuffer {
    const fd: Descriptor
    const buf: array<char>
    var cnt: int
    var bufptr: nat

    ghost predicate Valid()
      reads this, fd
    {
      && fd.Valid()
      && buf.Length == RIO_BUFSIZE
      && -1 <= cnt
      && bufptr <= RIO_BUFSIZE
      && (cnt > 0 ==> bufptr + cnt <= RIO_BUFSIZE)
    }

    /** Everything still to be read: the unread buffer, then what will arrive. */
    ghost function Stream(): string
      reads this, fd, buf
      requires Valid()
    {
      (if cnt > 0 then buf[bufptr..bufptr + cnt] else "") + Arriving(fd.incoming)
    }

    ghost predicate Breaks()
      reads fd
    {
      ReadBreaks(fd.incoming)
    }

    /** rio_readinitb */
    constructor (fd: Descriptor)
      requires fd.Valid()
      ensures Valid() && fresh(buf) && this.fd == fd
      ensures Stream() == Arriving(fd.incoming)
    {
      this.fd := fd;
      this.buf := new char[RIO_BUFSIZE];
      this.cnt := 0;
      this.bufptr := 0;
    }

    /** The refill loop of rio_read: one more read() while nothing is unread. */
    method Refill() returns (r: int)
      requires Valid()
      modifies this`cnt, this`bufptr, fd`incoming, buf
      ensures Valid() && -1 <= r <= 1
      ensures r == 1 ==> cnt > 0 && Stream() == old(Stream()) && Breaks() == old(Breaks())
      ensures r == 0 ==> old(Stream()) == "" && !old(Breaks()) && Stream() == "" && !Breaks()
      ensures r == -1 ==> old(Stream()) == "" && old(Breaks())
    {
      while cnt <= 0
        invariant Valid()
        invariant Stream() == old(Stream()) && Breaks() == old(Breaks())
        decreases |fd.incoming|, -cnt
      {
        ghost var before := fd.incoming;
        var got, errno := fd.Read(buf, RIO_BUFSIZE);
        cnt := got;
        if cnt < 0 {
          assert before[1..] == fd.incoming;
          if errno != EINTR {
            return -1;
          }
        } else if cnt == 0 {
          return 0;
        } else {
          bufptr := 0;
          assert buf[..got] == buf[0..got];
          return 1;
        }
      }
      return 1;
    }

    /** rio_read: the bytes go to usr[off], usr[off + 1], ... */
    method RioRead(usr: array<char>, off: nat, n: nat) returns (r: int)
      requires Valid() && usr != buf
      requires 0 < n <= INT_MAX && off + n <= usr.Length
      modifies this`cnt, this`bufptr, fd`incoming, buf, usr
      ensures Valid()
      ensures -1 <= r <= n
      ensures r > 0 ==> old(Stream()) == usr[off..off + r] + Stream() && Breaks() == old(Breaks())
      ensures forall i :: 0 <= i < usr.Length && !(off <= i < off + r) ==> usr[i] == old(usr[i])
      ensures r == 0 ==> old(Stream()) == "" && !old(Breaks()) && Stream() == "" && !Breaks()
      ensures r == -1 ==> old(Stream()) == "" && old(Breaks())
    {
      r := Refill();
      if r <= 0 {
        return;
      }
      var count := n;
      if cnt < n {
        count := cnt;
      }
      forall i | 0 <= i < count {
        usr[off + i] := buf[bufptr + i];
      }
      assert usr[off..off + count] == buf[bufptr..bufptr + count];
      Consume(count);
      r := count;
    }

    /** rio_bufptr += count and rio_cnt -= count */
    method Consume(count: nat)
      requires Valid() && count <= cnt
      modifies this`cnt, this`bufptr
      ensures Valid()
      ensures old(Stream()) == buf[old(bufptr)..old(bufptr) + count] + Stream()
    {
      ghost var unread, coming := if cnt > 0 then buf[bufptr..bufptr + cnt] else "", Arriving(fd.incoming);
      CutAt(unread, count, coming);
      bufptr := bufptr + count;
      cnt := cnt - count;
      ghost var left := if cnt > 0 then buf[bufptr..bufptr + cnt] else "";
      assert left == unread[count..];
      assert Stream() == left + coming;
    }

    /** The call `rio_read(rp, &c, 1)` with its local one-byte target. */
    method ReadOne() returns (rc: int, c: char)
      requires Valid()
      modifies this`cnt, this`bufptr, fd`incoming, buf
      ensures Valid() && -1 <= rc <= 1
      ensures rc == 1 ==> old(Stream()) == [c] + Stream() && Breaks() == old(Breaks())
      ensures rc == 0 ==> old(Stream()) == "" && !old(Breaks()) && Stream() == "" && !Breaks()
      ensures rc == -1 ==> old(Stream()) == "" && old(Breaks())
    {
      var target := new char[1];
      rc := RioRead(target, 0, 1);
      c := target[0];
      assert rc == 1 ==> target[0..1] == [c];
    }

    /** One byte more, stored at usr[at]. */
    method StoreOne(usr: array<char>, at: nat) returns (rc: int, c: char)
      requires Valid() && usr != buf && at < usr.Length
      modifies this`cnt, this`bufptr, fd`incoming, buf, usr
      ensures Valid() && (rc == 0 || rc == 1 || rc == -1)
      ensures rc == 1 ==> old(Stream()) == [c] + Stream() && Breaks() == old(Breaks()) && usr[at] == c
      ensures rc == 0 ==> old(Stream()) == "" && !old(Breaks()) && Stream() == "" && !Breaks()
      ensures rc == -1 ==> old(Stream()) == "" && old(Breaks())
      ensures forall i :: 0 <= i < usr.Length && (rc == 1 ==> i != at) ==> usr[i] == old(usr[i])
    {
      rc, c := ReadOne();
      if rc == 1 {
        usr[at] := c;
      }
    }

    /** The loop of rio_readlineb: bytes go to usr[0], usr[1], ... until a
        newline, the end of the file, an error, or maxlen - 1 bytes. */
    method ScanLine(usr: array<char>, maxlen: nat) returns (failed: bool, bufp: nat, ghost rest: string)
      requires Valid() && usr != buf
      requires 0 < maxlen <= usr.Length && maxlen <= INT_MAX
      modifies this`cnt, this`bufptr, fd`incoming, buf, usr
      ensures Valid() && bufp < maxlen
      ensures old(Stream()) == usr[..bufp] + rest
      ensures bufp > 0 ==> '\n' !in usr[..bufp - 1]
      ensures failed ==> old(Breaks()) && rest == "" && bufp < maxlen - 1 && '\n' !in usr[..bufp]
      ensures !failed ==> Stream() == rest && Breaks() == old(Breaks())
      ensures !failed ==> || bufp == maxlen - 1 || (bufp > 0 && usr[bufp - 1] == '\n')
                          || (rest == "" && !Breaks())
      ensures forall i :: bufp <= i < usr.Length ==> usr[i] == old(usr[i])
    {
      rest, bufp := Stream(), 0;
      ghost var broken := Breaks();
      var n := 1;
      while n < maxlen
        invariant Valid() && Stream() == rest && Breaks() == broken
        invariant 1 <= n <= maxlen && bufp == n - 1
        invariant old(Stream()) == usr[..bufp] + rest && '\n' !in usr[..bufp]
        invariant forall i :: bufp <= i < usr.Length ==> usr[i] == old(usr[i])
      {
        ghost var line := usr[..bufp];
        var rc, c := StoreOne(usr, bufp);
        assert usr[..bufp] == line;
        if rc == 1 {
          bufp := bufp + 1;
          assert usr[..bufp] == line + [c];
          rest := Stream();
          if c == '\n' {
            n := n + 1;
            break;
          }
        } else if rc == 0 {
          break;
        } else {
          return true, bufp, rest;
        }
        n := n + 1;
      }
      failed := false;
    }

    /** rio_readlineb: what it stores and consumes depends on the stream alone,
        not on how the stream was cut into chunks. */
    method ReadLineB(usr: array<char>, maxlen: nat) returns (r: int)
      requires Valid() && usr != buf
      requires 0 < maxlen <= usr.Length && maxlen <= INT_MAX
      modifies this`cnt, this`bufptr, fd`incoming, buf, usr
      ensures Valid()
      ensures r == -1 <==> !LineComplete(old(Stream()), maxlen - 1) && old(Breaks())
      ensures r != -1 ==>
                && r == LineLen(old(Stream()), maxlen - 1)
                && r < maxlen && r <= |old(Stream())|
                && Stream() == old(Stream())[r..]
                && Breaks() == old(Breaks())
      ensures r > 0 ==> usr[..] == old(Stream())[..r] + [ClientUtil.NUL] + old(usr[r + 1..])
    {
      ghost var s := Stream();
      var failed, bufp, rest := ScanLine(usr, maxlen);
      LineStored(s, usr[..bufp], rest, maxlen - 1);
      if failed {
        return -1;
      }
      if bufp == 0 && maxlen > 1 {
        return 0;
      }
      usr[bufp] := ClientUtil.NUL;
      assert Stream() == rest;
      r := bufp;
    }

    /** rio_readnb: exactly n bytes, or all there are. */
    method ReadNB(usr: array<char>, n: nat) returns (r: int)
      requires Valid() && usr != buf
      requires n <= usr.Length && n <= INT_MAX
      modifies this`cnt, this`bufptr, fd`incoming, buf, usr
      ensures Valid()
      ensures r == -1 <==> |old(Stream())| < n && old(Breaks())
      ensures r != -1 ==>
                && r == (if n <= |old(Stream())| then n else |old(Stream())|)
                && usr[..] == old(Stream())[..r] + old(usr[r..])
                && Stream() == old(Stream())[r..]
                && Breaks() == old(Breaks())
    {
      ghost var s, got, rest, broken := Stream(), "", Stream(), Breaks();
      var nleft, bufp := n, 0;
      r := 0;
      while nleft > 0
        invariant Valid() && Stream() == rest && Breaks() == broken
        invariant 0 <= bufp && 0 <= nleft && bufp + nleft == n
        invariant s == got + rest && usr[..bufp] == got
        invariant forall i :: bufp <= i < usr.Length ==> usr[i] == old(usr[i])
      {
        var nread := RioRead(usr, bufp, nleft);
        if nread < 0 {
          return -1;
        }
        if nread == 0 {
          break;
        }
        ghost var more := usr[bufp..bufp + nread];
        rest := Stream();
        assert s == (got + more) + rest;
        got := got + more;
        nleft := nleft - nread;
        bufp := bufp + nread;
      }
      r := n - nleft;
      assert s[..bufp] == got && s[bufp..] == rest;
    }
  }

  /** rio_writen: every byte once and in order, or -1 after a proper prefix. */
  method WriteN(fd: Descriptor, usr: string) returns (r: int)
    requires fd.Valid()
    modifies fd`accepting, fd`written
    ensures fd.Valid()
    ensures r == |usr| || r == -1
    ensures r != -1 ==> fd.written == old(fd.written) + usr
    ensures r == -1 ==> WriteFailure in old(fd.accepting)
                        && exists taken: nat :: taken < |usr| && fd.written == old(fd.written) + usr[..taken]
    ensures WriteFailure in fd.accepting ==> WriteFailure in old(fd.accepting)
  {
    var nleft, bufp := |usr|, 0;
    while nleft > 0
      invariant fd.Valid() && 0 <= bufp && 0 <= nleft && bufp + nleft == |usr|
      invariant fd.written == old(fd.written) + usr[..bufp]
      invariant WriteFailure in fd.accepting ==> WriteFailure in old(fd.accepting)
      decreases nleft, |fd.accepting|
    {
      var nwritten, errno := fd.Write(usr[bufp..], nleft);
      if nwritten <= 0 {
        if errno == EINTR {
          nwritten := 0;
        } else {
          return -1;
        }
      }
      assert usr[..bufp] + usr[bufp..][..nwritten] == usr[..bufp + nwritten];
      nleft := nleft - nwritten;
      bufp := bufp + nwritten;
    }
    r := |usr|;
  }

  /** One buffered read that a client may ask for. */
  datatype Call = ReadLine(maxlen: nat) | ReadBlock(n: nat)

  predicate ProperCall(c: Call) {
    match c
    case ReadLine(maxlen) => 0 < maxlen <= INT_MAX
    case ReadBlock(n) => n <= INT_MAX
  }

  function Taken(s: string, c: Call): (k: nat)
    requires ProperCall(c)
    ensures k <= |s|
  {
    match c
    case ReadLine(maxlen) => LineLenIsMinimum(s, maxlen - 1); LineLen(s, maxlen - 1)
    case ReadBlock(n) => if n <= |s| then n else |s|
  }

  /** What the calls return, one after the other, from a stream that starts as `s`. */
  function Returns(s: string, calls: seq<Call>): seq<string>
    requires forall c :: c in calls ==> ProperCall(c)
  {
    if calls == [] then []
    else
      var k := Taken(s, calls[0]);
      [s[..k]] + Returns(s[k..], calls[1..])
  }

  function Flatten(pieces: seq<string>): string {
    if pieces == [] then "" else pieces[0] + Flatten(pieces[1..])
  }

  lemma {:induction false} FlattenAppend(pieces: seq<string>, last: string)
    ensures Flatten(pieces + [last]) == Flatten(pieces) + last
  {
    if pieces == [] {
      assert pieces + [last] == [last];
    } else {
      assert (pieces + [last])[1..] == pieces[1..] + [last];
      FlattenAppend(pieces[1..], last);
    }
  }

  /** Whatever mixture of calls is made, what they return is, in order, exactly
      the beginning of the stream: no byte is lost, repeated or moved. */
  lemma {:induction false} ReturnsArePrefix(s: string, calls: seq<Call>)
    requires forall c :: c in calls ==> ProperCall(c)
    ensures var out := Flatten(Returns(s, calls));
            |out| <= |s| && out == s[..|out|]
  {
    if calls != [] {
      var k := Taken(s, calls[0]);
      ReturnsArePrefix(s[k..], calls[1..]);
      var out := Flatten(Returns(s[k..], calls[1..]));
      assert s[..k] + s[k..][..|out|] == s[..k + |out|];
    }
  }

  lemma ReturnsStep(done: seq<string>, s: string, calls: seq<Call>, piece: string, rest: string)
    requires calls != [] && forall c :: c in calls ==> ProperCall(c)
    requires piece == s[..Taken(s, calls[0])] && s == piece + rest
    ensures done + Returns(s, calls) == (done + [piece]) + Returns(rest, calls[1..])
    ensures Flatten(done) + s == Flatten(done + [piece]) + rest
  {
    assert s[|piece|..] == rest;
    var later := Returns(rest, calls[1..]);
    assert Returns(s, calls) == [piece] + later;
    Basics.Regroup(done, piece, later);
    FlattenAppend(done, piece);
    assert Flatten(done) + (piece + rest) == (Flatten(done) + piece) + rest;
  }

  method MakeCall(rio: RioBuffer, c: Call) returns (piece: string)
    requires rio.Valid() && ProperCall(c) && !rio.Breaks()
    modifies rio`cnt, rio`bufptr, rio.fd`incoming, rio.buf
    ensures rio.Valid() && !rio.Breaks()
    ensures piece == old(rio.Stream())[..Taken(old(rio.Stream()), c)]
    ensures old(rio.Stream()) == piece + rio.Stream()
  {
    match c
    case ReadLine(maxlen) =>
      var usr := new char[maxlen];
      var r := rio.ReadLineB(usr, maxlen);
      piece := usr[..r];
    case ReadBlock(n) =>
      var usr := new char[n];
      var r := rio.ReadNB(usr, n);
      piece := usr[..r];
  }

  /** Line reads and block reads in any order on one buffer. */
  method MakeCalls(rio: RioBuffer, calls: seq<Call>) returns (pieces: seq<string>)
    requires rio.Valid() && !rio.Breaks()
    requires forall c :: c in calls ==> ProperCall(c)
    modifies rio`cnt, rio`bufptr, rio.fd`incoming, rio.buf
    ensures rio.Valid() && !rio.Breaks()
    ensures pieces == Returns(old(rio.Stream()), calls)
    ensures old(rio.Stream()) == Flatten(pieces) + rio.Stream()
  {
    ghost var s, now := rio.Stream(), rio.Stream();
    pieces := [];
    for i := 0 to |calls|
      invariant rio.Valid() && !rio.Breaks() && rio.Stream() == now
      invariant pieces + Returns(now, calls[i..]) == Returns(s, calls)
      invariant s == Flatten(pieces) + now
    {
      var piece := MakeCall(rio, calls[i]);
      ghost var rest := rio.Stream();
      ReturnsStep(pieces, now, calls[i..], piece, rest);
      assert calls[i..][1..] == calls[i + 1..];
      pieces := pieces + [piece];
      now := rest;
    }
  }
}
