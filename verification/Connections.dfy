/** One protocol line at a time over a socket: connection.cpp. */
module Connections {
  import opened Basics
  import opened ClientUtil
  import opened Messages
  import opened Rio

  /** What std::string(const char *) and strlen see of an array of bytes. */
  function CString(s: string): string {
    match Find(s, NUL)
    case None => s
    case Some(i) => s[..i]
  }

  function Encoded(m: Message): string {
    m.tag + ":" + m.data + "\n"
  }

  /** The bytes that Connection::send hands to rio_writen. */
  function Wire(m: Message): string {
    CString(Encoded(m))
  }

  /** What one call of Connection::receive reports. */
  datatype Receipt = Ok(m: Message) | Invalid | Eof

  function Parse(line: string): Receipt {
    var text := Trim(line);
    match Find(text, ':')
    case None => Invalid
    case Some(colonPos) =>
      var tag, data := text[..colonPos], text[colonPos + 1..];
      if IsLowerCased(tag) then Ok(Message(tag, data)) else Invalid
  }

  function Received(stream: string): Receipt {
    LineLenIsMinimum(stream, MAX_LEN);
    var k := LineLen(stream, MAX_LEN);
    if k == 0 then Eof else Parse(CString(stream[..k]))
  }

  function Remaining(stream: string): string {
    LineLenIsMinimum(stream, MAX_LEN);
    stream[LineLen(stream, MAX_LEN)..]
  }

  datatype Result = SUCCESS | EOF_OR_ERROR | INVALID_MSG

  class Connection {
    const fd: Descriptor
    const rio: RioBuffer
    var lastResult: Result

    ghost predicate Valid()
      reads this, fd, rio, rio.fd
    {
      rio.Valid() && rio.fd == fd
    }

    constructor (fd: Descriptor)
      requires fd.Valid()
      ensures Valid() && fresh(rio) && fresh(rio.buf) && this.fd == fd
      ensures rio.Stream() == Arriving(fd.incoming) && lastResult == SUCCESS
    {
      this.fd := fd;
      this.rio := new RioBuffer(fd);
      this.lastResult := SUCCESS;
    }

    /** Connection::send */
    method Send(msg: Message) returns (ok: bool)
      requires Valid()
      modifies this`lastResult, fd`accepting, fd`written
      ensures Valid() && rio.Stream() == old(rio.Stream())
      ensures ok ==> fd.written == old(fd.written) + Wire(msg) && lastResult == old(lastResult)
      ensures !ok ==> lastResult == EOF_OR_ERROR && WriteFailure in old(fd.accepting)
                      && exists taken: nat :: taken < |Wire(msg)| && fd.written == old(fd.written) + Wire(msg)[..taken]
      ensures WriteFailure in fd.accepting ==> WriteFailure in old(fd.accepting)
    {
      var tagAndPayStr := CString(Encoded(msg));
      assert tagAndPayStr == Wire(msg);
      var n := WriteN(fd, tagAndPayStr);
      if n != |tagAndPayStr| {
        lastResult := EOF_OR_ERROR;
        return false;
      }
      return true;
    }

    /** The first half of receive: a line of at most MAX_LEN bytes into a local buffer. */
    method TakeLine() returns (n: int, line: string)
      requires Valid()
      modifies rio`cnt, rio`bufptr, fd`incoming, rio.buf
      ensures Valid()
      ensures n == -1 <==> old(rio.Breaks()) && !LineComplete(old(rio.Stream()), MAX_LEN)
      ensures n != -1 ==>
                && rio.Stream() == Remaining(old(rio.Stream())) && rio.Breaks() == old(rio.Breaks())
                && Received(old(rio.Stream())) == if n < 1 then Eof else Parse(line)
    {
      ghost var s := rio.Stream();
      var buf := new char[MAX_LEN + 1];
      n := rio.ReadLineB(buf, MAX_LEN + 1);
      line := "";
      if n >= 1 {
        CStringStored(s[..n], buf[..]);
        line := CString(buf[..]);
      }
    }

    /** The second half of receive: what the line says. */
    method Decode(line: string, msg: Message) returns (ok: bool, received: Message)
      modifies this`lastResult
      ensures ok == Parse(line).Ok?
      ensures ok ==> Parse(line) == Ok(received) && lastResult == old(lastResult)
      ensures !ok ==> received == msg.(tag := TAG_ERR) && lastResult == INVALID_MSG
    {
      var bufStr := Trim(line);
      var colonPos := Find(bufStr, ':');
      if colonPos.None? {
        lastResult := INVALID_MSG;
        return false, msg.(tag := TAG_ERR);
      }
      var tag := bufStr[..colonPos.value];
      var data := bufStr[colonPos.value + 1..];
      if !IsLowerCased(tag) {
        lastResult := INVALID_MSG;
        return false, msg.(tag := TAG_ERR);
      }
      return true, Message(tag, data);
    }

    /** Connection::receive; `received` is the message argument afterwards. */
    method Receive(msg: Message) returns (ok: bool, received: Message)
      requires Valid()
      modifies this`lastResult, rio`cnt, rio`bufptr, fd`incoming, rio.buf
      ensures Valid()
      ensures !old(rio.Breaks()) || LineComplete(old(rio.Stream()), MAX_LEN) ==>
                && rio.Stream() == Remaining(old(rio.Stream())) && rio.Breaks() == old(rio.Breaks())
                && ok == Received(old(rio.Stream())).Ok?
                && (ok ==> Received(old(rio.Stream())) == Ok(received) && lastResult == old(lastResult))
                && (Received(old(rio.Stream())) == Invalid ==> lastResult == INVALID_MSG)
                && (Received(old(rio.Stream())) == Eof ==> lastResult == EOF_OR_ERROR)
      ensures old(rio.Breaks()) && !LineComplete(old(rio.Stream()), MAX_LEN) ==>
                !ok && lastResult == EOF_OR_ERROR
      ensures !ok ==> received == msg.(tag := TAG_ERR)
    {
      ghost var s, broken := rio.Stream(), rio.Breaks();
      ghost var left, receipt := Remaining(s), Received(s);
      var n, line := TakeLine();
      assert n != -1 ==> rio.Stream() == left && rio.Breaks() == broken;
      assert n != -1 ==> receipt == if n < 1 then Eof else Parse(line);
      if n < 1 {
        lastResult := EOF_OR_ERROR;
        return false, msg.(tag := TAG_ERR);
      }
      ok, received := Decode(line, msg);
      assert rio.Stream() == left && rio.Breaks() == broken;
    }
  }

  /** Whatever lies behind the terminator does not matter. */
  lemma CStringStored(line: string, stored: string)
    requires |line| < |stored| && stored[..|line|] == line && stored[|line|] == NUL
    ensures CString(stored) == CString(line)
  {
    match Find(line, NUL)
    case None =>
      FindAt(stored, NUL, |line|);
    case Some(i) =>
      assert stored[..i] == line[..i];
      FindAt(stored, NUL, i);
  }

  predicate Clean(s: string) {
    '\n' !in s && NUL !in s
  }

  /** What a message must be for its line to be one line of text. */
  predicate FitForWire(m: Message) {
    IsLowerCased(m.tag) && Clean(m.data)
  }

  /** What a message must be for one send to be one receive at the other end. */
  predicate Sendable(m: Message) {
    FitForWire(m) && |Encoded(m)| <= MAX_LEN
  }

  /** The message that arrives: trailing blanks of the data are lost. */
  function Echo(m: Message): Message {
    m.(data := RTrim(m.data))
  }

  /** What every message that receive has accepted looks like. */
  predicate Receivable(m: Message) {
    && IsLowerCased(m.tag)
    && Clean(m.data)
    && RTrim(m.data) == m.data
    && |m.tag| + 1 + |m.data| <= MAX_LEN
  }

  lemma CStringClean(s: string)
    ensures NUL !in CString(s)
    ensures NUL !in s ==> CString(s) == s
    ensures |CString(s)| <= |s| && CString(s) == s[..|CString(s)|]
  {
  }

  lemma LTrimIsSuffix(s: string)
    ensures |LTrim(s)| <= |s| && LTrim(s) == s[|s| - |LTrim(s)|..]
  {
  }

  /** A line with its newline, if any, at the end loses it by trimming. */
  lemma TrimmedLine(line: string)
    requires NUL !in line
    requires line != "" ==> '\n' !in line[..|line| - 1]
    ensures Clean(Trim(line)) && RTrim(Trim(line)) == Trim(line) && |Trim(line)| <= |line|
  {
    var l := LTrim(line);
    LTrimIsSuffix(line);
    RTrimShape(l);
    RTrimIdempotent(l);
    var a, k := |line| - |l|, |RTrim(l)|;
    forall i | 0 <= i < k ensures l[i] != '\n' && l[i] != NUL {
      assert l[i] == line[a + i];
      if a + i < |line| - 1 {
        assert line[a + i] in line[..|line| - 1];
      }
    }
  }

  lemma TailStaysTrimmed(text: string, p: nat)
    requires p < |text| && Clean(text) && RTrim(text) == text
    ensures Clean(text[p + 1..]) && RTrim(text[p + 1..]) == text[p + 1..]
  {
    RTrimFixpoint(text);
    RTrimFixpoint(text[p + 1..]);
  }

  /** A line that receive accepts yields a receivable message. */
  lemma ParsedIsReceivable(line: string)
    requires Parse(line).Ok? && NUL !in line && |line| <= MAX_LEN
    requires line != "" ==> '\n' !in line[..|line| - 1]
    ensures Receivable(Parse(line).m)
  {
    TrimmedLine(line);
    TailStaysTrimmed(Trim(line), Find(Trim(line), ':').value);
  }

  lemma ReceivedIsReceivable(stream: string)
    requires Received(stream).Ok?
    ensures Receivable(Received(stream).m)
  {
    LineLenIsMinimum(stream, MAX_LEN);
    var line := stream[..LineLen(stream, MAX_LEN)];
    CStringClean(line);
    var cut := CString(line);
    if cut != "" {
      forall i | 0 <= i < |cut| - 1 ensures cut[i] != '\n' {
        assert cut[i] == stream[i] == line[..|line| - 1][i];
      }
    }
    ParsedIsReceivable(cut);
  }

  lemma LowerHasNoColon(tag: string)
    requires IsLowerCased(tag)
    ensures ':' !in tag && '\n' !in tag && NUL !in tag
  {
  }

  /** A message with a lower-case tag and clean data, written on one line, reads
      back as itself with the data trimmed on the right. */
  lemma ParseEncoded(m: Message)
    requires FitForWire(m)
    ensures CString(Encoded(m)) == Encoded(m)
    ensures Parse(Encoded(m)) == Ok(Echo(m))
  {
    var head, line := m.tag + ":", Encoded(m);
    CStringClean(line);
    assert Trim(line) == head + RTrim(m.data) by {
      assert line == head + (m.data + "\n");
      assert !IsSpace(line[0]);
      LTrimNothing(line);
      RTrimAppend(head, m.data + "\n");
      RTrimDropsBlank(m.data, '\n');
    }
    LowerHasNoColon(m.tag);
    FirstColon(m.tag, RTrim(m.data));
  }

  /** What can be sent, by number: a tag of lower-case letters, data without newline
      and NUL, and a line of at most 255 bytes. */
  lemma SendableIs(m: Message)
    ensures Sendable(m) <==>
              && (forall i :: 0 <= i < |m.tag| ==> 97 <= m.tag[i] as int <= 122)
              && (forall i :: 0 <= i < |m.data| ==> m.data[i] as int != 10 && m.data[i] as int != 0)
              && |m.tag| + |m.data| + 2 <= 255
  {
  }

  /** Blanks that do not end the line: space, tab, vertical tab, form feed, carriage
      return, by number. */
  predicate OnlyBlanks(s: string) {
    forall i :: 0 <= i < |s| ==> s[i] as int == 32 || s[i] as int == 9 || 11 <= s[i] as int <= 13
  }

  /** What receive makes of a line with blanks on both sides: they are lost, the tag
      and the data are what stands on either side of the first colon. */
  lemma FramedLine(pre: string, tag: string, data: string, post: string)
    requires OnlyBlanks(pre) && OnlyBlanks(post) && Clean(data)
    requires forall i :: 0 <= i < |tag| ==> 97 <= tag[i] as int <= 122
    ensures Parse(pre + (tag + ":" + data + post + "\n")) == Ok(Message(tag, RTrim(data)))
  {
    var head, tail := tag + ":", data + post + "\n";
    FramedParts(tag, data, post);
    BlankFront(pre, head + tail);
    FramedTail(data, post);
    RTrimAppend(head, tail);
    LowerHasNoColon(tag);
    FirstColon(tag, RTrim(data));
    ParsedFrom(pre + (head + tail), tag, RTrim(data));
  }

  lemma FramedParts(tag: string, data: string, post: string)
    ensures tag + ":" + data + post + "\n" == (tag + ":") + (data + post + "\n")
  {
    Associates(tag + ":", data, post);
    Associates(tag + ":", data + post, "\n");
  }

  lemma ParsedFrom(line: string, tag: string, data: string)
    requires Trim(line) == tag + ":" + data && IsLowerCased(tag)
    ensures Parse(line) == Ok(Message(tag, data))
  {
    LowerHasNoColon(tag);
    FirstColon(tag, data);
  }

  lemma BlankFront(pre: string, line: string)
    requires OnlyBlanks(pre) && line != "" && !IsSpace(line[0])
    ensures LTrim(pre + line) == line
  {
    LTrimUnique(pre + line, |pre|);
    assert (pre + line)[|pre|..] == line;
  }

  lemma FramedTail(data: string, post: string)
    requires OnlyBlanks(post)
    ensures RTrim(data + post + "\n") == RTrim(data)
  {
    Associates(data, post, "\n");
    RTrimDropsBlanks(data, post + "\n");
  }

  /** The exact condition under which one send is one receive, whatever follows
      on the stream: lower-case tag, no newline and no NUL in the data, and at
      most 255 bytes on the wire. */
  lemma OneSendIsOneReceive(m: Message, rest: string)
    ensures Sendable(m) <==>
              Received(Wire(m) + rest) == Ok(Echo(m)) && Remaining(Wire(m) + rest) == rest
  {
    if Sendable(m) {
      SendableArrives(m, rest);
    } else if Received(Wire(m) + rest) == Ok(Echo(m)) {
      OthersDoNot(m, rest);
    }
  }

  lemma SendableArrives(m: Message, rest: string)
    requires Sendable(m)
    ensures Received(Wire(m) + rest) == Ok(Echo(m)) && Remaining(Wire(m) + rest) == rest
  {
    ParseEncoded(m);
    LineStops(Wire(m), rest, MAX_LEN);
  }

  lemma OthersDoNot(m: Message, rest: string)
    requires !Sendable(m)
    requires Received(Wire(m) + rest) == Ok(Echo(m))
    ensures Remaining(Wire(m) + rest) != rest
  {
    ReceivedIsReceivable(Wire(m) + rest);
    EchoHasNoNul(m);
    LowerHasNoColon(m.tag);
    CStringClean(Encoded(m));
    LongLineIsCut(m, rest);
  }

  lemma EchoHasNoNul(m: Message)
    requires Clean(RTrim(m.data))
    ensures NUL !in m.data
  {
    if NUL in m.data {
      RTrimKeeps(m.data, NUL);
      assert false;
    }
  }

  /** A second newline, or too many bytes, and the line read stops short. */
  lemma LongLineIsCut(m: Message, rest: string)
    requires '\n' in m.data || |Encoded(m)| > MAX_LEN
    ensures LineLen(Encoded(m) + rest, MAX_LEN) < |Encoded(m)|
    ensures '\n' !in m.tag && '\n' !in m.data ==> LineLen(Encoded(m) + rest, MAX_LEN) == MAX_LEN
  {
    var stream := Encoded(m) + rest;
    LineLenIsMinimum(stream, MAX_LEN);
    if '\n' in m.data {
      var i :| 0 <= i < |m.data| && m.data[i] == '\n';
      assert stream[|m.tag| + 1 + i] == '\n';
    }
  }

  lemma RTrimKeeps(s: string, c: char)
    requires c in s && !IsSpace(c)
    ensures c in RTrim(s)
  {
    RTrimShape(s);
    var i :| 0 <= i < |s| && s[i] == c;
    assert RTrim(s)[i] == c;
  }

  /** A whole conversation on the wire. */
  function WireAll(ms: seq<Message>): string {
    if ms == [] then "" else Wire(ms[0]) + WireAll(ms[1..])
  }

  function ReceivedAll(stream: string, n: nat): seq<Receipt>
    decreases n
  {
    if n == 0 then [] else [Received(stream)] + ReceivedAll(Remaining(stream), n - 1)
  }

  function RemainingAll(stream: string, n: nat): string
    decreases n
  {
    if n == 0 then stream else RemainingAll(Remaining(stream), n - 1)
  }

  function Echoes(ms: seq<Message>): seq<Receipt> {
    if ms == [] then [] else [Ok(Echo(ms[0]))] + Echoes(ms[1..])
  }

  lemma FirstArrives(stream: string, m: Message, later: string, n: nat)
    requires Sendable(m) && stream == Wire(m) + later
    ensures ReceivedAll(stream, n + 1) == [Ok(Echo(m))] + ReceivedAll(later, n)
    ensures RemainingAll(stream, n + 1) == RemainingAll(later, n)
  {
    SendableArrives(m, later);
  }

  /** Every conversation of sendable messages arrives, in order and complete. */
  lemma {:induction false} ConversationArrives(stream: string, ms: seq<Message>, rest: string)
    requires forall m :: m in ms ==> Sendable(m)
    requires stream == WireAll(ms) + rest
    ensures ReceivedAll(stream, |ms|) == Echoes(ms)
    ensures RemainingAll(stream, |ms|) == rest
    decreases |ms|
  {
    if ms == [] {
      assert stream == rest;
    } else {
      var later := WireAll(ms[1..]) + rest;
      assert stream == Wire(ms[0]) + later;
      FirstArrives(stream, ms[0], later, |ms| - 1);
      ConversationArrives(later, ms[1..], rest);
    }
  }

  // ---- Conversations with lines that are too long

  /** One receive takes at most one newline from the stream. */
  lemma OneNewlineAtMost(stream: string)
    ensures Count(Remaining(stream), '\n') + 1 >= Count(stream, '\n')
  {
    LineLenIsMinimum(stream, MAX_LEN);
    var k := LineLen(stream, MAX_LEN);
    assert stream == stream[..k] + stream[k..];
    CountConcat(stream[..k], stream[k..], '\n');
    if k > 0 {
      assert stream[..k] == stream[..k - 1] + [stream[k - 1]];
      CountConcat(stream[..k - 1], [stream[k - 1]], '\n');
      CountZero(stream[..k - 1], '\n');
    }
  }

  lemma {:induction false} NewlinesLeft(stream: string, n: nat)
    ensures Count(RemainingAll(stream, n), '\n') + n >= Count(stream, '\n')
    decreases n
  {
    if n > 0 {
      OneNewlineAtMost(stream);
      NewlinesLeft(Remaining(stream), n - 1);
    }
  }

  lemma CountLine(head: string, rest: string)
    requires '\n' !in head
    ensures Count(head + ("\n" + rest), '\n') == 1 + Count(rest, '\n')
  {
    CountConcat(head, "\n" + rest, '\n');
    CountZero(head, '\n');
    assert ("\n" + rest)[1..] == rest;
  }

  /** A message without its newline. */
  function Head(m: Message): string {
    m.tag + ":" + m.data
  }

  lemma HeadOfWire(m: Message, rest: string)
    requires FitForWire(m)
    ensures Wire(m) == Head(m) + "\n" && '\n' !in Head(m)
    ensures Wire(m) + rest == Head(m) + ("\n" + rest)
  {
    ParseEncoded(m);
    LowerHasNoColon(m.tag);
    NotInBoth(m.tag + ":", m.data, '\n');
    Associates(Head(m), "\n", rest);
  }

  lemma NotInBoth(a: string, b: string, c: char)
    requires c !in a && c !in b
    ensures c !in a + b
  {
  }

  /** The first receive from a line that is too long takes no newline at all. */
  lemma LongLineKeepsNewline(m: Message, rest: string)
    requires FitForWire(m) && |Encoded(m)| > MAX_LEN
    ensures Count(Remaining(Wire(m) + rest), '\n') == 1 + Count(rest, '\n')
  {
    HeadOfWire(m, rest);
    LongLineRest(m, rest);
    CountLine(Head(m)[MAX_LEN..], rest);
  }

  lemma LongLineRest(m: Message, rest: string)
    requires FitForWire(m) && |Encoded(m)| > MAX_LEN
    ensures Remaining(Wire(m) + rest) == Head(m)[MAX_LEN..] + ("\n" + rest)
  {
    ParseEncoded(m);
    LowerHasNoColon(m.tag);
    LongLineIsCut(m, rest);
    CutHead(Head(m), rest);
  }

  lemma CutHead(head: string, rest: string)
    requires |head| >= MAX_LEN
    ensures (head + "\n" + rest)[MAX_LEN..] == head[MAX_LEN..] + ("\n" + rest)
  {
  }

  lemma WireApart(ms: seq<Message>, later: string)
    requires ms != []
    ensures WireAll(ms) + later == Wire(ms[0]) + (WireAll(ms[1..]) + later)
  {
  }

  lemma WireNewline(m: Message, rest: string)
    requires FitForWire(m)
    ensures Count(Wire(m) + rest, '\n') == 1 + Count(rest, '\n')
  {
    HeadOfWire(m, rest);
    CountLine(Head(m), rest);
  }

  lemma {:induction false} WireNewlines(ms: seq<Message>, later: string)
    requires forall m :: m in ms ==> FitForWire(m)
    ensures Count(WireAll(ms) + later, '\n') == |ms| + Count(later, '\n')
  {
    if ms == [] {
      assert "" + later == later;
    } else {
      WireApart(ms, later);
      WireNewlines(ms[1..], later);
      WireNewline(ms[0], WireAll(ms[1..]) + later);
    }
  }

  /** As many receives as messages read a conversation whole, and nothing of what
      follows, exactly when every line fits. */
  lemma {:induction false} ConversationNeedsFit(stream: string, ms: seq<Message>, later: string)
    requires forall m :: m in ms ==> FitForWire(m)
    requires stream == WireAll(ms) + later
    ensures (forall m :: m in ms ==> |Encoded(m)| <= MAX_LEN) <==> RemainingAll(stream, |ms|) == later
    ensures (forall m :: m in ms ==> |Encoded(m)| <= MAX_LEN) ==> ReceivedAll(stream, |ms|) == Echoes(ms)
    decreases |ms|
  {
    if forall m :: m in ms ==> |Encoded(m)| <= MAX_LEN {
      ConversationArrives(stream, ms, later);
    } else {
      SomeLineTooLong(stream, ms, later);
    }
  }

  lemma {:induction false} SomeLineTooLong(stream: string, ms: seq<Message>, later: string)
    requires forall m :: m in ms ==> FitForWire(m)
    requires exists m :: m in ms && |Encoded(m)| > MAX_LEN
    requires stream == WireAll(ms) + later
    ensures Count(RemainingAll(stream, |ms|), '\n') > Count(later, '\n')
    decreases |ms|
  {
    var first, rest := ms[0], WireAll(ms[1..]) + later;
    WireApart(ms, later);
    if |Encoded(first)| > MAX_LEN {
      LongLineKeepsNewline(first, rest);
      WireNewlines(ms[1..], later);
      NewlinesLeft(Remaining(stream), |ms| - 1);
    } else {
      SendableArrives(first, rest);
      TailIsTooLong(ms);
      SomeLineTooLong(rest, ms[1..], later);
    }
  }

  lemma TailIsTooLong(ms: seq<Message>)
    requires ms != [] && |Encoded(ms[0])| <= MAX_LEN
    requires exists m :: m in ms && |Encoded(m)| > MAX_LEN
    ensures exists m :: m in ms[1..] && |Encoded(m)| > MAX_LEN
  {
    var m :| m in ms && |Encoded(m)| > MAX_LEN;
    assert m in ms[1..];
  }

  method SendAll(conn: Connection, ms: seq<Message>) returns (ok: bool)
    requires conn.Valid()
    modifies conn`lastResult, conn.fd`accepting, conn.fd`written
    ensures conn.Valid()
    ensures WriteFailure !in old(conn.fd.accepting) ==> ok
    ensures ok ==> conn.fd.written == old(conn.fd.written) + WireAll(ms)
  {
    for i := 0 to |ms|
      invariant conn.Valid()
      invariant WriteFailure in conn.fd.accepting ==> WriteFailure in old(conn.fd.accepting)
      invariant conn.fd.written + WireAll(ms[i..]) == old(conn.fd.written) + WireAll(ms)
    {
      ghost var before := conn.fd.written;
      ok := conn.Send(ms[i]);
      if !ok {
        return;
      }
      assert ms[i..][1..] == ms[i + 1..];
      assert before + (Wire(ms[i]) + WireAll(ms[i + 1..])) == conn.fd.written + WireAll(ms[i + 1..]);
    }
    ok := true;
  }

  /** Receive n times over a connection without hard errors. */
  method ReceiveAll(conn: Connection, n: nat) returns (got: seq<Receipt>)
    requires conn.Valid() && !conn.rio.Breaks()
    modifies conn`lastResult, conn.rio`cnt, conn.rio`bufptr, conn.fd`incoming, conn.rio.buf
    ensures conn.Valid() && !conn.rio.Breaks()
    ensures got == ReceivedAll(old(conn.rio.Stream()), n)
    ensures conn.rio.Stream() == RemainingAll(old(conn.rio.Stream()), n)
  {
    ghost var s, now := conn.rio.Stream(), conn.rio.Stream();
    got := [];
    var msg := Message("", "");
    for i := 0 to n
      invariant conn.Valid() && !conn.rio.Breaks() && conn.rio.Stream() == now
      invariant got + ReceivedAll(now, n - i) == ReceivedAll(s, n)
      invariant RemainingAll(now, n - i) == RemainingAll(s, n)
    {
      var receipt;
      receipt, msg := ReceiveOne(conn, msg);
      ReceiptStep(got, now, n - i);
      got := got + [receipt];
      now := conn.rio.Stream();
    }
  }

  /** One receive, told by its result and, after a failure, by the last result. */
  method ReceiveOne(conn: Connection, msg: Message) returns (receipt: Receipt, received: Message)
    requires conn.Valid() && !conn.rio.Breaks()
    modifies conn`lastResult, conn.rio`cnt, conn.rio`bufptr, conn.fd`incoming, conn.rio.buf
    ensures conn.Valid() && !conn.rio.Breaks()
    ensures receipt == Received(old(conn.rio.Stream()))
    ensures conn.rio.Stream() == Remaining(old(conn.rio.Stream()))
  {
    var ok;
    ok, received := conn.Receive(msg);
    receipt := if ok then Ok(received)
               else if conn.lastResult == INVALID_MSG then Invalid
               else Eof;
  }

  lemma ReceiptStep(got: seq<Receipt>, stream: string, n: nat)
    requires n > 0
    ensures got + ReceivedAll(stream, n) == (got + [Received(stream)]) + ReceivedAll(Remaining(stream), n - 1)
    ensures RemainingAll(stream, n) == RemainingAll(Remaining(stream), n - 1)
  {
    Regroup(got, Received(stream), ReceivedAll(Remaining(stream), n - 1));
  }

  /** Both ends together: the messages are sent; what the writer's descriptor took
      crosses the network, cut up anyhow; the reader gets exactly what was sent. */
  method Converse(writer: Connection, ms: seq<Message>, sizes: seq<nat>)
      returns (reader: Connection, got: seq<Receipt>)
    requires writer.Valid() && WriteFailure !in writer.fd.accepting
    requires forall m :: m in ms ==> Sendable(m)
    modifies writer`lastResult, writer.fd`accepting, writer.fd`written
    ensures writer.fd.written == old(writer.fd.written) + WireAll(ms)
    ensures fresh(reader) && reader.Valid() && reader.rio.Stream() == ""
    ensures got == Echoes(ms)
  {
    var start := |writer.fd.written|;
    var ok := SendAll(writer, ms);
    var bytes := writer.fd.written[start..];
    assert bytes == WireAll(ms) + "";
    CutDelivers(bytes, sizes);
    var fd := new Descriptor(Cut(bytes, sizes), []);
    reader := new Connection(fd);
    ConversationArrives(bytes, ms, "");
    got := ReceiveAll(reader, |ms|);
  }
}
