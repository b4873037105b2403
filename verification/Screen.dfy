/** The loop of receiver.cpp: what a client shows of the bytes it is sent. */
module Screen {
  import opened Basics
  import opened ClientUtil
  import opened Messages
  import opened Rio
  import opened Connections

  /** The sender and the text that are shown of a message, if it splits into three. */
  function Shown(m: Message): seq<(string, string)> {
    if ValidPayload(m) && |Split(m.data)| == 3 then [(Split(m.data)[1], Split(m.data)[2])] else []
  }

  lemma PiecesShow(m: Message, pieces: seq<string>)
    requires IsSplit(m, pieces)
    ensures Shown(m) == if |pieces| == 3 then [(pieces[1], pieces[2])] else []
  {
    if ValidPayload(m) {
      SplitJoins(m.data);
      JoinInjective(pieces, Split(m.data));
    }
  }

  /** Of three pieces the second is shown as the sender, the third as the text. */
  lemma ShownIs(tag: string, room: string, sender: string, text: string)
    requires ':' !in room && ':' !in sender && ':' !in text
    requires ValidPayload(Message(tag, room + ":" + sender + ":" + text))
    ensures Shown(Message(tag, room + ":" + sender + ":" + text)) == [(sender, text)]
  {
    SplitOfThree(room, sender, text);
  }

  lemma SplitOfThree(a: string, b: string, c: string)
    requires ':' !in a && ':' !in b && ':' !in c
    ensures Split(a + ":" + b + ":" + c) == [a, b, c]
  {
    JoinThree(a, b, c);
    SplitJoins(a + ":" + b + ":" + c);
    JoinInjective(Split(a + ":" + b + ":" + c), [a, b, c]);
  }

  /** The message variable after a receive: a failure changes its tag alone. */
  function Then(msg: Message, receipt: Receipt): Message {
    if receipt.Ok? then receipt.m else msg.(tag := TAG_ERR)
  }

  lemma ThenIs(msg: Message, receipt: Receipt)
    ensures Then(msg, receipt) == if receipt.Ok? then receipt.m else Message("err", msg.data)
  {
  }

  /** A message variable before anything is received into it. */
  const FRESH := Message("", "")

  /** What n rounds show of a stream. */
  function OnScreen(stream: string, msg: Message, n: nat): seq<(string, string)>
    decreases n
  {
    if n == 0 then []
    else
      var m := Then(msg, Received(stream));
      Shown(m) + OnScreen(Remaining(stream), m, n - 1)
  }

  /** One round of the loop. */
  method ShowNext(conn: Connection, msg: Message) returns (received: Message, shown: seq<(string, string)>)
    requires conn.Valid() && !conn.rio.Breaks()
    modifies conn`lastResult, conn.rio`cnt, conn.rio`bufptr, conn.fd`incoming, conn.rio.buf
    ensures conn.Valid() && !conn.rio.Breaks()
    ensures conn.rio.Stream() == Remaining(old(conn.rio.Stream()))
    ensures received == Then(msg, Received(old(conn.rio.Stream())))
    ensures shown == Shown(received)
  {
    ghost var s := conn.rio.Stream();
    ghost var receipt, left := Received(s), Remaining(s);
    var ok;
    ok, received := conn.Receive(msg);
    assert received == Then(msg, receipt) && conn.rio.Stream() == left;
    shown := Show(received);
  }

  /** What a round does with its message. */
  method Show(msg: Message) returns (shown: seq<(string, string)>)
    ensures shown == Shown(msg)
  {
    var loadData := SplitPayload(msg);
    PiecesShow(msg, loadData);
    if |loadData| != 3 {
      shown := [];
    } else {
      shown := [(loadData[1], loadData[2])];
    }
  }

  lemma ShowStep(done: seq<(string, string)>, stream: string, msg: Message, n: nat)
    requires n > 0
    ensures var m := Then(msg, Received(stream));
            done + OnScreen(stream, msg, n) == (done + Shown(m)) + OnScreen(Remaining(stream), m, n - 1)
  {
    var m := Then(msg, Received(stream));
    Associates(done, Shown(m), OnScreen(Remaining(stream), m, n - 1));
  }

  /** The loop, for n rounds, from a fresh message variable. */
  method ShowAll(conn: Connection, n: nat) returns (shown: seq<(string, string)>)
    requires conn.Valid() && !conn.rio.Breaks()
    modifies conn`lastResult, conn.rio`cnt, conn.rio`bufptr, conn.fd`incoming, conn.rio.buf
    ensures conn.Valid() && !conn.rio.Breaks()
    ensures shown == OnScreen(old(conn.rio.Stream()), FRESH, n)
  {
    ghost var s, now := conn.rio.Stream(), conn.rio.Stream();
    var msg := FRESH;
    shown := [];
    for i := 0 to n
      invariant conn.Valid() && !conn.rio.Breaks() && conn.rio.Stream() == now
      invariant shown + OnScreen(now, msg, n - i) == OnScreen(s, FRESH, n)
    {
      ghost var left, next := Remaining(now), Then(msg, Received(now));
      ShowStep(shown, now, msg, n - i);
      var more;
      msg, more := ShowNext(conn, msg);
      assert conn.rio.Stream() == left && msg == next;
      shown := shown + more;
      now := left;
    }
  }

  /** How the program ends, or what n rounds of its loop have shown. */
  datatype Outcome = Exited(code: int) | Looped(shown: seq<(string, string)>)

  /** It must be told `ok` for its login and `ok` for its join to enter the loop. */
  function Admitted(login: Receipt, join: Receipt, shown: seq<(string, string)>): Outcome {
    if Then(FRESH, login).tag != TAG_OK then Exited(1)
    else if Then(FRESH, join).tag != TAG_OK then Exited(2)
    else Looped(shown)
  }

  /** The program on a stream: two receives, then n rounds. */
  function Program(stream: string, n: nat): Outcome {
    var rest := Remaining(stream);
    Admitted(Received(stream), Received(rest), OnScreen(Remaining(rest), FRESH, n))
  }

  /** The program exits with 1 unless the first line is a message tagged `ok`, with 2
      unless the second is, and otherwise shows what comes after them. */
  lemma ProgramIs(stream: string, n: nat)
    ensures var first, second := Received(stream), Received(Remaining(stream));
            Program(stream, n)
            == if !first.Ok? || first.m.tag != "ok" then Exited(1)
               else if !second.Ok? || second.m.tag != "ok" then Exited(2)
               else Looped(OnScreen(Remaining(Remaining(stream)), FRESH, n))
  {
  }

  /** One receive into a fresh variable. */
  method Listen(conn: Connection) returns (answer: Message)
    requires conn.Valid() && !conn.rio.Breaks()
    modifies conn`lastResult, conn.rio`cnt, conn.rio`bufptr, conn.fd`incoming, conn.rio.buf
    ensures conn.Valid() && !conn.rio.Breaks()
    ensures conn.rio.Stream() == Remaining(old(conn.rio.Stream()))
    ensures answer == Then(FRESH, Received(old(conn.rio.Stream())))
  {
    ghost var s := conn.rio.Stream();
    ghost var receipt, left := Received(s), Remaining(s);
    var ok;
    ok, answer := conn.Receive(FRESH);
    assert answer == Then(FRESH, receipt) && conn.rio.Stream() == left;
  }

  /** main of receiver.cpp, from the answer to the login on, for n rounds. */
  method RunReceiver(conn: Connection, n: nat) returns (outcome: Outcome)
    requires conn.Valid() && !conn.rio.Breaks()
    modifies conn`lastResult, conn.rio`cnt, conn.rio`bufptr, conn.fd`incoming, conn.rio.buf
    ensures conn.Valid() && !conn.rio.Breaks()
    ensures outcome == Program(old(conn.rio.Stream()), n)
  {
    ghost var s := conn.rio.Stream();
    var emptyRlogin := Listen(conn);
    ghost var rest := conn.rio.Stream();
    if emptyRlogin.tag != TAG_OK {
      return Exited(1);
    }
    var emptyJoin := Listen(conn);
    if emptyJoin.tag != TAG_OK {
      return Exited(2);
    }
    assert conn.rio.Stream() == Remaining(rest);
    var shown := ShowAll(conn, n);
    outcome := Looped(shown);
  }

  /** What is shown of a conversation, message by message. */
  function ShownOf(ms: seq<Message>): seq<(string, string)> {
    if ms == [] then [] else Shown(Echo(ms[0])) + ShownOf(ms[1..])
  }

  lemma FirstIsShown(stream: string, m: Message, later: string, msg: Message, n: nat)
    requires Sendable(m) && stream == Wire(m) + later
    ensures OnScreen(stream, msg, n + 1) == Shown(Echo(m)) + OnScreen(later, Echo(m), n)
  {
    SendableArrives(m, later);
  }

  /** A conversation of sendable messages is shown message by message, whatever was
      received before and whatever follows. */
  lemma {:induction false} ConversationIsShown(stream: string, ms: seq<Message>, rest: string, msg: Message)
    requires forall m :: m in ms ==> Sendable(m)
    requires stream == WireAll(ms) + rest
    ensures OnScreen(stream, msg, |ms|) == ShownOf(ms)
    decreases |ms|
  {
    if ms != [] {
      var later := WireAll(ms[1..]) + rest;
      assert stream == Wire(ms[0]) + later;
      FirstIsShown(stream, ms[0], later, msg, |ms| - 1);
      ConversationIsShown(later, ms[1..], rest, Echo(ms[0]));
    }
  }

  lemma {:induction false} ShownOfConcat(a: seq<Message>, b: seq<Message>)
    ensures ShownOf(a + b) == ShownOf(a) + ShownOf(b)
  {
    if a == [] {
      assert a + b == b;
    } else {
      assert (a + b)[1..] == a[1..] + b;
      ShownOfConcat(a[1..], b);
      Associates(Shown(Echo(a[0])), ShownOf(a[1..]), ShownOf(b));
    }
  }

  lemma ShownSnoc(ms: seq<Message>, m: Message)
    ensures ShownOf(ms + [m]) == ShownOf(ms) + Shown(Echo(m))
  {
    ShownOfConcat(ms, [m]);
    assert ShownOf([m]) == Shown(Echo(m)) + ShownOf([]);
  }

  lemma ShownAlike(a: seq<Message>, b: seq<Message>, m: Message)
    requires ShownOf(a) == ShownOf(b)
    ensures ShownOf(a + [m]) == ShownOf(b + [m])
  {
    ShownSnoc(a, m);
    ShownSnoc(b, m);
  }

  lemma NotShown(a: seq<Message>, m: Message)
    requires Shown(Echo(m)) == []
    ensures ShownOf(a + [m]) == ShownOf(a)
  {
    ShownSnoc(a, m);
    assert ShownOf(a) + [] == ShownOf(a);
  }

  lemma TwoRounds(stream: string, msg: Message)
    ensures var m := Then(msg, Received(stream));
            OnScreen(stream, msg, 2) == Shown(m) + Shown(Then(m, Received(Remaining(stream))))
  {
    var m, rest := Then(msg, Received(stream)), Remaining(stream);
    assert OnScreen(rest, m, 1) == Shown(Then(m, Received(rest))) + [];
  }

  // ---- Lines of any length

  /** A line with its newline, which is the only one. */
  predicate OneLine(s: string) {
    s != "" && s[|s| - 1] == '\n' && '\n' !in s[..|s| - 1] && NUL !in s
  }

  ghost predicate AllLines(lines: seq<string>) {
    forall l :: l in lines ==> OneLine(l)
  }

  function Concat(lines: seq<string>): string {
    if lines == [] then "" else lines[0] + Concat(lines[1..])
  }

  /** The lines as they are read: in pieces of MAX_LEN bytes, each line's last piece
      being what is left of it. */
  function Pieces(lines: seq<string>): seq<string>
    decreases |lines|, if lines == [] then 0 else |lines[0]|
  {
    if lines == [] then []
    else if |lines[0]| <= MAX_LEN then [lines[0]] + Pieces(lines[1..])
    else [lines[0][..MAX_LEN]] + Pieces([lines[0][MAX_LEN..]] + lines[1..])
  }

  /** What is shown of such pieces, one round for each. */
  function ShownOfPieces(pieces: seq<string>, msg: Message): seq<(string, string)> {
    if pieces == [] then []
    else
      var m := Then(msg, Parse(pieces[0]));
      Shown(m) + ShownOfPieces(pieces[1..], m)
  }

  lemma FirstPiece(line: string, rest: string)
    requires OneLine(line)
    ensures var k := if |line| <= MAX_LEN then |line| else MAX_LEN;
            Received(line + rest) == Parse(line[..k]) && Remaining(line + rest) == line[k..] + rest
  {
    var k := if |line| <= MAX_LEN then |line| else MAX_LEN;
    assert line + rest == line[..k] + (line[k..] + rest);
    LineStops(line[..k], line[k..] + rest, MAX_LEN);
    CStringClean(line[..k]);
  }

  lemma LongLineGoesOn(line: string)
    requires OneLine(line) && |line| > MAX_LEN
    ensures OneLine(line[MAX_LEN..])
  {
    var tail := line[MAX_LEN..];
    forall i | 0 <= i < |tail| - 1 ensures tail[i] != '\n' {
      assert tail[i] == line[..|line| - 1][MAX_LEN + i];
    }
  }

  /** The lines that are left after one round. */
  function LinesLeft(lines: seq<string>): seq<string>
    requires lines != []
  {
    if |lines[0]| <= MAX_LEN then lines[1..] else [lines[0][MAX_LEN..]] + lines[1..]
  }

  lemma ConcatApart(line: string, lines: seq<string>, rest: string)
    ensures Concat([line] + lines) + rest == line + (Concat(lines) + rest)
  {
    assert ([line] + lines)[1..] == lines;
  }

  lemma ShortRound(line: string, lines: seq<string>, rest: string)
    requires OneLine(line) && |line| <= MAX_LEN
    ensures var stream := Concat([line] + lines) + rest;
            Received(stream) == Parse(line) && Remaining(stream) == Concat(lines) + rest
    ensures Pieces([line] + lines) == [line] + Pieces(lines)
  {
    ConcatApart(line, lines, rest);
    FirstPiece(line, Concat(lines) + rest);
    assert line[..|line|] == line && line[|line|..] == "";
    assert "" + (Concat(lines) + rest) == Concat(lines) + rest;
    assert ([line] + lines)[1..] == lines;
  }

  lemma LongRound(line: string, lines: seq<string>, rest: string)
    requires OneLine(line) && |line| > MAX_LEN
    ensures var stream, left := Concat([line] + lines) + rest, [line[MAX_LEN..]] + lines;
            && Received(stream) == Parse(line[..MAX_LEN]) && Remaining(stream) == Concat(left) + rest
            && Pieces([line] + lines) == [line[..MAX_LEN]] + Pieces(left)
  {
    ConcatApart(line, lines, rest);
    ConcatApart(line[MAX_LEN..], lines, rest);
    FirstPiece(line, Concat(lines) + rest);
    assert ([line] + lines)[1..] == lines;
  }

  /** One round receives the first piece and leaves the others. */
  lemma OneRound(lines: seq<string>, rest: string)
    requires lines != [] && AllLines(lines)
    ensures AllLines(LinesLeft(lines)) && Pieces(lines) != []
    ensures Pieces(lines)[1..] == Pieces(LinesLeft(lines))
    ensures var stream := Concat(lines) + rest;
            Received(stream) == Parse(Pieces(lines)[0]) && Remaining(stream) == Concat(LinesLeft(lines)) + rest
  {
    var line, more := lines[0], lines[1..];
    assert [line] + more == lines;
    if |line| <= MAX_LEN {
      ShortRound(line, more, rest);
    } else {
      LongLineGoesOn(line);
      LongRound(line, more, rest);
    }
  }

  /** Any lines, of any length: what is shown of them is what is shown of their
      pieces, one after the other. */
  lemma {:induction false} LinesAreShown(lines: seq<string>, rest: string, msg: Message)
    requires AllLines(lines)
    ensures OnScreen(Concat(lines) + rest, msg, |Pieces(lines)|) == ShownOfPieces(Pieces(lines), msg)
    decreases |lines|, if lines == [] then 0 else |lines[0]|
  {
    if lines != [] {
      var pieces, left := Pieces(lines), LinesLeft(lines);
      OneRound(lines, rest);
      LinesAreShown(left, rest, Then(msg, Parse(pieces[0])));
      RoundThenRest(pieces[0], Pieces(left), Concat(lines) + rest, Concat(left) + rest, msg);
      assert [pieces[0]] + Pieces(left) == pieces;
    }
  }

  /** The program on lines of any length, told from their pieces. */
  function ProgramOfPieces(pieces: seq<string>): Outcome
    requires |pieces| >= 2
  {
    Admitted(Parse(pieces[0]), Parse(pieces[1]), ShownOfPieces(pieces[2..], FRESH))
  }

  lemma TwoPieces(lines: seq<string>, rest: string)
    requires AllLines(lines) && |Pieces(lines)| >= 2
    ensures lines != [] && LinesLeft(lines) != [] && AllLines(LinesLeft(LinesLeft(lines)))
    ensures Pieces(LinesLeft(LinesLeft(lines))) == Pieces(lines)[2..]
    ensures var first, second := Concat(lines) + rest, Concat(LinesLeft(lines)) + rest;
            && Received(first) == Parse(Pieces(lines)[0]) && Remaining(first) == second
            && Received(second) == Parse(Pieces(lines)[1])
            && Remaining(second) == Concat(LinesLeft(LinesLeft(lines))) + rest
  {
    var pieces, second := Pieces(lines), LinesLeft(lines);
    OneRound(lines, rest);
    assert Pieces(second) == pieces[1..] && pieces[1..] != [];
    OneRound(second, rest);
    assert pieces[1..][0] == pieces[1] && pieces[1..][1..] == pieces[2..];
  }

  lemma ProgramOnLines(lines: seq<string>, rest: string)
    requires AllLines(lines) && |Pieces(lines)| >= 2
    ensures Program(Concat(lines) + rest, |Pieces(lines)| - 2) == ProgramOfPieces(Pieces(lines))
  {
    TwoPieces(lines, rest);
    var second, third := LinesLeft(lines), LinesLeft(LinesLeft(lines));
    LinesAreShown(third, rest, FRESH);
    ProgramSteps(Concat(lines) + rest, Concat(second) + rest, Concat(third) + rest, |Pieces(third)|);
  }

  lemma ProgramSteps(first: string, second: string, third: string, n: nat)
    requires Remaining(first) == second && Remaining(second) == third
    ensures Program(first, n) == Admitted(Received(first), Received(second), OnScreen(third, FRESH, n))
  {
  }

  lemma RoundThenRest(piece: string, pieces: seq<string>, stream: string, left: string, msg: Message)
    requires Received(stream) == Parse(piece) && Remaining(stream) == left
    requires OnScreen(left, Then(msg, Parse(piece)), |pieces|) == ShownOfPieces(pieces, Then(msg, Parse(piece)))
    ensures OnScreen(stream, msg, |[piece] + pieces|) == ShownOfPieces([piece] + pieces, msg)
  {
    assert ([piece] + pieces)[1..] == pieces;
  }

  function EncodedAll(ms: seq<Message>): seq<string> {
    if ms == [] then [] else [Encoded(ms[0])] + EncodedAll(ms[1..])
  }

  lemma {:induction false} WireIsLines(ms: seq<Message>)
    requires forall m :: m in ms ==> FitForWire(m)
    ensures WireAll(ms) == Concat(EncodedAll(ms)) && AllLines(EncodedAll(ms))
  {
    if ms != [] {
      WireIsLines(ms[1..]);
      ParseEncoded(ms[0]);
      EncodedIsOneLine(ms[0]);
      assert EncodedAll(ms)[1..] == EncodedAll(ms[1..]);
    }
  }

  lemma EncodedIsOneLine(m: Message)
    requires FitForWire(m)
    ensures OneLine(Encoded(m))
  {
    LowerHasNoColon(m.tag);
  }

  // ---- Lines that are too long

  lemma ParseLine(tag: string, data: string)
    requires IsLowerCased(tag)
    ensures Parse(tag + ":" + data) == Ok(Message(tag, RTrim(data)))
  {
    var head := tag + ":";
    assert !IsSpace((head + data)[0]);
    LTrimNothing(head + data);
    RTrimAppend(head, data);
    LowerHasNoColon(tag);
    FirstColon(tag, RTrim(data));
  }

  lemma CutEncoded(m: Message, k: nat)
    requires |m.tag| + 1 <= k <= |m.tag| + 1 + |m.data|
    ensures Encoded(m)[..k] == m.tag + ":" + m.data[..k - |m.tag| - 1]
  {
  }

  lemma HeadIsReceived(m: Message, later: string)
    requires FitForWire(m) && |Encoded(m)| == MAX_LEN + 1
    ensures Received(Wire(m) + later) == Ok(Echo(m))
  {
    assert Wire(m) == Encoded(m) by {
      ParseEncoded(m);
    }
    EncodedIsOneLine(m);
    FirstPiece(Encoded(m), later);
    CutEncoded(m, MAX_LEN);
    assert m.data[..MAX_LEN - |m.tag| - 1] == m.data;
    ParseLine(m.tag, m.data);
  }

  /** Of a message that is one byte too long the newline alone is left. */
  lemma OneByteTooMany(m: Message, later: string)
    requires FitForWire(m) && |Encoded(m)| == MAX_LEN + 1
    ensures Received(Wire(m) + later) == Ok(Echo(m)) && Remaining(Wire(m) + later) == "\n" + later
  {
    LongLineRest(m, later);
    assert Head(m)[MAX_LEN..] == "";
    assert "" + ("\n" + later) == "\n" + later;
    HeadIsReceived(m, later);
  }

  lemma EmptyLineIsInvalid(later: string)
    ensures Received("\n" + later) == Invalid
  {
    Rio.LineStops("\n", later, MAX_LEN);
    CStringClean("\n");
    assert Trim("\n") == "" by {
      RTrimUnique("\n", 0);
    }
  }
}
