/** One client's whole stream: what a receiver's program makes of everything that
    its thread of the server has sent it. */
module Client {
  import opened Basics
  import opened ClientUtil
  import opened Messages
  import opened Connections
  import opened Screen
  import opened Session
  import opened Chat
  import opened ChatLedger
  import opened ChatSessions
  import opened ChatStreams
  import opened ChatRuns
  import ChatTheorems
  import opened EndToEnd

  function TellingOf(log: seq<Entry>, e: nat): seq<(string, string)> {
    if e < |log| then Telling(log[e].sender, log[e].text) else []
  }

  /** What the log entries at the given positions tell a client. */
  function Tellings(log: seq<Entry>, f: seq<nat>): seq<(string, string)> {
    if f == [] then [] else Tellings(log, f[..|f| - 1]) + TellingOf(log, f[|f| - 1])
  }

  /** Without colons, what is told is sender and text of each, in order. */
  lemma {:induction false} TellingsPlain(log: seq<Entry>, f: seq<nat>)
    requires forall i :: 0 <= i < |f| ==> f[i] < |log| && ':' !in log[f[i]].sender && ':' !in log[f[i]].text
    ensures |Tellings(log, f)| == |f|
    ensures forall i :: 0 <= i < |f| ==> Tellings(log, f)[i] == (log[f[i]].sender, log[f[i]].text)
  {
    if f != [] {
      TellingsPlain(log, f[..|f| - 1]);
    }
  }

  /** Fit to be sent, and never shown. */
  predicate Plain(m: Message) {
    IsLowerCased(m.tag) && Clean(m.data) && ':' !in m.data && |Encoded(m)| <= MAX_LEN && m.tag != TAG_DELIVERY
  }

  predicate Wordy(s: string) {
    forall i :: 0 <= i < |s| ==> s[i] == ' ' || IsAlnum(s[i])
  }

  lemma JoinAnswerIsPlain()
    ensures Plain(JOINED_ROOM_REPLY)
  {
    assert Wordy(JOINED_ROOM_REPLY.data);
  }

  lemma ComplaintIsPlain()
    ensures Plain(EMPTY_REPLY)
  {
    assert Wordy(EMPTY_REPLY.data);
  }

  lemma ComplaintIsNotShown()
    ensures Sendable(EMPTY_REPLY) && Shown(Echo(EMPTY_REPLY)) == []
  {
    ComplaintIsPlain();
    NoColonNotShown(Echo(EMPTY_REPLY)) by {
      RTrimShape(EMPTY_REPLY.data);
      assert forall c :: c in RTrim(EMPTY_REPLY.data) ==> c in EMPTY_REPLY.data;
    }
  }

  lemma NoColonNotShown(m: Message)
    requires ':' !in m.data
    ensures Shown(m) == []
  {
  }

  /** One message more: what it adds to the screen is what it adds as a delivery. */
  lemma OneMoreShown(before: seq<Message>, m: Message)
    requires m.tag == TAG_DELIVERY || Shown(Echo(m)) == []
    requires ShownOf(before) == ShownOf(Deliveries(before))
    ensures ShownOf(before + [m]) == ShownOf(Deliveries(before + [m]))
  {
    DeliveriesSnoc(before, m);
    if m.tag == TAG_DELIVERY {
      ShownAlike(before, Deliveries(before), m);
    } else {
      NotShown(before, m);
      assert Deliveries(before + [m]) == Deliveries(before);
    }
  }

  lemma {:induction false} OnlyDeliveriesShow(ms: seq<Message>)
    requires forall m :: m in ms ==> m.tag == TAG_DELIVERY || m == EMPTY_REPLY
    ensures ShownOf(ms) == ShownOf(Deliveries(ms))
  {
    if ms != [] {
      var before, m := ms[..|ms| - 1], ms[|ms| - 1];
      OnlyDeliveriesShow(before);
      LastApart(ms);
      if m.tag != TAG_DELIVERY {
        ComplaintIsNotShown();
      }
      OneMoreShown(before, m);
    }
  }

  /** The delivery of log entry e: clean, and sendable if it fits. */
  predicate DeliversEntry(s: State, m: Message, e: nat) {
    && e < |s.log| && s.log[e].room < |s.rooms| && m == Sent(s, e)
    && ValidRoomName(s.rooms[s.log[e].room].name) && CleanText(s.log[e].sender) && CleanText(s.log[e].text)
    && |Encoded(m)| <= MAX_LEN
  }

  predicate Tells(log: seq<Entry>, m: Message, e: nat) {
    Shown(Echo(m)) == TellingOf(log, e)
  }

  lemma EntryIsTold(s: State, m: Message, e: nat)
    requires DeliversEntry(s, m, e)
    ensures Sendable(m) && Tells(s.log, m, e)
  {
    var name, sender, text := s.rooms[s.log[e].room].name, s.log[e].sender, s.log[e].text;
    DeliveryIsClean(name, sender, text);
    DeliveryShows(name, sender, text);
  }

  lemma OneMoreTold(log: seq<Entry>, ds: seq<Message>, f: seq<nat>, m: Message, e: nat)
    requires ShownOf(ds) == Tellings(log, f) && Shown(Echo(m)) == TellingOf(log, e)
    ensures ShownOf(ds + [m]) == Tellings(log, f + [e])
  {
    ShownSnoc(ds, m);
    assert (f + [e])[..|f|] == f;
  }

  lemma {:induction false} DeliveriesTell(log: seq<Entry>, ds: seq<Message>, f: seq<nat>)
    requires |ds| == |f| && forall i :: 0 <= i < |f| ==> Tells(log, ds[i], f[i])
    ensures ShownOf(ds) == Tellings(log, f)
    decreases |f|
  {
    if f != [] {
      var n := |f| - 1;
      LastApart(ds);
      LastApart(f);
      DeliveriesTell(log, ds[..n], f[..n]);
      assert Tells(log, ds[n], f[n]);
      OneMoreTold(log, ds[..n], f[..n], ds[n], f[n]);
    }
  }

  lemma {:induction false} DeliveriesAreSome(ms: seq<Message>, m: Message)
    requires m in ms && m.tag == TAG_DELIVERY
    ensures m in Deliveries(ms)
  {
    var last := |ms| - 1;
    if m != ms[last] {
      assert ms == ms[..last] + [ms[last]];
      DeliveriesAreSome(ms[..last], m);
    }
  }

  lemma ClientGetsEntry(s: State, u: Tid, i: nat)
    requires Reachable(s) && u in s.threads && i < |Deliveries(s.threads[u].sent)|
    requires |Encoded(Deliveries(s.threads[u].sent)[i])| <= MAX_LEN
    ensures var f := Filter(s.log, u, s.threads[u].username);
            i < |f| && DeliversEntry(s, Deliveries(s.threads[u].sent)[i], f[i])
  {
    ChatTheorems.ClientHearsLog(s, u, i);
    ReachableInv(s);
    assert EntryAt(s, Filter(s.log, u, s.threads[u].username)[i]);
  }

  lemma PrefixTells(s: State, u: Tid)
    requires Reachable(s) && u in s.threads
    requires forall m :: m in Deliveries(s.threads[u].sent) ==> |Encoded(m)| <= MAX_LEN
    ensures var ds, f := Deliveries(s.threads[u].sent), Filter(s.log, u, s.threads[u].username);
            && |ds| <= |f| && (forall i :: 0 <= i < |ds| ==> Tells(s.log, ds[i], f[i]))
            && forall d :: d in ds ==> Sendable(d)
  {
    var ds, f := Deliveries(s.threads[u].sent), Filter(s.log, u, s.threads[u].username);
    forall i | 0 <= i < |ds| ensures i < |f| && Tells(s.log, ds[i], f[i]) && Sendable(ds[i]) {
      ClientGetsEntry(s, u, i);
      EntryIsTold(s, ds[i], f[i]);
    }
    assert ds != [] ==> Sendable(ds[|ds| - 1]);
  }

  // ---- Two answers, then the rest

  lemma NoDeliveryInAnswers(name: string)
    ensures Deliveries([WelcomeReply(name), JOINED_ROOM_REPLY]) == []
  {
    NoMoreDeliveries([], [WelcomeReply(name), JOINED_ROOM_REPLY]);
  }

  lemma DeliveriesAfterAnswers(name: string, sent: seq<Message>)
    requires Served(name, sent)
    ensures Deliveries(sent[2..]) == Deliveries(sent)
  {
    var answers := [WelcomeReply(name), JOINED_ROOM_REPLY];
    assert sent == answers + sent[2..];
    DeliveriesConcat(answers, sent[2..]);
    NoDeliveryInAnswers(name);
  }

  lemma RestIsSendable(name: string, sent: seq<Message>, m: Message)
    requires Served(name, sent) && m in sent[2..]
    requires forall d :: d in Deliveries(sent) ==> Sendable(d)
    ensures Sendable(m) && (m.tag == TAG_DELIVERY || m == EMPTY_REPLY)
  {
    if m.tag == TAG_DELIVERY {
      DeliveriesAfterAnswers(name, sent);
      DeliveriesAreSome(sent[2..], m);
    } else {
      ComplaintIsNotShown();
    }
  }

  lemma WelcomeIsClean(name: string)
    requires CleanText(name)
    ensures FitForWire(WelcomeReply(name))
    ensures Echo(WelcomeReply(name)) == WelcomeReply(name)
    ensures |Encoded(WelcomeReply(name))| == 13 + |name|
  {
    RTrimFixpoint(WelcomeReply(name).data);
  }

  /** The answer to a login is received whole, and nothing else with it, exactly when
      the name has at most 242 bytes. */
  lemma WelcomeArrives(name: string, later: string)
    requires CleanText(name)
    ensures |name| <= 242 <==>
              && Received(Wire(WelcomeReply(name)) + later) == Ok(WelcomeReply(name))
              && Remaining(Wire(WelcomeReply(name)) + later) == later
  {
    WelcomeIsClean(name);
    OneSendIsOneReceive(WelcomeReply(name), later);
  }

  lemma JoinAnswerArrives(later: string)
    ensures Received(Wire(JOINED_ROOM_REPLY) + later) == Ok(Echo(JOINED_ROOM_REPLY))
    ensures Remaining(Wire(JOINED_ROOM_REPLY) + later) == later
  {
    JoinAnswerIsPlain();
    SendableArrives(JOINED_ROOM_REPLY, later);
  }

  /** The stream behind the two answers. */
  lemma WireAfterAnswers(sent: seq<Message>, later: string)
    requires |sent| >= 2
    ensures WireAll(sent) + later == Wire(sent[0]) + (Wire(sent[1]) + (WireAll(sent[2..]) + later))
  {
    WireApart(sent, later);
    WireApart(sent[1..], later);
    assert sent[1..][1..] == sent[2..];
  }

  /** A client with a short name enters the loop with the rest of the stream. */
  lemma ShortNameEnters(name: string, sent: seq<Message>, later: string, n: nat)
    requires CleanText(name) && |name| <= 242 && Served(name, sent)
    ensures Program(WireAll(sent) + later, n) == Looped(OnScreen(WireAll(sent[2..]) + later, FRESH, n))
  {
    var third := WireAll(sent[2..]) + later;
    var second := Wire(sent[1]) + third;
    WireAfterAnswers(sent, later);
    WelcomeArrives(name, second);
    JoinAnswerArrives(third);
    ProgramSteps(WireAll(sent) + later, second, third, n);
  }

  // ---- Names that are too long

  /** What is left of the answer to a login after the first 255 bytes. */
  function WelcomeTail(name: string): string
    requires |name| > 242
  {
    Encoded(WelcomeReply(name))[MAX_LEN..]
  }

  /** The client of a long name takes the first 255 bytes for the answer to its login
      and the rest of that line for the answer to its join. */
  lemma LongNameRounds(name: string, later: string)
    requires CleanText(name) && |name| > 242
    ensures OneLine(WelcomeTail(name))
    ensures var stream := Wire(WelcomeReply(name)) + later;
            && Received(stream) == Ok(Message(TAG_OK, RTrim(WelcomeReply(name).data[..252])))
            && Remaining(stream) == WelcomeTail(name) + later
  {
    var m := WelcomeReply(name);
    WelcomeIsClean(name);
    assert Wire(m) == Encoded(m) by {
      ParseEncoded(m);
    }
    EncodedIsOneLine(m);
    FirstPiece(Encoded(m), later);
    LongLineGoesOn(Encoded(m));
    CutEncoded(m, MAX_LEN);
    ParseLine(TAG_OK, m.data[..252]);
  }

  /** Once the first answer is `ok`, the second decides. */
  lemma SecondDecides(stream: string, second: string, data: string, join: Receipt, n: nat)
    requires Received(stream) == Ok(Message(TAG_OK, data)) && Remaining(stream) == second
    requires Received(second) == join
    ensures if join.Ok? && join.m.tag == TAG_OK then Program(stream, n).Looped? else Program(stream, n) == Exited(2)
  {
    ProgramSteps(stream, second, Remaining(second), n);
  }

  /** Such a client enters the loop exactly when the rest of the line happens to read
      as another `ok`. The server accepts names of up to 248 bytes. */
  lemma LongNameDecides(name: string, later: string, n: nat)
    requires CleanText(name) && 242 < |name| <= 248
    ensures var tail := Parse(WelcomeTail(name));
            var outcome := Program(Wire(WelcomeReply(name)) + later, n);
            if tail.Ok? && tail.m.tag == TAG_OK then outcome.Looped? else outcome == Exited(2)
  {
    var tail := WelcomeTail(name);
    LongNameRounds(name, later);
    FirstPiece(tail, later);
    assert tail[..|tail|] == tail;
    SecondDecides(Wire(WelcomeReply(name)) + later, tail + later, RTrim(WelcomeReply(name).data[..252]),
                  Parse(tail), n);
  }

  lemma NoColonIsInvalid(line: string)
    requires ':' !in line
    ensures Parse(line) == Invalid
  {
    TrimIsPart(line, ':');
  }

  lemma TailHasNoColon(name: string)
    requires |name| > 242 && ':' !in name
    ensures ':' !in WelcomeTail(name)
  {
    var data := WelcomeReply(name).data;
    NotInBoth("Welcome ", name, ':');
    NotInBoth("Welcome " + name, "!", ':');
    assert WelcomeTail(name) == data[252..] + "\n";
    NotInBoth(data[252..], "\n", ':');
  }

  /** Without a colon in the name it never does: the program exits with 2. */
  lemma LongNameExits(name: string, later: string, n: nat)
    requires CleanText(name) && ':' !in name && |name| > 242
    ensures Program(Wire(WelcomeReply(name)) + later, n) == Exited(2)
  {
    var tail := WelcomeTail(name);
    LongNameRounds(name, later);
    FirstPiece(tail, later);
    TailHasNoColon(name);
    NoColonIsInvalid(tail[..if |tail| <= MAX_LEN then |tail| else MAX_LEN]);
    SecondDecides(Wire(WelcomeReply(name)) + later, tail + later, RTrim(WelcomeReply(name).data[..252]),
                  Invalid, n);
  }

  /** Such names exist, and the server accepts the login. */
  lemma LongNameIsAccepted(name: string, later: string, n: nat)
    requires |name| == 243 && forall c :: c in name ==> c == 'x'
    ensures Receivable(Message(TAG_RLOGIN, name))
    ensures Program(Wire(WelcomeReply(name)) + later, n) == Exited(2)
  {
    OnlyXName(name);
    LongNameExits(name, later, n);
  }

  lemma OnlyXName(name: string)
    requires |name| == 243 && forall c :: c in name ==> c == 'x'
    ensures Receivable(Message(TAG_RLOGIN, name)) && CleanText(name) && ':' !in name
  {
    assert name[|name| - 1] in name;
    RTrimFixpoint(name);
  }

  // ---- The whole stream

  lemma NameIsClean(s: State, u: Tid)
    requires Reachable(s) && u in s.threads
    ensures CleanText(s.threads[u].username)
  {
    ReachableInv(s);
    assert TextAt(s, u);
  }

  /** A receiver without a colon in its name gets through to its loop exactly when its
      name has at most 242 bytes. */
  lemma ClientEnters(s: State, u: Tid, later: string, n: nat)
    requires Reachable(s) && u in s.threads && Served(s.threads[u].username, s.threads[u].sent)
    requires ':' !in s.threads[u].username
    ensures Program(WireAll(s.threads[u].sent) + later, n).Looped? <==> |s.threads[u].username| <= 242
  {
    var name, sent := s.threads[u].username, s.threads[u].sent;
    NameIsClean(s, u);
    if |name| <= 242 {
      ShortNameEnters(name, sent, later, n);
    } else {
      WireApart(sent, later);
      LongNameExits(name, WireAll(sent[1..]) + later, n);
    }
  }

  lemma ServedIsClean(s: State, u: Tid, m: Message)
    requires Reachable(s) && u in s.threads && m in s.threads[u].sent
    requires Served(s.threads[u].username, s.threads[u].sent)
    ensures FitForWire(m)
  {
    if m.tag == TAG_DELIVERY {
      var ds := Deliveries(s.threads[u].sent);
      DeliveriesAreSome(s.threads[u].sent, m);
      var i :| 0 <= i < |ds| && ds[i] == m;
      DeliveredIsClean(s, u, i);
    } else {
      NameIsClean(s, u);
      WelcomeIsClean(s.threads[u].username);
      JoinAnswerIsPlain();
      ComplaintIsPlain();
    }
  }

  lemma DeliveredIsClean(s: State, u: Tid, i: nat)
    requires Reachable(s) && u in s.threads && i < |Deliveries(s.threads[u].sent)|
    ensures var m := Deliveries(s.threads[u].sent)[i]; FitForWire(m)
  {
    ChatTheorems.ClientHearsLog(s, u, i);
    var e := Filter(s.log, u, s.threads[u].username)[i];
    var name := s.rooms[s.log[e].room].name;
    assert ValidRoomName(name) && CleanText(s.log[e].sender) && CleanText(s.log[e].text) by {
      ReachableInv(s);
      assert EntryAt(s, e);
    }
    DeliveryIsClean(name, s.log[e].sender, s.log[e].text);
  }

  lemma {:induction false} PiecesAreMany(lines: seq<string>)
    ensures |Pieces(lines)| >= |lines|
    decreases |lines|, if lines == [] then 0 else |lines[0]|
  {
    if lines != [] {
      if |lines[0]| <= MAX_LEN {
        PiecesAreMany(lines[1..]);
      } else {
        PiecesAreMany([lines[0][MAX_LEN..]] + lines[1..]);
      }
    }
  }

  lemma {:induction false} AsManyLines(ms: seq<Message>)
    ensures |EncodedAll(ms)| == |ms|
  {
    if ms != [] {
      AsManyLines(ms[1..]);
    }
  }

  /** What the program does with the stream is what it does with the pieces of its lines. */
  predicate RunsByPieces(stream: string, lines: seq<string>, later: string) {
    var pieces := Pieces(lines);
    |pieces| >= 2 && Program(stream + later, |pieces| - 2) == ProgramOfPieces(pieces)
  }

  /** One client's whole stream, whatever its name and however long its deliveries: in
      any reachable state, what the receiver's program does with everything that its
      thread has sent, from the answer to the login on, is what it does with the lines
      of that stream cut into pieces of at most 255 bytes. */
  lemma ClientShowsPieces(s: State, u: Tid, later: string)
    requires Reachable(s) && u in s.threads && Served(s.threads[u].username, s.threads[u].sent)
    ensures RunsByPieces(WireAll(s.threads[u].sent), EncodedAll(s.threads[u].sent), later)
  {
    StreamIsLines(s, u);
    ProgramOnWire(s.threads[u].sent, later);
  }

  lemma SameRuns(a: string, b: string, lines: seq<string>, later: string)
    requires a == b && RunsByPieces(b, lines, later)
    ensures RunsByPieces(a, lines, later)
  {
  }

  lemma LinesRunByPieces(lines: seq<string>, later: string)
    requires |lines| >= 2 && AllLines(lines)
    ensures RunsByPieces(Concat(lines), lines, later)
  {
    PiecesAreMany(lines);
    ProgramOnLines(lines, later);
  }

  lemma ProgramOnWire(sent: seq<Message>, later: string)
    requires OnLines(sent)
    ensures RunsByPieces(WireAll(sent), EncodedAll(sent), later)
  {
    var lines := EncodedAll(sent);
    AsManyLines(sent);
    LinesRunByPieces(lines, later);
    SameRuns(WireAll(sent), Concat(lines), lines, later);
  }

  /** The stream of these messages is that of their lines. */
  ghost predicate OnLines(sent: seq<Message>) {
    |sent| >= 2 && WireAll(sent) == Concat(EncodedAll(sent)) && AllLines(EncodedAll(sent))
  }

  lemma StreamIsLines(s: State, u: Tid)
    requires Reachable(s) && u in s.threads && Served(s.threads[u].username, s.threads[u].sent)
    ensures OnLines(s.threads[u].sent)
  {
    forall m | m in s.threads[u].sent ensures FitForWire(m) {
      ServedIsClean(s, u, m);
    }
    WireIsLines(s.threads[u].sent);
  }

  lemma RestIsShown(s: State, u: Tid, later: string)
    requires Reachable(s) && u in s.threads && Served(s.threads[u].username, s.threads[u].sent)
    requires forall m :: m in Deliveries(s.threads[u].sent) ==> |Encoded(m)| <= MAX_LEN
    ensures var rest, f := s.threads[u].sent[2..], Filter(s.log, u, s.threads[u].username);
            var n := |Deliveries(s.threads[u].sent)|;
            n <= |f| && OnScreen(WireAll(rest) + later, FRESH, |rest|) == Tellings(s.log, f[..n])
  {
    var name, sent := s.threads[u].username, s.threads[u].sent;
    var rest, f, ds := sent[2..], Filter(s.log, u, name), Deliveries(sent);
    PrefixTells(s, u);
    forall m | m in rest ensures Sendable(m) && (m.tag == TAG_DELIVERY || m == EMPTY_REPLY) {
      RestIsSendable(name, sent, m);
    }
    ConversationIsShown(WireAll(rest) + later, rest, later, FRESH);
    OnlyDeliveriesShow(rest);
    DeliveriesAfterAnswers(name, sent);
    DeliveriesTell(s.log, ds, f[..|ds|]);
  }

  /** One client's whole stream, when everything fits on its line. In any reachable
      state, let a receiver's thread have sent what it has sent: the answers to the
      login and to the join, then complaints and deliveries as they came. The program
      that reads those bytes, cut up anyhow, accepts both answers and shows exactly
      what the first broadcasts of the log for its user tell it: sender and text of
      each in order, leaving out only those with a colon. */
  lemma ClientShowsLog(s: State, u: Tid, later: string)
    requires Reachable(s) && u in s.threads && Served(s.threads[u].username, s.threads[u].sent)
    requires |s.threads[u].username| <= 242
    requires forall m :: m in Deliveries(s.threads[u].sent) ==> |Encoded(m)| <= MAX_LEN
    ensures var sent, f := s.threads[u].sent, Filter(s.log, u, s.threads[u].username);
            var n := |Deliveries(sent)|;
            n <= |f| && Program(WireAll(sent) + later, |sent| - 2) == Looped(Tellings(s.log, f[..n]))
  {
    NameIsClean(s, u);
    ShortNameEnters(s.threads[u].username, s.threads[u].sent, later, |s.threads[u].sent| - 2);
    RestIsShown(s, u, later);
  }
}
