/** From one client's text to another client's screen: the decoder, the server,
    the encoder, the decoder again, and the payload splitter. */
module EndToEnd {
  import opened ClientUtil
  import opened Messages
  import Rio
  import opened Connections
  import opened Screen
  import opened Session
  import opened Chat
  import opened ChatLedger
  import ChatSessions
  import opened ChatRuns
  import ChatTheorems

  lemma ValidNameIsPlain(room: string)
    requires ValidRoomName(room)
    ensures ':' !in room && Clean(room)
  {
  }

  /** A delivery of clean text has nothing that the line format would lose. */
  lemma DeliveryIsClean(room: string, sender: string, text: string)
    requires ValidRoomName(room) && CleanText(sender) && CleanText(text)
    ensures var m := Delivery(room, sender, text);
            IsLowerCased(m.tag) && Clean(m.data) && RTrim(m.data) == m.data
  {
    var head := room + ":" + sender + ":";
    ValidNameIsPlain(room);
    RTrimAppend(head, text);
    assert Delivery(room, sender, text).data == head + text;
  }

  /** It is sent and received whole exactly when its line fits into 255 bytes. */
  lemma DeliveryArrives(room: string, sender: string, text: string, later: string)
    requires ValidRoomName(room) && CleanText(sender) && CleanText(text)
    ensures var m := Delivery(room, sender, text);
            |Encoded(m)| <= MAX_LEN <==>
              Received(Wire(m) + later) == Ok(m) && Remaining(Wire(m) + later) == later
  {
    DeliveryIsClean(room, sender, text);
    OneSendIsOneReceive(Delivery(room, sender, text), later);
  }

  /** The receiver recovers room, sender and text exactly when neither the sender's
      name nor the text contains a colon. */
  lemma DeliverySplits(room: string, sender: string, text: string, pieces: seq<string>)
    requires ValidRoomName(room) && CleanText(sender) && CleanText(text)
    requires |TAG_DELIVERY| + |Delivery(room, sender, text).data| <= 255
    requires IsSplit(Delivery(room, sender, text), pieces)
    ensures pieces == [room, sender, text] <==> ':' !in sender && ':' !in text
    ensures |pieces| == 3 <==> ':' !in sender && ':' !in text
  {
    ValidNameIsPlain(room);
    DeliveryColons(room, sender, text);
    CountZero(sender, ':');
    CountZero(text, ':');
    DeliveryIsValid(room, sender, text);
    if ':' !in sender && ':' !in text {
      JoinThree(room, sender, text);
      JoinInjective(pieces, [room, sender, text]);
    }
  }

  lemma DeliveryColons(room: string, sender: string, text: string)
    requires ':' !in room
    ensures Count(Delivery(room, sender, text).data, ':') == 2 + Count(sender, ':') + Count(text, ':')
  {
    CountConcat(room + ":" + sender + ":", text, ':');
    CountConcat(room + ":" + sender, ":", ':');
    CountConcat(room + ":", sender, ':');
    CountConcat(room, ":", ':');
    CountZero(room, ':');
  }

  /** A delivery is valid exactly when it has two colons. */
  lemma DeliveryIsValid(room: string, sender: string, text: string)
    requires ValidRoomName(room) && CleanText(sender) && CleanText(text)
    requires |TAG_DELIVERY| + |Delivery(room, sender, text).data| <= 255
    ensures var m := Delivery(room, sender, text);
            ValidPayload(m) <==> Count(m.data, ':') == 2
  {
    var m := Delivery(room, sender, text);
    DeliveryIsClean(room, sender, text);
    TrimIsPart(m.data, '\n');
    assert m.data[|room|] == ':';
  }

  /** Trimming brings in no character that was not there. */
  lemma TrimIsPart(s: string, c: char)
    requires c !in s
    ensures c !in Trim(s)
  {
    LTrimIsSuffix(s);
    RTrimShape(LTrim(s));
  }

  /** The whole way. Whatever a user has ever been given by the server, in any
      reachable state, is a delivery that names its room, the name under which the
      speaker logged in, and a text that the speaker asked to send, as the server's
      own receive returned it. If the line fits, sending it and receiving it gives
      the client that very message, and split_payload gives back exactly the three
      parts when neither name nor text contains a colon. */
  lemma TextReachesScreen(s: State, u: Tid, k: nat, later: string, pieces: seq<string>)
    requires Reachable(s) && u in s.threads && u in s.queues && k < |s.queues[u].pushed|
    ensures s.queues[u].pushed[k] < |s.heap| && k < |s.queues[u].got| && s.queues[u].got[k] < |s.log|
    ensures var m, e := s.heap[s.queues[u].pushed[k]].message, s.log[s.queues[u].got[k]];
            && e.room < |s.rooms| && e.author in s.threads
            && s.threads[e.author].username == e.sender && Asked(e.text) in s.threads[e.author].requests
            && m == Delivery(s.rooms[e.room].name, e.sender, e.text)
            && (|Encoded(m)| <= MAX_LEN <==> Received(Wire(m) + later) == Ok(m) && Remaining(Wire(m) + later) == later)
            && (|Encoded(m)| <= MAX_LEN && IsSplit(m, pieces) ==>
                  (pieces == [s.rooms[e.room].name, e.sender, e.text] <==> ':' !in e.sender && ':' !in e.text))
  {
    QueueEntry(s, u, k);
    var m, e := s.heap[s.queues[u].pushed[k]].message, s.log[s.queues[u].got[k]];
    DeliveryArrives(s.rooms[e.room].name, e.sender, e.text, later);
    if |Encoded(m)| <= MAX_LEN && IsSplit(m, pieces) {
      DeliverySplits(s.rooms[e.room].name, e.sender, e.text, pieces);
    }
  }

  lemma QueueEntry(s: State, u: Tid, k: nat)
    requires Reachable(s) && u in s.threads && u in s.queues && k < |s.queues[u].pushed|
    ensures k < |s.queues[u].got| && CarriesAt(s, s.queues[u].pushed[k], s.queues[u].got[k])
    ensures EntryAt(s, s.queues[u].got[k]) && ValidRoomName(s.rooms[s.log[s.queues[u].got[k]].room].name)
  {
    ChatTheorems.QueueIsFilteredLog(s, u);
    ReachableInv(s);
    assert EntryAt(s, s.queues[u].got[k]);
  }

  /** What a client asked the server to say: its text, trimmed on the right. */
  lemma ServerHearsTrimmed(text: string, later: string)
    requires Sendable(Message(TAG_SENDALL, text))
    ensures Received(Wire(Message(TAG_SENDALL, text)) + later) == Ok(Asked(RTrim(text)).m)
    ensures Receivable(Asked(RTrim(text)).m)
  {
    SendableArrives(Message(TAG_SENDALL, text), later);
    ReceivedIsReceivable(Wire(Message(TAG_SENDALL, text)) + later);
  }

  // ---- What does not get through

  /** The pair that a client shows of a delivery: none if there is a colon too many. */
  function Telling(sender: string, text: string): seq<(string, string)> {
    if ':' !in sender && ':' !in text then [(sender, text)] else []
  }

  lemma DeliveryShows(room: string, sender: string, text: string)
    requires ValidRoomName(room) && CleanText(sender) && CleanText(text)
    requires |TAG_DELIVERY| + |Delivery(room, sender, text).data| <= 255
    ensures Shown(Delivery(room, sender, text)) == Telling(sender, text)
    ensures Shown(Delivery(room, sender, text)) == if ':' !in sender && ':' !in text then [(sender, text)] else []
  {
    var m := Delivery(room, sender, text);
    var pieces := if ValidPayload(m) then Split(m.data) else [Complaint(m)];
    SplitJoins(m.data);
    DeliverySplits(room, sender, text, pieces);
  }

  /** A text with a colon that the server accepts, and whose delivery fits, is not
      shown. */
  lemma ColonIsNotShown(text: string, room: string, sender: string)
    requires text == "a:b" && room == "r" && sender == "s"
    ensures Receivable(Asked(text).m) && ValidRoomName(room) && CleanText(sender)
    ensures |Encoded(Delivery(room, sender, text))| <= MAX_LEN
    ensures Shown(Delivery(room, sender, text)) == []
  {
    PlainIsClean(text);
    PlainIsClean(sender);
    assert text[1] == ':';
    DeliveryShows(room, sender, text);
  }

  lemma PlainIsClean(text: string)
    requires text != "" && Clean(text) && !IsSpace(text[|text| - 1])
    ensures CleanText(text) && (|text| <= 200 ==> Receivable(Asked(text).m))
  {
    RTrimFixpoint(text);
  }

  /** A delivery whose line does not fit arrives without its end, which is left in
      the stream to be read as the next line. */
  lemma LongDeliveryIsCut(room: string, sender: string, text: string, later: string)
    requires ValidRoomName(room) && CleanText(sender) && CleanText(text)
    requires |Encoded(Delivery(room, sender, text))| > MAX_LEN
    ensures var m, fit := Delivery(room, sender, text), MAX_LEN - |TAG_DELIVERY| - 1;
            && fit <= |m.data|
            && Received(Wire(m) + later) == Ok(m.(data := RTrim(m.data[..fit])))
            && Remaining(Wire(m) + later) == m.data[fit..] + ("\n" + later)
  {
    var m, fit := Delivery(room, sender, text), MAX_LEN - |TAG_DELIVERY| - 1;
    DeliveryIsClean(room, sender, text);
    CStringClean(Encoded(m));
    LongLineIsCut(m, later);
    var stream, line := Encoded(m) + later, TAG_DELIVERY + ":" + m.data[..fit];
    assert Encoded(m) == line + (m.data[fit..] + "\n");
    assert stream == line + (m.data[fit..] + ("\n" + later));
    assert stream[..MAX_LEN] == line && stream[MAX_LEN..] == m.data[fit..] + ("\n" + later);
    CStringClean(line);
    ParseLine(m.tag, m.data[..fit]);
  }

  /** One byte too many: the newline alone is left, the next round finds it invalid,
      and the client shows the same text again. */
  lemma ShownTwice(room: string, sender: string, text: string, later: string, msg: Message)
    requires ValidRoomName(room) && CleanText(sender) && CleanText(text)
    requires ':' !in sender && ':' !in text
    requires |Encoded(Delivery(room, sender, text))| == MAX_LEN + 1
    ensures OnScreen(Wire(Delivery(room, sender, text)) + later, msg, 2) == [(sender, text), (sender, text)]
  {
    var m := Delivery(room, sender, text);
    DeliveryIsClean(room, sender, text);
    OneByteTooMany(m, later);
    DeliveryShows(room, sender, text);
    EmptyLineIsInvalid(later);
    ErrorShowsAgain(m);
    TwoRounds(Wire(m) + later, msg);
  }

  /** A failed receive leaves the data alone, and `err` is as good a tag as any. */
  lemma ErrorShowsAgain(m: Message)
    requires m.tag == TAG_DELIVERY && Shown(m) != []
    ensures Shown(m.(tag := TAG_ERR)) == Shown(m)
  {
  }

  /** Such texts exist, and the server accepts them. */
  lemma TooLongIsAccepted(text: string, later: string, msg: Message)
    requires |text| == 242 && forall c :: c in text ==> c == 'x'
    ensures Receivable(Asked(text).m) && ValidRoomName("r") && CleanText("s")
    ensures OnScreen(Wire(Delivery("r", "s", text)) + later, msg, 2) == [("s", text), ("s", text)]
  {
    OnlyX(text);
    RTrimFixpoint("s");
    ShownTwice("r", "s", text, later, msg);
  }

  lemma OnlyX(text: string)
    requires |text| == 242 && forall c :: c in text ==> c == 'x'
    ensures Receivable(Asked(text).m) && CleanText(text) && ':' !in text
    ensures |Encoded(Delivery("r", "s", text))| == MAX_LEN + 1
  {
    assert text[|text| - 1] in text;
    RTrimFixpoint(text);
  }
}
