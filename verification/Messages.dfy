/** Protocol messages and the payload splitter of message.cpp. */
module Messages {
  import opened Basics
  import opened ClientUtil

  const MAX_LEN := 255

  const TAG_ERR := "err"
  const TAG_OK := "ok"
  const TAG_SLOGIN := "slogin"
  const TAG_RLOGIN := "rlogin"
  const TAG_JOIN := "join"
  const TAG_LEAVE := "leave"
  const TAG_SENDALL := "sendall"
  const TAG_SENDUSER := "senduser"
  const TAG_QUIT := "quit"
  const TAG_DELIVERY := "delivery"
  const TAG_EMPTY := "empty"

  datatype Message = Message(tag: string, data: string)

  /** The message that Room::broadcast_message builds. */
  function Delivery(room: string, sender: string, text: string): Message {
    Message(TAG_DELIVERY, room + ":" + sender + ":" + text)
  }

  /** What one broadcast puts into the queue of a member called `name`. */
  function Heard(name: string, room: string, sender: string, text: string): seq<Message> {
    if name != sender then [Delivery(room, sender, text)] else []
  }

  predicate TagInTable(tag: string) {
    tag in [TAG_ERR, TAG_OK, TAG_SLOGIN, TAG_RLOGIN, TAG_JOIN, TAG_LEAVE, TAG_SENDALL,
            TAG_SENDUSER, TAG_QUIT, TAG_DELIVERY, TAG_EMPTY]
  }

  /** std::string::find for one character */
  function Find(s: string, c: char): (r: Option<nat>)
    ensures r.None? <==> c !in s
    ensures r.Some? ==> r.value < |s| && s[r.value] == c && c !in s[..r.value]
  {
    if s == [] then None
    else if s[0] == c then Some(0)
    else
      assert s == [s[0]] + s[1..];
      match Find(s[1..], c)
      case None => None
      case Some(i) =>
        assert s[..i + 1] == [s[0]] + s[1..][..i];
        Some(i + 1)
  }

  /** std::count for one character */
  function Count(s: string, c: char): nat {
    if s == [] then 0 else (if s[0] == c then 1 else 0) + Count(s[1..], c)
  }

  /** The pieces put back together with a colon between neighbours. */
  function Join(pieces: seq<string>): string
    requires pieces != []
  {
    if |pieces| == 1 then pieces[0] else pieces[0] + ":" + Join(pieces[1..])
  }

  /** What split_payload demands of a message before it splits it. */
  predicate ValidPayload(m: Message) {
    && |m.tag| + |m.data| <= 255
    && '\n' !in Trim(m.data)
    && ':' in m.data
    && TagInTable(m.tag)
    && (m.tag == TAG_DELIVERY ==> Count(m.data, ':') == 2)
  }

  /** The complaint that a message earns: the first demand that it misses. */
  function Complaint(m: Message): string
    requires !ValidPayload(m)
  {
    if |m.tag| + |m.data| > 255 then "ERROR The given message was longer than 255 bytes"
    else if '\n' in Trim(m.data) then "ERROR: newline character was found in data"
    else if ':' !in m.data then "ERROR no colon separator"
    else if !TagInTable(m.tag) then "ERROR The given tag was not apart of the tag table"
    else "ERROR The given message payload was not structured correctly"
  }

  predicate ColonFree(pieces: seq<string>) {
    forall p :: p in pieces ==> ':' !in p
  }

  /** The result that split_payload promises for a message. */
  predicate IsSplit(m: Message, pieces: seq<string>) {
    if ValidPayload(m) then
      |pieces| == Count(m.data, ':') + 1 && ColonFree(pieces) && Join(pieces) == m.data
    else pieces == [Complaint(m)]
  }

  /** Message::split_payload */
  method SplitPayload(m: Message) returns (result: seq<string>)
    ensures IsSplit(m, result) && (ValidPayload(m) ==> |result| >= 2)
    ensures m.tag == TAG_DELIVERY ==> (|result| == 3 <==> ValidPayload(m))
  {
    result := [];
    if |m.tag| + |m.data| > 255 {
      result := result + ["ERROR The given message was longer than 255 bytes"];
      return;
    }
    var tempData := Trim(m.data);
    if Find(tempData, '\n').Some? {
      result := result + ["ERROR: newline character was found in data"];
      return;
    }
    if Find(m.data, ':').None? {
      result := result + ["ERROR no colon separator"];
      return;
    }
    if !TagInTable(m.tag) {
      result := result + ["ERROR The given tag was not apart of the tag table"];
      return;
    }
    if m.tag == TAG_DELIVERY {
      if Count(m.data, ':') != 2 {
        result := result + ["ERROR The given message payload was not structured correctly"];
        return;
      }
    }
    result := SplitColons(m.data);
    SplitIsSplit(m);
  }

  /** What makes a message valid, word for word, and which complaint comes first. */
  lemma PayloadRules(m: Message)
    ensures ValidPayload(m) <==>
              && |m.tag| + |m.data| <= 255 && '\n' !in Trim(m.data) && ':' in m.data
              && m.tag in ["err", "ok", "slogin", "rlogin", "join", "leave", "sendall", "senduser", "quit", "delivery",
                           "empty"]
              && (m.tag == "delivery" ==> Count(m.data, ':') == 2)
    ensures |m.tag| + |m.data| > 255 ==> Complaint(m) == "ERROR The given message was longer than 255 bytes"
    ensures |m.tag| + |m.data| <= 255 && '\n' in Trim(m.data) ==>
              Complaint(m) == "ERROR: newline character was found in data"
    ensures |m.tag| + |m.data| <= 255 && '\n' !in Trim(m.data) && ':' !in m.data ==>
              Complaint(m) == "ERROR no colon separator"
    ensures |m.tag| + |m.data| <= 255 && '\n' !in Trim(m.data) && ':' in m.data && !ValidPayload(m) ==>
              Complaint(m) == if m.tag == "delivery"
                              then "ERROR The given message payload was not structured correctly"
                              else "ERROR The given tag was not apart of the tag table"
  {
  }

  lemma SplitIsSplit(m: Message)
    requires ValidPayload(m)
    ensures IsSplit(m, Split(m.data)) && |Split(m.data)| >= 2
    ensures m.tag == TAG_DELIVERY ==> |Split(m.data)| == 3
  {
    SplitJoins(m.data);
    CountPositive(m.data, ':');
  }

  /** The loop of split_payload: cut off the first piece while there is a colon. */
  method SplitColons(data: string) returns (result: seq<string>)
    ensures result == Split(data)
  {
    var copy := data;
    result := [];
    var pos := Find(copy, ':');
    while pos.Some?
      invariant pos == Find(copy, ':')
      invariant result + Split(copy) == Split(data)
      decreases |copy|
    {
      var splitData := copy[..pos.value];
      Regroup(result, splitData, Split(copy[pos.value + 1..]));
      result := result + [splitData];
      copy := copy[pos.value + 1..];
      pos := Find(copy, ':');
    }
    result := result + [copy];
  }

  lemma {:induction false} CountZero(s: string, c: char)
    ensures Count(s, c) == 0 <==> c !in s
  {
    if s != [] {
      CountZero(s[1..], c);
      assert s == [s[0]] + s[1..];
    }
  }

  lemma CountPositive(s: string, c: char)
    ensures c in s ==> Count(s, c) >= 1
  {
    CountZero(s, c);
  }

  lemma {:induction false} CountConcat(a: string, b: string, c: char)
    ensures Count(a + b, c) == Count(a, c) + Count(b, c)
  {
    if a == [] {
      assert a + b == b;
    } else {
      assert (a + b)[1..] == a[1..] + b;
      CountConcat(a[1..], b, c);
    }
  }

  lemma CountAround(s: string, i: nat)
    requires i < |s| && s[i] == ':' && ':' !in s[..i]
    ensures Count(s, ':') == 1 + Count(s[i + 1..], ':')
  {
    assert s == s[..i] + ([':'] + s[i + 1..]);
    CountConcat(s[..i], [':'] + s[i + 1..], ':');
    CountZero(s[..i], ':');
    assert ([':'] + s[i + 1..])[1..] == s[i + 1..];
  }

  lemma {:induction false} JoinCount(pieces: seq<string>)
    requires pieces != [] && ColonFree(pieces)
    ensures Count(Join(pieces), ':') == |pieces| - 1
  {
    CountZero(pieces[0], ':');
    if |pieces| > 1 {
      JoinCount(pieces[1..]);
      CountConcat(pieces[0] + ":", Join(pieces[1..]), ':');
      CountConcat(pieces[0], ":", ':');
    }
  }

  lemma {:induction false} FindAt(s: string, c: char, i: nat)
    requires i < |s| && s[i] == c && c !in s[..i]
    ensures Find(s, c) == Some(i)
  {
    if i > 0 {
      assert s[0] == s[..i][0];
      assert s[..i] == [s[0]] + s[1..][..i - 1];
      FindAt(s[1..], c, i - 1);
    }
  }

  lemma FirstColon(piece: string, rest: string)
    requires ':' !in piece
    ensures Find(piece + ":" + rest, ':') == Some(|piece|)
    ensures (piece + ":" + rest)[..|piece|] == piece
    ensures (piece + ":" + rest)[|piece| + 1..] == rest
  {
    FindAt(piece + ":" + rest, ':', |piece|);
  }

  /** The pieces between the colons. */
  function Split(s: string): seq<string>
    decreases |s|
  {
    match Find(s, ':')
    case None => [s]
    case Some(i) => [s[..i]] + Split(s[i + 1..])
  }

  lemma {:induction false} SplitJoins(s: string)
    ensures |Split(s)| == Count(s, ':') + 1
    ensures ColonFree(Split(s)) && Join(Split(s)) == s
    decreases |s|
  {
    match Find(s, ':')
    case None =>
      CountZero(s, ':');
    case Some(i) =>
      SplitJoins(s[i + 1..]);
      CountAround(s, i);
      JoinCons(s[..i], Split(s[i + 1..]));
      assert s == s[..i] + ":" + s[i + 1..];
  }

  lemma JoinCons(piece: string, pieces: seq<string>)
    requires pieces != []
    ensures Join([piece] + pieces) == piece + ":" + Join(pieces)
    ensures ':' !in piece && ColonFree(pieces) ==> ColonFree([piece] + pieces)
  {
    assert ([piece] + pieces)[1..] == pieces;
  }

  lemma JoinThree(a: string, b: string, c: string)
    ensures Join([a, b, c]) == a + ":" + b + ":" + c
  {
    assert [a, b, c][1..] == [b, c] && [b, c][1..] == [c];
    assert Join([c]) == c && Join([b, c]) == b + ":" + c;
    assert a + ":" + (b + ":" + c) == a + ":" + b + ":" + c;
  }

  /** Splitting is the inverse of joining: colon-free pieces can be recovered
      from their join in one way only. */
  lemma {:induction false} JoinInjective(p: seq<string>, q: seq<string>)
    requires p != [] && q != [] && ColonFree(p) && ColonFree(q)
    requires Join(p) == Join(q)
    ensures p == q
  {
    JoinCount(p);
    JoinCount(q);
    if |p| > 1 {
      FirstColon(p[0], Join(p[1..]));
      FirstColon(q[0], Join(q[1..]));
      JoinInjective(p[1..], q[1..]);
      assert p == [p[0]] + p[1..] && q == [q[0]] + q[1..];
    }
  }
}
