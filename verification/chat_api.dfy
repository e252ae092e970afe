/** The chat thunks: chat rows of the database turned into chat messages,
    the send request turned into an insert, and a fetched list mapped. The
    clock readings (the send stamp, and the time used when a row has none)
    are parameters. */
module ChatApi {
  import opened Common

  /** A row of the `chats` table, with the column names the thunks use. */
  datatype ChatRow = ChatRow(
    id: Option<string>,
    streamId: string,
    sender: string,
    walletAddress: string,
    message: string,
    timestamp: Option<string>,
    createdAt: Option<string>)

  /** When a message was sent: parsed from a stored time text, or the
      current clock reading when the row has none. */
  datatype Instant = FromText(text: string) | FromClock(millis: int)

  datatype ChatMessage = ChatMessage(
    id: string,
    sender: string,
    message: string,
    timestamp: Instant,
    streamId: string,
    walletAddress: string)

  /** What a viewer sends: the sender is the shortened wallet address. */
  datatype SendRequest = SendRequest(message: string, streamId: string, walletAddress: string, sender: string)

  /** The time of a row: its `timestamp`, else its `created_at`, else now. */
  function TimeOf(row: ChatRow, now: int): (t: Instant)
    ensures Present(row.timestamp) ==> t == FromText(row.timestamp.value)
    ensures !Present(row.timestamp) && Present(row.createdAt) ==> t == FromText(row.createdAt.value)
    ensures !Present(row.timestamp) && !Present(row.createdAt) ==> t == FromClock(now)
    ensures t.FromText? ==> t.text != ""
  {
    if Present(row.timestamp) then FromText(row.timestamp.value)
    else if Present(row.createdAt) then FromText(row.createdAt.value)
    else FromClock(now)
  }

  /** `supabaseToChatMessage`: a missing id reads as empty; the text fields
      and the stream and wallet columns are copied as they are. */
  function ToMessage(row: ChatRow, now: int): (m: ChatMessage)
    ensures m.id == OrDefault(row.id, "")
    ensures m.sender == row.sender && m.message == row.message
    ensures m.streamId == row.streamId && m.walletAddress == row.walletAddress
    ensures m.timestamp == TimeOf(row, now)
  {
    ChatMessage(OrDefault(row.id, ""), row.sender, row.message, TimeOf(row, now), row.streamId, row.walletAddress)
  }

  /** The insert a send makes: the request's columns, stamped with the
      sender's clock (`sentAt`, the text of `new Date().toISOString()`); the
      id and `created_at` are left to the database. */
  function InsertOf(req: SendRequest, sentAt: string): (row: ChatRow)
    ensures row.streamId == req.streamId && row.sender == req.sender
    ensures row.walletAddress == req.walletAddress && row.message == req.message
    ensures row.timestamp == Some(sentAt)
    ensures row.id.None? && row.createdAt.None?
  {
    ChatRow(None, req.streamId, req.sender, req.walletAddress, req.message, Some(sentAt), None)
  }

  /** What the database adds to an inserted row. */
  datatype Assigned = Assigned(id: Option<string>, createdAt: Option<string>)

  /** `sendChatMessage`: the row the insert returns, as a message. A failed
      insert rejects with its error. */
  function SendMessage(req: SendRequest, sentAt: string, stored: Result<Assigned, string>, now: int): (r: Result<ChatMessage, string>)
    ensures r.Failure? <==> stored.Failure?
    ensures r.Success? ==>
      var row := InsertOf(req, sentAt).(id := stored.value.id, createdAt := stored.value.createdAt);
      r.value == ToMessage(row, now)
  {
    match stored
    case Failure(e) => Failure(e)
    case Success(a) =>
      Success(ToMessage(InsertOf(req, sentAt).(id := a.id, createdAt := a.createdAt), now))
  }

  /** A sent message comes back with exactly the request's text, sender,
      stream and wallet, timed by the sender's clock rather than the
      database's. */
  lemma SentMessageEchoesRequest(req: SendRequest, sentAt: string, stored: Result<Assigned, string>, now: int)
    requires stored.Success?
    ensures var m := SendMessage(req, sentAt, stored, now).value;
      && m.message == req.message && m.sender == req.sender
      && m.streamId == req.streamId && m.walletAddress == req.walletAddress
      && (sentAt != "" ==> m.timestamp == FromText(sentAt))
  {
  }

  /** The fetched rows, each as a message, in the same order. */
  function MapMessages(rows: seq<ChatRow>, now: int): (r: seq<ChatMessage>)
    ensures |r| == |rows|
    ensures forall i :: 0 <= i < |rows| ==> r[i].sender == rows[i].sender && r[i].message == rows[i].message
  {
    seq(|rows|, i requires 0 <= i < |rows| => ToMessage(rows[i], now))
  }

  /** `fetchChatMessages` after the query answered. */
  function FetchMessages(fetched: Result<seq<ChatRow>, string>, now: int): (r: Result<seq<ChatMessage>, string>)
    ensures r.Failure? <==> fetched.Failure?
    ensures r.Success? ==> |r.value| == |fetched.value|
  {
    match fetched
    case Failure(e) => Failure(e)
    case Success(rows) => Success(MapMessages(rows, now))
  }

  /** Mapping commutes with concatenation, so a longer fetch only adds
      messages at the end. */
  lemma MapMessagesAppend(a: seq<ChatRow>, b: seq<ChatRow>, now: int)
    ensures MapMessages(a + b, now) == MapMessages(a, now) + MapMessages(b, now)
  {
    var l := MapMessages(a + b, now);
    var r := MapMessages(a, now) + MapMessages(b, now);
    assert |l| == |r|;
    forall i | 0 <= i < |l|
      ensures l[i] == r[i]
    {
      if i < |a| {
        assert (a + b)[i] == a[i];
      } else {
        assert (a + b)[i] == b[i - |a|];
      }
    }
  }
}
