/** The web side: the per-feed registry of open WebSocket connections, the
    fan-out of caption records to them, and what a client is sent when it
    connects. */
module Web {
  import opened Common
  import opened Feeds
  import opened FeedManagement

  /** Identity of one WebSocket connection. */
  type Socket = nat

  /** How far back the on-connect replay reaches. */
  const ReplayWindowMinutes: int := 5

  /** The close code and reason for an unknown feed. */
  const FeedNotFoundCode: int := 4004
  const FeedNotFoundReason: string := "Feed not found"

  /** One `send_json` attempt. */
  datatype Send = Send(socket: Socket, message: Json)

  /** How a WebSocket request ends up: closed at once, accepted after the replay was sent, or
      dropped because a replay send raised, after the messages sent before it. */
  datatype Session = Closed(code: int, reason: string) | Opened(sent: seq<Json>) | Dropped(sent: seq<Json>)

  // ---------------------------------------------------------------------------
  // The connection registry, as values

  /** `connect`: the feed's set, created empty if absent, gains the socket; no other feed changes. */
  function Connected(active: map<string, set<Socket>>, feedId: string, ws: Socket): (r: map<string, set<Socket>>)
    ensures r.Keys == active.Keys + {feedId}
    ensures ws in r[feedId]
    ensures feedId in active ==> r[feedId] == active[feedId] + {ws}
    ensures feedId !in active ==> r[feedId] == {ws}
    ensures forall g | g in active && g != feedId :: r[g] == active[g]
  {
    active[feedId := (if feedId in active then active[feedId] else {}) + {ws}]
  }

  /** `disconnect`: the socket leaves the feed's set if the feed has one; no entry is created
      and no other feed changes. */
  function Disconnected(active: map<string, set<Socket>>, feedId: string, ws: Socket): (r: map<string, set<Socket>>)
    ensures r.Keys == active.Keys
    ensures feedId in active ==> r[feedId] == active[feedId] - {ws} && ws !in r[feedId]
    ensures forall g | g in active && g != feedId :: r[g] == active[g]
  {
    if feedId in active then active[feedId := active[feedId] - {ws}] else active
  }

  /** A socket that connects and then disconnects leaves the registry as it was, apart from
      an empty set for a feed seen for the first time. */
  lemma DisconnectUndoesConnect(active: map<string, set<Socket>>, feedId: string, ws: Socket)
    requires feedId in active ==> ws !in active[feedId]
    ensures Disconnected(Connected(active, feedId, ws), feedId, ws)
            == if feedId in active then active else active[feedId := {}]
  {
    var r := Disconnected(Connected(active, feedId, ws), feedId, ws);
    if feedId in active {
      assert r[feedId] == active[feedId];
      assert r == active;
    } else {
      assert r[feedId] == {};
    }
  }

  /** Every socket of `targets` got exactly one attempt with `message`. */
  predicate OneAttemptEach(sends: seq<Send>, targets: set<Socket>, message: Json) {
    && |sends| == |targets|
    && (forall i | 0 <= i < |sends| :: sends[i].socket in targets && sends[i].message == message)
    && (forall i, j | 0 <= i < j < |sends| :: sends[i].socket != sends[j].socket)
    && (forall s | s in targets :: exists i :: 0 <= i < |sends| && sends[i].socket == s)
  }

  // ---------------------------------------------------------------------------
  // The on-connect replay

  function HistoryStart(count: int): Json {
    JObject([("type", JString("history_start")), ("count", JInt(count))])
  }

  const HistoryEnd: Json := JObject([("type", JString("history_end"))])

  function Reverse<T>(s: seq<T>): (r: seq<T>)
    ensures |r| == |s|
    ensures forall i | 0 <= i < |s| :: r[i] == s[|s| - 1 - i]
  {
    if s == [] then [] else Reverse(s[1..]) + [s[0]]
  }

  /** The records sent by `for caption in reversed(history)`: the newest caption's first. */
  function NewestFirstRecords(history: seq<Caption>): (r: seq<Json>)
    ensures |r| == |history|
    ensures forall i | 0 <= i < |history| :: r[i] == history[|history| - 1 - i].ToDict()
  {
    if history == [] then []
    else [Last(history).ToDict()] + NewestFirstRecords(history[..|history| - 1])
  }

  /** What a client is sent on connect: nothing for an empty history, else a start marker with
      the count, one record per caption from the newest to the oldest, and an end marker. */
  function ReplayMessages(history: seq<Caption>): (r: seq<Json>)
    ensures history == [] <==> r == []
    ensures history != [] ==>
              && |r| == |history| + 2
              && r[0] == HistoryStart(|history|) && r[|r| - 1] == HistoryEnd
  {
    if history == [] then [] else [HistoryStart(|history|)] + NewestFirstRecords(history) + [HistoryEnd]
  }

  /** The captions a client reads out of a message stream: every message that parses as a caption record. */
  function CaptionsOf(msgs: seq<Json>): seq<Caption> {
    if msgs == [] then []
    else
      var rest := CaptionsOf(msgs[1..]);
      match CaptionOfRecord(msgs[0])
      case Some(c) => [c] + rest
      case None => rest
  }

  /** The markers never parse as captions. */
  lemma MarkersAreNotCaptions(count: int)
    ensures CaptionOfRecord(HistoryStart(count)) == None
    ensures CaptionOfRecord(HistoryEnd) == None
  {
    LookupSkips(HistoryStart(count).fields, 2, "id");
    LookupSkips(HistoryEnd.fields, 1, "id");
  }

  lemma {:induction false} CaptionsOfRecords(records: seq<Json>, cs: seq<Caption>)
    requires |records| == |cs|
    requires forall i | 0 <= i < |cs| :: CaptionOfRecord(records[i]) == Some(cs[i])
    ensures CaptionsOf(records) == cs
  {
    if records != [] {
      CaptionsOfRecords(records[1..], cs[1..]);
    }
  }

  lemma {:induction false} CaptionsOfAppend(a: seq<Json>, b: seq<Json>)
    ensures CaptionsOf(a + b) == CaptionsOf(a) + CaptionsOf(b)
  {
    if a == [] {
      assert a + b == b;
    } else {
      assert (a + b)[0] == a[0];
      assert (a + b)[1..] == a[1..] + b;
      CaptionsOfAppend(a[1..], b);
    }
  }

  /** A client reading the replay gets the window's captions in reverse order: newest first,
      although the window itself is oldest first. */
  lemma ReplayCarriesReversedHistory(history: seq<Caption>)
    ensures CaptionsOf(ReplayMessages(history)) == Reverse(history)
  {
    if history != [] {
      var records := NewestFirstRecords(history);
      CaptionsOfRecords(records, Reverse(history));
      MarkersAreNotCaptions(|history|);
      CaptionsOfAppend([HistoryStart(|history|)] + records, [HistoryEnd]);
      CaptionsOfAppend([HistoryStart(|history|)], records);
    }
  }

  /** For a history in time order, the replayed captions arrive latest first. */
  lemma ReplayNewestFirst(history: seq<Caption>)
    requires SortedByTime(history)
    ensures var got := CaptionsOf(ReplayMessages(history));
            forall i, j | 0 <= i < j < |got| :: got[i].timestamp >= got[j].timestamp
  {
    ReplayCarriesReversedHistory(history);
  }

  /** One more attempt, to a connection not tried yet. */
  lemma OneMoreAttempt(sends: seq<Send>, sent: set<Socket>, conn: Socket, message: Json)
    requires OneAttemptEach(sends, sent, message) && conn !in sent
    ensures OneAttemptEach(sends + [Send(conn, message)], sent + {conn}, message)
  {
    var next := sends + [Send(conn, message)];
    assert next[|sends|].socket == conn;
    forall s | s in sent + {conn}
      ensures exists i :: 0 <= i < |next| && next[i].socket == s
    {
      if s != conn {
        var i :| 0 <= i < |sends| && sends[i].socket == s;
        assert next[i].socket == s;
      }
    }
  }

  /** Moving one connection from pending to sent keeps the partition and the dead set. */
  lemma MoveToSent(sent: set<Socket>, pending: set<Socket>, conn: Socket, failing: set<Socket>, dead: set<Socket>)
    requires sent !! pending && conn in pending && dead == sent * failing
    ensures (sent + {conn}) !! (pending - {conn}) && (sent + {conn}) + (pending - {conn}) == sent + pending
    ensures (if conn in failing then dead + {conn} else dead) == (sent + {conn}) * failing
  {
  }

  /** The send loop of `broadcast_to_feed`: every connection once, in some order; the ones whose
      send raises are collected as dead. */
  method AttemptSends(targets: set<Socket>, message: Json, failing: set<Socket>) returns (sends: seq<Send>, dead: set<Socket>)
    ensures OneAttemptEach(sends, targets, message)
    ensures dead == targets * failing
  {
    sends := [];
    dead := {};
    var pending := targets;
    ghost var sent: set<Socket> := {};
    while pending != {}
      invariant sent !! pending && sent + pending == targets
      invariant dead == sent * failing
      invariant OneAttemptEach(sends, sent, message)
      decreases pending
    {
      var conn :| conn in pending;
      OneMoreAttempt(sends, sent, conn, message);
      MoveToSent(sent, pending, conn, failing, dead);
      sends := sends + [Send(conn, message)];
      if conn in failing {
        dead := dead + {conn};
      }
      pending := pending - {conn};
      sent := sent + {conn};
    }
    assert sent == targets;
  }

  // ---------------------------------------------------------------------------
  // The objects

  class ConnectionManager {
    /** `active_connections` */
    var active: map<string, set<Socket>>

    constructor ()
      ensures active == map[]
    {
      active := map[];
    }

    /** `connect` (the handshake itself is not modelled). */
    method Connect(ws: Socket, feedId: string)
      modifies this
      ensures active == Connected(old(active), feedId, ws)
    {
      if feedId !in active {
        active := active[feedId := {}];
      }
      active := active[feedId := active[feedId] + {ws}];
    }

    /** `disconnect` */
    method Disconnect(ws: Socket, feedId: string)
      modifies this
      ensures active == Disconnected(old(active), feedId, ws)
    {
      if feedId in active {
        active := active[feedId := active[feedId] - {ws}];
      }
    }

    /** `broadcast_to_feed`: one send attempt per connection of the feed, collecting the ones whose
        send raises (those in `failing`), then dropping them from the feed's set. */
    method BroadcastToFeed(feedId: string, message: Json, failing: set<Socket>) returns (sends: seq<Send>)
      modifies this
      ensures feedId !in old(active) ==> sends == [] && active == old(active)
      ensures feedId in old(active) ==>
                && OneAttemptEach(sends, old(active)[feedId], message)
                && active == old(active)[feedId := old(active)[feedId] - failing]
    {
      sends := [];
      if feedId !in active {
        return;
      }
      var dead;
      sends, dead := AttemptSends(active[feedId], message, failing);
      DiscardAll(feedId, dead);
      assert active[feedId] == old(active)[feedId] - failing;
    }

    /** The clean-up loop of `broadcast_to_feed`: each dead connection leaves the feed's set. */
    method DiscardAll(feedId: string, dead: set<Socket>)
      requires feedId in active
      modifies this
      ensures active == old(active)[feedId := old(active)[feedId] - dead]
    {
      var rest := dead;
      assert old(active)[feedId] - (dead - rest) == old(active)[feedId];
      assert old(active)[feedId := old(active)[feedId]] == old(active);
      while rest != {}
        invariant rest <= dead
        invariant active == old(active)[feedId := old(active)[feedId] - (dead - rest)]
        decreases rest
      {
        var conn :| conn in rest;
        assert old(active)[feedId] - (dead - (rest - {conn})) == (old(active)[feedId] - (dead - rest)) - {conn};
        active := active[feedId := active[feedId] - {conn}];
        rest := rest - {conn};
      }
      assert dead - rest == dead;
    }

    /** `broadcast_caption`: the caption's record to every connection of the feed. */
    method BroadcastCaption(feedId: string, caption: Caption, failing: set<Socket>) returns (sends: seq<Send>)
      modifies this
      ensures feedId !in old(active) ==> sends == [] && active == old(active)
      ensures feedId in old(active) ==>
                && OneAttemptEach(sends, old(active)[feedId], caption.ToDict())
                && active == old(active)[feedId := old(active)[feedId] - failing]
    {
      sends := BroadcastToFeed(feedId, caption.ToDict(), failing);
    }
  }

  /** The message at each position of the replay. */
  lemma ReplayMessageAt(history: seq<Caption>, k: nat)
    requires history != [] && k < |history| + 2
    ensures |ReplayMessages(history)| == |history| + 2
    ensures ReplayMessages(history)[k] ==
              if k == 0 then HistoryStart(|history|)
              else if k <= |history| then history[|history| - k].ToDict()
              else HistoryEnd
  {
    var records := NewestFirstRecords(history);
    assert ReplayMessages(history) == [HistoryStart(|history|)] + records + [HistoryEnd];
    if 1 <= k <= |history| {
      assert ReplayMessages(history)[k] == records[k - 1];
    }
  }

  /** Messages that start like the replay, one position at a time, are a prefix of it. */
  lemma ReplayPrefix(history: seq<Caption>, sent: seq<Json>)
    requires history != [] && 1 <= |sent| <= |history| + 2
    requires sent[0] == HistoryStart(|history|)
    requires forall j | 1 <= j < |sent| && j <= |history| :: sent[j] == history[|history| - j].ToDict()
    requires |sent| == |history| + 2 ==> sent[|sent| - 1] == HistoryEnd
    ensures sent == ReplayMessages(history)[..|sent|]
  {
    var msgs := ReplayMessages(history);
    forall k | 0 <= k < |sent|
      ensures sent[k] == msgs[k]
    {
      ReplayMessageAt(history, k);
    }
  }

  /** The replay sends of `websocket_endpoint`, in the order the loop makes them. Send number
      `failAt` (counting from 0), if there is one, raises and ends the replay. */
  method SendReplay(history: seq<Caption>, failAt: Option<nat>) returns (sent: seq<Json>, raised: bool)
    ensures var msgs := ReplayMessages(history);
            && (raised <==> failAt.Some? && failAt.value < |msgs|)
            && sent == if raised then msgs[..failAt.value] else msgs
  {
    sent := [];
    raised := false;
    if history == [] {
      return;
    }
    raised := failAt == Some(0);
    if raised {
      assert sent == ReplayMessages(history)[..0];
      return;
    }
    sent := [HistoryStart(|history|)];
    var i := |history|;
    while i > 0 && !raised
      invariant 0 <= i <= |history|
      invariant 1 <= |sent| == |history| - i + 1 - (if raised then 1 else 0)
      invariant sent[0] == HistoryStart(|history|)
      invariant forall j | 1 <= j < |sent| :: sent[j] == history[|history| - j].ToDict()
      invariant raised ==> failAt == Some(|sent|)
      invariant !raised ==> failAt.None? || failAt.value >= |sent|
    {
      i := i - 1;
      if failAt == Some(|sent|) {
        raised := true;
      } else {
        sent := sent + [history[i].ToDict()];
      }
    }
    if !raised {
      if failAt == Some(|sent|) {
        raised := true;
      } else {
        sent := sent + [HistoryEnd];
      }
    }
    ReplayPrefix(history, sent);
    assert |ReplayMessages(history)| == |history| + 2;
  }

  /** `websocket_endpoint` up to the keep-alive loop: an unknown feed is closed with 4004 and
      registers nothing; a known one registers the socket and sends the replay of the last five
      minutes of its history as of `now`. When a replay send raises, the socket is disconnected
      again. */
  method WebsocketEndpoint(feeds: FeedManager, connections: ConnectionManager, ws: Socket, feedId: string,
                           now: Timestamp, failAt: Option<nat>)
    returns (session: Session)
    requires feeds.Valid()
    modifies connections
    ensures feedId !in feeds.feeds ==>
              session == Closed(FeedNotFoundCode, FeedNotFoundReason) && connections.active == old(connections.active)
    ensures feedId in feeds.feeds ==>
              var msgs := ReplayMessages(feeds.feeds[feedId].GetHistory(ReplayWindowMinutes, now));
              if failAt.Some? && failAt.value < |msgs| then
                && session == Dropped(msgs[..failAt.value])
                && connections.active == Disconnected(Connected(old(connections.active), feedId, ws), feedId, ws)
              else
                && session == Opened(msgs)
                && connections.active == Connected(old(connections.active), feedId, ws)
  {
    var found := feeds.GetFeed(feedId);
    if found.None? {
      return Closed(FeedNotFoundCode, FeedNotFoundReason);
    }
    var feed := found.value;
    connections.Connect(ws, feedId);
    var history := feed.GetHistory(ReplayWindowMinutes, now);
    var sent, raised := SendReplay(history, failAt);
    if raised {
      connections.Disconnect(ws, feedId);
      return Dropped(sent);
    }
    return Opened(sent);
  }
}
