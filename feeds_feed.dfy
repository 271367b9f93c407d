/** One caption feed: a bounded FIFO of final captions, a one-slot interim
    text and a set of subscribers notified of every caption. */
module Feeds {
  import opened Common

  /** Microseconds since 0001-01-01 00:00:00 local time (Python's naive `datetime.min`). */
  type Timestamp = nat

  const MicrosPerSecond: nat := 1_000_000
  const MicrosPerMinute: nat := 60 * MicrosPerSecond

  /** `Feed.__init__`'s default history capacity. */
  const DefaultMaxCaptions: nat := 1000

  /** Identity of a subscriber callback (Python compares callbacks by identity). */
  type Callback = nat

  /** What the transcription service hands over; word timings are not modelled. */
  datatype Transcript = Transcript(text: string, isFinal: bool, confidence: real, timestamp: Timestamp)

  datatype Caption = Caption(id: string, feedId: string, text: string, isFinal: bool, timestamp: Timestamp, confidence: real)
  {
    /** `Caption.to_dict`: the JSON record sent to web clients. It loses nothing. */
    function ToDict(): (r: Json)
      ensures r.JObject?
      ensures CaptionOfRecord(r) == Some(this)
    {
      var fields := [
        ("id", JString(id)),
        ("feed_id", JString(feedId)),
        ("text", JString(text)),
        ("is_final", JBool(isFinal)),
        ("timestamp", JTime(timestamp)),
        ("confidence", JReal(confidence))
      ];
      LookupSkips(fields, 0, "id");
      LookupSkips(fields, 1, "feed_id");
      LookupSkips(fields, 2, "text");
      LookupSkips(fields, 3, "is_final");
      LookupSkips(fields, 4, "timestamp");
      LookupSkips(fields, 5, "confidence");
      JObject(fields)
    }
  }

  /** Reads a caption record back, as a web client does. */
  function CaptionOfRecord(j: Json): Option<Caption> {
    if !j.JObject? then None
    else
      match (Lookup(j.fields, "id"), Lookup(j.fields, "feed_id"), Lookup(j.fields, "text"),
             Lookup(j.fields, "is_final"), Lookup(j.fields, "timestamp"), Lookup(j.fields, "confidence"))
      case (Some(JString(i)), Some(JString(f)), Some(JString(t)), Some(JBool(b)), Some(JTime(ts)), Some(JReal(c))) =>
        if ts >= 0 then Some(Caption(i, f, t, b, ts, c)) else None
      case _ => None
  }

  /** One delivery of a caption to one subscriber; `raised` records that the callback threw. */
  datatype Delivery = Delivery(subscriber: Callback, caption: Caption, raised: bool)

  /** The subscribers that were called. */
  function Recipients(ds: seq<Delivery>): (r: set<Callback>)
    ensures forall i | 0 <= i < |ds| :: ds[i].subscriber in r
  {
    if ds == [] then {} else Recipients(ds[..|ds| - 1]) + {ds[|ds| - 1].subscriber}
  }

  function Last<T>(s: seq<T>): T
    requires s != []
  {
    s[|s| - 1]
  }

  // ---------------------------------------------------------------------------
  // The caption store, as a value

  /** The feed's caption history and interim slot. */
  datatype Store = Store(captions: seq<Caption>, interim: Option<string>)

  /** `deque(maxlen=cap).append(x)`: append, then drop the leftmost item if over capacity. */
  function BoundedAppend<T>(s: seq<T>, x: T, cap: nat): (r: seq<T>)
    requires |s| <= cap
    ensures |r| == if |s| < cap then |s| + 1 else cap
    ensures r == (s + [x])[|s| + 1 - |r|..]
  {
    var t := s + [x];
    if |t| > cap then t[1..] else t
  }

  /** The last `n` items of `t` (all of them when there are fewer). */
  function Newest<T>(t: seq<T>, n: nat): (r: seq<T>)
  {
    if |t| <= n then t else t[|t| - n..]
  }

  /** The store update of `Feed.add_transcript`. */
  function Ingest(st: Store, c: Caption, cap: nat): (r: Store)
    requires |st.captions| <= cap
    ensures |r.captions| <= cap
  {
    if c.isFinal then Store(BoundedAppend(st.captions, c, cap), None)
    else Store(st.captions, Some(c.text))
  }

  /** `get_current_text`: a non-empty interim wins, then the newest stored caption, then "". */
  function CurrentTextOf(st: Store): (r: string)
    ensures st.interim.Some? && st.interim.value != "" ==> r == st.interim.value
    ensures r == "" || st.interim == Some(r) || (st.captions != [] && r == Last(st.captions).text)
    ensures r == "" <==> (st.interim.None? || st.interim.value == "") && (st.captions == [] || Last(st.captions).text == "")
  {
    if st.interim.Some? && st.interim.value != "" then st.interim.value
    else if st.captions != [] then Last(st.captions).text
    else ""
  }

  /** The store after ingesting `cs` in order. */
  function IngestAll(st: Store, cs: seq<Caption>, cap: nat): (r: Store)
    requires |st.captions| <= cap
    ensures |r.captions| <= cap
  {
    if cs == [] then st else Ingest(IngestAll(st, cs[..|cs| - 1], cap), Last(cs), cap)
  }

  function Finals(cs: seq<Caption>): seq<Caption> {
    if cs == [] then []
    else Finals(cs[..|cs| - 1]) + (if Last(cs).isFinal then [Last(cs)] else [])
  }

  lemma BoundedAppendOfNewest<T>(a: seq<T>, x: T, n: nat)
    ensures BoundedAppend(Newest(a, n), x, n) == Newest(a + [x], n)
  {
    if |a| >= n && n > 0 {
      var t := a + [x];
      assert Newest(a, n) + [x] == t[|a| - n..];
      assert t[|a| - n..][1..] == t[|t| - n..];
    }
  }

  /** FIFO eviction: the history always holds exactly the newest `cap` final captions. */
  lemma {:induction false} HistoryKeepsNewestFinals(st: Store, cs: seq<Caption>, cap: nat)
    requires |st.captions| <= cap
    ensures IngestAll(st, cs, cap).captions == Newest(st.captions + Finals(cs), cap)
  {
    if cs == [] {
      assert st.captions + [] == st.captions;
    } else {
      var init := cs[..|cs| - 1];
      HistoryKeepsNewestFinals(st, init, cap);
      if Last(cs).isFinal {
        BoundedAppendOfNewest(st.captions + Finals(init), Last(cs), cap);
        assert st.captions + Finals(init) + [Last(cs)] == st.captions + Finals(cs);
      } else {
        assert Finals(cs) == Finals(init);
      }
    }
  }

  /** The capacity-3 example: finals "a", "b", "c", "d" leave "b", "c", "d", oldest first. */
  lemma CapacityThreeKeepsLastThree(a: Caption, b: Caption, c: Caption, d: Caption)
    requires a.isFinal && b.isFinal && c.isFinal && d.isFinal
    ensures IngestAll(Store([], None), [a, b, c, d], 3).captions == [b, c, d]
  {
    var cs := [a, b, c, d];
    HistoryKeepsNewestFinals(Store([], None), cs, 3);
    assert cs[..3] == [a, b, c] && [a, b, c][..2] == [a, b] && [a, b][..1] == [a];
    assert Finals([a]) == [a];
    assert Finals([a, b]) == [a, b];
    assert Finals([a, b, c]) == [a, b, c];
    assert Finals(cs) == cs;
  }

  /** Text of the most recent final caption of the run, else of the newest caption stored before it. */
  function LastFinalText(st: Store, cs: seq<Caption>): string {
    if cs == [] then (if st.captions == [] then "" else Last(st.captions).text)
    else if Last(cs).isFinal then Last(cs).text
    else LastFinalText(st, cs[..|cs| - 1])
  }

  /** What should be on screen after the run `cs`: the newest transcript's text,
      unless it is an empty interim, in which case the newest final text. */
  function ExpectedText(st: Store, cs: seq<Caption>): string {
    if cs == [] then CurrentTextOf(st)
    else if Last(cs).isFinal || Last(cs).text != "" then Last(cs).text
    else LastFinalText(st, cs[..|cs| - 1])
  }

  lemma {:induction false} NewestStoredIsLastFinal(st: Store, cs: seq<Caption>, cap: nat)
    requires 0 < cap && |st.captions| <= cap
    ensures var r := IngestAll(st, cs, cap);
            (if r.captions == [] then "" else Last(r.captions).text) == LastFinalText(st, cs)
  {
    if cs != [] {
      NewestStoredIsLastFinal(st, cs[..|cs| - 1], cap);
    }
  }

  /** The current-text rule over any run of transcripts, for a feed that keeps at least one caption. */
  lemma {:induction false} CurrentTextAfterRun(st: Store, cs: seq<Caption>, cap: nat)
    requires 0 < cap && |st.captions| <= cap
    ensures CurrentTextOf(IngestAll(st, cs, cap)) == ExpectedText(st, cs)
  {
    if cs != [] {
      NewestStoredIsLastFinal(st, cs[..|cs| - 1], cap);
    }
  }

  // ---------------------------------------------------------------------------
  // Time-window queries

  /** The captions stamped at or after `cutoff`, in storage order. */
  function Recent(captions: seq<Caption>, cutoff: int): (r: seq<Caption>)
    ensures IsSubsequence(r, captions)
    ensures forall c | c in r :: c.timestamp >= cutoff
    ensures multiset(r) <= multiset(captions)
    ensures forall c | c in captions && c.timestamp >= cutoff :: multiset(r)[c] == multiset(captions)[c]
  {
    if captions == [] then []
    else
      var rest := Recent(captions[1..], cutoff);
      assert captions == [captions[0]] + captions[1..];
      if captions[0].timestamp >= cutoff then
        assert ([captions[0]] + rest)[1..] == rest;
        [captions[0]] + rest
      else rest
  }

  predicate SortedByTime(cs: seq<Caption>) {
    forall i, j | 0 <= i < j < |cs| :: cs[i].timestamp <= cs[j].timestamp
  }

  lemma {:induction false} RecentOfQualifyingIsAll(cs: seq<Caption>, cutoff: int)
    requires forall i | 0 <= i < |cs| :: cs[i].timestamp >= cutoff
    ensures Recent(cs, cutoff) == cs
  {
    if cs != [] {
      RecentOfQualifyingIsAll(cs[1..], cutoff);
    }
  }

  /** When arrival order is time order, the window is a suffix of the history. */
  lemma {:induction false} RecentOfSortedIsSuffix(cs: seq<Caption>, cutoff: int)
    requires SortedByTime(cs)
    ensures |Recent(cs, cutoff)| <= |cs|
    ensures Recent(cs, cutoff) == cs[|cs| - |Recent(cs, cutoff)|..]
  {
    if cs != [] {
      if cs[0].timestamp >= cutoff {
        RecentOfQualifyingIsAll(cs, cutoff);
      } else {
        RecentOfSortedIsSuffix(cs[1..], cutoff);
      }
    }
  }

  // ---------------------------------------------------------------------------
  // The feed object

  class Feed {
    const id: string
    const name: string
    const channel: int
    const vmixInput: string
    const maxCaptions: nat
    var captions: seq<Caption>
    var currentInterim: Option<string>
    var subscribers: set<Callback>
    var enabled: bool

    ghost predicate Valid()
      reads this
    {
      |captions| <= maxCaptions
    }

    function State(): Store
      reads this
    {
      Store(captions, currentInterim)
    }

    constructor (feedId: string, name: string, channel: int, vmixInput: string, maxCaptions: nat)
      ensures Valid()
      ensures this.id == feedId && this.name == name && this.channel == channel
      ensures this.vmixInput == vmixInput && this.maxCaptions == maxCaptions
      ensures captions == [] && currentInterim == None && subscribers == {} && enabled
    {
      this.id := feedId;
      this.name := name;
      this.channel := channel;
      this.vmixInput := vmixInput;
      this.maxCaptions := maxCaptions;
      captions := [];
      currentInterim := None;
      subscribers := {};
      enabled := true;
    }

    /** `add_transcript`; `captionId` is the fresh UUID and `raising` the subscribers whose callback throws. */
    method AddTranscript(t: Transcript, captionId: string, raising: set<Callback>)
      returns (caption: Caption, deliveries: seq<Delivery>)
      requires Valid()
      modifies this`captions, this`currentInterim
      ensures Valid()
      ensures caption == Caption(captionId, id, t.text, t.isFinal, t.timestamp, t.confidence)
      ensures State() == Ingest(old(State()), caption, maxCaptions)
      ensures t.isFinal ==> currentInterim == None && (0 < maxCaptions ==> Last(captions) == caption)
      ensures !t.isFinal ==> captions == old(captions) && currentInterim == Some(t.text)
      ensures t.isFinal && 0 < maxCaptions ==> GetCurrentText() == t.text
      ensures !t.isFinal && t.text != "" ==> GetCurrentText() == t.text
      ensures !t.isFinal && t.text == "" ==> GetCurrentText() == CurrentTextOf(Store(old(captions), None))
      ensures Recipients(deliveries) == subscribers
      ensures |deliveries| == |subscribers|
      ensures forall d | d in deliveries :: d.caption == caption && d.raised == (d.subscriber in raising)
    {
      caption := Caption(captionId, id, t.text, t.isFinal, t.timestamp, t.confidence);
      if t.isFinal {
        captions := BoundedAppend(captions, caption, maxCaptions);
        currentInterim := None;
      } else {
        currentInterim := Some(t.text);
      }
      deliveries := NotifySubscribers(caption, raising);
    }

    /** `_notify_subscribers`: every subscriber of the snapshot is called once, in
        unspecified order; one that raises does not stop the others. */
    method NotifySubscribers(caption: Caption, raising: set<Callback>) returns (deliveries: seq<Delivery>)
      ensures Recipients(deliveries) == subscribers
      ensures |deliveries| == |subscribers|
      ensures forall i, j | 0 <= i < j < |deliveries| :: deliveries[i].subscriber != deliveries[j].subscriber
      ensures forall d | d in deliveries :: d.caption == caption && d.raised == (d.subscriber in raising)
    {
      var pending := subscribers;
      deliveries := [];
      while pending != {}
        invariant pending <= subscribers
        invariant Recipients(deliveries) == subscribers - pending
        invariant |deliveries| + |pending| == |subscribers|
        invariant forall i, j | 0 <= i < j < |deliveries| :: deliveries[i].subscriber != deliveries[j].subscriber
        invariant forall d | d in deliveries :: d.caption == caption && d.raised == (d.subscriber in raising)
        decreases pending
      {
        var cb :| cb in pending;
        assert forall i | 0 <= i < |deliveries| :: deliveries[i] in deliveries;
        var next := deliveries + [Delivery(cb, caption, cb in raising)];
        assert next[..|next| - 1] == deliveries;
        deliveries := next;
        pending := pending - {cb};
      }
    }

    /** `get_history(minutes)` evaluated at time `now`. */
    function GetHistory(minutes: int, now: Timestamp): (r: seq<Caption>)
      reads this
      ensures IsSubsequence(r, captions)
      ensures forall c | c in r :: c.timestamp >= now - minutes * MicrosPerMinute
      ensures forall c | c in captions && c.timestamp >= now - minutes * MicrosPerMinute ::
                multiset(r)[c] == multiset(captions)[c]
    {
      Recent(captions, now - minutes * MicrosPerMinute)
    }

    function GetCurrentText(): (r: string)
      reads this
      ensures currentInterim.Some? && currentInterim.value != "" ==> r == currentInterim.value
      ensures (currentInterim.None? || currentInterim.value == "") ==>
                r == if captions == [] then "" else Last(captions).text
    {
      CurrentTextOf(State())
    }

    method Subscribe(cb: Callback)
      modifies this`subscribers
      ensures subscribers == old(subscribers) + {cb}
    {
      subscribers := subscribers + {cb};
    }

    method Unsubscribe(cb: Callback)
      modifies this`subscribers
      ensures subscribers == old(subscribers) - {cb}
    {
      subscribers := subscribers - {cb};
    }

    /** The `enabled` property setter. */
    method SetEnabled(value: bool)
      modifies this`enabled
      ensures enabled == value
    {
      enabled := value;
    }

    /** `caption_count`. */
    function CaptionCount(): (n: nat)
      reads this
      requires Valid()
      ensures n <= maxCaptions
    {
      |captions|
    }
  }

  // ---------------------------------------------------------------------------
  // The scenarios of the feed tests, as clients of the class

  method CreationScenario() {
    var feed := new Feed("test", "Test Feed", 0, "TestInput", DefaultMaxCaptions);
    assert feed.enabled && feed.CaptionCount() == 0 && feed.GetCurrentText() == "";
  }

  method CurrentTextScenario(now: Timestamp) {
    var feed := new Feed("test", "Test", 0, "", DefaultMaxCaptions);
    assert feed.GetCurrentText() == "";
    var c, ds := feed.AddTranscript(Transcript("hello", true, 0.9, now), "id1", {});
    assert feed.GetCurrentText() == "hello" && feed.CaptionCount() == 1;
    c, ds := feed.AddTranscript(Transcript("wor", false, 0.5, now), "id2", {});
    assert feed.GetCurrentText() == "wor";
    c, ds := feed.AddTranscript(Transcript("world", true, 0.9, now), "id3", {});
    assert feed.GetCurrentText() == "world" && feed.CaptionCount() == 2;
  }

  method SubscriptionScenario(now: Timestamp) {
    var feed := new Feed("test", "Test", 0, "", DefaultMaxCaptions);
    var onCaption: Callback := 7;
    feed.Subscribe(onCaption);
    var c, ds := feed.AddTranscript(Transcript("Test message", true, 0.9, now), "id1", {});
    assert |ds| == 1 && ds[0] in ds && ds[0].subscriber == onCaption && ds[0].caption.text == "Test message";
    feed.Unsubscribe(onCaption);
    c, ds := feed.AddTranscript(Transcript("Test message", true, 0.9, now), "id2", {});
    assert ds == [];
  }
}
