/** The registry of feeds: routes each transcript to its feed and re-broadcasts
    the resulting caption to the global subscribers (the output sinks). */
module FeedManagement {
  import opened Common
  import opened Feeds

  /** The fields of a feed's configuration that the manager reads. */
  datatype FeedConfig = FeedConfig(id: string, name: string, channel: int, vmixInput: string, enabled: bool)

  /** One call of a global subscriber with `(feed_id, caption)`; `raised` records that it threw. */
  datatype GlobalCall = GlobalCall(subscriber: Callback, feedId: string, caption: Caption, raised: bool)

  /** Every registered feed that is listed is also registered, in the listed order. */
  lemma ListedFeedsCoverRegistry(feeds: map<string, Feed>, order: seq<string>)
    requires forall k :: k in feeds <==> k in order
    ensures forall f | f in feeds.Values :: exists i :: 0 <= i < |order| && order[i] in feeds && feeds[order[i]] == f
  {
    forall f | f in feeds.Values
      ensures exists i :: 0 <= i < |order| && order[i] in feeds && feeds[order[i]] == f
    {
      var k :| k in feeds && feeds[k] == f;
      var i :| 0 <= i < |order| && order[i] == k;
    }
  }

  /** The feeds registered under `ks`, in that order. */
  function FeedsAt(feeds: map<string, Feed>, ks: seq<string>): (r: seq<Feed>)
    requires forall k | k in ks :: k in feeds
    ensures |r| == |ks|
    ensures forall i | 0 <= i < |ks| :: r[i] == feeds[ks[i]]
  {
    if ks == [] then [] else [feeds[ks[0]]] + FeedsAt(feeds, ks[1..])
  }

  /** `[f for f in fs if f.enabled]`. */
  function EnabledOnly(fs: seq<Feed>): (r: seq<Feed>)
    reads fs
    ensures forall f | f in r :: f in fs && f.enabled
    ensures forall f | f in fs && f.enabled :: f in r
    ensures IsSubsequence(r, fs)
    ensures forall f | f in fs && f.enabled :: multiset(r)[f] == multiset(fs)[f]
  {
    if fs == [] then []
    else
      var rest := EnabledOnly(fs[1..]);
      assert forall f | f in fs :: f == fs[0] || f in fs[1..];
      assert fs == [fs[0]] + fs[1..];
      if fs[0].enabled then
        assert ([fs[0]] + rest)[1..] == rest;
        [fs[0]] + rest
      else rest
  }

  class FeedManager {
    /** `_feeds`, keyed by feed id. */
    var feeds: map<string, Feed>
    /** The insertion order of `_feeds`' keys, which Python dicts keep. */
    var order: seq<string>
    var globalSubscribers: seq<Callback>

    ghost predicate Valid()
      reads this, feeds.Values
    {
      && (forall k | k in feeds :: feeds[k].id == k && feeds[k].Valid())
      && (forall k :: k in feeds <==> k in order)
      && NoDuplicates(order)
    }

    constructor ()
      ensures Valid()
      ensures feeds == map[] && order == [] && globalSubscribers == []
    {
      feeds := map[];
      order := [];
      globalSubscribers := [];
    }

    /** `create_feed`: registers a fresh feed under `config.id`, replacing any feed of that id. */
    method CreateFeed(config: FeedConfig) returns (feed: Feed)
      requires Valid()
      modifies this
      ensures Valid() && fresh(feed)
      ensures feeds == old(feeds)[config.id := feed]
      ensures order == if config.id in old(feeds) then old(order) else old(order) + [config.id]
      ensures globalSubscribers == old(globalSubscribers)
      ensures feed.id == config.id && feed.name == config.name && feed.channel == config.channel
      ensures feed.vmixInput == config.vmixInput && feed.maxCaptions == DefaultMaxCaptions
      ensures feed.enabled == config.enabled
      ensures feed.captions == [] && feed.currentInterim == None && feed.subscribers == {}
    {
      feed := new Feed(config.id, config.name, config.channel, config.vmixInput, DefaultMaxCaptions);
      feed.SetEnabled(config.enabled);
      if config.id !in feeds {
        order := order + [config.id];
      }
      feeds := feeds[config.id := feed];
    }

    /** `get_feed`: the registered feed of that id, if any. */
    function GetFeed(feedId: string): (r: Option<Feed>)
      reads this, feeds.Values
      requires Valid()
      ensures r.Some? <==> feedId in feeds
      ensures r.Some? ==> r.value in feeds.Values && r.value.id == feedId
    {
      if feedId in feeds then Some(feeds[feedId]) else None
    }

    /** `list_feeds`: every registered feed exactly once, in registration order. */
    function ListFeeds(): (r: seq<Feed>)
      reads this, feeds.Values
      requires Valid()
      ensures |r| == |order|
      ensures forall i | 0 <= i < |r| :: order[i] in feeds && r[i] == feeds[order[i]]
      ensures forall f | f in r :: f in feeds.Values
      ensures forall f | f in feeds.Values :: f in r
      ensures NoDuplicates(r)
    {
      ListedFeedsCoverRegistry(feeds, order);
      FeedsAt(feeds, order)
    }

    /** `get_enabled_feeds`: exactly the registered feeds that are enabled, in registration order. */
    function GetEnabledFeeds(): (r: seq<Feed>)
      reads this, feeds.Values
      requires Valid()
      ensures forall f | f in r :: f in feeds.Values && f.enabled
      ensures forall f | f in feeds.Values && f.enabled :: f in r
      ensures IsSubsequence(r, ListFeeds())
    {
      EnabledOnly(ListFeeds())
    }

    /** `remove_feed`: true and the id gone iff it was registered; nothing else changes. */
    method RemoveFeed(feedId: string) returns (removed: bool)
      requires Valid()
      modifies this
      ensures Valid()
      ensures removed == (feedId in old(feeds))
      ensures feeds == old(feeds) - {feedId}
      ensures order == RemoveFirst(old(order), feedId)
      ensures globalSubscribers == old(globalSubscribers)
    {
      if feedId in feeds {
        var rest := RemoveFirst(order, feedId);
        RemoveFirstOfDistinct(order, feedId);
        assert forall k :: k in feeds - {feedId} <==> k in rest;
        feeds := feeds - {feedId};
        order := rest;
        return true;
      }
      assert feedId !in order;
      return false;
    }

    /** `add_transcript`: only a registered, enabled feed takes the transcript; its caption then
        goes to every global subscriber in list order. Nothing happens otherwise. */
    method AddTranscript(feedId: string, t: Transcript, captionId: string,
                         raising: set<Callback>, globalRaising: set<Callback>)
      returns (result: Option<Caption>, deliveries: seq<Delivery>, calls: seq<GlobalCall>)
      requires Valid()
      modifies if feedId in feeds then {feeds[feedId]} else {}
      ensures Valid()
      ensures !(feedId in feeds && old(feeds[feedId].enabled)) ==>
                result == None && deliveries == [] && calls == []
      ensures feedId in feeds && !old(feeds[feedId].enabled) ==> unchanged(feeds[feedId])
      ensures feedId in feeds ==>
                feeds[feedId].subscribers == old(feeds[feedId].subscribers)
                && feeds[feedId].enabled == old(feeds[feedId].enabled)
      ensures feedId in feeds && old(feeds[feedId].enabled) ==>
                && result == Some(Caption(captionId, feedId, t.text, t.isFinal, t.timestamp, t.confidence))
                && feeds[feedId].State() == Ingest(old(feeds[feedId].State()), result.value, feeds[feedId].maxCaptions)
                && Recipients(deliveries) == feeds[feedId].subscribers
                && |deliveries| == |feeds[feedId].subscribers|
                && (forall d | d in deliveries :: d.caption == result.value && d.raised == (d.subscriber in raising))
                && |calls| == |globalSubscribers|
                && (forall i | 0 <= i < |calls| ::
                      calls[i] == GlobalCall(globalSubscribers[i], feedId, result.value, globalSubscribers[i] in globalRaising))
    {
      var found := GetFeed(feedId);
      if found.Some? && found.value.enabled {
        var feed := found.value;
        var caption;
        caption, deliveries := feed.AddTranscript(t, captionId, raising);
        calls := NotifyGlobal(feedId, caption, globalRaising);
        result := Some(caption);
      } else {
        result, deliveries, calls := None, [], [];
      }
    }

    /** The global-subscriber loop of `add_transcript`: each entry of the list is called once, in
        order (a callback listed twice is called twice); one that raises does not stop the rest. */
    method NotifyGlobal(feedId: string, caption: Caption, raising: set<Callback>) returns (calls: seq<GlobalCall>)
      ensures |calls| == |globalSubscribers|
      ensures forall i | 0 <= i < |calls| ::
                calls[i] == GlobalCall(globalSubscribers[i], feedId, caption, globalSubscribers[i] in raising)
    {
      calls := [];
      for i := 0 to |globalSubscribers|
        invariant |calls| == i
        invariant forall j | 0 <= j < i ::
                    calls[j] == GlobalCall(globalSubscribers[j], feedId, caption, globalSubscribers[j] in raising)
      {
        var cb := globalSubscribers[i];
        calls := calls + [GlobalCall(cb, feedId, caption, cb in raising)];
      }
    }

    /** `subscribe_all`: appends, so a callback may be listed twice. */
    method SubscribeAll(cb: Callback)
      modifies this`globalSubscribers
      ensures globalSubscribers == old(globalSubscribers) + [cb]
    {
      globalSubscribers := globalSubscribers + [cb];
    }

    /** `unsubscribe_all`: drops the first listing of `cb`, if any. */
    method UnsubscribeAll(cb: Callback)
      modifies this`globalSubscribers
      ensures globalSubscribers == RemoveFirst(old(globalSubscribers), cb)
      ensures cb !in old(globalSubscribers) ==> globalSubscribers == old(globalSubscribers)
    {
      if cb in globalSubscribers {
        globalSubscribers := RemoveFirst(globalSubscribers, cb);
      }
    }

    /** `clear_all`: forgets every feed; the global subscribers stay. */
    method ClearAll()
      modifies this`feeds, this`order
      ensures Valid()
      ensures feeds == map[] && order == []
    {
      feeds := map[];
      order := [];
    }
  }

  /** The feed-manager test, as a client of the class. */
  method ManagerScenario() {
    var manager := new FeedManager();
    var feed := manager.CreateFeed(FeedConfig("announcements", "Announcements", 0, "Ann_Caption", true));
    assert feed.id == "announcements";
    assert manager.GetFeed("announcements").Some?;
    assert |manager.ListFeeds()| == 1;
    var removed := manager.RemoveFeed("announcements");
    assert removed;
    assert manager.GetFeed("announcements") == None;
  }
}
