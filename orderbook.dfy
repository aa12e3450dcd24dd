/**
 * What `Deribit.process` does with one inbound message: the staleness gate,
 * the shape filter on the first notification, and the normalisation of its
 * `result` into a snapshot holding at most ten levels per side.
 */
module Orderbook {
  import opened Wrappers
  import opened PyJson

  /** Levels kept per side of the book. */
  const BookDepth: nat := 10

  /** The `message` tag of an order-book notification. */
  const OrderBookEvent: string := "order_book_event"

  /** One published level: `[item.get("price"), item.get("quantity")]`. */
  datatype Level = Level(price: Json, quantity: Json)

  /** The published order book, with the field names the event bus expects. */
  datatype Snapshot = Snapshot(platform: string, symbol: Json, asks: seq<Level>, bids: seq<Level>, timestamp: int)

  /** Why a message was dropped without publishing. */
  datatype Drop = Stale | NotMapping | NoNotifications | OtherEvent

  /** The end of one `process` call: dropped, an exception, or a published snapshot. */
  datatype Outcome = Dropped(reason: Drop) | Raised(error: PyError) | Published(snapshot: Snapshot)

  function Min(a: int, b: int): int {
    if a <= b then a else b
  }

  /** The level read from one source entry. */
  function Entry(item: Json): Level
    requires item.Object?
  {
    Level(Get(item, "price"), Get(item, "quantity"))
  }

  /**
   * The levels of a list of entries, each projected to price and quantity;
   * an entry that is not a mapping raises AttributeError at its `.get`.
   */
  function Project(items: seq<Json>): (r: Result<seq<Level>, PyError>)
    ensures r.Ok? <==> forall i :: 0 <= i < |items| ==> items[i].Object?
    ensures r.Err? ==> r.error == AttributeError
    ensures r.Ok? ==> |r.value| == |items|
                      && forall i :: 0 <= i < |items| ==> items[i].Object? && r.value[i] == Entry(items[i])
  {
    if items == [] then Ok([])
    else
      var last := items[|items| - 1];
      match Project(items[..|items| - 1])
      case Err(e) => Err(e)
      case Ok(levels) => if last.Object? then Ok(levels + [Entry(last)]) else Err(AttributeError)
  }

  /**
   * One side of the book, `result.get(side)[:10]` projected entry by entry:
   * a list keeps its first ten entries in the order received; an empty
   * string slices to nothing; a non-empty string yields a one-character
   * string with no `.get`; None, a number, a boolean or a mapping cannot be
   * sliced.
   */
  function Levels(side: Json): (r: Result<seq<Level>, PyError>)
    ensures r.Ok? ==> |r.value| <= BookDepth
    ensures r.Ok? ==> side.Array? || side == Str("")
    ensures side.Array? ==>
              (r.Ok? <==> forall i :: 0 <= i < Min(BookDepth, |side.items|) ==> side.items[i].Object?)
    ensures side.Array? && r.Ok? ==>
              |r.value| == Min(BookDepth, |side.items|)
              && forall i :: 0 <= i < |r.value| ==> side.items[i].Object? && r.value[i] == Entry(side.items[i])
  {
    match side
    case Array(items) => Project(items[..Min(BookDepth, |items|)])
    case Str(s) => if s == "" then Ok([]) else Err(AttributeError)
    case Null => Err(TypeError)
    case Bool(_) => Err(TypeError)
    case Number(_) => Err(TypeError)
    case Object(_) => Err(TypeError)
  }

  /** The loop of `process` that builds one side of the book, entry by entry. */
  method CollectLevels(side: Json) returns (r: Result<seq<Level>, PyError>)
    ensures r == Levels(side)
  {
    match side {
      case Array(items) =>
        var head := items[..Min(BookDepth, |items|)];
        var levels: seq<Level> := [];
        for i := 0 to |head|
          invariant Project(head[..i]) == Ok(levels)
        {
          var item := head[i];
          assert head[..i + 1][..i] == head[..i];
          if !item.Object? {
            return Err(AttributeError);
          }
          levels := levels + [Level(Get(item, "price"), Get(item, "quantity"))];
        }
        assert head[..|head|] == head;
        r := Ok(levels);
      case Str(s) =>
        r := if s == "" then Ok([]) else Err(AttributeError);
      case Null =>
        r := Err(TypeError);
      case Bool(_) =>
        r := Err(TypeError);
      case Number(_) =>
        r := Err(TypeError);
      case Object(_) =>
        r := Err(TypeError);
    }
  }

  /**
   * Normalises the first notification's `result` into a snapshot stamped
   * `timestamp`; `result` must be a mapping, and its bids and asks must
   * slice and project.
   */
  function Normalize(result: Json, platform: string, timestamp: int): (r: Outcome)
    ensures r.Published? <==>
              result.Object? && Levels(Get(result, "bids")).Ok? && Levels(Get(result, "asks")).Ok?
    ensures r.Published? ==>
              result.Object?
              && r.snapshot == Snapshot(platform, Get(result, "instrument"),
                                        Levels(Get(result, "asks")).value,
                                        Levels(Get(result, "bids")).value, timestamp)
    ensures r.Raised? ==> r.error != KeyError && r.error != IndexError
    ensures !r.Dropped?
  {
    if !result.Object? then Raised(AttributeError)
    else
      var symbol := Get(result, "instrument");
      match Levels(Get(result, "bids"))
      case Err(e) => Raised(e)
      case Ok(bids) =>
        match Levels(Get(result, "asks"))
        case Err(e) => Raised(e)
        case Ok(asks) => Published(Snapshot(platform, symbol, asks, bids, timestamp))
  }

  /**
   * What one `process` call does with `msg`, given the last accepted time
   * `lastTs`, the clock read by the gate (`nowCheck`) and the clock read
   * when storing (`nowStore`).
   */
  function Handle(lastTs: int, platform: string, msg: Json, nowCheck: int, nowStore: int): (r: Outcome)
    ensures nowCheck <= lastTs ==> r == Dropped(Stale)
    ensures lastTs < nowCheck && !msg.Object? ==> r == Dropped(NotMapping)
    ensures lastTs < nowCheck && msg.Object? && !Truthy(Get(msg, "notifications")) ==> r == Dropped(NoNotifications)
    ensures r.Published? ==>
              lastTs < nowCheck && r.snapshot.timestamp == nowStore && r.snapshot.platform == platform
              && |r.snapshot.bids| <= BookDepth && |r.snapshot.asks| <= BookDepth
  {
    if nowCheck <= lastTs then Dropped(Stale)
    else if !msg.Object? then Dropped(NotMapping)
    else
      var notifications := Get(msg, "notifications");
      if !Truthy(notifications) then Dropped(NoNotifications)
      else
        match Index0(notifications)
        case Err(e) => Raised(e)
        case Ok(first) =>
          if !first.Object? then Raised(AttributeError)
          else if Get(first, "message") != Str(OrderBookEvent) then Dropped(OtherEvent)
          else Normalize(Get(first, "result"), platform, nowStore)
  }

  /** The first notification of a message whose `notifications` is a non-empty list. */
  function FirstNotification(msg: Json): Json
    requires msg.Object? && Get(msg, "notifications").Array? && Get(msg, "notifications").items != []
  {
    Get(msg, "notifications").items[0]
  }

  /**
   * Only `notifications[0]` is consulted: two mappings whose notification
   * lists share their first element fare alike, whatever follows it and
   * whatever other keys they carry.
   */
  lemma OnlyFirstNotificationRead(lastTs: int, platform: string, m1: Json, m2: Json,
                                  nowCheck: int, nowStore: int, first: Json, rest1: seq<Json>, rest2: seq<Json>)
    requires m1.Object? && m2.Object?
    requires Get(m1, "notifications") == Array([first] + rest1)
    requires Get(m2, "notifications") == Array([first] + rest2)
    ensures Handle(lastTs, platform, m1, nowCheck, nowStore) == Handle(lastTs, platform, m2, nowCheck, nowStore)
  {
  }

  /** A fresh mapping whose first notification carries another tag is dropped. */
  lemma OtherEventDropped(lastTs: int, platform: string, msg: Json, nowCheck: int, nowStore: int)
    requires lastTs < nowCheck && msg.Object?
    requires Get(msg, "notifications").Array? && Get(msg, "notifications").items != []
    requires FirstNotification(msg).Object? && Get(FirstNotification(msg), "message") != Str(OrderBookEvent)
    ensures Handle(lastTs, platform, msg, nowCheck, nowStore) == Dropped(OtherEvent)
  {
  }

  /**
   * A published snapshot comes from a mapping whose first notification is an
   * order-book event: its symbol is `result.instrument`, and each side is the
   * first `min(10, n)` entries of the source list, in order, projected to
   * price and quantity (a side given as the empty string is empty).
   */
  lemma PublishedFromFirstNotification(lastTs: int, platform: string, msg: Json,
                                       nowCheck: int, nowStore: int)
    requires Handle(lastTs, platform, msg, nowCheck, nowStore).Published?
    ensures msg.Object? && Get(msg, "notifications").Array? && Get(msg, "notifications").items != []
    ensures var first := FirstNotification(msg);
            var s := Handle(lastTs, platform, msg, nowCheck, nowStore).snapshot;
            first.Object? && Get(first, "message") == Str(OrderBookEvent)
            && Get(first, "result").Object?
            && s.symbol == Get(Get(first, "result"), "instrument")
            && SideFrom(s.bids, Get(Get(first, "result"), "bids"))
            && SideFrom(s.asks, Get(Get(first, "result"), "asks"))
  {
  }

  /** `levels` is the truncated, projected copy of the source side `src`. */
  predicate SideFrom(levels: seq<Level>, src: Json) {
    if src.Array? then
      |levels| == Min(BookDepth, |src.items|)
      && forall i :: 0 <= i < |levels| ==> src.items[i].Object? && levels[i] == Entry(src.items[i])
    else
      src == Str("") && levels == []
  }

  /**
   * The gate throttles to one snapshot per clock value: once a message is
   * published at `t`, any message whose gate read is at most `t` is stale,
   * and the gate lets through any message read later.
   */
  lemma OnePerClockTick(lastTs: int, platform: string, m1: Json, c1: int, t: int,
                        m2: Json, c2: int, s2: int)
    requires Handle(lastTs, platform, m1, c1, t).Published?
    ensures c2 <= t ==> Handle(t, platform, m2, c2, s2) == Dropped(Stale)
    ensures t < c2 ==> Handle(t, platform, m2, c2, s2) != Dropped(Stale)
  {
  }

  /** The documented example: one bid and one ask, published as is. */
  lemma SingleLevelExample(lastTs: int, platform: string, now: int)
    requires lastTs < now
    ensures var bid := Object(map["price" := Number(100.0), "quantity" := Number(1.0)]);
            var ask := Object(map["price" := Number(101.0), "quantity" := Number(2.0)]);
            var result := Object(map["instrument" := Str("BTC-PERP"), "bids" := Array([bid]), "asks" := Array([ask])]);
            var msg := Object(map["notifications" := Array([Object(map["message" := Str(OrderBookEvent), "result" := result])])]);
            Handle(lastTs, platform, msg, now, now)
              == Published(Snapshot(platform, Str("BTC-PERP"),
                                    [Level(Number(101.0), Number(2.0))],
                                    [Level(Number(100.0), Number(1.0))], now))
  {
  }
}
