/**
 * The `Deribit` market-data client: its configuration at construction, the
 * subscription it sends once connected, and the `_last_msg_ts` state that
 * `process` reads and advances.
 */
module Platform {
  import opened Wrappers
  import opened Auth
  import opened Subscription
  import opened PyJson
  import opened Orderbook

  /** The endpoint used when the account entry names none. */
  const DefaultWss: string := "wss://hermes.deribit.com"

  /** The fields of the configured account entry for this platform. */
  datatype Account = Account(wss: Option<string>, accessKey: string, secretKey: string)

  predicate NoDuplicates(s: seq<string>) {
    forall i, j :: 0 <= i < j < |s| ==> s[i] != s[j]
  }

  /** `list(set(s))`: each element once; this model keeps first occurrences in order. */
  function Distinct(s: seq<string>): (r: seq<string>)
    ensures NoDuplicates(r)
    ensures forall x :: x in r <==> x in s
  {
    if s == [] then []
    else
      var rest := Distinct(s[..|s| - 1]);
      assert s == s[..|s| - 1] + [s[|s| - 1]];
      if s[|s| - 1] in rest then rest else rest + [s[|s| - 1]]
  }

  /** The start-up guard as intended: an endpoint and both credentials are set. */
  predicate CredentialsPresent(wss: string, accessKey: string, secretKey: string) {
    wss != "" && accessKey != "" && secretKey != ""
  }

  /** The start-up guard as written at deribit.py:40, which tests the access key twice. */
  predicate SourceGuard(wss: string, accessKey: string, secretKey: string) {
    !(wss == "" || accessKey == "" || accessKey == "")
  }

  /**
   * The written guard differs from the intended one exactly when the
   * endpoint and access key are set and the secret key is missing.
   */
  lemma SourceGuardIgnoresSecret(wss: string, accessKey: string, secretKey: string)
    ensures SourceGuard(wss, accessKey, secretKey) != CredentialsPresent(wss, accessKey, secretKey)
            <==> wss != "" && accessKey != "" && secretKey == ""
  {
  }

  /** A concrete configuration the written guard lets through with no secret key. */
  lemma SourceGuardAdmitsMissingSecret()
    ensures SourceGuard(DefaultWss, "key", "") && !CredentialsPresent(DefaultWss, "key", "")
  {
  }

  class Deribit {
    const platform: string
    const symbols: seq<string>
    const wss: string
    const accessKey: string
    const secretKey: string
    /** Whether the start-up guard passed and the websocket was set up. */
    const ready: bool
    /** `_last_msg_ts`: the time of the last published snapshot, or of construction. */
    var lastMsgTs: int
    /** The snapshots handed to the event bus, oldest first. */
    ghost var published: seq<Snapshot>
    /** The requests handed to the websocket, oldest first. */
    ghost var outbox: seq<Request>

    ghost predicate Valid()
      reads this
    {
      && NoDuplicates(symbols)
      && (ready ==> CredentialsPresent(wss, accessKey, secretKey))
      && (forall i, j :: 0 <= i < j < |published| ==> published[i].timestamp < published[j].timestamp)
      && (forall i :: 0 <= i < |published| ==> published[i].timestamp <= lastMsgTs)
      && (forall s :: s in published ==>
            s.platform == platform && |s.bids| <= BookDepth && |s.asks| <= BookDepth)
      && (forall req :: req in outbox ==>
            req.action == SubscribeUri && req.arguments == SubscribeArguments(symbols))
    }

    /**
     * `__init__`: `account` is the configured entry for `platform`, if any,
     * and `now` the clock at construction.
     */
    constructor (platform: string, symbols: seq<string>, account: Option<Account>, now: int)
      ensures this.platform == platform
      ensures NoDuplicates(this.symbols) && forall x :: x in this.symbols <==> x in symbols
      ensures account.None? ==> wss == "" && accessKey == "" && secretKey == ""
      ensures account.Some? ==>
                wss == account.value.wss.GetOr(DefaultWss)
                && accessKey == account.value.accessKey && secretKey == account.value.secretKey
      ensures ready <==> CredentialsPresent(wss, accessKey, secretKey)
      ensures lastMsgTs == now && published == [] && outbox == []
      ensures Valid()
    {
      this.platform := platform;
      this.symbols := Distinct(symbols);
      var wss, accessKey, secretKey := "", "", "";
      if account.Some? {
        wss := account.value.wss.GetOr(DefaultWss);
        accessKey := account.value.accessKey;
        secretKey := account.value.secretKey;
      }
      this.wss := wss;
      this.accessKey := accessKey;
      this.secretKey := secretKey;
      this.ready := CredentialsPresent(wss, accessKey, secretKey);
      this.lastMsgTs := now;
      this.published := [];
      this.outbox := [];
    }

    /**
     * `connected_callback`: signs and sends the order-book subscription,
     * with `nonceMs` the clock in milliseconds.
     */
    method ConnectedCallback(prims: Primitives, nonceMs: int) returns (req: Request)
      requires Valid() && ready
      modifies this`outbox
      ensures Valid()
      ensures req.id == RequestId && req.action == SubscribeUri
      ensures req.arguments == SubscribeArguments(symbols)
      ensures req.sig == Envelope(prims, accessKey, nonceMs,
                                  PreHash(nonceMs, req.action, req.arguments, accessKey, secretKey))
      ensures req == SubscribeRequest(prims, symbols, accessKey, secretKey, nonceMs)
      ensures secretKey != ""
      ensures outbox == old(outbox) + [req]
    {
      var uri := SubscribeUri;
      var params := SubscribeArguments(symbols);
      var sign := DeribitSignature(prims, nonceMs, uri, params, accessKey, secretKey);
      req := Request(RequestId, uri, params, sign);
      outbox := outbox + [req];
    }

    /**
     * `process`: gates, filters and normalises one message; `nowCheck` is
     * the clock read by the gate and `nowStore` the later read stored.
     */
    method Process(msg: Json, nowCheck: int, nowStore: int) returns (outcome: Outcome)
      requires Valid()
      requires nowCheck <= nowStore
      modifies this`lastMsgTs, this`published
      ensures Valid()
      ensures outcome == Handle(old(lastMsgTs), platform, msg, nowCheck, nowStore)
      ensures lastMsgTs == if outcome.Published? then nowStore else old(lastMsgTs)
      ensures old(lastMsgTs) <= lastMsgTs
      ensures published == old(published) + if outcome.Published? then [outcome.snapshot] else []
    {
      if nowCheck <= lastMsgTs {
        return Dropped(Stale);
      }
      if !msg.Object? {
        return Dropped(NotMapping);
      }
      var notifications := Get(msg, "notifications");
      if !Truthy(notifications) {
        return Dropped(NoNotifications);
      }
      var first := Index0(notifications);
      if first.Err? {
        return Raised(first.error);
      }
      if !first.value.Object? {
        return Raised(AttributeError);
      }
      var message := Get(first.value, "message");
      if message != Str(OrderBookEvent) {
        return Dropped(OtherEvent);
      }
      var result := Get(first.value, "result");
      if !result.Object? {
        return Raised(AttributeError);
      }
      var symbol := Get(result, "instrument");
      var bids := CollectLevels(Get(result, "bids"));
      if bids.Err? {
        return Raised(bids.error);
      }
      var asks := CollectLevels(Get(result, "asks"));
      if asks.Err? {
        return Raised(asks.error);
      }
      lastMsgTs := nowStore;
      var orderbook := Snapshot(platform, symbol, asks.value, bids.value, lastMsgTs);
      published := published + [orderbook];
      outcome := Published(orderbook);
    }
  }
}
