/**
 * The subscribe request `connected_callback` sends once the websocket is
 * up: a private order-book subscription for the configured instruments,
 * signed over exactly the arguments it carries.
 */
module Subscription {
  import opened Text
  import opened Auth

  /** The id the client puts on every request. */
  const RequestId: string := "huangtao"

  /** The action URI of a private subscription. */
  const SubscribeUri: string := "/api/v1/private/subscribe"

  /** The one event type subscribed to. */
  const OrderBookEventType: string := "order_book"

  /** The request as sent, with the field names `id`, `action`, `arguments` and `sig`. */
  datatype Request = Request(id: string, action: string, arguments: Params, sig: string)

  /** The `arguments` map: the instruments, and the order-book event. */
  function SubscribeArguments(symbols: seq<string>): Params {
    map["instrument" := symbols, "event" := [OrderBookEventType]]
  }

  lemma SubscribeKeysSorted(symbols: seq<string>)
    ensures SortedKeys(SubscribeArguments(symbols).Keys) == ["event", "instrument"]
  {
    var ks := ["event", "instrument"];
    assert Below("event", "instrument") by {
      assert "event"[0] < "instrument"[0];
    }
    assert SubscribeArguments(symbols).Keys == {"event", "instrument"};
    AscendingIsSortedKeys(SubscribeArguments(symbols).Keys, ks);
  }

  lemma EventSegmentText()
    ensures Segment("event", [OrderBookEventType]) == "&event=order_book"
  {
    assert Join([OrderBookEventType]) == OrderBookEventType + Join([]);
  }

  lemma SubscribeSegments(symbols: seq<string>)
    ensures Segments(SubscribeArguments(symbols), ["event", "instrument"])
              == Segment("event", [OrderBookEventType]) + Segment("instrument", symbols)
  {
    var params := SubscribeArguments(symbols);
    assert params["event"] == [OrderBookEventType] && params["instrument"] == symbols;
    assert ["event", "instrument"][..1] == ["event"] && ["event"][..0] == [];
    assert Segments(params, ["event"]) == Segment("event", [OrderBookEventType]);
    assert Segments(params, ["event", "instrument"]) == Segments(params, ["event"]) + Segment("instrument", symbols);
  }

  /** The request `connected_callback` sends for `symbols` with nonce `nonce`. */
  function SubscribeRequest(prims: Primitives, symbols: seq<string>, accessKey: string,
                            accessSecret: string, nonce: int): (req: Request)
    ensures req.action == SubscribeUri && req.arguments == SubscribeArguments(symbols)
    ensures req.sig == Envelope(prims, accessKey, nonce,
                                PreHash(nonce, req.action, req.arguments, accessKey, accessSecret))
  {
    var params := SubscribeArguments(symbols);
    Request(RequestId, SubscribeUri, params,
            Envelope(prims, accessKey, nonce, PreHash(nonce, SubscribeUri, params, accessKey, accessSecret)))
  }

  /**
   * Re-subscribing on a new connection with a new nonce sends a different
   * request with the same action and arguments.
   */
  lemma ResubscribeDiffers(prims: Primitives, symbols: seq<string>, accessKey: string,
                           accessSecret: string, n1: int, n2: int)
    requires n1 != n2
    ensures var r1 := SubscribeRequest(prims, symbols, accessKey, accessSecret, n1);
            var r2 := SubscribeRequest(prims, symbols, accessKey, accessSecret, n2);
            r1 != r2 && r1.sig != r2.sig && r1.action == r2.action && r1.arguments == r2.arguments
  {
    var r1 := SubscribeRequest(prims, symbols, accessKey, accessSecret, n1);
    var r2 := SubscribeRequest(prims, symbols, accessKey, accessSecret, n2);
    if r1.sig == r2.sig {
      EnvelopeDeterminesNonce(prims, accessKey, n1, n2,
                              PreHash(n1, SubscribeUri, r1.arguments, accessKey, accessSecret),
                              PreHash(n2, SubscribeUri, r2.arguments, accessKey, accessSecret));
    }
  }

  /**
   * The string signed for a subscription: `event` sorts before `instrument`
   * however the map was built, so the order-book segment comes first and the
   * instrument names follow, joined with no separator.
   */
  lemma SubscribePreHash(nonce: int, accessKey: string, accessSecret: string, symbols: seq<string>)
    ensures PreHash(nonce, SubscribeUri, SubscribeArguments(symbols), accessKey, accessSecret)
              == Head(nonce, SubscribeUri, accessKey, accessSecret)
                 + (Segment("event", [OrderBookEventType]) + Segment("instrument", symbols))
  {
    var params := SubscribeArguments(symbols);
    SubscribeKeysSorted(symbols);
    assert PreHash(nonce, SubscribeUri, params, accessKey, accessSecret)
             == Head(nonce, SubscribeUri, accessKey, accessSecret) + Segments(params, ["event", "instrument"]);
    SubscribeSegments(symbols);
  }
}
