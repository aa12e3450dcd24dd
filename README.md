# Deribit order-book client — a Dafny model

This project models the core of `src/platforms/deribit.py`, the websocket client that subscribes to Deribit's
private order-book stream and republishes each book as a normalised snapshot. It covers three pieces:

- **Request signature** (`deribit_signature`). The pre-hash string is `_=<nonce>&_ackey=<key>&_acsec=<secret>&_action=<uri>`.
  One `&<key>=<values joined>` segment follows for each parameter, in ascending key order. The signature is
  `<key>.<nonce>.<base64(sha256(pre-hash))>`.
- **Subscription** (`connected_callback`). The client builds the request `{id, action, arguments, sig}`. It is
  signed over exactly the `arguments` and `action` it sends.
- **Message pipeline** (`process`). First the staleness gate on `_last_msg_ts`. Then the shape filter on the first
  notification. Then each side of the book is cut to 10 levels and each level is projected to `[price, quantity]`.
  Last, `_last_msg_ts` is advanced and the snapshot is published.

Modules, leaf first:

- `wrappers.dfy`: `Option` and `Result`.
- `pyjson.dfy`: decoded JSON values and the Python operations the client applies to them (`dict.get`, truthiness, `v[0]`, and the exceptions they raise).
- `text.dfy`: Python's `str` order, `sorted` over a key set, `"%s" % n` for an integer, and `"".join`.
- `auth.dfy`: the pre-hash string and `DeribitSignature`.
- `subscription.dfy`: the subscribe request and the exact string it signs.
- `orderbook.dfy`: the per-message pipeline as the function `Handle`, and the loop that builds one side of the book.
- `platform.dfy`: the class `Deribit`. It has the `lastMsgTs` field, the `ConnectedCallback` and `Process` methods, and ghost logs of what was sent and what was published.

SHA-256 and base64 are not re-implemented. They are the two fields of `Auth.Primitives`, so every result holds
for any hash and any encoding. The wall clock is a parameter:

- `Process` takes the gate's read `nowCheck` and the later stored read `nowStore`, with `nowCheck <= nowStore`.
- `ConnectedCallback` takes the millisecond nonce.
- The constructor takes the construction time.

Sending and publishing append to the ghost sequences `outbox` and `published`.

Some code paths raise a Python exception. `Process` then returns `Raised(e)` before it touches `lastMsgTs`, so the
state is unchanged. The exception class is the one Python 3.6 raises. For example, slicing a dict raises
`TypeError` there.

## Model

| member | source | states |
|---|---|---|
| `Text.SortedKeys` | src/platforms/deribit.py:107 | `sorted(params.keys())` lists exactly the keys of the map |
| `Text.SortedKeysAscending` | src/platforms/deribit.py:107 | that listing is strictly ascending in Python's `str` order |
| `Text.AscendingIsSortedKeys` | src/platforms/deribit.py:107 | any strictly ascending listing of the key set is that listing, so the order never depends on how the map was built |
| `Text.BelowTotal` | src/platforms/deribit.py:107 | Python's `str` order is total: two distinct strings are ordered one way or the other |
| `Text.BelowTransitive` | src/platforms/deribit.py:107 | Python's `str` order is transitive |
| `Text.IntText` | src/platforms/deribit.py:106 | `"%s" % nonce` is non-empty and made of digits and a minus sign only, so it holds no `&` |
| `Text.IntTextRoundTrip` | src/platforms/deribit.py:106 | parsing `"%s" % n` back gives `n` |
| `Auth.DeribitSignature` | src/platforms/deribit.py:103-109 | the result is `access_key + "." + nonce + "." + b64(sha256(p))`, where `p` is the fixed head followed by the sorted-key segments; it is a function of its five inputs and the two primitives |
| `Auth.AppendSegments` | src/platforms/deribit.py:107-108 | the `+=` loop leaves the head followed by one `&key=joined values` segment per key, in the order the keys are visited |
| `Auth.SortedAround` | src/platforms/deribit.py:107 | the sorted keys are the sorted keys below `k`, then `k`, then the sorted keys above `k` |
| `Auth.SegmentPlacement` | src/platforms/deribit.py:106-108 | the pre-hash string is the head, then the segments of the keys below `k`, then `k`'s own segment, then the segments of the keys above `k` |
| `Auth.NonceField` | src/platforms/deribit.py:106 | the pre-hash string has the nonce's digits right after `_=`, followed by the first `&` |
| `Auth.PreHashDeterminesNonce` | src/platforms/deribit.py:52-58 | two pre-hash strings with different nonces differ, whatever else they carry |
| `Auth.EnvelopeDeterminesNonce` | src/platforms/deribit.py:109 | for one access key, equal signatures have equal nonces: the nonce is printed in clear between the two dots, whatever the hash and encoding |
| `Subscription.SubscribeKeysSorted` | src/platforms/deribit.py:54-57 | the subscription's keys sort as `event`, then `instrument` |
| `Subscription.SubscribeSegments` | src/platforms/deribit.py:54-57 | the subscription's segments are the `event` segment followed by the `instrument` segment |
| `Subscription.EventSegmentText` | src/platforms/deribit.py:56 | the `event` segment reads `&event=order_book` |
| `Subscription.SubscribeRequest` | src/platforms/deribit.py:52-64 | the request sent for a nonce has action `/api/v1/private/subscribe` and arguments `{instrument: symbols, event: ["order_book"]}`; its `sig` is the signature over that action and those arguments |
| `Subscription.ResubscribeDiffers` | src/platforms/deribit.py:52-65 | two subscriptions with different nonces are different requests with different `sig`s, the same action and the same arguments, so each reconnect sends a new request |
| `Subscription.SubscribePreHash` | src/platforms/deribit.py:52-63 | the signed string is the head with action `/api/v1/private/subscribe`, then `&event=order_book`, then `&instrument=` and the instrument names joined with no separator |
| `Orderbook.Project` | src/platforms/deribit.py:85-91 | projecting entries succeeds exactly when every entry is a mapping; the result has one `[price, quantity]` level per entry, in order; otherwise it raises AttributeError |
| `Orderbook.Levels` | src/platforms/deribit.py:85-91 | `side[:10]` projected has at most 10 levels; for a list it succeeds exactly when its first `min(10, n)` entries are mappings, and then it is their projections in order; only a list or the empty string succeed |
| `Orderbook.CollectLevels` | src/platforms/deribit.py:84-91 | the append loop produces exactly `Levels(side)`, including the exception |
| `Orderbook.Normalize` | src/platforms/deribit.py:83-99 | a snapshot is published exactly when `result` is a mapping and both sides slice and project; it then carries the platform, `result.instrument`, both sides and the timestamp; no path drops silently |
| `Orderbook.Handle` | src/platforms/deribit.py:72-99 | a message is dropped if `now <= last`, whatever it holds; a non-mapping is dropped; falsy `notifications` are dropped; a published snapshot is stamped with the stored time, carries the platform and has at most 10 levels a side |
| `Orderbook.OnlyFirstNotificationRead` | src/platforms/deribit.py:76-83 | two messages whose notification lists share their first element fare alike |
| `Orderbook.OtherEventDropped` | src/platforms/deribit.py:79-81 | a fresh message whose first notification's `message` is not `order_book_event` is dropped |
| `Orderbook.PublishedFromFirstNotification` | src/platforms/deribit.py:76-99 | a published snapshot comes from a non-empty notification list whose first element is an order-book event; its symbol is `result.instrument`; each side is the first `min(10, n)` source entries in order, projected |
| `Orderbook.OnePerClockTick` | src/platforms/deribit.py:72-73 | after a publish at time `t`, a message whose gate read is at most `t` is stale, and one read later passes the gate |
| `Orderbook.SingleLevelExample` | src/platforms/deribit.py:68-100 | a one-bid, one-ask order-book event publishes `bids [[100, 1]]`, `asks [[101, 2]]`, symbol `BTC-PERP` and the current time |
| `Platform.Distinct` | src/platforms/deribit.py:29 | `list(set(symbols))` has no duplicates and the same elements as `symbols` |
| `Platform.SourceGuardIgnoresSecret` | src/platforms/deribit.py:40 | the written guard differs from the intended one exactly when the endpoint and access key are set and the secret key is missing |
| `Platform.SourceGuardAdmitsMissingSecret` | src/platforms/deribit.py:40 | the written guard accepts an account with an empty secret key |
| `Platform.Deribit.constructor` | src/platforms/deribit.py:26-42 | symbols are deduplicated; the endpoint defaults to `wss://hermes.deribit.com`; `lastMsgTs` starts at the construction time; the client is ready only when the endpoint and both keys are set |
| `Platform.Deribit.ConnectedCallback` | src/platforms/deribit.py:49-65 | the request has id `huangtao` and action `/api/v1/private/subscribe`; its arguments are `{instrument: symbols, event: ["order_book"]}`; its `sig` is computed over those arguments and that action; the request is `SubscribeRequest` for the given nonce; it is appended to the outbox |
| `Platform.Deribit.Process` | src/platforms/deribit.py:68-100 | the outcome is `Handle` of the old `lastMsgTs`; `lastMsgTs` moves to the stored time only on publish; `published` grows by that snapshot only; published timestamps stay strictly increasing and within 10 levels a side |

## Findings

| source | as written | input that shows it | evidently intended | confidence | as-written member | corrected member |
|---|---|---|---|---|---|---|
| src/platforms/deribit.py:40 | the guard tests `not self._access_key` twice and never tests `_secret_key` | an account entry with `wss` and `access_key` set and `secret_key` empty: the guard passes, and the subscription is later signed with an empty secret | the third operand tests `self._secret_key` | high; not executed | `Platform.SourceGuardAdmitsMissingSecret` | `Platform.Deribit.constructor` |

The class uses the corrected guard. `ready` holds only when the endpoint and both keys are set, so
`ConnectedCallback` never signs with an empty secret. `SourceGuard` and the two lemmas about it keep the guard as it
is written.

## Left out

- Websocket transport and lifecycle are not modelled. This covers the `Websocket` base class, the URL `wss + "/ws/api/v1/"`, `initialize`, the heartbeat message and `ws.send_json` (deribit.py:44-47, :65). Sending is the ghost `outbox`.
- The loop over `config.accounts` (deribit.py:35-39) reads global configuration. The constructor takes the matching entry as `account`, or `None` when there is none.
- `_channels` (deribit.py:30) is stored and never read.
- `EventOrderbook(...).publish()` and all `logger` calls (deribit.py:41, :66, :100-101) are foreign calls. Publishing is the ghost `published`.
- SHA-256 and base64 (deribit.py:109) are uninterpreted parameters. So the model cannot show that a change to the secret changes the signature. It only fixes the exact string that is hashed.
- `tools.get_cur_timestamp` and `get_cur_timestamp_ms` are clock reads, taken as parameters. `Process` assumes the second read is not earlier than the first.
- `async`/`await` carries no concurrency here. Both callbacks are sequential methods.
- Platform.Distinct: Python's `set` iteration order is unspecified, and this model fixes one order (first occurrences). The constructor's contract promises only "no duplicates, same elements".
- Parameter values are lists of strings. `"".join` of a bare string gives the same text and is not modelled separately.
- JSON numbers are Dafny `real`s. They are copied into snapshots unchanged and never computed with.
