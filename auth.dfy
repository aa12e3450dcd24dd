/**
 * The request signature of `Deribit.deribit_signature`: a canonical
 * pre-hash string over the credentials, the nonce, the action URI and the
 * parameters in ascending key order, hashed and wrapped as
 * `access_key.nonce.digest`.
 */
module Auth {
  import opened Text

  /** Request parameters: each key maps to the list of strings sent under it. */
  type Params = map<string, seq<string>>

  /**
   * The library primitives the signature uses, left uninterpreted:
   * `sha256` stands for `hashlib.sha256(s.encode()).digest()` and
   * `b64encode` for `base64.b64encode(d).decode()`.
   */
  datatype Primitives = Primitives(sha256: string -> seq<bv8>, b64encode: seq<bv8> -> string)

  /** The fixed head of the pre-hash string. */
  function Head(nonce: int, uri: string, accessKey: string, accessSecret: string): string {
    "_=" + IntText(nonce) + "&_ackey=" + accessKey + "&_acsec=" + accessSecret + "&_action=" + uri
  }

  /** One parameter's segment: `&key=` followed by its values joined with no separator. */
  function Segment(key: string, values: seq<string>): string {
    "&" + key + "=" + Join(values)
  }

  /** The segments of `keys`, in the order given. */
  function Segments(params: Params, keys: seq<string>): string
    requires forall k :: k in keys ==> k in params
  {
    if keys == [] then ""
    else Segments(params, keys[..|keys| - 1]) + Segment(keys[|keys| - 1], params[keys[|keys| - 1]])
  }

  /** The string that is hashed: the head, then every parameter in ascending key order. */
  function PreHash(nonce: int, uri: string, params: Params, accessKey: string, accessSecret: string): string {
    Head(nonce, uri, accessKey, accessSecret) + Segments(params, SortedKeys(params.Keys))
  }

  /** The three-part signature `access_key.nonce.digest` of a pre-hash string. */
  function Envelope(prims: Primitives, accessKey: string, nonce: int, preHash: string): string {
    accessKey + "." + IntText(nonce) + "." + prims.b64encode(prims.sha256(preHash))
  }

  /** `deribit_signature`: builds the pre-hash string by a loop over the sorted keys. */
  method DeribitSignature(prims: Primitives, nonce: int, uri: string, params: Params,
                          accessKey: string, accessSecret: string) returns (sig: string)
    ensures sig == Envelope(prims, accessKey, nonce, PreHash(nonce, uri, params, accessKey, accessSecret))
  {
    var sign := Head(nonce, uri, accessKey, accessSecret);
    var keys := SortedKeys(params.Keys);
    sign := AppendSegments(sign, params, keys);
    sig := accessKey + "." + IntText(nonce) + "." + prims.b64encode(prims.sha256(sign));
  }

  method AppendSegments(head: string, params: Params, keys: seq<string>) returns (sign: string)
    requires forall k :: k in keys ==> k in params
    ensures sign == head + Segments(params, keys)
  {
    sign := head;
    for i := 0 to |keys|
      invariant sign == head + Segments(params, keys[..i])
    {
      var key := keys[i];
      assert keys[..i + 1][..i] == keys[..i];
      sign := sign + ("&" + key + "=" + Join(params[key]));
    }
    assert keys[..|keys|] == keys;
  }

  lemma {:induction false} SegmentsAppend(params: Params, a: seq<string>, b: seq<string>)
    requires forall k :: k in a + b ==> k in params
    ensures Segments(params, a + b) == Segments(params, a) + Segments(params, b)
    decreases |b|
  {
    if b != [] {
      var b' := b[..|b| - 1];
      assert (a + b)[..|a + b| - 1] == a + b';
      SegmentsAppend(params, a, b');
    } else {
      assert a + b == a;
    }
  }

  lemma AscendingAround(lo: seq<string>, k: string, hi: seq<string>)
    requires Ascending(lo) && Ascending(hi)
    requires forall x :: x in lo ==> Below(x, k)
    requires forall x :: x in hi ==> Below(k, x)
    ensures Ascending(lo + [k] + hi)
  {
    var ks := lo + [k] + hi;
    forall i, j | 0 <= i < j < |ks|
      ensures Below(ks[i], ks[j])
    {
      if j < |lo| {
        assert ks[i] == lo[i] && ks[j] == lo[j];
      } else if i < |lo| && j == |lo| {
        assert ks[i] == lo[i];
      } else if i < |lo| {
        assert ks[i] == lo[i] && ks[j] == hi[j - |lo| - 1];
        BelowTransitive(ks[i], k, ks[j]);
      } else if i == |lo| {
        assert ks[j] == hi[j - |lo| - 1];
      } else {
        assert ks[i] == hi[i - |lo| - 1] && ks[j] == hi[j - |lo| - 1];
      }
    }
  }

  /** The keys of a set, split around one of them, sorted. */
  lemma SortedAround(keys: set<string>, k: string, lower: set<string>, upper: set<string>)
    requires k in keys
    requires forall j :: j in lower <==> j in keys && Below(j, k)
    requires forall j :: j in upper <==> j in keys && Below(k, j)
    ensures SortedKeys(keys) == SortedKeys(lower) + [k] + SortedKeys(upper)
  {
    var lo, hi := SortedKeys(lower), SortedKeys(upper);
    SortedKeysAscending(lower);
    SortedKeysAscending(upper);
    AscendingAround(lo, k, hi);
    var ks := lo + [k] + hi;
    forall j
      ensures j in ks <==> j in keys
    {
      if j in keys {
        BelowTotal(j, k);
      }
    }
    AscendingIsSortedKeys(keys, ks);
  }

  /** Split around a key, the segments of the sorted keys are those below it, its own, then those above it. */
  lemma SegmentsAround(params: Params, k: string, lower: set<string>, upper: set<string>)
    requires k in params
    requires forall j :: j in lower <==> j in params && Below(j, k)
    requires forall j :: j in upper <==> j in params && Below(k, j)
    ensures Segments(params, SortedKeys(params.Keys))
              == Segments(params, SortedKeys(lower)) + Segment(k, params[k]) + Segments(params, SortedKeys(upper))
  {
    var lo, hi := SortedKeys(lower), SortedKeys(upper);
    SortedAround(params.Keys, k, lower, upper);
    SegmentsAppend(params, lo + [k], hi);
    SegmentsAppend(params, lo, [k]);
    assert [k][..0] == [];
  }

  /** The parameter keys that sort below `k`. */
  function KeysBelow(params: Params, k: string): (lower: set<string>)
    ensures forall j :: j in lower <==> j in params && Below(j, k)
  {
    set j | j in params && Below(j, k)
  }

  /** The parameter keys that sort above `k`. */
  function KeysAbove(params: Params, k: string): (upper: set<string>)
    ensures forall j :: j in upper <==> j in params && Below(k, j)
  {
    set j | j in params && Below(k, j)
  }

  /**
   * Wherever a key was inserted, its segment comes after the segments of
   * exactly the keys that sort below it and before those that sort above it.
   */
  lemma SegmentPlacement(nonce: int, uri: string, params: Params, accessKey: string,
                         accessSecret: string, k: string)
    requires k in params
    ensures PreHash(nonce, uri, params, accessKey, accessSecret)
              == Head(nonce, uri, accessKey, accessSecret)
                 + (Segments(params, SortedKeys(KeysBelow(params, k))) + Segment(k, params[k])
                    + Segments(params, SortedKeys(KeysAbove(params, k))))
  {
    SegmentsAround(params, k, KeysBelow(params, k), KeysAbove(params, k));
  }

  /** In the pre-hash string the nonce's digits sit between `_=` and the first `&`. */
  lemma NonceField(nonce: int, uri: string, params: Params, accessKey: string, accessSecret: string)
    ensures var s, t := PreHash(nonce, uri, params, accessKey, accessSecret), IntText(nonce);
            |s| > 2 + |t| && s[2 + |t|] == '&' && forall i :: 0 <= i < |t| ==> s[2 + i] == t[i]
  {
  }

  /**
   * The nonce can be read back from the pre-hash string: two requests
   * signed with different nonces hash different strings, whatever else they
   * carry.
   */
  lemma PreHashDeterminesNonce(n1: int, uri1: string, p1: Params, key1: string, secret1: string,
                               n2: int, uri2: string, p2: Params, key2: string, secret2: string)
    requires PreHash(n1, uri1, p1, key1, secret1) == PreHash(n2, uri2, p2, key2, secret2)
    ensures n1 == n2
  {
    var t1, t2 := IntText(n1), IntText(n2);
    NonceField(n1, uri1, p1, key1, secret1);
    NonceField(n2, uri2, p2, key2, secret2);
    assert t1 == t2;
    IntTextInjective(n1, n2);
  }

  /** The signature text itself carries the nonce, between the two dots after the access key. */
  lemma EnvelopeDeterminesNonce(prims: Primitives, accessKey: string, n1: int, n2: int,
                                preHash1: string, preHash2: string)
    requires Envelope(prims, accessKey, n1, preHash1) == Envelope(prims, accessKey, n2, preHash2)
    ensures n1 == n2
  {
    var t1, t2 := IntText(n1), IntText(n2);
    var e1, e2 := Envelope(prims, accessKey, n1, preHash1), Envelope(prims, accessKey, n2, preHash2);
    var o := |accessKey| + 1;
    assert forall i :: 0 <= i < |t1| ==> e1[o + i] == t1[i];
    assert forall i :: 0 <= i < |t2| ==> e2[o + i] == t2[i];
    assert e1[o + |t1|] == '.' && e2[o + |t2|] == '.';
    assert t1 == t2;
    IntTextInjective(n1, n2);
  }
}
