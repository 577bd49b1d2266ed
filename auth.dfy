/**
 * Webhook signature verification. The `layercode-signature` header has the
 * form `t=<timestamp>,v1=<hex digest>`; the digest is an HMAC-SHA256, keyed
 * by the webhook secret, of `<timestamp text>.<body>`.
 *
 * The HMAC is a parameter `mac(secret, message)` returning the hex digest,
 * and the current time is a parameter `now`, in whole seconds.
 */
module Auth {
  import opened Wrappers
  import opened Text

  const DefaultTolerance: int := 300

  const MalformedHeader: string := "Malformed signature header"
  const MissingFields: string := "Signature header missing required fields"
  const InvalidTimestamp: string := "Invalid timestamp in signature header"
  const OutsideTolerance: string := "Signature timestamp outside tolerance window"
  const SignatureMismatch: string := "Signature mismatch"

  /** `InvalidSignatureError(reason)`. */
  datatype InvalidSignature = InvalidSignature(reason: string)

  /** `str()` of the error, as the webhook reports it. */
  function Describe(e: InvalidSignature): string {
    "Invalid signature: " + e.reason
  }

  /**
   * Why verification did not return normally: a rejection, or the `TypeError`
   * that `hmac.compare_digest` raises when either string is not ASCII.
   */
  datatype VerifyError = Rejected(error: InvalidSignature) | NonAsciiDigest

  /** `hmac.new(secret, message, sha256).hexdigest()`, supplied by the caller. */
  type Mac = (string, string) -> string

  function Abs(x: int): nat {
    if x < 0 then -x else x
  }

  predicate IsAscii(s: string) {
    forall i | 0 <= i < |s| :: s[i] < 128 as char
  }

  /** `item.split("=", 1)` for each item; `None` when an item has no `=` (the `ValueError` of `dict`). */
  function HeaderPairs(items: seq<string>): (r: Option<seq<(string, string)>>)
    ensures r.Some? ==> |r.value| == |items|
    decreases |items|
  {
    if items == [] then Some([])
    else match SplitFirst(items[0], '=')
      case None => None
      case Some(kv) =>
        match HeaderPairs(items[1..])
        case None => None
        case Some(rest) => Some([kv] + rest)
  }

  /** The header is malformed exactly when some item has no `=`. */
  lemma {:induction false} HeaderPairsNone(items: seq<string>)
    ensures HeaderPairs(items).None? <==> exists i | 0 <= i < |items| :: '=' !in items[i]
    decreases |items|
  {
    if items != [] {
      HeaderPairsNone(items[1..]);
      forall i | 1 <= i < |items| ensures items[i] == items[1..][i - 1] { }
      if '=' !in items[0] {
        assert SplitFirst(items[0], '=').None?;
      } else if exists i | 0 <= i < |items[1..]| :: '=' !in items[1..][i] {
        var i :| 0 <= i < |items[1..]| && '=' !in items[1..][i];
        assert '=' !in items[i + 1];
      }
    }
  }

  /** Each item is its key, `=`, and its value, the key holding no `=`. */
  lemma {:induction false} HeaderPairsSplit(items: seq<string>)
    requires HeaderPairs(items).Some?
    ensures forall i | 0 <= i < |items| ::
              '=' !in HeaderPairs(items).value[i].0
              && items[i] == HeaderPairs(items).value[i].0 + "=" + HeaderPairs(items).value[i].1
    decreases |items|
  {
    if items != [] {
      HeaderPairsSplit(items[1..]);
      var r := HeaderPairs(items).value;
      forall i | 1 <= i < |items| ensures items[i] == items[1..][i - 1] && r[i] == HeaderPairs(items[1..]).value[i - 1] { }
    }
  }

  /** `dict(pairs)`: every key that occurs, with a later pair overwriting an earlier one. */
  function ToDict(pairs: seq<(string, string)>): (m: map<string, string>)
    ensures forall k :: k in m <==> exists i | 0 <= i < |pairs| :: pairs[i].0 == k
    decreases |pairs|
  {
    if pairs == [] then map[]
    else
      var init := pairs[..|pairs| - 1];
      var last := pairs[|pairs| - 1];
      assert forall i | 0 <= i < |init| :: init[i] == pairs[i];
      ToDict(init)[last.0 := last.1]
  }

  /** A duplicated key keeps the value of its last occurrence. */
  lemma {:induction false} ToDictLastWins(pairs: seq<(string, string)>, i: nat)
    requires i < |pairs|
    requires forall j | i < j < |pairs| :: pairs[j].0 != pairs[i].0
    ensures pairs[i].0 in ToDict(pairs) && ToDict(pairs)[pairs[i].0] == pairs[i].1
    decreases |pairs|
  {
    if i < |pairs| - 1 {
      var init := pairs[..|pairs| - 1];
      assert init[i] == pairs[i];
      forall j | i < j < |init| ensures init[j].0 != init[i].0 {
        assert init[j] == pairs[j];
      }
      ToDictLastWins(init, i);
    }
  }

  /** The header's components, or `None` when it is malformed. */
  function ParseHeader(signature: string): Option<map<string, string>> {
    match HeaderPairs(Split(signature, ','))
    case None => None
    case Some(pairs) => Some(ToDict(pairs))
  }

  /** `components.get(key)`, a missing key read as the falsy empty string. */
  function Field(components: map<string, string>, key: string): string {
    if key in components then components[key] else ""
  }

  /** The message the MAC covers: the timestamp text as sent, a dot, the body. */
  function SignedPayload(timestamp: string, payload: string): string {
    timestamp + "." + payload
  }

  /** `verify_signature(payload, signature, secret, tolerance_seconds)` at time `now`. */
  function VerifySignature(payload: string, signature: string, secret: string,
                           tolerance: int, now: int, mac: Mac): Result<(), VerifyError>
  {
    match ParseHeader(signature)
    case None => Failure(Rejected(InvalidSignature(MalformedHeader)))
    case Some(components) =>
      var timestamp := Field(components, "t");
      var provided := Field(components, "v1");
      if timestamp == "" || provided == "" then Failure(Rejected(InvalidSignature(MissingFields)))
      else match ParseInt(timestamp)
        case None => Failure(Rejected(InvalidSignature(InvalidTimestamp)))
        case Some(t) =>
          if Abs(now - t) > tolerance then Failure(Rejected(InvalidSignature(OutsideTolerance)))
          else
            var expected := mac(secret, SignedPayload(timestamp, payload));
            if !IsAscii(expected) || !IsAscii(provided) then Failure(NonAsciiDigest)
            else if expected != provided then Failure(Rejected(InvalidSignature(SignatureMismatch)))
            else Success(())
  }

  // ---------------------------------------------------------------------------
  // What verification accepts and rejects

  /** A header item without `=` makes the whole header malformed, whatever else it holds. */
  lemma MalformedWhenItemLacksEquals(payload: string, signature: string, secret: string,
                                     tolerance: int, now: int, mac: Mac, i: nat)
    requires i < |Split(signature, ',')| && '=' !in Split(signature, ',')[i]
    ensures VerifySignature(payload, signature, secret, tolerance, now, mac)
         == Failure(Rejected(InvalidSignature(MalformedHeader)))
  {
    HeaderPairsNone(Split(signature, ','));
  }

  /** A missing or empty `t` or `v1` is refused before the timestamp is read. */
  lemma MissingFieldsFirst(payload: string, signature: string, secret: string,
                           tolerance: int, now: int, mac: Mac)
    requires ParseHeader(signature).Some?
    requires Field(ParseHeader(signature).value, "t") == "" || Field(ParseHeader(signature).value, "v1") == ""
    ensures VerifySignature(payload, signature, secret, tolerance, now, mac)
         == Failure(Rejected(InvalidSignature(MissingFields)))
  {
  }

  /** A `t` that `int()` refuses gives "Invalid timestamp", before the clock or the MAC is consulted. */
  lemma NonIntegerTimestamp(payload: string, signature: string, secret: string,
                            tolerance: int, now: int, mac: Mac)
    requires ParseHeader(signature).Some?
    requires Field(ParseHeader(signature).value, "t") != "" && Field(ParseHeader(signature).value, "v1") != ""
    requires ParseInt(Field(ParseHeader(signature).value, "t")).None?
    ensures VerifySignature(payload, signature, secret, tolerance, now, mac)
         == Failure(Rejected(InvalidSignature(InvalidTimestamp)))
  {
  }

  /**
   * Verification succeeds exactly when the header is well formed, `t` and `v1`
   * are present, `t` is an integer within `tolerance` of `now` (the boundary
   * included), and `v1` is the ASCII digest of the `t` text as sent, a dot and the body.
   */
  lemma AcceptedExactly(payload: string, signature: string, secret: string,
                        tolerance: int, now: int, mac: Mac)
    ensures VerifySignature(payload, signature, secret, tolerance, now, mac).Success?
        <==> && ParseHeader(signature).Some?
             && var c := ParseHeader(signature).value;
             && Field(c, "t") != ""
             && ParseInt(Field(c, "t")).Some?
             && Abs(now - ParseInt(Field(c, "t")).value) <= tolerance
             && IsAscii(Field(c, "v1")) && Field(c, "v1") != ""
             && Field(c, "v1") == mac(secret, SignedPayload(Field(c, "t"), payload))
  {
  }

  // ---------------------------------------------------------------------------
  // Headers made the way the sender makes them

  predicate IsLowerHex(c: char) {
    ('0' <= c <= '9') || ('a' <= c <= 'f')
  }

  /** What `hexdigest()` of SHA-256 produces: 64 lower-case hex digits. */
  predicate HexDigest(d: string) {
    |d| == 64 && forall i | 0 <= i < |d| :: IsLowerHex(d[i])
  }

  /** `f"t={timestamp},v1={digest}"` */
  function SignatureHeader(timestamp: int, digest: string): string {
    "t=" + IntToDecimal(timestamp) + ",v1=" + digest
  }

  lemma DecimalHasNoSeparators(i: int)
    ensures var s := IntToDecimal(i);
            s != "" && ',' !in s && '=' !in s
  {
    var n: nat := if i < 0 then -i else i;
    var ds := NatToDecimal(n);
    assert ',' !in ds && '=' !in ds by {
      forall k | 0 <= k < |ds| ensures ds[k] != ',' && ds[k] != '=' {
        assert IsDigit(ds[k]);
      }
    }
  }

  /** `a,b` splits into `a` and `b` when neither holds a comma. */
  lemma SplitTwo(a: string, b: string)
    requires ',' !in a && ',' !in b
    ensures Split(a + "," + b, ',') == [a, b]
  {
    assert Join([a, b], [',']) == a + "," + b;
    SplitJoin([a, b], ',');
  }

  /** `key=value` splits on its first `=` into `key` and `value`. */
  lemma SplitPair(key: string, value: string)
    requires '=' !in key
    ensures SplitFirst(key + "=" + value, '=') == Some((key, value))
  {
    var s := key + "=" + value;
    assert s[|key|] == '=';
    assert forall j | 0 <= j < |key| :: s[j] == key[j];
    IndexOfAt(s, '=', |key|);
    assert s[..|key|] == key && s[|key| + 1..] == value;
  }

  lemma PairsOfTwo(a: string, b: string, ka: string, va: string, kb: string, vb: string)
    requires SplitFirst(a, '=') == Some((ka, va)) && SplitFirst(b, '=') == Some((kb, vb))
    ensures HeaderPairs([a, b]) == Some([(ka, va), (kb, vb)])
  {
    assert [a, b][1..] == [b] && [b][1..] == [];
    assert HeaderPairs([]) == Some([]);
    assert HeaderPairs([b]) == Some([(kb, vb)] + []);
    assert [(kb, vb)] + [] == [(kb, vb)];
    assert HeaderPairs([a, b]) == Some([(ka, va)] + [(kb, vb)]);
    assert [(ka, va)] + [(kb, vb)] == [(ka, va), (kb, vb)];
  }

  lemma DictOfTwo(ka: string, va: string, vb: string)
    ensures ToDict([(ka, va), ("v1", vb)]) == map[ka := va]["v1" := vb]
  {
    var pairs := [(ka, va), ("v1", vb)];
    assert pairs[..1] == [(ka, va)] && pairs[..1][..0] == [];
  }

  /** The header the sender builds parses back to its timestamp text and digest. */
  lemma ParseSignatureHeader(timestamp: int, v: string)
    requires ',' !in v
    ensures ParseHeader(SignatureHeader(timestamp, v)) == Some(map["t" := IntToDecimal(timestamp), "v1" := v])
  {
    var ts := IntToDecimal(timestamp);
    DecimalHasNoSeparators(timestamp);
    var a := "t=" + ts;
    var b := "v1=" + v;
    assert ',' !in a by { assert a == ['t', '='] + ts; }
    assert ',' !in b by { assert b == ['v', '1', '='] + v; }
    assert SignatureHeader(timestamp, v) == a + "," + b;
    SplitTwo(a, b);
    SplitPair("t", ts);
    SplitPair("v1", v);
    assert a == "t" + "=" + ts && b == "v1" + "=" + v;
    PairsOfTwo(a, b, "t", ts, "v1", v);
    DictOfTwo("t", ts, v);
  }

  lemma HexDigestHasNoComma(d: string)
    requires HexDigest(d)
    ensures ',' !in d && IsAscii(d)
  {
    forall i | 0 <= i < |d| ensures d[i] != ',' && d[i] < 128 as char {
      assert IsLowerHex(d[i]);
    }
  }

  /** Verifying a sender-built header comes down to the clock, then the comparison. */
  lemma VerifyBuiltHeader(payload: string, secret: string, timestamp: int, v: string,
                          tolerance: int, now: int, mac: Mac)
    requires ',' !in v && v != ""
    ensures var expected := mac(secret, SignedPayload(IntToDecimal(timestamp), payload));
            VerifySignature(payload, SignatureHeader(timestamp, v), secret, tolerance, now, mac)
            == if Abs(now - timestamp) > tolerance then Failure(Rejected(InvalidSignature(OutsideTolerance)))
               else if !IsAscii(expected) || !IsAscii(v) then Failure(NonAsciiDigest)
               else if expected != v then Failure(Rejected(InvalidSignature(SignatureMismatch)))
               else Success(())
  {
    ParseSignatureHeader(timestamp, v);
    DecimalHasNoSeparators(timestamp);
    ParseIntOfDecimal(timestamp);
    var c := map["t" := IntToDecimal(timestamp), "v1" := v];
    assert Field(c, "t") == IntToDecimal(timestamp) && Field(c, "v1") == v;
  }

  /** A header signed over the body with the right secret is accepted within the window. */
  lemma SignedHeaderAccepted(payload: string, secret: string, timestamp: int,
                             tolerance: int, now: int, mac: Mac)
    requires HexDigest(mac(secret, SignedPayload(IntToDecimal(timestamp), payload)))
    requires Abs(now - timestamp) <= tolerance
    ensures var digest := mac(secret, SignedPayload(IntToDecimal(timestamp), payload));
            VerifySignature(payload, SignatureHeader(timestamp, digest), secret, tolerance, now, mac) == Success(())
  {
    var digest := mac(secret, SignedPayload(IntToDecimal(timestamp), payload));
    HexDigestHasNoComma(digest);
    VerifyBuiltHeader(payload, secret, timestamp, digest, tolerance, now, mac);
  }

  /** A timestamp exactly `tolerance` seconds away, on either side, is still accepted. */
  lemma ToleranceBoundaryAccepted(payload: string, secret: string, timestamp: int, tolerance: nat, mac: Mac)
    requires HexDigest(mac(secret, SignedPayload(IntToDecimal(timestamp), payload)))
    ensures var digest := mac(secret, SignedPayload(IntToDecimal(timestamp), payload));
            forall now | now == timestamp + tolerance || now == timestamp - tolerance ::
              VerifySignature(payload, SignatureHeader(timestamp, digest), secret, tolerance, now, mac) == Success(())
  {
    var digest := mac(secret, SignedPayload(IntToDecimal(timestamp), payload));
    forall now | now == timestamp + tolerance || now == timestamp - tolerance
      ensures VerifySignature(payload, SignatureHeader(timestamp, digest), secret, tolerance, now, mac) == Success(())
    {
      SignedHeaderAccepted(payload, secret, timestamp, tolerance, now, mac);
    }
  }

  lemma ConcatClean(d: string, suffix: string)
    requires ',' !in d && IsAscii(d) && ',' !in suffix && IsAscii(suffix)
    ensures ',' !in d + suffix && IsAscii(d + suffix)
  {
    var s := d + suffix;
    forall i | 0 <= i < |s| ensures s[i] != ',' && s[i] < 128 as char {
      if i < |d| { assert s[i] == d[i]; } else { assert s[i] == suffix[i - |d|]; }
    }
  }

  /** Characters appended to a correct signature header make it a mismatch. */
  lemma AppendedDigestMismatch(payload: string, secret: string, timestamp: int,
                               tolerance: int, now: int, mac: Mac, suffix: string)
    requires HexDigest(mac(secret, SignedPayload(IntToDecimal(timestamp), payload)))
    requires Abs(now - timestamp) <= tolerance
    requires suffix != "" && ',' !in suffix && IsAscii(suffix)
    ensures var digest := mac(secret, SignedPayload(IntToDecimal(timestamp), payload));
            VerifySignature(payload, SignatureHeader(timestamp, digest) + suffix, secret, tolerance, now, mac)
            == Failure(Rejected(InvalidSignature(SignatureMismatch)))
  {
    var digest := mac(secret, SignedPayload(IntToDecimal(timestamp), payload));
    HexDigestHasNoComma(digest);
    ConcatClean(digest, suffix);
    assert SignatureHeader(timestamp, digest) + suffix == SignatureHeader(timestamp, digest + suffix);
    VerifyBuiltHeader(payload, secret, timestamp, digest + suffix, tolerance, now, mac);
    assert |digest + suffix| > |digest|;
  }

  /** A stale timestamp is refused even when the digest is right. */
  lemma StaleRejectedDespiteCorrectMac(payload: string, secret: string, timestamp: int,
                                       tolerance: int, now: int, mac: Mac)
    requires HexDigest(mac(secret, SignedPayload(IntToDecimal(timestamp), payload)))
    requires Abs(now - timestamp) > tolerance
    ensures var digest := mac(secret, SignedPayload(IntToDecimal(timestamp), payload));
            VerifySignature(payload, SignatureHeader(timestamp, digest), secret, tolerance, now, mac)
            == Failure(Rejected(InvalidSignature(OutsideTolerance)))
  {
    var digest := mac(secret, SignedPayload(IntToDecimal(timestamp), payload));
    HexDigestHasNoComma(digest);
    VerifyBuiltHeader(payload, secret, timestamp, digest, tolerance, now, mac);
  }

  lemma SplitThree(a: string, b: string, c: string)
    requires ',' !in a && ',' !in b && ',' !in c
    ensures Split(a + "," + b + "," + c, ',') == [a, b, c]
  {
    assert [a, b, c][1..] == [b, c] && [b, c][1..] == [c];
    assert Join([b, c], [',']) == b + "," + c;
    assert Join([a, b, c], [',']) == a + "," + b + "," + c;
    SplitJoin([a, b, c], ',');
  }

  lemma PairsOfThree(a: string, b: string, c: string, pa: (string, string), pb: (string, string), pc: (string, string))
    requires SplitFirst(a, '=') == Some(pa) && SplitFirst(b, '=') == Some(pb) && SplitFirst(c, '=') == Some(pc)
    ensures HeaderPairs([a, b, c]) == Some([pa, pb, pc])
  {
    PairsOfTwo(b, c, pb.0, pb.1, pc.0, pc.1);
    assert [a, b, c][1..] == [b, c];
    assert HeaderPairs([a, b, c]) == Some([pa] + [pb, pc]);
    assert [pa] + [pb, pc] == [pa, pb, pc];
  }

  lemma DictOfThree(va: string, vb: string, vc: string)
    ensures ToDict([("t", va), ("v1", vb), ("t", vc)]) == map["t" := vc, "v1" := vb]
  {
    var pairs := [("t", va), ("v1", vb), ("t", vc)];
    assert pairs[..2] == [("t", va), ("v1", vb)];
    DictOfTwo("t", va, vb);
    assert ToDict(pairs) == map["t" := va]["v1" := vb]["t" := vc];
  }

  /**
   * `t=<t1>,v1=<v>,t=<t2>`: each item splits on its first `=` only (so `v`
   * may itself hold `=`), and the later `t` overwrites the earlier one.
   */
  lemma LaterKeyWins(t1: string, v: string, t2: string)
    requires ',' !in t1 && '=' !in t1 && ',' !in t2 && '=' !in t2 && ',' !in v
    ensures ParseHeader("t=" + t1 + ",v1=" + v + ",t=" + t2) == Some(map["t" := t2, "v1" := v])
  {
    var a, b, c := "t" + "=" + t1, "v1" + "=" + v, "t" + "=" + t2;
    assert ',' !in a by { assert a == ['t', '='] + t1; }
    assert ',' !in b by { assert b == ['v', '1', '='] + v; }
    assert ',' !in c by { assert c == ['t', '='] + t2; }
    assert "t=" + t1 + ",v1=" + v + ",t=" + t2 == a + "," + b + "," + c;
    SplitThree(a, b, c);
    SplitPair("t", t1);
    SplitPair("v1", v);
    SplitPair("t", t2);
    PairsOfThree(a, b, c, ("t", t1), ("v1", v), ("t", t2));
    DictOfThree(t1, v, t2);
  }
}
