/** The canonical byte layout that is hashed and signed: src/domain/order.rs, `canonical_hash`. */
module Canonical {
  import opened Basics
  import opened Domain

  const TAIL_LENGTH: nat := 82

  function Pow256(k: nat): nat {
    if k == 0 then 1 else 256 * Pow256(k - 1)
  }

  /** `to_be_bytes` of a k-byte unsigned integer. */
  function BigEndian(x: nat, k: nat): (r: seq<byte>)
    ensures |r| == k
  {
    if k == 0 then [] else BigEndian(x / 256, k - 1) + [(x % 256) as byte]
  }

  function Value(b: seq<byte>): nat {
    if b == [] then 0 else Value(b[..|b| - 1]) * 256 + b[|b| - 1] as nat
  }

  lemma {:induction false} ValueOfBigEndian(x: nat, k: nat)
    requires x < Pow256(k)
    ensures Value(BigEndian(x, k)) == x
  {
    if k == 0 {
    } else {
      var b := BigEndian(x, k);
      assert b[..k - 1] == BigEndian(x / 256, k - 1);
      ValueOfBigEndian(x / 256, k - 1);
    }
  }

  lemma Widths()
    ensures Pow256(1) == 0x100 && Pow256(2) == 0x1_0000 && Pow256(8) == 0x1_0000_0000_0000_0000
  {
    assert Pow256(4) == 0x1_0000_0000;
    assert Pow256(6) == 0x1_0000_0000_0000;
  }

  /** A two-byte length, which silently wraps for texts of 65536 bytes and more, then the text. */
  function Prefixed(t: Text): seq<byte> {
    BigEndian(|t| % 0x1_0000, 2) + t
  }

  function SideByte(side: Side): byte {
    if side == Buy then 0 else 1
  }

  /** The fixed-width fields that close the layout. */
  function Tail(s: SignedOrder): (r: seq<byte>)
    ensures |r| == TAIL_LENGTH
  {
    [SideByte(s.side)] + BigEndian(s.priceTicks, 8) + BigEndian(s.sizeLots, 8) + [0]
    + BigEndian(s.nonce, 8) + BigEndian(s.expiryTsMs, 8) + BigEndian(s.createdAtMs, 8) + BigEndian(s.salt, 8)
    + s.traderPubkey
  }

  function CanonicalBytes(s: SignedOrder): seq<byte> {
    BigEndian(s.schemaVersion, 2) + Prefixed(s.marketId.text) + Prefixed(s.traderId.text)
    + Prefixed(s.clientOrderId) + Tail(s)
  }

  /** The hasher fed field by field, as the program does. */
  method CanonicalHash(s: SignedOrder) returns (hash: OrderHash)
    ensures hash == OrderHash(CanonicalBytes(s))
  {
    var h: seq<byte> := [];
    h := h + BigEndian(s.schemaVersion, 2);
    var b := s.marketId.text;
    h := h + BigEndian(|b| % 0x1_0000, 2);
    h := h + b;
    b := s.traderId.text;
    h := h + BigEndian(|b| % 0x1_0000, 2);
    h := h + b;
    b := s.clientOrderId;
    h := h + BigEndian(|b| % 0x1_0000, 2);
    h := h + b;
    assert h == BigEndian(s.schemaVersion, 2) + Prefixed(s.marketId.text) + Prefixed(s.traderId.text)
                   + Prefixed(s.clientOrderId);
    h := FeedTail(h, s);
    hash := OrderHash(h);
  }

  /** The fixed-width fields. */
  method FeedTail(head: seq<byte>, s: SignedOrder) returns (h: seq<byte>)
    ensures h == head + Tail(s)
  {
    h := head + [match s.side case Buy => 0 case Sell => 1];
    h := h + BigEndian(s.priceTicks, 8);
    h := h + BigEndian(s.sizeLots, 8);
    h := h + [match s.timeInForce case Gtc => 0];
    h := h + BigEndian(s.nonce, 8);
    h := h + BigEndian(s.expiryTsMs, 8);
    h := h + BigEndian(s.createdAtMs, 8);
    h := h + BigEndian(s.salt, 8);
    h := h + s.traderPubkey;
  }

  // ---- Reading the layout back ---------------------------------------------------------------

  function TakePrefixed(b: seq<byte>): Option<(Text, seq<byte>)> {
    if |b| < 2 || |b| < 2 + Value(b[..2]) then None
    else Some((b[2..2 + Value(b[..2])], b[2 + Value(b[..2])..]))
  }

  function DecodeU64(b: seq<byte>): u64
    requires |b| == 8
  {
    var v := Value(b);
    if v < 0x1_0000_0000_0000_0000 then v else 0
  }

  function DecodeTail(version: u16, market: Text, trader: Text, client: Text, t: seq<byte>): SignedOrder
    requires |t| == TAIL_LENGTH
  {
    SignedOrder(version, client, MarketId(market), TraderId(trader),
                if t[0] == 0 then Buy else Sell,
                DecodeU64(t[1..9]), DecodeU64(t[9..17]), Gtc,
                DecodeU64(t[18..26]), DecodeU64(t[26..34]), DecodeU64(t[34..42]), DecodeU64(t[42..50]),
                t[50..82], [])
  }

  /**
   * A reader of the layout: the first two texts by their length, the tail by its fixed width,
   * and the client order id as whatever lies between.
   */
  function Decode(b: seq<byte>): Option<SignedOrder> {
    if |b| < 2 || Value(b[..2]) >= 0x1_0000 then None else
      match TakePrefixed(b[2..])
      case None => None
      case Some((market, rest)) =>
        match TakePrefixed(rest)
        case None => None
        case Some((trader, rest')) =>
          if |rest'| < 2 + TAIL_LENGTH then None
          else Some(DecodeTail(Value(b[..2]), market, trader, rest'[2..|rest'| - TAIL_LENGTH],
                               rest'[|rest'| - TAIL_LENGTH..]))
  }

  predicate Fits(t: Text) {
    |t| < 0x1_0000
  }

  lemma TakePrefixedBack(t: Text, rest: seq<byte>)
    requires Fits(t)
    ensures TakePrefixed(Prefixed(t) + rest) == Some((t, rest))
  {
    Widths();
    ValueOfBigEndian(|t|, 2);
    var b := Prefixed(t) + rest;
    assert b[..2] == BigEndian(|t|, 2);
    assert b[2..2 + |t|] == t && b[2 + |t|..] == rest;
  }

  /** A wrapped length reads back a text of fewer than 65536 bytes, or nothing. */
  lemma TakePrefixedShort(b: seq<byte>)
    ensures TakePrefixed(b).Some? ==> Fits(TakePrefixed(b).value.0)
  {
    if |b| >= 2 {
      assert b[..2][..1] == [b[0]] && b[..2][1] == b[1];
      assert Value(b[..2]) == Value([b[0]]) * 256 + b[1] as nat;
      assert [b[0]][..0] == [] && Value([b[0]]) == b[0] as nat;
    }
  }

  lemma TailBack(s: SignedOrder)
    ensures DecodeTail(s.schemaVersion, s.marketId.text, s.traderId.text, s.clientOrderId, Tail(s))
         == s.(signature := [])
  {
    Widths();
    var t := Tail(s);
    assert t[1..9] == BigEndian(s.priceTicks, 8);
    assert t[9..17] == BigEndian(s.sizeLots, 8);
    assert t[18..26] == BigEndian(s.nonce, 8);
    assert t[26..34] == BigEndian(s.expiryTsMs, 8);
    assert t[34..42] == BigEndian(s.createdAtMs, 8);
    assert t[42..50] == BigEndian(s.salt, 8);
    assert t[50..82] == s.traderPubkey;
    ValueOfBigEndian(s.priceTicks, 8);
    ValueOfBigEndian(s.sizeLots, 8);
    ValueOfBigEndian(s.nonce, 8);
    ValueOfBigEndian(s.expiryTsMs, 8);
    ValueOfBigEndian(s.createdAtMs, 8);
    ValueOfBigEndian(s.salt, 8);
  }

  /** The three texts and the tail come back one after the other. */
  lemma DecodeFits(s: SignedOrder)
    requires Fits(s.marketId.text) && Fits(s.traderId.text)
    ensures Decode(CanonicalBytes(s)) == Some(s.(signature := []))
  {
    var b := CanonicalBytes(s);
    var afterTrader := Prefixed(s.clientOrderId) + Tail(s);
    var afterMarket := Prefixed(s.traderId.text) + afterTrader;
    assert b[..2] == BigEndian(s.schemaVersion, 2);
    assert b[2..] == Prefixed(s.marketId.text) + afterMarket;
    assert Value(b[..2]) == s.schemaVersion by {
      Widths();
      ValueOfBigEndian(s.schemaVersion, 2);
    }
    TakePrefixedBack(s.marketId.text, afterMarket);
    TakePrefixedBack(s.traderId.text, afterTrader);
    var n := |afterTrader| - TAIL_LENGTH;
    assert afterTrader[n..] == Tail(s) && afterTrader[2..n] == s.clientOrderId;
    TailBack(s);
  }

  lemma DecodeShort(b: seq<byte>)
    ensures Decode(b).Some? ==> Fits(Decode(b).value.marketId.text) && Fits(Decode(b).value.traderId.text)
  {
    if |b| >= 2 {
      TakePrefixedShort(b[2..]);
      if TakePrefixed(b[2..]).Some? {
        TakePrefixedShort(TakePrefixed(b[2..]).value.1);
      }
    }
  }

  /**
   * Every field but the signature can be read back exactly when the market and trader ids fit their
   * length prefix. The client order id may be of any length.
   */
  lemma RoundTrip(s: SignedOrder)
    ensures Decode(CanonicalBytes(s)) == Some(s.(signature := []))
            <==> Fits(s.marketId.text) && Fits(s.traderId.text)
  {
    DecodeShort(CanonicalBytes(s));
    if Fits(s.marketId.text) && Fits(s.traderId.text) {
      DecodeFits(s);
    }
  }

  /** Equal canonical bytes mean equal orders, up to the signature, when the two ids fit. */
  lemma Injective(s: SignedOrder, t: SignedOrder)
    requires Fits(s.marketId.text) && Fits(s.traderId.text)
    requires Fits(t.marketId.text) && Fits(t.traderId.text)
    requires CanonicalBytes(s) == CanonicalBytes(t)
    ensures s.(signature := t.signature) == t
  {
    RoundTrip(s);
    RoundTrip(t);
  }

  // ---- Where the layout is ambiguous ----------------------------------------------------------

  function Zeros(n: nat): seq<byte> {
    seq(n, i => 0)
  }

  /** A market id of 65536 zero bytes signs the same bytes as an empty one with a long client id. */
  lemma LongMarketCollides(s: SignedOrder)
    ensures var long := s.(marketId := MarketId(Zeros(0x1_0000)), traderId := TraderId([]), clientOrderId := []);
            var short := s.(marketId := MarketId([]), traderId := TraderId([]), clientOrderId := Zeros(0x1_0000));
            long != short && CanonicalBytes(long) == CanonicalBytes(short)
  {
    var z := Zeros(0x1_0000);
    assert BigEndian(0, 2) == [0, 0] by { assert BigEndian(0, 1) == [0]; }
    assert |z| == 0x1_0000;
    assert Prefixed(z) == [0, 0] + z && Prefixed([]) == [0, 0];
    assert [0, 0] + z + [0, 0] + [0, 0] == [0, 0] + [0, 0] + ([0, 0] + z);
    var version := BigEndian(s.schemaVersion, 2);
    var long := s.(marketId := MarketId(z), traderId := TraderId([]), clientOrderId := []);
    var short := s.(marketId := MarketId([]), traderId := TraderId([]), clientOrderId := z);
    assert CanonicalBytes(long) == version + ([0, 0] + z + [0, 0] + [0, 0]) + Tail(s);
    assert CanonicalBytes(short) == version + ([0, 0] + [0, 0] + ([0, 0] + z)) + Tail(s);
    assert |long.marketId.text| != |short.marketId.text|;
  }

  // ---- What a hash always determines ----------------------------------------------------------

  /** The nonce and public key sit at fixed distances from the end of the layout. */
  ghost predicate Binds(hash: OrderHash, nonce: nat, pubkey: Key32) {
    && |hash.preimage| >= TAIL_LENGTH
    && Value(hash.preimage[|hash.preimage| - 64..|hash.preimage| - 56]) == nonce
    && hash.preimage[|hash.preimage| - 32..] == pubkey
  }

  lemma HashBinds(s: SignedOrder)
    ensures Binds(OrderHash(CanonicalBytes(s)), s.nonce, s.traderPubkey)
  {
    Widths();
    ValueOfBigEndian(s.nonce, 8);
    var b, t := CanonicalBytes(s), Tail(s);
    var n := |b| - TAIL_LENGTH;
    assert b[n..] == t;
    assert b[|b| - 64..|b| - 56] == t[18..26] == BigEndian(s.nonce, 8);
    assert b[|b| - 32..] == t[50..] == s.traderPubkey;
  }

  // ---- hex::encode ----------------------------------------------------------------------------

  function HexDigit(n: nat): byte
    requires n < 16
  {
    if n < 10 then (48 + n) as byte else (87 + n) as byte
  }

  function HexEncode(b: seq<byte>): Text {
    if b == [] then []
    else [HexDigit(b[0] as nat / 16), HexDigit(b[0] as nat % 16)] + HexEncode(b[1..])
  }
}
