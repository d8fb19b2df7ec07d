/** When the signed byte layout tells orders apart: src/domain/order.rs and the intake of src/engine/mod.rs. */
module Layout {
  import opened Basics
  import opened Domain
  import opened Canonical
  import opened Unicode
  import opened EngineSpec

  // ---- Readers of the layout -------------------------------------------------------------------

  /** The reader returns every field but the signature of every order whose two ids are shorter than the limit. */
  ghost predicate Reads(read: seq<byte> -> Option<SignedOrder>, limit: nat) {
    forall s: SignedOrder :: |s.marketId.text| < limit && |s.traderId.text| < limit ==>
      read(CanonicalBytes(s)) == Some(s.(signature := []))
  }

  function SomeOrder(): SignedOrder {
    var key: Key32 := seq(32, i => 0);
    SignedOrder(1, [], MarketId([]), TraderId([]), Buy, 1, 1, Gtc, 1, 0, 0, 0, key, [])
  }

  /** A reader exists up to a limit of 65536 bytes and for no higher one. */
  lemma ReaderExists(limit: nat)
    ensures (exists read :: Reads(read, limit)) <==> limit <= 0x1_0000
  {
    if limit <= 0x1_0000 {
      forall s: SignedOrder | |s.marketId.text| < limit && |s.traderId.text| < limit
        ensures Decode(CanonicalBytes(s)) == Some(s.(signature := []))
      {
        RoundTrip(s);
      }
      assert Reads(Decode, limit);
    } else {
      var s := SomeOrder();
      LongMarketCollides(s);
      var long := s.(marketId := MarketId(Zeros(0x1_0000)), traderId := TraderId([]), clientOrderId := []);
      var short := s.(marketId := MarketId([]), traderId := TraderId([]), clientOrderId := Zeros(0x1_0000));
      forall read ensures !Reads(read, limit) {
        assert long.(signature := []).marketId != short.(signature := []).marketId;
        assert Reads(read, limit) ==> read(CanonicalBytes(long)) == Some(long.(signature := []));
        assert Reads(read, limit) ==> read(CanonicalBytes(short)) == Some(short.(signature := []));
      }
    }
  }

  // ---- Orders that intake can accept -----------------------------------------------------------

  /** The order passes the field checks at some time, its trader id spells its key, and its client id is a string. */
  ghost predicate Intake(s: SignedOrder, ids: set<MarketId>) {
    && s.marketId in ids && s.traderId.text == HexEncode(s.traderPubkey) && Utf8(s.clientOrderId)
    && exists nowMs: nat :: ValidateFields(s, nowMs).None?
  }

  predicate Strings(ids: set<MarketId>) {
    forall m :: m in ids ==> Utf8(m.text)
  }

  lemma {:induction false} HexAscii(b: seq<byte>)
    ensures forall i :: 0 <= i < |HexEncode(b)| ==> HexEncode(b)[i] <= 0x7F
  {
    if b == [] {
    } else {
      HexAscii(b[1..]);
    }
  }

  lemma {:induction false} HexLength(b: seq<byte>)
    ensures |HexEncode(b)| == 2 * |b|
  {
    if b == [] {
    } else {
      HexLength(b[1..]);
    }
  }

  lemma TwoBytes(x: nat)
    requires x < 0x1_0000
    ensures BigEndian(x, 2) == [(x / 256) as byte, (x % 256) as byte]
  {
    assert BigEndian(x / 256, 1) == BigEndian(x / 256 / 256, 0) + [((x / 256) % 256) as byte];
  }

  /** What a trader id contributes to the layout. */
  function TraderBytes(key: Key32): seq<byte> {
    [0, 64] + HexEncode(key)
  }

  lemma TraderPrefixed(s: SignedOrder)
    requires s.traderId.text == HexEncode(s.traderPubkey)
    ensures Prefixed(s.traderId.text) == TraderBytes(s.traderPubkey) && |TraderBytes(s.traderPubkey)| == 66
  {
    HexLength(s.traderPubkey);
    TwoBytes(64);
  }

  // ---- Confusable market ids -------------------------------------------------------------------

  /**
   * The longer id reads as the shorter one followed by a trader id: their lengths differ by a multiple of
   * 65536, and where they part a length-prefixed hex key begins.
   */
  predicate ReadsAs(a: Text, b: Text, key: Key32) {
    && b != [] && |a| >= |b| + 0x1_0000 && (|a| - |b|) % 0x1_0000 == 0
    && a[..|b|] == b && a[|b|..|b| + 66] == TraderBytes(key)
  }

  /** ... and the two bytes after the key, which pass for the length of the client id, cut no character in two. */
  predicate Confusable(a: Text, b: Text, key: Key32) {
    ReadsAs(a, b, key) && Utf8(a[..|b| + 68])
  }

  ghost predicate Ambiguous(ids: set<MarketId>) {
    exists a, b, key :: a in ids && b in ids && Confusable(a.text, b.text, key)
  }

  /** Equal bytes mean equal orders, up to the signature, among all orders intake can accept in these markets. */
  ghost predicate TellsOrdersApart(ids: set<MarketId>) {
    forall s: SignedOrder, t: SignedOrder ::
      Intake(s, ids) && Intake(t, ids) && CanonicalBytes(s) == CanonicalBytes(t) ==> s.(signature := t.signature) == t
  }

  /** The layout of an acceptable order after its version and market length. */
  function AfterLength(s: SignedOrder): seq<byte> {
    s.marketId.text + TraderBytes(s.traderPubkey) + Prefixed(s.clientOrderId) + Tail(s)
  }

  lemma LayoutOf(s: SignedOrder)
    requires s.traderId.text == HexEncode(s.traderPubkey)
    ensures CanonicalBytes(s)
         == BigEndian(s.schemaVersion, 2) + BigEndian(|s.marketId.text| % 0x1_0000, 2) + AfterLength(s)
  {
    TraderPrefixed(s);
  }

  lemma SameLayout(s: SignedOrder, t: SignedOrder)
    requires s.traderId.text == HexEncode(s.traderPubkey) && t.traderId.text == HexEncode(t.traderPubkey)
    requires CanonicalBytes(s) == CanonicalBytes(t)
    ensures s.schemaVersion == t.schemaVersion && |s.marketId.text| % 0x1_0000 == |t.marketId.text| % 0x1_0000
    ensures AfterLength(s) == AfterLength(t)
  {
    LayoutOf(s);
    LayoutOf(t);
    var b := CanonicalBytes(s);
    assert b[..2] == BigEndian(s.schemaVersion, 2) == BigEndian(t.schemaVersion, 2);
    assert b[2..4] == BigEndian(|s.marketId.text| % 0x1_0000, 2) == BigEndian(|t.marketId.text| % 0x1_0000, 2);
    assert b[4..] == AfterLength(s) == AfterLength(t);
    Widths();
    ValueOfBigEndian(s.schemaVersion, 2);
    ValueOfBigEndian(t.schemaVersion, 2);
    ValueOfBigEndian(|s.marketId.text| % 0x1_0000, 2);
    ValueOfBigEndian(|t.marketId.text| % 0x1_0000, 2);
  }

  /** With market ids of one length there is nothing to confuse. */
  lemma SameLengthSame(s: SignedOrder, t: SignedOrder)
    requires s.traderId.text == HexEncode(s.traderPubkey) && t.traderId.text == HexEncode(t.traderPubkey)
    requires |s.marketId.text| == |t.marketId.text| && s.schemaVersion == t.schemaVersion
    requires AfterLength(s) == AfterLength(t)
    ensures s.(signature := t.signature) == t
  {
    var b, n := AfterLength(s), |s.marketId.text|;
    TraderPrefixed(s);
    TraderPrefixed(t);
    assert b[..n] == s.marketId.text == t.marketId.text;
    var k := |b| - TAIL_LENGTH;
    assert b[k..] == Tail(s) == Tail(t);
    assert b[n + 68..k] == s.clientOrderId == t.clientOrderId;
    TailBack(s);
    TailBack(t);
    assert s.traderPubkey == Tail(s)[50..] == Tail(t)[50..] == t.traderPubkey;
  }

  /** A longer market id with the same bytes after it reads as the shorter one. */
  lemma LongerReadsAs(s: SignedOrder, t: SignedOrder)
    requires t.traderId.text == HexEncode(t.traderPubkey) && t.marketId.text != []
    requires |s.marketId.text| > |t.marketId.text| && |s.marketId.text| % 0x1_0000 == |t.marketId.text| % 0x1_0000
    requires AfterLength(s) == AfterLength(t) && t.clientOrderId != []
    ensures ReadsAs(s.marketId.text, t.marketId.text, t.traderPubkey)
    ensures s.marketId.text[|t.marketId.text| + 68] == t.clientOrderId[0]
  {
    TraderPrefixed(t);
    var a, b := s.marketId.text, t.marketId.text;
    assert |a| - |b| >= 0x1_0000 && (|a| - |b|) % 0x1_0000 == 0;
    assert AfterLength(s)[..|b|] == a[..|b|] && AfterLength(t)[..|b|] == b;
    assert AfterLength(s)[|b|..|b| + 66] == a[|b|..|b| + 66];
    assert AfterLength(t)[|b|..|b| + 66] == TraderBytes(t.traderPubkey);
    assert AfterLength(s)[|b| + 68] == a[|b| + 68] && AfterLength(t)[|b| + 68] == t.clientOrderId[0];
  }

  lemma Utf8First(s: seq<byte>)
    requires Utf8(s) && s != []
    ensures !Continuation(s[0])
  {
  }

  lemma LongerConfusable(s: SignedOrder, t: SignedOrder)
    requires t.traderId.text == HexEncode(t.traderPubkey) && t.marketId.text != []
    requires |s.marketId.text| > |t.marketId.text| && |s.marketId.text| % 0x1_0000 == |t.marketId.text| % 0x1_0000
    requires AfterLength(s) == AfterLength(t)
    requires Utf8(s.marketId.text) && Utf8(t.clientOrderId) && t.clientOrderId != []
    ensures Confusable(s.marketId.text, t.marketId.text, t.traderPubkey)
  {
    var a, n := s.marketId.text, |t.marketId.text| + 68;
    LongerReadsAs(s, t);
    Utf8First(t.clientOrderId);
    assert a == a[..n] + a[n..];
    Utf8Cut(a[..n], a[n..]);
  }

  // ---- From two confusable ids to two orders -----------------------------------------------------

  /** A non-empty client id of a length that wraps to `n`. */
  function ClientOf(n: nat): (r: Text)
    requires n < 0x1_0000
    ensures r != [] && |r| % 0x1_0000 == n && forall i :: 0 <= i < |r| ==> r[i] == 0
  {
    Zeros(if n == 0 then 0x1_0000 else n)
  }

  lemma PrefixBack(c: seq<byte>)
    requires |c| == 2
    ensures Value(c) < 0x1_0000 && BigEndian(Value(c), 2) == c
  {
    assert c[..1] == [c[0]] && [c[0]][..0] == [];
    assert Value(c) == Value([c[0]]) * 256 + c[1] as nat && Value([c[0]]) == c[0] as nat;
    TwoBytes(Value(c));
  }

  function LongOrder(a: MarketId, client: Text, key: Key32): SignedOrder {
    SomeOrder().(marketId := a, traderId := TraderId(HexEncode(key)), clientOrderId := client, traderPubkey := key)
  }

  lemma OrderIsIntake(s: SignedOrder, ids: set<MarketId>)
    requires s.marketId in ids && s.marketId.text != [] && s.clientOrderId != []
    requires s == LongOrder(s.marketId, s.clientOrderId, s.traderPubkey) && Utf8(s.clientOrderId)
    ensures Intake(s, ids)
  {
    HexLength(s.traderPubkey);
    assert ValidateFields(s, 0).None?;
  }

  lemma SameResidue(a: nat, b: nat)
    requires a % 0x1_0000 == 0
    ensures (a + b) % 0x1_0000 == b % 0x1_0000
  {
    var k, j := a / 0x1_0000, b / 0x1_0000;
    assert a + b == 0x1_0000 * (k + j) + b % 0x1_0000;
  }

  lemma Regroup(t: seq<byte>, c: seq<byte>, y: seq<byte>, rest: seq<byte>)
    ensures (t + c + y) + rest == t + (c + (y + rest))
  {
  }

  /** What follows the shorter id, once as the end of the longer one and once with a client id that contains it. */
  lemma CollidingClients(x: seq<byte>, c: seq<byte>, y: seq<byte>, trader: seq<byte>, client: Text)
    requires |x| % 0x1_0000 == 0 && |c| == 2 && x == trader + c + y && |trader| == 66
    requires Value(c) < 0x1_0000 && BigEndian(Value(c), 2) == c && |client| % 0x1_0000 == Value(c)
    ensures x + (trader + Prefixed(client)) == trader + Prefixed(y + (trader + Prefixed(client)))
  {
    var rest := trader + Prefixed(client);
    assert |y + rest| == |x| + |client|;
    SameResidue(|x|, |client|);
    assert Prefixed(y + rest) == c + (y + rest);
    Regroup(trader, c, y, rest);
  }

  lemma AfterLengthOf(a: MarketId, client: Text, key: Key32)
    ensures AfterLength(LongOrder(a, client, key))
         == a.text + (TraderBytes(key) + Prefixed(client)) + Tail(LongOrder(a, client, key))
  {
  }

  lemma SameTail(a: MarketId, b: MarketId, c: Text, d: Text, key: Key32)
    ensures Tail(LongOrder(a, c, key)) == Tail(LongOrder(b, d, key))
  {
  }

  /** A client id of the length the two bytes after the key spell. */
  function ShortClient(a: Text, b: Text): (r: Text)
    requires |a| >= |b| + 68
    ensures r != [] && forall i :: 0 <= i < |r| ==> r[i] == 0
    ensures Prefixed(r) == a[|b| + 66..|b| + 68] + r
  {
    PrefixBack(a[|b| + 66..|b| + 68]);
    ClientOf(Value(a[|b| + 66..|b| + 68]))
  }

  /** A client id that contains the rest of the longer market id, the trader id and the short client id. */
  function LongClient(a: Text, b: Text, key: Key32): Text
    requires |a| >= |b| + 68
  {
    a[|b| + 68..] + (TraderBytes(key) + Prefixed(ShortClient(a, b)))
  }

  lemma SameBytes(a: MarketId, b: MarketId, key: Key32)
    requires ReadsAs(a.text, b.text, key)
    ensures CanonicalBytes(LongOrder(a, ShortClient(a.text, b.text), key))
         == CanonicalBytes(LongOrder(b, LongClient(a.text, b.text, key), key))
  {
    var trader, client := TraderBytes(key), ShortClient(a.text, b.text);
    var x := a.text[|b.text|..];
    var c, y := x[66..68], x[68..];
    HexLength(key);
    assert x == trader + c + y by { assert a.text[|b.text|..|b.text| + 66] == x[..66]; }
    PrefixBack(c);
    assert c == a.text[|b.text| + 66..|b.text| + 68] && y == a.text[|b.text| + 68..];
    var rest := trader + Prefixed(client);
    var s, t := LongOrder(a, client, key), LongOrder(b, y + rest, key);
    CollidingClients(x, c, y, trader, client);
    AfterLengthOf(a, client, key);
    AfterLengthOf(b, y + rest, key);
    SameTail(a, b, client, y + rest, key);
    MarketSplit(a.text, b.text, x, rest, trader + Prefixed(y + rest));
    SameResidue(|a.text| - |b.text|, |b.text|);
    assert AfterLength(s) == AfterLength(t);
    LayoutOf(s);
    LayoutOf(t);
  }

  /** The two orders: the longer id with a short client id, the shorter id with a client id that contains the rest. */
  lemma Collision(a: MarketId, b: MarketId, key: Key32) returns (s: SignedOrder, t: SignedOrder)
    requires Confusable(a.text, b.text, key) && Utf8(a.text) && Utf8(b.text)
    ensures s == LongOrder(a, s.clientOrderId, key) && t == LongOrder(b, t.clientOrderId, key)
    ensures s.clientOrderId != [] && t.clientOrderId != [] && CanonicalBytes(s) == CanonicalBytes(t) && a != b
    ensures Utf8(s.clientOrderId) && Utf8(t.clientOrderId)
  {
    s := LongOrder(a, ShortClient(a.text, b.text), key);
    t := LongOrder(b, LongClient(a.text, b.text, key), key);
    SameBytes(a, b, key);
    CollidingStrings(a.text, b.text, key, a.text[|b.text| + 66..|b.text| + 68], a.text[|b.text| + 68..],
                     ShortClient(a.text, b.text));
  }

  /** Both client ids are strings. */
  lemma CollidingStrings(a: Text, b: Text, key: Key32, c: seq<byte>, y: seq<byte>, client: Text)
    requires Confusable(a, b, key) && Utf8(a) && Utf8(b)
    requires c == a[|b| + 66..|b| + 68] && y == a[|b| + 68..] && Prefixed(client) == c + client
    requires forall i :: 0 <= i < |client| ==> client[i] <= 0x7F
    ensures Utf8(client) && Utf8(y + (TraderBytes(key) + Prefixed(client)))
  {
    var trader := TraderBytes(key);
    HexLength(key);
    HexAscii(key);
    Ascii(trader);
    Ascii(client);
    assert a[..|b| + 68] == b + (trader + c) by { assert a[..|b|] == b && a[|b|..|b| + 66] == trader; }
    Utf8Concat(b, trader + c);
    Utf8Concat(trader, c);
    assert a == a[..|b| + 68] + y;
    Utf8Concat(a[..|b| + 68], y);
    Utf8Concat(c, client);
    Utf8Concat(trader, c + client);
    Utf8Concat(y, trader + (c + client));
  }

  lemma MarketSplit(a: Text, b: Text, x: seq<byte>, rest: seq<byte>, other: seq<byte>)
    requires a == b + x && x + rest == other
    ensures a + rest == b + other
  {
  }

  /**
   * The layout tells the orders of a registry apart exactly when no two of its market ids are confusable, a
   * condition on the registered ids alone.
   */
  lemma RegistryInjective(ids: set<MarketId>)
    requires Strings(ids)
    ensures TellsOrdersApart(ids) <==> !Ambiguous(ids)
  {
    if Ambiguous(ids) {
      var a, b, key :| a in ids && b in ids && Confusable(a.text, b.text, key);
      var s, t := Collision(a, b, key);
      OrderIsIntake(s, ids);
      OrderIsIntake(t, ids);
      assert !TellsOrdersApart(ids);
    } else {
      forall s: SignedOrder, t: SignedOrder | Intake(s, ids) && Intake(t, ids) && CanonicalBytes(s) == CanonicalBytes(t)
        ensures s.(signature := t.signature) == t
      {
        UnambiguousSame(s, t, ids);
      }
    }
  }

  lemma UnambiguousSame(s: SignedOrder, t: SignedOrder, ids: set<MarketId>)
    requires Intake(s, ids) && Intake(t, ids) && CanonicalBytes(s) == CanonicalBytes(t) && !Ambiguous(ids)
    requires Strings(ids)
    ensures s.(signature := t.signature) == t
  {
    SameLayout(s, t);
    if |s.marketId.text| == |t.marketId.text| {
      SameLengthSame(s, t);
    } else if |s.marketId.text| > |t.marketId.text| {
      LongerConfusable(s, t);
      assert false;
    } else {
      LongerConfusable(t, s);
      assert false;
    }
  }

  /** Market ids of at most 65536 bytes are never confusable. */
  lemma ShortIdsInjective(ids: set<MarketId>)
    requires Strings(ids) && forall m :: m in ids ==> |m.text| <= 0x1_0000
    ensures TellsOrdersApart(ids)
  {
    RegistryInjective(ids);
  }

  /** Two orders that pass intake under a registry of such ids never share a hash unless they are one order. */
  lemma AcceptedNeverCollide(markets: map<MarketId, MarketConfig>, s: SignedOrder, t: SignedOrder, sMs: nat, tMs: nat,
                             world: World)
    requires Validate(markets, s, sMs, world).None? && Validate(markets, t, tMs, world).None?
    requires Strings(markets.Keys) && Utf8(s.clientOrderId) && Utf8(t.clientOrderId)
    requires !Ambiguous(markets.Keys) && CanonicalBytes(s) == CanonicalBytes(t)
    ensures s.(signature := t.signature) == t
  {
    assert ValidateFields(s, sMs).None? && ValidateFields(t, tMs).None?;
    RegistryInjective(markets.Keys);
  }

  /** There are such ids, so not every registry is safe. */
  lemma UnsafeRegistry(key: Key32) returns (ids: set<MarketId>)
    ensures Strings(ids) && Ambiguous(ids) && !TellsOrdersApart(ids)
  {
    var b := [1];
    var a := b + TraderBytes(key) + Zeros(65470);
    HexLength(key);
    HexAscii(key);
    Ascii(a);
    Ascii(b);
    Ascii(a[..69]);
    assert a[1..67] == TraderBytes(key);
    assert Confusable(a, b, key);
    ids := {MarketId(a), MarketId(b)};
    assert MarketId(a) in ids && MarketId(b) in ids && MarketId(a).text == a && MarketId(b).text == b;
    RegistryInjective(ids);
  }
}
