/** What the fingerprint binds: the amounts, flags and nonces under given keys. */
module Fingerprints {
  import opened Basics
  import opened Domain
  import opened Canonical
  import opened Store
  import opened Replaying
  import opened Checksum

  // ---- A listing of every table --------------------------------------------------------------------

  ghost predicate KeysApart(entries: set<Entry>) {
    forall a, b :: a in entries && b in entries && a.key == b.key ==> a == b
  }

  lemma {:induction false} SomeList(entries: set<Entry>) returns (list: seq<Entry>)
    requires KeysApart(entries)
    ensures KeysDistinct(list) && forall e :: e in list <==> e in entries
    decreases |entries|
  {
    if entries == {} {
      list := [];
    } else {
      var e :| e in entries;
      var rest := SomeList(entries - {e});
      list := [e] + rest;
      forall i | 0 <= i < |rest| ensures rest[i].key != e.key { assert rest[i] in rest; }
    }
  }

  lemma ListingOf(entries: set<Entry>)
    requires KeysApart(entries)
    ensures IsListing(Listing(entries), entries)
  {
    var list := SomeList(entries);
    SortAscends(list);
    SortIsListing(list, entries);
  }

  // ---- Two tables with the same keys ---------------------------------------------------------------

  /** The key and the length of an entry depend on the table key alone. */
  ghost predicate Framed<K(!new), V(!new)>(entry: (K, V) -> Entry) {
    forall k, v, w :: entry(k, v).key == entry(k, w).key && |entry(k, v).bytes| == |entry(k, w).bytes|
  }

  /** Position by position the two lists have entries of one key and length. */
  ghost predicate Aligned(a: seq<Entry>, b: seq<Entry>) {
    |a| == |b| && forall i :: 0 <= i < |a| ==> a[i].key == b[i].key && |a[i].bytes| == |b[i].bytes|
  }

  ghost function KeyFor<K(!new), V(!new)>(m: map<K, V>, entry: (K, V) -> Entry, e: Entry): (k: K)
    requires e in EntriesOf(m, entry)
    ensures k in m && entry(k, m[k]) == e
  {
    var k :| k in m && entry(k, m[k]) == e; k
  }

  lemma EntriesApart<K(!new), V(!new)>(m: map<K, V>, entry: (K, V) -> Entry)
    requires KeyedApart(m, entry)
    ensures KeysApart(EntriesOf(m, entry))
  {
  }

  /** The entry of the same key with the value the other table has for it. */
  ghost function Swapped<K(!new), V(!new)>(a: map<K, V>, b: map<K, V>, entry: (K, V) -> Entry, e: Entry): Entry
    requires e in EntriesOf(a, entry)
  {
    var k := KeyFor(a, entry, e);
    entry(k, Lookup(b, k, a[k]))
  }

  lemma SwappedKey<K(!new), V(!new)>(a: map<K, V>, b: map<K, V>, entry: (K, V) -> Entry, k: K)
    requires a.Keys == b.Keys && KeyedApart(a, entry) && k in a
    ensures entry(k, a[k]) in EntriesOf(a, entry) && Swapped(a, b, entry, entry(k, a[k])) == entry(k, b[k])
  {
  }

  /** Swapping all values gives exactly the entries of the other table. */
  lemma SwappedAll<K(!new), V(!new)>(a: map<K, V>, b: map<K, V>, entry: (K, V) -> Entry, list: seq<Entry>,
                                     other: seq<Entry>)
    requires a.Keys == b.Keys && KeyedApart(a, entry) && |other| == |list|
    requires forall e :: e in list <==> e in EntriesOf(a, entry)
    requires forall i :: 0 <= i < |list| ==> list[i] in EntriesOf(a, entry) && other[i] == Swapped(a, b, entry, list[i])
    ensures forall e :: e in other <==> e in EntriesOf(b, entry)
    ensures forall k :: k in a ==>
              exists i :: 0 <= i < |other| && list[i] == entry(k, a[k]) && other[i] == entry(k, b[k])
  {
    forall k | k in a
      ensures exists i :: 0 <= i < |other| && list[i] == entry(k, a[k]) && other[i] == entry(k, b[k])
    {
      SwappedKey(a, b, entry, k);
      var i :| 0 <= i < |list| && list[i] == entry(k, a[k]);
      assert other[i] == entry(k, b[k]);
    }
    forall e ensures e in other <==> e in EntriesOf(b, entry) {
      if e in other {
        var i :| 0 <= i < |other| && other[i] == e;
        SwappedKey(a, b, entry, KeyFor(a, entry, list[i]));
      }
      if e in EntriesOf(b, entry) {
        var k := KeyFor(b, entry, e);
        assert k in a;
      }
    }
  }

  /** Replacing the values of one table by those of the other keeps the order of the listing. */
  lemma SameOrder<K(!new), V(!new)>(a: map<K, V>, b: map<K, V>, entry: (K, V) -> Entry) returns (other: seq<Entry>)
    requires a.Keys == b.Keys && KeyedApart(a, entry) && Framed(entry)
    ensures other == Listing(EntriesOf(b, entry)) && Aligned(Listing(EntriesOf(a, entry)), other)
    ensures var list := Listing(EntriesOf(a, entry));
            forall k :: k in a ==>
              exists i :: 0 <= i < |other| && list[i] == entry(k, a[k]) && other[i] == entry(k, b[k])
  {
    var list := Listing(EntriesOf(a, entry));
    EntriesApart(a, entry);
    ListingOf(EntriesOf(a, entry));
    forall i | 0 <= i < |list| ensures list[i] in EntriesOf(a, entry) { assert list[i] in list; }
    other := seq(|list|, i requires 0 <= i < |list| => Swapped(a, b, entry, list[i]));
    SwappedAll(a, b, entry, list, other);
    SwappedAligned(a, b, entry, list, other);
    ListingIs(other, EntriesOf(b, entry));
  }

  lemma SwappedAligned<K(!new), V(!new)>(a: map<K, V>, b: map<K, V>, entry: (K, V) -> Entry, list: seq<Entry>,
                                         other: seq<Entry>)
    requires a.Keys == b.Keys && Framed(entry) && |other| == |list| && Ascending(list)
    requires forall i :: 0 <= i < |list| ==> list[i] in EntriesOf(a, entry) && other[i] == Swapped(a, b, entry, list[i])
    ensures Aligned(list, other) && Ascending(other)
  {
    forall i | 0 <= i < |list| ensures other[i].key == list[i].key && |other[i].bytes| == |list[i].bytes| {
      var k := KeyFor(a, entry, list[i]);
      assert list[i] == entry(k, a[k]) && other[i] == entry(k, b[k]);
    }
  }

  lemma {:induction false} FedLength(a: seq<Entry>, b: seq<Entry>)
    requires Aligned(a, b)
    ensures |Fed(a)| == |Fed(b)|
    decreases |a|
  {
    if a == [] {
    } else {
      FedLength(a[..|a| - 1], b[..|b| - 1]);
    }
  }

  lemma {:induction false} FedEqual(a: seq<Entry>, b: seq<Entry>)
    requires Aligned(a, b) && Fed(a) == Fed(b)
    ensures forall i :: 0 <= i < |a| ==> a[i].bytes == b[i].bytes
    decreases |a|
  {
    if a == [] {
    } else {
      var n := |a| - 1;
      FedLength(a[..n], b[..n]);
      assert Fed(a)[..|Fed(a[..n])|] == Fed(a[..n]) && Fed(b)[..|Fed(b[..n])|] == Fed(b[..n]);
      assert Fed(a)[|Fed(a[..n])|..] == a[n].bytes && Fed(b)[|Fed(b[..n])|..] == b[n].bytes;
      FedEqual(a[..n], b[..n]);
      forall i | 0 <= i < |a| ensures a[i].bytes == b[i].bytes {
        if i < n { assert a[..n][i] == a[i] && b[..n][i] == b[i]; }
      }
    }
  }

  lemma SectionLength<K(!new), V(!new)>(a: map<K, V>, b: map<K, V>, entry: (K, V) -> Entry)
    requires a.Keys == b.Keys && KeyedApart(a, entry) && Framed(entry)
    ensures |Section(a, entry)| == |Section(b, entry)|
  {
    var other := SameOrder(a, b, entry);
    FedLength(Listing(EntriesOf(a, entry)), other);
  }

  /** Equal sections under equal keys feed equal bytes for every key. */
  lemma SectionBinds<K(!new), V(!new)>(a: map<K, V>, b: map<K, V>, entry: (K, V) -> Entry)
    requires a.Keys == b.Keys && KeyedApart(a, entry) && Framed(entry) && Section(a, entry) == Section(b, entry)
    ensures forall k :: k in a ==> entry(k, a[k]).bytes == entry(k, b[k]).bytes
  {
    var other := SameOrder(a, b, entry);
    FedEqual(Listing(EntriesOf(a, entry)), other);
  }

  // ---- The three sections ---------------------------------------------------------------------------

  const U64_LIMIT: nat := 0x1_0000_0000_0000_0000

  /** The two ledgers have the same keys in all three tables. */
  predicate SameKeys(a: Ledger, b: Ledger) {
    a.filled.Keys == b.filled.Keys && a.cancelled.Keys == b.cancelled.Keys && a.nonces.Keys == b.nonces.Keys
  }

  /** Every amount and nonce fits the program's 64 bits. */
  predicate Fits(l: Ledger) {
    && (forall h :: h in l.filled ==> l.filled[h] < U64_LIMIT)
    && (forall t :: t in l.nonces ==> l.nonces[t] < U64_LIMIT)
  }

  lemma Framings(digest: Digest)
    ensures Framed(FilledEntry(digest)) && Framed(CancelledEntry(digest)) && Framed(NonceEntry())
  {
    forall n: nat ensures |BigEndian(n, 8)| == 8 { }
  }

  lemma Big8(a: nat, b: nat)
    requires a < U64_LIMIT && b < U64_LIMIT && BigEndian(a, 8) == BigEndian(b, 8)
    ensures a == b
  {
    Widths();
    ValueOfBigEndian(a, 8);
    ValueOfBigEndian(b, 8);
  }

  lemma LastBytes(p: seq<byte>, a: seq<byte>, b: seq<byte>)
    requires p + a == p + b
    ensures a == b
  {
    assert (p + a)[|p|..] == a && (p + b)[|p|..] == b;
  }

  lemma FilledBinds(a: map<OrderHash, nat>, b: map<OrderHash, nat>, digest: Digest)
    requires a.Keys == b.Keys && KeyedApart(a, FilledEntry(digest))
    requires forall h :: h in a ==> a[h] < U64_LIMIT && b[h] < U64_LIMIT
    requires Section(a, FilledEntry(digest)) == Section(b, FilledEntry(digest))
    ensures a == b
  {
    Framings(digest);
    SectionBinds(a, b, FilledEntry(digest));
    forall h | h in a ensures a[h] == b[h] {
      LastBytes(digest(h), BigEndian(a[h], 8), BigEndian(b[h], 8));
      Big8(a[h], b[h]);
    }
  }

  lemma CancelledBinds(a: map<OrderHash, bool>, b: map<OrderHash, bool>, digest: Digest)
    requires a.Keys == b.Keys && KeyedApart(a, CancelledEntry(digest))
    requires Section(a, CancelledEntry(digest)) == Section(b, CancelledEntry(digest))
    ensures a == b
  {
    Framings(digest);
    SectionBinds(a, b, CancelledEntry(digest));
    forall h | h in a ensures a[h] == b[h] {
      LastBytes(digest(h), [if a[h] then 1 else 0], [if b[h] then 1 else 0]);
    }
  }

  lemma NoncesBind(a: map<TraderId, nat>, b: map<TraderId, nat>)
    requires a.Keys == b.Keys && forall t :: t in a ==> a[t] < U64_LIMIT && b[t] < U64_LIMIT
    requires Section(a, NonceEntry()) == Section(b, NonceEntry())
    ensures a == b
  {
    NoncesApart(a);
    Framings(h => []);
    SectionBinds(a, b, NonceEntry());
    forall t | t in a ensures a[t] == b[t] {
      LastBytes(Prefixed(t.text), BigEndian(a[t], 8), BigEndian(b[t], 8));
      Big8(a[t], b[t]);
    }
  }

  lemma SectionsSplit(p: seq<byte>, q: seq<byte>, r: seq<byte>, x: seq<byte>, y: seq<byte>, z: seq<byte>)
    requires |p| == |x| && |q| == |y| && p + q + r == x + y + z
    ensures p == x && q == y && r == z
  {
    assert (p + q + r)[..|p|] == p && (x + y + z)[..|x|] == x;
    assert (p + q + r)[|p|..|p| + |q|] == q && (x + y + z)[|x|..|x| + |y|] == y;
    assert (p + q + r)[|p| + |q|..] == r && (x + y + z)[|x| + |y|..] == z;
  }

  /** Under the same keys, equal fingerprints mean equal ledgers: every amount, flag and nonce is hashed. */
  lemma FingerprintBinds(a: Ledger, b: Ledger, digest: Digest)
    requires Distinguishes(digest, a) && SameKeys(a, b) && Fits(a) && Fits(b)
    ensures Fingerprint(a, digest) == Fingerprint(b, digest) <==> a == b
  {
    if Fingerprint(a, digest) == Fingerprint(b, digest) {
      Framings(digest);
      NoncesApart(a.nonces);
      SectionLength(a.filled, b.filled, FilledEntry(digest));
      SectionLength(a.cancelled, b.cancelled, CancelledEntry(digest));
      SectionsSplit(Section(a.filled, FilledEntry(digest)), Section(a.cancelled, CancelledEntry(digest)),
                    Section(a.nonces, NonceEntry()),
                    Section(b.filled, FilledEntry(digest)), Section(b.cancelled, CancelledEntry(digest)),
                    Section(b.nonces, NonceEntry()));
      FilledBinds(a.filled, b.filled, digest);
      CancelledBinds(a.cancelled, b.cancelled, digest);
      NoncesBind(a.nonces, b.nonces);
    }
  }

  lemma OneEntry<K(!new), V(!new)>(k: K, v: V, entry: (K, V) -> Entry)
    ensures Section(map[k := v], entry) == entry(k, v).bytes
  {
    var m := map[k := v];
    var e := entry(k, v);
    assert m[k] == v && EntriesOf(m, entry) == {e};
    ListingIs([e], EntriesOf(m, entry));
    assert Fed([e]) == Fed([]) + e.bytes;
  }

  lemma NoEntry<K(!new), V(!new)>(entry: (K, V) -> Entry)
    ensures Section(map[], entry) == []
  {
    assert EntriesOf<K, V>(map[], entry) == {};
    ListingIs([], EntriesOf<K, V>(map[], entry));
  }

  lemma SharedBytes(trader: Text)
    requires trader == Zeros(23)
    ensures |Prefixed(trader) + Zeros(7)| == 32
    ensures Prefixed(trader) + Zeros(7) + [1] == Prefixed(trader) + BigEndian(1, 8)
  {
    assert BigEndian(0, 1) == Zeros(1) && BigEndian(0, 2) == Zeros(2) && BigEndian(0, 3) == Zeros(3);
    assert BigEndian(0, 4) == Zeros(4) && BigEndian(0, 5) == Zeros(5) && BigEndian(0, 6) == Zeros(6);
    assert BigEndian(1, 8) == BigEndian(0, 7) + [1] && BigEndian(0, 7) == Zeros(7);
  }

  /** Without the same keys it need not: one cancel and one nonce can feed the same 33 bytes. */
  lemma SharedFingerprint() returns (a: Ledger, b: Ledger, digest: Digest)
    ensures Distinguishes(digest, a) && Distinguishes(digest, b) && (forall h :: |digest(h)| == 32)
    ensures Fits(a) && Fits(b) && a != b && Fingerprint(a, digest) == Fingerprint(b, digest)
  {
    var hash, trader := OrderHash([]), TraderId(Zeros(23));
    var bytes := Prefixed(trader.text) + Zeros(7);
    SharedBytes(trader.text);
    digest := (h: OrderHash) => bytes;
    a, b := Ledger(map[], map[hash := true], map[]), Ledger(map[], map[], map[trader := 1]);
    NoEntry(FilledEntry(digest));
    NoEntry(CancelledEntry(digest));
    NoEntry(NonceEntry());
    OneEntry(hash, true, CancelledEntry(digest));
    OneEntry<TraderId, nat>(trader, 1, NonceEntry());
    assert hash !in b.cancelled;
  }

  // ---- Snapshots ------------------------------------------------------------------------------------------

  ghost predicate Injective(sha: seq<byte> -> Text) {
    forall x, y :: sha(x) == sha(y) ==> x == y
  }

  lemma {:induction false} HexInjective(a: seq<byte>, b: seq<byte>)
    requires HexEncode(a) == HexEncode(b)
    ensures a == b
    decreases |a|
  {
    if a == [] || b == [] {
    } else {
      var x, y := HexEncode(a), HexEncode(b);
      assert x[0] == y[0] && x[1] == y[1] && x[2..] == HexEncode(a[1..]) && y[2..] == HexEncode(b[1..]);
      DigitsInjective(a[0] as nat / 16, b[0] as nat / 16);
      DigitsInjective(a[0] as nat % 16, b[0] as nat % 16);
      HexInjective(a[1..], b[1..]);
      assert a == [a[0]] + a[1..] && b == [b[0]] + b[1..];
    }
  }

  lemma DigitsInjective(a: nat, b: nat)
    requires a < 16 && b < 16 && HexDigit(a) == HexDigit(b)
    ensures a == b
  {
  }

  /**
   * A snapshot that carries the checksum of a ledger loads exactly if its events replay to that ledger, as long
   * as the keys are the same: an altered amount, flag or nonce is refused.
   */
  lemma AlteredSnapshotRefused(s: Snapshot, l: Ledger, digest: Digest, sha: seq<byte> -> Text)
    requires s.schemaVersion == SNAPSHOT_SCHEMA_VERSION && Replayed(s.events).Ok? && Injective(sha)
    requires s.stateChecksum == HexEncode(sha(Fingerprint(l, digest)))
    requires var w := Replayed(s.events).value;
             Distinguishes(digest, l) && SameKeys(l, w.ledger) && Fits(l) && Fits(w.ledger)
    ensures var w, r := Replayed(s.events).value, LoadOutcome(s, digest, sha);
            && (w.ledger == l ==> r == Ok(w))
            && (w.ledger != l ==> r.Err? && r.error.ChecksumMismatch? && r.error.stored == s.stateChecksum)
  {
    var w := Replayed(s.events).value;
    FingerprintBinds(l, w.ledger, digest);
    if HexEncode(sha(Fingerprint(w.ledger, digest))) == s.stateChecksum {
      HexInjective(sha(Fingerprint(w.ledger, digest)), sha(Fingerprint(l, digest)));
    }
  }
}
