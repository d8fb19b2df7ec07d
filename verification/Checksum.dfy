/** The state fingerprint and the snapshots it guards: src/db/mod.rs `checksum`, src/snapshot/mod.rs. */
module Checksum {
  import opened Basics
  import opened Domain
  import opened Canonical
  import opened Store
  import opened Replaying
  import opened EngineSpec
  import opened Steps
  import opened Runs
  import opened ReplayLoop
  import LogTheory

  /** What one table entry feeds to the hasher, and the key it is sorted by. */
  datatype Entry = Entry(key: Text, bytes: seq<byte>)

  // ---- Byte order ------------------------------------------------------------------------------

  /** The lexicographic order of byte strings. */
  predicate Less(a: Text, b: Text) {
    b != [] && (a == [] || a[0] < b[0] || (a[0] == b[0] && Less(a[1..], b[1..])))
  }

  lemma {:induction false} LessTotal(a: Text, b: Text)
    ensures Less(a, b) || a == b || Less(b, a)
    ensures !(Less(a, b) && Less(b, a))
    ensures Less(a, b) ==> a != b
  {
    if a != [] && b != [] && a[0] == b[0] {
      LessTotal(a[1..], b[1..]);
      assert a == [a[0]] + a[1..] && b == [b[0]] + b[1..];
    }
  }

  lemma {:induction false} LessTransitive(a: Text, b: Text, c: Text)
    requires Less(a, b) && Less(b, c)
    ensures Less(a, c)
  {
    if a != [] && a[0] == b[0] && b[0] == c[0] {
      LessTransitive(a[1..], b[1..], c[1..]);
    }
  }

  // ---- Sorted listings -------------------------------------------------------------------------

  ghost predicate Ascending(list: seq<Entry>) {
    forall i, j :: 0 <= i < j < |list| ==> Less(list[i].key, list[j].key)
  }

  ghost predicate IsListing(list: seq<Entry>, entries: set<Entry>) {
    Ascending(list) && forall e :: e in list <==> e in entries
  }

  lemma HeadLeast(list: seq<Entry>, entries: set<Entry>, e: Entry)
    requires IsListing(list, entries) && e in entries && e != list[0]
    requires list != []
    ensures Less(list[0].key, e.key)
  {
    var i :| 0 <= i < |list| && list[i] == e;
  }

  lemma TailListing(list: seq<Entry>, entries: set<Entry>)
    requires IsListing(list, entries) && list != []
    ensures IsListing(list[1..], entries - {list[0]})
  {
    forall e ensures e in list[1..] <==> e in entries - {list[0]} {
      if e in list[1..] {
        var k :| 0 <= k < |list[1..]| && list[1..][k] == e;
        assert list[k + 1] == e;
        LessTotal(list[0].key, list[k + 1].key);
      }
    }
  }

  /** Order leaves no choice: a set of entries has at most one ascending listing. */
  lemma {:induction false} ListingUnique(a: seq<Entry>, b: seq<Entry>, entries: set<Entry>)
    requires IsListing(a, entries) && IsListing(b, entries)
    ensures a == b
    decreases |a|
  {
    assert a != [] ==> a[0] in a;
    assert b != [] ==> b[0] in b;
    if a != [] && b != [] {
      if a[0] != b[0] {
        HeadLeast(a, entries, b[0]);
        HeadLeast(b, entries, a[0]);
        LessTotal(a[0].key, b[0].key);
      }
      TailListing(a, entries);
      TailListing(b, entries);
      ListingUnique(a[1..], b[1..], entries - {a[0]});
      assert a == [a[0]] + a[1..] && b == [b[0]] + b[1..];
    }
  }

  /** The ascending listing of a set of entries. */
  ghost function Listing(entries: set<Entry>): seq<Entry> {
    if exists list :: IsListing(list, entries) then var list :| IsListing(list, entries); list else []
  }

  lemma ListingIs(list: seq<Entry>, entries: set<Entry>)
    requires IsListing(list, entries)
    ensures Listing(entries) == list
  {
    ListingUnique(Listing(entries), list, entries);
  }

  /** `sort_by_key`. */
  function InsertEntry(e: Entry, list: seq<Entry>): (r: seq<Entry>)
    ensures forall x :: x in r <==> x == e || x in list
  {
    if list == [] || !Less(list[0].key, e.key) then [e] + list else [list[0]] + InsertEntry(e, list[1..])
  }

  function SortEntries(list: seq<Entry>): (r: seq<Entry>)
    ensures forall x :: x in r <==> x in list
  {
    if list == [] then [] else InsertEntry(list[0], SortEntries(list[1..]))
  }

  ghost predicate KeysDistinct(list: seq<Entry>) {
    forall i, j :: 0 <= i < j < |list| ==> list[i].key != list[j].key
  }

  lemma {:induction false} InsertAscends(e: Entry, list: seq<Entry>)
    requires Ascending(list) && forall x :: x in list ==> x.key != e.key
    ensures Ascending(InsertEntry(e, list))
  {
    if list == [] {
    } else {
      LessTotal(list[0].key, e.key);
      if Less(list[0].key, e.key) {
        assert forall x :: x in list[1..] ==> x in list;
        InsertAscends(e, list[1..]);
        ConsAscends(list[0], InsertEntry(e, list[1..]), list);
      } else {
        ConsFirst(e, list);
      }
    }
  }

  lemma ConsAscends(head: Entry, rest: seq<Entry>, list: seq<Entry>)
    requires Ascending(rest) && Ascending(list) && list != [] && head == list[0]
    requires forall x :: x in rest ==> Less(head.key, x.key) || x in list[1..]
    ensures Ascending([head] + rest)
  {
    forall k | 0 <= k < |rest| ensures Less(head.key, rest[k].key) {
      assert rest[k] in rest;
      if rest[k] in list[1..] {
        var j :| 0 <= j < |list[1..]| && list[1..][j] == rest[k];
        assert list[j + 1] == rest[k];
      }
    }
  }

  lemma ConsFirst(e: Entry, list: seq<Entry>)
    requires Ascending(list) && list != [] && Less(e.key, list[0].key)
    ensures Ascending([e] + list)
  {
    forall k | 0 <= k < |list| ensures Less(e.key, list[k].key) {
      if k > 0 { LessTransitive(e.key, list[0].key, list[k].key); }
    }
  }

  lemma {:induction false} SortAscends(list: seq<Entry>)
    requires KeysDistinct(list)
    ensures Ascending(SortEntries(list))
  {
    if list == [] {
    } else {
      SortAscends(list[1..]);
      forall x | x in SortEntries(list[1..]) ensures x.key != list[0].key {
        var j :| 0 <= j < |list[1..]| && list[1..][j] == x;
        assert list[j + 1] == x;
      }
      InsertAscends(list[0], SortEntries(list[1..]));
    }
  }

  /** Whatever order a hash map yields its entries in, sorting gives the one listing. */
  lemma SortIsListing(list: seq<Entry>, entries: set<Entry>)
    requires KeysDistinct(list) && forall e :: e in list <==> e in entries
    ensures SortEntries(list) == Listing(entries)
  {
    SortAscends(list);
    ListingIs(SortEntries(list), entries);
  }

  // ---- The checksum ----------------------------------------------------------------------------

  // The 32 bytes under which the program keys its tables.
  type Digest = OrderHash -> Text

  /** No two hashes of a table collide. */
  ghost predicate Distinguishes(digest: Digest, l: Ledger) {
    && (forall a, b :: a in l.filled && b in l.filled && digest(a) == digest(b) ==> a == b)
    && (forall a, b :: a in l.cancelled && b in l.cancelled && digest(a) == digest(b) ==> a == b)
  }

  function FilledEntry(digest: Digest): (OrderHash, nat) -> Entry {
    (hash: OrderHash, qty: nat) => Entry(digest(hash), digest(hash) + BigEndian(qty, 8))
  }

  function CancelledEntry(digest: Digest): (OrderHash, bool) -> Entry {
    (hash: OrderHash, flag: bool) => Entry(digest(hash), digest(hash) + [if flag then 1 else 0])
  }

  function NonceEntry(): (TraderId, nat) -> Entry {
    (trader: TraderId, nonce: nat) => Entry(trader.text, Prefixed(trader.text) + BigEndian(nonce, 8))
  }

  ghost function EntriesOf<K(!new), V(!new)>(m: map<K, V>, entry: (K, V) -> Entry): set<Entry> {
    set k | k in m :: entry(k, m[k])
  }

  function Fed(list: seq<Entry>): seq<byte> {
    if list == [] then [] else Fed(list[..|list| - 1]) + list[|list| - 1].bytes
  }

  ghost function Section<K(!new), V(!new)>(m: map<K, V>, entry: (K, V) -> Entry): seq<byte> {
    Fed(Listing(EntriesOf(m, entry)))
  }

  /** The bytes hashed: each table in key order, one after the other. */
  ghost function Fingerprint(l: Ledger, digest: Digest): seq<byte> {
    Section(l.filled, FilledEntry(digest)) + Section(l.cancelled, CancelledEntry(digest))
      + Section(l.nonces, NonceEntry())
  }

  ghost predicate KeyedApart<K(!new), V>(m: map<K, V>, entry: (K, V) -> Entry) {
    forall a, b :: a in m && b in m && entry(a, m[a]).key == entry(b, m[b]).key ==> a == b
  }

  /** The entries of a table in whatever order it is iterated, sorted, and fed one by one. */
  method FeedTable<K(==, !new), V(!new)>(h0: seq<byte>, m: map<K, V>, entry: (K, V) -> Entry) returns (h: seq<byte>)
    requires KeyedApart(m, entry)
    ensures h == h0 + Section(m, entry)
  {
    var list: seq<Entry> := [];
    var todo := m.Keys;
    while todo != {}
      invariant todo <= m.Keys
      invariant forall e :: e in list <==> exists k :: k in m && k !in todo && e == entry(k, m[k])
      invariant KeysDistinct(list)
      decreases |todo|
    {
      var k :| k in todo;
      ghost var was := list;
      list := list + [entry(k, m[k])];
      todo := todo - {k};
      forall i | 0 <= i < |was| ensures was[i].key != entry(k, m[k]).key { assert was[i] in was; }
    }
    SortIsListing(list, EntriesOf(m, entry));
    var sorted := SortEntries(list);
    h := h0;
    var i := 0;
    while i < |sorted|
      invariant 0 <= i <= |sorted|
      invariant h == h0 + Fed(sorted[..i])
    {
      h := h + sorted[i].bytes;
      assert sorted[..i + 1][..i] == sorted[..i];
      i := i + 1;
    }
    assert sorted[..i] == sorted;
  }

  /** `checksum`: the same for every iteration order of the three tables. */
  method ComputeChecksum(state: StateStore, digest: Digest, sha: seq<byte> -> Text) returns (sum: Text)
    requires Distinguishes(digest, state.View())
    ensures sum == sha(Fingerprint(state.View(), digest))
  {
    var h := FeedTable([], state.filledAmounts, FilledEntry(digest));
    h := FeedTable(h, state.cancelled, CancelledEntry(digest));
    NoncesApart(state.nonces);
    h := FeedTable(h, state.nonces, NonceEntry());
    assert h == Fingerprint(state.View(), digest);
    sum := sha(h);
  }

  lemma NoncesApart(nonces: map<TraderId, nat>)
    ensures KeyedApart(nonces, NonceEntry())
  {
    assert forall t: TraderId :: t == TraderId(t.text);
  }

  // ---- Snapshots -------------------------------------------------------------------------------

  datatype Snapshot = Snapshot(
    schemaVersion: nat,
    snapshotSeq: nat,
    stateChecksum: Text,
    createdAtMs: nat,
    events: seq<SequencedEvent>,
    markets: seq<MarketConfig>)

  datatype SnapshotError =
    | UnsupportedVersion(found: nat)
    | ChecksumMismatch(stored: Text, computed: Text)
    | ReplayFailed(error: ReplayError)

  const SNAPSHOT_SCHEMA_VERSION: nat := 1

  function CreateSnapshot(events: seq<SequencedEvent>, markets: seq<MarketConfig>, checksum: Text, nowMs: nat)
    : Snapshot
  {
    var last := if events == [] then 0 else events[|events| - 1].seqId;
    Snapshot(SNAPSHOT_SCHEMA_VERSION, last, HexEncode(checksum), nowMs, events, markets)
  }

  /** Replay first, then compare the fingerprint of what was rebuilt. */
  ghost function LoadOutcome(s: Snapshot, digest: Digest, sha: seq<byte> -> Text): Result<Working, SnapshotError> {
    if s.schemaVersion != SNAPSHOT_SCHEMA_VERSION then Err(UnsupportedVersion(s.schemaVersion)) else
      match Replayed(s.events)
      case Err(e) => Err(ReplayFailed(e))
      case Ok(w) =>
        var computed := HexEncode(sha(Fingerprint(w.ledger, digest)));
        if computed != s.stateChecksum then Err(ChecksumMismatch(s.stateChecksum, computed)) else Ok(w)
  }

  method LoadSnapshot(s: Snapshot, digest: Digest, sha: seq<byte> -> Text)
    returns (r: Result<(ReplayResult, seq<MarketConfig>, nat), SnapshotError>)
    requires Replayed(s.events).Ok? ==> Distinguishes(digest, Replayed(s.events).value.ledger)
    ensures match LoadOutcome(s, digest, sha)
            case Err(e) => r == Err(e)
            case Ok(w) =>
              && r.Ok? && r.value.1 == s.markets && r.value.2 == s.snapshotSeq
              && BooksView(r.value.0.books) == ReplayedBooks(w.orders) && r.value.0.state.View() == w.ledger
  {
    if s.schemaVersion != SNAPSHOT_SCHEMA_VERSION { return Err(UnsupportedVersion(s.schemaVersion)); }
    var replayed := Replay(s.events);
    if replayed.Err? { return Err(ReplayFailed(replayed.error)); }
    var sum := ComputeChecksum(replayed.value.state, digest, sha);
    var computed := HexEncode(sum);
    if computed != s.stateChecksum { return Err(ChecksumMismatch(s.stateChecksum, computed)); }
    return Ok((replayed.value, s.markets, s.snapshotSeq));
  }

  /**
   * A snapshot of any reachable engine, after forced cancels, crashes and restarts too, passes its own checksum
   * when it is loaded, and the replay it was checked against brings back the ledgers of the engine.
   */
  lemma SnapshotLoads(ops: seq<Op>, world: World, markets: seq<MarketConfig>, nowMs: nat, digest: Digest,
                      sha: seq<byte> -> Text)
    requires FreshIds(NEW_ENGINE, ops, world)
    ensures var v := Run(NEW_ENGINE, ops, world);
            var s := CreateSnapshot(v.log, markets, sha(Fingerprint(v.ledger, digest)), nowMs);
            var loaded := LoadOutcome(s, digest, sha);
            && Inv(v) && loaded == Ok(WorkingOf(v)) && loaded.value.ledger == v.ledger
            && s.snapshotSeq == |v.log| && s.events == v.log && s.markets == markets && s.createdAtMs == nowMs
  {
    NewCanRun(ops, world);
    RunKeeps(NEW_ENGINE, ops, world);
    var v := Run(NEW_ENGINE, ops, world);
    if v.log != [] { LogTheory.LegalAt(v.log, |v.log| - 1); }
  }
}
