/** Fill, cancel and nonce ledgers: src/db/mod.rs. */
module Store {
  import opened Basics
  import opened Domain

  datatype Ledger = Ledger(
    filled: map<OrderHash, nat>,
    cancelled: map<OrderHash, bool>,
    nonces: map<TraderId, nat>)

  const EMPTY_LEDGER := Ledger(map[], map[], map[])

  function AddFilled(filled: map<OrderHash, nat>, hash: OrderHash, qty: nat): map<OrderHash, nat> {
    filled[hash := Lookup(filled, hash, 0) + qty]
  }

  /** One fill: the taker's entry and then the maker's entry grow by the quantity. */
  function ApplyFill(l: Ledger, f: Fill): Ledger {
    l.(filled := AddFilled(AddFilled(l.filled, f.takerOrderHash, f.size), f.makerOrderHash, f.size))
  }

  function ApplyFills(l: Ledger, fills: seq<Fill>): Ledger
    decreases |fills|
  {
    if fills == [] then l else ApplyFills(ApplyFill(l, fills[0]), fills[1..])
  }

  lemma {:induction false} ApplyFillsMore(l: Ledger, fills: seq<Fill>, f: Fill)
    ensures ApplyFills(l, fills + [f]) == ApplyFill(ApplyFills(l, fills), f)
    decreases |fills|
  {
    if fills == [] {
      assert [] + [f] == [f];
    } else {
      assert (fills + [f])[1..] == fills[1..] + [f];
      ApplyFillsMore(ApplyFill(l, fills[0]), fills[1..], f);
    }
  }

  function CancelHash(l: Ledger, hash: OrderHash): Ledger {
    l.(cancelled := l.cancelled[hash := true])
  }

  function SetNonce(l: Ledger, trader: TraderId, nonce: nat): Ledger {
    l.(nonces := l.nonces[trader := nonce])
  }

  datatype NonceError = NonceError(lastNonce: nat, submitted: nat)

  class StateStore {
    var filledAmounts: map<OrderHash, nat>
    var cancelled: map<OrderHash, bool>
    var nonces: map<TraderId, nat>

    function View(): Ledger
      reads this
    {
      Ledger(filledAmounts, cancelled, nonces)
    }

    constructor ()
      ensures View() == EMPTY_LEDGER
    {
      filledAmounts, cancelled, nonces := map[], map[], map[];
    }

    method ApplyFillPair(f: Fill)
      modifies this
      ensures View() == ApplyFill(old(View()), f)
    {
      filledAmounts := filledAmounts[f.takerOrderHash := Lookup(filledAmounts, f.takerOrderHash, 0) + f.size];
      filledAmounts := filledAmounts[f.makerOrderHash := Lookup(filledAmounts, f.makerOrderHash, 0) + f.size];
    }

    method CancelOrder(hash: OrderHash)
      modifies this
      ensures View() == CancelHash(old(View()), hash)
    {
      cancelled := cancelled[hash := true];
    }

    /** The strict intake check: a nonce at or below the last accepted one is refused. */
    method CheckAndUpdateNonce(trader: TraderId, nonce: nat) returns (r: Result<(), NonceError>)
      modifies this
      ensures r.Ok? <==> nonce > Lookup(old(nonces), trader, 0)
      ensures r.Err? ==> r.error == NonceError(Lookup(old(nonces), trader, 0), nonce)
      ensures View() == if r.Ok? then SetNonce(old(View()), trader, nonce) else old(View())
    {
      var last := Lookup(nonces, trader, 0);
      if nonce <= last { return Err(NonceError(last, nonce)); }
      nonces := nonces[trader := nonce];
      return Ok(());
    }

    /** The forgiving form used by replay: the stored nonce only ever moves up. */
    method RaiseNonce(trader: TraderId, nonce: nat)
      modifies this
      ensures View() == if nonce > Lookup(old(nonces), trader, 0) then SetNonce(old(View()), trader, nonce)
                        else old(View())
    {
      if nonce > Lookup(nonces, trader, 0) {
        nonces := nonces[trader := nonce];
      }
    }
  }
}
