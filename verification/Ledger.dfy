/**
 * The account ledger (venue/include/flox-venue/ledger.h:105-247): per account and asset an available and
 * a reserved balance. Every flow moves value or changes the asset's total by exactly what it says.
 */
module Ledger {
  import opened Arith

  type Account = nat
  type Asset = nat

  datatype Bal = Bal(avail: int, rsvd: int)

  type Balances = map<(Account, Asset), Bal>

  function Row(b: Balances, account: Account, asset: Asset): Bal {
    if (account, asset) in b then b[(account, asset)] else Bal(0, 0)
  }

  function Avail(b: Balances, account: Account, asset: Asset): int {
    Row(b, account, asset).avail
  }

  /** One row changed by so much available and so much reserved. */
  function Moved(b: Balances, account: Account, asset: Asset, avail: int, rsvd: int): Balances {
    var r := Row(b, account, asset);
    b[(account, asset) := Bal(r.avail + avail, r.rsvd + rsvd)]
  }

  function Part(b: Balances, asset: Asset, k: (Account, Asset)): int {
    if k.1 == asset && k in b then b[k].avail + b[k].rsvd else 0
  }

  /** What all accounts together hold of an asset. */
  ghost function Total(b: Balances, asset: Asset): int {
    Sum(b.Keys, k => Part(b, asset, k))
  }

  lemma {:induction false} TotalMoved(b: Balances, account: Account, asset: Asset, avail: int, rsvd: int, x: Asset)
    ensures Total(Moved(b, account, asset, avail, rsvd), x) == Total(b, x) + if x == asset then avail + rsvd else 0
  {
    var k, b' := (account, asset), Moved(b, account, asset, avail, rsvd);
    var f, g := k => Part(b, x, k), k => Part(b', x, k);
    var others := b.Keys - {k};
    SumSame(others, f, g);
    assert b'.Keys - {k} == others;
    SumWithout(b'.Keys, k, g);
    if k in b {
      SumWithout(b.Keys, k, f);
    } else {
      assert others == b.Keys;
    }
  }

  /** Every asset's total is as it was. */
  ghost predicate SameTotals(a: Balances, b: Balances) {
    forall x :: Total(a, x) == Total(b, x)
  }

  /** Only these accounts' rows may differ. */
  ghost predicate OnlyRows(a: Balances, b: Balances, accounts: set<Account>) {
    forall account, x :: account !in accounts ==> Row(b, account, x) == Row(a, account, x)
  }

  /** A credit mirrored on another account moves value and makes none. */
  lemma {:induction false} Mirrored(b: Balances, to: Account, from: Account, asset: Asset, amount: int)
    ensures var b' := Moved(Moved(b, to, asset, amount, 0), from, asset, -amount, 0);
            && SameTotals(b, b') && OnlyRows(b, b', {to, from})
            && (to != from ==>
                  Avail(b', to, asset) == Avail(b, to, asset) + amount &&
                  Avail(b', from, asset) == Avail(b, from, asset) - amount)
            && (to == from ==> Avail(b', to, asset) == Avail(b, to, asset))
            && (forall account, x :: x != asset ==> Row(b', account, x) == Row(b, account, x))
  {
    var c := Moved(b, to, asset, amount, 0);
    forall x ensures Total(b, x) == Total(Moved(c, from, asset, -amount, 0), x) {
      TotalMoved(b, to, asset, amount, 0, x);
      TotalMoved(c, from, asset, -amount, 0, x);
    }
  }

  lemma {:induction false} SameTotalsChain(a: Balances, b: Balances, c: Balances)
    requires SameTotals(a, b) && SameTotals(b, c)
    ensures SameTotals(a, c)
  {
    forall x ensures Total(a, x) == Total(c, x) { assert Total(a, x) == Total(b, x); }
  }

  class Ledger {
    var bal: Balances

    constructor ()
      ensures bal == map[]
    {
      bal := map[];
    }

    method Deposit(account: Account, asset: Asset, amount: int)
      modifies this
      ensures bal == Moved(old(bal), account, asset, amount, 0)
    {
      Credit(account, asset, amount);
    }

    method Credit(account: Account, asset: Asset, amount: int)
      modifies this
      ensures bal == Moved(old(bal), account, asset, amount, 0)
    {
      var r := Row(bal, account, asset);
      bal := bal[(account, asset) := r.(avail := r.avail + amount)];
    }

    /** All or nothing: no change when the account has too little. */
    method Debit(account: Account, asset: Asset, amount: int) returns (ok: bool)
      modifies this
      ensures ok <==> amount <= Avail(old(bal), account, asset)
      ensures if ok then bal == Moved(old(bal), account, asset, -amount, 0)
              else forall a, x :: Row(bal, a, x) == Row(old(bal), a, x)
      ensures !ok ==> SameTotals(old(bal), bal)
    {
      ghost var was := bal;
      var r := Row(bal, account, asset);
      bal := bal[(account, asset) := r];
      if r.avail < amount {
        forall x ensures Total(was, x) == Total(bal, x) { TotalMoved(was, account, asset, 0, 0, x); }
        return false;
      }
      bal := bal[(account, asset) := r.(avail := r.avail - amount)];
      ok := true;
    }

    /** available -> reserved, all or nothing; no asset's total changes. */
    method Reserve(account: Account, asset: Asset, amount: int) returns (ok: bool)
      modifies this
      ensures ok <==> amount <= Avail(old(bal), account, asset)
      ensures bal == (if ok then Moved(old(bal), account, asset, -amount, amount)
                      else Moved(old(bal), account, asset, 0, 0))
      ensures SameTotals(old(bal), bal)
    {
      ghost var was := bal;
      var r := Row(bal, account, asset);
      ok := amount <= r.avail;
      var m := if ok then amount else 0;
      bal := bal[(account, asset) := Bal(r.avail - m, r.rsvd + m)];
      forall x ensures Total(was, x) == Total(bal, x) { TotalMoved(was, account, asset, -m, m, x); }
    }

    /** reserved -> available, never more than is reserved. */
    method Release(account: Account, asset: Asset, amount: int)
      modifies this
      ensures var r := Row(old(bal), account, asset);
              var m := if amount < r.rsvd then amount else r.rsvd;
              bal == Moved(old(bal), account, asset, m, -m)
      ensures SameTotals(old(bal), bal)
    {
      ghost var was := bal;
      var r := Row(bal, account, asset);
      var m := if amount < r.rsvd then amount else r.rsvd;
      bal := bal[(account, asset) := Bal(r.avail + m, r.rsvd - m)];
      forall x ensures Total(was, x) == Total(bal, x) { TotalMoved(was, account, asset, m, -m, x); }
    }
  }
}
