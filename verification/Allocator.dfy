/** The sequential reference: one clerk working through the orders one by one. The pipeline is
    proved to do exactly what the clerk does, in the order the inventory transactions committed. */
module Allocator {
  import opened Prelude

  datatype Demand = Demand(sku: string, quantity: int, simulateFailure: bool)

  datatype Allocation = Allocation(stocks: map<string, int>, granted: seq<bool>)

  predicate Grants(stocks: map<string, int>, d: Demand)
  {
    !d.simulateFailure && d.sku in stocks && d.quantity <= stocks[d.sku]
  }

  function Serve(stocks: map<string, int>, d: Demand): map<string, int>
  {
    if Grants(stocks, d) then stocks[d.sku := stocks[d.sku] - d.quantity] else stocks
  }

  function Allocate(stocks: map<string, int>, demands: seq<Demand>): (a: Allocation)
    ensures |a.granted| == |demands|
  {
    if demands == [] then Allocation(stocks, [])
    else
      var before := Allocate(stocks, demands[..|demands| - 1]);
      var d := demands[|demands| - 1];
      Allocation(Serve(before.stocks, d), before.granted + [Grants(before.stocks, d)])
  }

  lemma AllocateNext(stocks: map<string, int>, demands: seq<Demand>, d: Demand)
    ensures var a := Allocate(stocks, demands);
            Allocate(stocks, demands + [d]) == Allocation(Serve(a.stocks, d), a.granted + [Grants(a.stocks, d)])
  {
    assert (demands + [d])[..|demands|] == demands;
  }

  /** A demand is decided by the demands before it alone. */
  lemma {:induction false} GrantedByPrefix(stocks: map<string, int>, demands: seq<Demand>, i: nat)
    requires i < |demands|
    ensures Allocate(stocks, demands).granted[i] == Grants(Allocate(stocks, demands[..i]).stocks, demands[i])
  {
    if i < |demands| - 1 {
      GrantedByPrefix(stocks, demands[..|demands| - 1], i);
      assert demands[..|demands| - 1][..i] == demands[..i];
    }
  }

  /** What the granted ones among these demands took from `sku`. */
  function Spent(demands: seq<Demand>, granted: seq<bool>, sku: string): int
    requires |granted| == |demands|
  {
    if demands == [] then 0
    else
      var last := |demands| - 1;
      Spent(demands[..last], granted[..last], sku)
      + if granted[last] && demands[last].sku == sku then demands[last].quantity else 0
  }

  /** The clerk's stock is the opening stock less what has been granted. */
  lemma {:induction false} AllocateSpends(stocks: map<string, int>, demands: seq<Demand>)
    ensures var a := Allocate(stocks, demands);
            && a.stocks.Keys == stocks.Keys
            && forall sku :: sku in stocks ==> a.stocks[sku] == stocks[sku] - Spent(demands, a.granted, sku)
  {
    if demands != [] {
      var last := |demands| - 1;
      AllocateSpends(stocks, demands[..last]);
      var a, before := Allocate(stocks, demands), Allocate(stocks, demands[..last]);
      assert a.granted[..last] == before.granted;
    }
  }

  lemma {:induction false} GrantedPrefix(stocks: map<string, int>, demands: seq<Demand>, i: nat)
    requires i <= |demands|
    ensures Allocate(stocks, demands).granted[..i] == Allocate(stocks, demands[..i]).granted
    decreases |demands|
  {
    if i < |demands| {
      var last := |demands| - 1;
      GrantedPrefix(stocks, demands[..last], i);
      assert demands[..last][..i] == demands[..i];
      assert Allocate(stocks, demands).granted[..i] == Allocate(stocks, demands[..last]).granted[..i];
    } else {
      assert demands[..i] == demands;
      assert Allocate(stocks, demands).granted[..i] == Allocate(stocks, demands).granted;
    }
  }

  /** A demand that is not marked to fail is granted exactly when its quantity is at most the opening stock
      less the quantities granted before it. */
  lemma GrantedIffLeft(stocks: map<string, int>, demands: seq<Demand>, i: nat)
    requires i < |demands|
    ensures var granted, d := Allocate(stocks, demands).granted, demands[i];
            granted[i] <==>
            !d.simulateFailure && d.sku in stocks
            && d.quantity <= stocks[d.sku] - Spent(demands[..i], granted[..i], d.sku)
  {
    GrantedByPrefix(stocks, demands, i);
    GrantedPrefix(stocks, demands, i);
    AllocateSpends(stocks, demands[..i]);
  }
}
