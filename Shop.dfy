/**
 The shop: it takes a cone from stock, pours the ordered flavours one by one
 (asking stock about each), adds the toppings, and only then charges the
 order. The stock and the billing system are collaborators whose insides are
 not part of the shop; here they are stand-ins that record every call made
 to them, and the stock answers availability questions from a script.

 PrepareIceCreamDish and Submit are the imperative loops; Prepare is the same
 preparation on values, and Expected is an independent description of its
 result (the first flavour the shop cannot take decides the error). The
 lemmas connect the two and derive the shop's promises from them.
 */
module Shop {
  import opened Menu
  import opened Dishes

  /** The stock's answer to its k-th availability question: the k-th scripted answer, and "no" once the script runs out. */
  function Answer(script: seq<bool>, k: nat): bool {
    k < |script| && script[k]
  }

  /** The answers still to come after n questions have been asked. */
  function After(script: seq<bool>, n: nat): (rest: seq<bool>)
    ensures forall k :: Answer(rest, k) == Answer(script, n + k)
  {
    if n <= |script| then script[n..] else []
  }

  /** Stand-in for the stock: a script of availability answers and a log of every call. */
  class Stock {
    const script: seq<bool>
    var queried: seq<Flavor>
    var grabbed: seq<(ConeType, PortionSize)>

    constructor (script: seq<bool>)
      ensures this.script == script && queried == [] && grabbed == []
    {
      this.script := script;
      queried := [];
      grabbed := [];
    }

    /** The answers the next availability questions will get. */
    function Upcoming(): seq<bool>
      reads this
    {
      After(script, |queried|)
    }

    /** Hands out a new, empty cone of the requested kind and size. */
    method GrabCone(coneType: ConeType, portionSize: PortionSize) returns (cone: Cone)
      modifies this
      ensures fresh(cone) && cone.View() == ConeView(coneType, portionSize, [], [])
      ensures grabbed == old(grabbed) + [(coneType, portionSize)] && queried == old(queried)
    {
      cone := new Cone(coneType, portionSize);
      grabbed := grabbed + [(coneType, portionSize)];
    }

    method HasFlavorAvailable(f: Flavor) returns (available: bool)
      modifies this
      ensures available == Answer(script, |old(queried)|)
      ensures queried == old(queried) + [f] && grabbed == old(grabbed)
    {
      available := Answer(script, |queried|);
      queried := queried + [f];
    }
  }

  /** Stand-in for the billing system: a log of the orders charged. */
  class Billing {
    var charged: seq<Order>

    constructor ()
      ensures charged == []
    {
      charged := [];
    }

    method Charge(order: Order)
      modifies this
      ensures charged == old(charged) + [order]
    {
      charged := charged + [order];
    }
  }

  /** Where the flavour loop stops: the cone, how many availability questions it asked, and whether it threw. */
  datatype Poured = Poured(cone: ConeView, queries: nat, outcome: Outcome)

  /**
   The flavour loop from flavour i on, with the cone in state c and `answers`
   holding the stock's answers to the order's questions (question k is about
   flavour k). It stops at the first flavour that is out of stock or that the
   dish refuses.
   */
  function PourFlavors(isVegan: bool, c: ConeView, flavors: seq<Flavor>, answers: seq<bool>, i: nat): (p: Poured)
    requires i <= |flavors|
    ensures i <= p.queries <= |flavors|
    ensures p.outcome.Pass? ==> p.queries == |flavors|
    ensures p.outcome.Fail? ==> i < p.queries
    ensures p.cone.coneType == c.coneType && p.cone.portionSize == c.portionSize
    ensures p.cone.toppings == c.toppings
    decreases |flavors| - i
  {
    if i == |flavors| then
      Poured(c, i, Pass)
    else if !Answer(answers, i) then
      Poured(c, i + 1, Fail(OutOfStock))
    else
      var s := DishAddFlavor(isVegan, c, flavors[i]);
      if s.outcome.Fail? then
        Poured(s.cone, i + 1, s.outcome)
      else
        PourFlavors(isVegan, s.cone, flavors, answers, i + 1)
  }

  /**
   Only flavours the loop has asked about reach the cone, in the order given:
   after a refusal at flavour k the cone holds the flavours before k, and k
   itself only when the cone took it and then overflowed. This holds for any
   starting cone, including one that already has flavours or a topping (the
   refusal is then FlavorAfterTopping and nothing is added), which is more
   than the shop's own preparation from an empty cone needs.
   */
  lemma {:induction false} PouredFlavorsWereAsked(isVegan: bool, c: ConeView, flavors: seq<Flavor>, answers: seq<bool>, i: nat)
    requires i <= |flavors|
    ensures
      var p := PourFlavors(isVegan, c, flavors, answers, i);
      (p.outcome.Pass? ==> p.cone.flavors == c.flavors + flavors[i..]) &&
      (p.outcome.Fail? ==>
         p.cone.flavors == c.flavors + flavors[i..p.queries - 1] +
           (if p.outcome.error == PortionSizeExceeded then [flavors[p.queries - 1]] else []))
    decreases |flavors| - i
  {
    if i < |flavors| && Answer(answers, i) {
      var s := DishAddFlavor(isVegan, c, flavors[i]);
      var p := PourFlavors(isVegan, c, flavors, answers, i);
      if s.outcome.Pass? {
        assert p == PourFlavors(isVegan, s.cone, flavors, answers, i + 1);
        PouredFlavorsWereAsked(isVegan, s.cone, flavors, answers, i + 1);
        if p.outcome.Fail? {
          SliceAfterHead(c.flavors, flavors, i, p.queries - 1);
        } else {
          SliceAfterHead(c.flavors, flavors, i, |flavors|);
        }
      } else {
        assert flavors[i..p.queries - 1] == [];
      }
    }
  }

  lemma SliceAfterHead<T>(a: seq<T>, s: seq<T>, i: nat, q: nat)
    requires i < q <= |s|
    ensures a + s[i..q] == (a + [s[i]]) + s[i + 1..q]
  {
  }

  function EmptyCone(coneType: ConeType, portionSize: PortionSize): ConeView {
    ConeView(coneType, portionSize, [], [])
  }

  /** The result of a preparation, and how many availability questions it asked. */
  datatype Prepared = Prepared(result: Result<DishView>, queries: nat)

  /** PrepareIceCreamDish on values: pour the flavours, then add every topping. */
  function Prepare(order: Order, answers: seq<bool>): (r: Prepared)
    ensures r.queries <= |order.flavors|
    ensures r.result.Ok? ==> r.queries == |order.flavors|
    ensures r.result.Err? ==> 0 < r.queries
    ensures r.result.Ok? ==>
      r.result.value.isVegan == order.isVegan &&
      r.result.value.cone.coneType == order.coneType &&
      r.result.value.cone.portionSize == order.portionSize &&
      r.result.value.cone.toppings == ToppingsOf(order)
  {
    var start := EmptyCone(order.coneType, order.portionSize);
    var p := PourFlavors(order.isVegan, start, order.flavors, answers, 0);
    match p.outcome
    case Fail(e) => Prepared(Err(e), p.queries)
    case Pass => Prepared(Ok(DishView(order.isVegan, p.cone.(toppings := ToppingsOf(order)))), p.queries)
  }

  /** Flavour k of the order can go on the dish: the stock has it, the dish accepts it and it fits. */
  predicate Admissible(order: Order, answers: seq<bool>, k: nat)
    requires k < |order.flavors|
  {
    Answer(answers, k) && (order.isVegan ==> IsVeganFlavor(order.flavors[k])) && k < Capacity(order.portionSize)
  }

  /** The first flavour at or after `from` that cannot go on the dish, or the number of flavours if there is none. */
  function FirstRefused(order: Order, answers: seq<bool>, from: nat): (k: nat)
    requires from <= |order.flavors|
    ensures from <= k <= |order.flavors|
    ensures forall j :: from <= j < k ==> Admissible(order, answers, j)
    ensures k < |order.flavors| ==> !Admissible(order, answers, k)
    decreases |order.flavors| - from
  {
    if from == |order.flavors| || !Admissible(order, answers, from) then from
    else FirstRefused(order, answers, from + 1)
  }

  /** The error a refused flavour raises: the first of the shop's checks it fails, in the order they are made. */
  function Refusal(order: Order, answers: seq<bool>, k: nat): (e: Error)
    requires k < |order.flavors|
    ensures e == OutOfStock <==> !Answer(answers, k)
    ensures e == VeganMismatch <==> Answer(answers, k) && order.isVegan && order.flavors[k] == Chocolate
    ensures e != FlavorAfterTopping
  {
    if !Answer(answers, k) then OutOfStock
    else if order.isVegan && !IsVeganFlavor(order.flavors[k]) then VeganMismatch
    else PortionSizeExceeded
  }

  /**
   What a preparation should produce, described without cones: if every
   flavour can go on, the dish holds exactly the ordered flavours and toppings
   and every flavour was asked about; otherwise the first refused flavour is
   the last one asked about and its refusal is the error.
   */
  function Expected(order: Order, answers: seq<bool>): Prepared {
    var k := FirstRefused(order, answers, 0);
    if k == |order.flavors| then
      var cone := ConeView(order.coneType, order.portionSize, order.flavors, ToppingsOf(order));
      Prepared(Ok(DishView(order.isVegan, cone)), k)
    else
      Prepared(Err(Refusal(order, answers, k)), k + 1)
  }

  /** The flavour loop resumed after the first i flavours went on agrees with Expected from flavour i on. */
  lemma {:induction false} PourFromPrefix(order: Order, answers: seq<bool>, i: nat)
    requires i <= |order.flavors|
    ensures
      var c := ConeView(order.coneType, order.portionSize, order.flavors[..i], []);
      var p := PourFlavors(order.isVegan, c, order.flavors, answers, i);
      var k := FirstRefused(order, answers, i);
      if k == |order.flavors| then
        p == Poured(c.(flavors := order.flavors), k, Pass)
      else
        p.queries == k + 1 && p.outcome == Fail(Refusal(order, answers, k)) &&
        p.cone.flavors == order.flavors[..k] +
          (if Refusal(order, answers, k) == PortionSizeExceeded then [order.flavors[k]] else [])
    decreases |order.flavors| - i
  {
    if i < |order.flavors| {
      assert order.flavors[..i] + [order.flavors[i]] == order.flavors[..i + 1];
      if Admissible(order, answers, i) {
        PourFromPrefix(order, answers, i + 1);
      }
    }
  }

  /** Preparation does what Expected describes, on every order and every stock behaviour. */
  lemma PrepareIsExpected(order: Order, answers: seq<bool>)
    ensures Prepare(order, answers) == Expected(order, answers)
  {
    PourFromPrefix(order, answers, 0);
  }

  /** A preparation succeeds exactly when every flavour is in stock, the dish accepts them all and they fit the cone. */
  lemma PreparedExactlyWhenAllAdmissible(order: Order, answers: seq<bool>)
    ensures Prepare(order, answers).result.Ok? <==>
      (forall k :: 0 <= k < |order.flavors| ==> Answer(answers, k)) &&
      (order.isVegan ==> Chocolate !in order.flavors) &&
      |order.flavors| <= Capacity(order.portionSize)
  {
    PrepareIsExpected(order, answers);
    var k := FirstRefused(order, answers, 0);
    var n := |order.flavors|;
    if k == n {
      if n > 0 {
        assert Admissible(order, answers, n - 1);
      }
      forall j | 0 <= j < n
        ensures Answer(answers, j) && (order.isVegan ==> order.flavors[j] != Chocolate)
      {
        assert Admissible(order, answers, j);
      }
    } else if order.isVegan ==> Chocolate !in order.flavors {
      assert !Admissible(order, answers, k);
      assert k < n;
    }
  }

  /** A successful preparation yields exactly the dish the order describes, within capacity and vegan if ordered so. */
  lemma PreparedDishMatchesOrder(order: Order, answers: seq<bool>)
    requires Prepare(order, answers).result.Ok?
    ensures Prepare(order, answers).queries == |order.flavors|
    ensures
      var dish := Prepare(order, answers).result.value;
      dish.isVegan == order.isVegan &&
      dish.cone == ConeView(order.coneType, order.portionSize, order.flavors, ToppingsOf(order)) &&
      |dish.cone.flavors| <= Capacity(order.portionSize) &&
      (dish.isVegan ==> Chocolate !in dish.cone.flavors)
  {
    PrepareIsExpected(order, answers);
    PreparedExactlyWhenAllAdmissible(order, answers);
  }

  /**
   If the stock says no to flavour n, the preparation fails and asks nothing
   after flavour n; when every earlier flavour went on, the error is OutOfStock.
   */
  lemma OutOfStockStopsPreparation(order: Order, answers: seq<bool>, n: nat)
    requires n < |order.flavors| && !Answer(answers, n)
    ensures Prepare(order, answers).result.Err?
    ensures Prepare(order, answers).queries <= n + 1
    ensures (forall j :: 0 <= j < n ==> Admissible(order, answers, j)) ==>
      Prepare(order, answers) == Prepared(Err(OutOfStock), n + 1)
  {
    PrepareIsExpected(order, answers);
    assert !Admissible(order, answers, n);
  }

  /**
   A vegan order with chocolate at position n is refused; when everything up to
   n is in stock, every flavour before n fits, and n is the first chocolate,
   the error is VeganMismatch and nothing after it is asked about. This holds
   even when the chocolate would be one flavour too many (n == capacity),
   because the dish's vegan check runs before the cone's capacity check.
   */
  lemma VeganOrderWithChocolateIsRefused(order: Order, answers: seq<bool>, n: nat)
    requires order.isVegan && n < |order.flavors| && order.flavors[n] == Chocolate
    ensures Prepare(order, answers).result.Err?
    ensures
      (forall j :: 0 <= j <= n ==> Answer(answers, j)) &&
      Chocolate !in order.flavors[..n] && n <= Capacity(order.portionSize) ==>
        Prepare(order, answers) == Prepared(Err(VeganMismatch), n + 1)
  {
    PrepareIsExpected(order, answers);
    assert !Admissible(order, answers, n);
    if (forall j :: 0 <= j <= n ==> Answer(answers, j)) &&
       Chocolate !in order.flavors[..n] && n <= Capacity(order.portionSize) {
      forall j | 0 <= j < n
        ensures Admissible(order, answers, j)
      {
        assert order.flavors[j] == order.flavors[..n][j];
      }
    }
  }

  /**
   An order with more flavours than its portion holds is refused; when the
   flavours up to one past the capacity are all in stock and allowed, the error
   is PortionSizeExceeded, raised on the flavour that overflows.
   */
  lemma OversizedOrderIsRefused(order: Order, answers: seq<bool>)
    requires |order.flavors| > Capacity(order.portionSize)
    ensures Prepare(order, answers).result.Err?
    ensures
      var cap := Capacity(order.portionSize);
      (forall j :: 0 <= j <= cap ==> Answer(answers, j)) &&
      (order.isVegan ==> Chocolate !in order.flavors[..cap + 1]) ==>
        Prepare(order, answers) == Prepared(Err(PortionSizeExceeded), cap + 1)
  {
    PreparedExactlyWhenAllAdmissible(order, answers);
    PrepareIsExpected(order, answers);
    var cap := Capacity(order.portionSize);
    if (forall j :: 0 <= j <= cap ==> Answer(answers, j)) &&
       (order.isVegan ==> Chocolate !in order.flavors[..cap + 1]) {
      forall j | 0 <= j < cap
        ensures Admissible(order, answers, j)
      {
        assert order.flavors[j] == order.flavors[..cap + 1][j];
      }
      assert order.flavors[cap] == order.flavors[..cap + 1][cap];
      assert !Admissible(order, answers, cap);
    }
  }

  /** Toppings go on only after the last flavour, so a preparation never throws FlavorAfterTopping. */
  lemma PreparationNeverSeesFlavorAfterTopping(order: Order, answers: seq<bool>)
    ensures Prepare(order, answers).result != Err(FlavorAfterTopping)
  {
    PrepareIsExpected(order, answers);
  }

  class IceCreamShop {
    const stock: Stock
    const billing: Billing

    constructor (stock: Stock, billing: Billing)
      ensures this.stock == stock && this.billing == billing
    {
      this.stock := stock;
      this.billing := billing;
    }

    /** Builds the dish an order asks for, asking the stock about each flavour; charges nothing. */
    method PrepareIceCreamDish(order: Order) returns (r: Result<IceCreamDish>)
      modifies stock
      ensures
        var spec := Prepare(order, old(stock.Upcoming()));
        stock.grabbed == old(stock.grabbed) + [(order.coneType, order.portionSize)] &&
        stock.queried == old(stock.queried) + order.flavors[..spec.queries] &&
        (r.Ok? <==> spec.result.Ok?) &&
        (r.Ok? ==> fresh(r.value) && fresh(r.value.cone) && r.value.View() == spec.result.value) &&
        (r.Err? ==> spec.result == Err(r.error))
    {
      ghost var answers := stock.Upcoming();
      ghost var asked := stock.queried;
      var cone := stock.GrabCone(order.coneType, order.portionSize);
      var dish := new IceCreamDish(cone, order.isVegan);
      ghost var poured := PourFlavors(order.isVegan, cone.View(), order.flavors, answers, 0);

      var i := 0;
      while i < |order.flavors|
        invariant i <= |order.flavors|
        invariant fresh(cone) && dish.cone == cone && dish.isVegan == order.isVegan
        invariant stock.grabbed == old(stock.grabbed) + [(order.coneType, order.portionSize)]
        invariant stock.queried == asked + order.flavors[..i]
        invariant cone.View().toppings == []
        invariant PourFlavors(order.isVegan, cone.View(), order.flavors, answers, i) == poured
      {
        var available := stock.HasFlavorAvailable(order.flavors[i]);
        assert available == Answer(answers, i);
        assert stock.queried == asked + order.flavors[..i + 1];
        if !available {
          return Err(OutOfStock);
        }
        var outcome := dish.AddFlavor(order.flavors[i]);
        if outcome.Fail? {
          return Err(outcome.error);
        }
        i := i + 1;
      }
      assert poured.outcome.Pass?;

      var toppings := ToppingsOf(order);
      var j := 0;
      while j < |toppings|
        invariant j <= |toppings|
        invariant stock.grabbed == old(stock.grabbed) + [(order.coneType, order.portionSize)]
        invariant stock.queried == asked + order.flavors
        invariant cone.View() == poured.cone.(toppings := toppings[..j])
      {
        dish.AddTopping(toppings[j]);
        assert toppings[..j] + [toppings[j]] == toppings[..j + 1];
        j := j + 1;
      }
      assert toppings[..j] == toppings;
      return Ok(dish);
    }

    /**
     Prepares the dish and, only if that succeeds, charges the order once.
     A refused order is never charged.
     */
    method Submit(order: Order) returns (r: Result<IceCreamDish>)
      modifies stock, billing
      ensures
        var spec := Prepare(order, old(stock.Upcoming()));
        stock.grabbed == old(stock.grabbed) + [(order.coneType, order.portionSize)] &&
        stock.queried == old(stock.queried) + order.flavors[..spec.queries] &&
        (r.Ok? <==> spec.result.Ok?) &&
        (r.Ok? ==> fresh(r.value) && fresh(r.value.cone) && r.value.View() == spec.result.value) &&
        (r.Err? ==> spec.result == Err(r.error))
      ensures billing.charged == old(billing.charged) + (if r.Ok? then [order] else [])
    {
      r := PrepareIceCreamDish(order);
      if r.Err? {
        return;
      }
      billing.Charge(order);
    }
  }
}
