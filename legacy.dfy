/** The earlier order page (src/pages/Commander.tsx): three fixed baskets
    with fixed prices, the products of the week filtered by basket type,
    and the requests a submission sends. */
module LegacyOrderForm {
  import opened Wrappers
  import opened Wizard

  /** One of the fixed baskets. */
  datatype FixedBasket = FixedBasket(id: string, name: string, price: int)

  /** A product of the week. */
  datatype Product = Product(id: int, name: string, category: string, origin: string)

  /** The customer details of the last step, once validated and trimmed. */
  datatype Customer = Customer(name: string, email: string, phone: string, rgpdConsent: bool)

  /** The body of `createOrder`. */
  datatype OrderPayload = OrderPayload(
    customerId: int,
    customer: Customer,
    pickupPoint: string,
    basketType: string,
    basketPrice: int,
    isSubscription: bool,
    subscriptionWeeks: Option<int>)

  /** The calls a submission makes, in order. */
  datatype Request =
    | CreateCustomer(details: Customer)
    | CreateOrder(payload: OrderPayload)
    | CreateSubscription(customerId: int, basketType: string, weeks: int, pickupPoint: string)

  const SubscriptionWeeks: int := 4

  const Baskets: seq<FixedBasket> := [
    FixedBasket("fruits", "Panier Fruits", 10),
    FixedBasket("legumes", "Panier Légumes", 15),
    FixedBasket("mixte", "Panier Mixte", 20)
  ]

  /** `baskets.find(b => b.id === id)`. */
  function FindFixed(baskets: seq<FixedBasket>, id: string): (r: Option<FixedBasket>)
    ensures r.None? <==> forall i :: 0 <= i < |baskets| ==> baskets[i].id != id
    ensures r.Some? ==> r.value in baskets && r.value.id == id
  {
    if baskets == [] then None
    else if baskets[0].id == id then Some(baskets[0])
    else
      var r := FindFixed(baskets[1..], id);
      assert forall j :: 1 <= j < |baskets| ==> baskets[j] == baskets[1..][j - 1];
      r
  }

  /** `selectedBasket`: the fixed basket named by the basket type. */
  function SelectedBasket(basketType: string): Option<FixedBasket>
  {
    FindFixed(Baskets, basketType)
  }

  /** The three baskets and their prices; any other type selects nothing. */
  lemma SelectedBasketPrices(basketType: string)
    ensures basketType == "fruits" ==> SelectedBasket(basketType) == Some(FixedBasket("fruits", "Panier Fruits", 10))
    ensures basketType == "legumes" ==> SelectedBasket(basketType) == Some(FixedBasket("legumes", "Panier Légumes", 15))
    ensures basketType == "mixte" ==> SelectedBasket(basketType) == Some(FixedBasket("mixte", "Panier Mixte", 20))
    ensures SelectedBasket(basketType).None? <==> basketType != "fruits" && basketType != "legumes" && basketType != "mixte"
  {
    assert Baskets[0].id == "fruits" && Baskets[1].id == "legumes" && Baskets[2].id == "mixte";
    if SelectedBasket(basketType).Some? {
      assert SelectedBasket(basketType).value in Baskets;
    }
  }

  /** `totalPrice`: the price, times 4 for a subscription; 0 with no basket.
      It is never negative, and 0 exactly when the type selects no basket. */
  function TotalPrice(basketType: string, isSubscription: bool): (r: int)
    ensures SelectedBasket(basketType).Some? ==>
      r == SelectedBasket(basketType).value.price * (if isSubscription then SubscriptionWeeks else 1)
    ensures basketType == "fruits" ==> r == (if isSubscription then 40 else 10)
    ensures basketType == "legumes" ==> r == (if isSubscription then 60 else 15)
    ensures basketType == "mixte" ==> r == (if isSubscription then 80 else 20)
    ensures r >= 0
    ensures r == 0 <==> SelectedBasket(basketType).None?
  {
    SelectedBasketPrices(basketType);
    var b := SelectedBasket(basketType);
    if b.Some? then b.value.price * (if isSubscription then SubscriptionWeeks else 1) else 0
  }

  /** A subscription costs four single orders, and the total is never
      negative. */
  lemma TotalPriceSubscription(basketType: string)
    ensures TotalPrice(basketType, true) == SubscriptionWeeks * TotalPrice(basketType, false)
    ensures TotalPrice(basketType, false) >= 0
    ensures TotalPrice(basketType, false) == 0 <==> SelectedBasket(basketType).None?
  {
    SelectedBasketPrices(basketType);
  }

  // ---------------------------------------------------------------------
  // The products of the week (src/pages/Commander.tsx:367-372)

  /** Whether a product is shown for a basket type. */
  predicate Shown(basketType: string, p: Product)
  {
    if basketType == "fruits" then p.category == "fruit"
    else if basketType == "legumes" then p.category == "legume"
    else true
  }

  /** The filter over the products of the week. */
  function WeeklyFilter(products: seq<Product>, basketType: string): (r: seq<Product>)
    ensures |r| <= |products|
    ensures forall p :: p in r ==> p in products && Shown(basketType, p)
  {
    if products == [] then []
    else
      var rest := WeeklyFilter(products[1..], basketType);
      if Shown(basketType, products[0]) then [products[0]] + rest else rest
  }

  /** `sub` is `s` with some elements removed, order kept. */
  predicate IsSubsequence(sub: seq<Product>, s: seq<Product>)
  {
    if sub == [] then true
    else if s == [] then false
    else if sub[0] == s[0] then IsSubsequence(sub[1..], s[1..])
    else IsSubsequence(sub, s[1..])
  }

  /** The filter keeps exactly the products of the basket's category (all
      of them for a mixed basket), in their order. */
  lemma {:induction false} WeeklyFilterKeeps(products: seq<Product>, basketType: string)
    ensures forall p :: p in WeeklyFilter(products, basketType) <==> p in products && Shown(basketType, p)
    ensures IsSubsequence(WeeklyFilter(products, basketType), products)
    ensures basketType != "fruits" && basketType != "legumes" ==> WeeklyFilter(products, basketType) == products
    ensures forall p :: multiset(WeeklyFilter(products, basketType))[p] ==
                        (if Shown(basketType, p) then multiset(products)[p] else 0)
  {
    if products != [] {
      WeeklyFilterKeeps(products[1..], basketType);
      assert forall p :: p in products <==> p == products[0] || p in products[1..];
      assert products == [products[0]] + products[1..];
      assert multiset(products) == multiset{products[0]} + multiset(products[1..]);
      var r := WeeklyFilter(products, basketType);
      if Shown(basketType, products[0]) {
        assert r[1..] == WeeklyFilter(products[1..], basketType);
      } else {
        SubsequenceSkip(r, products);
      }
    }
  }

  lemma SubsequenceSkip(sub: seq<Product>, s: seq<Product>)
    requires s != [] && IsSubsequence(sub, s[1..])
    ensures IsSubsequence(sub, s)
  {
    if sub != [] && sub[0] == s[0] {
      SubsequenceTail(sub, s[1..]);
    }
  }

  lemma {:induction false} SubsequenceTail(sub: seq<Product>, s: seq<Product>)
    requires sub != [] && IsSubsequence(sub, s)
    ensures IsSubsequence(sub[1..], s)
  {
    if sub[0] == s[0] {
      SubsequenceSkip(sub[1..], s);
    } else {
      SubsequenceTail(sub, s[1..]);
      SubsequenceSkip(sub[1..], s);
    }
  }

  // ---------------------------------------------------------------------
  // Submission (src/pages/Commander.tsx:150-163)

  /** The body of `createOrder`. */
  function OrderPayloadOf(customerId: int, customer: Customer, pickupPoint: string, basketType: string, isSubscription: bool): (o: OrderPayload)
    ensures o.customerId == customerId && o.customer == customer
    ensures o.pickupPoint == pickupPoint && o.basketType == basketType
    ensures o.isSubscription == isSubscription
    ensures o.basketPrice == (if SelectedBasket(basketType).Some? then SelectedBasket(basketType).value.price else 0)
    ensures o.basketPrice == TotalPrice(basketType, false)
    ensures o.subscriptionWeeks.Some? <==> isSubscription
    ensures isSubscription ==> o.subscriptionWeeks == Some(SubscriptionWeeks)
  {
    var b := SelectedBasket(basketType);
    OrderPayload(customerId, customer, pickupPoint, basketType, if b.Some? then b.value.price else 0,
                 isSubscription, if isSubscription then Some(SubscriptionWeeks) else None)
  }

  /** The calls of `handleSubmit` once the form is valid: the customer, the
      order, and a four-week subscription when subscribing. */
  function Requests(customerId: int, customer: Customer, pickupPoint: string, basketType: string, isSubscription: bool): (r: seq<Request>)
    ensures |r| == if isSubscription then 3 else 2
    ensures r[0] == CreateCustomer(customer)
    ensures r[1] == CreateOrder(OrderPayloadOf(customerId, customer, pickupPoint, basketType, isSubscription))
    ensures isSubscription ==> r[2] == CreateSubscription(customerId, basketType, SubscriptionWeeks, pickupPoint)
  {
    [CreateCustomer(customer), CreateOrder(OrderPayloadOf(customerId, customer, pickupPoint, basketType, isSubscription))]
    + if isSubscription then [CreateSubscription(customerId, basketType, SubscriptionWeeks, pickupPoint)] else []
  }

  /** What the order says agrees with the total shown: the total is the
      basket price, times the subscription weeks when subscribing. */
  lemma PayloadMatchesTotal(customerId: int, customer: Customer, pickupPoint: string, basketType: string, isSubscription: bool)
    ensures var o := OrderPayloadOf(customerId, customer, pickupPoint, basketType, isSubscription);
      TotalPrice(basketType, isSubscription) == o.basketPrice * (if o.subscriptionWeeks.Some? then o.subscriptionWeeks.value else 1)
  {
  }

  // ---------------------------------------------------------------------
  // The page state

  class LegacyPage {
    var step: int
    var pickupPoint: string
    var basketType: string
    var isSubscription: bool
    /** The products of the week, as loaded. */
    var products: seq<Product>

    ghost predicate Valid()
      reads this
    {
      FirstStep <= step <= LastStep
    }

    constructor ()
      ensures Valid()
      ensures step == FirstStep && pickupPoint == "" && basketType == "" && !isSubscription
      ensures products == []
    {
      step := FirstStep;
      pickupPoint := "";
      basketType := "";
      isSubscription := false;
      products := [];
    }

    /** The loading effect: the fetched products, or nothing on failure. */
    method LoadProducts(fetched: Option<seq<Product>>)
      modifies this`products
      ensures products == if fetched.Some? then fetched.value else old(products)
    {
      if fetched.Some? {
        products := fetched.value;
      }
    }

    /** The products step 3 shows for the chosen basket type. */
    function ShownProducts(): (r: seq<Product>)
      reads this
      ensures forall p :: p in r <==> p in products && Shown(basketType, p)
      ensures IsSubsequence(r, products)
    {
      WeeklyFilterKeeps(products, basketType);
      WeeklyFilter(products, basketType)
    }

    /** "Continuer" (steps 1 to 3). */
    method HandleNext()
      requires Valid() && step < LastStep
      modifies this`step
      ensures Valid()
      ensures step == Next(old(step), pickupPoint, basketType)
    {
      if ValidateStep(step, pickupPoint, basketType) {
        step := step + 1;
      }
    }

    /** "Retour" (steps 2 to 4). */
    method GoBack()
      requires Valid() && step > FirstStep
      modifies this`step
      ensures Valid() && step == old(step) - 1
    {
      step := step - 1;
    }

    method ChoosePickupPoint(point: string)
      modifies this`pickupPoint
      ensures pickupPoint == point
    {
      pickupPoint := point;
    }

    method ChooseBasketType(t: string)
      modifies this`basketType
      ensures basketType == t
    {
      basketType := t;
    }

    method SetSubscription(subscribe: bool)
      modifies this`isSubscription
      ensures isSubscription == subscribe
    {
      isSubscription := subscribe;
    }

    /** The requests the submit button sends from this state. */
    method Submit(customerId: int, customer: Customer) returns (requests: seq<Request>)
      ensures requests == Requests(customerId, customer, pickupPoint, basketType, isSubscription)
    {
      var basket := FindFixed(Baskets, basketType);
      var payload := OrderPayload(customerId, customer, pickupPoint, basketType, if basket.Some? then basket.value.price else 0,
                                  isSubscription, if isSubscription then Some(SubscriptionWeeks) else None);
      requests := [CreateCustomer(customer), CreateOrder(payload)];
      if isSubscription {
        requests := requests + [CreateSubscription(customerId, basketType, SubscriptionWeeks, pickupPoint)];
      }
    }
  }
}
