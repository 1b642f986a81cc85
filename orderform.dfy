/** The order page of the client portal
    (verger-client-portal/src/pages/Commander.tsx): the kit name it looks
    up, the total it shows, the products it sends with a custom basket, and
    the page state the wizard, the effects and the quantity stepper update.
    Prices and quantities are integers; JavaScript's `NaN` is `None`. */
module OrderForm {
  import opened Wrappers
  import opened Wizard

  /** A product inside a basket; kit products carry no price. */
  datatype BasketProduct = BasketProduct(id: int, name: string, category: string, quantity: int, price: Option<int>)

  /** A basket as the page holds it: a kit from the proxy, or the custom one. */
  datatype Basket = Basket(id: int, name: string, price: int, products: seq<BasketProduct>)

  /** A product of the week. */
  datatype WeeklyProduct = WeeklyProduct(id: int, name: string, price: int, category: string)

  /** A line of a custom order; the price is copied as it is, even absent. */
  datatype OrderProduct = OrderProduct(id: int, quantity: int, price: Option<int>)

  /** The body of `createOrder`. */
  datatype OrderRequest = OrderRequest(customerId: int, basketId: Option<int>, pickupPoint: string,
                                       products: Option<seq<OrderProduct>>)

  const Personalised: string := "personnalise"
  const CustomBasketName: string := "Panier Personnalisé"

  // ---------------------------------------------------------------------
  // The kit name (Commander.tsx:47-63)

  /** The type's label: vegetables, fruit, and mixed for any other type. */
  function TypeLabel(basketType: string): (text: string)
    ensures basketType == "legumes" ==> text == "Panier légumes"
    ensures basketType == "fruits" ==> text == "Panier fruits"
    ensures basketType != "legumes" && basketType != "fruits" ==> text == "Panier mixte"
    ensures |text| > 7 && text[7] == (if basketType == "legumes" then 'l' else if basketType == "fruits" then 'f' else 'm')
  {
    if basketType == "legumes" then "Panier légumes"
    else if basketType == "fruits" then "Panier fruits"
    else "Panier mixte"
  }

  /** The pickup point's label: the farm, the Saturday market, and the
      Sunday market for any other point. */
  function PickupLabel(pickupPoint: string): (text: string)
    ensures pickupPoint == "ferme" ==> text == "ferme"
    ensures pickupPoint == "marche-samedi" ==> text == "marché samedi"
    ensures pickupPoint != "ferme" && pickupPoint != "marche-samedi" ==> text == "marché dimanche"
  {
    if pickupPoint == "ferme" then "ferme"
    else if pickupPoint == "marche-samedi" then "marché samedi"
    else "marché dimanche"
  }

  /** `buildOdooBasketName`: the type label, one space, the pickup label. */
  function BuildOdooBasketName(pickupPoint: string, basketType: string): (name: string)
    ensures name == TypeLabel(basketType) + " " + PickupLabel(pickupPoint)
    ensures name[..|TypeLabel(basketType)|] == TypeLabel(basketType)
    ensures name[|TypeLabel(basketType)|] == ' '
    ensures name[|TypeLabel(basketType)| + 1..] == PickupLabel(pickupPoint)
  {
    TypeLabel(basketType) + " " + PickupLabel(pickupPoint)
  }

  /** Two choices name the same kit exactly when they have the same labels:
      the eighth character tells the type apart, and the length then tells
      the pickup point apart. */
  lemma BasketNameInjective(pickup1: string, type1: string, pickup2: string, type2: string)
    ensures BuildOdooBasketName(pickup1, type1) == BuildOdooBasketName(pickup2, type2)
            <==> TypeLabel(type1) == TypeLabel(type2) && PickupLabel(pickup1) == PickupLabel(pickup2)
  {
    var n1 := BuildOdooBasketName(pickup1, type1);
    var n2 := BuildOdooBasketName(pickup2, type2);
    if n1 == n2 {
      assert n1[7] == TypeLabel(type1)[7] && n2[7] == TypeLabel(type2)[7];
      assert TypeLabel(type1) == TypeLabel(type2);
      assert |PickupLabel(pickup1)| == |PickupLabel(pickup2)|;
    }
  }

  // ---------------------------------------------------------------------
  // The kit-selection effect (Commander.tsx:162-170)

  /** `baskets.find(b => b.name === name)`. */
  function FindBasket(baskets: seq<Basket>, name: string): (r: Option<Basket>)
    ensures r.None? <==> forall i :: 0 <= i < |baskets| ==> baskets[i].name != name
    ensures r.Some? ==> exists i :: 0 <= i < |baskets| && baskets[i] == r.value && r.value.name == name
                                  && forall j :: 0 <= j < i ==> baskets[j].name != name
  {
    if baskets == [] then None
    else if baskets[0].name == name then Some(baskets[0])
    else
      var r := FindBasket(baskets[1..], name);
      assert forall j :: 1 <= j < |baskets| ==> baskets[j] == baskets[1..][j - 1];
      r
  }

  /** The basket the effect leaves selected: unchanged while the pickup
      point, the type or the basket list is empty, else the first loaded kit
      named after the two choices, or none. */
  function SelectedKit(pickupPoint: string, basketType: string, baskets: seq<Basket>, current: Option<Basket>): (r: Option<Basket>)
    ensures pickupPoint == "" || basketType == "" || baskets == [] ==> r == current
    ensures pickupPoint != "" && basketType != "" && baskets != [] ==>
      && (r.Some? ==> r.value in baskets && r.value.name == BuildOdooBasketName(pickupPoint, basketType))
      && (r.None? <==> forall b :: b in baskets ==> b.name != BuildOdooBasketName(pickupPoint, basketType))
    ensures pickupPoint != "" && basketType != "" && baskets != [] ==>
      r == FindBasket(baskets, BuildOdooBasketName(pickupPoint, basketType))
    ensures pickupPoint != "" && basketType != "" && baskets != [] && r.Some? ==>
      exists i :: 0 <= i < |baskets| && baskets[i] == r.value
                  && forall j :: 0 <= j < i ==> baskets[j].name != BuildOdooBasketName(pickupPoint, basketType)
  {
    if pickupPoint == "" || basketType == "" || |baskets| == 0 then current
    else FindBasket(baskets, BuildOdooBasketName(pickupPoint, basketType))
  }

  // ---------------------------------------------------------------------
  // Products of the week as a custom basket (Commander.tsx:182-195)

  /** Each product of the week becomes a basket product with quantity 1. */
  function WeeklyToBasketProducts(weekly: seq<WeeklyProduct>): (r: seq<BasketProduct>)
    ensures |r| == |weekly|
    ensures forall i :: 0 <= i < |r| ==>
      && r[i].id == weekly[i].id && r[i].name == weekly[i].name && r[i].category == weekly[i].category
      && r[i].quantity == 1 && r[i].price == Some(weekly[i].price)
  {
    if weekly == [] then []
    else
      var w := weekly[0];
      [BasketProduct(w.id, w.name, w.category, 1, Some(w.price))] + WeeklyToBasketProducts(weekly[1..])
  }

  /** The stand-in basket for a custom order. */
  function CustomBasket(weekly: seq<WeeklyProduct>): (b: Basket)
    ensures b.id == 0 && b.price == 0 && b.name == CustomBasketName
    ensures b.products == WeeklyToBasketProducts(weekly)
  {
    Basket(0, CustomBasketName, 0, WeeklyToBasketProducts(weekly))
  }

  // ---------------------------------------------------------------------
  // Selection flags and quantities

  /** `customProductsSelected[id]`, an absent key being falsy. */
  predicate Selected(selected: map<int, bool>, id: int)
  {
    id in selected && selected[id]
  }

  /** `customProductQuantities[id] || 1`. */
  function QuantityOr1(quantities: map<int, int>, id: int): (q: int)
    ensures id in quantities && quantities[id] != 0 ==> q == quantities[id]
    ensures !(id in quantities && quantities[id] != 0) ==> q == 1
  {
    if id in quantities && quantities[id] != 0 then quantities[id] else 1
  }

  /** `p.price || 2`: an absent or zero price counts as 2. */
  function PriceOr2(price: Option<int>): (unit: int)
    ensures price.Some? && price.value != 0 ==> unit == price.value
    ensures !(price.Some? && price.value != 0) ==> unit == 2
  {
    if price.Some? && price.value != 0 then price.value else 2
  }

  /** The checkbox flips one product's flag and no other. */
  function Toggled(selected: map<int, bool>, id: int): (r: map<int, bool>)
    ensures Selected(r, id) <==> !Selected(selected, id)
    ensures forall k :: k != id ==> (Selected(r, k) <==> Selected(selected, k))
  {
    selected[id := !Selected(selected, id)]
  }

  /** The "-" button: one less than the quantity shown, never below 1. */
  function Decremented(quantities: map<int, int>, id: int): (r: map<int, int>)
    ensures id in r && r[id] >= 1
    ensures r[id] == if QuantityOr1(quantities, id) > 1 then QuantityOr1(quantities, id) - 1 else 1
    ensures forall k :: k != id ==> (k in r <==> k in quantities) && (k in r ==> r[k] == quantities[k])
  {
    var shown := QuantityOr1(quantities, id);
    quantities[id := if shown - 1 > 1 then shown - 1 else 1]
  }

  /** The "+" button: one more than the quantity shown. */
  function Incremented(quantities: map<int, int>, id: int): (r: map<int, int>)
    ensures id in r && r[id] == QuantityOr1(quantities, id) + 1
    ensures forall k :: k != id ==> (k in r <==> k in quantities) && (k in r ==> r[k] == quantities[k])
  {
    quantities[id := QuantityOr1(quantities, id) + 1]
  }

  /** Quantities set by the stepper only are all at least 1. */
  ghost predicate QuantitiesPositive(quantities: map<int, int>)
  {
    forall k :: k in quantities ==> quantities[k] >= 1
  }

  /** Both buttons keep every quantity at least 1, and "+" then "-" shows
      the quantity shown before. */
  lemma StepperKeepsPositive(quantities: map<int, int>, id: int)
    requires QuantitiesPositive(quantities)
    ensures QuantitiesPositive(Decremented(quantities, id)) && QuantitiesPositive(Incremented(quantities, id))
    ensures QuantityOr1(Decremented(Incremented(quantities, id), id), id) == QuantityOr1(quantities, id)
  {
    var inc := Incremented(quantities, id);
    assert inc[id] == QuantityOr1(quantities, id) + 1 >= 2;
    var dec := Decremented(quantities, id);
    forall k | k in dec
      ensures dec[k] >= 1
    {
      if k != id {
        assert k in quantities;
      }
    }
  }

  // ---------------------------------------------------------------------
  // What is charged and what is sent (Commander.tsx:230-238, 296-305)

  function Multiplier(isSubscription: bool): int
  {
    if isSubscription then 4 else 1
  }

  /** The products sent with a custom order: the selected ones, in list
      order, with the quantity shown (1 when unset) and the price copied. */
  function OrderProducts(products: seq<BasketProduct>, selected: map<int, bool>, quantities: map<int, int>): (r: seq<OrderProduct>)
    ensures |r| <= |products|
    ensures forall op :: op in r ==> op.quantity == QuantityOr1(quantities, op.id)
    ensures forall op :: op in r ==>
      && Selected(selected, op.id)
      && exists p :: p in products && p.id == op.id && p.price == op.price
  {
    if products == [] then []
    else
      var init := products[..|products| - 1];
      var p := products[|products| - 1];
      var rest := OrderProducts(init, selected, quantities);
      if Selected(selected, p.id) then rest + [OrderProduct(p.id, QuantityOr1(quantities, p.id), p.price)]
      else rest
  }

  /** Every selected product is sent. */
  lemma {:induction false} OrderProductsComplete(products: seq<BasketProduct>, selected: map<int, bool>, quantities: map<int, int>)
    ensures forall p :: p in products && Selected(selected, p.id) ==>
      OrderProduct(p.id, QuantityOr1(quantities, p.id), p.price) in OrderProducts(products, selected, quantities)
  {
    if products != [] {
      var init := products[..|products| - 1];
      OrderProductsComplete(init, selected, quantities);
      assert forall p :: p in products ==> p in init || p == products[|products| - 1];
    }
  }

  /** Products are sent in list order: the products of two runs are those
      of the first run followed by those of the second. */
  lemma {:induction false} OrderProductsAppend(a: seq<BasketProduct>, b: seq<BasketProduct>,
                                               selected: map<int, bool>, quantities: map<int, int>)
    ensures OrderProducts(a + b, selected, quantities)
            == OrderProducts(a, selected, quantities) + OrderProducts(b, selected, quantities)
    decreases |b|
  {
    if b == [] {
      assert a + b == a;
    } else {
      var b' := b[..|b| - 1];
      assert (a + b)[..|a + b| - 1] == a + b';
      assert (a + b)[|a + b| - 1] == b[|b| - 1];
      OrderProductsAppend(a, b', selected, quantities);
    }
  }

  /** `selectedProductsForOrder`: products only for a custom basket that is
      loaded; `undefined` otherwise. */
  function SelectedProductsForOrder(basketType: string, selectedBasket: Option<Basket>,
                                    selected: map<int, bool>, quantities: map<int, int>): (r: Option<seq<OrderProduct>>)
    ensures r.Some? <==> basketType == Personalised && selectedBasket.Some?
    ensures r.Some? ==> r.value == OrderProducts(selectedBasket.value.products, selected, quantities)
  {
    if basketType == Personalised && selectedBasket.Some? then
      Some(OrderProducts(selectedBasket.value.products, selected, quantities))
    else None
  }

  /** What a list of order products costs, at 2 for an absent price. */
  function OrderAmount(ops: seq<OrderProduct>): int
  {
    if ops == [] then 0
    else OrderAmount(ops[..|ops| - 1]) + PriceOr2(ops[|ops| - 1].price) * ops[|ops| - 1].quantity
  }

  lemma OrderAmountSnoc(ops: seq<OrderProduct>, op: OrderProduct)
    ensures OrderAmount(ops + [op]) == OrderAmount(ops) + PriceOr2(op.price) * op.quantity
  {
    assert (ops + [op])[..|ops|] == ops;
  }

  /** The `reduce` of the custom total as written: the raw quantity of each
      selected product, `NaN` as soon as one was never set. */
  function SelectedSumAsWritten(products: seq<BasketProduct>, selected: map<int, bool>, quantities: map<int, int>): (r: Option<int>)
    ensures r.Some? <==> forall i :: 0 <= i < |products| && Selected(selected, products[i].id) ==> products[i].id in quantities
    ensures (forall i :: 0 <= i < |products| ==> !Selected(selected, products[i].id)) ==> r == Some(0)
  {
    if products == [] then Some(0)
    else
      var init := products[..|products| - 1];
      var rest := SelectedSumAsWritten(init, selected, quantities);
      var p := products[|products| - 1];
      assert forall i :: 0 <= i < |init| ==> init[i] == products[i];
      if !Selected(selected, p.id) then rest
      else if rest.None? || p.id !in quantities then None
      else Some(rest.value + PriceOr2(p.price) * quantities[p.id])
  }

  /** The same sum with the quantity shown, 1 when unset. */
  function SelectedSum(products: seq<BasketProduct>, selected: map<int, bool>, quantities: map<int, int>): (r: int)
    ensures (forall i :: 0 <= i < |products| ==> !Selected(selected, products[i].id)) ==> r == 0
    ensures QuantitiesPositive(quantities) && (forall i :: 0 <= i < |products| ==> PriceOr2(products[i].price) >= 0)
            ==> r >= 0
  {
    if products == [] then 0
    else
      var init := products[..|products| - 1];
      var rest := SelectedSum(init, selected, quantities);
      var p := products[|products| - 1];
      assert forall i :: 0 <= i < |init| ==> init[i] == products[i];
      if !Selected(selected, p.id) then rest
      else rest + PriceOr2(p.price) * QuantityOr1(quantities, p.id)
  }

  /** `totalPrice` as written (Commander.tsx:230-238): `None` is the `NaN`
      shown when the custom basket is missing or a selected product's
      quantity was never set. */
  function TotalPriceAsWritten(basketType: string, selectedBasket: Option<Basket>, selected: map<int, bool>,
                               quantities: map<int, int>, isSubscription: bool): (r: Option<int>)
    ensures r.None? <==>
      && basketType == Personalised
      && (|| selectedBasket.None?
          || exists i :: 0 <= i < |selectedBasket.value.products|
                         && Selected(selected, selectedBasket.value.products[i].id)
                         && selectedBasket.value.products[i].id !in quantities)
  {
    if basketType == Personalised then
      if selectedBasket.None? then None
      else
        var sum := SelectedSumAsWritten(selectedBasket.value.products, selected, quantities);
        if sum.None? then None else Some(sum.value * Multiplier(isSubscription))
    else Some((if selectedBasket.Some? then selectedBasket.value.price else 0) * Multiplier(isSubscription))
  }

  /** `totalPrice` with the quantity the page shows and sends, and 0 before
      the custom basket is loaded. */
  function TotalPrice(basketType: string, selectedBasket: Option<Basket>, selected: map<int, bool>,
                      quantities: map<int, int>, isSubscription: bool): (r: int)
    ensures var order := SelectedProductsForOrder(basketType, selectedBasket, selected, quantities);
      order.Some? ==> r == OrderAmount(order.value) * Multiplier(isSubscription)
  {
    if basketType == Personalised then
      if selectedBasket.None? then 0
      else
        SelectedSumIsOrderAmount(selectedBasket.value.products, selected, quantities);
        SelectedSum(selectedBasket.value.products, selected, quantities) * Multiplier(isSubscription)
    else (if selectedBasket.Some? then selectedBasket.value.price else 0) * Multiplier(isSubscription)
  }

  /** The sum over the selected products is the amount of the products sent. */
  lemma {:induction false} SelectedSumIsOrderAmount(products: seq<BasketProduct>, selected: map<int, bool>, quantities: map<int, int>)
    ensures SelectedSum(products, selected, quantities) == OrderAmount(OrderProducts(products, selected, quantities))
  {
    if products != [] {
      var init := products[..|products| - 1];
      var p := products[|products| - 1];
      SelectedSumIsOrderAmount(init, selected, quantities);
      if Selected(selected, p.id) {
        OrderAmountSnoc(OrderProducts(init, selected, quantities), OrderProduct(p.id, QuantityOr1(quantities, p.id), p.price));
      }
    }
  }

  /** The total charges what is ordered: a custom basket costs what its
      order products cost, a kit its price, each times 4 for a subscription. */
  lemma TotalPriceMatchesOrder(basketType: string, selectedBasket: Option<Basket>, selected: map<int, bool>,
                               quantities: map<int, int>, isSubscription: bool)
    ensures var order := SelectedProductsForOrder(basketType, selectedBasket, selected, quantities);
      order.Some? ==>
        TotalPrice(basketType, selectedBasket, selected, quantities, isSubscription)
          == OrderAmount(order.value) * Multiplier(isSubscription)
    ensures basketType != Personalised ==>
      TotalPrice(basketType, selectedBasket, selected, quantities, isSubscription)
        == (if selectedBasket.Some? then selectedBasket.value.price else 0) * Multiplier(isSubscription)
  {
    if basketType == Personalised && selectedBasket.Some? {
      SelectedSumIsOrderAmount(selectedBasket.value.products, selected, quantities);
    }
  }

  /** The sum as written is a number exactly when every selected product has
      a quantity, and then, with quantities from the stepper, it is the sum
      of what is sent. */
  lemma {:induction false} SumAsWrittenWhenSet(products: seq<BasketProduct>, selected: map<int, bool>, quantities: map<int, int>)
    requires QuantitiesPositive(quantities)
    ensures SelectedSumAsWritten(products, selected, quantities).Some?
            <==> forall i :: 0 <= i < |products| && Selected(selected, products[i].id) ==> products[i].id in quantities
    ensures SelectedSumAsWritten(products, selected, quantities).Some? ==>
            SelectedSumAsWritten(products, selected, quantities).value == SelectedSum(products, selected, quantities)
  {
    if products != [] {
      var init := products[..|products| - 1];
      SumAsWrittenWhenSet(init, selected, quantities);
      assert forall i :: 0 <= i < |init| ==> init[i] == products[i];
    }
  }

  /** A product checked without touching the stepper: the page sends it
      with quantity 1, yet shows `NaN` as the total; the corrected total is
      its price. */
  lemma UnsetQuantityShowsNaN()
    ensures var basket := Basket(0, CustomBasketName, 0, [BasketProduct(7, "Pommes", "fruit", 1, Some(3))]);
      && SelectedProductsForOrder(Personalised, Some(basket), map[7 := true], map[]) == Some([OrderProduct(7, 1, Some(3))])
      && TotalPriceAsWritten(Personalised, Some(basket), map[7 := true], map[], false) == None
      && TotalPrice(Personalised, Some(basket), map[7 := true], map[], false) == 3
  {
    var products := [BasketProduct(7, "Pommes", "fruit", 1, Some(3))];
    assert products[..0] == [];
    assert OrderProducts(products, map[7 := true], map[]) == [] + [OrderProduct(7, 1, Some(3))] == [OrderProduct(7, 1, Some(3))];
    var basket := Basket(0, CustomBasketName, 0, products);
    assert SelectedProductsForOrder(Personalised, Some(basket), map[7 := true], map[]) == Some([OrderProduct(7, 1, Some(3))]);
  }

  /** The body of `createOrder` (Commander.tsx:309-314). */
  function OrderRequestOf(customerId: int, basketType: string, pickupPoint: string, selectedBasket: Option<Basket>,
                          selected: map<int, bool>, quantities: map<int, int>): (r: OrderRequest)
    ensures r.customerId == customerId && r.pickupPoint == pickupPoint
    ensures r.basketId.Some? <==> selectedBasket.Some?
    ensures selectedBasket.Some? ==> r.basketId.value == selectedBasket.value.id
    ensures r.products == SelectedProductsForOrder(basketType, selectedBasket, selected, quantities)
  {
    OrderRequest(customerId, if selectedBasket.Some? then Some(selectedBasket.value.id) else None, pickupPoint,
                 SelectedProductsForOrder(basketType, selectedBasket, selected, quantities))
  }

  // ---------------------------------------------------------------------
  // The page state

  class OrderPage {
    var step: int
    var pickupPoint: string
    var basketType: string
    var isSubscription: bool
    var baskets: seq<Basket>
    var selectedBasket: Option<Basket>
    var weeklyProducts: seq<BasketProduct>
    var selected: map<int, bool>
    var quantities: map<int, int>

    ghost predicate Valid()
      reads this
    {
      FirstStep <= step <= LastStep && QuantitiesPositive(quantities)
    }

    /** The state the page mounts with. */
    constructor ()
      ensures Valid()
      ensures step == FirstStep && pickupPoint == "" && basketType == "" && !isSubscription
      ensures baskets == [] && selectedBasket == None && weeklyProducts == []
      ensures selected == map[] && quantities == map[]
    {
      step := FirstStep;
      pickupPoint := "";
      basketType := "";
      isSubscription := false;
      baskets := [];
      selectedBasket := None;
      weeklyProducts := [];
      selected := map[];
      quantities := map[];
    }

    /** "Continuer" (steps 1 to 3). */
    method HandleNext()
      requires Valid() && step < LastStep
      modifies this`step
      ensures Valid()
      ensures step == Next(old(step), pickupPoint, basketType)
    {
      if ValidateStep(step, pickupPoint, basketType) {
        step := step + 1;
      }
    }

    /** "Retour" (steps 2 to 4): back to the previous step. */
    method GoBack()
      requires Valid() && step > FirstStep
      modifies this`step
      ensures Valid() && step == old(step) - 1
    {
      step := step - 1;
    }

    method ChoosePickupPoint(point: string)
      modifies this`pickupPoint
      ensures pickupPoint == point
    {
      pickupPoint := point;
    }

    method ChooseBasketType(t: string)
      modifies this`basketType
      ensures basketType == t
    {
      basketType := t;
    }

    method SetSubscription(subscribe: bool)
      modifies this`isSubscription
      ensures isSubscription == subscribe
    {
      isSubscription := subscribe;
    }

    /** The kit-selection effect, run when the pickup point, the type or
        the basket list changes. */
    method SelectKitEffect()
      modifies this`selectedBasket
      ensures selectedBasket == SelectedKit(pickupPoint, basketType, baskets, old(selectedBasket))
    {
      if pickupPoint == "" || basketType == "" || |baskets| == 0 {
        return;
      }
      var name := BuildOdooBasketName(pickupPoint, basketType);
      selectedBasket := FindBasket(baskets, name);
    }

    /** The basket-loading effect: the fetched list, or nothing on failure. */
    method LoadBaskets(fetched: Option<seq<Basket>>)
      modifies this`baskets
      ensures baskets == if fetched.Some? then fetched.value else old(baskets)
    {
      if fetched.Some? {
        baskets := fetched.value;
      }
    }

    /** The weekly-products effect, for a custom basket only: the products
        of the week become the custom basket, or nothing on failure. */
    method LoadWeeklyProducts(fetched: Option<seq<WeeklyProduct>>)
      modifies this`weeklyProducts, this`selectedBasket
      ensures basketType == Personalised && fetched.Some? ==>
        weeklyProducts == WeeklyToBasketProducts(fetched.value) && selectedBasket == Some(CustomBasket(fetched.value))
      ensures !(basketType == Personalised && fetched.Some?) ==>
        weeklyProducts == old(weeklyProducts) && selectedBasket == old(selectedBasket)
    {
      if basketType != Personalised {
        return;
      }
      if fetched.Some? {
        var products := WeeklyToBasketProducts(fetched.value);
        weeklyProducts := products;
        selectedBasket := Some(Basket(0, CustomBasketName, 0, products));
      }
    }

    method ToggleProduct(id: int)
      modifies this`selected
      ensures selected == Toggled(old(selected), id)
    {
      selected := selected[id := !(id in selected && selected[id])];
    }

    method DecrementQuantity(id: int)
      requires Valid()
      modifies this`quantities
      ensures Valid()
      ensures quantities == Decremented(old(quantities), id)
    {
      var shown := if id in quantities && quantities[id] != 0 then quantities[id] else 1;
      quantities := quantities[id := if shown - 1 > 1 then shown - 1 else 1];
      StepperKeepsPositive(old(quantities), id);
    }

    method IncrementQuantity(id: int)
      requires Valid()
      modifies this`quantities
      ensures Valid()
      ensures quantities == Incremented(old(quantities), id)
    {
      var shown := if id in quantities && quantities[id] != 0 then quantities[id] else 1;
      quantities := quantities[id := shown + 1];
      StepperKeepsPositive(old(quantities), id);
    }
  }
}
