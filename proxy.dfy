/** The order proxy (verger-odoo-proxy/server.js) over an in-memory ERP
    backend. `Backend` holds the backend's tables and a log of every remote
    call the proxy issues; its first group of methods are the remote calls
    themselves (what `odooCall` does to the backend), the second group the
    routes, written as the route handlers sequence those calls. */
module OdooProxy {
  import opened Wrappers
  import opened Odoo
  import opened Recipes

  /** res.partner, as the proxy creates it. */
  datatype Partner = Partner(id: int, name: string, email: string, phone: string, customerRank: int, rgpdConsent: bool)

  datatype OrderState = Quotation | Confirmed

  /** sale.order: confirming it generates its pickings. */
  datatype SaleOrder = SaleOrder(partnerId: int, note: string, lines: seq<OrderLine>, state: OrderState, pickingIds: seq<int>)

  /** stock.picking: reserved by `action_assign` when stock allows, done by
      `button_validate` once reserved. */
  datatype PickingState = Waiting | Ready | Done
  datatype Picking = Picking(orderId: int, moveCount: nat, reservable: bool, state: PickingState)

  /** sale.subscription, as the `/subscription` route creates it. */
  datatype Subscription = Subscription(partnerId: int, name: string, recurringCount: int)

  /** What the `/order` route answers: `{orderId}`, a 400 or a 500 error, or
      nothing at all when an exception escapes the handler. */
  datatype OrderResponse = OrderCreated(orderId: int) | BadRequest(error: string) | ServerError(error: string) | NoResponse

  const OrderNotFound: string := "Commande introuvable"

  // ---------------------------------------------------------------------
  // Customer resolution

  /** `search_read` on res.partner with `email = email`, in backend order. */
  function MatchingEmail(partners: seq<Partner>, email: string): seq<Partner>
  {
    if partners == [] then []
    else (if partners[0].email == email then [partners[0]] else []) + MatchingEmail(partners[1..], email)
  }

  /** The partner at index i is the first one with this email. */
  ghost predicate FirstWithEmail(partners: seq<Partner>, email: string, i: int)
  {
    0 <= i < |partners| && partners[i].email == email &&
    forall j :: 0 <= j < i ==> partners[j].email != email
  }

  /** The search finds something iff some partner has the email, and then
      its first result is the first such partner. */
  lemma {:induction false} MatchingEmailFirst(partners: seq<Partner>, email: string)
    ensures |MatchingEmail(partners, email)| > 0 <==> exists p :: p in partners && p.email == email
    ensures |MatchingEmail(partners, email)| > 0 ==>
      exists i :: FirstWithEmail(partners, email, i) && MatchingEmail(partners, email)[0] == partners[i]
  {
    if partners != [] {
      var rest := partners[1..];
      MatchingEmailFirst(rest, email);
      if partners[0].email == email {
        assert FirstWithEmail(partners, email, 0);
      } else if |MatchingEmail(partners, email)| > 0 {
        var i :| FirstWithEmail(rest, email, i) && MatchingEmail(rest, email)[0] == rest[i];
        assert FirstWithEmail(partners, email, i + 1);
      } else {
        forall p | p in partners ensures p.email != email {
          if p != partners[0] {
            assert p in rest;
          }
        }
      }
    }
  }

  /** A partner appended with another email does not change the search. */
  lemma {:induction false} MatchingEmailAppend(partners: seq<Partner>, p: Partner, email: string)
    ensures MatchingEmail(partners + [p], email) ==
      MatchingEmail(partners, email) + (if p.email == email then [p] else [])
  {
    var extra := if p.email == email then [p] else [];
    if partners == [] {
      assert partners + [p] == [p];
      assert [p][1..] == [];
      assert MatchingEmail([p], email) == extra + MatchingEmail([], email);
    } else {
      var head := if partners[0].email == email then [partners[0]] else [];
      var rest := partners[1..];
      assert (partners + [p])[0] == partners[0];
      assert (partners + [p])[1..] == rest + [p];
      MatchingEmailAppend(rest, p, email);
      assert MatchingEmail(partners + [p], email) == head + (MatchingEmail(rest, email) + extra);
      AppendAssoc(head, MatchingEmail(rest, email), extra);
    }
  }

  datatype CustomerResolution = CustomerResolution(customerId: int, partners: seq<Partner>)

  /** `/customer-or-create` (server.js:81-106): the first partner found by
      exact email, or a new customer with rank 1 and the consent flag. */
  function ResolveCustomer(partners: seq<Partner>, nextId: int, name: string, email: string, phone: string, consent: bool): (r: CustomerResolution)
    ensures (exists p :: p in partners && p.email == email) ==>
      && r.partners == partners
      && exists i :: FirstWithEmail(partners, email, i) && partners[i].id == r.customerId
    ensures (forall p :: p in partners ==> p.email != email) ==>
      && r.customerId == nextId
      && r.partners == partners + [Partner(nextId, name, email, phone, 1, consent)]
  {
    var found := MatchingEmail(partners, email);
    MatchingEmailFirst(partners, email);
    if |found| > 0 then CustomerResolution(found[0].id, partners)
    else CustomerResolution(nextId, partners + [Partner(nextId, name, email, phone, 1, consent)])
  }

  /** Customer resolution is idempotent: resolving the same email again,
      whatever the other fields, returns the same id and creates nothing. */
  lemma ResolveCustomerIdempotent(partners: seq<Partner>, nextId: int, nextId': int,
                                  name: string, email: string, phone: string, consent: bool,
                                  name': string, phone': string, consent': bool)
    ensures var r1 := ResolveCustomer(partners, nextId, name, email, phone, consent);
            var r2 := ResolveCustomer(r1.partners, nextId', name', email, phone', consent');
            && r2.customerId == r1.customerId
            && r2.partners == r1.partners
            && |r2.partners| <= |partners| + 1
  {
    var r1 := ResolveCustomer(partners, nextId, name, email, phone, consent);
    MatchingEmailFirst(partners, email);
    MatchingEmailFirst(r1.partners, email);
    var found := MatchingEmail(partners, email);
    if |found| == 0 {
      var p := Partner(nextId, name, email, phone, 1, consent);
      MatchingEmailAppend(partners, p, email);
      assert MatchingEmail(r1.partners, email) == [p];
    } else {
      assert r1.partners == partners;
    }
  }

  // ---------------------------------------------------------------------
  // Pickings

  /** `action_assign`: reserve stock when the backend can. */
  function Assign(p: Picking): Picking
  {
    if p.state == Waiting && p.reservable then p.(state := Ready) else p
  }

  /** `button_validate`: a reserved picking becomes done; any other is left
      as it is (the backend answers with a wizard, which the proxy ignores). */
  function Validate(p: Picking): Picking
  {
    if p.state == Ready then p.(state := Done) else p
  }

  /** One iteration of the picking loop when none of its calls fails. */
  function Process(p: Picking): Picking
  {
    Validate(Assign(p))
  }

  /** The call at which one picking's iteration fails in transport: its
      read, its moves read, `action_assign` or `button_validate`. The
      failing call has no effect and the `catch` skips the calls after it. */
  datatype FailPoint = AtRead | AtMoves | AtAssign | AtValidate

  predicate FailsAt(faults: map<int, FailPoint>, id: int, point: FailPoint)
  {
    id in faults && faults[id] == point
  }

  /** Where the iteration for an existing picking stops, if anywhere: a
      moves failure needs a moves read, which happens only when there are
      moves. */
  function StopAt(faults: map<int, FailPoint>, id: int, moveCount: nat): Option<FailPoint>
  {
    if id in faults && (faults[id] != AtMoves || moveCount > 0) then Some(faults[id]) else None
  }

  /** Where the iteration for `id` stops: a picking that does not exist
      stops at its read, since `pickingBefore[0]` is undefined. */
  function Stop(pickings: map<int, Picking>, faults: map<int, FailPoint>, id: int): Option<FailPoint>
  {
    if id !in pickings then Some(AtRead) else StopAt(faults, id, pickings[id].moveCount)
  }

  /** A picking after an iteration that stops at `stop`: a complete one
      assigns then validates, a failed validate keeps the assignment, and
      an earlier failure changes nothing. */
  function Outcome(p: Picking, stop: Option<FailPoint>): Picking
  {
    match stop
    case None => Process(p)
    case Some(AtValidate) => Assign(p)
    case Some(_) => p
  }

  /** The pickings after the loop has run over `ids` (server.js:219-254),
      defined from the last iteration backwards. */
  function ProcessAll(pickings: map<int, Picking>, ids: seq<int>, faults: map<int, FailPoint>): (r: map<int, Picking>)
    ensures r.Keys == pickings.Keys
  {
    if ids == [] then pickings
    else
      var before := ProcessAll(pickings, ids[..|ids| - 1], faults);
      var id := ids[|ids| - 1];
      if id in before then before[id := Outcome(before[id], Stop(pickings, faults, id))] else before
  }

  /** The calls one iteration issues, up to and including the one that
      fails: the read, the moves read when there are moves, assign and
      validate. */
  function PickingCallsFor(pickings: map<int, Picking>, faults: map<int, FailPoint>, id: int): seq<Rpc>
  {
    var stop := Stop(pickings, faults, id);
    if stop == Some(AtRead) then [ReadPicking(id)]
    else
      var moves := if pickings[id].moveCount > 0 then [ReadMoves(id)] else [];
      if stop == Some(AtMoves) then [ReadPicking(id)] + moves
      else if stop == Some(AtAssign) then [ReadPicking(id)] + moves + [AssignPicking(id)]
      else [ReadPicking(id)] + moves + [AssignPicking(id), ValidatePicking(id)]
  }

  function PickingCalls(pickings: map<int, Picking>, ids: seq<int>, faults: map<int, FailPoint>): seq<Rpc>
  {
    if ids == [] then []
    else PickingCalls(pickings, ids[..|ids| - 1], faults) + PickingCallsFor(pickings, faults, ids[|ids| - 1])
  }

  /** One more iteration of the picking loop. */
  lemma ProcessAllSnoc(pickings: map<int, Picking>, ids: seq<int>, id: int, faults: map<int, FailPoint>)
    ensures var before := ProcessAll(pickings, ids, faults);
      ProcessAll(pickings, ids + [id], faults) ==
        if id in before then before[id := Outcome(before[id], Stop(pickings, faults, id))] else before
    ensures PickingCalls(pickings, ids + [id], faults)
            == PickingCalls(pickings, ids, faults) + PickingCallsFor(pickings, faults, id)
  {
    assert (ids + [id])[..|ids|] == ids;
  }

  /** Running an iteration twice is running it once: a picking listed twice
      ends as if listed once, whether or not its iteration fails. */
  lemma OutcomeIdempotent(p: Picking, stop: Option<FailPoint>)
    ensures Outcome(Outcome(p, stop), stop) == Outcome(p, stop)
  {
  }

  /** The loop changes only picking states: the same pickings exist
      afterwards, with the same moves, so each iteration stops where it
      would have stopped on the pickings as they were and issues the same
      calls. */
  lemma {:induction false} ProcessAllShape(pickings: map<int, Picking>, ids: seq<int>, faults: map<int, FailPoint>)
    ensures ProcessAll(pickings, ids, faults).Keys == pickings.Keys
    ensures forall k :: k in pickings ==> ProcessAll(pickings, ids, faults)[k].moveCount == pickings[k].moveCount
    ensures forall id :: PickingCallsFor(ProcessAll(pickings, ids, faults), faults, id) == PickingCallsFor(pickings, faults, id)
    ensures forall id :: Stop(ProcessAll(pickings, ids, faults), faults, id) == Stop(pickings, faults, id)
  {
    if ids != [] {
      ProcessAllShape(pickings, ids[..|ids| - 1], faults);
    }
  }

  /** Each picking is processed on its own: after the loop, every listed
      picking is as its own iteration leaves it (assigned and validated,
      only assigned when the validate fails, untouched when an earlier call
      fails), and every picking not listed is exactly as before. */
  lemma {:induction false} ProcessAllAt(pickings: map<int, Picking>, ids: seq<int>, faults: map<int, FailPoint>)
    ensures ProcessAll(pickings, ids, faults).Keys == pickings.Keys
    ensures forall k :: k in pickings ==>
      ProcessAll(pickings, ids, faults)[k] ==
        if k in ids then Outcome(pickings[k], Stop(pickings, faults, k)) else pickings[k]
  {
    if ids != [] {
      var init := ids[..|ids| - 1];
      var id := ids[|ids| - 1];
      ProcessAllAt(pickings, init, faults);
      assert forall k :: k in ids <==> k in init || k == id;
      if id in pickings {
        OutcomeIdempotent(pickings[id], Stop(pickings, faults, id));
      }
    }
  }

  /** A failing picking changes nothing for the others: with or without the
      failures, every picking whose calls all succeed ends the same. */
  lemma FailuresAreIsolated(pickings: map<int, Picking>, ids: seq<int>, faults: map<int, FailPoint>)
    ensures ProcessAll(pickings, ids, faults).Keys == ProcessAll(pickings, ids, map[]).Keys == pickings.Keys
    ensures forall k :: k in pickings && k !in faults ==>
      ProcessAll(pickings, ids, faults)[k] == ProcessAll(pickings, ids, map[])[k]
  {
    ProcessAllAt(pickings, ids, faults);
    ProcessAllAt(pickings, ids, map[]);
  }

  // ---------------------------------------------------------------------
  // Backend state

  /** `n` consecutive fresh ids from `start`. */
  function IdRange(start: int, n: nat): (r: seq<int>)
    ensures |r| == n && forall i :: 0 <= i < n ==> r[i] == start + i
  {
    if n == 0 then [] else IdRange(start, n - 1) + [start + n - 1]
  }

  /** The pickings that confirming an order generates, one per delivery
      step, each with a move per order line. */
  function NewPickings(ids: seq<int>, orderId: int, moveCount: nat, reservable: bool): map<int, Picking>
  {
    map k | k in ids :: Picking(orderId, moveCount, reservable, Waiting)
  }

  /** A partner with this id is on file. */
  predicate PartnerExists(partners: seq<Partner>, id: int)
  {
    |partners| > 0 && (partners[0].id == id || PartnerExists(partners[1..], id))
  }

  /** Every line names a product on file. */
  predicate ProductsExist(lines: seq<OrderLine>, products: map<int, Product>)
  {
    |lines| > 0 ==> lines[0].productId in products && ProductsExist(lines[1..], products)
  }

  /** The backend refuses an order whose partner or products do not exist
      (archived products exist). */
  predicate OrderAccepted(partners: seq<Partner>, products: map<int, Product>, partnerId: int, lines: seq<OrderLine>)
  {
    PartnerExists(partners, partnerId) && ProductsExist(lines, products)
  }

  /** The partner search, stated as membership. */
  lemma {:induction false} PartnerExistsMeans(partners: seq<Partner>, id: int)
    ensures PartnerExists(partners, id) <==> exists i :: 0 <= i < |partners| && partners[i].id == id
  {
    if |partners| > 0 {
      PartnerExistsMeans(partners[1..], id);
      if PartnerExists(partners[1..], id) {
        var i :| 0 <= i < |partners[1..]| && partners[1..][i].id == id;
        assert partners[i + 1].id == id;
      }
      if exists i :: 0 <= i < |partners| && partners[i].id == id {
        var i :| 0 <= i < |partners| && partners[i].id == id;
        if i > 0 {
          assert partners[1..][i - 1].id == id;
        }
      }
    }
  }

  /** The product check, stated as membership. */
  lemma {:induction false} ProductsExistMeans(lines: seq<OrderLine>, products: map<int, Product>)
    ensures ProductsExist(lines, products) <==> forall i :: 0 <= i < |lines| ==> lines[i].productId in products
  {
    if |lines| > 0 {
      ProductsExistMeans(lines[1..], products);
      assert forall i :: 1 <= i < |lines| ==> lines[i] == lines[1..][i - 1];
    }
  }

  /** The note the order carries. */
  function PickupNote(pickupPoint: string): string
  {
    "Point de retrait: " + pickupPoint
  }

  /** What POST /order does once its lines are known: the answer, the new
      orders, pickings and next id, and the calls issued. */
  datatype Submission = Submission(
    resp: OrderResponse,
    orders: map<int, SaleOrder>,
    pickings: map<int, Picking>,
    nextId: int,
    calls: seq<Rpc>)

  /** The picking ids the read-back finds on a new order: those its
      confirmation generated, the ids after the order's own, or none when
      the confirmation failed. */
  function PickingIdsOf(confirmable: bool, orderId: int, deliverySteps: nat): (r: seq<int>)
    ensures confirmable ==> r == IdRange(orderId + 1, deliverySteps)
    ensures !confirmable ==> r == []
  {
    if confirmable then IdRange(orderId + 1, deliverySteps) else []
  }

  function StateOf(confirmable: bool): OrderState
  {
    if confirmable then Confirmed else Quotation
  }

  /** create, confirm, read back, then process the pickings
      (server.js:195-256). A refused create leaves `orderId` undefined: the
      confirm and the read fail, and the read's missing result is the 500
      "Commande introuvable". An accepted order gets id `nextId`. A
      successful confirmation gives it `deliverySteps` pickings with the ids
      after it; a failed one is ignored, so the order stays a quotation, the
      read finds no picking and the loop does nothing. */
  function Submit(accepted: bool, orders: map<int, SaleOrder>, pickings: map<int, Picking>, nextId: int,
                  deliverySteps: nat, confirmable: bool, reservable: bool, faults: map<int, FailPoint>,
                  customerId: int, pickupPoint: string, lines: seq<OrderLine>): (r: Submission)
    ensures r.resp.OrderCreated? <==> accepted
    ensures var orderId := if accepted then Some(nextId) else None;
      |r.calls| >= 3 && r.calls[..3] == [CreateOrder(customerId), ConfirmOrder(orderId), ReadOrder(orderId)]
  {
    if !accepted then
      Submission(ServerError(OrderNotFound), orders, pickings, nextId,
                 [CreateOrder(customerId), ConfirmOrder(None), ReadOrder(None)])
    else
      var id := nextId;
      var pids := PickingIdsOf(confirmable, id, deliverySteps);
      var generated := pickings + NewPickings(pids, id, |lines|, reservable);
      Submission(OrderCreated(id),
                 orders[id := SaleOrder(customerId, PickupNote(pickupPoint), lines, StateOf(confirmable), pids)],
                 ProcessAll(generated, pids, faults),
                 id + 1 + |pids|,
                 [CreateOrder(customerId), ConfirmOrder(Some(id)), ReadOrder(Some(id))]
                 + PickingCalls(generated, pids, faults))
  }

  /** The accepted case of `Submit`, spelled out. */
  lemma SubmitAccepted(orders: map<int, SaleOrder>, pickings: map<int, Picking>, nextId: int,
                       deliverySteps: nat, confirmable: bool, reservable: bool, faults: map<int, FailPoint>,
                       customerId: int, pickupPoint: string, lines: seq<OrderLine>)
    ensures var pids := PickingIdsOf(confirmable, nextId, deliverySteps);
      var generated := pickings + NewPickings(pids, nextId, |lines|, reservable);
      var r := Submit(true, orders, pickings, nextId, deliverySteps, confirmable, reservable, faults, customerId, pickupPoint, lines);
      && r.resp == OrderCreated(nextId)
      && r.orders == orders[nextId := SaleOrder(customerId, PickupNote(pickupPoint), lines, StateOf(confirmable), pids)]
      && r.nextId == nextId + 1 + |pids|
      && r.pickings == ProcessAll(generated, pids, faults)
      && r.calls == [CreateOrder(customerId), ConfirmOrder(Some(nextId)), ReadOrder(Some(nextId))]
                    + PickingCalls(generated, pids, faults)
  {
    var pids := PickingIdsOf(confirmable, nextId, deliverySteps);
    var generated := pickings + NewPickings(pids, nextId, |lines|, reservable);
    assert Submit(true, orders, pickings, nextId, deliverySteps, confirmable, reservable, faults, customerId, pickupPoint, lines)
      == Submission(OrderCreated(nextId),
                    orders[nextId := SaleOrder(customerId, PickupNote(pickupPoint), lines, StateOf(confirmable), pids)],
                    ProcessAll(generated, pids, faults),
                    nextId + 1 + |pids|,
                    [CreateOrder(customerId), ConfirmOrder(Some(nextId)), ReadOrder(Some(nextId))]
                    + PickingCalls(generated, pids, faults));
  }

  /** The response reports the order exactly when the backend accepted it,
      and a refused order changes no state. An accepted one is stored under
      the reported id with its customer and lines: confirmed, with one
      picking per delivery step, when the confirmation succeeds, and still a
      quotation without pickings when it fails. */
  lemma SubmitOutcome(accepted: bool, orders: map<int, SaleOrder>, pickings: map<int, Picking>, nextId: int,
                      deliverySteps: nat, confirmable: bool, reservable: bool, faults: map<int, FailPoint>,
                      customerId: int, pickupPoint: string, lines: seq<OrderLine>)
    ensures var r := Submit(accepted, orders, pickings, nextId, deliverySteps, confirmable, reservable, faults, customerId, pickupPoint, lines);
      && (r.resp.OrderCreated? <==> accepted)
      && (!accepted ==> r.orders == orders && r.pickings == pickings && r.nextId == nextId)
    ensures var r := Submit(accepted, orders, pickings, nextId, deliverySteps, confirmable, reservable, faults, customerId, pickupPoint, lines);
      accepted ==>
        && r.resp.orderId in r.orders
        && r.orders[r.resp.orderId].partnerId == customerId
        && r.orders[r.resp.orderId].lines == lines
        && (r.orders[r.resp.orderId].state == Confirmed <==> confirmable)
        && |r.orders[r.resp.orderId].pickingIds| == (if confirmable then deliverySteps else 0)
        && r.nextId > r.resp.orderId + |r.orders[r.resp.orderId].pickingIds|
  {
    if accepted {
      SubmitAccepted(orders, pickings, nextId, deliverySteps, confirmable, reservable, faults, customerId, pickupPoint, lines);
    }
  }

  /** Confirming generates fresh pickings and the loop runs over exactly
      those: older pickings are untouched, and each new one belongs to the
      order and carries its moves; it is done exactly when its stock could
      be reserved and none of its calls failed, and it is left reserved but
      not done exactly when its stock could be reserved and only its
      validate failed. */
  lemma GeneratedPickings(pickings: map<int, Picking>, orderId: int, deliverySteps: nat, moveCount: nat,
                          reservable: bool, faults: map<int, FailPoint>)
    requires forall k :: k in pickings ==> k <= orderId
    ensures var pids := IdRange(orderId + 1, deliverySteps);
      var after := ProcessAll(pickings + NewPickings(pids, orderId, moveCount, reservable), pids, faults);
      && (forall k :: k in pickings ==> k in after && after[k] == pickings[k])
      && forall k :: k in pids ==>
           && k in after && k !in pickings
           && after[k].orderId == orderId
           && after[k].moveCount == moveCount
           && (after[k].state == Done <==> reservable && StopAt(faults, k, moveCount).None?)
           && (after[k].state == Ready <==> reservable && StopAt(faults, k, moveCount) == Some(AtValidate))
  {
    var pids := IdRange(orderId + 1, deliverySteps);
    var added := NewPickings(pids, orderId, moveCount, reservable);
    var generated := pickings + added;
    var after := ProcessAll(generated, pids, faults);
    ProcessAllAt(generated, pids, faults);
    forall k | k in pickings
      ensures k in after && after[k] == pickings[k]
    {
      assert k !in pids;
      assert generated[k] == pickings[k];
    }
    forall k | k in pids
      ensures && k in after && k !in pickings
              && after[k].orderId == orderId
              && after[k].moveCount == moveCount
              && (after[k].state == Done <==> reservable && StopAt(faults, k, moveCount).None?)
              && (after[k].state == Ready <==> reservable && StopAt(faults, k, moveCount) == Some(AtValidate))
    {
      assert k > orderId;
      assert generated[k] == added[k] == Picking(orderId, moveCount, reservable, Waiting);
      assert Stop(generated, faults, k) == StopAt(faults, k, moveCount);
      NewPickingOutcome(orderId, moveCount, reservable, StopAt(faults, k, moveCount));
    }
  }

  /** A new picking waits; its iteration leaves it done when every call
      succeeds and its stock can be reserved, reserved when only the
      validate fails, and waiting otherwise. */
  lemma NewPickingOutcome(orderId: int, moveCount: nat, reservable: bool, stop: Option<FailPoint>)
    ensures var q := Outcome(Picking(orderId, moveCount, reservable, Waiting), stop);
      && q.orderId == orderId && q.moveCount == moveCount
      && (q.state == Done <==> reservable && stop.None?)
      && (q.state == Ready <==> reservable && stop == Some(AtValidate))
  {
  }

  /** The pickings of an accepted order: those that existed before are
      untouched. When the confirmation succeeds, each new one belongs to
      the order and carries one move per line; it is done exactly when its
      stock could be reserved and none of its calls failed, and reserved but
      not done exactly when only its validate failed. When the confirmation
      fails, there is no new picking. */
  lemma SubmitPickings(accepted: bool, orders: map<int, SaleOrder>, pickings: map<int, Picking>, nextId: int,
                       deliverySteps: nat, confirmable: bool, reservable: bool, faults: map<int, FailPoint>,
                       customerId: int, pickupPoint: string, lines: seq<OrderLine>)
    requires forall k :: k in pickings ==> k <= nextId
    ensures var r := Submit(accepted, orders, pickings, nextId, deliverySteps, confirmable, reservable, faults, customerId, pickupPoint, lines);
      accepted ==> forall k :: k in pickings ==> k in r.pickings && r.pickings[k] == pickings[k]
    ensures var r := Submit(accepted, orders, pickings, nextId, deliverySteps, confirmable, reservable, faults, customerId, pickupPoint, lines);
      accepted && !confirmable ==> r.pickings == pickings
    ensures var r := Submit(accepted, orders, pickings, nextId, deliverySteps, confirmable, reservable, faults, customerId, pickupPoint, lines);
      accepted && confirmable ==>
        forall k :: k in IdRange(nextId + 1, deliverySteps) ==>
          && k in r.pickings && k !in pickings
          && r.pickings[k].orderId == nextId
          && r.pickings[k].moveCount == |lines|
          && (r.pickings[k].state == Done <==> reservable && StopAt(faults, k, |lines|).None?)
          && (r.pickings[k].state == Ready <==> reservable && StopAt(faults, k, |lines|) == Some(AtValidate))
  {
    if accepted {
      SubmitAccepted(orders, pickings, nextId, deliverySteps, confirmable, reservable, faults, customerId, pickupPoint, lines);
      if confirmable {
        GeneratedPickings(pickings, nextId, deliverySteps, |lines|, reservable, faults);
      } else {
        assert pickings + NewPickings([], nextId, |lines|, reservable) == pickings;
      }
    }
  }

  /** The accepted case of `Submit` as the route runs it: after the
      create, confirm and read calls, the picking loop's pickings and calls
      complete the submission. */
  lemma SubmitAcceptedRun(accepted: bool, orders: map<int, SaleOrder>, pickings: map<int, Picking>, nextId: int,
                          deliverySteps: nat, confirmable: bool, reservable: bool, faults: map<int, FailPoint>,
                          customerId: int, pickupPoint: string, lines: seq<OrderLine>,
                          log0: seq<Rpc>, log1: seq<Rpc>, generated: map<int, Picking>,
                          ordersAfter: map<int, SaleOrder>, nextIdAfter: int,
                          pickingsAfter: map<int, Picking>, logAfter: seq<Rpc>)
    requires accepted
    requires ordersAfter == orders[nextId := SaleOrder(customerId, PickupNote(pickupPoint), lines, StateOf(confirmable),
                                                      PickingIdsOf(confirmable, nextId, deliverySteps))]
    requires nextIdAfter == nextId + 1 + |PickingIdsOf(confirmable, nextId, deliverySteps)|
    requires log1 == log0 + [CreateOrder(customerId), ConfirmOrder(Some(nextId)), ReadOrder(Some(nextId))]
    requires generated == pickings + NewPickings(PickingIdsOf(confirmable, nextId, deliverySteps), nextId, |lines|, reservable)
    requires pickingsAfter == ProcessAll(generated, PickingIdsOf(confirmable, nextId, deliverySteps), faults)
    requires logAfter == log1 + PickingCalls(generated, PickingIdsOf(confirmable, nextId, deliverySteps), faults)
    ensures var r := Submit(accepted, orders, pickings, nextId, deliverySteps, confirmable, reservable, faults, customerId, pickupPoint, lines);
      && OrderCreated(nextId) == r.resp && ordersAfter == r.orders && pickingsAfter == r.pickings
      && nextIdAfter == r.nextId && logAfter == log0 + r.calls
  {
    SubmitAccepted(orders, pickings, nextId, deliverySteps, confirmable, reservable, faults, customerId, pickupPoint, lines);
    AppendAssoc(log0, [CreateOrder(customerId), ConfirmOrder(Some(nextId)), ReadOrder(Some(nextId))],
                PickingCalls(generated, PickingIdsOf(confirmable, nextId, deliverySteps), faults));
  }

  /** The refused case of `Submit`: the calls fail one after another and
      nothing changes. */
  lemma SubmitRefused(orders: map<int, SaleOrder>, pickings: map<int, Picking>, nextId: int,
                      deliverySteps: nat, confirmable: bool, reservable: bool, faults: map<int, FailPoint>,
                      customerId: int, pickupPoint: string, lines: seq<OrderLine>)
    ensures Submit(false, orders, pickings, nextId, deliverySteps, confirmable, reservable, faults, customerId, pickupPoint, lines)
      == Submission(ServerError(OrderNotFound), orders, pickings, nextId,
                    [CreateOrder(customerId), ConfirmOrder(None), ReadOrder(None)])
  {
  }

  lemma AppendAssoc<T>(a: seq<T>, b: seq<T>, c: seq<T>)
    ensures (a + b) + c == a + (b + c)
  {
  }

  class Backend {
    var catalogue: Catalogue
    var partners: seq<Partner>
    var orders: map<int, SaleOrder>
    var pickings: map<int, Picking>
    var subscriptions: map<int, Subscription>
    /** The next id the backend assigns. */
    var nextId: int
    /** Pickings generated per confirmed order (the warehouse's delivery steps). */
    const deliverySteps: nat
    /** Whether `action_confirm` succeeds on a new quotation; when it does
        not, the backend answers an error the proxy ignores. */
    const confirmable: bool
    /** Whether the stock lets new pickings be reserved. */
    const stockAvailable: bool
    /** Where a picking's remote calls fail in transport. */
    const faults: map<int, FailPoint>
    /** Every remote call issued so far, in order. */
    var log: seq<Rpc>

    ghost predicate Valid()
      reads this
    {
      && (forall p :: p in partners ==> p.id < nextId)
      && (forall k :: k in orders ==> k < nextId)
      && (forall k :: k in pickings ==> k < nextId)
      && (forall k :: k in subscriptions ==> k < nextId)
    }

    constructor (catalogue: Catalogue, partners: seq<Partner>, nextId: int,
                 deliverySteps: nat, confirmable: bool, stockAvailable: bool, faults: map<int, FailPoint>)
      requires forall p :: p in partners ==> p.id < nextId
      ensures Valid()
      ensures this.catalogue == catalogue && this.partners == partners && this.nextId == nextId
      ensures orders == map[] && pickings == map[] && subscriptions == map[] && log == []
      ensures this.deliverySteps == deliverySteps && this.confirmable == confirmable
      ensures this.stockAvailable == stockAvailable
      ensures this.faults == faults
    {
      this.catalogue := catalogue;
      this.partners := partners;
      this.nextId := nextId;
      this.deliverySteps := deliverySteps;
      this.confirmable := confirmable;
      this.stockAvailable := stockAvailable;
      this.faults := faults;
      orders, pickings, subscriptions := map[], map[], map[];
      log := [];
    }

    // ----- remote calls -----

    method PartnerSearch(email: string) returns (found: seq<Partner>)
      ensures found == MatchingEmail(partners, email)
    {
      found := MatchingEmail(partners, email);
    }

    method PartnerCreate(name: string, email: string, phone: string, rank: int, consent: bool) returns (id: int)
      requires Valid()
      modifies this`partners, this`nextId, this`log
      ensures Valid()
      ensures id == old(nextId) && nextId == old(nextId) + 1
      ensures partners == old(partners) + [Partner(id, name, email, phone, rank, consent)]
      ensures log == old(log) + [CreatePartner]
    {
      id := nextId;
      partners := partners + [Partner(id, name, email, phone, rank, consent)];
      nextId := nextId + 1;
      log := log + [CreatePartner];
    }

    method TemplateRead(id: int) returns (t: Option<Template>)
      ensures t == FindTemplate(catalogue.templates, id)
    {
      t := FindTemplate(catalogue.templates, id);
    }

    method BomRead(ids: seq<int>) returns (boms: Option<seq<Bom>>)
      ensures boms == ReadAll(catalogue.boms, ids)
    {
      boms := ReadAll(catalogue.boms, ids);
    }

    method BomLineRead(ids: seq<int>) returns (lines: Option<seq<BomLine>>)
      ensures lines == ReadAll(catalogue.bomLines, ids)
    {
      lines := ReadAll(catalogue.bomLines, ids);
    }

    method ProductSearch(ids: seq<int>) returns (found: map<int, Product>)
      ensures found == SearchActive(catalogue.products, ids)
    {
      found := SearchActive(catalogue.products, ids);
    }

    method KitSearch() returns (kits: seq<Template>)
      ensures kits == Kits(catalogue.templates)
    {
      kits := Kits(catalogue.templates);
    }

    method OrderCreate(partnerId: int, note: string, lines: seq<OrderLine>) returns (id: Option<int>)
      requires Valid()
      modifies this`orders, this`nextId, this`log
      ensures Valid()
      ensures log == old(log) + [CreateOrder(partnerId)]
      ensures OrderAccepted(partners, catalogue.products, partnerId, lines) ==>
        && id == Some(old(nextId)) && old(nextId) !in old(orders)
        && orders == old(orders)[old(nextId) := SaleOrder(partnerId, note, lines, Quotation, [])]
        && nextId == old(nextId) + 1
      ensures !OrderAccepted(partners, catalogue.products, partnerId, lines) ==>
        id == None && orders == old(orders) && nextId == old(nextId)
    {
      if OrderAccepted(partners, catalogue.products, partnerId, lines) {
        id := Some(nextId);
        orders := orders[nextId := SaleOrder(partnerId, note, lines, Quotation, [])];
        nextId := nextId + 1;
      } else {
        id := None;
      }
      log := log + [CreateOrder(partnerId)];
    }

    /** `action_confirm`: a quotation becomes a confirmed order and its
        pickings are generated; anything else, and any call while the
        backend does not confirm, is refused and changes nothing. */
    method OrderConfirm(id: Option<int>)
      requires Valid()
      modifies this`orders, this`pickings, this`nextId, this`log
      ensures Valid()
      ensures log == old(log) + [ConfirmOrder(id)]
      ensures confirmable && id.Some? && id.value in old(orders) && old(orders)[id.value].state == Quotation ==>
        var o := old(orders)[id.value];
        var pids := IdRange(old(nextId), deliverySteps);
        && orders == old(orders)[id.value := o.(state := Confirmed, pickingIds := pids)]
        && pickings == old(pickings) + NewPickings(pids, id.value, |o.lines|, stockAvailable)
        && nextId == old(nextId) + deliverySteps
      ensures !(confirmable && id.Some? && id.value in old(orders) && old(orders)[id.value].state == Quotation) ==>
        orders == old(orders) && pickings == old(pickings) && nextId == old(nextId)
    {
      if confirmable && id.Some? && id.value in orders && orders[id.value].state == Quotation {
        var o := orders[id.value];
        var pids := IdRange(nextId, deliverySteps);
        orders := orders[id.value := o.(state := Confirmed, pickingIds := pids)];
        pickings := pickings + NewPickings(pids, id.value, |o.lines|, stockAvailable);
        nextId := nextId + deliverySteps;
      }
      log := log + [ConfirmOrder(id)];
    }

    method OrderRead(id: Option<int>) returns (pickingIds: Option<seq<int>>)
      modifies this`log
      ensures pickingIds == if id.Some? && id.value in orders then Some(orders[id.value].pickingIds) else None
      ensures log == old(log) + [ReadOrder(id)]
    {
      pickingIds := if id.Some? && id.value in orders then Some(orders[id.value].pickingIds) else None;
      log := log + [ReadOrder(id)];
    }

    /** The picking read: `None` when the call fails or finds no picking. */
    method PickingRead(id: int) returns (p: Option<Picking>)
      modifies this`log
      ensures p == if id in pickings && !FailsAt(faults, id, AtRead) then Some(pickings[id]) else None
      ensures log == old(log) + [ReadPicking(id)]
    {
      p := if id in pickings && !FailsAt(faults, id, AtRead) then Some(pickings[id]) else None;
      log := log + [ReadPicking(id)];
    }

    /** The moves read; `ok` is false when the call fails. */
    method MoveRead(pickingId: int) returns (ok: bool)
      modifies this`log
      ensures ok == !FailsAt(faults, pickingId, AtMoves)
      ensures log == old(log) + [ReadMoves(pickingId)]
    {
      ok := !FailsAt(faults, pickingId, AtMoves);
      log := log + [ReadMoves(pickingId)];
    }

    /** `action_assign`; a failed call changes nothing. */
    method PickingAssign(id: int) returns (ok: bool)
      modifies this`pickings, this`log
      ensures ok == !FailsAt(faults, id, AtAssign)
      ensures pickings == if ok && id in old(pickings) then old(pickings)[id := Assign(old(pickings)[id])]
                          else old(pickings)
      ensures log == old(log) + [AssignPicking(id)]
    {
      ok := !FailsAt(faults, id, AtAssign);
      if ok && id in pickings {
        pickings := pickings[id := Assign(pickings[id])];
      }
      log := log + [AssignPicking(id)];
    }

    /** `button_validate`; a failed call changes nothing. */
    method PickingValidate(id: int) returns (ok: bool)
      modifies this`pickings, this`log
      ensures ok == !FailsAt(faults, id, AtValidate)
      ensures pickings == if ok && id in old(pickings) then old(pickings)[id := Validate(old(pickings)[id])]
                          else old(pickings)
      ensures log == old(log) + [ValidatePicking(id)]
    {
      ok := !FailsAt(faults, id, AtValidate);
      if ok && id in pickings {
        pickings := pickings[id := Validate(pickings[id])];
      }
      log := log + [ValidatePicking(id)];
    }

    method SubscriptionCreate(partnerId: int, name: string, recurringCount: int) returns (id: Option<int>)
      requires Valid()
      modifies this`subscriptions, this`nextId, this`log
      ensures Valid()
      ensures log == old(log) + [CreateSubscription(partnerId)]
      ensures PartnerExists(partners, partnerId) ==>
        && id == Some(old(nextId))
        && subscriptions == old(subscriptions)[old(nextId) := Subscription(partnerId, name, recurringCount)]
        && nextId == old(nextId) + 1
      ensures !PartnerExists(partners, partnerId) ==>
        id == None && subscriptions == old(subscriptions) && nextId == old(nextId)
    {
      if PartnerExists(partners, partnerId) {
        id := Some(nextId);
        subscriptions := subscriptions[nextId := Subscription(partnerId, name, recurringCount)];
        nextId := nextId + 1;
      } else {
        id := None;
      }
      log := log + [CreateSubscription(partnerId)];
    }

    // ----- routes -----

    /** POST /customer-or-create. */
    method CustomerOrCreate(name: string, email: string, phone: string, rgpdConsent: bool) returns (customerId: int)
      requires Valid()
      modifies this`partners, this`nextId, this`log
      ensures Valid()
      ensures var r := ResolveCustomer(old(partners), old(nextId), name, email, phone, rgpdConsent);
        && customerId == r.customerId
        && partners == r.partners
      ensures |partners| == |old(partners)| ==> nextId == old(nextId) && log == old(log)
      ensures |partners| != |old(partners)| ==> nextId == old(nextId) + 1 && log == old(log) + [CreatePartner]
    {
      var existing := PartnerSearch(email);
      if |existing| > 0 {
        customerId := existing[0].id;
      } else {
        customerId := PartnerCreate(name, email, phone, 1, rgpdConsent);
      }
    }

    /** The line resolution of POST /order: ad-hoc products first, then a
        kit id, else 400. */
    method ResolveOrderLines(basketId: Option<int>, products: seq<OrderProduct>) returns (outcome: LineOutcome)
      ensures outcome == ResolveLines(catalogue, basketId, products)
    {
      if |products| > 0 {
        outcome := Resolved(AdHocLines(products));
      } else if basketId.Some? && basketId.value > 0 {
        var basket := TemplateRead(basketId.value);
        if basket.None? {
          return Rejected(BasketNotFound);
        }
        if |basket.value.bomIds| == 0 {
          return Rejected(BasketWithoutBom);
        }
        var bom := BomRead(basket.value.bomIds);
        if bom.None? || |bom.value[0].lineIds| == 0 {
          return Rejected(BomNotFound);
        }
        var bomLines := BomLineRead(bom.value[0].lineIds);
        if bomLines.None? {
          // `bomLines.map` throws on the missing result
          return Thrown;
        }
        var productIds := ProductIds(bomLines.value);
        var productsData := ProductSearch(productIds);
        outcome := Resolved(KitLines(bomLines.value, productsData));
      } else {
        outcome := Rejected(NothingToOrder);
      }
    }

    /** One iteration of the picking loop (server.js:220-253): read the
        picking, read its moves if it has any, assign, validate. A failed
        read makes `pickingBefore[0]` throw; any failure leaves the rest of
        the iteration to the `catch`. */
    method ProcessPicking(id: int)
      modifies this`pickings, this`log
      ensures pickings == if id in old(pickings)
                          then old(pickings)[id := Outcome(old(pickings)[id], Stop(old(pickings), faults, id))]
                          else old(pickings)
      ensures log == old(log) + PickingCallsFor(old(pickings), faults, id)
    {
      var pickingBefore := PickingRead(id);
      if pickingBefore.None? {
        return;
      }
      if pickingBefore.value.moveCount > 0 {
        var movesRead := MoveRead(id);
        if !movesRead {
          return;
        }
      }
      var reserved := PickingAssign(id);
      if !reserved {
        return;
      }
      var validated := PickingValidate(id);
    }

    /** The picking loop of POST /order: one picking's failure neither stops
        the loop nor reaches the response. */
    method ProcessPickings(ids: seq<int>)
      modifies this`pickings, this`log
      ensures pickings == ProcessAll(old(pickings), ids, faults)
      ensures log == old(log) + PickingCalls(old(pickings), ids, faults)
      ensures pickings.Keys == old(pickings).Keys
    {
      ghost var p0 := pickings;
      ghost var log0 := log;
      var i := 0;
      while i < |ids|
        invariant 0 <= i <= |ids|
        invariant pickings == ProcessAll(p0, ids[..i], faults)
        invariant log == log0 + PickingCalls(p0, ids[..i], faults)
      {
        assert ids[..i + 1] == ids[..i] + [ids[i]];
        ProcessAllShape(p0, ids[..i], faults);
        ProcessAllSnoc(p0, ids[..i], ids[i], faults);
        ghost var calls := PickingCalls(p0, ids[..i], faults);
        ProcessPicking(ids[i]);
        AppendAssoc(log0, calls, PickingCallsFor(p0, faults, ids[i]));
        i := i + 1;
      }
      assert ids[..i] == ids;
      ProcessAllShape(p0, ids, faults);
    }

    /** create, confirm and read back an order (server.js:195-217): the
        ids of its pickings, or `None` when the read finds no order. */
    method OpenOrder(customerId: int, note: string, lines: seq<OrderLine>) returns (pickingIds: Option<seq<int>>)
      requires Valid()
      modifies this`orders, this`pickings, this`nextId, this`log
      ensures Valid()
      ensures !OrderAccepted(partners, catalogue.products, customerId, lines) ==>
        && pickingIds == None
        && orders == old(orders) && pickings == old(pickings) && nextId == old(nextId)
        && log == old(log) + [CreateOrder(customerId), ConfirmOrder(None), ReadOrder(None)]
      ensures OrderAccepted(partners, catalogue.products, customerId, lines) ==>
        var id := old(nextId);
        var pids := PickingIdsOf(confirmable, id, deliverySteps);
        && pickingIds == Some(pids)
        && orders == old(orders)[id := SaleOrder(customerId, note, lines, StateOf(confirmable), pids)]
        && pickings == old(pickings) + NewPickings(pids, id, |lines|, stockAvailable)
        && nextId == id + 1 + |pids|
        && log == old(log) + [CreateOrder(customerId), ConfirmOrder(Some(id)), ReadOrder(Some(id))]
    {
      var orderId := OrderCreate(customerId, note, lines);
      OrderConfirm(orderId);
      pickingIds := OrderRead(orderId);
      if !confirmable {
        assert old(pickings) + NewPickings([], old(nextId), |lines|, stockAvailable) == old(pickings);
      }
    }

    /** The part of POST /order after the lines are known. */
    method SubmitOrder(customerId: int, pickupPoint: string, lines: seq<OrderLine>) returns (resp: OrderResponse)
      requires Valid()
      modifies this`orders, this`pickings, this`nextId, this`log
      ensures Valid()
      ensures var r := Submit(OrderAccepted(partners, catalogue.products, customerId, lines),
                              old(orders), old(pickings), old(nextId), deliverySteps, confirmable, stockAvailable,
                              faults, customerId, pickupPoint, lines);
        && resp == r.resp && orders == r.orders && pickings == r.pickings && nextId == r.nextId
        && log == old(log) + r.calls
    {
      var id := nextId;
      var pickingIds := OpenOrder(customerId, PickupNote(pickupPoint), lines);
      if pickingIds.None? {
        SubmitRefused(old(orders), old(pickings), old(nextId), deliverySteps, confirmable, stockAvailable, faults,
                      customerId, pickupPoint, lines);
        return ServerError(OrderNotFound);
      }
      assert OrderAccepted(partners, catalogue.products, customerId, lines);
      ghost var pids := PickingIdsOf(confirmable, id, deliverySteps);
      assert pickingIds.value == pids;
      ghost var generated := pickings;
      assert generated == old(pickings) + NewPickings(pids, id, |lines|, stockAvailable);
      assert orders == old(orders)[id := SaleOrder(customerId, PickupNote(pickupPoint), lines, StateOf(confirmable), pids)];

      ghost var log1 := log;
      assert log1 == old(log) + [CreateOrder(customerId), ConfirmOrder(Some(id)), ReadOrder(Some(id))];
      ProcessPickings(pickingIds.value);
      SubmitAcceptedRun(OrderAccepted(partners, catalogue.products, customerId, lines),
                        old(orders), old(pickings), id, deliverySteps, confirmable, stockAvailable, faults,
                        customerId, pickupPoint, lines, old(log), log1, generated, orders, nextId, pickings, log);
      resp := OrderCreated(id);
    }

    /** POST /order (server.js:109-257): no order is created unless lines
        were resolved, and the answer is `{orderId}` whatever happens to the
        pickings. */
    method PlaceOrder(customerId: int, basketId: Option<int>, pickupPoint: string, products: seq<OrderProduct>)
      returns (resp: OrderResponse)
      requires Valid()
      modifies this`orders, this`pickings, this`nextId, this`log
      ensures Valid()
      ensures var res := ResolveLines(catalogue, basketId, products);
        !res.Resolved? ==>
          && resp == (if res.Rejected? then BadRequest(res.error) else NoResponse)
          && orders == old(orders) && pickings == old(pickings) && nextId == old(nextId)
          && log == old(log)
      ensures var res := ResolveLines(catalogue, basketId, products);
        res.Resolved? ==>
          var r := Submit(OrderAccepted(partners, catalogue.products, customerId, res.lines),
                          old(orders), old(pickings), old(nextId), deliverySteps, confirmable, stockAvailable,
                          faults, customerId, pickupPoint, res.lines);
          && resp == r.resp && orders == r.orders && pickings == r.pickings && nextId == r.nextId
          && log == old(log) + r.calls
    {
      var orderLines := ResolveOrderLines(basketId, products);
      if orderLines.Rejected? {
        return BadRequest(orderLines.error);
      }
      if orderLines.Thrown? {
        return NoResponse;
      }
      resp := SubmitOrder(customerId, pickupPoint, orderLines.lines);
    }

    /** POST /subscription (server.js:260-270): the requested weeks and
        pickup point are not sent; the recurrence is always 4. */
    method Subscribe(customerId: int, basketType: string, weeks: int, pickupPoint: string)
      returns (subscriptionId: Option<int>)
      requires Valid()
      modifies this`subscriptions, this`nextId, this`log
      ensures Valid()
      ensures log == old(log) + [CreateSubscription(customerId)]
      ensures PartnerExists(partners, customerId) ==>
        && subscriptionId == Some(old(nextId))
        && subscriptions == old(subscriptions)[old(nextId) := Subscription(customerId, "Abonnement panier " + basketType, 4)]
        && nextId == old(nextId) + 1
      ensures !PartnerExists(partners, customerId) ==>
        subscriptionId == None && subscriptions == old(subscriptions) && nextId == old(nextId)
    {
      subscriptionId := SubscriptionCreate(customerId, "Abonnement panier " + basketType, 4);
    }

    /** One iteration of the listing loop: the entry for a kit, or `None`
        where the loop `continue`s. */
    method ListBasket(basket: Template) returns (entry: Option<KitEntry>)
      ensures entry == KitEntryOf(catalogue, basket)
    {
      if |basket.bomIds| == 0 {
        return None;
      }
      var bom := BomRead(basket.bomIds);
      if bom.None? || |bom.value[0].lineIds| == 0 {
        return None;
      }
      var bomLines := BomLineRead(bom.value[0].lineIds);
      if bomLines.None? || |bomLines.value| == 0 {
        return None;
      }
      var productIds := ProductIds(bomLines.value);
      var productsData := ProductSearch(productIds);
      var products := KitProducts(bomLines.value, productsData);
      entry := Some(KitEntry(basket.id, basket.name, basket.listPrice, ImageUrl(basket.image), products));
    }

    /** GET /baskets-with-products (server.js:273-336). */
    method ListBaskets() returns (baskets: seq<KitEntry>)
      ensures baskets == ListKits(catalogue, Kits(catalogue.templates))
    {
      var templates := KitSearch();
      baskets := [];
      var i := 0;
      while i < |templates|
        invariant 0 <= i <= |templates|
        invariant baskets == ListKits(catalogue, templates[..i])
      {
        assert templates[..i + 1] == templates[..i] + [templates[i]];
        ListKitsSnoc(catalogue, templates[..i], templates[i]);
        var entry := ListBasket(templates[i]);
        if entry.Some? {
          baskets := baskets + [entry.value];
        }
        i := i + 1;
      }
      assert templates[..i] == templates;
    }
  }
}
