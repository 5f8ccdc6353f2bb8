/** The shipping-quote endpoint (`POST /api/calculateShipping`): it resolves
    the destination (coordinates as sent, or the first geocoding candidate),
    asks a router for the driving distance from the store, bills one block
    per started 100 m, and prices the blocks with a first-match scan over a
    tier table. The geocoder's and router's answers are parameters; the
    handler records which of them it consulted, and with what. */
module Shipping {
  import opened Wrappers

  /** A JSON coordinate array, `[longitude, latitude]` when well formed. */
  type Coords = seq<real>

  /** The store's dispatch point (Calle Lamadrid, Río Cuarto). */
  const OriginCoords: Coords := [-64.34992, -33.13067]
  /** From this order total on, the endpoint returns coordinates only. */
  const FreeQuoteThreshold: int := 15000
  /** Radius of the geocoder's search circle around the origin. */
  const GeocodeRadiusMeters: int := 30000

  const AddressNotFound := "No se encontró la dirección destino"
  const MissingInput := "Debes enviar 'destination' o 'coords'"
  const InternalError := "Error interno calculando costo de envío"

  /** The JSON body: every field may be absent. */
  datatype ShippingRequest = ShippingRequest(
    destination: Option<string>,
    coords: Option<Coords>,
    orderTotal: Option<int>)

  datatype Payload =
    | Quote(distanceMeters: real, blocks: int, shippingCost: int, destinationCoords: Coords)
    /** `{ destinationCoords, shippingCost: null }` */
    | CoordsOnly(destinationCoords: Coords)
    | Error(message: string)
    /** An exception that escapes the handler; the framework answers 500. */
    | Unhandled

  datatype Response = Response(status: int, payload: Payload)

  /** An outbound call the handler makes. */
  datatype Call =
    | Geocode(text: string, focus: Coords, radiusMeters: int)
    | Route(from: Coords, to: Coords)

  datatype Handled = Handled(response: Response, calls: seq<Call>)

  datatype Tier = Tier(maxBlocks: int, price: int)

  const PriceTable: seq<Tier> := [
    Tier(5, 1800), Tier(10, 2000), Tier(15, 2500), Tier(20, 2800),
    Tier(25, 3000), Tier(30, 3200), Tier(35, 3500), Tier(40, 3800),
    Tier(45, 4000), Tier(50, 4300), Tier(55, 4600), Tier(60, 4900)
  ]

  /** The price beyond the last tier. */
  const FallbackPrice: int := 5500

  /** `orderTotal >= 15000`; an absent total compares false. */
  predicate HighTotal(req: ShippingRequest)
  {
    req.orderTotal.Some? && req.orderTotal.value >= FreeQuoteThreshold
  }

  /** JavaScript truthiness of an optional string. */
  predicate Truthy(s: Option<string>)
  {
    s.Some? && s.value != ""
  }

  /** `encodeURIComponent(destination)` sees `undefined` as the text "undefined". */
  function GeocodeText(destination: Option<string>): string
  {
    destination.GetOr("undefined")
  }

  function GeocodeCall(destination: Option<string>): Call
  {
    Geocode(GeocodeText(destination), OriginCoords, GeocodeRadiusMeters)
  }

  /** `Math.ceil(x)` */
  function Ceil(x: real): (r: int)
    ensures (r as real) - 1.0 < x <= r as real
  {
    if x.Floor as real == x then x.Floor else x.Floor + 1
  }

  /** `Math.ceil(distanceMeters / 100)`: the number of started 100 m blocks,
      i.e. the least block count whose length covers the distance. */
  function Blocks(distanceMeters: real): (b: int)
    ensures 100.0 * (b as real - 1.0) < distanceMeters <= 100.0 * (b as real)
  {
    Ceil(distanceMeters / 100.0)
  }

  lemma BlocksMonotone(d1: real, d2: real)
    requires d1 <= d2
    ensures Blocks(d1) <= Blocks(d2)
  {
  }

  lemma BlocksBoundaries()
    ensures Blocks(0.0) == 0
    ensures Blocks(50.0) == 1
    ensures Blocks(100.0) == 1
    ensures Blocks(101.0) == 2
    ensures Blocks(900.0) == 9
  {
  }

  /** The specification of the scan: the price of the first tier whose
      `maxBlocks` reaches `blocks`, or `fallback` when none does. */
  function FirstMatch(table: seq<Tier>, blocks: int, fallback: int): int
  {
    if |table| == 0 then fallback
    else if blocks <= table[0].maxBlocks then table[0].price
    else FirstMatch(table[1..], blocks, fallback)
  }

  /** Tiers strictly ascending in `maxBlocks` and non-decreasing in price. */
  predicate Ascending(table: seq<Tier>)
  {
    forall i, j :: 0 <= i < j < |table| ==>
      table[i].maxBlocks < table[j].maxBlocks && table[i].price <= table[j].price
  }

  /** The fallback is at least every tier's price. */
  predicate FallbackAbove(table: seq<Tier>, fallback: int)
  {
    forall i :: 0 <= i < |table| ==> table[i].price <= fallback
  }

  /** The step-function reading of the scan: on an ascending table, `blocks`
      in the bracket `(maxBlocks[i-1], maxBlocks[i]]` is priced by tier `i`. */
  lemma {:induction false} FirstMatchBracket(table: seq<Tier>, blocks: int, fallback: int, i: int)
    requires Ascending(table)
    requires 0 <= i < |table|
    requires blocks <= table[i].maxBlocks
    requires i == 0 || table[i - 1].maxBlocks < blocks
    ensures FirstMatch(table, blocks, fallback) == table[i].price
    decreases i
  {
    if i > 0 {
      assert table[0].maxBlocks <= table[i - 1].maxBlocks;
      assert Ascending(table[1..]);
      FirstMatchBracket(table[1..], blocks, fallback, i - 1);
    }
  }

  /** Beyond every tier the fallback applies. */
  lemma {:induction false} FirstMatchBeyond(table: seq<Tier>, blocks: int, fallback: int)
    requires forall i :: 0 <= i < |table| ==> table[i].maxBlocks < blocks
    ensures FirstMatch(table, blocks, fallback) == fallback
    decreases |table|
  {
    if |table| > 0 {
      FirstMatchBeyond(table[1..], blocks, fallback);
    }
  }

  /** The scan's result lies between the first tier's price and the fallback. */
  lemma {:induction false} FirstMatchBounds(table: seq<Tier>, blocks: int, fallback: int)
    requires Ascending(table) && FallbackAbove(table, fallback)
    requires |table| > 0
    ensures table[0].price <= FirstMatch(table, blocks, fallback) <= fallback
    decreases |table|
  {
    if |table| > 1 && blocks > table[0].maxBlocks {
      assert Ascending(table[1..]) && FallbackAbove(table[1..], fallback);
      FirstMatchBounds(table[1..], blocks, fallback);
    }
  }

  /** More blocks never cost less. */
  lemma {:induction false} FirstMatchMonotone(table: seq<Tier>, b1: int, b2: int, fallback: int)
    requires Ascending(table) && FallbackAbove(table, fallback)
    requires b1 <= b2
    ensures FirstMatch(table, b1, fallback) <= FirstMatch(table, b2, fallback)
    decreases |table|
  {
    if |table| > 0 {
      if b1 <= table[0].maxBlocks {
        FirstMatchBounds(table, b2, fallback);
      } else {
        assert Ascending(table[1..]) && FallbackAbove(table[1..], fallback);
        FirstMatchMonotone(table[1..], b1, b2, fallback);
      }
    }
  }

  /** Each tier goes further and costs no less than the one before it. */
  predicate StepsUp(table: seq<Tier>)
  {
    forall i :: 0 < i < |table| ==>
      table[i - 1].maxBlocks < table[i].maxBlocks && table[i - 1].price <= table[i].price
  }

  lemma {:induction false} StepsUpAscending(table: seq<Tier>)
    requires StepsUp(table)
    ensures Ascending(table)
    decreases |table|
  {
    if |table| > 1 {
      var init := table[..|table| - 1];
      assert StepsUp(init);
      StepsUpAscending(init);
      forall i, j | 0 <= i < j < |table|
        ensures table[i].maxBlocks < table[j].maxBlocks && table[i].price <= table[j].price
      {
        if j < |table| - 1 {
          assert init[i] == table[i] && init[j] == table[j];
        } else if i < j - 1 {
          assert init[i] == table[i] && init[j - 1] == table[j - 1];
        }
      }
    }
  }

  lemma PriceTableSteps()
    ensures StepsUp(PriceTable) && FallbackAbove(PriceTable, FallbackPrice)
  {
    var t := PriceTable;
    assert t[0] == Tier(5, 1800) && t[1] == Tier(10, 2000) && t[2] == Tier(15, 2500) && t[3] == Tier(20, 2800);
    assert t[4] == Tier(25, 3000) && t[5] == Tier(30, 3200) && t[6] == Tier(35, 3500) && t[7] == Tier(40, 3800);
    assert t[8] == Tier(45, 4000) && t[9] == Tier(50, 4300) && t[10] == Tier(55, 4600) && t[11] == Tier(60, 4900);
  }

  lemma PriceTableShape()
    ensures Ascending(PriceTable) && FallbackAbove(PriceTable, FallbackPrice)
  {
    PriceTableSteps();
    StepsUpAscending(PriceTable);
  }

  /** The cost of `blocks` blocks under the store's table. */
  function ShippingCost(blocks: int): (cost: int)
    ensures 1800 <= cost <= 5500
    ensures blocks <= 5 ==> cost == 1800
    ensures blocks > 60 ==> cost == FallbackPrice
  {
    PriceTableShape();
    FirstMatchBounds(PriceTable, blocks, FallbackPrice);
    if blocks > 60 then FirstMatchBeyond(PriceTable, blocks, FallbackPrice); FirstMatch(PriceTable, blocks, FallbackPrice)
    else FirstMatch(PriceTable, blocks, FallbackPrice)
  }

  lemma ShippingCostMonotone(b1: int, b2: int)
    requires b1 <= b2
    ensures ShippingCost(b1) <= ShippingCost(b2)
  {
    PriceTableShape();
    FirstMatchMonotone(PriceTable, b1, b2, FallbackPrice);
  }

  /** Every bracket of the table, as a step function. */
  lemma ShippingCostSteps(blocks: int, i: int)
    requires 0 <= i < |PriceTable|
    requires blocks <= PriceTable[i].maxBlocks
    requires i == 0 || PriceTable[i - 1].maxBlocks < blocks
    ensures ShippingCost(blocks) == PriceTable[i].price
  {
    PriceTableShape();
    FirstMatchBracket(PriceTable, blocks, FallbackPrice, i);
  }

  /** The tier loop: start from the fallback and take the price of the first
      row whose `maxBlocks` reaches `blocks`, then stop. */
  method LookupPrice(table: seq<Tier>, fallback: int, blocks: int) returns (shippingCost: int)
    ensures shippingCost == FirstMatch(table, blocks, fallback)
  {
    shippingCost := fallback;
    var i := 0;
    while i < |table|
      invariant 0 <= i <= |table|
      invariant shippingCost == fallback
      invariant FirstMatch(table[i..], blocks, fallback) == FirstMatch(table, blocks, fallback)
    {
      if blocks <= table[i].maxBlocks {
        shippingCost := table[i].price;
        break;
      }
      assert table[i..][1..] == table[i + 1..];
      i := i + 1;
    }
  }

  /** The normal path once the destination is known: route, then price.
      A missing or zero distance (`!distanceRuta`) is a 500. */
  function Priced(destCoords: Coords, routed: Option<real>, calls: seq<Call>): (h: Handled)
    ensures h.calls == calls + [Route(OriginCoords, destCoords)]
    ensures routed.None? || routed.value == 0.0 <==> h.response == Response(500, Error(InternalError))
    ensures h.response.status == 200 <==> h.response.payload.Quote?
    ensures h.response.payload.Quote? ==>
      && routed == Some(h.response.payload.distanceMeters)
      && h.response.payload.blocks == Blocks(h.response.payload.distanceMeters)
      && h.response.payload.shippingCost == ShippingCost(h.response.payload.blocks)
      && h.response.payload.destinationCoords == destCoords
  {
    var calls' := calls + [Route(OriginCoords, destCoords)];
    if routed.None? || routed.value == 0.0 then
      Handled(Response(500, Error(InternalError)), calls')
    else
      var blocks := Blocks(routed.value);
      Handled(Response(200, Quote(routed.value, blocks, ShippingCost(blocks), destCoords)), calls')
  }

  /** What the endpoint answers for `req`, given what the geocoder would
      answer for the destination text (`None`: the call throws; otherwise
      its candidate list) and what the router would answer for the chosen
      destination (`None`: no route, or the call throws). */
  function Handle(req: ShippingRequest, geocoded: Option<seq<Coords>>, routed: Option<real>): (h: Handled)
    // High totals: coordinates only, never a price, never a route.
    ensures HighTotal(req) && req.coords.Some? ==>
      h == Handled(Response(200, CoordsOnly(req.coords.value)), [])
    ensures HighTotal(req) && req.coords.None? ==>
      && h.calls == [GeocodeCall(req.destination)]
      && (geocoded == Some([]) <==> h.response == Response(400, Error(AddressNotFound)))
      && (h.response.status == 200 <==> geocoded.Some? && |geocoded.value| > 0)
      && (h.response.status == 200 ==> h.response == Response(200, CoordsOnly(geocoded.value[0])))
      // The geocoding fetch sits outside the try: a failure is unhandled.
      && (geocoded.None? ==> h.response == Response(500, Unhandled))
    // Normal path: coordinates sent as a pair are used as they are.
    ensures !HighTotal(req) && req.coords.Some? && |req.coords.value| == 2 ==>
      h == Priced(req.coords.value, routed, [])
    // Normal path: otherwise the destination text is geocoded ...
    ensures !HighTotal(req) && !(req.coords.Some? && |req.coords.value| == 2) && Truthy(req.destination) ==>
      && |h.calls| >= 1 && h.calls[0] == GeocodeCall(req.destination)
      && (geocoded.None? ==> h == Handled(Response(500, Error(InternalError)), [GeocodeCall(req.destination)]))
      && (geocoded == Some([]) ==> h == Handled(Response(400, Error(AddressNotFound)), h.calls[..1]))
      && (geocoded.Some? && |geocoded.value| > 0 ==> h == Priced(geocoded.value[0], routed, h.calls[..1]))
    // ... and with neither, the request is rejected without any call.
    ensures !HighTotal(req) && !(req.coords.Some? && |req.coords.value| == 2) && !Truthy(req.destination) ==>
      h == Handled(Response(400, Error(MissingInput)), [])
    ensures h.response.status in {200, 400, 500}
    ensures h.response.payload.Quote? ==> 1800 <= h.response.payload.shippingCost <= 5500
  {
    if HighTotal(req) then
      if req.coords.Some? then
        Handled(Response(200, CoordsOnly(req.coords.value)), [])
      else
        var calls := [GeocodeCall(req.destination)];
        match geocoded
        case None => Handled(Response(500, Unhandled), calls)
        case Some(features) =>
          if |features| == 0 then Handled(Response(400, Error(AddressNotFound)), calls)
          else Handled(Response(200, CoordsOnly(features[0])), calls)
    else if req.coords.Some? && |req.coords.value| == 2 then
      Priced(req.coords.value, routed, [])
    else if Truthy(req.destination) then
      var calls := [GeocodeCall(req.destination)];
      match geocoded
      case None => Handled(Response(500, Error(InternalError)), calls)
      case Some(features) =>
        if |features| == 0 then Handled(Response(400, Error(AddressNotFound)), calls)
        else Priced(features[0], routed, calls)
    else
      Handled(Response(400, Error(MissingInput)), [])
  }

  /** The handler as written: a mutable `destCoords` assigned across the
      branches, early returns, and the tier loop. */
  method Post(req: ShippingRequest, geocoded: Option<seq<Coords>>, routed: Option<real>) returns (h: Handled)
    ensures h == Handle(req, geocoded, routed)
  {
    if HighTotal(req) {
      if req.coords.Some? {
        return Handled(Response(200, CoordsOnly(req.coords.value)), []);
      }
      var calls := [GeocodeCall(req.destination)];
      if geocoded.None? {
        return Handled(Response(500, Unhandled), calls);
      }
      if |geocoded.value| == 0 {
        return Handled(Response(400, Error(AddressNotFound)), calls);
      }
      return Handled(Response(200, CoordsOnly(geocoded.value[0])), calls);
    }

    var calls: seq<Call> := [];
    var destCoords: Coords;
    if req.coords.Some? && |req.coords.value| == 2 {
      destCoords := req.coords.value;
    } else if Truthy(req.destination) {
      calls := calls + [GeocodeCall(req.destination)];
      if geocoded.None? {
        return Handled(Response(500, Error(InternalError)), calls);
      }
      if |geocoded.value| == 0 {
        return Handled(Response(400, Error(AddressNotFound)), calls);
      }
      destCoords := geocoded.value[0];
    } else {
      return Handled(Response(400, Error(MissingInput)), calls);
    }

    calls := calls + [Route(OriginCoords, destCoords)];
    if routed.None? || routed.value == 0.0 {
      return Handled(Response(500, Error(InternalError)), calls);
    }
    var distanceMeters := routed.value;
    var blocks := Blocks(distanceMeters);
    var shippingCost := LookupPrice(PriceTable, FallbackPrice, blocks);
    h := Handled(Response(200, Quote(distanceMeters, blocks, shippingCost, destCoords)), calls);
  }

  /** A typed address in the same city, routed at 900 m: 9 blocks, tier 2. */
  lemma AddressScenario(text: string, dest: Coords)
    requires text != ""
    ensures Handle(ShippingRequest(Some(text), None, None), Some([dest]), Some(900.0)).response
         == Response(200, Quote(900.0, 9, 2000, dest))
  {
    ShippingCostSteps(9, 1);
  }

  /** Coordinates near the store, routed at 50 m: one block, cheapest tier,
      and the geocoder is never asked. */
  lemma CoordsScenario(geocoded: Option<seq<Coords>>)
    ensures Handle(ShippingRequest(None, Some([-64.34, -33.12]), None), geocoded, Some(50.0))
         == Handled(Response(200, Quote(50.0, 1, 1800, [-64.34, -33.12])),
                    [Route(OriginCoords, [-64.34, -33.12])])
  {
  }
}
