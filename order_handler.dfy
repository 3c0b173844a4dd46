/**
 * The order service handlers (order_service/handler/order_handler.go):
 * creating an order inside a transaction, reading an order through the
 * cache, and estimating the cost of a shipment. The relational store, the
 * Redis cache and the shipping configuration are the fields of the service
 * object; the generated order id, the clock and store faults are parameters.
 */
module OrderHandler {
  import opened Wrappers
  import opened Json
  import opened Rpc
  import opened Cache
  import opened Decimal
  import opened OrderModel

  datatype CreateOrderRequest = CreateOrderRequest(
    userId: string,
    senderAddressId: string,
    receiverAddressId: string,
    itemName: string,
    weight: real,
    volume: real,
    logisticsCompany: string,
    preferredDeliveryTime: int,
    isUrgent: bool)

  datatype OrderResponse = OrderResponse(orderId: string, message: string, createdAt: int)

  /** The `OrderInfo` message returned by `GetOrder` and kept in the cache. */
  datatype OrderInfo = OrderInfo(
    orderId: string,
    userId: string,
    senderAddress: string,
    receiverAddress: string,
    itemName: string,
    weight: real,
    volume: real,
    status: int,
    createdAt: int,
    logisticsCompany: string,
    preferredDeliveryTime: int,
    isUrgent: bool,
    updatedAt: int)

  /** `json.Marshal` of an `OrderInfo`; times are whole seconds. */
  function OrderInfoJson(i: OrderInfo): Json {
    JObj(map["order_id" := JStr(i.orderId), "user_id" := JStr(i.userId),
             "sender_address" := JStr(i.senderAddress), "receiver_address" := JStr(i.receiverAddress),
             "item_name" := JStr(i.itemName), "weight" := JNum(i.weight), "volume" := JNum(i.volume),
             "status" := JNum(i.status as real), "created_at" := TimestampJson(i.createdAt),
             "logistics_company" := JStr(i.logisticsCompany),
             "preferred_delivery_time" := TimestampJson(i.preferredDeliveryTime),
             "is_urgent" := JBool(i.isUrgent), "updated_at" := TimestampJson(i.updatedAt)])
  }

  /** `json.Unmarshal` into an `OrderInfo`. */
  function DecodeOrderInfo(j: Json): Result<OrderInfo, DecodeError> {
    match j
    case JNull => Ok(OrderInfo("", "", "", "", "", 0.0, 0.0, 0, 0, "", 0, false, 0))
    case JObj(ms) =>
      var orderId :- StringField(ms, "order_id");
      var userId :- StringField(ms, "user_id");
      var senderAddress :- StringField(ms, "sender_address");
      var receiverAddress :- StringField(ms, "receiver_address");
      var itemName :- StringField(ms, "item_name");
      var weight :- RealField(ms, "weight");
      var volume :- RealField(ms, "volume");
      var status :- IntField(ms, "status");
      var createdAt :- TimestampField(ms, "created_at");
      var logisticsCompany :- StringField(ms, "logistics_company");
      var preferredDeliveryTime :- TimestampField(ms, "preferred_delivery_time");
      var isUrgent :- BoolField(ms, "is_urgent");
      var updatedAt :- TimestampField(ms, "updated_at");
      Ok(OrderInfo(orderId, userId, senderAddress, receiverAddress, itemName, weight, volume, status,
                   createdAt, logisticsCompany, preferredDeliveryTime, isUrgent, updatedAt))
    case _ => Err(WrongKind("OrderInfo"))
  }

  /** The members an `OrderInfo` is written to, each holding what `Unmarshal` reads back as field `i`. */
  predicate HoldsOrderInfo(ms: map<string, Json>, i: OrderInfo) {
    && StringField(ms, "order_id") == Ok(i.orderId)
    && StringField(ms, "user_id") == Ok(i.userId)
    && StringField(ms, "sender_address") == Ok(i.senderAddress)
    && StringField(ms, "receiver_address") == Ok(i.receiverAddress)
    && StringField(ms, "item_name") == Ok(i.itemName)
    && RealField(ms, "weight") == Ok(i.weight)
    && RealField(ms, "volume") == Ok(i.volume)
    && IntField(ms, "status") == Ok(i.status)
    && TimestampField(ms, "created_at") == Ok(i.createdAt)
    && StringField(ms, "logistics_company") == Ok(i.logisticsCompany)
    && TimestampField(ms, "preferred_delivery_time") == Ok(i.preferredDeliveryTime)
    && BoolField(ms, "is_urgent") == Ok(i.isUrgent)
    && TimestampField(ms, "updated_at") == Ok(i.updatedAt)
  }

  /** An object whose members hold every field of `i` decodes to `i`, whatever else it holds. */
  lemma DecodeHeldOrderInfo(ms: map<string, Json>, i: OrderInfo)
    requires HoldsOrderInfo(ms, i)
    ensures DecodeOrderInfo(JObj(ms)) == Ok(i)
  {
  }

  /** The identifying members of the encoding of `i` read back as its identifying fields. */
  lemma EncodingHoldsOrderIdentity(i: OrderInfo)
    ensures StringField(OrderInfoJson(i).members, "order_id") == Ok(i.orderId)
    ensures StringField(OrderInfoJson(i).members, "user_id") == Ok(i.userId)
    ensures StringField(OrderInfoJson(i).members, "item_name") == Ok(i.itemName)
  {
  }

  /** The address and carrier members of the encoding of `i` read back as its route fields. */
  lemma EncodingHoldsOrderRoute(i: OrderInfo)
    ensures StringField(OrderInfoJson(i).members, "sender_address") == Ok(i.senderAddress)
    ensures StringField(OrderInfoJson(i).members, "receiver_address") == Ok(i.receiverAddress)
    ensures StringField(OrderInfoJson(i).members, "logistics_company") == Ok(i.logisticsCompany)
  {
  }

  /** The number and flag members of the encoding of `i` read back as its number and flag fields. */
  lemma EncodingHoldsOrderNumbers(i: OrderInfo)
    ensures RealField(OrderInfoJson(i).members, "weight") == Ok(i.weight)
    ensures RealField(OrderInfoJson(i).members, "volume") == Ok(i.volume)
    ensures IntField(OrderInfoJson(i).members, "status") == Ok(i.status)
    ensures BoolField(OrderInfoJson(i).members, "is_urgent") == Ok(i.isUrgent)
  {
    IntFieldReadsBack(OrderInfoJson(i).members, "status", i.status);
  }

  /** The timestamp members of the encoding of `i` read back as its times. */
  lemma EncodingHoldsOrderTimes(i: OrderInfo)
    ensures TimestampField(OrderInfoJson(i).members, "created_at") == Ok(i.createdAt)
    ensures TimestampField(OrderInfoJson(i).members, "preferred_delivery_time") == Ok(i.preferredDeliveryTime)
    ensures TimestampField(OrderInfoJson(i).members, "updated_at") == Ok(i.updatedAt)
  {
    var ms := OrderInfoJson(i).members;
    TimestampReadsBack(ms, "created_at", i.createdAt);
    TimestampReadsBack(ms, "preferred_delivery_time", i.preferredDeliveryTime);
    TimestampReadsBack(ms, "updated_at", i.updatedAt);
  }

  /** What `GetOrder` writes to the cache decodes back to the same `OrderInfo`. */
  lemma OrderInfoRoundTrip(i: OrderInfo)
    ensures DecodeOrderInfo(OrderInfoJson(i)) == Ok(i)
  {
    EncodingHoldsOrderIdentity(i);
    EncodingHoldsOrderRoute(i);
    EncodingHoldsOrderNumbers(i);
    EncodingHoldsOrderTimes(i);
    DecodeHeldOrderInfo(OrderInfoJson(i).members, i);
  }

  /** The `OrderInfo` built from a stored row. */
  function ToOrderInfo(o: Order): OrderInfo {
    OrderInfo(o.orderId, FormatUint(o.userId), o.senderAddress, o.receiverAddress, o.itemName,
              o.weight, o.volume, o.status, o.createdAt, o.logisticsCompany,
              o.preferredDeliveryTime, o.isUrgent, o.updatedAt)
  }

  /** The cache key of an order. */
  function OrderKey(orderId: string): string {
    "order:" + orderId
  }

  /** The pricing parameters of the `shipping` section of the configuration. */
  datatype ShippingConfig = ShippingConfig(
    basePrice: real,
    pricePerKgPerKm: real,
    volumeRate: real,
    urgentSurcharge: real,
    delayDiscount: real,
    transportRates: map<string, real>)

  datatype EstimateRequest = EstimateRequest(
    distanceKm: real,
    weight: real,
    volume: real,
    isUrgent: bool,
    isDelayed: bool,
    transportMethod: int)

  function FormatBool(b: bool): string {
    if b then "true" else "false"
  }

  /** The fingerprint key `estimate:%f:%f:%f:%t:%t:%d` of an estimate request. */
  function EstimateKey(req: EstimateRequest): string {
    "estimate:" + FormatFixed(req.distanceKm) + ":" + FormatFixed(req.weight) + ":" + FormatFixed(req.volume)
      + ":" + FormatBool(req.isUrgent) + ":" + FormatBool(req.isDelayed) + ":" + FormatInt(req.transportMethod)
  }

  function Max(a: real, b: real): real {
    if a >= b then a else b
  }

  /** The billing weight: the larger of the actual weight and the volumetric weight. */
  function BillingWeight(cfg: ShippingConfig, req: EstimateRequest): real {
    Max(req.weight, req.volume * cfg.volumeRate)
  }

  /** The factor for urgency or delay: urgency wins when both are set. */
  function Adjustment(cfg: ShippingConfig, req: EstimateRequest): real {
    if req.isUrgent then cfg.urgentSurcharge else if req.isDelayed then cfg.delayDiscount else 1.0
  }

  /** The name of a transport method as the generated enum table gives it; unknown values have the empty name. */
  function MethodName(names: map<int, string>, transport: int): string {
    if transport in names then names[transport] else ""
  }

  /**
   * The cost of a shipment at transport rate `rate`: base price plus billing
   * weight times price per kilogram-kilometre times distance, scaled by the
   * transport rate and by the urgency or delay factor.
   */
  function Cost(cfg: ShippingConfig, rate: real, req: EstimateRequest): real {
    (cfg.basePrice + BillingWeight(cfg, req) * cfg.pricePerKgPerKm * req.distanceKm) * rate * Adjustment(cfg, req)
  }

  /**
   * The reference estimate: configuration and Redis must be present; an
   * unknown transport method is reported before the parameter check; the
   * distance and the weight must be positive.
   */
  function Estimate(shipping: Option<ShippingConfig>, redisConfigured: bool, names: map<int, string>,
                    req: EstimateRequest): Result<real, Error>
  {
    if shipping.None? then Err(Plain("shipping config is not initialized"))
    else if !redisConfigured then Err(Plain("Redis client is not initialized"))
    else
      var cfg := shipping.value;
      var name := MethodName(names, req.transportMethod);
      if name !in cfg.transportRates then Err(Plain("invalid transport method"))
      else if req.distanceKm <= 0.0 || req.weight <= 0.0 then Err(Plain("invalid request parameters"))
      else
        Ok(Cost(cfg, cfg.transportRates[name], req))
  }

  /** The billing weight is the maximum of the two weights. */
  lemma BillingWeightIsMax(cfg: ShippingConfig, req: EstimateRequest)
    ensures BillingWeight(cfg, req) >= req.weight && BillingWeight(cfg, req) >= req.volume * cfg.volumeRate
    ensures BillingWeight(cfg, req) == req.weight || BillingWeight(cfg, req) == req.volume * cfg.volumeRate
  {
  }

  /** An unknown transport method is reported whatever the other parameters are. */
  lemma UnknownMethodFirst(cfg: ShippingConfig, names: map<int, string>, req: EstimateRequest)
    requires MethodName(names, req.transportMethod) !in cfg.transportRates
    ensures Estimate(Some(cfg), true, names, req) == Err(Plain("invalid transport method"))
  {
  }

  /** With a known method, the estimate fails exactly when the distance or the weight is not positive. */
  lemma ParametersChecked(cfg: ShippingConfig, names: map<int, string>, req: EstimateRequest)
    requires MethodName(names, req.transportMethod) in cfg.transportRates
    ensures Estimate(Some(cfg), true, names, req).Err? <==> req.distanceKm <= 0.0 || req.weight <= 0.0
    ensures Estimate(Some(cfg), true, names, req).Err? ==>
      Estimate(Some(cfg), true, names, req) == Err(Plain("invalid request parameters"))
  {
  }

  /** The delay discount is ignored when the request is also urgent. */
  lemma UrgentOverridesDelay(shipping: Option<ShippingConfig>, redis: bool, names: map<int, string>, req: EstimateRequest)
    requires req.isUrgent
    ensures Estimate(shipping, redis, names, req) == Estimate(shipping, redis, names, req.(isDelayed := false))
  {
    if shipping.Some? {
      var plain := req.(isDelayed := false);
      assert Adjustment(shipping.value, req) == Adjustment(shipping.value, plain);
      if Estimate(shipping, redis, names, req).Ok? {
        assert Estimate(shipping, redis, names, req).value == Estimate(shipping, redis, names, plain).value;
      }
    }
  }

  /**
   * The order client's example request: 120.5 km, 3.2 kg and 0.0045 cubic metres by road
   * with a volumetric rate of 5000 bill 22.5 kg.
   */
  lemma ExampleByRoad(cfg: ShippingConfig, names: map<int, string>, road: int)
    requires cfg.volumeRate == 5000.0 && road in names && names[road] in cfg.transportRates
    ensures var req := EstimateRequest(120.5, 3.2, 0.0045, false, false, road);
      && BillingWeight(cfg, req) == 22.5
      && Estimate(Some(cfg), true, names, req) == Ok(Cost(cfg, cfg.transportRates[names[road]], req))
      && Cost(cfg, cfg.transportRates[names[road]], req)
           == (cfg.basePrice + 22.5 * cfg.pricePerKgPerKm * 120.5) * cfg.transportRates[names[road]]
  {
    var req := EstimateRequest(120.5, 3.2, 0.0045, false, false, road);
    var rate := cfg.transportRates[names[road]];
    assert req.volume * cfg.volumeRate == 22.5;
    assert BillingWeight(cfg, req) == 22.5;
    calc {
      Cost(cfg, rate, req);
      (cfg.basePrice + BillingWeight(cfg, req) * cfg.pricePerKgPerKm * req.distanceKm) * rate * Adjustment(cfg, req);
      (cfg.basePrice + 22.5 * cfg.pricePerKgPerKm * 120.5) * rate * 1.0;
    }
  }

  /** The step-by-step computation of the handler yields the reference cost. */
  lemma CostInSteps(cfg: ShippingConfig, req: EstimateRequest, rate: real, billing: real, base: real, scaled: real, total: real)
    requires billing == if req.volume * cfg.volumeRate > req.weight then req.volume * cfg.volumeRate else req.weight
    requires base == cfg.basePrice + billing * cfg.pricePerKgPerKm * req.distanceKm
    requires scaled == base * rate
    requires total == if req.isUrgent then scaled * cfg.urgentSurcharge
                      else if req.isDelayed then scaled * cfg.delayDiscount else scaled
    ensures total == Cost(cfg, rate, req)
  {
  }

  class OrderService {
    /** The `orders` table, in primary-key order. */
    var orders: seq<Order>
    /** The next auto-increment primary key. */
    var nextId: nat
    /** The Redis entries and whether Redis answers. */
    var cache: map<string, Entry>
    var cacheOnline: bool
    /** The injected shipping configuration (nil when absent) and whether a Redis client was injected. */
    const shipping: Option<ShippingConfig>
    const redisConfigured: bool
    /** `pb.TransportMethod_name`, the generated table of enum names. */
    const transportNames: map<int, string>

    ghost predicate Valid()
      reads this
    {
      nextId >= 1 && WellFormed(orders, nextId)
    }

    constructor(shipping: Option<ShippingConfig>, redisConfigured: bool, transportNames: map<int, string>)
      ensures Valid() && orders == [] && cache == map[] && cacheOnline
      ensures this.shipping == shipping && this.redisConfigured == redisConfigured
      ensures this.transportNames == transportNames
    {
      orders := [];
      nextId := 1;
      cache := map[];
      cacheOnline := true;
      this.shipping := shipping;
      this.redisConfigured := redisConfigured;
      this.transportNames := transportNames;
    }

    /**
     * `CreateOrder`: inside one transaction, parse the user id and insert one
     * order with the generated `orderId` and status Created. A bad user id or
     * a failed insert (a store fault, or an order id the unique index already
     * holds) rolls back and leaves the table as it was. Otherwise the
     * transaction is committed and the response echoes the order id. The
     * commit's error is not checked: when `commitFails`, the insert is lost
     * and the same success is answered.
     */
    method CreateOrder(req: CreateOrderRequest, orderId: string, now: int, fault: Option<string>, commitFails: bool)
      returns (r: Result<OrderResponse, Error>)
      requires Valid()
      modifies this`orders, this`nextId
      ensures Valid()
      ensures ParseUint(req.userId).Err? ==> r == Err(Plain("invalid user_id format")) && orders == old(orders)
      ensures ParseUint(req.userId).Ok? && fault.Some? ==>
        r == Err(Db(Fault(fault.value))) && orders == old(orders)
      ensures ParseUint(req.userId).Ok? && fault.None? && HasOrderId(old(orders), orderId) ==>
        r == Err(Db(DuplicateKey("order_id"))) && orders == old(orders)
      ensures r.Ok? <==> ParseUint(req.userId).Ok? && fault.None? && !HasOrderId(old(orders), orderId)
      ensures r.Ok? ==> r.value == OrderResponse(orderId, "Create order Success", now)
      ensures r.Ok? && commitFails ==> orders == old(orders)
      ensures r.Ok? && !commitFails ==>
        orders == old(orders) + [Order(old(nextId), orderId, ParseUint(req.userId).value,
             req.senderAddressId, req.receiverAddressId, req.itemName, req.weight, req.volume,
             req.logisticsCompany, req.preferredDeliveryTime, req.isUrgent, false,
             OrderModel.Code(StatusCreated), now, now)]
    {
      var userId := ParseUint(req.userId);
      if userId.Err? {
        // rollback: nothing was written
        return Err(Plain("invalid user_id format"));
      }
      var order := Order(nextId, orderId, userId.value, req.senderAddressId, req.receiverAddressId,
                         req.itemName, req.weight, req.volume, req.logisticsCompany,
                         req.preferredDeliveryTime, req.isUrgent, false, OrderModel.Code(StatusCreated), now, now);
      if fault.Some? {
        return Err(Db(Fault(fault.value)));
      }
      if HasOrderId(orders, orderId) {
        return Err(Db(DuplicateKey("order_id")));
      }
      if !commitFails {
        InsertKeepsWellFormed(orders, nextId, order);
        orders := orders + [order];
        nextId := nextId + 1;
      }
      r := Ok(OrderResponse(order.orderId, "Create order Success", order.createdAt));
    }

    /**
     * `GetOrder`: a cached entry under "order:"+id that decodes is returned
     * without reading the store. Otherwise the store is read: no row gives
     * NotFound, a store fault gives Internal, and a row is turned into an
     * `OrderInfo`, written to the cache with no expiry, and returned. The
     * Redis client is used without a nil check, so the service must have one.
     */
    method GetOrder(orderId: string, now: int, fault: Option<string>) returns (r: Result<OrderInfo, Error>)
      requires redisConfigured
      modifies this`cache
      ensures var reply := Get(old(cache), cacheOnline, OrderKey(orderId), now);
        if reply.Hit? && reply.value.Doc? && DecodeOrderInfo(reply.value.doc).Ok? then
          r == Ok(DecodeOrderInfo(reply.value.doc).value) && cache == old(cache)
        else if fault.Some? then
          r == Err(Status(Internal, "Database error: " + fault.value)) && cache == old(cache)
        else if FindByOrderId(orders, orderId).None? then
          r == Err(Status(NotFound, "Order not found")) && cache == old(cache)
        else
          && r == Ok(ToOrderInfo(FindByOrderId(orders, orderId).value))
          && cache == if cacheOnline then old(cache)[OrderKey(orderId) := Entry(Doc(OrderInfoJson(r.value)), None)]
                      else old(cache)
    {
      var key := OrderKey(orderId);
      var reply := Get(cache, cacheOnline, key, now);
      if reply.Hit? && reply.value.Doc? {
        var decoded := DecodeOrderInfo(reply.value.doc);
        if decoded.Ok? {
          return Ok(decoded.value);
        }
      }
      if fault.Some? {
        return Err(Status(Internal, "Database error: " + DbMessage(Fault(fault.value))));
      }
      var found := FindByOrderId(orders, orderId);
      if found.None? {
        return Err(Status(NotFound, "Order not found"));
      }
      var info := ToOrderInfo(found.value);
      if cacheOnline {
        cache := Put(cache, key, Doc(OrderInfoJson(info)), 0, now);
      }
      r := Ok(info);
    }

    /**
     * `EstimateCost`: the value read from the cache is overwritten before it
     * is used, so the result is always the reference estimate; a successful
     * estimate is then stored under the request's fingerprint with no expiry.
     */
    method EstimateCost(req: EstimateRequest, now: int) returns (r: Result<real, Error>)
      modifies this`cache
      ensures r == Estimate(shipping, redisConfigured, transportNames, req)
      ensures cache == if r.Ok? && cacheOnline then old(cache)[EstimateKey(req) := Entry(Doc(JNum(r.value)), None)]
                       else old(cache)
    {
      if shipping.None? {
        return Err(Plain("shipping config is not initialized"));
      }
      if !redisConfigured {
        return Err(Plain("Redis client is not initialized"));
      }
      var cacheKey := EstimateKey(req);
      var totalCost := 0.0;
      var cached := Float64(Get(cache, cacheOnline, cacheKey, now));
      if cached.Some? {
        totalCost := cached.value;
      }
      var cfg := shipping.value;
      var name := MethodName(transportNames, req.transportMethod);
      if name !in cfg.transportRates {
        return Err(Plain("invalid transport method"));
      }
      var transportRate := cfg.transportRates[name];
      var volumeWeight := req.volume * cfg.volumeRate;
      var billingWeight := req.weight;
      if volumeWeight > req.weight {
        billingWeight := volumeWeight;
      }
      if req.distanceKm <= 0.0 || req.weight <= 0.0 {
        return Err(Plain("invalid request parameters"));
      }
      totalCost := cfg.basePrice + (billingWeight * cfg.pricePerKgPerKm * req.distanceKm);
      ghost var base := totalCost;
      totalCost := totalCost * transportRate;
      ghost var scaled := totalCost;
      if req.isUrgent {
        // the source tests for air transport here, and both arms apply the surcharge
        totalCost := totalCost * cfg.urgentSurcharge;
      } else if req.isDelayed {
        totalCost := totalCost * cfg.delayDiscount;
      }
      CostInSteps(cfg, req, transportRate, billingWeight, base, scaled, totalCost);
      if cacheOnline {
        cache := Put(cache, cacheKey, Doc(JNum(totalCost)), 0, now);
      }
      r := Ok(totalCost);
    }
  }

  /**
   * Reading an order twice: once a read from the store has filled the cache,
   * the next read returns the same information even if the store has since
   * failed.
   */
  method GetOrderTwice(s: OrderService, orderId: string, now: int, later: int)
    requires s.redisConfigured && s.cacheOnline && OrderKey(orderId) !in s.cache && now <= later
    modifies s
  {
    var first := s.GetOrder(orderId, now, None);
    if first.Ok? {
      OrderInfoRoundTrip(first.value);
      assert s.cache[OrderKey(orderId)] == Entry(Doc(OrderInfoJson(first.value)), None);
      var second := s.GetOrder(orderId, later, Some("connection refused"));
      assert second == first;
    }
  }
}
