/** The pure order rules of src/orders/mod.rs. */
module Orders {
  import opened Prelude
  import Text

  /** A v4 UUID. Only equality matters; freshness is a condition on the step that generates it. */
  type Uuid = nat

  datatype OrderStatus = Pending | Confirmed | Rejected

  /** The consumer names of the two inbox tables: axes-orders-worker and axes-inventory-worker. */
  datatype Consumer = OrdersWorker | InventoryWorker

  /** Failure reasons: insufficient_stock, simulated_inventory_failure, or any other text. */
  datatype Reason = InsufficientStock | SimulatedInventoryFailure | OtherReason(text: string)

  function Code(status: OrderStatus): i32
  {
    match status
    case Pending => 0
    case Confirmed => 1
    case Rejected => 2
  }

  function FromCode(value: i32): Result<OrderStatus, string>
  {
    match value
    case 0 => Ok(Pending)
    case 1 => Ok(Confirmed)
    case 2 => Ok(Rejected)
    case _ => Err("Invalid order status")
  }

  /** The stored code decodes to exactly the status that was encoded; every other code is refused. */
  lemma StatusCodeRoundTrip(value: i32)
    ensures forall status :: FromCode(value) == Ok(status) <==> value == Code(status)
    ensures FromCode(value).Err? <==> value !in {0, 1, 2}
    ensures Code(Pending) == 0 && Code(Confirmed) == 1 && Code(Rejected) == 2
  {
  }

  datatype CreateOrderRequest = CreateOrderRequest(sku: string, quantity: i32)
  {
    function Validate(): (r: Result<CreateOrderRequest, string>)
      ensures r.Ok? ==> r.value == this
      ensures r.Ok? <==> quantity > 0 && !Text.Blank(sku)
      ensures Text.Blank(sku) ==> r == Err("Sku is required")
      ensures !Text.Blank(sku) && quantity <= 0 ==> r == Err("Quantity must be greater than zero")
    {
      Text.TrimBlank(sku);
      if Text.Trim(sku) == "" then Err("Sku is required")
      else if quantity <= 0 then Err("Quantity must be greater than zero")
      else Ok(this)
    }
  }

  datatype PrecheckOutcome = Known(available: i32) | Missing | Unavailable

  datatype PrecheckDecision = Allow | Reject(reason: Reason)

  function DecideOrderCreation(precheck: PrecheckOutcome, quantity: i32): PrecheckDecision
  {
    match precheck
    case Known(available) => if available < quantity then Reject(InsufficientStock) else Allow
    case Missing => Allow
    case Unavailable => Allow
  }

  datatype Applied = Applied(status: OrderStatus, failureReason: Option<Reason>)

  function ApplyInventoryResult(success: bool, reason: Option<Reason>): Applied
  {
    if success then Applied(Confirmed, None)
    else Applied(Rejected, if reason.Some? then reason else Some(InsufficientStock))
  }

  datatype OrderCreatedEvent = OrderCreatedEvent(
    messageId: Uuid, correlationId: Uuid, orderId: Uuid, sku: string, quantity: i32)

  datatype InventoryResultEvent = InventoryResultEvent(
    messageId: Uuid, correlationId: Uuid, orderId: Uuid, sku: string, quantity: i32,
    success: bool, reason: Option<Reason>)

  datatype ProcessingOutcome = ProcessingOutcome(success: bool, reason: Option<Reason>)

  function DetermineInventoryResult(simulateFailure: bool, updatedRows: nat): ProcessingOutcome
  {
    if simulateFailure then ProcessingOutcome(false, Some(SimulatedInventoryFailure))
    else if updatedRows == 1 then ProcessingOutcome(true, None)
    else ProcessingOutcome(false, Some(InsufficientStock))
  }

  /** The two halves of the pipeline agree: what the inventory worker decides is what the orders
      worker records, and a reason is recorded exactly for rejections. */
  lemma DecisionIsRecorded(simulateFailure: bool, updatedRows: nat)
    ensures var outcome := DetermineInventoryResult(simulateFailure, updatedRows);
            var applied := ApplyInventoryResult(outcome.success, outcome.reason);
            && (applied.status == Confirmed <==> !simulateFailure && updatedRows == 1)
            && (applied.status == Rejected <==> simulateFailure || updatedRows != 1)
            && (applied.failureReason == None <==> applied.status == Confirmed)
            && applied.failureReason == outcome.reason
            && (applied.failureReason == Some(SimulatedInventoryFailure) <==> simulateFailure)
            && (applied.failureReason == Some(InsufficientStock) <==> !simulateFailure && updatedRows != 1)
  {
  }
}
