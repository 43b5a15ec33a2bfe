/** The HTTP entry of the pipeline (src/handlers/orders/mod.rs:41-59). */
module OrderHandler {
  import opened Prelude
  import opened Orders
  import opened Store
  import opened OrderStore
  import opened SagaState
  import Text

  datatype CreateError = BadRequest(text: string) | Conflict(reason: Reason) | InternalError

  /** A sku with something but white space in it, and a positive quantity. */
  predicate Acceptable(request: CreateOrderRequest)
  {
    !Text.Blank(request.sku) && request.quantity > 0
  }

  /** The cache shows a stock, and it is below the quantity. */
  predicate ShownTooLow(outcome: PrecheckOutcome, quantity: i32)
  {
    outcome.Known? && outcome.available < quantity
  }

  /** Validate, look at the cache, then insert. `outcome` is what the one Redis GET came back with;
      `insertFails` says whether the database fails the transaction, which then rolls back. A request that is
      refused or fails changes nothing; an accepted one is a precheck step and an insert step. */
  method Create(store: OrderStore, request: CreateOrderRequest, outcome: PrecheckOutcome, insertFails: bool,
                orderId: Uuid, messageId: Uuid, rowId: nat, ghost s: Saga)
    returns (r: Result<OrderRecord, CreateError>, ghost steps: seq<Step>)
    requires store.Valid() && DbOf(s) == store.Value() && ReadsCache(s.cache, request.sku, outcome)
    requires rowId !in s.created.rows && orderId !in s.uuids && messageId !in s.uuids && orderId != messageId
    requires orderId !in s.orders
    modifies store, store.orderOutbox
    ensures r.Ok? <==> Acceptable(request) && !ShownTooLow(outcome, request.quantity) && !insertFails
    ensures r.Err? ==> steps == [] && store.Value() == old(store.Value())
    ensures r.Err? ==> (r.error.BadRequest? <==> !Acceptable(request))
    ensures r.Err? ==> (r.error.Conflict? <==> Acceptable(request) && ShownTooLow(outcome, request.quantity))
    ensures r.Err? && r.error.Conflict? ==> r.error.reason == InsufficientStock
    ensures Valid(s, steps) && DbOf(Exec(s, steps)) == store.Value()
    ensures r.Ok? ==> orderId in store.orders && store.orders[orderId] == r.value
                      && r.value.sku == request.sku && r.value.quantity == request.quantity
                      && !r.value.simulateFailure && r.value.status == Pending && r.value.failureReason == None
  {
    steps := [];
    var valid := request.Validate();
    if valid.Err? {
      return Err(BadRequest(valid.error)), [];
    }
    match DecideOrderCreation(outcome, request.quantity)
    case Reject(reason) =>
      return Err(Conflict(reason)), [];
    case Allow =>
      if insertFails {
        return Err(InternalError), [];
      }
      ghost var check, insert := Precheck(request, outcome), Insert(request, orderId, messageId, rowId);
      Cons(Apply(s, check), insert, []);
      Cons(s, check, [insert]);
      assert [check] + [insert] == [check, insert];
      assert [insert] + [] == [insert];
      var order := store.InsertOrderWithOutbox(request, orderId, messageId, rowId);
      return Ok(order), [check, insert];
  }
}
