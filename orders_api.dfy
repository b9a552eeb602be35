/** The orders controller: builds the caller's identity metadata from the
    authenticated principal's claims and the request's Authorization header,
    calls the orders adapter, and maps the outcome to an HTTP result. An
    `RpcException` becomes the numeric gRPC code with the status detail; any
    other exception becomes 500 "Error interno". */
module OrdersApi {

  import opened Common
  import opened Grpc
  import OrdersAdapter

  const NameIdentifierClaim: string := "http://schemas.xmlsoap.org/ws/2005/05/identity/claims/nameidentifier"
  const RoleClaim: string := "http://schemas.microsoft.com/ws/2008/06/identity/claims/role"
  const EmailClaim: string := "http://schemas.xmlsoap.org/ws/2005/05/identity/claims/emailaddress"

  const InternalErrorMessage: string := "Error interno"

  function ClaimTypeOf(c: Claim): string { c.claimType }
  function ClaimValueOf(c: Claim): string { c.value }

  /** The value of the principal's first claim of a type, or null. */
  function FirstClaim(claims: seq<Claim>, claimType: string): (r: Option<string>)
    ensures r.None? <==> forall i :: 0 <= i < |claims| ==> claims[i].claimType != claimType
    ensures r.Some? ==> exists i :: 0 <= i < |claims| && claims[i] == Claim(claimType, r.value)
                                    && forall j :: 0 <= j < i ==> claims[j].claimType != claimType
  {
    FirstWith(claims, ClaimTypeOf, ClaimValueOf, claimType)
  }

  /** The metadata sent to the orders backend: x-user-id, x-user-role and
      x-user-email from the first NameIdentifier, Role and Email claims
      (defaults "", "client" and ""), then `authorization` when the request's
      Authorization header renders to a non-blank string. */
  function UserMetadata(claims: seq<Claim>, authValues: seq<string>): (m: Metadata)
    ensures 3 <= |m| <= 4
    ensures m[0].key == "x-user-id" && m[1].key == "x-user-role" && m[2].key == "x-user-email"
    ensures |m| == 4 ==> m[3].key == "authorization" && !IsNullOrWhiteSpace(Some(m[3].value))
  {
    var authHeader := ForwardedHeader(authValues);
    [ Entry("x-user-id", FirstClaim(claims, NameIdentifierClaim).GetOr("")),
      Entry("x-user-role", FirstClaim(claims, RoleClaim).GetOr("client")),
      Entry("x-user-email", FirstClaim(claims, EmailClaim).GetOr("")) ]
    + (if IsNullOrWhiteSpace(Some(authHeader)) then [] else [Entry("authorization", authHeader)])
  }

  /** `GetUserMetadata`: three unconditional additions and one conditional one. */
  method GetUserMetadata(claims: seq<Claim>, authValues: seq<string>) returns (meta: Metadata)
    ensures meta == UserMetadata(claims, authValues)
  {
    meta := [];
    var userId := FirstClaim(claims, NameIdentifierClaim).GetOr("");
    var userRole := FirstClaim(claims, RoleClaim).GetOr("client");
    var userEmail := FirstClaim(claims, EmailClaim).GetOr("");
    meta := meta + [Entry("x-user-id", userId)];
    meta := meta + [Entry("x-user-role", userRole)];
    meta := meta + [Entry("x-user-email", userEmail)];
    var authHeader := if |authValues| > 0 then HeaderString(authValues) else "";
    if !IsNullOrWhiteSpace(Some(authHeader)) {
      meta := meta + [Entry("authorization", authHeader)];
    }
  }

  /** The three identity entries are always there, in the order id, role,
      email, even when empty; the role defaults to "client" and the others to
      "" only when the principal has no claim of that type. `authorization`
      comes last, verbatim, exactly when the header is present and not blank. */
  lemma UserMetadataShape(claims: seq<Claim>, authValues: seq<string>)
    ensures var m := UserMetadata(claims, authValues);
            var authHeader := ForwardedHeader(authValues);
            && (|m| == 3 || |m| == 4)
            && m[0].key == "x-user-id" && m[1].key == "x-user-role" && m[2].key == "x-user-email"
            && (FirstClaim(claims, RoleClaim).None? ==> m[1].value == "client")
            && (FirstClaim(claims, NameIdentifierClaim).Some? ==> m[0].value == FirstClaim(claims, NameIdentifierClaim).value)
            && (FirstClaim(claims, NameIdentifierClaim).None? ==> m[0].value == "")
            && (FirstClaim(claims, RoleClaim).Some? ==> m[1].value == FirstClaim(claims, RoleClaim).value)
            && (FirstClaim(claims, EmailClaim).Some? ==> m[2].value == FirstClaim(claims, EmailClaim).value)
            && (FirstClaim(claims, EmailClaim).None? ==> m[2].value == "")
            && (|m| == 4 <==> !IsNullOrWhiteSpace(Some(authHeader)))
            && (|m| == 4 ==> m[3] == Entry("authorization", authHeader))
            && (authValues == [] ==> |m| == 3)
  {
  }

  /** A gRPC response message listing orders. */
  datatype FindAllOrdersResponse<O> = FindAllOrdersResponse(orders: seq<O>)
  datatype FindOneOrderRequest = FindOneOrderRequest(id: string)
  datatype GetClientHistoryRequest = GetClientHistoryRequest(clientId: string)

  /** The value sent for a request message whose `Id` the route overwrites:
      its id and the rest of its fields. */
  datatype OrderIdMessage<P> = OrderIdMessage(id: string, payload: P)

  /** A request body bound from JSON (`UpdateOrderStatusRequest`,
      `CancelOrderRequest`): an object whose `Id` field the action assigns. */
  class OrderIdRequest<P> {
    var id: string
    var payload: P

    constructor (id: string, payload: P)
      ensures this.id == id && this.payload == payload
    {
      this.id := id;
      this.payload := payload;
    }

    function Message(): OrderIdMessage<P>
      reads this
    {
      OrderIdMessage(id, payload)
    }
  }

  /** The catch clauses of every action. */
  function ErrorResult<T>(e: Exception): (r: ActionResult<T>)
    ensures r.Failure?
    ensures r.status == 500 || 0 <= r.status <= 16
    ensures e.RpcException? ==> r.status == CodeValue(e.status.code) && r.message == e.status.detail
    ensures e.OtherException? ==> r == Failure(500, InternalErrorMessage)
  {
    match e
    case RpcException(s) => Failure(CodeValue(s.code), s.detail)
    case OtherException(_) => Failure(500, InternalErrorMessage)
  }

  /** An action's answer: the success status with the response, or the error mapping. */
  function Reply<T>(outcome: Outcome<T>, okStatus: int): (r: ActionResult<T>)
    ensures r.Success? <==> outcome.Ok?
    ensures r.Success? ==> r.status == okStatus && r.value == outcome.value
    ensures r.Failure? ==> r == ErrorResult(outcome.error)
  {
    match outcome
    case Ok(v) => Success(okStatus, v)
    case Threw(e) => ErrorResult(e)
  }

  /** `CreateOrder`: 201 with the created order, or the error mapping. */
  function CreateOrder<Q, O>(claims: seq<Claim>, authValues: seq<string>, dto: Q,
                             rpc: (Q, Metadata) -> Outcome<O>): (r: ActionResult<O>)
    ensures var o := rpc(dto, UserMetadata(claims, authValues));
            && (r.Success? <==> o.Ok?)
            && (o.Ok? ==> r == Success(201, o.value))
            && (o.Threw? ==> r == ErrorResult(o.error))
  {
    Reply(OrdersAdapter.CreateOrderAsync(rpc, dto, UserMetadata(claims, authValues)), 201)
  }

  /** `GetOrders`: 200 with the listed orders, or the error mapping. */
  function GetOrders<Q, O>(claims: seq<Claim>, authValues: seq<string>, dto: Q,
                           rpc: (Q, Metadata) -> Outcome<FindAllOrdersResponse<O>>): (r: ActionResult<seq<O>>)
    ensures var o := rpc(dto, UserMetadata(claims, authValues));
            && (r.Success? <==> o.Ok?)
            && (o.Ok? ==> r == Success(200, o.value.orders))
            && (o.Threw? ==> r == ErrorResult(o.error))
  {
    match OrdersAdapter.FindAllOrdersAsync(rpc, dto, UserMetadata(claims, authValues))
    case Ok(resp) => Success(200, resp.orders)
    case Threw(e) => ErrorResult(e)
  }

  /** `GetOrderById`: the route id in a `FindOneOrderRequest`; 200 with the
      order, or the error mapping. */
  function GetOrderById<O>(claims: seq<Claim>, authValues: seq<string>, id: string,
                           rpc: (FindOneOrderRequest, Metadata) -> Outcome<O>): (r: ActionResult<O>)
    ensures var o := rpc(FindOneOrderRequest(id), UserMetadata(claims, authValues));
            && (r.Success? <==> o.Ok?)
            && (o.Ok? ==> r == Success(200, o.value))
            && (o.Threw? ==> r == ErrorResult(o.error))
  {
    Reply(OrdersAdapter.FindOneOrderAsync(rpc, FindOneOrderRequest(id), UserMetadata(claims, authValues)), 200)
  }

  /** `GetHistory`: the route client id in a `GetClientHistoryRequest`; 200
      with the orders, or the error mapping. */
  function GetHistory<O>(claims: seq<Claim>, authValues: seq<string>, clientId: string,
                         rpc: (GetClientHistoryRequest, Metadata) -> Outcome<FindAllOrdersResponse<O>>)
    : (r: ActionResult<seq<O>>)
    ensures var o := rpc(GetClientHistoryRequest(clientId), UserMetadata(claims, authValues));
            && (r.Success? <==> o.Ok?)
            && (o.Ok? ==> r == Success(200, o.value.orders))
            && (o.Threw? ==> r == ErrorResult(o.error))
  {
    match OrdersAdapter.GetClientHistoryAsync(rpc, GetClientHistoryRequest(clientId), UserMetadata(claims, authValues))
    case Ok(resp) => Success(200, resp.orders)
    case Threw(e) => ErrorResult(e)
  }

  /** `UpdateStatus`: overwrites the body's `Id` with the route id, then
      sends the body with the caller's metadata. */
  method UpdateStatus<P, O>(claims: seq<Claim>, authValues: seq<string>, id: string, dto: OrderIdRequest<P>,
                            rpc: (OrderIdMessage<P>, Metadata) -> Outcome<O>) returns (result: ActionResult<O>)
    modifies dto
    ensures dto.id == id && dto.payload == old(dto.payload)
    ensures result == Reply(rpc(OrderIdMessage(id, old(dto.payload)), UserMetadata(claims, authValues)), 200)
  {
    var meta := GetUserMetadata(claims, authValues);
    dto.id := id;
    var resp := OrdersAdapter.UpdateOrderStatusAsync(rpc, dto.Message(), meta);
    result := Reply(resp, 200);
  }

  /** `CancelOrder`: overwrites the body's `Id` with the route id, then sends
      the body with the caller's metadata. */
  method CancelOrder<P, O>(claims: seq<Claim>, authValues: seq<string>, id: string, dto: OrderIdRequest<P>,
                           rpc: (OrderIdMessage<P>, Metadata) -> Outcome<O>) returns (result: ActionResult<O>)
    modifies dto
    ensures dto.id == id && dto.payload == old(dto.payload)
    ensures result == Reply(rpc(OrderIdMessage(id, old(dto.payload)), UserMetadata(claims, authValues)), 200)
  {
    var meta := GetUserMetadata(claims, authValues);
    dto.id := id;
    var resp := OrdersAdapter.CancelOrderAsync(rpc, dto.Message(), meta);
    result := Reply(resp, 200);
  }

  /** A backend `RpcException` reaches the HTTP answer with its code number
      as the status and its detail text as the message, in every action;
      any other exception gives 500 "Error interno". */
  lemma BackendErrorsPreserved<Q, O>(claims: seq<Claim>, authValues: seq<string>, dto: Q, id: string,
                                     createRpc: (Q, Metadata) -> Outcome<O>,
                                     listRpc: (Q, Metadata) -> Outcome<FindAllOrdersResponse<O>>,
                                     findRpc: (FindOneOrderRequest, Metadata) -> Outcome<O>,
                                     historyRpc: (GetClientHistoryRequest, Metadata) -> Outcome<FindAllOrdersResponse<O>>)
    ensures var meta := UserMetadata(claims, authValues);
            var o := createRpc(dto, meta);
            && (o.Threw? && o.error.RpcException? ==>
                 CreateOrder(claims, authValues, dto, createRpc)
                 == Failure(CodeValue(o.error.status.code), o.error.status.detail))
            && (o.Threw? && o.error.OtherException? ==>
                 CreateOrder(claims, authValues, dto, createRpc) == Failure(500, InternalErrorMessage))
            && (o.Ok? ==> CreateOrder(claims, authValues, dto, createRpc) == Success(201, o.value))
    ensures var meta := UserMetadata(claims, authValues);
            var o := listRpc(dto, meta);
            && (o.Threw? && o.error.RpcException? ==>
                 GetOrders(claims, authValues, dto, listRpc)
                 == Failure(CodeValue(o.error.status.code), o.error.status.detail))
            && (o.Threw? && o.error.OtherException? ==>
                 GetOrders(claims, authValues, dto, listRpc) == Failure(500, InternalErrorMessage))
            && (o.Ok? ==> GetOrders(claims, authValues, dto, listRpc) == Success(200, o.value.orders))
    ensures var meta := UserMetadata(claims, authValues);
            var o := findRpc(FindOneOrderRequest(id), meta);
            && (o.Threw? && o.error.RpcException? ==>
                 GetOrderById(claims, authValues, id, findRpc)
                 == Failure(CodeValue(o.error.status.code), o.error.status.detail))
            && (o.Threw? && o.error.OtherException? ==>
                 GetOrderById(claims, authValues, id, findRpc) == Failure(500, InternalErrorMessage))
            && (o.Ok? ==> GetOrderById(claims, authValues, id, findRpc) == Success(200, o.value))
    ensures var meta := UserMetadata(claims, authValues);
            var o := historyRpc(GetClientHistoryRequest(id), meta);
            && (o.Threw? && o.error.RpcException? ==>
                 GetHistory(claims, authValues, id, historyRpc)
                 == Failure(CodeValue(o.error.status.code), o.error.status.detail))
            && (o.Threw? && o.error.OtherException? ==>
                 GetHistory(claims, authValues, id, historyRpc) == Failure(500, InternalErrorMessage))
            && (o.Ok? ==> GetHistory(claims, authValues, id, historyRpc) == Success(200, o.value.orders))
  {
  }

  /** Unlike the catalog, an Unimplemented orders backend is an error answer:
      the status is 12 and the detail text is kept. */
  lemma UnimplementedOrdersBackendIsAnError<O>(claims: seq<Claim>, authValues: seq<string>, id: string,
                                               findRpc: (FindOneOrderRequest, Metadata) -> Outcome<O>, detail: string)
    requires findRpc(FindOneOrderRequest(id), UserMetadata(claims, authValues))
             == Threw(RpcException(Status(Unimplemented, detail)))
    ensures GetOrderById(claims, authValues, id, findRpc) == Failure(12, detail)
  {
  }

  /** The status of an error answer is either 500 or a raw gRPC code number
      between 0 and 16, never an HTTP 4xx status. */
  lemma ErrorStatusRange<T>(e: Exception)
    ensures var r: ActionResult<T> := ErrorResult(e);
            r.status == 500 || 0 <= r.status <= 16
  {
  }
}
