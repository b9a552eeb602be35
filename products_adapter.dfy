/** The catalog adapter: one call per backend operation. A backend that
    answers Unimplemented is a soft failure turned into a default value
    (an empty list, null, or an empty delete response); every other
    exception is rethrown unchanged. The backend is a parameter mapping the
    request and the call metadata to the backend's outcome. */
module ProductsAdapter {

  import opened Common
  import opened Grpc

  const DefaultAddress: string := "http://localhost:50051"

  /** The backend address: the configured `GrpcServices:ProductsService`, or
      the default when that setting is absent. */
  function GrpcAddress(configured: Option<string>): (address: string)
    ensures configured.None? ==> address == "http://localhost:50051"
    ensures configured.Some? ==> address == configured.value
  {
    ChannelAddress(configured, DefaultAddress)
  }

  // Request and response messages of the catalog service, as far as the
  // gateway builds or reads them; `P` stands for the product message.
  datatype GetProductsRequest = GetProductsRequest
  datatype GetProductsResponse<P> = GetProductsResponse(products: seq<P>)
  datatype GetProductRequest = GetProductRequest(id: string)
  datatype CreateProductRequest =
    CreateProductRequest(name: string, description: string, price: real, category: string)
  datatype UpdateProductRequest =
    UpdateProductRequest(id: string, name: string, description: string, price: real, category: string)
  datatype DeleteProductRequest = DeleteProductRequest(id: string)
  datatype DeleteProductResponse = DeleteProductResponse(message: string, success: bool)

  /** A freshly constructed `DeleteProductResponse`: proto3 defaults. */
  const EmptyDeleteResponse: DeleteProductResponse := DeleteProductResponse("", false)

  /** The metadata sent with the writing calls: `authorization` with the
      header verbatim, or nothing when the header is null or whitespace. */
  function AuthMetadata(authHeader: Option<string>): (meta: Metadata)
    ensures |meta| <= 1
    ensures meta == [] <==> IsNullOrWhiteSpace(authHeader)
    ensures forall e :: e in meta ==> e == Entry("authorization", authHeader.value)
  {
    if IsNullOrWhiteSpace(authHeader) then [] else [Entry("authorization", authHeader.value)]
  }

  /** `BuildAuthMetadata`: starts from empty metadata and adds the one entry
      when the header is not blank. */
  method BuildAuthMetadata(authHeader: Option<string>) returns (meta: Metadata)
    ensures meta == AuthMetadata(authHeader)
  {
    meta := [];
    if !IsNullOrWhiteSpace(authHeader) {
      meta := meta + [Entry("authorization", authHeader.value)];
    }
  }

  /** The catch clause shared by every call: Unimplemented becomes the given
      fallback value; any other exception and any response pass unchanged. */
  function Soften<T>(outcome: Outcome<T>, fallback: T): (r: Outcome<T>)
    ensures !IsUnimplemented(r)
    ensures IsUnimplemented(outcome) ==> r == Ok(fallback)
    ensures !IsUnimplemented(outcome) ==> r == outcome
    ensures outcome.Ok? ==> r == outcome
    ensures r.Threw? ==> r == outcome
  {
    if IsUnimplemented(outcome) then Ok(fallback) else outcome
  }

  /** A call returning a nullable product: a response becomes non-null. */
  function AsNullable<P>(outcome: Outcome<P>): (r: Outcome<Option<P>>)
    ensures outcome.Ok? <==> r.Ok? && r.value.Some?
    ensures outcome.Ok? ==> r == Ok(Some(outcome.value))
    ensures outcome.Threw? ==> r == Threw(outcome.error)
  {
    match outcome
    case Ok(p) => Ok(Some(p))
    case Threw(e) => Threw(e)
  }

  /** Lists with an empty request and no metadata; never fails with Unimplemented. */
  function GetProductsAsync<P>(rpc: (GetProductsRequest, Metadata) -> Outcome<GetProductsResponse<P>>)
    : (r: Outcome<GetProductsResponse<P>>)
    ensures var o := rpc(GetProductsRequest, []);
            && !IsUnimplemented(r)
            && (!IsUnimplemented(o) ==> r == o)
            && (o.Ok? ==> r == o)
            && (r.Threw? ==> r == o)
  {
    Soften(rpc(GetProductsRequest, []), GetProductsResponse([]))
  }

  /** Fetches by id with no metadata; null exactly on Unimplemented. */
  function GetProductAsync<P>(rpc: (GetProductRequest, Metadata) -> Outcome<P>, id: string)
    : (r: Outcome<Option<P>>)
    ensures var o := rpc(GetProductRequest(id), []);
            && !IsUnimplemented(r)
            && (r == Ok(None) <==> IsUnimplemented(o))
            && (o.Ok? ==> r == Ok(Some(o.value)))
            && (o.Threw? && !IsUnimplemented(o) ==> r == Threw(o.error))
            && (r.Threw? ==> o == Threw(r.error))
  {
    Soften(AsNullable(rpc(GetProductRequest(id), [])), None)
  }

  /** Creates with the caller's authorization metadata; null exactly on Unimplemented. */
  function CreateProductAsync<P>(rpc: (CreateProductRequest, Metadata) -> Outcome<P>,
                                 req: CreateProductRequest, authHeader: Option<string>)
    : (r: Outcome<Option<P>>)
    ensures var o := rpc(req, AuthMetadata(authHeader));
            && !IsUnimplemented(r)
            && (r == Ok(None) <==> IsUnimplemented(o))
            && (o.Ok? ==> r == Ok(Some(o.value)))
            && (o.Threw? && !IsUnimplemented(o) ==> r == Threw(o.error))
            && (r.Threw? ==> o == Threw(r.error))
  {
    Soften(AsNullable(rpc(req, AuthMetadata(authHeader))), None)
  }

  /** Updates with the caller's authorization metadata; null exactly on Unimplemented. */
  function UpdateProductAsync<P>(rpc: (UpdateProductRequest, Metadata) -> Outcome<P>,
                                 req: UpdateProductRequest, authHeader: Option<string>)
    : (r: Outcome<Option<P>>)
    ensures var o := rpc(req, AuthMetadata(authHeader));
            && !IsUnimplemented(r)
            && (r == Ok(None) <==> IsUnimplemented(o))
            && (o.Ok? ==> r == Ok(Some(o.value)))
            && (o.Threw? && !IsUnimplemented(o) ==> r == Threw(o.error))
            && (r.Threw? ==> o == Threw(r.error))
  {
    Soften(AsNullable(rpc(req, AuthMetadata(authHeader))), None)
  }

  /** Deletes by id with the caller's authorization metadata; Unimplemented
      gives the empty response, never null. */
  function DeleteProductAsync(rpc: (DeleteProductRequest, Metadata) -> Outcome<DeleteProductResponse>,
                              id: string, authHeader: Option<string>)
    : (r: Outcome<DeleteProductResponse>)
    ensures var o := rpc(DeleteProductRequest(id), AuthMetadata(authHeader));
            && !IsUnimplemented(r)
            && (IsUnimplemented(o) ==> r == Ok(EmptyDeleteResponse))
            && (!IsUnimplemented(o) ==> r == o)
            && (o.Ok? ==> r == o)
            && (r.Threw? ==> r == o)
  {
    Soften(rpc(DeleteProductRequest(id), AuthMetadata(authHeader)), EmptyDeleteResponse)
  }

  // ----- The outcome classification -----

  /** The list call on Unimplemented returns an empty product list, not an error. */
  lemma GetProductsUnimplementedIsEmpty<P>(rpc: (GetProductsRequest, Metadata) -> Outcome<GetProductsResponse<P>>)
    requires IsUnimplemented(rpc(GetProductsRequest, []))
    ensures GetProductsAsync(rpc) == Ok(GetProductsResponse([]))
  {
  }

  /** The single-product calls on Unimplemented return null. */
  lemma NullableCallsUnimplementedAreNull<P>(
    getRpc: (GetProductRequest, Metadata) -> Outcome<P>, id: string,
    createRpc: (CreateProductRequest, Metadata) -> Outcome<P>, createReq: CreateProductRequest,
    updateRpc: (UpdateProductRequest, Metadata) -> Outcome<P>, updateReq: UpdateProductRequest,
    authHeader: Option<string>)
    ensures IsUnimplemented(getRpc(GetProductRequest(id), [])) ==> GetProductAsync(getRpc, id) == Ok(None)
    ensures IsUnimplemented(createRpc(createReq, AuthMetadata(authHeader)))
            ==> CreateProductAsync(createRpc, createReq, authHeader) == Ok(None)
    ensures IsUnimplemented(updateRpc(updateReq, AuthMetadata(authHeader)))
            ==> UpdateProductAsync(updateRpc, updateReq, authHeader) == Ok(None)
  {
  }

  /** The delete call on Unimplemented returns a non-null, empty response. */
  lemma DeleteUnimplementedIsEmptyResponse(
    rpc: (DeleteProductRequest, Metadata) -> Outcome<DeleteProductResponse>, id: string, authHeader: Option<string>)
    requires IsUnimplemented(rpc(DeleteProductRequest(id), AuthMetadata(authHeader)))
    ensures DeleteProductAsync(rpc, id, authHeader) == Ok(EmptyDeleteResponse)
  {
  }

  /** A backend response is returned unchanged, and every exception other
      than Unimplemented is rethrown unchanged, by every call. A single
      product call returns null only on Unimplemented. */
  lemma CallsPassOtherOutcomesThrough<P>(
    listRpc: (GetProductsRequest, Metadata) -> Outcome<GetProductsResponse<P>>,
    getRpc: (GetProductRequest, Metadata) -> Outcome<P>, id: string,
    createRpc: (CreateProductRequest, Metadata) -> Outcome<P>, createReq: CreateProductRequest,
    updateRpc: (UpdateProductRequest, Metadata) -> Outcome<P>, updateReq: UpdateProductRequest,
    deleteRpc: (DeleteProductRequest, Metadata) -> Outcome<DeleteProductResponse>,
    authHeader: Option<string>)
    ensures var o := listRpc(GetProductsRequest, []);
            !IsUnimplemented(o) ==> GetProductsAsync(listRpc) == o
    ensures var o := getRpc(GetProductRequest(id), []);
            && (o.Ok? ==> GetProductAsync(getRpc, id) == Ok(Some(o.value)))
            && (o.Threw? && !IsUnimplemented(o) ==> GetProductAsync(getRpc, id) == Threw(o.error))
            && (GetProductAsync(getRpc, id) == Ok(None) <==> IsUnimplemented(o))
    ensures var o := createRpc(createReq, AuthMetadata(authHeader));
            && (o.Ok? ==> CreateProductAsync(createRpc, createReq, authHeader) == Ok(Some(o.value)))
            && (o.Threw? && !IsUnimplemented(o) ==> CreateProductAsync(createRpc, createReq, authHeader) == Threw(o.error))
            && (CreateProductAsync(createRpc, createReq, authHeader) == Ok(None) <==> IsUnimplemented(o))
    ensures var o := updateRpc(updateReq, AuthMetadata(authHeader));
            && (o.Ok? ==> UpdateProductAsync(updateRpc, updateReq, authHeader) == Ok(Some(o.value)))
            && (o.Threw? && !IsUnimplemented(o) ==> UpdateProductAsync(updateRpc, updateReq, authHeader) == Threw(o.error))
            && (UpdateProductAsync(updateRpc, updateReq, authHeader) == Ok(None) <==> IsUnimplemented(o))
    ensures var o := deleteRpc(DeleteProductRequest(id), AuthMetadata(authHeader));
            !IsUnimplemented(o) ==> DeleteProductAsync(deleteRpc, id, authHeader) == o
  {
  }

  /** What each call sends: the read calls send no metadata and the writing
      calls send `AuthMetadata(authHeader)`, each with the request shown.
      Stated as: two backends that answer alike on exactly that request and
      metadata give the same result. */
  lemma CallsSendTheseRequests<P>(
    l1: (GetProductsRequest, Metadata) -> Outcome<GetProductsResponse<P>>,
    l2: (GetProductsRequest, Metadata) -> Outcome<GetProductsResponse<P>>,
    g1: (GetProductRequest, Metadata) -> Outcome<P>, g2: (GetProductRequest, Metadata) -> Outcome<P>,
    c1: (CreateProductRequest, Metadata) -> Outcome<P>, c2: (CreateProductRequest, Metadata) -> Outcome<P>,
    u1: (UpdateProductRequest, Metadata) -> Outcome<P>, u2: (UpdateProductRequest, Metadata) -> Outcome<P>,
    d1: (DeleteProductRequest, Metadata) -> Outcome<DeleteProductResponse>,
    d2: (DeleteProductRequest, Metadata) -> Outcome<DeleteProductResponse>,
    id: string, createReq: CreateProductRequest, updateReq: UpdateProductRequest, authHeader: Option<string>)
    ensures l1(GetProductsRequest, []) == l2(GetProductsRequest, []) ==> GetProductsAsync(l1) == GetProductsAsync(l2)
    ensures g1(GetProductRequest(id), []) == g2(GetProductRequest(id), [])
            ==> GetProductAsync(g1, id) == GetProductAsync(g2, id)
    ensures var meta := AuthMetadata(authHeader);
            c1(createReq, meta) == c2(createReq, meta)
            ==> CreateProductAsync(c1, createReq, authHeader) == CreateProductAsync(c2, createReq, authHeader)
    ensures var meta := AuthMetadata(authHeader);
            u1(updateReq, meta) == u2(updateReq, meta)
            ==> UpdateProductAsync(u1, updateReq, authHeader) == UpdateProductAsync(u2, updateReq, authHeader)
    ensures var meta := AuthMetadata(authHeader);
            d1(DeleteProductRequest(id), meta) == d2(DeleteProductRequest(id), meta)
            ==> DeleteProductAsync(d1, id, authHeader) == DeleteProductAsync(d2, id, authHeader)
  {
  }
}
