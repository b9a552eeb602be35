/** The products controller: builds catalog requests from the JSON bodies
    (null strings become "", a null update price becomes 0), forwards the
    request's Authorization header to the writing calls, maps a null adapter
    result to 404 (500 for create), and maps every exception to 500 with a
    message naming the action. */
module ProductsApi {

  import opened Common
  import opened Grpc
  import opened ProductsAdapter

  const NotFoundMessage: string := "Producto no encontrado"

  /** The JSON body of a create request; `Price` is not nullable. */
  datatype CreateProductDto = CreateProductDto(
    name: Option<string>, description: Option<string>, price: real, category: Option<string>,
    imageUrl: Option<string>, imagePublicId: Option<string>)

  /** The JSON body of an update request; `Price` is nullable. */
  datatype UpdateProductDto = UpdateProductDto(
    name: Option<string>, description: Option<string>, price: Option<real>, category: Option<string>,
    imageUrl: Option<string>, imagePublicId: Option<string>)

  /** The body of a successful delete: `{ message, success }`. */
  datatype DeleteResult = DeleteResult(message: string, success: bool)

  /** The create request sent to the catalog: null strings become "", the
      price and every present string pass through unchanged. */
  function CreateRequestOf(dto: CreateProductDto): (req: CreateProductRequest)
    ensures req.price == dto.price
    ensures dto.name.Some? ==> req.name == dto.name.value
    ensures dto.name.None? ==> req.name == ""
    ensures dto.description.Some? ==> req.description == dto.description.value
    ensures dto.description.None? ==> req.description == ""
    ensures dto.category.Some? ==> req.category == dto.category.value
    ensures dto.category.None? ==> req.category == ""
  {
    CreateProductRequest(dto.name.GetOr(""), dto.description.GetOr(""), dto.price, dto.category.GetOr(""))
  }

  /** The update request sent to the catalog: the id from the route, null
      strings become "", a null price becomes 0. */
  function UpdateRequestOf(id: string, dto: UpdateProductDto): (req: UpdateProductRequest)
    ensures req.id == id
    ensures dto.price.Some? ==> req.price == dto.price.value
    ensures dto.price.None? ==> req.price == 0.0
    ensures dto.name.Some? ==> req.name == dto.name.value
    ensures dto.name.None? ==> req.name == ""
    ensures dto.description.Some? ==> req.description == dto.description.value
    ensures dto.description.None? ==> req.description == ""
    ensures dto.category.Some? ==> req.category == dto.category.value
    ensures dto.category.None? ==> req.category == ""
  {
    UpdateProductRequest(id, dto.name.GetOr(""), dto.description.GetOr(""), dto.price.GetOr(0.0), dto.category.GetOr(""))
  }

  /** The image fields of either body are never sent. */
  lemma ImageFieldsDropped(c1: CreateProductDto, c2: CreateProductDto, id: string, u1: UpdateProductDto, u2: UpdateProductDto)
    requires c1.(imageUrl := None, imagePublicId := None) == c2.(imageUrl := None, imagePublicId := None)
    requires u1.(imageUrl := None, imagePublicId := None) == u2.(imageUrl := None, imagePublicId := None)
    ensures CreateRequestOf(c1) == CreateRequestOf(c2)
    ensures UpdateRequestOf(id, u1) == UpdateRequestOf(id, u2)
  {
  }

  /** The header handed to the adapter: the request's Authorization value, or
      "" when the request has none. */
  function AuthHeaderOf(authValues: seq<string>): (h: Option<string>)
    ensures h.Some?
    ensures authValues == [] ==> h == Some("")
    ensures |authValues| == 1 ==> h == Some(authValues[0])
    ensures |authValues| >= 2 ==> h == Some(CommaJoin(NonEmpty(authValues)))
  {
    Some(ForwardedHeader(authValues))
  }

  /** `GetAll`: 200 with the products (none from an Unimplemented backend);
      every exception is 500. */
  function GetAll<P>(rpc: (GetProductsRequest, Metadata) -> Outcome<GetProductsResponse<P>>): (r: ActionResult<seq<P>>)
    ensures var o := rpc(GetProductsRequest, []);
            && (o.Ok? ==> r == Success(200, o.value.products))
            && (IsUnimplemented(o) ==> r == Success(200, []))
            && (r.Failure? <==> o.Threw? && !IsUnimplemented(o))
            && (r.Failure? ==> r == Failure(500, "Error obteniendo productos"))
  {
    match GetProductsAsync(rpc)
    case Ok(resp) => Success(200, resp.products)
    case Threw(_) => Failure(500, "Error obteniendo productos")
  }

  /** `GetById`: 200 with the product, 404 exactly on an Unimplemented
      backend, 500 on every other exception. */
  function GetById<P>(id: string, rpc: (GetProductRequest, Metadata) -> Outcome<P>): (r: ActionResult<P>)
    ensures var o := rpc(GetProductRequest(id), []);
            && r.status in {200, 404, 500}
            && (o.Ok? ==> r == Success(200, o.value))
            && (r.status == 404 <==> IsUnimplemented(o))
            && (r.status == 404 ==> r == Failure(404, NotFoundMessage))
            && (o.Threw? && !IsUnimplemented(o) ==> r == Failure(500, "Error obteniendo producto"))
  {
    match GetProductAsync(rpc, id)
    case Ok(None) => Failure(404, NotFoundMessage)
    case Ok(Some(p)) => Success(200, p)
    case Threw(_) => Failure(500, "Error obteniendo producto")
  }

  /** `Create`: 201 with the created product; every failure is 500, with
      its own message when the backend is Unimplemented. */
  function Create<P>(dto: CreateProductDto, authValues: seq<string>,
                     rpc: (CreateProductRequest, Metadata) -> Outcome<P>): (r: ActionResult<P>)
    ensures var o := rpc(CreateRequestOf(dto), AuthMetadata(AuthHeaderOf(authValues)));
            && (r.Success? <==> o.Ok?)
            && (o.Ok? ==> r == Success(201, o.value))
            && (r.Failure? ==> r.status == 500)
            && (IsUnimplemented(o) ==> r == Failure(500, "Error creando producto (servicio no disponible)"))
            && (o.Threw? && !IsUnimplemented(o) ==> r == Failure(500, "Error creando producto"))
  {
    match CreateProductAsync(rpc, CreateRequestOf(dto), AuthHeaderOf(authValues))
    case Ok(None) => Failure(500, "Error creando producto (servicio no disponible)")
    case Ok(Some(p)) => Success(201, p)
    case Threw(_) => Failure(500, "Error creando producto")
  }

  /** `Update`: 200 with the updated product, 404 exactly on an
      Unimplemented backend, 500 on every other exception. */
  function Update<P>(id: string, dto: UpdateProductDto, authValues: seq<string>,
                     rpc: (UpdateProductRequest, Metadata) -> Outcome<P>): (r: ActionResult<P>)
    ensures var o := rpc(UpdateRequestOf(id, dto), AuthMetadata(AuthHeaderOf(authValues)));
            && r.status in {200, 404, 500}
            && (o.Ok? ==> r == Success(200, o.value))
            && (r.status == 404 <==> IsUnimplemented(o))
            && (r.status == 404 ==> r == Failure(404, NotFoundMessage))
            && (o.Threw? && !IsUnimplemented(o) ==> r == Failure(500, "Error actualizando producto"))
  {
    match UpdateProductAsync(rpc, UpdateRequestOf(id, dto), AuthHeaderOf(authValues))
    case Ok(None) => Failure(404, NotFoundMessage)
    case Ok(Some(p)) => Success(200, p)
    case Threw(_) => Failure(500, "Error actualizando producto")
  }

  /** The adapter's delete result is never null, so the source's null test
      (404) has no case here. */
  function Delete(id: string, authValues: seq<string>,
                  rpc: (DeleteProductRequest, Metadata) -> Outcome<DeleteProductResponse>): (r: ActionResult<DeleteResult>)
    ensures var o := rpc(DeleteProductRequest(id), AuthMetadata(AuthHeaderOf(authValues)));
            && r.status in {200, 500}
            && (r.Success? <==> o.Ok? || IsUnimplemented(o))
            && (o.Ok? ==> r == Success(200, DeleteResult(o.value.message, o.value.success)))
            && (IsUnimplemented(o) ==> r == Success(200, DeleteResult("", false)))
            && (r.Failure? ==> r == Failure(500, "Error eliminando producto"))
  {
    match DeleteProductAsync(rpc, id, AuthHeaderOf(authValues))
    case Ok(resp) => Success(200, DeleteResult(resp.message, resp.success))
    case Threw(_) => Failure(500, "Error eliminando producto")
  }

  /** A null adapter result is 404 "Producto no encontrado" for GetById and
      Update but 500 for Create; a null result arises only from an
      Unimplemented backend. */
  lemma UnimplementedBackendAnswers<P>(id: string, cdto: CreateProductDto, udto: UpdateProductDto, authValues: seq<string>,
                                       getRpc: (GetProductRequest, Metadata) -> Outcome<P>,
                                       createRpc: (CreateProductRequest, Metadata) -> Outcome<P>,
                                       updateRpc: (UpdateProductRequest, Metadata) -> Outcome<P>,
                                       listRpc: (GetProductsRequest, Metadata) -> Outcome<GetProductsResponse<P>>)
    ensures IsUnimplemented(getRpc(GetProductRequest(id), []))
            <==> GetById(id, getRpc) == Failure(404, NotFoundMessage)
    ensures var meta := AuthMetadata(AuthHeaderOf(authValues));
            IsUnimplemented(createRpc(CreateRequestOf(cdto), meta))
            <==> Create(cdto, authValues, createRpc) == Failure(500, "Error creando producto (servicio no disponible)")
    ensures var meta := AuthMetadata(AuthHeaderOf(authValues));
            IsUnimplemented(updateRpc(UpdateRequestOf(id, udto), meta))
            <==> Update(id, udto, authValues, updateRpc) == Failure(404, NotFoundMessage)
    ensures IsUnimplemented(listRpc(GetProductsRequest, [])) ==> GetAll(listRpc) == Success(200, [])
  {
  }

  /** Delete on an Unimplemented backend answers 200 with the default message
      and success value, and no delete ever answers 404. */
  lemma DeleteNeverNotFound(id: string, authValues: seq<string>,
                            rpc: (DeleteProductRequest, Metadata) -> Outcome<DeleteProductResponse>)
    ensures Delete(id, authValues, rpc).status != 404
    ensures IsUnimplemented(rpc(DeleteProductRequest(id), AuthMetadata(AuthHeaderOf(authValues))))
            ==> Delete(id, authValues, rpc) == Success(200, DeleteResult("", false))
  {
  }

  /** Any exception other than Unimplemented, whatever its gRPC code, is 500
      with the action's message: this controller keeps no backend status. */
  lemma ExceptionsAreInternalErrors<P>(id: string, cdto: CreateProductDto, udto: UpdateProductDto, authValues: seq<string>,
                                       getRpc: (GetProductRequest, Metadata) -> Outcome<P>,
                                       createRpc: (CreateProductRequest, Metadata) -> Outcome<P>,
                                       updateRpc: (UpdateProductRequest, Metadata) -> Outcome<P>,
                                       deleteRpc: (DeleteProductRequest, Metadata) -> Outcome<DeleteProductResponse>,
                                       listRpc: (GetProductsRequest, Metadata) -> Outcome<GetProductsResponse<P>>)
    ensures var o := listRpc(GetProductsRequest, []);
            o.Threw? && !IsUnimplemented(o) ==> GetAll(listRpc) == Failure(500, "Error obteniendo productos")
    ensures var o := getRpc(GetProductRequest(id), []);
            o.Threw? && !IsUnimplemented(o) ==> GetById(id, getRpc) == Failure(500, "Error obteniendo producto")
    ensures var o := createRpc(CreateRequestOf(cdto), AuthMetadata(AuthHeaderOf(authValues)));
            o.Threw? && !IsUnimplemented(o) ==> Create(cdto, authValues, createRpc) == Failure(500, "Error creando producto")
    ensures var o := updateRpc(UpdateRequestOf(id, udto), AuthMetadata(AuthHeaderOf(authValues)));
            o.Threw? && !IsUnimplemented(o) ==> Update(id, udto, authValues, updateRpc) == Failure(500, "Error actualizando producto")
    ensures var o := deleteRpc(DeleteProductRequest(id), AuthMetadata(AuthHeaderOf(authValues)));
            o.Threw? && !IsUnimplemented(o) ==> Delete(id, authValues, deleteRpc) == Failure(500, "Error eliminando producto")
  {
  }

  /** A backend response is answered with it: 200, or 201 for create. */
  lemma ResponsesReturned<P>(id: string, cdto: CreateProductDto, udto: UpdateProductDto, authValues: seq<string>,
                             getRpc: (GetProductRequest, Metadata) -> Outcome<P>,
                             createRpc: (CreateProductRequest, Metadata) -> Outcome<P>,
                             updateRpc: (UpdateProductRequest, Metadata) -> Outcome<P>,
                             deleteRpc: (DeleteProductRequest, Metadata) -> Outcome<DeleteProductResponse>,
                             listRpc: (GetProductsRequest, Metadata) -> Outcome<GetProductsResponse<P>>)
    ensures var o := listRpc(GetProductsRequest, []);
            o.Ok? ==> GetAll(listRpc) == Success(200, o.value.products)
    ensures var o := getRpc(GetProductRequest(id), []);
            o.Ok? ==> GetById(id, getRpc) == Success(200, o.value)
    ensures var o := createRpc(CreateRequestOf(cdto), AuthMetadata(AuthHeaderOf(authValues)));
            o.Ok? ==> Create(cdto, authValues, createRpc) == Success(201, o.value)
    ensures var o := updateRpc(UpdateRequestOf(id, udto), AuthMetadata(AuthHeaderOf(authValues)));
            o.Ok? ==> Update(id, udto, authValues, updateRpc) == Success(200, o.value)
    ensures var o := deleteRpc(DeleteProductRequest(id), AuthMetadata(AuthHeaderOf(authValues)));
            o.Ok? ==> Delete(id, authValues, deleteRpc) == Success(200, DeleteResult(o.value.message, o.value.success))
  {
  }
}
