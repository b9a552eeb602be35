# censudex-api gateway core in Dafny

This project models the core of the censudex-api gateway. The gateway is an
ASP.NET service that sits in front of the auth, catalog and orders backends.
It has three layers:

- **Interceptor.** `TokenValidationInterceptor` guards every gRPC entry
  point. Public methods go straight to the handler. Every other call must
  carry an `authorization: Bearer <token>` entry. The token's validity is
  looked up in a one-minute cache. On a miss, the auth service's
  validation endpoint is asked, and a positive answer appends the returned
  claims to the request headers.
- **Adapters.** The catalog adapter (`ProductsGrpcAdapter`) turns a backend
  that answers Unimplemented into a default value: an empty list, null, or
  an empty delete response. The orders adapter (`OrdersGrpcAdapter`)
  forwards requests and metadata unchanged and catches nothing.
- **Controllers.** The auth, products and orders controllers map the
  adapters' outcomes to HTTP results. They also build the forwarded
  metadata (`authorization`, and identity headers derived from claims) and
  null-coalesce the request fields.

Files and modules:

| file | module | contents |
|---|---|---|
| `common.dfy` | `Common` | nullable values (`Option`), call metadata (`seq<Entry>`), the .NET string tests, header rendering |
| `grpc.dfy` | `Grpc` | gRPC status codes and their numeric values, statuses, exceptions, call outcomes |
| `token_validation.dfy` | `TokenValidation` | the interceptor: `Handle` as a function of cache, clock, method, headers and auth service; the `TokenValidationInterceptor` class proved against it |
| `products_adapter.dfy` | `ProductsAdapter` | catalog calls with the Unimplemented softening |
| `orders_adapter.dfy` | `OrdersAdapter` | the orders calls and the adapter's metadata builder |
| `orders_api.dfy` | `OrdersApi` | the orders controller |
| `products_api.dfy` | `ProductsApi` | the products controller |
| `auth_api.dfy` | `AuthApi` | the auth controller |

How the model stands in for the parts it cannot contain:

- **Remote calls.** Every remote call is a function parameter: the auth
  service's validation endpoint (as the interceptor evidently intends to
  call it; see below), each gRPC backend, and the auth service's HTTP
  endpoints. The parameter maps the request (and the sent metadata) to
  what happens: a response, an `RpcException` with a status, or another
  exception.
- **Not calling a service.** "The service is not called" is stated by
  lemmas saying that two different services that agree on the one request
  actually sent give the same result. No service at all has an effect on
  the result when the call is short-circuited.
- **Time.** The memory cache is a map from key to value and expiry time.
  Time is an integer count of milliseconds passed in by the caller. An
  entry counts as absent from the instant it expires. Each call to the
  interceptor reads the clock once, for both the lookup and the store; the
  code reads it again when it stores a decision after the awaited
  validation, so there the minute runs from the store.
- **Null.** Nullable strings and objects are `Option` values, so C# `null`
  is `None`.

## Model

| member | source | states |
|---|---|---|
| Common.FirstValue | censudex-api/src/Middleware/TokenValidationInterceptor.cs:48-49 | the header read is null exactly when no entry has the key, and otherwise is the value of the first entry with the key |
| Common.FirstWith | censudex-api/src/Controllers/OrdersController.cs:51-53 | the first-match search shared by metadata and claims: null exactly when no element has the key, otherwise the value of the first element with it |
| Common.FirstWithAppend | censudex-api/src/Middleware/TokenValidationInterceptor.cs:90-93 | appending elements after a present key does not change what the search finds, so appended claims cannot displace the authorization entry |
| Common.FirstHeader | censudex-api/src/Controllers/AuthController.cs:101 | `FirstOrDefault` of a header is null exactly when it has no values, and otherwise is its first value |
| Common.IsNullOrWhiteSpace | censudex-api/src/Services/ProductsGrpcAdapter.cs:31 | null and empty strings are blank, as are strings of .NET whitespace only |
| Common.HasBearerScheme | censudex-api/src/Middleware/TokenValidationInterceptor.cs:51 | the header check accepts exactly the present values that start with "Bearer " (the emptiness test adds nothing); such a value is "Bearer " followed by its token |
| Common.NonEmpty | censudex-api/src/Controllers/ProductsController.cs:79 | the result holds no empty value, and a value occurs in it exactly when it is a non-empty value of the header |
| Common.NonEmptyKeepsOrder | censudex-api/src/Controllers/ProductsController.cs:79 | dropping the empty values keeps the order and multiplicity of the rest: it distributes over concatenation and leaves a sequence with no empty value unchanged |
| Common.JoinWrittenIsCommaJoinOfNonEmpty | censudex-api/src/Controllers/ProductsController.cs:79 | the one-pass join that skips empty values equals the comma join of the non-empty values, and is "" exactly when every value is empty |
| Common.HeaderString | censudex-api/src/Controllers/ProductsController.cs:79 | `StringValues.ToString()`: no values give "", one value gives itself, several give the comma join of the non-empty ones |
| Common.EmptyHeaderValuesDropped | censudex-api/src/Controllers/OrdersController.cs:60-67 | a header sent as ["", ""] renders as "" (so no authorization is forwarded) and ["", "Bearer t"] as "Bearer t" |
| Common.ForwardedHeader | censudex-api/src/Controllers/ProductsController.cs:78-80 | an absent Authorization header forwards ""; one value forwards itself verbatim; several forward their non-empty values joined with ',', which is "" exactly when every value is empty; the guarded rendering equals `HeaderString` |
| Grpc.CodeValue | censudex-api/src/Controllers/OrdersController.cs:94 | the numeric value of a status code lies in 0..16, with Unimplemented = 12 and Unauthenticated = 16 |
| Grpc.CodeOf | censudex-api/src/Controllers/OrdersController.cs:94 | a number names a status code exactly when it lies in 0..16 |
| Grpc.CodeValueRoundTrip | censudex-api/src/Controllers/OrdersController.cs:94 | reading back the numeric value of a code gives the same code |
| Grpc.CodeValueInjective | censudex-api/src/Controllers/OrdersController.cs:94 | distinct codes have distinct numeric values |
| TokenValidation.TokenOf | censudex-api/src/Middleware/TokenValidationInterceptor.cs:56 | the token is what follows "Bearer ": the prefix followed by the token is the header |
| TokenValidation.CacheKey | censudex-api/src/Middleware/TokenValidationInterceptor.cs:59 | the key starts with "token_valid_" and the rest of it is the token |
| TokenValidation.CacheKeyInjective | censudex-api/src/Middleware/TokenValidationInterceptor.cs:59 | different tokens never share a cache entry |
| TokenValidation.IsPublic | censudex-api/src/Middleware/TokenValidationInterceptor.cs:33-42 | a method is public exactly when it is one of the four distinct listed methods (RegisterClient is listed twice) |
| TokenValidation.CallKey | censudex-api/src/Middleware/TokenValidationInterceptor.cs:51-59 | a call touches a cache key exactly when its authorization header is non-empty and starts with "Bearer " |
| TokenValidation.Lookup | censudex-api/src/Middleware/TokenValidationInterceptor.cs:60 | a cached decision is found exactly when the key is present and unexpired, and it is the stored decision |
| TokenValidation.Store | censudex-api/src/Middleware/TokenValidationInterceptor.cs:81-87 | storing sets the key to the decision expiring one minute later and leaves every other key as it was |
| TokenValidation.StoreThenLookup | censudex-api/src/Middleware/TokenValidationInterceptor.cs:81-87 | a stored decision is found before one minute has passed and not afterwards |
| TokenValidation.ClaimHeaders | censudex-api/src/Middleware/TokenValidationInterceptor.cs:90-93 | one header per claim, keyed by its type, in the auth service's order |
| TokenValidation.Handle | censudex-api/src/Middleware/TokenValidationInterceptor.cs:31-97 | every rejection is Unauthenticated; an exception from the auth service propagates only after the service was consulted, and leaves the cache alone; an admitted call is public or has a bearer header, keeps its request headers as a prefix and keeps the caller's first authorization entry |
| TokenValidation.TokenValidationInterceptor.UnaryServerHandler | censudex-api/src/Middleware/TokenValidationInterceptor.cs:26-98 | the verdict and the new cache are those `Handle` gives for the old cache; the claim loop appends exactly the claim headers |
| TokenValidation.PublicMethodBypassesAuthentication | censudex-api/src/Middleware/TokenValidationInterceptor.cs:33-45 | a public method is admitted with its headers unchanged, the cache unchanged and no call to the auth service |
| TokenValidation.MissingBearerRejected | censudex-api/src/Middleware/TokenValidationInterceptor.cs:48-54 | a non-public call without a bearer header is rejected Unauthenticated "Missing or invalid token", with the cache unchanged |
| TokenValidation.BearerTokenKey | censudex-api/src/Middleware/TokenValidationInterceptor.cs:56-59 | a header "Bearer " + t gives the cache key "token_valid_" + t |
| TokenValidation.CachedInvalidRejected | censudex-api/src/Middleware/TokenValidationInterceptor.cs:60-65 | an unexpired negative decision rejects with "Token has been revoked" without consulting the auth service |
| TokenValidation.CachedValidAdmittedWithoutClaims | censudex-api/src/Middleware/TokenValidationInterceptor.cs:60-66 | an unexpired positive decision admits the call with its headers unchanged, adding no claims |
| TokenValidation.NegativeValidationCached | censudex-api/src/Middleware/TokenValidationInterceptor.cs:79-84 | a null or invalid answer caches false for one minute and rejects with the service's message, or "Invalid token" |
| TokenValidation.PositiveValidationCachedWithClaims | censudex-api/src/Middleware/TokenValidationInterceptor.cs:87-97 | a valid answer caches true for one minute and admits the call with one header per claim appended in order; the first authorization entry stays the caller's |
| TokenValidation.FailedValidationCachesNothing | censudex-api/src/Middleware/TokenValidationInterceptor.cs:70-77 | when the validation call throws, the exception propagates and the cache is unchanged |
| TokenValidation.HandleCacheFrame | censudex-api/src/Middleware/TokenValidationInterceptor.cs:60-87 | only the call's own key is written, only after the auth service was consulted, and always with an expiry one minute later |
| TokenValidation.NoConsultNoDependence | censudex-api/src/Middleware/TokenValidationInterceptor.cs:42-66 | when the call is public, has no bearer header or hits the cache, the result does not depend on the auth service |
| TokenValidation.ConsultsWithOriginalHeader | censudex-api/src/Middleware/TokenValidationInterceptor.cs:70-75 | on a miss, the outcome depends on the auth service only through its answer for the caller's header verbatim (the request those lines evidently intend; see below) |
| TokenValidation.SecondCallWithinTtlSkipsAuthService | censudex-api/src/Middleware/TokenValidationInterceptor.cs:60-93 | after an admission, the same token within one minute is admitted without consulting the auth service |
| TokenValidation.RejectedTokenStaysRevokedWithinTtl | censudex-api/src/Middleware/TokenValidationInterceptor.cs:60-84 | after a rejection by the auth service, the same token within one minute is rejected as revoked, whatever the service would now say |
| TokenValidation.DecisionExpiresAfterTtl | censudex-api/src/Middleware/TokenValidationInterceptor.cs:81-87 | one minute after a decision, the same token consults the auth service again |
| Grpc.ChannelAddress | censudex-api/src/Services/ProductsGrpcAdapter.cs:18 | the configured address, or the given default when none is configured |
| ProductsAdapter.GrpcAddress | censudex-api/src/Services/ProductsGrpcAdapter.cs:18 | the configured `GrpcServices:ProductsService`, or "http://localhost:50051" |
| ProductsAdapter.AuthMetadata | censudex-api/src/Services/ProductsGrpcAdapter.cs:28-36 | at most one entry; none exactly when the header is null or whitespace; otherwise `authorization` with the header verbatim |
| ProductsAdapter.BuildAuthMetadata | censudex-api/src/Services/ProductsGrpcAdapter.cs:28-36 | the method builds exactly that metadata |
| ProductsAdapter.AsNullable | censudex-api/src/Services/ProductsGrpcAdapter.cs:58-64 | a response becomes a non-null product and an exception stays that exception |
| ProductsAdapter.Soften | censudex-api/src/Services/ProductsGrpcAdapter.cs:47-55 | the shared catch clause: the result is never Unimplemented; Unimplemented gives the fallback; every outcome that is not Unimplemented, a response or any other exception, passes unchanged |
| ProductsAdapter.GetProductsAsync | censudex-api/src/Services/ProductsGrpcAdapter.cs:38-56 | sends an empty request with no metadata; never Unimplemented; [] on Unimplemented; every outcome that is not Unimplemented comes back unchanged |
| ProductsAdapter.GetProductAsync | censudex-api/src/Services/ProductsGrpcAdapter.cs:58-75 | sends the id with no metadata; null exactly when the backend is Unimplemented; a response becomes a non-null product; every other exception is rethrown unchanged |
| ProductsAdapter.CreateProductAsync | censudex-api/src/Services/ProductsGrpcAdapter.cs:77-94 | sends the request with the authorization metadata; null exactly when the backend is Unimplemented; a response becomes a non-null product; every other exception is rethrown unchanged |
| ProductsAdapter.UpdateProductAsync | censudex-api/src/Services/ProductsGrpcAdapter.cs:96-113 | sends the request with the authorization metadata; null exactly when the backend is Unimplemented; a response becomes a non-null product; every other exception is rethrown unchanged |
| ProductsAdapter.DeleteProductAsync | censudex-api/src/Services/ProductsGrpcAdapter.cs:115-133 | sends the id with the authorization metadata; Unimplemented gives the empty response; every outcome that is not Unimplemented comes back unchanged |
| ProductsAdapter.GetProductsUnimplementedIsEmpty | censudex-api/src/Services/ProductsGrpcAdapter.cs:47-53 | an Unimplemented backend gives an empty product list, not an error |
| ProductsAdapter.NullableCallsUnimplementedAreNull | censudex-api/src/Services/ProductsGrpcAdapter.cs:58-113 | get, create and update on an Unimplemented backend return null |
| ProductsAdapter.DeleteUnimplementedIsEmptyResponse | censudex-api/src/Services/ProductsGrpcAdapter.cs:124-130 | delete on an Unimplemented backend returns an empty response (message "", success false) |
| ProductsAdapter.CallsPassOtherOutcomesThrough | censudex-api/src/Services/ProductsGrpcAdapter.cs:38-133 | responses are returned and every other exception is rethrown unchanged; a single-product call is null exactly when the backend is Unimplemented |
| ProductsAdapter.CallsSendTheseRequests | censudex-api/src/Services/ProductsGrpcAdapter.cs:38-122 | reads send no metadata and writes send `authorization` metadata, each with the request it builds (the delete request carries the id) |
| OrdersAdapter.GrpcAddress | censudex-api/src/Services/OrdersGrpcAdapter.cs:36 | the configured `GrpcServices:OrdersService`, or "http://localhost:50052" |
| OrdersAdapter.Field | censudex-api/src/Services/OrdersGrpcAdapter.cs:58-69 | one identity entry, present exactly when its value is not null or whitespace, and then carrying its key and that value |
| OrdersAdapter.AuthMetadata | censudex-api/src/Services/OrdersGrpcAdapter.cs:56-70 | at most four entries, and none exactly when all four values are null or whitespace |
| OrdersAdapter.BuildAuthMetadata | censudex-api/src/Services/OrdersGrpcAdapter.cs:56-70 | the four conditional additions build exactly the adapter's metadata |
| OrdersAdapter.AuthMetadataOrdered | censudex-api/src/Services/OrdersGrpcAdapter.cs:56-70 | the entries present keep the order authorization, x-user-id, x-user-role, x-user-email, and no other key occurs; there are at most four and no key repeats |
| OrdersAdapter.AuthMetadataValues | censudex-api/src/Services/OrdersGrpcAdapter.cs:58-69 | no entry is blank, and each field is present with its value verbatim exactly when that value is not blank; a blank field leaves no entry with its key, and every entry with a field's key carries that field's value |
| OrdersAdapter.CallsForwardEverything | censudex-api/src/Services/OrdersGrpcAdapter.cs:78-141 | all six calls return the backend's outcome unchanged; Unimplemented is not softened |
| OrdersAdapter.FindAllOrdersAsync | censudex-api/src/Services/OrdersGrpcAdapter.cs:78-82 | sends the request and metadata as given and returns the backend's outcome exactly: nothing is caught, Unimplemented included |
| OrdersAdapter.FindOneOrderAsync | censudex-api/src/Services/OrdersGrpcAdapter.cs:90-94 | sends the request and metadata as given and returns the backend's outcome exactly: nothing is caught, Unimplemented included |
| OrdersAdapter.CreateOrderAsync | censudex-api/src/Services/OrdersGrpcAdapter.cs:101-105 | sends the request and metadata as given and returns the backend's outcome exactly: nothing is caught, Unimplemented included |
| OrdersAdapter.UpdateOrderStatusAsync | censudex-api/src/Services/OrdersGrpcAdapter.cs:113-117 | sends the request and metadata as given and returns the backend's outcome exactly: nothing is caught, Unimplemented included |
| OrdersAdapter.CancelOrderAsync | censudex-api/src/Services/OrdersGrpcAdapter.cs:125-129 | sends the request and metadata as given and returns the backend's outcome exactly: nothing is caught, Unimplemented included |
| OrdersAdapter.GetClientHistoryAsync | censudex-api/src/Services/OrdersGrpcAdapter.cs:137-141 | sends the request and metadata as given and returns the backend's outcome exactly: nothing is caught, Unimplemented included |
| OrdersApi.FirstClaim | censudex-api/src/Controllers/OrdersController.cs:51-53 | null exactly when no claim has the type, and otherwise the value of the first claim with the type |
| OrdersApi.UserMetadata | censudex-api/src/Controllers/OrdersController.cs:48-70 | three or four entries: x-user-id, x-user-role, x-user-email first, then at most an authorization entry whose value is not blank |
| OrdersApi.GetUserMetadata | censudex-api/src/Controllers/OrdersController.cs:48-70 | the method builds exactly the controller's user metadata |
| OrdersApi.UserMetadataShape | censudex-api/src/Controllers/OrdersController.cs:48-70 | x-user-id, x-user-role and x-user-email always come first, defaulting to "", "client" and ""; authorization follows exactly when the rendered header is not blank |
| OrdersApi.ErrorResult | censudex-api/src/Controllers/OrdersController.cs:91-100 | always a failure; an RpcException gives its numeric code and its detail; any other exception gives 500 "Error interno"; so the status is 500 or in 0..16 |
| OrdersApi.Reply | censudex-api/src/Controllers/OrdersController.cs:85-100 | success exactly when the call returned, with the action's status and the response; otherwise the error mapping |
| OrdersApi.CreateOrder | censudex-api/src/Controllers/OrdersController.cs:83-101 | the body is sent with the user metadata; 201 with the created order exactly when the call returns, else the error mapping |
| OrdersApi.GetOrders | censudex-api/src/Controllers/OrdersController.cs:110-128 | the query is sent with the user metadata; 200 with the response's orders exactly when the call returns, else the error mapping |
| OrdersApi.GetOrderById | censudex-api/src/Controllers/OrdersController.cs:137-156 | the route id is sent in a FindOneOrderRequest; 200 with the order exactly when the call returns, else the error mapping |
| OrdersApi.GetHistory | censudex-api/src/Controllers/OrdersController.cs:223-242 | the route client id is sent in a GetClientHistoryRequest; 200 with the orders exactly when the call returns, else the error mapping |
| OrdersApi.UpdateStatus | censudex-api/src/Controllers/OrdersController.cs:166-185 | the route id overwrites the body's id, the rest of the body is kept, and the backend's outcome is answered with 200 or its error |
| OrdersApi.CancelOrder | censudex-api/src/Controllers/OrdersController.cs:195-214 | the route id overwrites the body's id, the rest of the body is kept, and the backend's outcome is answered with 200 or its error |
| OrdersApi.BackendErrorsPreserved | censudex-api/src/Controllers/OrdersController.cs:83-242 | every action answers 201 or 200 with the backend's payload; an RpcException gives its numeric code and detail; any other exception gives 500 "Error interno" |
| OrdersApi.UnimplementedOrdersBackendIsAnError | censudex-api/src/Controllers/OrdersController.cs:137-155 | an Unimplemented orders backend surfaces as status 12 with its detail, unlike the catalog |
| OrdersApi.ErrorStatusRange | censudex-api/src/Controllers/OrdersController.cs:94 | an error status is either 500 or a raw gRPC code in 0..16 |
| ProductsApi.CreateRequestOf | censudex-api/src/Controllers/ProductsController.cs:70-76 | null name, description and category become "" and the price is copied |
| ProductsApi.UpdateRequestOf | censudex-api/src/Controllers/ProductsController.cs:106-114 | the route id is used, null strings become "" and a null price becomes 0 |
| ProductsApi.ImageFieldsDropped | censudex-api/src/Controllers/ProductsController.cs:106-114 | the image fields of a body never reach the backend request |
| ProductsApi.AuthHeaderOf | censudex-api/src/Controllers/ProductsController.cs:78-80 | the forwarded header is never null: "" when absent, the value itself when single, the comma join of the non-empty values when several |
| ProductsApi.GetAll | censudex-api/src/Controllers/ProductsController.cs:27-39 | 200 with the products (none when the backend is Unimplemented); 500 "Error obteniendo productos" exactly on any other exception |
| ProductsApi.GetById | censudex-api/src/Controllers/ProductsController.cs:46-59 | status 200, 404 or 500; 404 "Producto no encontrado" exactly when the backend is Unimplemented; 200 with the product; 500 on any other exception |
| ProductsApi.Create | censudex-api/src/Controllers/ProductsController.cs:66-95 | 201 exactly when the backend returns; every failure is 500: "(servicio no disponible)" on Unimplemented, "Error creando producto" otherwise |
| ProductsApi.Update | censudex-api/src/Controllers/ProductsController.cs:102-128 | status 200, 404 or 500; 404 exactly when the backend is Unimplemented; 200 with the product; 500 on any other exception |
| ProductsApi.Delete | censudex-api/src/Controllers/ProductsController.cs:135-151 | status 200 or 500; 200 exactly when the backend returns or is Unimplemented (then message "" and success false); 500 "Error eliminando producto" otherwise |
| ProductsApi.UnimplementedBackendAnswers | censudex-api/src/Controllers/ProductsController.cs:46-121 | on an Unimplemented backend: list 200 [], get 404, create 500 "servicio no disponible", update 404 |
| ProductsApi.DeleteNeverNotFound | censudex-api/src/Controllers/ProductsController.cs:135-151 | delete never answers 404: even an Unimplemented backend gives 200 with message "" and success false |
| ProductsApi.ExceptionsAreInternalErrors | censudex-api/src/Controllers/ProductsController.cs:29-150 | every other exception gives 500 with the action's own message, whatever its status code |
| ProductsApi.ResponsesReturned | censudex-api/src/Controllers/ProductsController.cs:27-145 | backend responses are answered 200, or 201 for create, with the payload unchanged |
| AuthApi.InvalidModelNotForwarded | censudex-api/src/Controllers/AuthController.cs:34-37 | an invalid model gives 400 without calling the auth service |
| AuthApi.LoginStatusMapping | censudex-api/src/Controllers/AuthController.cs:52-78 | 401 gives "Invalid credentials", 503 is kept, other failures are passed through with details, a null body gives 500 "Invalid response from authentication service", a success gives 200 with the body |
| AuthApi.ExceptionsMapped | censudex-api/src/Controllers/AuthController.cs:80-180 | a failed request gives 503 and any other failure gives 500, a body that cannot be read included, for login, logout and validate |
| AuthApi.LogoutHeaderCheck | censudex-api/src/Controllers/AuthController.cs:101-116 | logout answers 400 "No token provided" exactly when the first header value is not a bearer value, and then calls nothing; otherwise it forwards that value |
| AuthApi.ValidateOnlyRejectsEmpty | censudex-api/src/Controllers/AuthController.cs:151-169 | validate rejects only a missing or empty header; any readable answer of the service, failing status included, is returned as 200 |
| AuthApi.Login | censudex-api/src/Controllers/AuthController.cs:32-90 | an invalid model gives 400; 200 exactly when the service answers a success status with a non-null body, which is returned unchanged; a failed request gives 503 |
| AuthApi.Logout | censudex-api/src/Controllers/AuthController.cs:96-140 | 400 "No token provided" exactly when the first value is not a bearer value; 200 only when the service answered success for that value, with its body unchanged; a failure status is kept with "Logout failed" and the content |
| AuthApi.LogoutStatusMapping | censudex-api/src/Controllers/AuthController.cs:118-128 | once the bearer value is forwarded, a failure status is kept with "Logout failed" and the content, a success with JSON gives 200 with it, and a success whose content is not JSON gives 500 |
| AuthApi.ValidateToken | censudex-api/src/Controllers/AuthController.cs:146-181 | 400 exactly when the first value is missing or empty; 200 only with the service's own body for that value, whatever its status |

Behaviour of the code worth knowing:

- **The validation request.** As written, TokenValidationInterceptor.cs
  lines 70-75 do not make a working request. They call a
  `GetAsync(string, HttpContent)` overload that `HttpClient` does not have.
  They also put `Authorization` on the content's headers, which
  `HttpContentHeaders.Add` refuses with an `InvalidOperationException`.
  The `validate` parameter models the request those lines evidently
  intend: a GET of the validation endpoint carrying the caller's
  Authorization header verbatim.
- **Rendering a repeated header.** `StringValues.ToString()` keeps a single
  value as it is but joins several with ',' after dropping the empty ones.
  A header sent as two empty lines therefore renders as "", and no
  authorization is forwarded.
- **Auth service failure.** When the validation call throws, the exception
  propagates out of the interceptor (`Faulted`). It is not turned into
  Unauthenticated, and nothing is cached.
- **Cache key.** The cache key is `"token_valid_" + token`.
- **When claims are attached.** Claims are attached only when the auth
  service was consulted; a cache hit admits the call with its headers as
  they are.
- **Auth controller failures.** A timeout inside the auth controller is
  an ordinary exception, so it gives 500, not 503.
- **Orders error statuses.** The orders controller uses the raw gRPC
  status code (0 to 16) as the HTTP status of an `RpcException`.
- **Products error statuses.** The products controller maps every
  exception that is not Unimplemented to 500, whatever its gRPC status.
- **Default user id.** The orders controller's default user id is "".

## Left out

- Concurrency: the memory cache is shared by concurrent calls. The model
  treats calls one at a time, so nothing is stated about interleavings.
- Networking, JSON and channels: HTTP, gRPC channels (one created per
  call), JSON (de)serialisation and the interceptor's fixed validation URL.
  Each is represented by the service parameters' results.
- Logging, dependency injection, application start-up and configuration
  loading. A configured address is an `Option` input.
- The inventory adapter and controller are not part of this model.
- `[Authorize]` role checks and the contents of the ModelState errors.
  Model validity is a boolean input.
- Grpc.Core's normalisation and validation of metadata keys (lower-casing,
  rejecting claim types that are URIs). Metadata keys are compared
  verbatim.
- Case-insensitive lookup of ASP.NET request headers. A request's
  Authorization header is given directly as its list of values.
- Culture-sensitive `StartsWith`. The model uses the ordinal test.
- The handler behind the interceptor. An admitted call is represented by
  the headers it would receive.
- The Location header of `CreatedAtAction`.
- Missing or null request bodies. The controllers carry `[ApiController]`,
  so the framework refuses such a body, and any other invalid model, with
  400 before the action runs. DTOs are always present in the model, and
  the body of that automatic 400 is not modelled. AuthApi.Login keeps its
  own invalid-model branch as written, which that filter makes unreachable.
- Prices are real numbers, so NaN and floating-point rounding are not
  modelled.
- OrdersAdapter.BuildAuthMetadata: modelled and proved, but no controller
  calls it. The controllers build their own metadata.
- ProductsApi.Delete: the 404 branch for a null delete response cannot
  occur, because the adapter never returns null. DeleteNeverNotFound
  states this.
- TokenValidation.Handle: the validation call at TokenValidationInterceptor.cs
  lines 70-75 is modelled as the request it evidently intends, not as
  written (an overload that does not exist, and a header set where it
  throws). See "Behaviour of the code worth knowing".
- Common.HeaderString: header values are never null here. `StringValues`
  skips null values in a join just as it skips empty ones.
