/** The orders adapter: six calls that forward the caller's request and
    metadata to the orders backend and return its outcome as it is; nothing
    is caught, so every exception, Unimplemented included, reaches the
    caller. The backend is a parameter mapping request and metadata to its
    outcome. */
module OrdersAdapter {

  import opened Common
  import opened Grpc

  const DefaultAddress: string := "http://localhost:50052"

  /** The backend address: the configured `GrpcServices:OrdersService`, or
      the default when that setting is absent. */
  function GrpcAddress(configured: Option<string>): (address: string)
    ensures configured.None? ==> address == "http://localhost:50052"
    ensures configured.Some? ==> address == configured.value
  {
    ChannelAddress(configured, DefaultAddress)
  }

  /** The entry for one identity field: present only when the value is not
      null or whitespace. */
  function Field(key: string, value: Option<string>): (m: Metadata)
    ensures |m| <= 1
    ensures m == [] <==> IsNullOrWhiteSpace(value)
    ensures m != [] ==> m[0] == Entry(key, value.value)
    ensures forall e :: e in m ==> !IsNullOrWhiteSpace(value) && e == Entry(key, value.value)
  {
    if IsNullOrWhiteSpace(value) then [] else [Entry(key, value.value)]
  }

  /** The metadata the adapter would attach: `authorization`, `x-user-id`,
      `x-user-role`, `x-user-email`, in that order, each only when its value
      is not blank. */
  function AuthMetadata(authHeader: Option<string>, userId: Option<string>,
                        userRole: Option<string>, userEmail: Option<string>): (m: Metadata)
    ensures |m| <= 4
    ensures m == [] <==> IsNullOrWhiteSpace(authHeader) && IsNullOrWhiteSpace(userId)
                         && IsNullOrWhiteSpace(userRole) && IsNullOrWhiteSpace(userEmail)
  {
    Field("authorization", authHeader) + Field("x-user-id", userId)
    + Field("x-user-role", userRole) + Field("x-user-email", userEmail)
  }

  /** `BuildAuthMetadata`: four conditional additions to empty metadata. */
  method BuildAuthMetadata(authHeader: Option<string>, userId: Option<string>,
                           userRole: Option<string>, userEmail: Option<string>) returns (meta: Metadata)
    ensures meta == AuthMetadata(authHeader, userId, userRole, userEmail)
  {
    meta := [];
    if !IsNullOrWhiteSpace(authHeader) {
      meta := meta + [Entry("authorization", authHeader.value)];
    }
    assert meta == Field("authorization", authHeader);
    if !IsNullOrWhiteSpace(userId) { meta := meta + [Entry("x-user-id", userId.value)]; }
    assert meta == Field("authorization", authHeader) + Field("x-user-id", userId);
    if !IsNullOrWhiteSpace(userRole) { meta := meta + [Entry("x-user-role", userRole.value)]; }
    assert meta == Field("authorization", authHeader) + Field("x-user-id", userId) + Field("x-user-role", userRole);
    if !IsNullOrWhiteSpace(userEmail) { meta := meta + [Entry("x-user-email", userEmail.value)]; }
  }

  /** The rank of each key in the order authorization, x-user-id,
      x-user-role, x-user-email. */
  function KeyRank(key: string): int
  {
    if key == "authorization" then 0
    else if key == "x-user-id" then 1
    else if key == "x-user-role" then 2
    else if key == "x-user-email" then 3
    else 4
  }

  /** Whichever entries are present keep the order authorization,
      x-user-id, x-user-role, x-user-email, and no other key occurs; hence at
      most four entries and no key twice. */
  lemma {:induction false} AuthMetadataOrdered(authHeader: Option<string>, userId: Option<string>,
                                               userRole: Option<string>, userEmail: Option<string>)
    ensures var m := AuthMetadata(authHeader, userId, userRole, userEmail);
            && |m| <= 4
            && (forall i :: 0 <= i < |m| ==> KeyRank(m[i].key) < 4)
            && (forall i, j :: 0 <= i < j < |m| ==> KeyRank(m[i].key) < KeyRank(m[j].key))
            && (forall i, j :: 0 <= i < j < |m| ==> m[i].key != m[j].key)
  {
    var a, b, c, d := Field("authorization", authHeader), Field("x-user-id", userId),
                      Field("x-user-role", userRole), Field("x-user-email", userEmail);
    var m := a + b + c + d;
    forall i | 0 <= i < |m|
      ensures KeyRank(m[i].key) == if i < |a| then 0 else if i < |a + b| then 1 else if i < |a + b + c| then 2 else 3
    {
    }
  }

  /** No entry carries a blank value, and each key is present, with its
      value verbatim, exactly when that value is not blank: a blank field
      leaves no entry with its key at all. */
  lemma {:induction false} AuthMetadataValues(authHeader: Option<string>, userId: Option<string>,
                                              userRole: Option<string>, userEmail: Option<string>)
    ensures var m := AuthMetadata(authHeader, userId, userRole, userEmail);
            && (forall e :: e in m ==> !IsNullOrWhiteSpace(Some(e.value)))
            && (Entry("authorization", authHeader.GetOr("")) in m <==> !IsNullOrWhiteSpace(authHeader))
            && (Entry("x-user-id", userId.GetOr("")) in m <==> !IsNullOrWhiteSpace(userId))
            && (Entry("x-user-role", userRole.GetOr("")) in m <==> !IsNullOrWhiteSpace(userRole))
            && (Entry("x-user-email", userEmail.GetOr("")) in m <==> !IsNullOrWhiteSpace(userEmail))
            && (forall e :: e in m && e.key == "authorization"
                  ==> !IsNullOrWhiteSpace(authHeader) && e.value == authHeader.value)
            && (forall e :: e in m && e.key == "x-user-id"
                  ==> !IsNullOrWhiteSpace(userId) && e.value == userId.value)
            && (forall e :: e in m && e.key == "x-user-role"
                  ==> !IsNullOrWhiteSpace(userRole) && e.value == userRole.value)
            && (forall e :: e in m && e.key == "x-user-email"
                  ==> !IsNullOrWhiteSpace(userEmail) && e.value == userEmail.value)
  {
    var a, b, c, d := Field("authorization", authHeader), Field("x-user-id", userId),
                      Field("x-user-role", userRole), Field("x-user-email", userEmail);
    assert forall e :: e in a + b + c + d <==> e in a || e in b || e in c || e in d;
    forall e: Entry | e in a + b + c + d
      ensures e.key == "authorization" ==> !IsNullOrWhiteSpace(authHeader) && e.value == authHeader.value
      ensures e.key == "x-user-id" ==> !IsNullOrWhiteSpace(userId) && e.value == userId.value
      ensures e.key == "x-user-role" ==> !IsNullOrWhiteSpace(userRole) && e.value == userRole.value
      ensures e.key == "x-user-email" ==> !IsNullOrWhiteSpace(userEmail) && e.value == userEmail.value
    {
    }
  }

  // Six pass-through calls. `Q` is the request message, `R` the response.
  // Each sends the request and metadata as given and returns the backend's
  // outcome exactly: no exception is caught, Unimplemented included. The
  // adapter's six methods are identical but for the stub method they call,
  // which the backend parameter stands for; each keeps its own name here so
  // that a controller action names the call it makes.

  function FindAllOrdersAsync<Q, R>(rpc: (Q, Metadata) -> Outcome<R>, req: Q, meta: Metadata): (r: Outcome<R>)
    ensures r == rpc(req, meta)
  {
    rpc(req, meta)
  }

  function FindOneOrderAsync<Q, R>(rpc: (Q, Metadata) -> Outcome<R>, req: Q, meta: Metadata): (r: Outcome<R>)
    ensures r == rpc(req, meta)
  {
    rpc(req, meta)
  }

  function CreateOrderAsync<Q, R>(rpc: (Q, Metadata) -> Outcome<R>, req: Q, meta: Metadata): (r: Outcome<R>)
    ensures r == rpc(req, meta)
  {
    rpc(req, meta)
  }

  function UpdateOrderStatusAsync<Q, R>(rpc: (Q, Metadata) -> Outcome<R>, req: Q, meta: Metadata): (r: Outcome<R>)
    ensures r == rpc(req, meta)
  {
    rpc(req, meta)
  }

  function CancelOrderAsync<Q, R>(rpc: (Q, Metadata) -> Outcome<R>, req: Q, meta: Metadata): (r: Outcome<R>)
    ensures r == rpc(req, meta)
  {
    rpc(req, meta)
  }

  function GetClientHistoryAsync<Q, R>(rpc: (Q, Metadata) -> Outcome<R>, req: Q, meta: Metadata): (r: Outcome<R>)
    ensures r == rpc(req, meta)
  {
    rpc(req, meta)
  }

  /** Every call forwards the request and metadata unchanged and returns the
      backend's outcome unchanged: a response as it is, and every exception,
      Unimplemented included, as it is. */
  lemma CallsForwardEverything<Q, R>(rpc: (Q, Metadata) -> Outcome<R>, req: Q, meta: Metadata)
    ensures var o := rpc(req, meta);
            && FindAllOrdersAsync(rpc, req, meta) == o
            && FindOneOrderAsync(rpc, req, meta) == o
            && CreateOrderAsync(rpc, req, meta) == o
            && UpdateOrderStatusAsync(rpc, req, meta) == o
            && CancelOrderAsync(rpc, req, meta) == o
            && GetClientHistoryAsync(rpc, req, meta) == o
    ensures IsUnimplemented(rpc(req, meta)) ==> FindAllOrdersAsync(rpc, req, meta).Threw?
  {
  }
}
