/** The order-read routes: `/getAllLive/:restaurantId`, `/list/:restaurantId`,
    `/live/:orderId`, `/history` and `/historyV2`. Each runs the same guard chain
    (role, required parameters, existence, ownership) before it fetches anything
    further, and then answers with an assembled order list or an explicit empty shape.
    The store, the role and access-right predicates and the parameter check are
    inputs the routes consult; every store query made is recorded in a trace. */
module Retrieval {
  import opened Basics
  import opened Errors
  import opened Assembly

  /** The role names the routes allow. */
  datatype RoleName = Diner | Restaurateur | WaitrAdmin

  /** The identity decoded from the request's token. */
  datatype AuthUser = AuthUser(userId: Id, userRole: int)

  /** The authorisation predicates, left uninterpreted. */
  datatype Auth = Auth(hasRequiredRole: (int, seq<RoleName>) -> bool,
                       hasAccessRights: (AuthUser, Id) -> bool)

  /** The store queries the routes make, with their arguments. */
  datatype Call =
    | GetRestaurantOwnerId(restaurantId: Id)
    | GetOrderOwnerId(orderId: Id)
    | GetUserById(userId: Id)
    | GetAllLiveOrdersForRestaurant(restaurantId: Id)
    | GetItemsFromLiveOrders(restaurantId: Id)
    | GetAllOrdersForRestaurant(restaurantId: Id)
    | GetItemsFromRestaurantOrders(restaurantId: Id)
    | GetLiveOrder(orderId: Id)
    | GetOrdersForUser(userId: Id)
    | GetAllOrdersForUser(userId: Id)
    | GetItemsFromUserOrders(userId: Id)

  /** What each store query answers: the rows, or a failure. The three ownership
      lookups answer with the owner column (restaurant owner, order customer, user id). */
  datatype Store = Store(
    restaurantOwnerId: Id -> Result<seq<Id>, Fault>,
    orderOwnerId: Id -> Result<seq<Id>, Fault>,
    userById: Id -> Result<seq<Id>, Fault>,
    allLiveOrdersForRestaurant: Id -> Result<seq<Order>, Fault>,
    itemsFromLiveOrders: Id -> Result<seq<StoredItem>, Fault>,
    allOrdersForRestaurant: Id -> Result<seq<Order>, Fault>,
    itemsFromRestaurantOrders: Id -> Result<seq<StoredItem>, Fault>,
    liveOrder: Id -> Result<seq<Order>, Fault>,
    ordersForUser: Id -> Result<seq<Order>, Fault>,
    allOrdersForUser: Id -> Result<seq<Order>, Fault>,
    itemsFromUserOrders: Id -> Result<seq<StoredItem>, Fault>)

  /** The routes, with their route parameter or their optional `userId` query value. */
  datatype Route =
    | AllLive(restaurantId: Id)
    | ListAll(restaurantId: Id)
    | LiveOrder(orderId: Id)
    | History(userIdQuery: Option<Id>)
    | HistoryV2(userIdQuery: Option<Id>)

  /** A request: the authenticated user, the verdict of the required-parameter check,
      and the route. */
  datatype Request = Request(user: AuthUser, paramsMissing: bool, route: Route)

  /** JSON bodies: `{}`, an array of orders, or `{data: ...}`. */
  datatype Payload = EmptyObject | OrderArray(orders: seq<Order>) | Data(inner: Payload)

  /** How a route ends when no error is raised: a reply, or, for `/live/:orderId`, the
      fetched live-order rows with which the route goes on beyond this model. */
  datatype Answer = Respond(status: int, body: Payload) | Continues(rows: seq<Order>)

  /** The route's result together with the store queries it made, in order. */
  datatype Outcome<+T> = Outcome(result: Result<T, RouteError>, trace: seq<Call>)

  function AllowedRoles(r: Route): seq<RoleName> {
    match r
    case AllLive(_) => [Restaurateur, WaitrAdmin]
    case ListAll(_) => [Restaurateur, WaitrAdmin]
    case LiveOrder(_) => [Diner, WaitrAdmin]
    case History(_) => [Diner, Restaurateur, WaitrAdmin]
    case HistoryV2(_) => [Diner, Restaurateur, WaitrAdmin]
  }

  /** Whose history is read: the `userId` query value when it is present and
      non-empty (JavaScript `||` treats the empty string as absent), else the
      requester's own id. */
  function OwnerId(query: Option<Id>, u: AuthUser): Id {
    if query.Some? && query.value != "" then query.value else u.userId
  }

  /** The existence lookup of a request. */
  function LookupCall(req: Request): Call {
    match req.route
    case AllLive(rid) => GetRestaurantOwnerId(rid)
    case ListAll(rid) => GetRestaurantOwnerId(rid)
    case LiveOrder(oid) => GetOrderOwnerId(oid)
    case History(q) => GetUserById(OwnerId(q, req.user))
    case HistoryV2(q) => GetUserById(OwnerId(q, req.user))
  }

  /** What the store answers to the existence lookup. */
  function Lookup(store: Store, req: Request): Result<seq<Id>, Fault> {
    match req.route
    case AllLive(rid) => store.restaurantOwnerId(rid)
    case ListAll(rid) => store.restaurantOwnerId(rid)
    case LiveOrder(oid) => store.orderOwnerId(oid)
    case History(q) => store.userById(OwnerId(q, req.user))
    case HistoryV2(q) => store.userById(OwnerId(q, req.user))
  }

  function NotFound(r: Route): RouteError {
    match r
    case AllLive(_) => RestaurantNotFound
    case ListAll(_) => RestaurantNotFound
    case LiveOrder(_) => OrderNotFound
    case History(_) => UserNotFound
    case HistoryV2(_) => UserNotFound
  }

  /** Whose access rights are checked: the owner the lookup found for a restaurant or
      an order, the history owner for the history routes. */
  function AccessTarget(req: Request, rows: seq<Id>): Id
    requires |rows| > 0
  {
    match req.route
    case History(q) => OwnerId(q, req.user)
    case HistoryV2(q) => OwnerId(q, req.user)
    case _ => rows[0]
  }

  /** All four guards pass. */
  predicate GuardsPass(auth: Auth, store: Store, req: Request) {
    && auth.hasRequiredRole(req.user.userRole, AllowedRoles(req.route))
    && !req.paramsMissing
    && Lookup(store, req).Ok?
    && |Lookup(store, req).value| > 0
    && auth.hasAccessRights(req.user, AccessTarget(req, Lookup(store, req).value))
  }

  /** The guard chain. A failed role check is raised before the parameter check and
      before any store access; a missing resource is raised before the ownership check,
      whatever the access rights; a failed ownership check ends the route after the
      lookup alone. */
  function Guard(auth: Auth, store: Store, req: Request): (g: Outcome<()>)
    ensures !auth.hasRequiredRole(req.user.userRole, AllowedRoles(req.route)) ==>
              g == Outcome(Fail(InsufficientRolePrivileges), [])
    ensures auth.hasRequiredRole(req.user.userRole, AllowedRoles(req.route)) && req.paramsMissing ==>
              g == Outcome(Fail(MissingRequiredParams), [])
    ensures auth.hasRequiredRole(req.user.userRole, AllowedRoles(req.route)) && !req.paramsMissing ==>
              g.trace == [LookupCall(req)]
    ensures auth.hasRequiredRole(req.user.userRole, AllowedRoles(req.route)) && !req.paramsMissing
            && Lookup(store, req) == Ok([]) ==>
              g.result == Fail(NotFound(req.route))
    ensures auth.hasRequiredRole(req.user.userRole, AllowedRoles(req.route)) && !req.paramsMissing
            && Lookup(store, req).Fail? ==>
              g.result == Fail(Propagated(Lookup(store, req).error))
    ensures auth.hasRequiredRole(req.user.userRole, AllowedRoles(req.route)) && !req.paramsMissing
            && Lookup(store, req).Ok? && |Lookup(store, req).value| > 0
            && !auth.hasAccessRights(req.user, AccessTarget(req, Lookup(store, req).value)) ==>
              g.result == Fail(InsufficientPermissions)
    ensures g.result.Ok? <==> GuardsPass(auth, store, req)
  {
    if !auth.hasRequiredRole(req.user.userRole, AllowedRoles(req.route)) then
      Outcome(Fail(InsufficientRolePrivileges), [])
    else if req.paramsMissing then
      Outcome(Fail(MissingRequiredParams), [])
    else
      match Lookup(store, req)
      case Fail(e) => Outcome(Fail(Propagated(e)), [LookupCall(req)])
      case Ok(rows) =>
        if |rows| < 1 then Outcome(Fail(NotFound(req.route)), [LookupCall(req)])
        else if !auth.hasAccessRights(req.user, AccessTarget(req, rows)) then
          Outcome(Fail(InsufficientPermissions), [LookupCall(req)])
        else Outcome(Ok(()), [LookupCall(req)])
  }

  /** The body of `/list` and `/historyV2` once both fetches succeeded: `{}` for no
      orders, otherwise every order with exactly its own rows attached, priced, in
      arrival order (and so with empty items when no rows came back). */
  function ListBody(fetched: seq<Order>, items: seq<StoredItem>): (r: Payload)
    ensures |fetched| == 0 ==> r == EmptyObject
    ensures |fetched| > 0 ==>
              r.OrderArray? && |r.orders| == |fetched|
              && forall k :: 0 <= k < |fetched| ==>
                   r.orders[k] == fetched[k].(items := ItemsFor(items, fetched[k].orderId, WithPrice))
  {
    var orders := ResetItems(fetched);
    AssignItemsContents(items, orders, WithPrice);
    if |orders| < 1 then EmptyObject
    else if |items| < 1 then OrderArray(orders)
    else OrderArray(AssignItems(items, orders, WithPrice))
  }

  /** The body of `/getAllLive` for a non-empty order list: `{data: orders}` with every
      order carrying exactly its own rows, unpriced, in arrival order. */
  function LiveBody(fetched: seq<Order>, items: seq<StoredItem>): (r: Payload)
    requires |fetched| > 0
    ensures r.Data? && r.inner.OrderArray? && |r.inner.orders| == |fetched|
    ensures forall k :: 0 <= k < |fetched| ==>
              r.inner.orders[k] == fetched[k].(items := ItemsFor(items, fetched[k].orderId, WithoutPrice))
  {
    var orders := ResetItems(fetched);
    AssignItemsContents(items, orders, WithoutPrice);
    if |items| < 1 then Data(OrderArray(orders))
    else Data(OrderArray(AssignItems(items, orders, WithoutPrice)))
  }

  /** The first query a route makes once every guard passed. */
  function FetchCall(req: Request): Call {
    match req.route
    case AllLive(rid) => GetAllLiveOrdersForRestaurant(rid)
    case ListAll(rid) => GetAllOrdersForRestaurant(rid)
    case LiveOrder(oid) => GetLiveOrder(oid)
    case History(q) => GetOrdersForUser(OwnerId(q, req.user))
    case HistoryV2(q) => GetAllOrdersForUser(OwnerId(q, req.user))
  }

  /** What the store answers to the first fetch of a route. */
  function FetchFirst(store: Store, req: Request): Result<seq<Order>, Fault> {
    match req.route
    case AllLive(rid) => store.allLiveOrdersForRestaurant(rid)
    case ListAll(rid) => store.allOrdersForRestaurant(rid)
    case LiveOrder(oid) => store.liveOrder(oid)
    case History(q) => store.ordersForUser(OwnerId(q, req.user))
    case HistoryV2(q) => store.allOrdersForUser(OwnerId(q, req.user))
  }

  /** What a route does after its guards: fetch, assemble, answer. */
  function Fetch(store: Store, req: Request): (f: Outcome<Answer>)
    ensures |f.trace| > 0 && f.trace[0] == FetchCall(req)
    // A failed first fetch is handed on unchanged, after that one query.
    ensures FetchFirst(store, req).Fail? ==>
              f == Outcome(Fail(Propagated(FetchFirst(store, req).error)), [FetchCall(req)])
    // `/getAllLive`: items are asked for only when live orders exist.
    ensures req.route.AllLive? && store.allLiveOrdersForRestaurant(req.route.restaurantId).Ok? ==>
              var rid := req.route.restaurantId;
              var o := store.allLiveOrdersForRestaurant(rid).value;
              var items := store.itemsFromLiveOrders(rid);
              && (|o| == 0 ==> f == Outcome(Ok(Respond(200, Data(EmptyObject))), [FetchCall(req)]))
              && (|o| > 0 && items.Fail? ==>
                    f == Outcome(Fail(Propagated(items.error)), [FetchCall(req), GetItemsFromLiveOrders(rid)]))
              && (|o| > 0 && items.Ok? ==>
                    f == Outcome(Ok(Respond(200, LiveBody(o, items.value))), [FetchCall(req), GetItemsFromLiveOrders(rid)]))
    // `/list`: items are always asked for, and the body is the assembled list.
    ensures req.route.ListAll? && store.allOrdersForRestaurant(req.route.restaurantId).Ok? ==>
              var rid := req.route.restaurantId;
              var items := store.itemsFromRestaurantOrders(rid);
              var calls := [FetchCall(req), GetItemsFromRestaurantOrders(rid)];
              && (items.Fail? ==> f == Outcome(Fail(Propagated(items.error)), calls))
              && (items.Ok? ==>
                    f == Outcome(Ok(Respond(200, ListBody(store.allOrdersForRestaurant(rid).value, items.value))), calls))
    // `/live/:orderId`: the live-order rows, with which the route goes on.
    ensures req.route.LiveOrder? && store.liveOrder(req.route.orderId).Ok? ==>
              f == Outcome(Ok(Continues(store.liveOrder(req.route.orderId).value)), [FetchCall(req)])
    // `/history`: the owner's order rows, as fetched.
    ensures req.route.History? && FetchFirst(store, req).Ok? ==>
              f == Outcome(Ok(Respond(200, OrderArray(FetchFirst(store, req).value))), [FetchCall(req)])
    // `/historyV2`: as `/list`, for the history owner.
    ensures req.route.HistoryV2? && FetchFirst(store, req).Ok? ==>
              var owner := OwnerId(req.route.userIdQuery, req.user);
              var items := store.itemsFromUserOrders(owner);
              var calls := [FetchCall(req), GetItemsFromUserOrders(owner)];
              && (items.Fail? ==> f == Outcome(Fail(Propagated(items.error)), calls))
              && (items.Ok? ==> f == Outcome(Ok(Respond(200, ListBody(FetchFirst(store, req).value, items.value))), calls))
  {
    match req.route
    case AllLive(rid) =>
      var c := GetAllLiveOrdersForRestaurant(rid);
      (match store.allLiveOrdersForRestaurant(rid)
       case Fail(e) => Outcome(Fail(Propagated(e)), [c])
       case Ok(o) =>
        if |o| == 0 then Outcome(Ok(Respond(200, Data(EmptyObject))), [c])
        else
          (match store.itemsFromLiveOrders(rid)
           case Fail(e) => Outcome(Fail(Propagated(e)), [c, GetItemsFromLiveOrders(rid)])
           case Ok(items) => Outcome(Ok(Respond(200, LiveBody(o, items))), [c, GetItemsFromLiveOrders(rid)])))
    case ListAll(rid) =>
      var calls := [GetAllOrdersForRestaurant(rid), GetItemsFromRestaurantOrders(rid)];
      (match store.allOrdersForRestaurant(rid)
       case Fail(e) => Outcome(Fail(Propagated(e)), calls[..1])
       case Ok(o) =>
         (match store.itemsFromRestaurantOrders(rid)
          case Fail(e) => Outcome(Fail(Propagated(e)), calls)
          case Ok(items) => Outcome(Ok(Respond(200, ListBody(o, items))), calls)))
    case LiveOrder(oid) =>
      (match store.liveOrder(oid)
       case Fail(e) => Outcome(Fail(Propagated(e)), [GetLiveOrder(oid)])
       case Ok(rows) => Outcome(Ok(Continues(rows)), [GetLiveOrder(oid)]))
    case History(q) =>
      var owner := OwnerId(q, req.user);
      (match store.ordersForUser(owner)
       case Fail(e) => Outcome(Fail(Propagated(e)), [GetOrdersForUser(owner)])
       case Ok(o) => Outcome(Ok(Respond(200, OrderArray(o))), [GetOrdersForUser(owner)]))
    case HistoryV2(q) =>
      var owner := OwnerId(q, req.user);
      var calls := [GetAllOrdersForUser(owner), GetItemsFromUserOrders(owner)];
      match store.allOrdersForUser(owner)
      case Fail(e) => Outcome(Fail(Propagated(e)), calls[..1])
      case Ok(o) =>
        (match store.itemsFromUserOrders(owner)
         case Fail(e) => Outcome(Fail(Propagated(e)), calls)
         case Ok(items) => Outcome(Ok(Respond(200, ListBody(o, items))), calls))
  }

  /** A whole route: its guards, then its fetches. Nothing past the existence lookup is
      queried unless every guard passed, and a route answers only then. */
  function Handle(auth: Auth, store: Store, req: Request): (o: Outcome<Answer>)
    ensures o.result.Ok? ==> GuardsPass(auth, store, req)
    ensures |o.trace| > 1 <==> GuardsPass(auth, store, req)
    ensures |o.trace| > 0 ==> o.trace[0] == LookupCall(req)
    ensures GuardsPass(auth, store, req) ==> o.trace[1] == FetchCall(req)
    ensures !GuardsPass(auth, store, req) ==> o.result == Fail(Guard(auth, store, req).result.error)
  {
    var g := Guard(auth, store, req);
    if g.result.Fail? then Outcome(Fail(g.result.error), g.trace)
    else
      var f := Fetch(store, req);
      Outcome(f.result, g.trace + f.trace)
  }

  /** A requester who passes the role and parameter checks but has no access rights to
      an existing resource is refused with `insufficientPermissions` by every route, and
      no order data is queried: the existence lookup is the only store access. */
  lemma ForbiddenLeaksNothing(auth: Auth, store: Store, req: Request)
    requires auth.hasRequiredRole(req.user.userRole, AllowedRoles(req.route)) && !req.paramsMissing
    requires Lookup(store, req).Ok? && |Lookup(store, req).value| > 0
    requires !auth.hasAccessRights(req.user, AccessTarget(req, Lookup(store, req).value))
    ensures Handle(auth, store, req) == Outcome(Fail(InsufficientPermissions), [LookupCall(req)])
  {
  }

  /** The history routes look up, check and read the orders of the `userId` query
      value when it is given and non-empty, and of the requester otherwise. */
  lemma HistoryOwnerChosen(auth: Auth, store: Store, req: Request)
    requires req.route.History? || req.route.HistoryV2?
    requires auth.hasRequiredRole(req.user.userRole, AllowedRoles(req.route)) && !req.paramsMissing
    ensures var q := req.route.userIdQuery;
            var owner := if q.Some? && q.value != "" then q.value else req.user.userId;
            && Handle(auth, store, req).trace[0] == GetUserById(owner)
            && (GuardsPass(auth, store, req) ==>
                  auth.hasAccessRights(req.user, owner)
                  && Handle(auth, store, req).trace[1] in {GetOrdersForUser(owner), GetAllOrdersForUser(owner)})
  {
  }

  /** A restaurant with no orders yet is answered with `{}` by `/list` (and a user
      with none by `/historyV2`), with `{data: {}}` by `/getAllLive`, which then
      does not even ask for items; none of these is an error. */
  lemma EmptyResultShapes(auth: Auth, store: Store, req: Request)
    requires GuardsPass(auth, store, req)
    ensures req.route.ListAll? && store.allOrdersForRestaurant(req.route.restaurantId) == Ok([])
            && store.itemsFromRestaurantOrders(req.route.restaurantId).Ok? ==>
              Handle(auth, store, req).result == Ok(Respond(200, EmptyObject))
    ensures req.route.HistoryV2? && store.allOrdersForUser(OwnerId(req.route.userIdQuery, req.user)) == Ok([])
            && store.itemsFromUserOrders(OwnerId(req.route.userIdQuery, req.user)).Ok? ==>
              Handle(auth, store, req).result == Ok(Respond(200, EmptyObject))
    ensures req.route.AllLive? && store.allLiveOrdersForRestaurant(req.route.restaurantId) == Ok([]) ==>
              Handle(auth, store, req).result == Ok(Respond(200, Data(EmptyObject)))
              && Handle(auth, store, req).trace == [LookupCall(req), FetchCall(req)]
  {
  }

  /** When the item fetch returns no rows, every order comes back with empty items. */
  lemma NoItemsGiveEmptyItems(fetched: seq<Order>)
    requires |fetched| > 0
    ensures ListBody(fetched, []).OrderArray?
    ensures forall k :: 0 <= k < |fetched| ==> ListBody(fetched, []).orders[k].items == []
    ensures forall k :: 0 <= k < |fetched| ==> LiveBody(fetched, []).inner.orders[k].items == []
  {
  }

  /** The shortcut the routes take for an empty item fetch answers what full assembly
      would have answered. */
  lemma EmptyItemsShortcutAgrees(fetched: seq<Order>)
    requires |fetched| > 0
    ensures ListBody(fetched, []) == OrderArray(AssignItems([], ResetItems(fetched), WithPrice))
    ensures LiveBody(fetched, []) == Data(OrderArray(AssignItems([], ResetItems(fetched), WithoutPrice)))
  {
  }
}
