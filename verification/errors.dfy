/** The error table of helpers/error.js, the terminal error handler that classifies
    every error reaching it, and the error identities raised by the order routes. */
module Errors {
  import opened Basics

  /** One entry of the error table. */
  datatype Entry = Entry(statusCode: int, errorKey: string, userMsg: string)

  /** An error value as it reaches the handler: any object; the fields the handler and
      the routes look at are optional. */
  datatype ErrorValue = ErrorValue(statusCode: Option<int>, errorKey: Option<string>,
                                   userMsg: Option<string>, devMsg: Option<string>)

  /** An HTTP reply of the handler: the status and the JSON body. */
  datatype Response = Response(status: int, body: ErrorValue)

  const DefaultUserMsg: string :=
    "Oops! The waiter system experienced an error - please try again. If the issue persists, contact our support team."
  const CredentialsMsg: string :=
    "The username and password you entered did not match our records. Please double-check and try again."

  const InternalKey: string := "internalServerError"

  /** The statuses the table uses. */
  const TableStatuses: set<int> := {400, 401, 403, 404, 409, 500}

  /** The error table, keyed by property name. */
  const Table: map<string, Entry> := map[
    "missingRequiredHeaders" := Entry(400, "missingRequiredHeaders", DefaultUserMsg),
    "missingRequiredParams" := Entry(400, "missingRequiredParams", DefaultUserMsg),
    "jwtMalformed" := Entry(401, "jwtMalformed", "Oops! Your session has expired. Log in to continue using waitr."),
    "insufficientPermissions" := Entry(403, "insufficientPermissions", DefaultUserMsg),
    "emailNotRegistered" := Entry(401, "emailNotRegistered", CredentialsMsg),
    "passwordIncorrect" := Entry(401, "passwordIncorrect", CredentialsMsg),
    "userNotActive" := Entry(401, "userNotActive", "This account is not currently active. You can restore your account by clicking here."),
    "userNotFound" := Entry(404, "userNotFound", DefaultUserMsg),
    "emailAlreadyRegistered" := Entry(404, "emailAlreadyRegistered", "That email address is already registered to an account! If you've forgotten your password, contact support."),
    "currentPasswordIncorrect" := Entry(401, "currentPasswordIncorrect", "Incorrect password. Please double-check and try again."),
    "userAlreadyVerified" := Entry(409, "userAlreadyVerified", "Your account is already verified. Go ahead and log in."),
    "alreadyCurrentEmail" := Entry(409, "alreadyCurrentEmail", "That email address is already registered to your account. Go ahead and log in."),
    "restaurantNotFound" := Entry(404, "restaurantNotFound", DefaultUserMsg),
    "menuNotFound" := Entry(404, "menuNotFound", DefaultUserMsg),
    "categoryNotFound" := Entry(404, "categoryNotFound", DefaultUserMsg),
    "itemNotFound" := Entry(404, "itemNotFound", DefaultUserMsg),
    "sqlInsertFailed" := Entry(500, "sqlInsertFailed", DefaultUserMsg),
    "sqlUpdateFailed" := Entry(500, "sqlUpdateFailed", DefaultUserMsg),
    "resourceAlreadyInactive" := Entry(409, "resourceAlreadyInactive", DefaultUserMsg),
    InternalKey := Entry(500, "internalServerError", DefaultUserMsg)
  ]

  /** The table entry as the object the routes throw. */
  function AsValue(e: Entry): ErrorValue {
    ErrorValue(Some(e.statusCode), Some(e.errorKey), Some(e.userMsg), None)
  }

  /** Whether the handler recognises an error: its `errorKey` names a table entry. */
  predicate Known(err: ErrorValue) {
    err.errorKey.Some? && err.errorKey.value in Table
  }

  /** Every entry's `errorKey` is the key it is stored under. */
  lemma TableKeysMatch()
    ensures forall k :: k in Table ==> Table[k].errorKey == k
  {
  }

  /** Every status in the table is one of 400, 401, 403, 404, 409, 500. */
  lemma TableStatusesAllowed()
    ensures forall k :: k in Table ==> Table[k].statusCode in TableStatuses
  {
  }

  /** The terminal error handler. A recognised error is answered with the status its
      table entry declares (whatever status the error object itself carries) and with
      the error object unchanged as body; anything else becomes a 500 carrying the
      generic internal-error entry, so no unclassified detail reaches the caller. */
  function ErrorHandler(err: ErrorValue): (r: Response)
    ensures Known(err) ==> r.status == Table[err.errorKey.value].statusCode && r.body == err
    ensures !Known(err) ==> r.status == 500 && r.body == AsValue(Table[InternalKey])
    ensures r.status in TableStatuses
    ensures exists k :: k in Table && Table[k].statusCode == r.status
  {
    TableStatusesAllowed();
    if Known(err) then
      Response(Table[err.errorKey.value].statusCode, err)
    else
      Response(Table[InternalKey].statusCode, AsValue(Table[InternalKey]))
  }

  /** The status never depends on anything but the error key. */
  lemma StatusDependsOnlyOnKey(a: ErrorValue, b: ErrorValue)
    requires a.errorKey == b.errorKey
    ensures ErrorHandler(a).status == ErrorHandler(b).status
  {
  }

  /** Two unrecognised errors get the very same reply: nothing of them leaks. */
  lemma UnknownErrorsIndistinguishable(a: ErrorValue, b: ErrorValue)
    requires !Known(a) && !Known(b)
    ensures ErrorHandler(a) == ErrorHandler(b)
  {
  }

  /** The errors the order routes raise, by identity. Several of them
      (insufficientRolePrivileges, orderNotFound, chargeNotFound,
      cannotRefundUnpaidOrder, stripeError) have no entry in the table. */
  datatype RouteError =
    | InsufficientRolePrivileges
    | MissingRequiredParams
    | InsufficientPermissions
    | RestaurantNotFound
    | OrderNotFound
    | UserNotFound
    | ChargeNotFound
    | CannotRefundUnpaidOrder
    | InternalServerError
      /** A payment-processor error, rebuilt for the caller. */
    | StripeError(statusCode: int, userMsg: string, devMsg: string)
      /** A store or wrapper failure passed on unchanged. */
    | Propagated(cause: Fault)

  /** The table key of a route error, for those that have one. */
  function TableKey(e: RouteError): Option<string> {
    match e
    case MissingRequiredParams => Some("missingRequiredParams")
    case InsufficientPermissions => Some("insufficientPermissions")
    case RestaurantNotFound => Some("restaurantNotFound")
    case UserNotFound => Some("userNotFound")
    case InternalServerError => Some(InternalKey)
    case _ => None
  }

  /** A table-backed route error, thrown as its table object, is answered with its own
      table status and body: 400 for missing parameters, 403 for a failed ownership
      check, 404 for a missing restaurant or user, 500 for an internal error. */
  lemma TableBackedRouteErrors(e: RouteError)
    requires TableKey(e).Some?
    ensures TableKey(e).value in Table
    ensures ErrorHandler(AsValue(Table[TableKey(e).value])) ==
            Response(Table[TableKey(e).value].statusCode, AsValue(Table[TableKey(e).value]))
    ensures e == MissingRequiredParams ==> ErrorHandler(AsValue(Table[TableKey(e).value])).status == 400
    ensures e == InsufficientPermissions ==> ErrorHandler(AsValue(Table[TableKey(e).value])).status == 403
    ensures e == RestaurantNotFound || e == UserNotFound ==> ErrorHandler(AsValue(Table[TableKey(e).value])).status == 404
    ensures e == InternalServerError ==> ErrorHandler(AsValue(Table[TableKey(e).value])).status == 500
  {
  }
}
