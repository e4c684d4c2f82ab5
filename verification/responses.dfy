/**
 * What a handler sends back, reduced to what the decisions distinguish: a
 * success status with the primary keys the body shows, or an error status
 * with the kind of refusal.
 */
module Responses {
  import opened Models

  const StatusOk := 200
  const StatusCreated := 201
  const StatusNoContent := 204
  const StatusBadRequest := 400
  const StatusUnauthorized := 401
  const StatusForbidden := 403
  const StatusNotFound := 404
  const StatusServerError := 500

  datatype ErrorKind =
    | AuthenticationRequired   // the one reply carrying code 'AUTHENTICATION_REQUIRED'
    | LoginRequired            // 'authorization required' from the permission checks and account views
    | UserNotFound             // no active account for the identity
    | NoRolesAssigned
    | AccessDenied
    | RoleDeletionForbidden
    | InvalidCredentials
    | NotFound                 // the object is not in the handler's queryset
    | ValidationFailed
    | AttributeMissing         // getattr on a field the object lacks

  datatype Reply =
    | Ok(status: int, rows: set<Id>)
    | Error(status: int, kind: ErrorKind)

  /** The handlers of a DRF model viewset, with the primary key they address. */
  datatype Handler =
    | List
    | Retrieve(pk: Id)
    | Create
    | Update(pk: Id)
    | PartialUpdate(pk: Id)
    | Destroy(pk: Id)

  /** The machine-readable `code` entry of an error body, when it has one. */
  function ErrorCode(kind: ErrorKind): string {
    if kind == AuthenticationRequired then "AUTHENTICATION_REQUIRED" else ""
  }
}
