/** Value types shared by the whole model: optional values, the truthiness test the
  * route handlers apply to request fields, and the JSON reply of a route handler. */
module Common {

  datatype Option<+T> = None | Some(value: T)

  /** A string request field as the handlers see it: absent (`undefined`) or a string.
    * `!body.field` holds exactly when the field is absent or the empty string. */
  predicate Given(f: Option<string>) {
    f.Some? && f.value != ""
  }

  /** `field || fallback` on a string field. */
  function Or(f: Option<string>, fallback: string): string {
    if Given(f) then f.value else fallback
  }

  /** The reply of a route handler: `{success: true, ...}` with status 200, or
    * `{success: false, error}` with status 400, 404 or 500. */
  datatype Reply = Ok | BadRequest(error: string) | NotFound(error: string) | ServerError(error: string) {
    function Status(): int {
      match this
      case Ok => 200
      case BadRequest(_) => 400
      case NotFound(_) => 404
      case ServerError(_) => 500
    }
  }

  /** The reply of a handler's `catch` when the slug rule is applied to an absent
    * field, where `undefined.toLowerCase()` throws. */
  const SlugOfUndefined := ServerError("Cannot read properties of undefined (reading 'toLowerCase')")

  /** The properties every plain object (`{}`) inherits. Looking one of them up in an
    * object used as a dictionary finds a truthy value (a function, or the prototype
    * itself) even though nothing was stored under that name. */
  const PrototypeNames: set<string> := {
    "constructor", "__proto__", "hasOwnProperty", "isPrototypeOf", "propertyIsEnumerable",
    "toLocaleString", "toString", "valueOf",
    "__defineGetter__", "__defineSetter__", "__lookupGetter__", "__lookupSetter__"}
}
