/** Values shared by the backend controller and the browser pages. */
module Common {

  /** A value that may be absent: a missing request field, an `undefined` property, a JSON `null`. */
  datatype Option<+T> = None | Some(value: T)

  /** JavaScript truthiness of a string that may be absent: present and not the empty string. */
  predicate Truthy(s: Option<string>)
  {
    s.Some? && s.value != ""
  }

  /** The `type` of a toast notification. */
  datatype ToastKind = Success | Error

  /** The `{ message, type }` record a page keeps in its `toast` state. */
  datatype Toast = Toast(message: string, kind: ToastKind)
}
