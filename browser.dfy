/** Values shared by every page: optional values (JavaScript's `null`/`undefined`),
    the browser's local storage as a string map, the navigation a handler asks the
    router for, and the messages it shows (toasts and alerts). */
module Browser {

  datatype Option<+T> = None | Some(value: T)

  /** `localStorage`: a map from keys to strings. */
  type Storage = map<string, string>

  /** `localStorage.getItem(key)`: the stored string, or `null`. */
  function GetItem(storage: Storage, key: string): (r: Option<string>)
    ensures r.Some? <==> key in storage
    ensures r.Some? ==> r.value == storage[key]
  {
    if key in storage then Some(storage[key]) else None
  }

  /** JavaScript truthiness of a `string | null`: `null` and `''` are falsy. */
  predicate Truthy(s: Option<string>) {
    s.Some? && s.value != ""
  }

  /** What a handler asks the router to do: nothing, `router.push(path)` or `router.replace(path)`. */
  datatype Nav = Stay | Push(path: string) | Replace(path: string)

  /** What a handler shows the user: a toast (error or success) or a blocking `alert`. */
  datatype Notice = ErrorToast(text: string) | SuccessToast(text: string) | Alert(text: string)
}
