/** The records the blog client exchanges with the blog service and keeps in its state. */
module BlogTypes {

  datatype Option<T> = None | Some(value: T)

  /** Outcome of one request to the blog service: the decoded body, or a rejected promise. */
  datatype Reply<T> = Ok(value: T) | Failed

  /** JavaScript truthiness of an optional string field: `undefined`, `null` and `''` are falsy. */
  predicate Truthy(s: Option<string>) {
    s.Some? && s.value != ""
  }

  /**
   * The `user` summary the server attaches to a blog. Every field may be absent:
   * `id` and `dbId` (the `_id` key) are the two shapes of the owner's identifier.
   */
  datatype Owner = Owner(id: Option<string>, dbId: Option<string>, name: Option<string>, username: Option<string>)

  /** A blog record; `user` is absent when the server did not send an owner. */
  datatype Blog = Blog(id: string, title: string, author: string, url: string, likes: int, user: Option<Owner>)

  /** The session value returned by the login endpoint and persisted in storage. */
  datatype User = User(name: string, username: string, token: string)

  /** The body of a login request. */
  datatype Credentials = Credentials(username: string, password: string)

  /** The object the creation form hands to `createBlog`. */
  datatype Draft = Draft(title: string, author: string, url: string)

  datatype Kind = Success | Error

  /** The single notification shown at the top of the page. */
  datatype Notification = Notification(message: string, kind: Kind)
}
