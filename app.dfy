/**
 * The top-level controller of the blog client: the session, the blog
 * collection, the login form fields, the notification and the persisted
 * session slot, with the handlers that change them.
 */
module BlogApp {
  import opened BlogTypes
  import opened Collection

  /** What the controller renders: the login form, or the list of blogs. */
  datatype Page =
    | LoginPage(notice: Option<Notification>, username: string, password: string)
    | BlogsPage(notice: Option<Notification>, name: string, listed: seq<Blog>)

  /** The whole observable state of the controller at one moment. */
  datatype Snapshot = Snapshot(
    user: Option<User>,
    blogs: seq<Blog>,
    username: string,
    password: string,
    notification: Option<Notification>,
    storage: Option<User>,
    serviceToken: Option<string>)

  class App {
    var user: Option<User>
    var blogs: seq<Blog>
    var username: string
    var password: string
    var notification: Option<Notification>
    /** The browser storage slot `loggedBlogAppUser`; the value is kept decoded. */
    var storage: Option<User>
    /** The bearer token the blog service attaches to its requests. */
    var serviceToken: Option<string>

    function State(): (s: Snapshot)
      reads this
    {
      Snapshot(user, blogs, username, password, notification, storage, serviceToken)
    }

    /** An active session is the persisted one, and its token is the service's. */
    ghost predicate Valid()
      reads this
    {
      user.Some? ==> storage == user && serviceToken == Some(user.value.token)
    }

    /** The first render: empty collection and form, no session yet, storage as the browser has it. */
    constructor (persisted: Option<User>)
      ensures Valid()
      ensures State() == Snapshot(None, [], "", "", None, persisted, None)
    {
      user := None;
      blogs := [];
      username := "";
      password := "";
      notification := None;
      storage := persisted;
      serviceToken := None;
    }

    /** The page produced for the current state; it leaves the collection as it is. */
    function Render(): (p: Page)
      reads this
      ensures p.LoginPage? <==> user.None?
      ensures p.notice == notification
      ensures p.LoginPage? ==> p.username == username && p.password == password
      ensures p.BlogsPage? ==> p.name == user.value.name
      ensures p.BlogsPage? ==> multiset(p.listed) == multiset(blogs) && NonIncreasing(p.listed)
    {
      if user.None? then LoginPage(notification, username, password)
      else BlogsPage(notification, user.value.name, SortByLikes(blogs))
    }

    /** Replaces the notification with the latest message. */
    method ShowNotification(message: string, kind: Kind)
      modifies this
      ensures State() == old(State()).(notification := Some(Notification(message, kind)))
    {
      notification := Some(Notification(message, kind));
    }

    method SetUsername(value: string)
      modifies this
      ensures State() == old(State()).(username := value)
    {
      username := value;
    }

    method SetPassword(value: string)
      modifies this
      ensures State() == old(State()).(password := value)
    {
      password := value;
    }

    /** The mount effect: a persisted session becomes the active one. */
    method Restore()
      requires Valid()
      modifies this
      ensures Valid()
      ensures State() == match old(storage)
                         case None => old(State())
                         case Some(u) => old(State()).(user := Some(u), serviceToken := Some(u.token))
    {
      if storage.Some? {
        var u := storage.value;
        user := Some(u);
        serviceToken := Some(u.token);
      }
    }

    /** The effect run when `user` changes: with a session, the server's list replaces the collection. */
    method LoadAll(reply: Reply<seq<Blog>>)
      modifies this
      ensures State() == if old(user).Some? && reply.Ok? then old(State()).(blogs := reply.value) else old(State())
    {
      if user.Some? {
        if reply.Ok? {
          blogs := reply.value;
        }
      }
    }

    /** Sends the form's credentials; `reply` is the login endpoint's answer. */
    method HandleLogin(reply: Reply<User>) returns (request: Credentials)
      requires Valid()
      modifies this
      ensures Valid()
      ensures request == Credentials(old(username), old(password))
      ensures reply.Ok? ==> State() == old(State()).(
                user := Some(reply.value),
                storage := Some(reply.value),
                serviceToken := Some(reply.value.token),
                username := "",
                password := "",
                notification := Some(Notification(reply.value.name + " logged in", Success)))
      ensures reply.Failed? ==>
                State() == old(State()).(notification := Some(Notification("Wrong username or password", Error)))
    {
      request := Credentials(username, password);
      match reply
      case Ok(userData) =>
        storage := Some(userData);
        user := Some(userData);
        serviceToken := Some(userData.token);
        username := "";
        password := "";
        ShowNotification(userData.name + " logged in", Success);
      case Failed =>
        ShowNotification("Wrong username or password", Error);
    }

    /** Ends the session; the service token is left as it was. */
    method HandleLogout()
      requires Valid()
      modifies this
      ensures Valid()
      ensures State() == old(State()).(
                storage := None,
                user := None,
                blogs := [],
                notification := Some(Notification("Logged out", Success)))
    {
      storage := None;
      user := None;
      blogs := [];
      ShowNotification("Logged out", Success);
    }

    /**
     * Sends `draft` to the create endpoint as `request`; `reply` is the
     * created blog or a failure. `collapsed` says whether the creation form
     * was told to fold.
     */
    method AddBlog(draft: Draft, reply: Reply<Blog>) returns (request: Draft, collapsed: bool)
      requires Valid()
      modifies this
      ensures Valid()
      ensures request == draft
      ensures collapsed <==> reply.Ok?
      ensures reply.Ok? ==> State() == old(State()).(
                blogs := old(blogs) + [reply.value],
                notification := Some(Notification(
                  "A new blog '" + reply.value.title + "' by " + reply.value.author + " added", Success)))
      ensures reply.Failed? ==>
                State() == old(State()).(notification := Some(Notification("Error creating blog", Error)))
    {
      request := draft;
      collapsed := false;
      match reply
      case Ok(createdBlog) =>
        blogs := blogs + [createdBlog];
        ShowNotification("A new blog '" + createdBlog.title + "' by " + createdBlog.author + " added", Success);
        collapsed := true;
      case Failed =>
        ShowNotification("Error creating blog", Error);
    }

    /**
     * Likes `blog`: `request` is the update sent (none when `blog.user` is
     * absent and the handler throws first); `reply` is the updated blog.
     * The returned blog keeps the owner summary `blog` had.
     */
    method HandleLike(blog: Blog, reply: Reply<Blog>) returns (request: Option<(string, LikeUpdate)>)
      modifies this
      ensures request == match LikePayload(blog)
                         case None => None
                         case Some(payload) => Some((blog.id, payload))
      ensures request.None? ==> State() == old(State())
      ensures request.Some? && reply.Ok? ==>
                State() == old(State()).(blogs := ReplaceById(old(blogs), blog.id, reply.value.(user := blog.user)))
      ensures request.Some? && reply.Failed? ==>
                State() == old(State()).(notification := Some(Notification("Error liking blog", Error)))
    {
      var payload := LikePayload(blog);
      if payload.None? {
        return None;
      }
      request := Some((blog.id, payload.value));
      match reply
      case Ok(returnedBlog) =>
        var merged := returnedBlog.(user := blog.user);
        blogs := ReplaceById(blogs, blog.id, merged);
      case Failed =>
        ShowNotification("Error liking blog", Error);
    }

    /**
     * Deletes `blog` after the confirmation `prompt`: `confirmed` is the
     * user's answer, `request` the id sent to the delete endpoint, `reply`
     * that endpoint's outcome.
     */
    method HandleDelete(blog: Blog, confirmed: bool, reply: Reply<()>) returns (prompt: string, request: Option<string>)
      modifies this
      ensures prompt == "Remove blog \"" + blog.title + "\" by " + blog.author + "?"
      ensures request == if confirmed then Some(blog.id) else None
      ensures !confirmed ==> State() == old(State())
      ensures confirmed && reply.Ok? ==> State() == old(State()).(
                blogs := RemoveById(old(blogs), blog.id),
                notification := Some(Notification("Deleted blog \"" + blog.title + "\"", Success)))
      ensures confirmed && reply.Failed? ==>
                State() == old(State()).(notification := Some(Notification("Error deleting blog", Error)))
    {
      prompt := "Remove blog \"" + blog.title + "\" by " + blog.author + "?";
      if !confirmed {
        return prompt, None;
      }
      request := Some(blog.id);
      match reply
      case Ok(_) =>
        blogs := RemoveById(blogs, blog.id);
        ShowNotification("Deleted blog \"" + blog.title + "\"", Success);
      case Failed =>
        ShowNotification("Error deleting blog", Error);
    }
  }
}
