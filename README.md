# Blog client: session, collection and ownership gate

A Dafny model of the client side of a small blog application written in React.
The model covers three components:

- the top-level controller (`App`). It holds the signed-in user, the list of blogs, the
  login form fields, the current notification and the persisted session slot
  `loggedBlogAppUser`. Its handlers restore the session on start, load all blogs, log in,
  log out, create, like and delete. It also derives the list view, ordered by likes;
- one blog entry (`Blog`), with its view/hide toggle, its like and remove buttons and the
  ownership gate on the remove button;
- the creation form (`BlogForm`), with three text fields and a submit.

Every network call becomes a `Reply<T>` parameter: either `Ok(value)`, the server's answer,
or `Failed`, a rejected promise. Every branch is therefore deterministic. Handlers that send
a request return it: the login credentials, the draft to create, the like update with its
blog id, or the id to delete. Each handler acts on the current state in one atomic step.

Files:

- `types.dfy` (`BlogTypes`): blogs, owners, users, drafts, notifications, `Option`, `Reply`.
- `collection.dfy` (`Collection`): the pure derivations the controller applies to its list:
  - the stable sort by likes, descending;
  - the id-keyed replace used by a like;
  - the id-keyed filter used by a delete;
  - the like payload.
- `app.dfy` (`BlogApp`): the controller as a class. `State()` gives the whole state as a
  `Snapshot` value. Each handler states its entire new state as an update of the old
  snapshot, so every field it does not name stays unchanged.
- `blog_card.dfy` (`BlogCard`): the rendering of one entry, the gate, and the `BlogView`
  class holding `visible`.
- `blog_form.dfy` (`BlogFormState`): the form as a class with three fields.

Behaviour of the code worth noting:

- The gate is `user?.username === blog.user?.username`. With no viewer and an owner without
  a username, both sides are `undefined` and the gate is true. Within the application the
  list is only rendered while a user is signed in. For a signed-in viewer the gate is
  exactly "the owner's username equals the viewer's" (`CanRemove`,
  `OtherViewerNeverRemoves`).
- Logout does not clear the blog service's token (`serviceToken`). It clears only the
  storage slot, the user and the list.
- A like of a blog with no `user` throws while the payload is being built, before the
  `try`. No request is sent and nothing changes; not even an error notification is shown.
- A failed load is an unhandled rejection. The list and the notification stay unchanged.
- A response is applied even if the user logged out meanwhile. The code does not check for
  an active session before applying it.

## Model

| member | source | states |
|---|---|---|
| `Collection.SortByLikes` | src/App.jsx:144-145 | the displayed list is a permutation of the collection (same multiset, same length) ordered by non-increasing likes; being a function of the collection, it leaves the collection untouched |
| `Collection.SortByLikesStable` | src/App.jsx:144-145 | among blogs with equal likes the view keeps their order in the collection, as the stable built-in sort does |
| `Collection.SortByLikesOfSorted` | src/App.jsx:144-145 | a collection already in non-increasing order is displayed as it is |
| `Collection.InsertKeepsOrder` | src/App.jsx:144-145 | inserting one blog into a list ordered by likes keeps it ordered |
| `Collection.ReplaceById` | src/App.jsx:88 | the merge after a like: same length; every entry whose id equals the liked id becomes the returned blog; every other entry is unchanged and stays in place |
| `Collection.ReplaceKeepsIds` | src/App.jsx:85-88 | when the server keeps the id, the merge leaves every position's id as it was, so unique ids stay unique |
| `Collection.ReplaceAbsentId` | src/App.jsx:88 | liking an id that is not in the collection leaves it unchanged |
| `Collection.RemoveById` | src/App.jsx:99 | after a delete a blog is in the list iff it was there before and its id differs from the deleted id; the list never grows |
| `Collection.RemoveByIdConcat` | src/App.jsx:99 | the filter distributes over concatenation, so the remaining blogs keep their relative order |
| `Collection.RemoveByIdNoOp` | src/App.jsx:99 | the filter leaves the list unchanged iff no blog carries the id |
| `Collection.RemoveKeepsUnique` | src/App.jsx:99 | the filter keeps ids unique |
| `Collection.AppendKeepsUnique` | src/App.jsx:64 | appending the created blog keeps ids unique iff its id is new |
| `Collection.OwnerRef` | src/App.jsx:78 | the owner reference sent with a like is `id` when that is non-empty, and `_id` otherwise (also when both are absent or empty); it is non-empty iff one of the two is |
| `Collection.LikePayload` | src/App.jsx:77-83 | a payload exists iff the blog has a `user`; it has likes + 1, the same title, author and url, and the owner reference |
| `BlogApp.App.constructor` | src/App.jsx:10-15 | the first render has an empty list, empty login fields, no user and no notification; storage holds what the browser kept |
| `BlogApp.App.Render` | src/App.jsx:105-156 | the login page is produced iff no user is signed in; otherwise the page lists the sorted view, a permutation of `blogs` ordered by likes, and names the user |
| `BlogApp.App.ShowNotification` | src/App.jsx:19-22 | the notification becomes the latest message and kind; nothing else changes |
| `BlogApp.App.SetUsername` | src/App.jsx:116 | only the username field changes |
| `BlogApp.App.SetPassword` | src/App.jsx:125 | only the password field changes |
| `BlogApp.App.Restore` | src/App.jsx:24-31 | a persisted session becomes the user and sets the service token; without one nothing changes |
| `BlogApp.App.LoadAll` | src/App.jsx:33-37 | with a user signed in, a successful fetch replaces the list wholesale; otherwise nothing changes |
| `BlogApp.App.HandleLogin` | src/App.jsx:39-52 | the request carries the form's username and password. Success persists and activates the user, sets the token, clears both fields and notifies "<name> logged in" (success). Failure only notifies "Wrong username or password" (error). |
| `BlogApp.App.HandleLogout` | src/App.jsx:54-59 | storage slot removed, no user, empty list, notification "Logged out" (success); the token and the form fields are untouched |
| `BlogApp.App.AddBlog` | src/App.jsx:61-73 | the request is the draft as given. Success appends the created blog as the last entry of the list, leaves the old entries as they were, notifies "A new blog '<title>' by <author> added" and collapses the form. Failure leaves the list unchanged and notifies "Error creating blog" (error). |
| `BlogApp.App.HandleLike` | src/App.jsx:76-92 | the update request is the like payload for the blog's id. Success replaces the entries with that id by the returned blog, carrying the old `user` summary, and changes nothing else. Failure notifies "Error liking blog". Without a `user` nothing is sent and nothing changes. |
| `BlogApp.App.HandleDelete` | src/App.jsx:93-104 | the prompt names the title and author. Declining sends nothing and changes nothing. Success filters out the id and notifies `Deleted blog "<title>"`. Failure leaves the list unchanged and notifies "Error deleting blog". |
| `BlogCard.CanRemove` | src/components/Blog.jsx:33-35 | for a signed-in viewer: true iff the blog has an owner whose username is the viewer's. Without a viewer: true iff the owner's username is absent too. |
| `BlogCard.CardFor` | src/components/Blog.jsx:17-41 | the heading is title and author. The label is "hide" iff visible and "view" iff not. The details (url, likes, owner's name) are shown iff visible. Inside them the remove button is shown iff the gate holds. |
| `BlogCard.OtherViewerNeverRemoves` | src/components/Blog.jsx:33-35 | a signed-in viewer who does not own the blog never sees the remove button, expanded or not |
| `BlogCard.BlogView.constructor` | src/components/Blog.jsx:3-4 | an entry starts collapsed |
| `BlogCard.BlogView.Render` | src/components/Blog.jsx:17-41 | the entry renders as `CardFor` its blog, viewer and disclosure state |
| `BlogCard.BlogView.ToggleVisibility` | src/components/Blog.jsx:13 | the disclosure state is negated, so two toggles restore it |
| `BlogCard.BlogView.LikeBlog` | src/components/Blog.jsx:14-29 | the like button exists only while the entry is expanded; each click hands the entry's own blog to the like handler once |
| `BlogCard.BlogView.RemoveBlog` | src/components/Blog.jsx:24-35 | the remove button exists only while the entry is expanded and the ownership gate holds; each click hands the entry's own blog to the delete handler once |
| `BlogFormState.BlogForm.constructor` | src/components/BlogForm.jsx:4-6 | all three fields start empty |
| `BlogFormState.BlogForm.SetTitle` | src/components/BlogForm.jsx:25 | only the title changes |
| `BlogFormState.BlogForm.SetAuthor` | src/components/BlogForm.jsx:35 | only the author changes |
| `BlogFormState.BlogForm.SetUrl` | src/components/BlogForm.jsx:45 | only the url changes |
| `BlogFormState.BlogForm.HandleSubmit` | src/components/BlogForm.jsx:8-14 | exactly one draft is handed on: the current title, author and url. Afterwards all three fields are empty. |

## Left out

- The blog and login services (`./services/*`) are not part of this model. Each call is a
  `Reply` parameter, and the bearer token is a field that is set but never sent anywhere.
- Browser storage is a single optional slot holding the decoded user. `JSON.stringify` and
  `JSON.parse` are not modelled, and neither is a malformed stored value (the code would
  throw in the effect).
- The 5000 ms timer that clears the notification is left out because timers are out of
  scope. The model keeps only "the notification is the latest message".
- The `notifType` state (src/App.jsx:15) is left out because it is never read.
- Stale closures and interleaved requests are left out because they are concurrency. The
  handlers capture `blogs` at render time, so two clicks in flight can lose an update. The
  model applies each handler atomically to the current state.
- `window.confirm` is the boolean parameter `confirmed`.
- `Togglable` is not part of this model. Its `toggleVisibility` call after a create is the
  `collapsed` result of `AddBlog`.
- Markup and styles are left out, including `src/components/Notification.jsx`, which only
  hides an empty message and picks a border colour.
- Likes are unbounded integers. JavaScript numbers lose precision above 2^53, which the
  model does not capture.
- A blog whose `user` is a bare id string is represented as an owner with every field
  absent. That is what the property reads (`.id`, `._id`, `.username`, `.name`) return on
  a string.
