/**
 * One blog entry of the list: its disclosure toggle, its like and remove
 * buttons, and the ownership gate on the remove button.
 */
module BlogCard {
  import opened BlogTypes

  /** The part shown only while the entry is expanded. */
  datatype Details = Details(url: string, likes: int, ownerName: Option<string>, showsRemove: bool)

  /** What one entry renders. */
  datatype Card = Card(heading: string, toggleLabel: string, details: Option<Details>)

  /** `user?.username`. */
  function ViewerUsername(viewer: Option<User>): (r: Option<string>) {
    match viewer
    case None => None
    case Some(u) => Some(u.username)
  }

  /** `blog.user?.username`. */
  function OwnerUsername(blog: Blog): (r: Option<string>) {
    match blog.user
    case None => None
    case Some(owner) => owner.username
  }

  /**
   * The ownership gate `user?.username === blog.user?.username`. Both sides are
   * optional, so an absent viewer and an owner without a username compare equal.
   */
  predicate CanRemove(viewer: Option<User>, blog: Blog)
    ensures viewer.Some? ==>
              (CanRemove(viewer, blog) <==> blog.user.Some? && blog.user.value.username == Some(viewer.value.username))
    ensures viewer.None? ==>
              (CanRemove(viewer, blog) <==> blog.user.None? || blog.user.value.username.None?)
  {
    ViewerUsername(viewer) == OwnerUsername(blog)
  }

  /** The rendering of `blog` for `viewer` with the disclosure state `visible`. */
  function CardFor(blog: Blog, viewer: Option<User>, visible: bool): (c: Card)
    ensures c.heading == blog.title + " " + blog.author
    ensures c.toggleLabel == "hide" <==> visible
    ensures c.toggleLabel == "view" <==> !visible
    ensures c.details.Some? <==> visible
    ensures c.details.Some? ==> c.details.value.url == blog.url && c.details.value.likes == blog.likes
    ensures c.details.Some? ==> c.details.value.ownerName == OwnerDisplayName(blog)
    ensures c.details.Some? ==> (c.details.value.showsRemove <==> CanRemove(viewer, blog))
  {
    Card(blog.title + " " + blog.author,
         if visible then "hide" else "view",
         if visible then Some(Details(blog.url, blog.likes, OwnerDisplayName(blog), CanRemove(viewer, blog))) else None)
  }

  /** `blog.user?.name`. */
  function OwnerDisplayName(blog: Blog): (r: Option<string>) {
    match blog.user
    case None => None
    case Some(owner) => owner.name
  }

  /** A signed-in viewer who is not the owner never gets the remove button, expanded or not. */
  lemma OtherViewerNeverRemoves(blog: Blog, viewer: User, visible: bool)
    requires OwnerUsername(blog) != Some(viewer.username)
    ensures CardFor(blog, Some(viewer), visible).details.None?
            || !CardFor(blog, Some(viewer), visible).details.value.showsRemove
  {
  }

  /** The state one entry keeps: whether its details are expanded. */
  class BlogView {
    const blog: Blog
    const viewer: Option<User>
    var visible: bool

    constructor (blog: Blog, viewer: Option<User>)
      ensures this.blog == blog && this.viewer == viewer
      ensures !visible
    {
      this.blog := blog;
      this.viewer := viewer;
      visible := false;
    }

    function Render(): (c: Card)
      reads this
      ensures c == CardFor(blog, viewer, visible)
    {
      CardFor(blog, viewer, visible)
    }

    /** The view/hide button; two clicks restore the previous state. */
    method ToggleVisibility()
      modifies this
      ensures visible == !old(visible)
    {
      visible := !visible;
    }

    /**
     * The like button, which exists only in the expanded details: one click
     * hands this entry's blog to the like handler once.
     */
    method LikeBlog() returns (liked: Blog)
      requires visible
      ensures liked == blog
    {
      liked := blog;
    }

    /**
     * The remove button, which exists only in the expanded details and only
     * when the ownership gate holds: one click hands this entry's blog to the
     * delete handler once.
     */
    method RemoveBlog() returns (removed: Blog)
      requires visible && CanRemove(viewer, blog)
      ensures removed == blog
    {
      removed := blog;
    }
  }
}
