/** The creation form: three text fields and a submit that hands them on and clears them. */
module BlogFormState {
  import opened BlogTypes

  class BlogForm {
    var title: string
    var author: string
    var url: string

    /** The fields as the next submit would send them. */
    function Pending(): (d: Draft)
      reads this
    {
      Draft(title, author, url)
    }

    constructor ()
      ensures Pending() == Draft("", "", "")
    {
      title := "";
      author := "";
      url := "";
    }

    /** The title input's change handler. */
    method SetTitle(value: string)
      modifies this
      ensures Pending() == old(Pending()).(title := value)
    {
      title := value;
    }

    /** The author input's change handler. */
    method SetAuthor(value: string)
      modifies this
      ensures Pending() == old(Pending()).(author := value)
    {
      author := value;
    }

    /** The url input's change handler. */
    method SetUrl(value: string)
      modifies this
      ensures Pending() == old(Pending()).(url := value)
    {
      url := value;
    }

    /**
     * Submit: `sent` is the one object handed to `createBlog`, exactly the
     * three current fields; afterwards every field is empty again.
     */
    method HandleSubmit() returns (sent: Draft)
      modifies this
      ensures sent == old(Pending())
      ensures Pending() == Draft("", "", "")
    {
      sent := Draft(title, author, url);
      title := "";
      author := "";
      url := "";
    }
  }
}
