/**
 * src/app/components/Bloglist.tsx: the admin's list of posts, with a status
 * filter and a delete button.
 */
module BlogList {
  import opened Common
  import opened Web
  import opened Seqs

  /** The fields of a listed post that the list logic reads. */
  datatype Blog = Blog(id: string, title: string, status: string)

  /** The initial filter, which shows every post. */
  const AllFilter := "all"

  /** The list endpoint's body: its `data` array, if any. */
  datatype ListBody = ListBody(data: Option<seq<Blog>>)

  function HasStatus(filter: string): Blog -> bool {
    (b: Blog) => filter == AllFilter || b.status == filter
  }

  /** `filteredBlogs`. */
  function FilteredBlogs(blogs: seq<Blog>, filter: string): seq<Blog> {
    Filter(blogs, HasStatus(filter))
  }

  /** The 'all' filter shows every post, in order. */
  lemma AllShowsEverything(blogs: seq<Blog>)
    ensures FilteredBlogs(blogs, AllFilter) == blogs
  {
    FilterKeepsAll(blogs, HasStatus(AllFilter));
  }

  /**
   * Any other filter shows exactly the posts with that status, each as
   * often as in the list, in list order.
   */
  lemma FilterShowsStatus(blogs: seq<Blog>, filter: string, b: Blog)
    requires filter != AllFilter
    ensures b in FilteredBlogs(blogs, filter) <==> b in blogs && b.status == filter
    ensures b.status == filter ==> multiset(FilteredBlogs(blogs, filter))[b] == multiset(blogs)[b]
    ensures IsSubsequence(FilteredBlogs(blogs, filter), blogs)
  {
    FilterMembers(blogs, HasStatus(filter), b);
    FilterMultiset(blogs, HasStatus(filter), b);
    FilterIsSubsequence(blogs, HasStatus(filter));
  }

  function NotId(id: string): Blog -> bool {
    (b: Blog) => b.id != id
  }

  /** The list after a delete of `id` succeeded: every post with another id, in order. */
  function WithoutId(blogs: seq<Blog>, id: string): seq<Blog> {
    Filter(blogs, NotId(id))
  }

  /** A delete removes every post with that id and keeps the rest in order. */
  lemma DeleteRemovesOnlyId(blogs: seq<Blog>, id: string, b: Blog)
    ensures b in WithoutId(blogs, id) <==> b in blogs && b.id != id
    ensures b.id != id ==> multiset(WithoutId(blogs, id))[b] == multiset(blogs)[b]
    ensures IsSubsequence(WithoutId(blogs, id), blogs)
  {
    FilterMembers(blogs, NotId(id), b);
    FilterMultiset(blogs, NotId(id), b);
    FilterIsSubsequence(blogs, NotId(id));
  }

  /** Deleting an id that is not listed leaves the list as it is. */
  lemma DeleteAbsentId(blogs: seq<Blog>, id: string)
    requires forall i :: 0 <= i < |blogs| ==> blogs[i].id != id
    ensures WithoutId(blogs, id) == blogs
  {
    FilterKeepsAll(blogs, NotId(id));
  }

  const DeleteFailedAlert := "Error deleting blog post"

  class BlogListState {
    var blogs: seq<Blog>
    var loading: bool
    var filter: string

    /** First render: no posts, loading, the 'all' filter. */
    constructor ()
      ensures blogs == [] && loading && filter == AllFilter
    {
      blogs := [];
      loading := true;
      filter := AllFilter;
    }

    /**
     * `fetchBlogs`, run on mount and whenever the refresh flag changes: the
     * body's `data` or an empty list, whatever the status; a failed call or
     * unreadable body keeps the list.
     */
    method FetchBlogs(reply: FetchReply<ListBody>)
      modifies this
      ensures !loading && filter == old(filter)
      ensures reply.Response? && reply.json.Some? ==> blogs == reply.json.value.data.GetOr([])
      ensures reply.Unreachable? || reply.json.None? ==> blogs == old(blogs)
    {
      loading := true;
      if reply.Response? && reply.json.Some? {
        blogs := reply.json.value.data.GetOr([]);
      }
      loading := false;
    }

    /** The status dropdown. */
    method SetFilter(f: string)
      modifies this
      ensures filter == f && blogs == old(blogs) && loading == old(loading)
    {
      filter := f;
    }

    /**
     * `handleDelete(id)`: nothing unless confirmed; then an ok status drops
     * the post and anything else (a failure status or a throw, `None`)
     * alerts and keeps the list.
     */
    method HandleDelete(id: string, confirmed: bool, status: Option<nat>) returns (requested: bool, alerted: bool)
      modifies this
      ensures requested == confirmed
      ensures alerted <==> confirmed && !(status.Some? && IsOkStatus(status.value))
      ensures blogs == if confirmed && status.Some? && IsOkStatus(status.value) then WithoutId(old(blogs), id) else old(blogs)
      ensures filter == old(filter) && loading == old(loading)
    {
      requested := false;
      alerted := false;
      if !confirmed {
        return;
      }
      requested := true;
      if status.Some? && IsOkStatus(status.value) {
        blogs := WithoutId(blogs, id);
      } else {
        alerted := true;
      }
    }

    /** The posts the table shows. */
    function Shown(): seq<Blog>
      reads this
    {
      FilteredBlogs(blogs, filter)
    }
  }
}
