/**
 * src/app/Dashboard/page.tsx: the second dashboard, which reads views and
 * likes that may be numbers, arrays or objects and normalises them.
 */
module DashboardPage {
  import opened Common
  import opened Seqs
  import opened Sorting
  import DashboardStat

  /**
   * A JSON value as `getNumericValue` tells them apart: a number, an array
   * (its length), a non-null object (its key count), or anything else
   * (null, undefined, a string, a boolean).
   */
  datatype JsonValue = Number(n: int) | Array(length: nat) | Object(keyCount: nat) | Other

  /** A post as this page reads it. */
  datatype Blog = Blog(id: string, title: string, status: string, createdAt: int, views: JsonValue, likes: JsonValue)

  datatype Stats = Stats(totalBlogs: nat, publishedBlogs: nat, draftBlogs: nat, totalCategories: nat,
                         totalUsers: nat, totalViews: int, totalLikes: int,
                         recentBlogs: seq<Blog>, recentUsers: seq<DashboardStat.User>)

  const EmptyStats := Stats(0, 0, 0, 0, 0, 0, 0, [], [])

  /** `getNumericValue`. */
  function GetNumericValue(v: JsonValue): (r: int)
    ensures !v.Number? ==> r >= 0
    ensures v.Other? ==> r == 0
  {
    match v
    case Number(n) => n
    case Array(length) => length
    case Object(keyCount) => keyCount
    case Other => 0
  }

  /** What one post adds in the `totalLikes` fold: an array's length or a number, and nothing otherwise. */
  function LikesContribution(v: JsonValue): (r: int)
    ensures !v.Number? ==> r >= 0
  {
    match v
    case Array(length) => length
    case Number(n) => n
    case _ => 0
  }

  /** The likes a recent post is shown with: `Array.isArray(likes) ? likes.length : getNumericValue(likes)`. */
  function NormalisedLikes(v: JsonValue): int {
    if v.Array? then v.length else GetNumericValue(v)
  }

  /** The array test in the recent-post likes is redundant: it computes `getNumericValue` on every value. */
  lemma NormalisedLikesIsNumericValue(v: JsonValue)
    ensures NormalisedLikes(v) == GetNumericValue(v)
  {
  }

  /**
   * The like total and the recent posts count likes differently exactly on
   * non-empty objects: the total adds nothing for them, the recent list
   * shows their key count.
   */
  lemma LikesDisagreeOnObjects(v: JsonValue)
    ensures LikesContribution(v) != NormalisedLikes(v) <==> v.Object? && v.keyCount != 0
    ensures v.Object? ==> LikesContribution(v) == 0 && NormalisedLikes(v) == v.keyCount
  {
  }

  /** `blogs.reduce((sum, blog) => sum + getNumericValue(blog.views), 0)`. */
  function TotalViews(blogs: seq<Blog>): int {
    if blogs == [] then 0 else TotalViews(blogs[..|blogs| - 1]) + GetNumericValue(blogs[|blogs| - 1].views)
  }

  /** The `totalLikes` fold. */
  function TotalLikes(blogs: seq<Blog>): int {
    if blogs == [] then 0 else TotalLikes(blogs[..|blogs| - 1]) + LikesContribution(blogs[|blogs| - 1].likes)
  }

  /** A recent post: both counts replaced by numbers, every other field kept. */
  function Normalise(b: Blog): (r: Blog)
    ensures r.views.Number? && r.likes.Number?
    ensures r.(views := b.views, likes := b.likes) == b
  {
    b.(views := Number(GetNumericValue(b.views)), likes := Number(NormalisedLikes(b.likes)))
  }

  /** Normalising changes neither count's value, and normalising again changes nothing. */
  lemma NormalisePreservesCounts(b: Blog)
    ensures GetNumericValue(Normalise(b).views) == GetNumericValue(b.views)
    ensures GetNumericValue(Normalise(b).likes) == GetNumericValue(b.likes)
    ensures Normalise(Normalise(b)) == Normalise(b)
  {
  }

  /** `.map(normalise)`. */
  function NormaliseAll(blogs: seq<Blog>): (r: seq<Blog>)
    ensures |r| == |blogs| && forall i :: 0 <= i < |blogs| ==> r[i] == Normalise(blogs[i])
  {
    if blogs == [] then [] else [Normalise(blogs[0])] + NormaliseAll(blogs[1..])
  }

  /** Normalising keeps the view total, and keeps the like total as long as no post's likes is an object. */
  lemma {:induction false} NormalisedTotals(blogs: seq<Blog>)
    ensures TotalViews(NormaliseAll(blogs)) == TotalViews(blogs)
    ensures (forall i :: 0 <= i < |blogs| ==> !blogs[i].likes.Object?) ==>
      TotalLikes(NormaliseAll(blogs)) == TotalLikes(blogs)
  {
    if blogs != [] {
      var init := blogs[..|blogs| - 1];
      NormalisedTotals(init);
      assert NormaliseAll(blogs)[..|blogs| - 1] == NormaliseAll(init);
    }
  }

  function IsPublished(b: Blog): bool { b.status == "published" }
  function IsDraft(b: Blog): bool { b.status == "draft" }
  function CreatedAt(b: Blog): int { b.createdAt }

  /** The recent posts: the first five of the sorted list, normalised, newest first. */
  lemma RecentShape(sorted: seq<Blog>)
    requires SortedDesc(sorted, CreatedAt)
    ensures |NormaliseAll(Take(sorted, 5))| <= 5
    ensures SortedDesc(NormaliseAll(Take(sorted, 5)), CreatedAt)
    ensures forall i :: 0 <= i < |NormaliseAll(Take(sorted, 5))| ==>
      NormaliseAll(Take(sorted, 5))[i] == Normalise(sorted[i])
  {
  }

  /**
   * The body of `fetchStats` once the lists have arrived. The counts and
   * totals come from the lists as fetched; both arrays are then sorted in
   * place, newest first.
   */
  method ComputeStats(blogs: array<Blog>, categories: seq<DashboardStat.Category>, users: array<DashboardStat.User>)
    returns (s: Stats)
    modifies blogs, users
    ensures s.totalBlogs == blogs.Length && s.totalCategories == |categories| && s.totalUsers == users.Length
    ensures s.publishedBlogs == |Filter(old(blogs[..]), IsPublished)|
    ensures s.draftBlogs == |Filter(old(blogs[..]), IsDraft)|
    ensures s.totalViews == TotalViews(old(blogs[..])) && s.totalLikes == TotalLikes(old(blogs[..]))
    ensures multiset(blogs[..]) == multiset(old(blogs[..])) && SortedDesc(blogs[..], CreatedAt)
    ensures multiset(users[..]) == multiset(old(users[..])) && SortedDesc(users[..], DashboardStat.LastLogin)
    ensures s.recentBlogs == NormaliseAll(Take(blogs[..], 5))
    ensures s.recentUsers == Take(users[..], 5)
  {
    var published := Filter(blogs[..], IsPublished);
    var drafts := Filter(blogs[..], IsDraft);
    var views := TotalViews(blogs[..]);
    var likes := TotalLikes(blogs[..]);
    SortDesc(blogs, CreatedAt);
    var recentBlogs := NormaliseAll(Take(blogs[..], 5));
    SortDesc(users, DashboardStat.LastLogin);
    var recentUsers := Take(users[..], 5);
    s := Stats(blogs.Length, |published|, |drafts|, |categories|, users.Length, views, likes, recentBlogs, recentUsers);
  }

  /** The page's statistics state. */
  class DashboardState {
    var stats: Stats
    var loading: bool

    constructor ()
      ensures stats == EmptyStats && loading
    {
      stats := EmptyStats;
      loading := true;
    }

    /** `fetchStats`: as in the panel, with `None` for a failed call, which keeps the previous statistics. */
    method FetchStats(lists: Option<(Option<seq<Blog>>, Option<seq<DashboardStat.Category>>, Option<seq<DashboardStat.User>>)>)
      modifies this
      ensures !loading
      ensures lists.None? ==> stats == old(stats)
      ensures lists.Some? ==>
        var blogs := lists.value.0.GetOr([]);
        && stats.totalBlogs == |blogs|
        && stats.totalCategories == |lists.value.1.GetOr([])|
        && stats.totalUsers == |lists.value.2.GetOr([])|
        && stats.publishedBlogs == |Filter(blogs, IsPublished)|
        && stats.draftBlogs == |Filter(blogs, IsDraft)|
        && stats.totalViews == TotalViews(blogs) && stats.totalLikes == TotalLikes(blogs)
        && SortedDesc(stats.recentBlogs, CreatedAt)
        && |stats.recentBlogs| == (if |blogs| < 5 then |blogs| else 5)
      ensures lists.Some? ==>
        exists recent :: IsNewestPrefix(recent, lists.value.0.GetOr([]), CreatedAt, 5) && stats.recentBlogs == NormaliseAll(recent)
      ensures lists.Some? ==> IsNewestPrefix(stats.recentUsers, lists.value.2.GetOr([]), DashboardStat.LastLogin, 5)
    {
      loading := true;
      if lists.None? {
        loading := false;
        return;
      }
      var blogs := lists.value.0.GetOr([]);
      var users := lists.value.2.GetOr([]);
      var blogArray := new Blog[|blogs|](i requires 0 <= i < |blogs| => blogs[i]);
      var userArray := new DashboardStat.User[|users|](i requires 0 <= i < |users| => users[i]);
      assert blogArray[..] == blogs && userArray[..] == users;
      var s := ComputeStats(blogArray, lists.value.1.GetOr([]), userArray);
      RecentShape(blogArray[..]);
      NewestPrefixOf(blogArray[..], blogs, CreatedAt, 5);
      NewestPrefixOf(userArray[..], users, DashboardStat.LastLogin, 5);
      stats := s;
      loading := false;
      assert stats.recentBlogs == NormaliseAll(Take(blogArray[..], 5));
    }
  }
}
