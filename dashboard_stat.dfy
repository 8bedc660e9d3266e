/**
 * src/app/components/DashboardStat.tsx: the admin dashboard's statistics,
 * computed from the post, category and user lists: counts, view and like
 * totals, and the five newest posts and users after an in-place sort.
 */
module DashboardStat {
  import opened Common
  import opened Seqs
  import opened Sorting

  /** A post as the statistics read it; `createdAt` is a timestamp, a missing count is `None`. */
  datatype Blog = Blog(id: string, title: string, status: string, createdAt: int, views: Option<int>, likes: Option<int>)

  datatype Category = Category(id: string, name: string)

  /** A user as the statistics read it; `lastLogin` is a timestamp. */
  datatype User = User(id: string, username: string, email: string, lastLogin: int)

  datatype Stats = Stats(totalBlogs: nat, publishedBlogs: nat, draftBlogs: nat, totalCategories: nat,
                         totalUsers: nat, totalViews: int, totalLikes: int,
                         recentBlogs: seq<Blog>, recentUsers: seq<User>)

  const EmptyStats := Stats(0, 0, 0, 0, 0, 0, 0, [], [])

  /** How many posts and users the dashboard lists as recent. */
  const RecentCount := 5

  function IsPublished(b: Blog): bool { b.status == "published" }
  function IsDraft(b: Blog): bool { b.status == "draft" }

  /** `blogs.reduce((sum, blog) => sum + (blog.views || 0), 0)`. */
  function TotalViews(blogs: seq<Blog>): int {
    if blogs == [] then 0 else TotalViews(blogs[..|blogs| - 1]) + blogs[|blogs| - 1].views.GetOr(0)
  }

  /** The same fold over `likes`. */
  function TotalLikes(blogs: seq<Blog>): int {
    if blogs == [] then 0 else TotalLikes(blogs[..|blogs| - 1]) + blogs[|blogs| - 1].likes.GetOr(0)
  }

  function CreatedAt(b: Blog): int { b.createdAt }
  function LastLogin(u: User): int { u.lastLogin }

  /** The totals do not depend on the order of the posts, so sorting before or after summing agrees. */
  lemma {:induction false} TotalsOfPermutation(xs: seq<Blog>, ys: seq<Blog>)
    requires multiset(xs) == multiset(ys)
    ensures TotalViews(xs) == TotalViews(ys) && TotalLikes(xs) == TotalLikes(ys)
    decreases |xs|
  {
    if xs != [] {
      var last := xs[|xs| - 1];
      assert xs == xs[..|xs| - 1] + [last];
      assert last in multiset(ys);
      var k :| 0 <= k < |ys| && ys[k] == last;
      var rest := ys[..k] + ys[k + 1..];
      assert ys == ys[..k] + [last] + ys[k + 1..];
      assert multiset(xs) == multiset(xs[..|xs| - 1]) + multiset{last};
      assert multiset(ys) == multiset(rest) + multiset{last};
      assert multiset(xs[..|xs| - 1]) == multiset(xs) - multiset{last};
      assert multiset(rest) == multiset(ys) - multiset{last};
      TotalsOfPermutation(xs[..|xs| - 1], rest);
      TotalsRemove(ys, k);
    }
  }

  /** Removing one post takes its counts off the totals. */
  lemma {:induction false} TotalsRemove(ys: seq<Blog>, k: int)
    requires 0 <= k < |ys|
    ensures TotalViews(ys) == TotalViews(ys[..k] + ys[k + 1..]) + ys[k].views.GetOr(0)
    ensures TotalLikes(ys) == TotalLikes(ys[..k] + ys[k + 1..]) + ys[k].likes.GetOr(0)
    decreases |ys|
  {
    var init := ys[..|ys| - 1];
    if k == |ys| - 1 {
      assert ys[..k] + ys[k + 1..] == init;
    } else {
      TotalsRemove(init, k);
      assert init[..k] + init[k + 1..] == (ys[..k] + ys[k + 1..])[..|ys| - 2];
      assert (ys[..k] + ys[k + 1..])[|ys| - 2] == ys[|ys| - 1];
    }
  }

  /** With no counts below zero, the totals are not negative. */
  lemma {:induction false} TotalsNonNegative(blogs: seq<Blog>)
    requires forall i :: 0 <= i < |blogs| ==> blogs[i].views.GetOr(0) >= 0 && blogs[i].likes.GetOr(0) >= 0
    ensures TotalViews(blogs) >= 0 && TotalLikes(blogs) >= 0
  {
    if blogs != [] {
      TotalsNonNegative(blogs[..|blogs| - 1]);
    }
  }

  /**
   * Published and draft posts never overlap, so together they number at
   * most all posts, and exactly all when every status is one of the two.
   */
  lemma StatusCounts(blogs: seq<Blog>)
    ensures |Filter(blogs, IsPublished)| + |Filter(blogs, IsDraft)| <= |blogs|
    ensures (forall i :: 0 <= i < |blogs| ==> blogs[i].status in {"published", "draft"}) ==>
      |Filter(blogs, IsPublished)| + |Filter(blogs, IsDraft)| == |blogs|
  {
    FilterDisjointLength(blogs, IsPublished, IsDraft);
  }

  /**
   * The body of `fetchStats` once the three lists have arrived: counts and
   * totals from the lists as fetched, then each array sorted newest first in
   * place and its first five items taken.
   */
  method ComputeStats(blogs: array<Blog>, categories: seq<Category>, users: array<User>) returns (s: Stats)
    modifies blogs, users
    ensures s.totalBlogs == blogs.Length && s.totalCategories == |categories| && s.totalUsers == users.Length
    ensures s.publishedBlogs == |Filter(old(blogs[..]), IsPublished)|
    ensures s.draftBlogs == |Filter(old(blogs[..]), IsDraft)|
    ensures s.totalViews == TotalViews(old(blogs[..])) && s.totalLikes == TotalLikes(old(blogs[..]))
    ensures multiset(blogs[..]) == multiset(old(blogs[..])) && SortedDesc(blogs[..], CreatedAt)
    ensures multiset(users[..]) == multiset(old(users[..])) && SortedDesc(users[..], LastLogin)
    ensures s.recentBlogs == Take(blogs[..], RecentCount)
    ensures s.recentUsers == Take(users[..], RecentCount)
  {
    var published := Filter(blogs[..], IsPublished);
    var drafts := Filter(blogs[..], IsDraft);
    var views := TotalViews(blogs[..]);
    var likes := TotalLikes(blogs[..]);
    SortDesc(blogs, CreatedAt);
    var recentBlogs := Take(blogs[..], RecentCount);
    SortDesc(users, LastLogin);
    var recentUsers := Take(users[..], RecentCount);
    s := Stats(blogs.Length, |published|, |drafts|, |categories|, users.Length, views, likes, recentBlogs, recentUsers);
  }

  /** The recent list of a sorted list: at most five posts, newest first, all taken from the list. */
  lemma RecentShape(sorted: seq<Blog>)
    requires SortedDesc(sorted, CreatedAt)
    ensures |Take(sorted, RecentCount)| <= RecentCount
    ensures SortedDesc(Take(sorted, RecentCount), CreatedAt)
    ensures multiset(Take(sorted, RecentCount)) <= multiset(sorted)
  {
    if |sorted| > RecentCount {
      assert sorted == sorted[..RecentCount] + sorted[RecentCount..];
    }
  }

  /** No post left out of the recent list is newer than one shown. */
  lemma RecentAreNewest(sorted: seq<Blog>, x: Blog, y: Blog)
    requires SortedDesc(sorted, CreatedAt)
    requires x in Take(sorted, RecentCount) && y in sorted && y !in Take(sorted, RecentCount)
    ensures x.createdAt >= y.createdAt
  {
    assert |sorted| > RecentCount;
    assert sorted == sorted[..RecentCount] + sorted[RecentCount..];
    assert y in sorted[RecentCount..];
    PrefixIsNewest(sorted, CreatedAt, RecentCount, x, y);
  }

  /** The dashboard panel's state. */
  class StatsPanel {
    var stats: Stats
    var loading: bool

    constructor ()
      ensures stats == EmptyStats && loading
    {
      stats := EmptyStats;
      loading := true;
    }

    /**
     * `fetchStats`: `lists` holds each reply's `data.data` (`None` when
     * absent, read as `[]`), or is `None` when one of the three calls
     * failed, which keeps the previous statistics.
     */
    method FetchStats(lists: Option<(Option<seq<Blog>>, Option<seq<Category>>, Option<seq<User>>)>)
      modifies this
      ensures !loading
      ensures lists.None? ==> stats == old(stats)
      ensures lists.Some? ==>
        var blogs := lists.value.0.GetOr([]);
        && stats.totalBlogs == |blogs|
        && stats.totalCategories == |lists.value.1.GetOr([])|
        && stats.totalUsers == |lists.value.2.GetOr([])|
        && stats.publishedBlogs == |Filter(blogs, IsPublished)|
        && stats.draftBlogs == |Filter(blogs, IsDraft)|
        && stats.totalViews == TotalViews(blogs) && stats.totalLikes == TotalLikes(blogs)
        && |stats.recentBlogs| == (if |blogs| < RecentCount then |blogs| else RecentCount)
        && SortedDesc(stats.recentBlogs, CreatedAt)
        && multiset(stats.recentBlogs) <= multiset(blogs)
      ensures lists.Some? ==> IsNewestPrefix(stats.recentBlogs, lists.value.0.GetOr([]), CreatedAt, RecentCount)
      ensures lists.Some? ==> IsNewestPrefix(stats.recentUsers, lists.value.2.GetOr([]), LastLogin, RecentCount)
    {
      loading := true;
      if lists.None? {
        loading := false;
        return;
      }
      var blogs := lists.value.0.GetOr([]);
      var users := lists.value.2.GetOr([]);
      var blogArray := new Blog[|blogs|](i requires 0 <= i < |blogs| => blogs[i]);
      var userArray := new User[|users|](i requires 0 <= i < |users| => users[i]);
      assert blogArray[..] == blogs && userArray[..] == users;
      var s := ComputeStats(blogArray, lists.value.1.GetOr([]), userArray);
      RecentShape(blogArray[..]);
      NewestPrefixOf(blogArray[..], blogs, CreatedAt, RecentCount);
      NewestPrefixOf(userArray[..], users, LastLogin, RecentCount);
      stats := s;
      loading := false;
    }
  }
}
