/**
 * src/app/Admin/page.tsx: the admin panel, which switches between four
 * views and bumps a refresh counter that the dashboard and the blog list
 * refetch on.
 */
module Admin {
  import opened Common
  import opened Web
  import BlogForm
  import BlogList

  datatype AdminView = Dashboard | Categories | CreateBlog | ManageBlogs

  /** The heading above the content area. */
  function ViewTitle(view: AdminView, selectedBlog: Option<BlogList.Blog>): string {
    match view
    case Dashboard => "Dashboard"
    case Categories => "Category Management"
    case CreateBlog => if selectedBlog.Some? then "Edit Blog Post" else "Create New Blog Post"
    case ManageBlogs => "Blog Management"
  }

  /**
   * The panel hands the blog form its handler as `onSubmit`, a property the
   * form does not read; so the form always runs with no `onSuccess`, and a
   * successful save alerts but never tells the panel.
   */
  lemma BlogFormNeverNotifiesPanel(reply: Reply<BlogForm.SubmitBody>)
    ensures !BlogForm.Submit(reply, false).onSuccessCalled
    ensures reply.Ok? && reply.body.success ==> BlogForm.Submit(reply, false).alerted
  {
  }

  class AdminPanel {
    var activeView: AdminView
    var selectedBlog: Option<BlogList.Blog>
    var refreshFlag: nat

    /** The initial state: the dashboard, nothing selected, counter 0. */
    constructor ()
      ensures activeView == Dashboard && selectedBlog == None && refreshFlag == 0
    {
      activeView := Dashboard;
      selectedBlog := None;
      refreshFlag := 0;
    }

    /** `handleRefresh`. */
    method HandleRefresh()
      modifies this
      ensures refreshFlag == old(refreshFlag) + 1
      ensures activeView == old(activeView) && selectedBlog == old(selectedBlog)
    {
      refreshFlag := refreshFlag + 1;
    }

    /** `handleEditBlog`, the blog list's edit button. */
    method HandleEditBlog(blog: BlogList.Blog)
      modifies this
      ensures selectedBlog == Some(blog) && activeView == CreateBlog && refreshFlag == old(refreshFlag)
      ensures ViewTitle(activeView, selectedBlog) == "Edit Blog Post"
    {
      selectedBlog := Some(blog);
      activeView := CreateBlog;
    }

    /** `handleBlogSubmit`. */
    method HandleBlogSubmit()
      modifies this
      ensures selectedBlog == None && activeView == ManageBlogs && refreshFlag == old(refreshFlag) + 1
    {
      selectedBlog := None;
      activeView := ManageBlogs;
      HandleRefresh();
    }

    /** `handleCategoryUpdate`, the category form's `onSubmit`. */
    method HandleCategoryUpdate()
      modifies this
      ensures refreshFlag == old(refreshFlag) + 1
      ensures activeView == old(activeView) && selectedBlog == old(selectedBlog)
    {
      HandleRefresh();
    }

    /** The sidebar buttons that only switch view (dashboard, categories, manage blogs, new category). */
    method ShowView(view: AdminView)
      requires view != CreateBlog
      modifies this
      ensures activeView == view && selectedBlog == old(selectedBlog) && refreshFlag == old(refreshFlag)
    {
      activeView := view;
    }

    /** Both "create" buttons: clear the selection, then open the form. */
    method NewBlogPost()
      modifies this
      ensures selectedBlog == None && activeView == CreateBlog && refreshFlag == old(refreshFlag)
      ensures ViewTitle(activeView, selectedBlog) == "Create New Blog Post"
    {
      selectedBlog := None;
      activeView := CreateBlog;
    }

    /** The category form's `onCancel`. */
    method CancelCategoryForm()
      modifies this
      ensures activeView == Dashboard && selectedBlog == old(selectedBlog) && refreshFlag == old(refreshFlag)
    {
      activeView := Dashboard;
    }

    /** The blog form's `onCancel`. */
    method CancelBlogForm()
      modifies this
      ensures activeView == ManageBlogs && selectedBlog == old(selectedBlog) && refreshFlag == old(refreshFlag)
    {
      activeView := ManageBlogs;
    }

    /** The category form reporting back: its `onSubmit` runs `handleCategoryUpdate` once. */
    method CategoryFormDone(onSubmitCalled: bool)
      modifies this
      ensures refreshFlag == old(refreshFlag) + (if onSubmitCalled then 1 else 0)
      ensures activeView == old(activeView) && selectedBlog == old(selectedBlog)
    {
      if onSubmitCalled {
        HandleCategoryUpdate();
      }
    }

    /**
     * A save in the blog form: the form's own outcome, computed without an
     * `onSuccess`; the panel's view, selection and counter stay as they were.
     */
    method BlogFormDone(reply: Reply<BlogForm.SubmitBody>) returns (outcome: BlogForm.SubmitOutcome)
      ensures outcome == BlogForm.Submit(reply, false) && !outcome.onSuccessCalled
    {
      outcome := BlogForm.Submit(reply, false);
    }
  }
}
