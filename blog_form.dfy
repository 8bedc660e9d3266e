/**
 * src/app/components/Blogform.tsx: slug generation from the title, the
 * subcategory choices, the `blogSchema` bounds, the multipart payload and
 * the outcome of a submit.
 */
module BlogForm {
  import opened Common
  import opened JsString
  import opened Web
  import CategoryTree

  // ---------------------------------------------------------------- slugs

  /** `\w` without the `u` flag: an ASCII letter, digit or `_`. */
  predicate IsWordChar(c: char) {
    ('a' <= c <= 'z') || ('A' <= c <= 'Z') || IsDigit(c) || c == '_'
  }

  /** A character of the class `[\s_-]`. */
  predicate IsSeparator(c: char) {
    IsSpace(c) || c == '_' || c == '-'
  }

  /** A character `^[a-z0-9-]+$` admits. */
  predicate IsSlugChar(c: char) {
    ('a' <= c <= 'z') || IsDigit(c) || c == '-'
  }

  /** Only slug characters. */
  predicate SlugChars(s: string) {
    forall i :: 0 <= i < |s| ==> IsSlugChar(s[i])
  }

  /** No `--` anywhere. */
  predicate NoDoubleDash(s: string) {
    forall i :: 0 <= i < |s| - 1 ==> !(s[i] == '-' && s[i + 1] == '-')
  }

  /** What the slug generator promises: slug characters only, no `-` at either end, no `--`. */
  predicate IsCleanSlug(s: string) {
    && SlugChars(s)
    && NoDoubleDash(s)
    && (s == [] || (s[0] != '-' && s[|s| - 1] != '-'))
  }

  /** `.replace(/[^\w\s-]/g, '')`. */
  function RemoveDisallowed(s: string): (r: string)
    ensures forall i :: 0 <= i < |r| ==> IsWordChar(r[i]) || IsSpace(r[i]) || r[i] == '-'
    ensures NoUpper(s) ==> NoUpper(r)
  {
    if s == [] then []
    else (if IsWordChar(s[0]) || IsSpace(s[0]) || s[0] == '-' then [s[0]] else []) + RemoveDisallowed(s[1..])
  }

  /** The rest of `s` after its leading run of `[\s_-]`. */
  function DropSeparators(s: string): (r: string)
    ensures |r| <= |s|
    ensures r == [] || !IsSeparator(r[0])
    ensures s != [] && IsSeparator(s[0]) ==> |r| < |s|
    decreases |s|
  {
    if s != [] && IsSeparator(s[0]) then DropSeparators(s[1..]) else s
  }

  /** `.replace(/[\s_-]+/g, '-')`: every maximal run of separators becomes one `-`. */
  function CollapseSeparators(s: string): (r: string)
    decreases |s|
  {
    if s == [] then []
    else if IsSeparator(s[0]) then "-" + CollapseSeparators(DropSeparators(s))
    else [s[0]] + CollapseSeparators(s[1..])
  }

  /** The leading run of `-` removed (the `^-+` half of the last replace). */
  function DropLeadingDashes(s: string): (r: string)
    ensures |r| <= |s|
    ensures r == [] || r[0] != '-'
    decreases |s|
  {
    if s != [] && s[0] == '-' then DropLeadingDashes(s[1..]) else s
  }

  /** The trailing run of `-` removed (the `-+$` half). */
  function DropTrailingDashes(s: string): (r: string)
    ensures |r| <= |s|
    ensures r == [] || r[|r| - 1] != '-'
    decreases |s|
  {
    if s != [] && s[|s| - 1] == '-' then DropTrailingDashes(s[..|s| - 1]) else s
  }

  /** The slug the title effect writes: lower-case, trim, drop, collapse, strip. */
  function GenerateSlug(title: string): string {
    DropTrailingDashes(DropLeadingDashes(CollapseSeparators(RemoveDisallowed(Trim(ToLower(title))))))
  }

  lemma {:induction false} DropSeparatorsIsSuffix(s: string)
    ensures DropSeparators(s) == s[|s| - |DropSeparators(s)|..]
    decreases |s|
  {
    if s != [] && IsSeparator(s[0]) {
      DropSeparatorsIsSuffix(s[1..]);
    }
  }

  lemma {:induction false} DropLeadingDashesIsSuffix(s: string)
    ensures DropLeadingDashes(s) == s[|s| - |DropLeadingDashes(s)|..]
    decreases |s|
  {
    if s != [] && s[0] == '-' {
      DropLeadingDashesIsSuffix(s[1..]);
    }
  }

  lemma {:induction false} DropTrailingDashesIsPrefix(s: string)
    ensures DropTrailingDashes(s) == s[..|DropTrailingDashes(s)|]
    decreases |s|
  {
    if s != [] && s[|s| - 1] == '-' {
      DropTrailingDashesIsPrefix(s[..|s| - 1]);
    }
  }

  /** Collapsing a string of slug characters and separators leaves slug characters with no `--`, starting as follows. */
  lemma {:induction false} CollapseShape(s: string)
    requires forall i :: 0 <= i < |s| ==> IsSlugChar(s[i]) || IsSeparator(s[i])
    ensures var r := CollapseSeparators(s);
            && SlugChars(r)
            && NoDoubleDash(r)
            && (s != [] && !IsSeparator(s[0]) ==> r != [] && r[0] == s[0])
    decreases |s|
  {
    if s != [] {
      if IsSeparator(s[0]) {
        var t := DropSeparators(s);
        DropSeparatorsIsSuffix(s);
        assert forall i :: 0 <= i < |t| ==> t[i] == s[|s| - |t| + i];
        CollapseShape(t);
      } else {
        CollapseShape(s[1..]);
        assert s[0] != '-';
      }
    }
  }

  /** After lower-casing, dropping disallowed characters leaves slug characters and separators only. */
  lemma DisallowedDroppedShape(t: string)
    requires NoUpper(t)
    ensures forall i :: 0 <= i < |RemoveDisallowed(t)| ==> IsSlugChar(RemoveDisallowed(t)[i]) || IsSeparator(RemoveDisallowed(t)[i])
  {
    var d := RemoveDisallowed(t);
    forall i | 0 <= i < |d| ensures IsSlugChar(d[i]) || IsSeparator(d[i]) {
      assert !IsUpperAscii(d[i]);
    }
  }

  /** A piece of a string of slug characters without `--` is one too. */
  lemma SliceShape(c: string, a: nat, b: nat)
    requires a <= b <= |c|
    requires SlugChars(c) && NoDoubleDash(c)
    ensures SlugChars(c[a..b]) && NoDoubleDash(c[a..b])
  {
    var r := c[a..b];
    assert SlugChars(r) by {
      forall i | 0 <= i < |r| ensures IsSlugChar(r[i]) {
        assert r[i] == c[a + i];
      }
    }
    forall i | 0 <= i < |r| - 1 ensures !(r[i] == '-' && r[i + 1] == '-') {
      assert r[i] == c[a + i] && r[i + 1] == c[a + i + 1];
    }
  }

  /** Stripping the dashes at both ends of a string of slug characters without `--` leaves a clean slug. */
  lemma StripShape(c: string)
    requires SlugChars(c) && NoDoubleDash(c)
    ensures IsCleanSlug(DropTrailingDashes(DropLeadingDashes(c)))
  {
    var l := DropLeadingDashes(c);
    DropLeadingDashesIsSuffix(c);
    SliceShape(c, |c| - |l|, |c|);
    assert l == c[|c| - |l|..|c|];
    var r := DropTrailingDashes(l);
    DropTrailingDashesIsPrefix(l);
    SliceShape(l, 0, |r|);
    assert r == l[0..|r|];
    assert r == [] || (r[0] == l[0] && l[0] != '-');
    assert r == [] || r[|r| - 1] != '-';
  }

  /** For any title, the generated slug is clean. */
  lemma GeneratedSlugIsClean(title: string)
    ensures IsCleanSlug(GenerateSlug(title))
  {
    var t := Trim(ToLower(title));
    TrimKeepsNoUpper(ToLower(title));
    DisallowedDroppedShape(t);
    CollapseShape(RemoveDisallowed(t));
    StripShape(CollapseSeparators(RemoveDisallowed(t)));
  }

  lemma {:induction false} RemoveDisallowedKeepsSlug(s: string)
    requires SlugChars(s)
    ensures RemoveDisallowed(s) == s
  {
    if s != [] {
      RemoveDisallowedKeepsSlug(s[1..]);
    }
  }

  lemma {:induction false} CollapseKeepsSlug(s: string)
    requires SlugChars(s)
    requires NoDoubleDash(s)
    ensures CollapseSeparators(s) == s
    decreases |s|
  {
    if s != [] {
      if IsSeparator(s[0]) {
        assert s[0] == '-';
        assert DropSeparators(s) == s[1..] by {
          assert s[1..] == [] || !IsSeparator(s[1..][0]);
        }
      }
      CollapseKeepsSlug(s[1..]);
    }
  }

  /** A clean slug is its own slug. */
  lemma CleanSlugIsFixed(s: string)
    requires IsCleanSlug(s)
    ensures GenerateSlug(s) == s
  {
    assert NoUpper(s) by {
      forall i | 0 <= i < |s| ensures !IsUpperAscii(s[i]) {
        assert IsSlugChar(s[i]);
      }
    }
    ToLowerOfLower(s);
    assert IsTrimmed(s) by {
      if s != [] {
        assert IsSlugChar(s[0]) && IsSlugChar(s[|s| - 1]);
      }
    }
    TrimOfTrimmed(s);
    RemoveDisallowedKeepsSlug(s);
    CollapseKeepsSlug(s);
    assert DropLeadingDashes(s) == s;
    assert DropTrailingDashes(s) == s;
  }

  /** Generating a slug from a generated slug gives it back unchanged. */
  lemma SlugIdempotent(title: string)
    ensures GenerateSlug(GenerateSlug(title)) == GenerateSlug(title)
  {
    GeneratedSlugIsClean(title);
    CleanSlugIsFixed(GenerateSlug(title));
  }

  /**
   * The slug effect fires only for a non-empty title, a slug field never
   * focused and a new post (no `blog` being edited).
   */
  predicate ShouldGenerateSlug(title: string, isSlugManual: bool, editing: bool) {
    title != "" && !isSlugManual && !editing
  }

  /** The slug after the title becomes `title`: regenerated when the effect fires, kept otherwise. */
  function SlugAfterTitle(title: string, isSlugManual: bool, editing: bool, current: string): string {
    if ShouldGenerateSlug(title, isSlugManual, editing) then GenerateSlug(title) else current
  }

  // ---------------------------------------------------------------- subcategories

  /** The index of the first category in `cats` whose `_id` is `id` (`cats.find`), if any. */
  function FirstWithId(cats: seq<CategoryTree.Category>, id: string): (r: Option<nat>)
    ensures r.Some? ==> r.value < |cats| && cats[r.value].id == id
    ensures r.Some? ==> forall j :: 0 <= j < r.value ==> cats[j].id != id
    ensures r.None? ==> forall j :: 0 <= j < |cats| ==> cats[j].id != id
  {
    if cats == [] then None
    else if cats[0].id == id then Some(0)
    else match FirstWithId(cats[1..], id)
      case None => None
      case Some(k) => Some(k + 1)
  }

  /**
   * The subcategory options for the selected category: the subcategories of
   * the first top-level category with that `_id`, or none. Only top-level
   * categories are searched.
   */
  function AvailableSubcategories(cats: seq<CategoryTree.Category>, selected: string): (r: seq<CategoryTree.Category>)
    ensures selected == "" ==> r == []
    ensures r != [] ==> exists i :: 0 <= i < |cats| && cats[i].id == selected && r == cats[i].subcategories
    ensures (forall i :: 0 <= i < |cats| ==> cats[i].id != selected) ==> r == []
    ensures selected != "" && FirstWithId(cats, selected).Some? ==> r == cats[FirstWithId(cats, selected).value].subcategories
  {
    if selected != "" && |cats| > 0 then
      match FirstWithId(cats, selected)
      case Some(i) => if |cats[i].subcategories| > 0 then cats[i].subcategories else []
      case None => []
    else []
  }

  // ---------------------------------------------------------------- schema

  /** A chosen image file: its size in bytes and its MIME type. */
  datatype ImageFile = ImageFile(size: nat, mimeType: string)

  /** The form's values as `handleSubmit` receives them; `image` None is an empty file list. */
  datatype BlogFields = BlogFields(title: string, slug: string, content: string, excerpt: string,
                                   category: string, subcategory: string, tags: string,
                                   image: Option<ImageFile>)

  const MaxImageBytes: nat := 5 * 1024 * 1024
  const ImageTypes: seq<string> := ["image/jpeg", "image/jpg", "image/png", "image/gif", "image/webp"]

  /** The message for the first failing check of a string's length bounds, in declaration order. */
  function LengthError(s: string, min: nat, max: nat, tooShort: string, tooLong: string): (e: Option<string>)
    ensures e == None <==> min <= |s| <= max
    ensures |s| < min ==> e == Some(tooShort)
    ensures min <= |s| && max < |s| ==> e == Some(tooLong)
  {
    if |s| < min then Some(tooShort) else if |s| > max then Some(tooLong) else None
  }

  function TitleError(t: string): Option<string> {
    LengthError(t, 5, 100, "Title must be at least 5 characters", "Title must be less than 100 characters")
  }

  function SlugError(s: string): Option<string> {
    match LengthError(s, 3, 100, "Slug must be at least 3 characters", "Slug must be less than 100 characters")
    case Some(m) => Some(m)
    case None =>
      if SlugChars(s) then None
      else Some("Slug can only contain lowercase letters, numbers, and hyphens")
  }

  function ContentError(c: string): Option<string> {
    LengthError(c, 5, 10000, "Content must be at least 5 characters", "Content must be less than 10000 characters")
  }

  function ExcerptError(x: string): Option<string> {
    if |x| > 200 then Some("Excerpt must be less than 200 characters") else None
  }

  function CategoryError(c: string): Option<string> {
    if |c| < 1 then Some("Please select a category") else None
  }

  function TagsError(t: string): Option<string> {
    if |t| > 200 then Some("Tags must be less than 200 characters") else None
  }

  function ImageError(img: Option<ImageFile>): Option<string> {
    match img
    case None => None
    case Some(f) =>
      if f.size > MaxImageBytes then Some("Image must be less than 5MB")
      else if f.mimeType !in ImageTypes then Some("Only JPEG, PNG, GIF, and WebP images are allowed")
      else None
  }

  /** Adds `field -> message` when there is a message. */
  function WithError(errors: map<string, string>, field: string, e: Option<string>): map<string, string> {
    if e.Some? then errors[field := e.value] else errors
  }

  lemma WithErrorKeys(errors: map<string, string>, field: string, e: Option<string>)
    ensures WithError(errors, field, e) == map[] <==> errors == map[] && e.None?
  {
    if e.Some? {
      assert field in WithError(errors, field, e);
    }
  }

  /** The error shown under each field: the first failing check's message, per field. */
  function Errors(f: BlogFields): map<string, string> {
    var e := WithError(map[], "title", TitleError(f.title));
    var e := WithError(e, "slug", SlugError(f.slug));
    var e := WithError(e, "content", ContentError(f.content));
    var e := WithError(e, "excerpt", ExcerptError(f.excerpt));
    var e := WithError(e, "category", CategoryError(f.category));
    var e := WithError(e, "tags", TagsError(f.tags));
    WithError(e, "featuredImage", ImageError(f.image))
  }

  /** The bounds `blogSchema` states, written out. */
  predicate WithinSchema(f: BlogFields) {
    && 5 <= |f.title| <= 100
    && 3 <= |f.slug| <= 100 && SlugChars(f.slug)
    && 5 <= |f.content| <= 10000
    && |f.excerpt| <= 200
    && |f.category| >= 1
    && |f.tags| <= 200
    && (f.image.Some? ==> f.image.value.size <= MaxImageBytes && f.image.value.mimeType in ImageTypes)
  }

  /** The form submits (no field has an error) exactly when the values are within the schema's bounds. */
  lemma ErrorsEmptyIffWithinSchema(f: BlogFields)
    ensures Errors(f) == map[] <==> WithinSchema(f)
  {
    var e1 := WithError(map[], "title", TitleError(f.title));
    var e2 := WithError(e1, "slug", SlugError(f.slug));
    var e3 := WithError(e2, "content", ContentError(f.content));
    var e4 := WithError(e3, "excerpt", ExcerptError(f.excerpt));
    var e5 := WithError(e4, "category", CategoryError(f.category));
    var e6 := WithError(e5, "tags", TagsError(f.tags));
    var e7 := WithError(e6, "featuredImage", ImageError(f.image));
    assert Errors(f) == e7;
    WithErrorKeys(map[], "title", TitleError(f.title));
    WithErrorKeys(e1, "slug", SlugError(f.slug));
    WithErrorKeys(e2, "content", ContentError(f.content));
    WithErrorKeys(e3, "excerpt", ExcerptError(f.excerpt));
    WithErrorKeys(e4, "category", CategoryError(f.category));
    WithErrorKeys(e5, "tags", TagsError(f.tags));
    WithErrorKeys(e6, "featuredImage", ImageError(f.image));
  }

  /** A generated slug passes the slug checks exactly when its length is 3 to 100. */
  lemma GeneratedSlugSchema(title: string)
    ensures SlugError(GenerateSlug(title)) == None <==> 3 <= |GenerateSlug(title)| <= 100
  {
    GeneratedSlugIsClean(title);
  }

  // ---------------------------------------------------------------- payload

  /** A multipart entry's value. */
  datatype FormValue = Text(text: string) | File(file: ImageFile)

  /** The payload's entry names. */
  datatype Field = Title | Slug | Content | Excerpt | Category | Subcategory | Tags | FeaturedImage

  /** The name each entry goes out under. */
  function FieldName(f: Field): string {
    match f
    case Title => "title"
    case Slug => "slug"
    case Content => "content"
    case Excerpt => "excerpt"
    case Category => "category"
    case Subcategory => "subcategory"
    case Tags => "tags"
    case FeaturedImage => "featuredImage"
  }

  /** The entry names of a form, in order. */
  function Names(fd: seq<(Field, FormValue)>): (r: seq<Field>)
    ensures |r| == |fd| && forall i :: 0 <= i < |fd| ==> r[i] == fd[i].0
  {
    seq(|fd|, i requires 0 <= i < |fd| => fd[i].0)
  }

  /** The value an entry for `f` must carry for the form values `data`. */
  function FieldValue(data: BlogFields, f: Field): Option<FormValue> {
    match f
    case Title => Some(Text(data.title))
    case Slug => Some(Text(data.slug))
    case Content => Some(Text(data.content))
    case Excerpt => Some(Text(data.excerpt))
    case Category => Some(Text(data.category))
    case Subcategory => Some(Text(data.subcategory))
    case Tags => Some(Text(data.tags))
    case FeaturedImage => if data.image.Some? then Some(File(data.image.value)) else None
  }

  /**
   * The `FormData` that `handleFormSubmit` builds, entry by entry: always
   * title, slug, content, excerpt, category and tags; the subcategory only
   * when one is chosen; the image only when a file was picked; each entry
   * carrying its field's value.
   */
  method BuildFormData(data: BlogFields) returns (fd: seq<(Field, FormValue)>)
    ensures Names(fd) == [Title, Slug, Content, Excerpt, Category]
                         + (if data.subcategory != "" then [Subcategory] else [])
                         + [Tags]
                         + (if data.image.Some? then [FeaturedImage] else [])
    ensures forall i :: 0 <= i < |fd| ==> FieldValue(data, fd[i].0) == Some(fd[i].1)
  {
    fd := [];
    fd := fd + [(Title, Text(data.title))];
    fd := fd + [(Slug, Text(data.slug))];
    fd := fd + [(Content, Text(data.content))];
    fd := fd + [(Excerpt, Text(data.excerpt))];
    fd := fd + [(Category, Text(data.category))];
    if data.subcategory != "" {
      fd := fd + [(Subcategory, Text(data.subcategory))];
    }
    fd := fd + [(Tags, Text(data.tags))];
    if data.image.Some? {
      fd := fd + [(FeaturedImage, File(data.image.value))];
    }
  }

  // ---------------------------------------------------------------- submit

  /** The blog endpoint's reply body. */
  datatype SubmitBody = SubmitBody(success: bool, message: string)

  /** What a submit leads to: whether `onSuccess` ran, whether the success alert showed, the error shown. */
  datatype SubmitOutcome = SubmitOutcome(onSuccessCalled: bool, alerted: bool, submitError: Option<string>)

  /** `error.response?.data?.message || error.message || 'An error occurred while submitting the form'`. */
  function ThrownError(e: HttpError): (msg: string)
    ensures msg != ""
  {
    if e.response.Some? && e.response.value.message != "" then e.response.value.message
    else if e.message != "" then e.message
    else "An error occurred while submitting the form"
  }

  /**
   * The outcome of the POST (always to `/api/blogs/add`, also when editing),
   * given whether the parent passed `onSuccess`.
   */
  function Submit(reply: Reply<SubmitBody>, hasOnSuccess: bool): (o: SubmitOutcome)
    ensures o.submitError == None <==> reply.Ok? && reply.body.success
    ensures o.alerted <==> o.submitError == None
    ensures o.onSuccessCalled <==> o.alerted && hasOnSuccess
    ensures reply.Ok? && !reply.body.success ==>
      o.submitError == Some(if reply.body.message != "" then reply.body.message else "Failed to create blog post")
    ensures reply.Failed? ==> o.submitError == Some(ThrownError(reply.error))
  {
    match reply
    case Ok(body) =>
      if body.success then SubmitOutcome(hasOnSuccess, true, None)
      else SubmitOutcome(false, false, Some(if body.message != "" then body.message else "Failed to create blog post"))
    case Failed(e) => SubmitOutcome(false, false, Some(ThrownError(e)))
  }

  /** Defaults from the post being edited: `blog?.x || ''`. */
  datatype ExistingBlog = ExistingBlog(title: string, slug: string, categoryId: string)

  /** The part of the form's state the effects and the slug field's focus handler change. */
  class BlogFormState {
    /** Whether a `blog` is being edited. */
    const editing: bool
    var title: string
    var slug: string
    var isSlugManual: bool
    var categories: seq<CategoryTree.Category>
    var selectedCategory: string
    var subcategory: string
    var availableSubcategories: seq<CategoryTree.Category>

    /**
     * First render and the mount effects: defaults from `blog`, the slug
     * counted as manual when the post has one, and the subcategory effect run
     * once against the empty category list (which clears the subcategory).
     */
    constructor (blog: Option<ExistingBlog>)
      ensures editing == blog.Some?
      ensures title == (if blog.Some? then blog.value.title else "")
      ensures slug == (if blog.Some? then blog.value.slug else "")
      ensures isSlugManual == (blog.Some? && blog.value.slug != "")
      ensures selectedCategory == (if blog.Some? then blog.value.categoryId else "")
      ensures categories == [] && availableSubcategories == [] && subcategory == ""
    {
      editing := blog.Some?;
      title := if blog.Some? then blog.value.title else "";
      slug := if blog.Some? then blog.value.slug else "";
      isSlugManual := blog.Some? && blog.value.slug != "";
      selectedCategory := if blog.Some? then blog.value.categoryId else "";
      categories := [];
      availableSubcategories := [];
      subcategory := "";
    }

    /** The slug field's `onFocus`. */
    method FocusSlug()
      modifies this
      ensures isSlugManual
      ensures title == old(title) && slug == old(slug) && categories == old(categories)
      ensures selectedCategory == old(selectedCategory) && subcategory == old(subcategory)
      ensures availableSubcategories == old(availableSubcategories)
    {
      isSlugManual := true;
    }

    /** Typing a title and the slug effect it triggers. */
    method ChangeTitle(t: string)
      modifies this
      ensures title == t
      ensures slug == SlugAfterTitle(t, isSlugManual, editing, old(slug))
      ensures isSlugManual == old(isSlugManual) && categories == old(categories)
      ensures selectedCategory == old(selectedCategory) && subcategory == old(subcategory)
      ensures availableSubcategories == old(availableSubcategories)
    {
      title := t;
      if t != "" && !isSlugManual && !editing {
        slug := GenerateSlug(t);
      }
    }

    /** The subcategory effect. */
    method RefreshSubcategories()
      modifies this
      ensures availableSubcategories == AvailableSubcategories(categories, selectedCategory)
      ensures subcategory == ""
      ensures title == old(title) && slug == old(slug) && isSlugManual == old(isSlugManual)
      ensures categories == old(categories) && selectedCategory == old(selectedCategory)
    {
      if selectedCategory != "" && |categories| > 0 {
        var found := FirstWithId(categories, selectedCategory);
        if found.Some? && |categories[found.value].subcategories| > 0 {
          availableSubcategories := categories[found.value].subcategories;
        } else {
          availableSubcategories := [];
        }
      } else {
        availableSubcategories := [];
      }
      subcategory := "";
    }

    /** Choosing a category in the dropdown, and the effect that follows. */
    method SelectCategory(id: string)
      modifies this
      ensures selectedCategory == id
      ensures availableSubcategories == AvailableSubcategories(categories, id) && subcategory == ""
      ensures title == old(title) && slug == old(slug) && isSlugManual == old(isSlugManual)
      ensures categories == old(categories)
    {
      selectedCategory := id;
      RefreshSubcategories();
    }

    /** The category list arriving (`response.data.data`, or [] on any failure), and the effect that follows. */
    method LoadCategories(cats: seq<CategoryTree.Category>)
      modifies this
      ensures categories == cats
      ensures availableSubcategories == AvailableSubcategories(cats, selectedCategory) && subcategory == ""
      ensures title == old(title) && slug == old(slug) && isSlugManual == old(isSlugManual)
      ensures selectedCategory == old(selectedCategory)
    {
      categories := cats;
      RefreshSubcategories();
    }
  }

  /** Once the slug field has been focused, no later title changes the slug again. */
  lemma FocusedSlugIsKept(t: string, editing: bool)
    ensures !ShouldGenerateSlug(t, true, editing)
    ensures editing ==> !ShouldGenerateSlug(t, false, editing)
    ensures ShouldGenerateSlug(t, false, false) <==> t != ""
  {
  }

  /** The dropdown lists nested categories too, but choosing one offers no subcategories: only top-level ids are searched. */
  lemma NestedSelectionOffersNothing(cats: seq<CategoryTree.Category>, id: string)
    requires forall i :: 0 <= i < |cats| ==> cats[i].id != id
    ensures AvailableSubcategories(cats, id) == []
  {
  }
}
