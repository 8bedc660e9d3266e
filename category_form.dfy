/**
 * src/app/components/Categoryform.tsx: the comma-separated filter field,
 * `categorySchema`, the parent choices, and the outcomes of saving and
 * deleting a category.
 */
module CategoryForm {
  import opened Common
  import opened JsString
  import opened Web
  import CategoryTree
  import Seqs

  // ---------------------------------------------------------------- filters

  /** `.map(item => item.trim()).filter(item => item !== '')`. */
  function CleanFilters(parts: seq<string>): (r: seq<string>)
    ensures |r| <= |parts|
  {
    if parts == [] then []
    else (if Trim(parts[0]) != "" then [Trim(parts[0])] else []) + CleanFilters(parts[1..])
  }

  /** The filters `handleFiltersChange` derives from the field's text. */
  function ParseFilters(value: string): seq<string> {
    CleanFilters(Split(value, ','))
  }

  /** What a parsed filter looks like: non-empty, no whitespace at either end, no comma. */
  predicate IsFilter(f: string) {
    f != "" && IsTrimmed(f) && ',' !in f
  }

  lemma {:induction false} CleanFiltersAppend(a: seq<string>, b: seq<string>)
    ensures CleanFilters(a + b) == CleanFilters(a) + CleanFilters(b)
  {
    if a == [] {
      assert a + b == b;
    } else {
      assert (a + b)[0] == a[0] && (a + b)[1..] == a[1..] + b;
      CleanFiltersAppend(a[1..], b);
    }
  }

  lemma {:induction false} CleanFiltersShape(parts: seq<string>)
    requires forall k :: 0 <= k < |parts| ==> ',' !in parts[k]
    ensures forall k :: 0 <= k < |CleanFilters(parts)| ==> IsFilter(CleanFilters(parts)[k])
  {
    if parts != [] {
      CleanFiltersShape(parts[1..]);
      TrimProperties(parts[0]);
      TrimKeepsChars(parts[0]);
    }
  }

  /** Every parsed filter is non-empty, trimmed and comma-free, and there are at most (commas + 1) of them. */
  lemma ParsedFilters(value: string)
    ensures forall k :: 0 <= k < |ParseFilters(value)| ==> IsFilter(ParseFilters(value)[k])
    ensures |ParseFilters(value)| <= Count(value, ',') + 1
  {
    CleanFiltersShape(Split(value, ','));
  }

  /** Filters keep their input order: the text before a comma gives the first filters, the text after it the rest. */
  lemma ParseFiltersOrder(a: string, b: string)
    ensures ParseFilters(a + [','] + b) == ParseFilters(a) + ParseFilters(b)
  {
    SplitConcat(a, ',', b);
    CleanFiltersAppend(Split(a, ','), Split(b, ','));
  }

  /** Whitespace in front of the text never changes the filters. */
  lemma ParseSkipsLeadingSpace(c: char, s: string)
    requires IsSpace(c)
    ensures ParseFilters([c] + s) == ParseFilters(s)
  {
    assert c != ',';
    SplitCons(c, s, ',');
    var parts := Split(s, ',');
    assert Split([c] + s, ',') == [[c] + parts[0]] + parts[1..];
    TrimSkipsLeadingSpace(c, parts[0]);
    assert parts == [parts[0]] + parts[1..];
    CleanFiltersAppend([[c] + parts[0]], parts[1..]);
    CleanFiltersAppend([parts[0]], parts[1..]);
  }

  lemma JoinStep(fs: seq<string>)
    requires |fs| > 1
    ensures Join(fs, ", ") == fs[0] + [','] + ([' '] + Join(fs[1..], ", "))
  {
    var rest := Join(fs[1..], ", ");
    assert Join(fs, ", ") == fs[0] + ", " + rest;
    assert fs[0] + ", " + rest == fs[0] + [','] + ([' '] + rest);
  }

  /** A single filter parses to itself. */
  lemma ParseOne(f: string)
    requires IsFilter(f)
    ensures ParseFilters(f) == [f]
  {
    SplitNoSeparator(f, ',');
    TrimOfTrimmed(f);
  }

  /** Parsing the text the field starts with (`filters.join(', ')`) gives the filters back. */
  lemma {:induction false} JoinParseRoundTrip(fs: seq<string>)
    requires forall k :: 0 <= k < |fs| ==> IsFilter(fs[k])
    ensures ParseFilters(Join(fs, ", ")) == fs
  {
    if fs == [] {
    } else if |fs| == 1 {
      ParseOne(fs[0]);
    } else {
      var rest := Join(fs[1..], ", ");
      calc {
        ParseFilters(Join(fs, ", "));
        == { JoinStep(fs); }
        ParseFilters(fs[0] + [','] + ([' '] + rest));
        == { ParseFiltersOrder(fs[0], [' '] + rest); }
        ParseFilters(fs[0]) + ParseFilters([' '] + rest);
        == { ParseOne(fs[0]); ParseSkipsLeadingSpace(' ', rest); }
        [fs[0]] + ParseFilters(rest);
        == { JoinParseRoundTrip(fs[1..]); }
        [fs[0]] + fs[1..];
      }
      assert fs == [fs[0]] + fs[1..];
    }
  }

  // ---------------------------------------------------------------- schema

  /** A character of `[a-zA-Z0-9\s\-&]`. */
  predicate IsNameChar(c: char) {
    ('a' <= c <= 'z') || ('A' <= c <= 'Z') || IsDigit(c) || IsSpace(c) || c == '-' || c == '&'
  }

  /** A character of `[a-z0-9\-]`. */
  predicate IsSlugChar(c: char) {
    ('a' <= c <= 'z') || IsDigit(c) || c == '-'
  }

  predicate AllNameChars(s: string) {
    forall i :: 0 <= i < |s| ==> IsNameChar(s[i])
  }

  predicate AllSlugChars(s: string) {
    forall i :: 0 <= i < |s| ==> IsSlugChar(s[i])
  }

  /** The message of the first failing `name` check: min 2, max 50, then the character class. */
  function NameError(name: string): (e: Option<string>)
    ensures e == None <==> 2 <= |name| <= 50 && AllNameChars(name)
  {
    if |name| < 2 then Some("Name must be at least 2 characters")
    else if |name| > 50 then Some("Name must be less than 50 characters")
    else if !AllNameChars(name) then Some("Name can only contain letters, numbers, spaces, hyphens, and ampersands")
    else None
  }

  /** The message of the first failing `slug` check: min 2, max 50, then the character class. */
  function CategorySlugError(slug: string): (e: Option<string>)
    ensures e == None <==> 2 <= |slug| <= 50 && AllSlugChars(slug)
  {
    if |slug| < 2 then Some("Slug must be at least 2 characters")
    else if |slug| > 50 then Some("Slug must be less than 50 characters")
    else if !AllSlugChars(slug) then Some("Slug can only contain lowercase letters, numbers, and hyphens")
    else None
  }

  /** Every valid slug is also a valid name (the slug class is inside the name class). */
  lemma SlugIsValidName(s: string)
    requires CategorySlugError(s) == None
    ensures NameError(s) == None
  {
    assert AllNameChars(s) by {
      forall i | 0 <= i < |s| ensures IsNameChar(s[i]) {
        assert IsSlugChar(s[i]);
      }
    }
  }

  // ---------------------------------------------------------------- parents

  /** `availableParents`: every loaded category except the one being edited. */
  function AvailableParents(cats: seq<CategoryTree.Category>, editing: Option<CategoryTree.Category>): (r: seq<CategoryTree.Category>)
    ensures |r| <= |cats|
    ensures editing.Some? ==> forall i :: 0 <= i < |r| ==> r[i].id != editing.value.id
    ensures forall i :: 0 <= i < |r| ==> r[i] in cats
    ensures editing.None? ==> r == cats
  {
    if cats == [] then []
    else (if editing.None? || cats[0].id != editing.value.id then [cats[0]] else [])
         + AvailableParents(cats[1..], editing)
  }

  /**
   * When editing, the offered parents are exactly the loaded categories whose
   * id differs from the edited one's, in their loaded order.
   */
  lemma {:induction false} AvailableParentsKeepsOthers(cats: seq<CategoryTree.Category>, edited: CategoryTree.Category)
    ensures AvailableParents(cats, Some(edited)) == Seqs.Filter(cats, (c: CategoryTree.Category) => c.id != edited.id)
    ensures forall c :: c in AvailableParents(cats, Some(edited)) <==> c in cats && c.id != edited.id
  {
    var keep := (c: CategoryTree.Category) => c.id != edited.id;
    if cats != [] {
      AvailableParentsKeepsOthers(cats[1..], edited);
    }
    forall c ensures c in Seqs.Filter(cats, keep) <==> c in cats && keep(c) {
      Seqs.FilterMembers(cats, keep, c);
    }
  }

  /** Every top-level category keeps its place in the preorder listing, at the starting depth. */
  lemma {:induction false} PreorderHasTopLevel(cats: seq<CategoryTree.Category>, depth: nat, j: nat)
    requires j < |cats|
    ensures exists i :: 0 <= i < |CategoryTree.Preorder(cats, depth)| && CategoryTree.Preorder(cats, depth)[i] == CategoryTree.Entry(cats[j], depth)
    decreases j
  {
    var head := [CategoryTree.Entry(cats[0], depth)] + CategoryTree.Preorder(cats[0].subcategories, depth + 1);
    assert CategoryTree.Preorder(cats, depth) == head + CategoryTree.Preorder(cats[1..], depth);
    if j == 0 {
      assert CategoryTree.Preorder(cats, depth)[0] == CategoryTree.Entry(cats[0], depth);
    } else {
      PreorderHasTopLevel(cats[1..], depth, j - 1);
      var i :| 0 <= i < |CategoryTree.Preorder(cats[1..], depth)| && CategoryTree.Preorder(cats[1..], depth)[i] == CategoryTree.Entry(cats[j], depth);
      assert CategoryTree.Preorder(cats, depth)[|head| + i] == CategoryTree.Entry(cats[j], depth);
    }
  }

  /**
   * The parent dropdown is built from the whole flattened list, not from
   * `availableParents`: a loaded category being edited is still offered as
   * its own parent.
   */
  lemma DropdownStillOffersEditedCategory(cats: seq<CategoryTree.Category>, j: nat)
    requires j < |cats|
    ensures var options := CategoryTree.Flatten(cats, CategoryTree.MisencodedIndent, 0);
            exists i :: 0 <= i < |options| && options[i].id == cats[j].id && options[i].slug == cats[j].slug
    ensures forall i :: 0 <= i < |AvailableParents(cats, Some(cats[j]))| ==> AvailableParents(cats, Some(cats[j]))[i].id != cats[j].id
  {
    PreorderHasTopLevel(cats, 0, j);
    CategoryTree.FlattenIsIndentedPreorder(cats, CategoryTree.MisencodedIndent, 0);
    var i :| 0 <= i < |CategoryTree.Preorder(cats, 0)| && CategoryTree.Preorder(cats, 0)[i] == CategoryTree.Entry(cats[j], 0);
    assert CategoryTree.Flatten(cats, CategoryTree.MisencodedIndent, 0)[i].id == cats[j].id;
  }

  // ---------------------------------------------------------------- requests

  /** The request a save or a delete sends. */
  datatype Request = Patch(path: string) | Post(path: string) | Delete(path: string)

  /** Edit sends PATCH `/api/categories/<id>`; create sends POST `/api/categories/add`. */
  function SaveRequest(category: Option<CategoryTree.Category>): (r: Request)
    ensures category.Some? <==> r.Patch?
    ensures category.Some? ==> r.path == "/api/categories/" + category.value.id
    ensures category.None? ==> r == Post("/api/categories/add")
  {
    if category.Some? then Patch("/api/categories/" + category.value.id) else Post("/api/categories/add")
  }

  const NoResponseText := "No response from server. Please check if the server is running."
  const UnexpectedText := "An unexpected error occurred"
  const LoadErrorText := "Failed to load categories. Please try again."

  /** The error text a failed save or delete shows. */
  function ErrorText(e: HttpError): (msg: string)
    ensures msg != ""
    ensures e.response.Some? ==> msg == (if e.response.value.message != "" then e.response.value.message
                                         else "Error: " + NatToString(e.response.value.status))
    ensures e.response.None? && e.requestSent ==> msg == NoResponseText
    ensures e.response.None? && !e.requestSent ==> msg == (if e.message != "" then e.message else UnexpectedText)
  {
    if e.response.Some? then
      (if e.response.value.message != "" then e.response.value.message
       else "Error: " + NatToString(e.response.value.status))
    else if e.requestSent then NoResponseText
    else if e.message != "" then e.message
    else UnexpectedText
  }

  /** The part of the form's state its handlers change. */
  class CategoryFormState {
    /** The category being edited, if any. */
    const category: Option<CategoryTree.Category>
    var loading: bool
    var error: Option<string>
    var filtersInput: string
    /** The form's `filters` value. */
    var filters: seq<string>
    var categories: seq<CategoryTree.Category>
    var fetchLoading: bool

    /** First render: the filter text is `category?.filters?.join(', ') || ''`. */
    constructor (category: Option<CategoryTree.Category>)
      ensures this.category == category && !loading && error == None
      ensures filtersInput == (if category.Some? then Join(category.value.filters, ", ") else "")
      ensures filters == (if category.Some? then category.value.filters else [])
      ensures categories == [] && fetchLoading
    {
      this.category := category;
      categories := [];
      fetchLoading := true;
      loading := false;
      error := None;
      filtersInput := if category.Some? then Join(category.value.filters, ", ") else "";
      filters := if category.Some? then category.value.filters else [];
    }

    /**
     * The mount effect `fetchCategories`: the list is `response.data.data || []`;
     * a failed GET keeps the list and shows the load error.
     */
    method FetchCategories(reply: Reply<Option<seq<CategoryTree.Category>>>)
      modifies this
      ensures reply.Ok? ==> categories == reply.body.GetOr([]) && error == old(error)
      ensures reply.Failed? ==> categories == old(categories) && error == Some(LoadErrorText)
      ensures !fetchLoading && loading == old(loading)
      ensures filtersInput == old(filtersInput) && filters == old(filters)
    {
      fetchLoading := true;
      match reply {
        case Ok(data) =>
          categories := data.GetOr([]);
        case Failed(_) =>
          error := Some(LoadErrorText);
      }
      fetchLoading := false;
    }

    /** `handleFiltersChange`. */
    method HandleFiltersChange(value: string)
      modifies this
      ensures filtersInput == value && filters == ParseFilters(value)
      ensures loading == old(loading) && error == old(error) && categories == old(categories)
    {
      filtersInput := value;
      filters := ParseFilters(value);
    }

    /** `handleFormSubmit`, given the outcome of the request it sends. */
    method HandleFormSubmit(reply: Reply<()>) returns (request: Request, onSubmitCalled: bool)
      modifies this
      ensures request == SaveRequest(category)
      ensures onSubmitCalled <==> reply.Ok?
      ensures error == (if reply.Failed? then Some(ErrorText(reply.error)) else None)
      ensures !loading && filtersInput == old(filtersInput) && filters == old(filters)
      ensures categories == old(categories)
    {
      loading := true;
      error := None;
      if category.Some? {
        request := Patch("/api/categories/" + category.value.id);
      } else {
        request := Post("/api/categories/add");
      }
      match reply {
        case Ok(_) =>
          onSubmitCalled := true;
        case Failed(e) =>
          onSubmitCalled := false;
          error := Some(ErrorText(e));
      }
      loading := false;
    }

    /** `handleDelete`, given the answer to `confirm` and the outcome of the DELETE. */
    method HandleDelete(confirmed: bool, reply: Reply<()>) returns (request: Option<Request>, onCancelCalled: bool)
      modifies this
      ensures category.None? || !confirmed ==>
        request == None && !onCancelCalled && loading == old(loading) && error == old(error)
      ensures category.Some? && confirmed ==>
        && request == Some(Delete("/api/categories/" + category.value.id))
        && (onCancelCalled <==> reply.Ok?)
        && error == (if reply.Failed? then Some(ErrorText(reply.error)) else None)
        && !loading
      ensures filtersInput == old(filtersInput) && filters == old(filters) && categories == old(categories)
    {
      request, onCancelCalled := None, false;
      if category.None? {
        return;
      }
      if confirmed {
        loading := true;
        error := None;
        request := Some(Delete("/api/categories/" + category.value.id));
        match reply {
          case Ok(_) =>
            onCancelCalled := true;
          case Failed(e) =>
            error := Some(ErrorText(e));
        }
        loading := false;
      }
    }
  }
}
