/**
 * The category hierarchy both admin forms read, and `flattenCategories`,
 * which lists it in preorder for a `<select>`, indenting each name by its
 * depth (src/app/components/Blogform.tsx and src/app/components/Categoryform.tsx
 * carry one copy each, differing only in the indent literal).
 */
module CategoryTree {
  /** A category or subcategory; a missing `subcategories` is the empty sequence. */
  datatype Category = Category(id: string, name: string, slug: string, parentslug: string,
                               filters: seq<string>, subcategories: seq<Category>)

  /** The indent Blogform.tsx repeats: an em dash and a space. */
  const EmDashIndent := "\U{2014} "
  /** The indent Categoryform.tsx repeats: the UTF-8 bytes of the em dash read as Windows-1252 ("â€”"), and a space. */
  const MisencodedIndent := "\U{00E2}\U{20AC}\U{201D} "

  /** `s.repeat(n)`. */
  function Repeat(s: string, n: nat): (r: string)
    ensures |r| == n * |s|
  {
    if n == 0 then "" else s + Repeat(s, n - 1)
  }

  /** The number of nodes in a forest. */
  function Size(cats: seq<Category>): nat
    decreases cats
  {
    if cats == [] then 0 else 1 + Size(cats[0].subcategories) + Size(cats[1..])
  }

  /** A node together with its depth below the forest `flattenCategories` was first called on. */
  datatype Entry = Entry(node: Category, depth: nat)

  /** The nodes of a forest in preorder (each node, then its subtree, then its later siblings), with their depths. */
  function Preorder(cats: seq<Category>, depth: nat): (r: seq<Entry>)
    decreases cats
  {
    if cats == [] then []
    else [Entry(cats[0], depth)] + Preorder(cats[0].subcategories, depth + 1) + Preorder(cats[1..], depth)
  }

  /** The entry `flattenCategories` pushes for a node: the node with its name indented. */
  function Indented(c: Category, indent: string, level: nat): (r: Category)
    ensures r.name == Repeat(indent, level) + c.name
    ensures r.(name := c.name) == c
  {
    c.(name := Repeat(indent, level) + c.name)
  }

  /** `flattenCategories(cats, level)` with the given indent literal. */
  function Flatten(cats: seq<Category>, indent: string, level: nat): seq<Category>
    decreases cats
  {
    if cats == [] then []
    else [Indented(cats[0], indent, level)] + Flatten(cats[0].subcategories, indent, level + 1)
         + Flatten(cats[1..], indent, level)
  }

  /** There is one entry per node. */
  lemma {:induction false} PreorderSize(cats: seq<Category>, depth: nat)
    ensures |Preorder(cats, depth)| == Size(cats)
    decreases cats
  {
    if cats != [] {
      PreorderSize(cats[0].subcategories, depth + 1);
      PreorderSize(cats[1..], depth);
    }
  }

  /** Every entry lies at or below the starting depth. */
  lemma {:induction false} PreorderDepth(cats: seq<Category>, depth: nat, i: nat)
    requires i < |Preorder(cats, depth)|
    ensures Preorder(cats, depth)[i].depth >= depth
    decreases cats
  {
    var sub := Preorder(cats[0].subcategories, depth + 1);
    if i == 0 {
    } else if i - 1 < |sub| {
      PreorderDepth(cats[0].subcategories, depth + 1, i - 1);
    } else {
      PreorderDepth(cats[1..], depth, i - 1 - |sub|);
    }
  }

  /**
   * The flattened list is the preorder listing with each node's name
   * prefixed by the indent repeated (depth) times and every other field
   * unchanged.
   */
  lemma {:induction false} FlattenIsIndentedPreorder(cats: seq<Category>, indent: string, level: nat)
    ensures |Flatten(cats, indent, level)| == |Preorder(cats, level)|
    ensures forall i :: 0 <= i < |Preorder(cats, level)| ==>
      Flatten(cats, indent, level)[i] == Indented(Preorder(cats, level)[i].node, indent, Preorder(cats, level)[i].depth)
    decreases cats
  {
    if cats != [] {
      FlattenIsIndentedPreorder(cats[0].subcategories, indent, level + 1);
      FlattenIsIndentedPreorder(cats[1..], indent, level);
    }
  }

  /** The output has exactly one entry per node of the tree. */
  lemma FlattenSize(cats: seq<Category>, indent: string, level: nat)
    ensures |Flatten(cats, indent, level)| == Size(cats)
  {
    FlattenIsIndentedPreorder(cats, indent, level);
    PreorderSize(cats, level);
  }

  /** Flattening a forest given as two parts is flattening each part. */
  lemma {:induction false} FlattenAppend(a: seq<Category>, b: seq<Category>, indent: string, level: nat)
    ensures Flatten(a + b, indent, level) == Flatten(a, indent, level) + Flatten(b, indent, level)
    decreases a
  {
    if a == [] {
      assert a + b == b;
    } else {
      assert (a + b)[0] == a[0];
      assert (a + b)[1..] == a[1..] + b;
      FlattenAppend(a[1..], b, indent, level);
    }
  }

  /** One more top-level node adds its indented entry and its flattened subtree. */
  lemma FlattenStep(cats: seq<Category>, i: nat, indent: string, level: nat)
    requires i < |cats|
    ensures Flatten(cats[..i + 1], indent, level)
         == Flatten(cats[..i], indent, level) + [Indented(cats[i], indent, level)]
            + Flatten(cats[i].subcategories, indent, level + 1)
  {
    var cat := cats[i];
    assert Flatten([cat], indent, level) == [Indented(cat, indent, level)] + Flatten(cat.subcategories, indent, level + 1);
    assert cats[..i + 1] == cats[..i] + [cat];
    FlattenAppend(cats[..i], [cat], indent, level);
  }

  /** `flattenCategories` as written: a `forEach` that pushes each node and concatenates its flattened subtree. */
  method FlattenCategories(cats: seq<Category>, indent: string, level: nat) returns (result: seq<Category>)
    ensures result == Flatten(cats, indent, level)
    decreases cats
  {
    result := [];
    var i := 0;
    while i < |cats|
      invariant 0 <= i <= |cats|
      invariant result == Flatten(cats[..i], indent, level)
    {
      var cat := cats[i];
      FlattenStep(cats, i, indent, level);
      result := result + [Indented(cat, indent, level)];
      assert cat in cats;
      if |cat.subcategories| > 0 {
        var sub := FlattenCategories(cat.subcategories, indent, level + 1);
        result := result + sub;
      }
      i := i + 1;
    }
    assert cats[..i] == cats;
  }
}
