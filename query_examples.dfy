/**
 * The query builder on three of the schemas of the unit tests for `get_graphql_query`
 * (tests/unittests/test_abstracts.py): a flat schema, a nested object with extra fields, and
 * an excluded field.
 */
module QueryExamples {
  import opened Wrappers
  import opened Text
  import opened Query

  const Str: Schema := Schema(["string"], [], None)
  const Flat: Schema := Schema([], [("id", Str), ("name", Str)], None)

  lemma FlatSorted()
    ensures SortedSet(["id", "name"]) == ["id", "name"]
  {
    assert Lt("id", "name");
    assert SortedSet(["name"]) == ["name"];
  }

  lemma FlatKeys()
    ensures Keys(Flat, NoExtras, "", {}) == ["id", "name"]
  {
    assert KeysOf(Flat.properties) == ["id", "name"];
    assert KeysOf(NoExtras.children) == [];
    assert KeysOf(Flat.properties) + KeysOf(NoExtras.children) == ["id", "name"];
    FlatSorted();
  }

  lemma FlatLeaf(k: string)
    requires k == "id" || k == "name"
    ensures RenderKey(Flat, NoExtras, "", {}, " ", k) == [Leaf(k)]
  {
  }

  lemma FlatRender()
    ensures Render(Flat, NoExtras, "", {}, " ") == [Leaf("id"), Leaf("name")]
  {
    FlatKeys();
    FlatLeaf("id");
    FlatLeaf("name");
    assert RenderKeys(Flat, NoExtras, "", {}, " ", ["name"]) == [Leaf("name")];
  }

  lemma IdNamePrint()
    ensures Print([Leaf("id"), Leaf("name")], " ") == " id name"
  {
    assert Print([Leaf("name")], " ") == " name";
  }

  lemma FlatUnfolded()
    ensures GraphQlQuery(Flat, [], {}, "items", 1, 1)
         == "query {" + (" " + "items" + " {" + " id name" + " " + "}") + "}"
  {
    FlatRender();
    IdNamePrint();
    assert ExtraTree([]) == NoExtras;
    QueryShape(Flat, [], {}, "items");
  }

  /** A flat schema selects its fields in sorted order. */
  lemma FlatSchemaQuery()
    ensures GraphQlQuery(Flat, [], {}, "items", 1, 1) == "query { items { id name }}"
  {
    FlatUnfolded();
    IdNameText();
  }

  const WithExtra: Schema := Schema([], [("id", Str), ("name", Str), ("extra", Str)], None)

  lemma SortThree()
    ensures SortedSet(["id", "name", "extra"]) == ["extra", "id", "name"]
  {
    assert Lt("extra", "id") && Lt("id", "name") && Lt("extra", "name");
    assert SortedSet(["extra"]) == ["extra"];
    assert InsertSorted("name", []) == ["name"];
    assert InsertSorted("name", ["extra"]) == ["extra", "name"];
    assert SortedSet(["name", "extra"]) == ["extra", "name"];
    assert InsertSorted("id", ["name"]) == ["id", "name"];
    assert InsertSorted("id", ["extra", "name"]) == ["extra", "id", "name"];
  }

  lemma KeepVisible()
    ensures Keep(["extra", "id", "name"], Visible("", {"extra"})) == ["id", "name"]
  {
    var v := Visible("", {"extra"});
    assert !v("extra") && v("id") && v("name");
    assert Keep(["name"], v) == ["name"];
    assert Keep(["id", "name"], v) == ["id", "name"];
  }

  lemma ExcludedKeys()
    ensures Keys(WithExtra, NoExtras, "", {"extra"}) == ["id", "name"]
  {
    assert KeysOf(WithExtra.properties) + KeysOf(NoExtras.children) == ["id", "name", "extra"];
    SortThree();
    KeepVisible();
  }

  lemma ExcludedRender()
    ensures Render(WithExtra, NoExtras, "", {"extra"}, " ") == [Leaf("id"), Leaf("name")]
  {
    ExcludedKeys();
    assert RenderKey(WithExtra, NoExtras, "", {"extra"}, " ", "id") == [Leaf("id")];
    assert RenderKey(WithExtra, NoExtras, "", {"extra"}, " ", "name") == [Leaf("name")];
    assert RenderKeys(WithExtra, NoExtras, "", {"extra"}, " ", ["name"]) == [Leaf("name")];
  }

  /** With indent 1 and level 1, the query is the root field around the printed selection. */
  lemma QueryShape(schema: Schema, extraFields: seq<(string, seq<string>)>, excluded: set<string>, rootField: string)
    requires rootField != ""
    ensures GraphQlQuery(schema, extraFields, excluded, rootField, 1, 1)
         == "query {" + (" " + rootField + " {" + Print(Render(schema, ExtraTree(extraFields), "", excluded, " "), " ")
                         + " " + "}") + "}"
  {
    assert Spaces(1 * 1) == " ";
  }

  lemma ExcludedInner()
    ensures Print(Render(WithExtra, ExtraTree([]), "", {"extra"}, " "), " ") == " id name"
  {
    ExcludedRender();
    IdNamePrint();
    assert ExtraTree([]) == NoExtras;
  }

  lemma ExcludedUnfolded()
    ensures GraphQlQuery(WithExtra, [], {"extra"}, "items", 1, 1)
         == "query {" + (" " + "items" + " {" + " id name" + " " + "}") + "}"
  {
    ExcludedInner();
    QueryShape(WithExtra, [], {"extra"}, "items");
  }

  lemma IdNameText()
    ensures "query {" + (" " + "items" + " {" + " id name" + " " + "}") + "}" == "query { items { id name }}"
  {
  }

  /** An excluded top-level field is left out of the query. */
  lemma ExcludedFieldQuery()
    ensures GraphQlQuery(WithExtra, [], {"extra"}, "items", 1, 1) == "query { items { id name }}"
  {
    ExcludedUnfolded();
    IdNameText();
  }

  // ---------------------------------------------------------------- nested object with extras

  const Details: Schema := Schema(["object"], [("field1", Str), ("field2", Str)], None)
  const Nested: Schema := Schema([], [("id", Str), ("details", Details)], None)
  const NestedExtras: seq<(string, seq<string>)> := [("details.extra1", []), ("details.extra2", [])]

  /** An extra path stored with an empty field list. */
  const NoFields: Extra := Extra(Some([]), [])
  const DetailsTree: Extra := Extra(None, [("extra1", NoFields), ("extra2", NoFields)])

  lemma DetailsPath(leaf: string)
    requires leaf == "extra1" || leaf == "extra2"
    ensures SplitDot("details." + leaf) == ["details", leaf]
  {
    assert "details." + leaf == "details" + "." + leaf;
    SplitDotJoin("details", leaf);
    SplitDotNoDot("details");
    SplitDotNoDot(leaf);
  }

  lemma ExtraTreeTwo(p: (string, seq<string>), q: (string, seq<string>))
    ensures ExtraTree([p, q]) == Insert(Insert(NoExtras, SplitDot(p.0), p.1), SplitDot(q.0), q.1)
  {
    assert [p, q][..1] == [p] && [p][..0] == [];
    assert ExtraTree([p]) == Insert(NoExtras, SplitDot(p.0), p.1);
  }

  lemma InsertPair(e: Extra, a: string, b: string, fields: seq<string>)
    ensures Insert(e, [a, b], fields)
         == e.(children := Put(e.children, a, Child(e, a).(children := Put(Child(e, a).children, b,
                 Child(Child(e, a), b).(fields := Some(fields))))))
  {
    assert [a, b][1..] == [b] && [b][1..] == [];
    var c := Child(e, a);
    assert Insert(c, [b], fields) == c.(children := Put(c.children, b, Insert(Child(c, b), [], fields)));
  }

  /** The first path creates both levels. */
  lemma FirstInsert()
    ensures Insert(NoExtras, ["details", "extra1"], []) == Extra(None, [("details", Extra(None, [("extra1", NoFields)]))])
  {
    InsertPair(NoExtras, "details", "extra1", []);
  }

  /** The second path reuses the "details" node and adds a sibling of "extra1". */
  lemma SecondInsert()
    ensures Insert(Extra(None, [("details", Extra(None, [("extra1", NoFields)]))]), ["details", "extra2"], [])
         == Extra(None, [("details", DetailsTree)])
  {
    var inner := Extra(None, [("extra1", NoFields)]);
    var top := Extra(None, [("details", inner)]);
    InsertPair(top, "details", "extra2", []);
    assert Child(top, "details") == inner;
    assert IndexOf(inner.children, "extra2").None?;
    assert Child(inner, "extra2") == NoExtras;
    assert Put(inner.children, "extra2", NoFields) == DetailsTree.children;
    assert Put(top.children, "details", DetailsTree) == [("details", DetailsTree)];
  }

  lemma NestedTree()
    ensures ExtraTree(NestedExtras) == Extra(None, [("details", DetailsTree)])
  {
    var p: (string, seq<string>) := ("details.extra1", []);
    var q: (string, seq<string>) := ("details.extra2", []);
    assert NestedExtras == [p, q];
    ExtraTreeTwo(p, q);
    ExtraPaths();
    FirstInsert();
    SecondInsert();
  }

  lemma ExtraPaths()
    ensures SplitDot("details.extra1") == ["details", "extra1"] && SplitDot("details.extra2") == ["details", "extra2"]
  {
    assert "details.extra1" == "details." + "extra1" && "details.extra2" == "details." + "extra2";
    DetailsPath("extra1");
    DetailsPath("extra2");
  }

  lemma DetailsKeys()
    ensures Keys(Details, DetailsTree, "details", {}) == ["extra1", "extra2", "field1", "field2"]
  {
    var sorted := ["extra1", "extra2", "field1", "field2"];
    var all := KeysOf(Details.properties) + KeysOf(DetailsTree.children);
    assert all == ["field1", "field2", "extra1", "extra2"];
    assert Lt("extra1", "extra2") && Lt("extra2", "field1") && Lt("field1", "field2");
    assert StrictlySorted(sorted);
    assert Elems(all) == Elems(sorted);
    StrictlySortedUnique(SortedSet(all), sorted);
    KeepAll(sorted, Visible("details", {}));
  }

  /** A filter that keeps every key is the identity. */
  lemma {:induction false} KeepAll(xs: seq<string>, keep: string -> bool)
    requires forall x :: x in xs ==> keep(x)
    ensures Keep(xs, keep) == xs
  {
    if xs != [] {
      KeepAll(xs[1..], keep);
    }
  }

  /** An extra path with no fields and nothing below it selects its bare name. */
  lemma ExtraLeaf(k: string)
    requires k == "extra1" || k == "extra2"
    ensures RenderKey(Details, DetailsTree, "details", {}, " ", k) == [Leaf(k)]
  {
    assert IndexOf(Details.properties, k).None?;
    assert Child(DetailsTree, k) == NoFields;
    ExtrasOnlyKey(Details, DetailsTree, "details", {}, " ", k, []);
  }

  lemma FieldLeaf(k: string)
    requires k == "field1" || k == "field2"
    ensures RenderKey(Details, DetailsTree, "details", {}, " ", k) == [Leaf(k)]
  {
    assert IndexOf(DetailsTree.children, k).None?;
  }

  lemma ConsFour(a: string, b: string, c: string, d: string)
    ensures [a] + [b, c, d] == [a, b, c, d] && [b] + [c, d] == [b, c, d] && [c] + [d] == [c, d] && [d] + [] == [d]
  {
  }

  lemma RenderFour(s: Schema, e: Extra, path: string, excluded: set<string>, pad: string,
                   a: string, b: string, c: string, d: string)
    ensures RenderKeys(s, e, path, excluded, pad, [a, b, c, d])
         == RenderKey(s, e, path, excluded, pad, a) + (RenderKey(s, e, path, excluded, pad, b)
          + (RenderKey(s, e, path, excluded, pad, c) + RenderKey(s, e, path, excluded, pad, d)))
  {
    var last := RenderKey(s, e, path, excluded, pad, d);
    ConsFour(a, b, c, d);
    RenderKeysCons(s, e, path, excluded, pad, d, []);
    assert last + [] == last;
    RenderKeysCons(s, e, path, excluded, pad, c, [d]);
    RenderKeysCons(s, e, path, excluded, pad, b, [c, d]);
    RenderKeysCons(s, e, path, excluded, pad, a, [b, c, d]);
  }

  lemma RenderTwo(s: Schema, e: Extra, path: string, excluded: set<string>, pad: string, a: string, b: string)
    ensures RenderKeys(s, e, path, excluded, pad, [a, b])
         == RenderKey(s, e, path, excluded, pad, a) + RenderKey(s, e, path, excluded, pad, b)
  {
    var last := RenderKey(s, e, path, excluded, pad, b);
    ConsFour(a, a, a, b);
    RenderKeysCons(s, e, path, excluded, pad, b, []);
    assert last + [] == last;
    RenderKeysCons(s, e, path, excluded, pad, a, [b]);
  }

  lemma DetailsRender()
    ensures Render(Details, DetailsTree, "details", {}, " ") == DetailsSels
  {
    DetailsKeys();
    assert Render(Details, DetailsTree, "details", {}, " ")
        == RenderKeys(Details, DetailsTree, "details", {}, " ", ["extra1", "extra2", "field1", "field2"]);
    RenderFour(Details, DetailsTree, "details", {}, " ", "extra1", "extra2", "field1", "field2");
    ExtraLeaf("extra1");
    ExtraLeaf("extra2");
    FieldLeaf("field1");
    FieldLeaf("field2");
    SelsFour(Leaf("extra1"), Leaf("extra2"), Leaf("field1"), Leaf("field2"));
  }

  lemma SelsFour(a: Sel, b: Sel, c: Sel, d: Sel)
    ensures [a] + ([b] + ([c] + [d])) == [a, b, c, d] && [a] + [b] == [a, b]
  {
  }

  lemma NestedKeys()
    ensures Keys(Nested, Extra(None, [("details", DetailsTree)]), "", {}) == ["details", "id"]
  {
    var all := KeysOf(Nested.properties) + KeysOf([("details", DetailsTree)]);
    assert all == ["id", "details", "details"];
    assert Lt("details", "id");
    assert Elems(all) == Elems(["details", "id"]);
    StrictlySortedUnique(SortedSet(all), ["details", "id"]);
    KeepAll(["details", "id"], Visible("", {}));
  }

  lemma NestedRender()
    ensures Render(Nested, Extra(None, [("details", DetailsTree)]), "", {}, " ")
         == [Block("details", DetailsSels), Leaf("id")]
  {
    var e := Extra(None, [("details", DetailsTree)]);
    NestedKeys();
    assert Render(Nested, e, "", {}, " ") == RenderKeys(Nested, e, "", {}, " ", ["details", "id"]);
    RenderTwo(Nested, e, "", {}, " ", "details", "id");
    DetailsBlock();
    IdLeaf();
    SelsFour(Block("details", DetailsSels), Leaf("id"), Leaf("id"), Leaf("id"));
  }

  /** The object-typed property prints as a block over its own keys and the extra paths. */
  lemma DetailsBlock()
    ensures RenderKey(Nested, Extra(None, [("details", DetailsTree)]), "", {}, " ", "details")
         == [Block("details", DetailsSels)]
  {
    var e := Extra(None, [("details", DetailsTree)]);
    assert Prop(Nested, "details") == Details && Child(e, "details") == DetailsTree;
    RenderKeyNested(Nested, e, "", {}, " ", "details");
    DetailsRender();
  }

  lemma IdLeaf()
    ensures RenderKey(Nested, Extra(None, [("details", DetailsTree)]), "", {}, " ", "id") == [Leaf("id")]
  {
    assert IndexOf([("details", DetailsTree)], "id").None?;
  }

  const DetailsSels: seq<Sel> := [Leaf("extra1"), Leaf("extra2"), Leaf("field1"), Leaf("field2")]

  lemma PrintFour(a: Sel, b: Sel, c: Sel, d: Sel, pad: string)
    ensures Print([a, b, c, d], pad) == PrintSel(a, pad) + PrintSel(b, pad) + PrintSel(c, pad) + PrintSel(d, pad)
  {
    PrintCons(d, [], pad);
    PrintCons(c, [d], pad);
    PrintCons(b, [c, d], pad);
    PrintCons(a, [b, c, d], pad);
    assert [a] + [b, c, d] == [a, b, c, d] && [b] + [c, d] == [b, c, d] && [c] + [d] == [c, d] && [d] + [] == [d];
  }

  lemma PrintTwo(a: Sel, b: Sel, pad: string)
    ensures Print([a, b], pad) == PrintSel(a, pad) + PrintSel(b, pad)
  {
    PrintCons(b, [], pad);
    PrintCons(a, [b], pad);
    assert [a] + [b] == [a, b] && [b] + [] == [b];
  }

  lemma DetailsPrint()
    ensures Print(DetailsSels, " ") == " extra1 extra2 field1 field2"
  {
    PrintFour(Leaf("extra1"), Leaf("extra2"), Leaf("field1"), Leaf("field2"), " ");
  }

  lemma NestedPrint()
    ensures Print([Block("details", DetailsSels), Leaf("id")], " ") == " details { extra1 extra2 field1 field2 } id"
  {
    PrintTwo(Block("details", DetailsSels), Leaf("id"), " ");
    DetailsBlockPrint();
    assert PrintSel(Leaf("id"), " ") == " id";
    assert " details { extra1 extra2 field1 field2 }" + " id" == " details { extra1 extra2 field1 field2 } id";
  }

  lemma DetailsBlockPrint()
    ensures PrintSel(Block("details", DetailsSels), " ") == " details { extra1 extra2 field1 field2 }"
  {
    DetailsPrint();
    assert PrintSel(Block("details", DetailsSels), " ") == " " + "details" + " {" + Print(DetailsSels, " ") + " " + "}";
    DetailsBlockText();
  }

  lemma DetailsBlockText()
    ensures " " + "details" + " {" + " extra1 extra2 field1 field2" + " " + "}" == " details { extra1 extra2 field1 field2 }"
  {
    assert " " + "details" + " {" == " details {";
    DetailsOpenText();
    assert " details { extra1 extra2 field1 field2" + " " == " details { extra1 extra2 field1 field2 ";
  }

  lemma DetailsOpenText()
    ensures " details {" + " extra1 extra2 field1 field2" == " details { extra1 extra2 field1 field2"
  {
  }

  /** A nested object prints as a block, with its extra fields merged into its sorted keys. */
  lemma NestedExtrasQuery()
    ensures GraphQlQuery(Nested, NestedExtras, {}, "items", 1, 1)
         == "query { items { details { extra1 extra2 field1 field2 } id }}"
  {
    var inner := Print(Render(Nested, ExtraTree(NestedExtras), "", {}, " "), " ");
    assert inner == " details { extra1 extra2 field1 field2 } id" by {
      NestedTree();
      NestedRender();
      NestedPrint();
    }
    QueryShape(Nested, NestedExtras, {}, "items");
    NestedText();
  }

  lemma NestedText()
    ensures "query {" + (" " + "items" + " {" + " details { extra1 extra2 field1 field2 } id" + " " + "}") + "}"
         == "query { items { details { extra1 extra2 field1 field2 } id }}"
  {
    assert " details { extra1 extra2 field1 field2 } id" == " details { extra1 extra2" + " field1 field2 } id";
    assert " " + "items" + " {" == " items {";
    Regroup("query {", " items {", " details { extra1 extra2", " field1 field2 } id", " ", "}", "}");
    NestedTextHead();
    NestedTextTail();
  }

  lemma NestedTextHead()
    ensures "query {" + " items {" + " details { extra1 extra2" == "query { items { details { extra1 extra2"
  {
    assert "query {" + " items {" == "query { items {";
  }

  lemma NestedTextTail()
    ensures "query { items { details { extra1 extra2" + " field1 field2 } id" + " " + "}" + "}"
         == "query { items { details { extra1 extra2 field1 field2 } id }}"
  {
    assert "query { items { details { extra1 extra2" + " field1 field2 } id"
        == "query { items { details { extra1 extra2 field1 field2 } id";
    assert "query { items { details { extra1 extra2 field1 field2 } id" + " "
        == "query { items { details { extra1 extra2 field1 field2 } id ";
  }

  /** Concatenation regrouped to the left, so that each step appends a short piece. */
  lemma Regroup(a: string, b: string, c: string, d: string, e: string, f: string, g: string)
    ensures a + (b + (c + d) + e + f) + g == a + b + c + d + e + f + g
  {
  }

}
