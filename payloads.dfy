/**
 * The GraphQL query each stream puts in its request body (`update_data_payload`): the base
 * stream's query built on its root field, and the board items and column values overrides,
 * which format the root field from the parent record or the pagination cursor and close the
 * braces it leaves open.
 */
module Payloads {
  import opened Wrappers
  import opened Failures
  import opened Json
  import opened Text
  import opened Query
  import opened Streams

  /** The builder with its default indent and level, both 1. */
  function StreamQuery(s: Stream, rootField: string): string {
    GraphQlQuery(s.schema, s.attrs.extraFields, s.attrs.excludedFields, rootField, 1, 1)
  }

  /** The board items root field for the board `id`; it leaves two braces open. */
  function BoardRoot(id: Json): string {
    ("boards (ids: " + PyStr(id) + ") ") + "{" + (" items_page(limit: " + NatToString(BoardItemsPageSize) + ") ")
      + "{" + "cursor items "
  }

  /** The board items root field for the next page after `cursor`; it leaves one brace open. */
  function CursorRoot(cursor: Json): string {
    ("next_items_page(limit: " + NatToString(BoardItemsPageSize) + ", cursor: \"" + PyStr(cursor) + "\") ") + "{"
      + "cursor items "
  }

  /** The column values root field for the item `id`; it leaves one brace open. */
  function ItemsRoot(id: Json): string {
    ("items (ids: " + PyStr(id) + ") ") + "{" + " column_values"
  }

  /**
   * The query `update_data_payload` stores under "query" for a stream whose parent record is
   * `parent` and whose pagination cursor is `cursor` (None for every stream but board items).
   */
  function QueryFor(s: Stream, parent: Json, cursor: Json): (r: Result<string, Error>)
    ensures s.kind == BoardItems && !Truthy(cursor) && !Truthy(parent) ==> r.Err? && r.error.ValueError?
    ensures s.kind == BoardItems && !Truthy(cursor) && parent.JObj? && "id" !in parent.fields ==>
      r.Err? && r.error.ValueError?
    ensures s.kind == BoardItems && (Truthy(cursor) || (parent.JObj? && "id" in parent.fields)) ==> r.Ok?
    ensures s.kind == ColumnValues ==> (r.Ok? <==> parent.JObj? && "id" in parent.fields)
    ensures s.kind == ColumnValues && parent.JObj? && "id" !in parent.fields ==> r == Err(KeyError("id"))
    ensures s.kind != BoardItems && s.kind != ColumnValues ==> r == Ok(StreamQuery(s, s.attrs.rootField))
    ensures r.Ok? ==> "query {" <= r.value
  {
    match s.kind
    case BoardItems =>
      if Truthy(cursor) then Ok(StreamQuery(s, CursorRoot(cursor)) + "}")
      else if !Truthy(parent) then Err(ValueError(s.Id() + " - parent_obj must be provided with an 'id' key."))
      else
        var hasId :- Contains(parent, "id");
        if !hasId then Err(ValueError(s.Id() + " - parent_obj must be provided with an 'id' key."))
        else
          var id :- Subscript(parent, "id");
          Ok(StreamQuery(s, BoardRoot(id)) + "}}")
    case ColumnValues =>
      var id :- Subscript(parent, "id");
      Ok(StreamQuery(s, ItemsRoot(id)) + "}")
    case _ => Ok(StreamQuery(s, s.attrs.rootField))
  }

  lemma DigitsBraceFree(n: nat)
    ensures BraceFree(NatToString(n))
  {
    var t := NatToString(n);
    forall i | 0 <= i < |t|
      ensures t[i] != '{' && t[i] != '}'
    {
      assert IsDigit(t[i]);
    }
  }

  lemma OneOpen(x: string, y: string)
    requires BraceFree(x) && BraceFree(y)
    ensures Net(x + "{" + y) == 1 && Low(x + "{" + y) == 0
  {
    BraceFreeFlat(x);
    BraceFreeFlat(y);
    NetAppend(x, "{");
    LowAppend(x, "{");
    NetAppend(x + "{", y);
    LowAppend(x + "{", y);
  }

  lemma TwoOpen(x: string, y: string, z: string)
    requires BraceFree(x) && BraceFree(y) && BraceFree(z)
    ensures Net(x + "{" + y + "{" + z) == 2 && Low(x + "{" + y + "{" + z) == 0
  {
    OneOpen(x, y);
    OneOpen("", z);
    assert "" + "{" + z == "{" + z;
    NetAppend(x + "{" + y, "{" + z);
    LowAppend(x + "{" + y, "{" + z);
    assert x + "{" + y + "{" + z == (x + "{" + y) + ("{" + z);
  }

  lemma ConcatBraceFree(a: string, b: string)
    requires BraceFree(a) && BraceFree(b)
    ensures BraceFree(a + b)
  {
    assert forall c :: c in a + b ==> c in a || c in b;
  }

  /** The board root opens exactly two braces and never closes one. */
  lemma BoardRootOpens(id: Json)
    requires BraceFree(PyStr(id))
    ensures Net(BoardRoot(id)) == 2 && Low(BoardRoot(id)) == 0
  {
    DigitsBraceFree(BoardItemsPageSize);
    var x := "boards (ids: " + PyStr(id) + ") ";
    var y := " items_page(limit: " + NatToString(BoardItemsPageSize) + ") ";
    ConcatBraceFree("boards (ids: ", PyStr(id));
    ConcatBraceFree("boards (ids: " + PyStr(id), ") ");
    ConcatBraceFree(" items_page(limit: ", NatToString(BoardItemsPageSize));
    ConcatBraceFree(" items_page(limit: " + NatToString(BoardItemsPageSize), ") ");
    TwoOpen(x, y, "cursor items ");
  }

  /** The cursor root opens exactly one brace and never closes one. */
  lemma CursorRootOpens(cursor: Json)
    requires BraceFree(PyStr(cursor))
    ensures Net(CursorRoot(cursor)) == 1 && Low(CursorRoot(cursor)) == 0
  {
    DigitsBraceFree(BoardItemsPageSize);
    var n := NatToString(BoardItemsPageSize);
    ConcatBraceFree("next_items_page(limit: ", n);
    ConcatBraceFree("next_items_page(limit: " + n, ", cursor: \"");
    ConcatBraceFree("next_items_page(limit: " + n + ", cursor: \"", PyStr(cursor));
    ConcatBraceFree("next_items_page(limit: " + n + ", cursor: \"" + PyStr(cursor), "\") ");
    OneOpen("next_items_page(limit: " + n + ", cursor: \"" + PyStr(cursor) + "\") ", "cursor items ");
  }

  /** The items root opens exactly one brace and never closes one. */
  lemma ItemsRootOpens(id: Json)
    requires BraceFree(PyStr(id))
    ensures Net(ItemsRoot(id)) == 1 && Low(ItemsRoot(id)) == 0
  {
    ConcatBraceFree("items (ids: ", PyStr(id));
    ConcatBraceFree("items (ids: " + PyStr(id), ") ");
    OneOpen("items (ids: " + PyStr(id) + ") ", " column_values");
  }

  /** The builder's query on a root field that leaves `n` braces open, followed by `n` closing braces. */
  lemma RootQueryBalanced(s: Stream, rootField: string, n: nat)
    requires BraceFreeSchema(s.schema) && BraceFreeFields(s.attrs.extraFields)
    requires Net(rootField) == n && Low(rootField) == 0
    ensures Balanced(StreamQuery(s, rootField) + Closing(n))
  {
    QueryBalanced(s.schema, s.attrs.extraFields, s.attrs.excludedFields, rootField, 1, 1, n);
  }

  lemma ClosingSmall()
    ensures Closing(0) == "" && Closing(1) == "}" && Closing(2) == "}}"
  {
    assert Closing(1) == "}" + Closing(0);
    assert Closing(2) == "}" + Closing(1);
  }

  /**
   * Every query a stream sends has balanced braces: the closing braces the overrides append
   * match the ones their root fields leave open, provided the schema, the extra fields, the
   * root field and the interpolated id or cursor contain no braces themselves.
   */
  lemma QueryForBalanced(s: Stream, parent: Json, cursor: Json)
    requires BraceFreeSchema(s.schema) && BraceFreeFields(s.attrs.extraFields)
    requires s.kind != BoardItems && s.kind != ColumnValues ==> BraceFree(s.attrs.rootField)
    requires parent.JObj? && "id" in parent.fields ==> BraceFree(PyStr(parent.fields["id"]))
    requires BraceFree(PyStr(cursor))
    requires QueryFor(s, parent, cursor).Ok?
    ensures Balanced(QueryFor(s, parent, cursor).value)
  {
    ClosingSmall();
    if s.kind == BoardItems {
      BoardItemsBalanced(s, parent, cursor);
    } else if s.kind == ColumnValues {
      ColumnValuesBalanced(s, parent, cursor);
    } else {
      assert QueryFor(s, parent, cursor).value == StreamQuery(s, s.attrs.rootField) + Closing(0);
      BraceFreeFlat(s.attrs.rootField);
      RootQueryBalanced(s, s.attrs.rootField, 0);
    }
  }

  lemma ColumnValuesQuery(s: Stream, parent: Json, cursor: Json)
    requires s.kind == ColumnValues && parent.JObj? && "id" in parent.fields
    ensures QueryFor(s, parent, cursor) == Ok(StreamQuery(s, ItemsRoot(parent.fields["id"])) + "}")
  {
  }

  /** The column values case: one brace after the items root. */
  lemma ColumnValuesBalanced(s: Stream, parent: Json, cursor: Json)
    requires s.kind == ColumnValues
    requires BraceFreeSchema(s.schema) && BraceFreeFields(s.attrs.extraFields)
    requires parent.JObj? && "id" in parent.fields ==> BraceFree(PyStr(parent.fields["id"]))
    requires QueryFor(s, parent, cursor).Ok?
    ensures Balanced(QueryFor(s, parent, cursor).value)
  {
    ClosingSmall();
    var id := parent.fields["id"];
    ColumnValuesQuery(s, parent, cursor);
    ItemsRootOpens(id);
    RootQueryBalanced(s, ItemsRoot(id), 1);
  }

  /** The board items case: one brace after the cursor root, two after the board root. */
  lemma BoardItemsBalanced(s: Stream, parent: Json, cursor: Json)
    requires s.kind == BoardItems
    requires BraceFreeSchema(s.schema) && BraceFreeFields(s.attrs.extraFields)
    requires parent.JObj? && "id" in parent.fields ==> BraceFree(PyStr(parent.fields["id"]))
    requires BraceFree(PyStr(cursor))
    requires QueryFor(s, parent, cursor).Ok?
    ensures Balanced(QueryFor(s, parent, cursor).value)
  {
    ClosingSmall();
    if Truthy(cursor) {
      assert QueryFor(s, parent, cursor).value == StreamQuery(s, CursorRoot(cursor)) + Closing(1);
      CursorRootOpens(cursor);
      RootQueryBalanced(s, CursorRoot(cursor), 1);
    } else {
      var id := parent.fields["id"];
      assert QueryFor(s, parent, cursor).value == StreamQuery(s, BoardRoot(id)) + Closing(2);
      BoardRootOpens(id);
      RootQueryBalanced(s, BoardRoot(id), 2);
    }
  }

  /**
   * The fields the records gain in `modify_object` (board and item ids, the `_id` fields) are
   * excluded, so the top level of the query never asks the API for them.
   */
  lemma SyntheticFieldsNotRequested(s: Stream, f: string)
    requires f in s.attrs.excludedFields
    ensures f !in Elems(Names(Render(s.schema, ExtraTree(s.attrs.extraFields), "", s.attrs.excludedFields, Spaces(1))))
  {
    ExcludedNeverSelected(s.schema, ExtraTree(s.attrs.extraFields), "", s.attrs.excludedFields, Spaces(1), f);
  }
}
