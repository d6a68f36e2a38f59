/**
 * Response extraction and record normalisation: `get_dot_path_value`, `parse_raw_records`,
 * `add_object_to_id` and the per-stream `modify_object`, `parse_raw_records` and
 * `extract_assets` overrides (tap_monday/streams/abstracts.py and the stream files).
 */
module Records {
  import opened Wrappers
  import opened Failures
  import opened Json
  import opened Text
  import opened Streams

  // ---------------------------------------------------------------- get_dot_path_value

  /**
   * Following `parts` from `v` while each value is a dict that holds the next key; None when a
   * segment is missing or a value on the way is not a dict.
   */
  function Walk(v: Json, parts: seq<string>): Option<Json>
    decreases |parts|
  {
    if parts == [] then Some(v)
    else
      var prev := Walk(v, parts[..|parts| - 1]);
      var key := parts[|parts| - 1];
      if prev.Some? && prev.value.JObj? && key in prev.value.fields then Some(prev.value.fields[key]) else None
  }

  /** The value a dotted path resolves to: a dict comes back wrapped in a list, a list as is. */
  function DotPath(record: Json, dottedPath: string): (r: Json)
    ensures r.JNull? || r.JArr?
  {
    var w := Walk(record, SplitDot(dottedPath));
    if w.None? then JNull
    else match w.value
      case JObj(_) => JArr([w.value])
      case JArr(_) => w.value
      case _ => JNull
  }

  /** Once a walk has failed, walking further fails too. */
  lemma {:induction false} WalkStaysMissing(v: Json, parts: seq<string>, n: nat)
    requires n <= |parts| && Walk(v, parts[..n]) == None
    ensures Walk(v, parts) == None
    decreases |parts| - n
  {
    if n < |parts| {
      assert parts[..n + 1][..n] == parts[..n];
      WalkStaysMissing(v, parts, n + 1);
    } else {
      assert parts[..n] == parts;
    }
  }

  /** The walk read from the front: the first segment is looked up, then the rest below it. */
  lemma {:induction false} WalkFront(v: Json, key: string, rest: seq<string>)
    ensures Walk(v, [key] + rest) ==
      if v.JObj? && key in v.fields then Walk(v.fields[key], rest) else None
    decreases |rest|
  {
    var parts := [key] + rest;
    if rest == [] {
      assert parts[..0] == [];
    } else {
      assert parts[..|parts| - 1] == [key] + rest[..|rest| - 1];
      WalkFront(v, key, rest[..|rest| - 1]);
    }
  }

  /** The record `{p0: {p1: ... {pn: v}}}`. */
  function Nest(parts: seq<string>, v: Json): Json {
    if parts == [] then v else JObj(map[parts[0] := Nest(parts[1..], v)])
  }

  /** A path resolves, in the record nested along it, to the value at its end. */
  lemma {:induction false} WalkNest(parts: seq<string>, v: Json)
    ensures Walk(Nest(parts, v), parts) == Some(v)
  {
    if parts != [] {
      WalkNest(parts[1..], v);
      WalkFront(Nest(parts, v), parts[0], parts[1..]);
      assert [parts[0]] + parts[1..] == parts;
    }
  }

  /**
   * The resolution of a dotted path: a dict at the end of the path gives `[dict]`, a list at
   * the end gives the list, and a missing first segment gives None.
   */
  lemma DotPathFinds(dottedPath: string, v: Json)
    ensures v.JObj? ==> DotPath(Nest(SplitDot(dottedPath), v), dottedPath) == JArr([v])
    ensures v.JArr? ==> DotPath(Nest(SplitDot(dottedPath), v), dottedPath) == v
    ensures !v.JObj? && !v.JArr? ==> DotPath(Nest(SplitDot(dottedPath), v), dottedPath) == JNull
  {
    WalkNest(SplitDot(dottedPath), v);
  }

  lemma DotPathMissing(record: Json, dottedPath: string)
    requires var parts := SplitDot(dottedPath); !(record.JObj? && parts[0] in record.fields)
    ensures DotPath(record, dottedPath) == JNull
  {
    var parts := SplitDot(dottedPath);
    WalkFront(record, parts[0], parts[1..]);
    assert [parts[0]] + parts[1..] == parts;
  }

  /** `get_dot_path_value(record, dotted_path)` with the default None. */
  method GetDotPathValue(record: Json, dottedPath: string) returns (r: Json)
    ensures r == DotPath(record, dottedPath)
  {
    var keys := SplitDot(dottedPath);
    var value := record;
    var i := 0;
    while i < |keys|
      invariant 0 <= i <= |keys| && Walk(record, keys[..i]) == Some(value)
    {
      if value.JObj? && keys[i] in value.fields {
        assert keys[..i + 1][..i] == keys[..i];
        value := value.fields[keys[i]];
        i := i + 1;
      } else {
        assert keys[..i + 1][..i] == keys[..i];
        WalkStaysMissing(record, keys, i + 1);
        return JNull;
      }
    }
    assert keys[..i] == keys;
    if value.JObj? {
      r := JArr([value]);
    } else if value.JArr? {
      r := value;
    } else {
      r := JNull;
    }
  }

  // ---------------------------------------------------------------- parse_raw_records

  /** The base `parse_raw_records`: `raw_data or []`. */
  function ParseRawRecords(raw: Json): Json {
    if Truthy(raw) then raw else JArr([])
  }

  /**
   * What the base stream yields for one response: the list at the data key, the dict there
   * as a one-record list, and nothing for anything else.
   */
  lemma PageRecords(response: Json, dataKey: string)
    ensures var w := Walk(response, SplitDot(dataKey));
      Iterate(ParseRawRecords(DotPath(response, dataKey))) ==
        if w.Some? && w.value.JObj? then Ok([w.value])
        else if w.Some? && w.value.JArr? then Ok(w.value.items)
        else Ok([])
  {
  }

  // ---------------------------------------------------------------- add_object_to_id

  /** One step of `add_object_to_id` for the mapping entry `key -> alias`. */
  function AddOne(record: Json, key: string, alias: string): Result<Json, Error> {
    var nested :- Subscript(record, key);
    if Truthy(nested) then
      var id :- Subscript(nested, "id");
      Set(record, alias + "_id", id)
    else
      Set(record, key + "_id", JNull)
  }

  /** `add_object_to_id` over the mapping entries in order. */
  function AddIds(record: Json, objectToId: seq<(string, string)>): Result<Json, Error>
    decreases |objectToId|
  {
    if objectToId == [] then Ok(record)
    else
      var prev :- AddIds(record, objectToId[..|objectToId| - 1]);
      var (key, alias) := objectToId[|objectToId| - 1];
      AddOne(prev, key, alias)
  }

  /** A field name `add_object_to_id` may write for one of the entries. */
  predicate IdName(objectToId: seq<(string, string)>, f: string) {
    exists i :: 0 <= i < |objectToId| && (f == objectToId[i].0 + "_id" || f == objectToId[i].1 + "_id")
  }

  /**
   * Every field other than the `_id` names of the entries is left as it was, and the only
   * fields added are such names.
   */
  lemma {:induction false} AddIdsUnchanged(record: Json, objectToId: seq<(string, string)>)
    requires AddIds(record, objectToId).Ok?
    ensures var r := AddIds(record, objectToId).value;
      objectToId != [] ==> (
        && record.JObj? && r.JObj?
        && (forall f :: f in r.fields && !IdName(objectToId, f) ==> f in record.fields && r.fields[f] == record.fields[f])
        && record.fields.Keys <= r.fields.Keys)
    ensures objectToId == [] ==> AddIds(record, objectToId).value == record
    decreases |objectToId|
  {
    if objectToId != [] {
      var init := objectToId[..|objectToId| - 1];
      var (key, alias) := objectToId[|objectToId| - 1];
      var prev := AddIds(record, init).value;
      AddIdsUnchanged(record, init);
      assert forall f :: IdName(init, f) ==> IdName(objectToId, f) by {
        forall f | IdName(init, f) ensures IdName(objectToId, f) {
          var i :| 0 <= i < |init| && (f == init[i].0 + "_id" || f == init[i].1 + "_id");
          assert objectToId[i] == init[i];
        }
      }
      assert IdName(objectToId, key + "_id") && IdName(objectToId, alias + "_id") by {
        assert objectToId[|objectToId| - 1] == (key, alias);
      }
    }
  }

  /** A truthy nested object contributes `<alias>_id`, its own id. */
  lemma AddOneTruthy(record: Json, key: string, alias: string)
    requires record.JObj? && key in record.fields && Truthy(record.fields[key])
    requires record.fields[key].JObj? && "id" in record.fields[key].fields
    ensures AddOne(record, key, alias) ==
      Ok(JObj(record.fields[alias + "_id" := record.fields[key].fields["id"]]))
  {
  }

  /** A falsy nested object writes `<key>_id = None`: the key, not the alias, names the field. */
  lemma AddOneFalsy(record: Json, key: string, alias: string)
    requires record.JObj? && key in record.fields && !Truthy(record.fields[key])
    ensures AddOne(record, key, alias) == Ok(JObj(record.fields[key + "_id" := JNull]))
  {
  }

  /** A mapped key missing from the record is a KeyError. */
  lemma AddOneMissing(record: Json, key: string, alias: string)
    requires record.JObj? && key !in record.fields
    ensures AddOne(record, key, alias) == Err(KeyError(key))
  {
  }

  /**
   * For docs (`created_by -> creator`) an empty creator is recorded as `created_by_id`, while a
   * present one is recorded as `creator_id`, the name the stream excludes from its query.
   */
  lemma DocsAliasAsymmetry(creator: Json)
    requires creator.JObj? && "id" in creator.fields
    ensures var m := DocsAttrs.objectToId;
      && AddIds(JObj(map["created_by" := JNull]), m) == Ok(JObj(map["created_by" := JNull, "created_by_id" := JNull]))
      && AddIds(JObj(map["created_by" := creator]), m) ==
           Ok(JObj(map["created_by" := creator, "creator_id" := creator.fields["id"]]))
      && "creator_id" in DocsAttrs.excludedFields && "created_by_id" !in DocsAttrs.excludedFields
  {
    var m := DocsAttrs.objectToId;
    assert m[..0] == [];
    assert m[0] == ("created_by", "creator");
    assert "created_by" + "_id" == "created_by_id";
    assert "creator" + "_id" == "creator_id";
    assert Truthy(creator);
  }

  /** A failure part-way through the entries is the failure of the whole. */
  lemma {:induction false} AddIdsFailed(record: Json, objectToId: seq<(string, string)>, n: nat)
    requires n <= |objectToId| && AddIds(record, objectToId[..n]).Err?
    ensures AddIds(record, objectToId) == AddIds(record, objectToId[..n])
    decreases |objectToId| - n
  {
    if n < |objectToId| {
      assert objectToId[..n + 1][..n] == objectToId[..n];
      AddIdsFailed(record, objectToId, n + 1);
    } else {
      assert objectToId[..n] == objectToId;
    }
  }

  /** The in-place `add_object_to_id`: the entries are applied in order to the one record. */
  method AddObjectToId(record: Json, objectToId: seq<(string, string)>) returns (r: Result<Json, Error>)
    ensures r == AddIds(record, objectToId)
  {
    var current := record;
    var i := 0;
    while i < |objectToId|
      invariant 0 <= i <= |objectToId| && AddIds(record, objectToId[..i]) == Ok(current)
    {
      assert objectToId[..i + 1][..i] == objectToId[..i];
      var (key, alias) := objectToId[i];
      if !current.JObj? || key !in current.fields {
        r := Subscript(current, key).PropagateFailure();
        AddIdsFailed(record, objectToId, i + 1);
        return;
      }
      var nested := current.fields[key];
      if Truthy(nested) {
        if !nested.JObj? || "id" !in nested.fields {
          r := Subscript(nested, "id").PropagateFailure();
          AddIdsFailed(record, objectToId, i + 1);
          return;
        }
        current := JObj(current.fields[alias + "_id" := nested.fields["id"]]);
      } else {
        current := JObj(current.fields[key + "_id" := JNull]);
      }
      i := i + 1;
    }
    assert objectToId[..i] == objectToId;
    return Ok(current);
  }

  // ---------------------------------------------------------------- modify_object

  /** The `modify_object` of each stream class, applied to a record and its parent record. */
  function ModifyObject(kind: Kind, record: Json, parent: Json, objectToId: seq<(string, string)>): Result<Json, Error> {
    var r :- AddIds(record, objectToId);
    match kind
    case BoardItems =>
      var board :- Get(parent, "id", JNull);
      Set(r, "board_id", board)
    case ColumnValues =>
      var item :- Get(parent, "id", JNull);
      var withItem :- Set(r, "item_id", item);
      var board :- Get(parent, "board_id", JNull);
      Set(withItem, "board_id", board)
    case Assets =>
      var update :- Get(parent, "id", JNull);
      Set(r, "update_id", update)
    case PlatformApi =>
      var analytics :- Subscript(r, "daily_analytics");
      var lastUpdated :- Subscript(analytics, "last_updated");
      Set(r, "last_updated", lastUpdated)
    case _ => Ok(r)
  }

  /** A field name ending in `_id` is never the field `id`. */
  lemma IdIsNoIdName(objectToId: seq<(string, string)>)
    ensures !IdName(objectToId, "id")
  {
    forall i | 0 <= i < |objectToId|
      ensures "id" != objectToId[i].0 + "_id" && "id" != objectToId[i].1 + "_id"
    {
      assert |objectToId[i].0 + "_id"| >= 3 && |objectToId[i].1 + "_id"| >= 3;
    }
  }

  /**
   * A column value records the item it belongs to and that item's board: the board id was put
   * on the item by the board items stream, from the board the item was read under.
   */
  lemma ColumnValueCarriesBoard(item: Json, board: Json, columnValue: Json)
    requires ModifyObject(BoardItems, item, board, BoardItemsAttrs.objectToId).Ok?
    requires ModifyObject(ColumnValues, columnValue, ModifyObject(BoardItems, item, board, BoardItemsAttrs.objectToId).value,
                          ColumnValuesAttrs.objectToId).Ok?
    ensures var it := ModifyObject(BoardItems, item, board, BoardItemsAttrs.objectToId).value;
      var cv := ModifyObject(ColumnValues, columnValue, it, ColumnValuesAttrs.objectToId).value;
      && board.JObj? && item.JObj? && cv.JObj?
      && cv.fields["board_id"] == (if "id" in board.fields then board.fields["id"] else JNull)
      && cv.fields["item_id"] == (if "id" in item.fields then item.fields["id"] else JNull)
  {
    var m := BoardItemsAttrs.objectToId;
    AddIdsUnchanged(item, m);
    IdIsNoIdName(m);
    var named := AddIds(item, m).value;
    assert "id" in item.fields <==> "id" in named.fields;
    assert "id" in item.fields ==> named.fields["id"] == item.fields["id"];
    assert ColumnValuesAttrs.objectToId == [];
  }

  /**
   * Platform API records copy `daily_analytics.last_updated` to the top level, and a record
   * without it fails with a KeyError.
   */
  lemma PlatformApiLastUpdated(record: Json)
    requires record.JObj?
    ensures var r := ModifyObject(PlatformApi, record, JNull, PlatformApiAttrs.objectToId);
      && ("daily_analytics" !in record.fields ==> r == Err(KeyError("daily_analytics")))
      && (r.Ok? ==> r.value.JObj? && record.fields["daily_analytics"].JObj?
                    && r.value.fields["last_updated"] == record.fields["daily_analytics"].fields["last_updated"])
      && (("daily_analytics" in record.fields && record.fields["daily_analytics"].JObj?
           && "last_updated" !in record.fields["daily_analytics"].fields) ==> r == Err(KeyError("last_updated")))
  {
    assert PlatformApiAttrs.objectToId == [];
  }

  /** An asset records the update it came with and, through its mapping, its uploader's id. */
  lemma AssetIds(record: Json, update: Json)
    requires record.JObj? && "uploaded_by" in record.fields && update.JObj?
    requires var u := record.fields["uploaded_by"]; u.JObj? && "id" in u.fields
    ensures var r := ModifyObject(Assets, record, update, AssetsAttrs.objectToId);
      && r.Ok? && r.value.JObj? && "uploaded_by_id" in r.value.fields && "update_id" in r.value.fields
      && r.value.fields["uploaded_by_id"] == record.fields["uploaded_by"].fields["id"]
      && r.value.fields["update_id"] == (if "id" in update.fields then update.fields["id"] else JNull)
  {
    var m := AssetsAttrs.objectToId;
    assert m[..0] == [] && m[0] == ("uploaded_by", "uploaded_by");
    assert "uploaded_by" + "_id" == "uploaded_by_id";
    assert Truthy(record.fields["uploaded_by"]);
  }

  /** The in-place `modify_object`: the identifier fields first, then the class's own fields. */
  method ModifyRecord(kind: Kind, record: Json, parent: Json, objectToId: seq<(string, string)>)
    returns (r: Result<Json, Error>)
    ensures r == ModifyObject(kind, record, parent, objectToId)
  {
    var named := AddObjectToId(record, objectToId);
    if named.Err? {
      return named.PropagateFailure();
    }
    var rec := named.value;
    match kind {
      case BoardItems =>
        var board :- Get(parent, "id", JNull);
        r := Set(rec, "board_id", board);
      case ColumnValues =>
        var item :- Get(parent, "id", JNull);
        var withItem :- Set(rec, "item_id", item);
        var board := if "board_id" in parent.fields then parent.fields["board_id"] else JNull;
        r := Set(withItem, "board_id", board);
      case Assets =>
        var update :- Get(parent, "id", JNull);
        r := Set(rec, "update_id", update);
      case PlatformApi =>
        var analytics :- Subscript(rec, "daily_analytics");
        var lastUpdated :- Subscript(analytics, "last_updated");
        r := Set(rec, "last_updated", lastUpdated);
      case _ =>
        r := Ok(rec);
    }
  }

  /** `modify_object` applied to each record of a sequence, stopping at the first failure. */
  function ModifyAll(kind: Kind, records: seq<Json>, parent: Json, objectToId: seq<(string, string)>)
    : Result<seq<Json>, Error>
    decreases |records|
  {
    if records == [] then Ok([])
    else
      var before :- ModifyAll(kind, records[..|records| - 1], parent, objectToId);
      var last :- ModifyObject(kind, records[|records| - 1], parent, objectToId);
      Ok(before + [last])
  }

  lemma ModifyAllPush(kind: Kind, records: seq<Json>, parent: Json, objectToId: seq<(string, string)>,
                      done: seq<Json>, record: Json, modified: Json)
    requires ModifyAll(kind, records, parent, objectToId) == Ok(done)
    requires ModifyObject(kind, record, parent, objectToId) == Ok(modified)
    ensures ModifyAll(kind, records + [record], parent, objectToId) == Ok(done + [modified])
  {
    assert (records + [record])[..|records|] == records;
  }

  lemma ModifyAllStep(kind: Kind, records: seq<Json>, j: nat, parent: Json, objectToId: seq<(string, string)>,
                      done: seq<Json>, modified: Json)
    requires j < |records| && ModifyAll(kind, records[..j], parent, objectToId) == Ok(done)
    requires ModifyObject(kind, records[j], parent, objectToId) == Ok(modified)
    ensures ModifyAll(kind, records[..j + 1], parent, objectToId) == Ok(done + [modified])
  {
    assert records[..j + 1] == records[..j] + [records[j]];
    ModifyAllPush(kind, records[..j], parent, objectToId, done, records[j], modified);
  }

  /** Modifying two runs of records one after the other is modifying their concatenation. */
  lemma {:induction false} ModifyAllAppend(kind: Kind, a: seq<Json>, b: seq<Json>, parent: Json,
                                           objectToId: seq<(string, string)>, da: seq<Json>, db: seq<Json>)
    requires ModifyAll(kind, a, parent, objectToId) == Ok(da)
    requires ModifyAll(kind, b, parent, objectToId) == Ok(db)
    ensures ModifyAll(kind, a + b, parent, objectToId) == Ok(da + db)
    decreases |b|
  {
    if b == [] {
      assert a + b == a && da + db == da;
    } else {
      var init := b[..|b| - 1];
      var dinit := ModifyAll(kind, init, parent, objectToId).value;
      var last := ModifyObject(kind, b[|b| - 1], parent, objectToId).value;
      ModifyAllAppend(kind, a, init, parent, objectToId, da, dinit);
      ModifyAllPush(kind, a + init, parent, objectToId, da + dinit, b[|b| - 1], last);
      assert a + init + [b[|b| - 1]] == a + b;
      assert da + dinit + [last] == da + db;
    }
  }

  /** A successful `ModifyAll` is `modify_object` record by record, in order. */
  lemma {:induction false} ModifyAllPointwise(kind: Kind, records: seq<Json>, parent: Json,
                                              objectToId: seq<(string, string)>)
    requires ModifyAll(kind, records, parent, objectToId).Ok?
    ensures var done := ModifyAll(kind, records, parent, objectToId).value;
      |done| == |records| &&
      forall i :: 0 <= i < |records| ==> ModifyObject(kind, records[i], parent, objectToId) == Ok(done[i])
    decreases |records|
  {
    if records != [] {
      var init := records[..|records| - 1];
      ModifyAllPointwise(kind, init, parent, objectToId);
      var done := ModifyAll(kind, records, parent, objectToId).value;
      var before := ModifyAll(kind, init, parent, objectToId).value;
      forall i | 0 <= i < |records|
        ensures ModifyObject(kind, records[i], parent, objectToId) == Ok(done[i])
      {
        if i < |init| {
          assert records[i] == init[i] && done[i] == before[i];
        }
      }
    }
  }

  // ---------------------------------------------------------------- parse_raw_records overrides

  /** The `items_page` a board items response holds: under `next_items_page` once a cursor is held. */
  function ItemsPage(raw: Json, cursor: Json): Result<Json, Error> {
    if !Truthy(raw) then Ok(JObj(map[]))
    else
      var first :- First(raw);
      if Truthy(cursor) then Get(first, "next_items_page", JObj(map[]))
      else
        var boards :- Get(first, "boards", JArr([]));
        var board :- First(boards);
        Get(board, "items_page", JObj(map[]))
  }

  /** `BoardItems.parse_raw_records`: the page's items and the cursor it stores for the next page. */
  function ParseBoardItems(raw: Json, cursor: Json): Result<(Json, Json), Error> {
    var page :- ItemsPage(raw, cursor);
    var next :- Get(page, "cursor", JNull);
    var items :- Get(page, "items", JArr([]));
    Ok((items, next))
  }

  /**
   * Without a cursor the items and cursor are read from the first board of the first result,
   * with a cursor from its `next_items_page`; an empty response gives no items and no cursor.
   */
  lemma BoardItemsPages(first: Json, rest: seq<Json>, board: Json, boards: seq<Json>, page: map<string, Json>, cursor: Json)
    ensures !Truthy(cursor) && first.JObj? && first.fields == map["boards" := JArr([board] + boards)]
            && board.JObj? && board.fields == map["items_page" := JObj(page)] ==>
      ParseBoardItems(JArr([first] + rest), cursor) ==
        Ok((if "items" in page then page["items"] else JArr([]), if "cursor" in page then page["cursor"] else JNull))
    ensures Truthy(cursor) && first.JObj? && first.fields == map["next_items_page" := JObj(page)] ==>
      ParseBoardItems(JArr([first] + rest), cursor) ==
        Ok((if "items" in page then page["items"] else JArr([]), if "cursor" in page then page["cursor"] else JNull))
    ensures ParseBoardItems(JArr([]), cursor) == Ok((JArr([]), JNull))
    ensures ParseBoardItems(JNull, cursor) == Ok((JArr([]), JNull))
  {
  }

  /** `ColumnValues.parse_raw_records`: the first result's `column_values`, or `[]`. */
  function ParseColumnValues(raw: Json): Result<Json, Error> {
    if Truthy(raw) then
      var first :- First(raw);
      Get(first, "column_values", JNull)
    else Ok(JArr([]))
  }

  lemma ColumnValuesPages(first: map<string, Json>, rest: seq<Json>)
    ensures ParseColumnValues(JArr([JObj(first)] + rest)) ==
      Ok(if "column_values" in first then first["column_values"] else JNull)
    ensures ParseColumnValues(JArr([])) == Ok(JArr([])) && ParseColumnValues(JNull) == Ok(JArr([]))
  {
  }

  // ---------------------------------------------------------------- extract_assets

  /** The assets of the replies, in reply order. */
  function RepliesAssets(replies: seq<Json>): Result<seq<Json>, Error>
    decreases |replies|
  {
    if replies == [] then Ok([])
    else
      var before :- RepliesAssets(replies[..|replies| - 1]);
      var list :- Get(replies[|replies| - 1], "assets", JArr([]));
      var assets :- Iterate(list);
      Ok(before + assets)
  }

  /** A reply that fails makes the whole reply list fail. */
  lemma {:induction false} RepliesAssetsFailed(replies: seq<Json>, n: nat)
    requires n <= |replies| && RepliesAssets(replies[..n]).Err?
    ensures RepliesAssets(replies) == RepliesAssets(replies[..n])
    decreases |replies| - n
  {
    if n < |replies| {
      assert replies[..n + 1][..n] == replies[..n];
      RepliesAssetsFailed(replies, n + 1);
    } else {
      assert replies[..n] == replies;
    }
  }

  /** `extract_assets`: the top-level assets, then each reply's assets. */
  function AssetsOf(data: Json): Result<seq<Json>, Error> {
    var list :- Get(data, "assets", JArr([]));
    var top :- Iterate(list);
    var repliesList :- Get(data, "replies", JArr([]));
    var replies :- Iterate(repliesList);
    var nested :- RepliesAssets(replies);
    Ok(top + nested)
  }

  /** How many assets a reply holds, a missing list counting as empty. */
  function ReplyAssetCount(reply: Json): nat {
    if reply.JObj? && "assets" in reply.fields && reply.fields["assets"].JArr? then |reply.fields["assets"].items| else 0
  }

  function SumReplyAssets(replies: seq<Json>): nat
    decreases |replies|
  {
    if replies == [] then 0 else SumReplyAssets(replies[..|replies| - 1]) + ReplyAssetCount(replies[|replies| - 1])
  }

  /** A reply that is a dict whose `assets`, when present, is a list. */
  predicate WellShapedReply(reply: Json) {
    reply.JObj? && ("assets" in reply.fields ==> reply.fields["assets"].JArr?)
  }

  lemma {:induction false} RepliesAssetsCount(replies: seq<Json>)
    requires forall i :: 0 <= i < |replies| ==> WellShapedReply(replies[i])
    ensures RepliesAssets(replies).Ok? && |RepliesAssets(replies).value| == SumReplyAssets(replies)
    decreases |replies|
  {
    if replies != [] {
      RepliesAssetsCount(replies[..|replies| - 1]);
    }
  }

  /**
   * The number of extracted assets is the number of top-level assets plus the number in each
   * reply, missing lists counting as empty.
   */
  lemma AssetsCount(data: Json)
    requires data.JObj?
    requires "assets" in data.fields ==> data.fields["assets"].JArr?
    requires "replies" in data.fields ==> (data.fields["replies"].JArr? &&
      forall i :: 0 <= i < |data.fields["replies"].items| ==> WellShapedReply(data.fields["replies"].items[i]))
    ensures AssetsOf(data).Ok?
    ensures |AssetsOf(data).value| ==
      (if "assets" in data.fields then |data.fields["assets"].items| else 0) +
      (if "replies" in data.fields then SumReplyAssets(data.fields["replies"].items) else 0)
  {
    if "replies" in data.fields {
      RepliesAssetsCount(data.fields["replies"].items);
    }
  }

  /** `all_assets.append(asset)` for each asset in turn. */
  method AppendEach(all: seq<Json>, items: seq<Json>) returns (r: seq<Json>)
    ensures r == all + items
  {
    r := all;
    var k := 0;
    while k < |items|
      invariant 0 <= k <= |items| && r == all + items[..k]
    {
      r := r + [items[k]];
      k := k + 1;
    }
    assert items[..k] == items;
  }

  /** The looping `extract_assets`, appending to one list. */
  method ExtractAssets(data: Json) returns (r: Result<seq<Json>, Error>)
    ensures r == AssetsOf(data)
  {
    var list :- Get(data, "assets", JArr([]));
    var top :- Iterate(list);
    var all := AppendEach([], top);
    assert [] + top == top;
    var repliesList := if "replies" in data.fields then data.fields["replies"] else JArr([]);
    var replies :- Iterate(repliesList);
    var j := 0;
    while j < |replies|
      invariant 0 <= j <= |replies| && RepliesAssets(replies[..j]).Ok?
      invariant all == top + RepliesAssets(replies[..j]).value
    {
      assert replies[..j + 1][..j] == replies[..j];
      var assetsList := Get(replies[j], "assets", JArr([]));
      var listed := if assetsList.Ok? then Iterate(assetsList.value) else assetsList.PropagateFailure();
      if listed.Err? {
        RepliesAssetsFailed(replies, j + 1);
        return listed.PropagateFailure();
      }
      ghost var before := all;
      all := AppendEach(all, listed.value);
      assert all == top + (RepliesAssets(replies[..j]).value + listed.value);
      j := j + 1;
    }
    assert replies[..j] == replies;
    return Ok(all);
  }
}
