/**
 * The stream descriptors: the class constants of each stream (the files under tap_monday/streams) and the
 * catalog-derived parts of a stream instance (its schema, whether it is selected, and the
 * child streams it syncs per parent record).
 */
module Streams {
  import opened Wrappers
  import opened Text
  import opened Query

  /**
   * Which `sync`, `get_bookmark`, `write_bookmark`, `update_data_payload`, `parse_raw_records`
   * and `modify_object` a stream uses: the two generic base classes and the eight stream
   * classes that override one of them.
   */
  datatype Kind =
    | Incremental        // an IncrementalStream without overrides
    | FullTable          // a FullTableStream without overrides
    | Boards
    | BoardItems
    | Updates
    | BoardActivityLogs
    | Reply
    | ColumnValues
    | Assets
    | PlatformApi

  /** The class attributes the engine reads. A root field of None is the empty string. */
  datatype Attrs = Attrs(
    id: string,
    replicationMethod: string,
    replicationKeys: seq<string>,
    dataKey: string,
    path: string,
    urlEndpoint: string,
    rootField: string,
    objectToId: seq<(string, string)>,
    extraFields: seq<(string, seq<string>)>,
    excludedFields: set<string>)

  /** A stream instance of one run. */
  datatype Stream = Stream(kind: Kind, attrs: Attrs, schema: Schema, selected: bool, children: seq<Stream>)
  {
    function Id(): string { attrs.id }
  }

  predicate IsIncremental(k: Kind) {
    k in {Incremental, Boards, BoardItems, Updates, BoardActivityLogs, Reply, PlatformApi}
  }

  /** The page size of board items, used in both of its root fields. */
  const BoardItemsPageSize: nat := 20

  const BoardsAttrs: Attrs := Attrs(
    "boards", "INCREMENTAL", ["updated_at"], "data.boards", "", "", "boards",
    [("creator", "creator"), ("top_group", "top_group")],
    [("creator", ["id"]), ("top_group", ["id"])],
    {"creator_id", "top_group_id"})

  const BoardItemsAttrs: Attrs := Attrs(
    "board_items", "INCREMENTAL", ["updated_at"], "data", "", "",
    "boards (ids: {ids}) {{ items_page(limit: {limit}) {{cursor items ",
    [("creator", "creator"), ("group", "group"), ("parent_item", "parent_item")],
    [("creator", ["id"]), ("group", ["id"]), ("parent_item", ["id"])],
    {"creator_id", "board_id", "group_id", "parent_item_id"})

  const UpdatesAttrs: Attrs := Attrs(
    "updates", "INCREMENTAL", ["updated_at"], "data.updates", "", "", "", [], [], {})

  const BoardActivityLogsAttrs: Attrs := Attrs(
    "board_activity_logs", "INCREMENTAL", ["created_at"], "activity_logs", "", "", "", [], [], {})

  const ReplyAttrs: Attrs := Attrs(
    "reply", "INCREMENTAL", ["updated_at"], "reply", "", "", "", [], [], {})

  const ColumnValuesAttrs: Attrs := Attrs(
    "column_values", "FULL_TABLE", [], "data.items", "", "", "items (ids: {ids}) {{ column_values",
    [], [], {"item_id", "board_id"})

  const AssetsAttrs: Attrs := Attrs(
    "assets", "FULL_TABLE", [], "assets", "", "", "", [("uploaded_by", "uploaded_by")], [], {})

  const PlatformApiAttrs: Attrs := Attrs(
    "platform_api", "INCREMENTAL", ["last_updated"], "data.platform_api", "", "", "platform_api",
    [], [("daily_analytics.last_updated", [])], {"last_updated"})

  /** A config-only stream whose `object_to_id` names a different alias than its key. */
  const DocsAttrs: Attrs := Attrs(
    "docs", "FULL_TABLE", [], "data.docs", "", "", "docs",
    [("created_by", "creator")], [("created_by", ["id"])], {"creator_id"})

  /** The constants of the classes with overrides; the generic kinds take any. */
  function CoreAttrs(k: Kind): (r: Option<Attrs>)
    ensures r.Some? <==> k != Incremental && k != FullTable
    ensures r.Some? && IsIncremental(k) ==> |r.value.replicationKeys| == 1
    ensures r.Some? && !IsIncremental(k) ==> r.value.replicationKeys == []
  {
    match k
    case Incremental => None
    case FullTable => None
    case Boards => Some(BoardsAttrs)
    case BoardItems => Some(BoardItemsAttrs)
    case Updates => Some(UpdatesAttrs)
    case BoardActivityLogs => Some(BoardActivityLogsAttrs)
    case Reply => Some(ReplyAttrs)
    case ColumnValues => Some(ColumnValuesAttrs)
    case Assets => Some(AssetsAttrs)
    case PlatformApi => Some(PlatformApiAttrs)
  }

  /** No stream in the tree rooted at `s` has the id `id`. */
  predicate Excludes(s: Stream, id: string)
    decreases s
  {
    s.Id() != id && forall i :: 0 <= i < |s.children| ==> Excludes(s.children[i], id)
  }

  /**
   * A well-formed stream tree: overriding classes carry their own constants, every incremental
   * stream has a replication key, and no stream has a descendant with its own id (each stream
   * class is instantiated once per run).
   */
  predicate Wf(s: Stream)
    decreases s
  {
    && (CoreAttrs(s.kind).Some? ==> s.attrs == CoreAttrs(s.kind).value)
    && (IsIncremental(s.kind) ==> |s.attrs.replicationKeys| > 0)
    && forall i :: 0 <= i < |s.children| ==> Excludes(s.children[i], s.Id()) && Wf(s.children[i])
  }

  /**
   * The shape the sync engine relies on: every incremental stream has a replication key, and
   * no stream has a descendant with its own id.
   */
  predicate Tree(s: Stream)
    decreases s
  {
    && (IsIncremental(s.kind) ==> |s.attrs.replicationKeys| > 0)
    && forall i :: 0 <= i < |s.children| ==> Excludes(s.children[i], s.Id()) && Tree(s.children[i])
  }

  /** A well-formed catalog tree has that shape. */
  lemma {:induction false} WfTree(s: Stream)
    requires Wf(s)
    ensures Tree(s)
    decreases s
  {
    forall i | 0 <= i < |s.children|
      ensures Tree(s.children[i])
    {
      WfTree(s.children[i]);
    }
  }

  /** The first replication key. */
  function Rk0(s: Stream): string
    requires |s.attrs.replicationKeys| > 0
  {
    s.attrs.replicationKeys[0]
  }

  /** `get_url_endpoint`: the class's endpoint, else the base URL joined with the path. */
  function UrlEndpoint(s: Stream, baseUrl: string): (r: string)
    ensures s.attrs.urlEndpoint != "" ==> r == s.attrs.urlEndpoint
    ensures s.attrs.urlEndpoint == "" ==> r == baseUrl + "/" + s.attrs.path
  {
    if s.attrs.urlEndpoint != "" then s.attrs.urlEndpoint else baseUrl + "/" + s.attrs.path
  }
}
