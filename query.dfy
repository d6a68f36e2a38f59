/**
 * The GraphQL query builder of the base stream (`get_graphql_query`): a selection set is
 * generated from the stream's JSON schema, merged with extra fields given by dot-path, with
 * excluded dot-paths dropped (selection sets as in section 2.4 of the GraphQL specification,
 * "Selection Sets"). The selection is built as a tree of `Sel` and printed with the same
 * padding, braces and spacing as the source.
 */
module Query {
  import opened Wrappers
  import opened Text

  // ---------------------------------------------------------------- inputs

  /**
   * A JSON-schema node: its "type" (a single string type is a one-element list), its
   * "properties" in order, and its "items" schema when present.
   */
  datatype Schema = Schema(types: seq<string>, properties: seq<(string, Schema)>, items: Option<Schema>)

  /** The schema `{}`. */
  const EmptySchema: Schema := Schema([], [], None)

  /**
   * A node of the extra-field tree: `fields` is the "_extras" entry (None when absent),
   * `children` the nested path segments in insertion order.
   */
  datatype Extra = Extra(fields: Option<seq<string>>, children: seq<(string, Extra)>)

  /** The empty dict `{}`. */
  const NoExtras: Extra := Extra(None, [])

  /** The keys of an ordered dict. */
  function KeysOf<V>(ps: seq<(string, V)>): (r: seq<string>)
    ensures |r| == |ps| && forall i :: 0 <= i < |ps| ==> r[i] == ps[i].0
  {
    if ps == [] then [] else [ps[0].0] + KeysOf(ps[1..])
  }

  /** The position of `key` in an ordered dict. */
  function IndexOf<V>(ps: seq<(string, V)>, key: string): (r: Option<nat>)
    ensures r.Some? ==> r.value < |ps| && ps[r.value].0 == key
    ensures r.None? <==> key !in Elems(KeysOf(ps))
  {
    if ps == [] then None
    else if ps[0].0 == key then Some(0)
    else match IndexOf(ps[1..], key)
      case None => None
      case Some(i) => Some(i + 1)
  }

  /** `properties.get(key, {})`. */
  function Prop(s: Schema, key: string): Schema {
    match IndexOf(s.properties, key)
    case None => EmptySchema
    case Some(i) => s.properties[i].1
  }

  /** `branch.get(key, {})`. */
  function Child(e: Extra, key: string): Extra {
    match IndexOf(e.children, key)
    case None => NoExtras
    case Some(i) => e.children[i].1
  }

  /** Truthiness of an extras dict: it has an "_extras" entry or a nested segment. */
  predicate Nonempty(e: Extra) {
    e.fields.Some? || e.children != []
  }

  predicate IsObject(s: Schema) {
    "object" in s.types
  }

  /** An array whose "items" (`{}` when absent) is an object. */
  predicate IsArrayOfObjects(s: Schema) {
    "array" in s.types && s.items.Some? && IsObject(s.items.value)
  }

  // ---------------------------------------------------------------- sizes (termination)

  function SSize(s: Schema): (n: nat)
    ensures n >= 1
    decreases s, 1
  {
    1 + SSizeFrom(s, 0) + (if s.items.Some? then SSize(s.items.value) else 0)
  }

  function SSizeFrom(s: Schema, i: nat): nat
    requires i <= |s.properties|
    decreases s, 0, |s.properties| - i
  {
    if i == |s.properties| then 0 else SSize(s.properties[i].1) + SSizeFrom(s, i + 1)
  }

  function ESize(e: Extra): (n: nat)
    ensures n >= 1
    decreases e, 1
  {
    1 + ESizeFrom(e, 0)
  }

  function ESizeFrom(e: Extra, i: nat): nat
    requires i <= |e.children|
    decreases e, 0, |e.children| - i
  {
    if i == |e.children| then 0 else ESize(e.children[i].1) + ESizeFrom(e, i + 1)
  }

  lemma {:induction false} SSizeFromBound(s: Schema, i: nat, j: nat)
    requires i <= j < |s.properties|
    ensures SSize(s.properties[j].1) <= SSizeFrom(s, i)
    decreases j - i
  {
    if i < j {
      SSizeFromBound(s, i + 1, j);
    }
  }

  lemma {:induction false} ESizeFromBound(e: Extra, i: nat, j: nat)
    requires i <= j < |e.children|
    ensures ESize(e.children[j].1) <= ESizeFrom(e, i)
    decreases j - i
  {
    if i < j {
      ESizeFromBound(e, i + 1, j);
    }
  }

  /** A property's schema is smaller than the schema holding it, and its items smaller still. */
  lemma PropSmaller(s: Schema, key: string)
    ensures IndexOf(s.properties, key).Some? ==> SSize(Prop(s, key)) < SSize(s)
    ensures IndexOf(s.properties, key).None? ==> Prop(s, key) == EmptySchema
  {
    if IndexOf(s.properties, key).Some? {
      SSizeFromBound(s, 0, IndexOf(s.properties, key).value);
    }
  }

  /** A nested extras node is smaller than its parent; an absent one is `{}`. */
  lemma ChildSmaller(e: Extra, key: string)
    ensures IndexOf(e.children, key).Some? ==> ESize(Child(e, key)) < ESize(e)
    ensures IndexOf(e.children, key).None? ==> Child(e, key) == NoExtras
  {
    if IndexOf(e.children, key).Some? {
      ESizeFromBound(e, 0, IndexOf(e.children, key).value);
    }
  }

  // ---------------------------------------------------------------- the extra-field tree

  /** `branch[key] = child`, keeping the position of an existing key. */
  function Put(ps: seq<(string, Extra)>, key: string, child: Extra): (r: seq<(string, Extra)>)
    ensures |r| >= |ps|
  {
    if ps == [] then [(key, child)]
    else if ps[0].0 == key then [(key, child)] + ps[1..]
    else [ps[0]] + Put(ps[1..], key, child)
  }

  /** Looking a key up past a first entry with another key. */
  lemma IndexOfTail<V>(ps: seq<(string, V)>, key: string)
    requires ps != [] && ps[0].0 != key && IndexOf(ps[1..], key).Some?
    ensures IndexOf(ps, key) == Some(IndexOf(ps[1..], key).value + 1)
  {
  }

  /** After `branch[key] = child`, the key holds the child. */
  lemma {:induction false} PutFinds(ps: seq<(string, Extra)>, key: string, child: Extra)
    ensures var r := Put(ps, key, child); IndexOf(r, key).Some? && r[IndexOf(r, key).value].1 == child
  {
    var r := Put(ps, key, child);
    if ps == [] || ps[0].0 == key {
      assert IndexOf(r, key) == Some(0);
    } else {
      var tail := Put(ps[1..], key, child);
      PutFinds(ps[1..], key, child);
      assert r == [ps[0]] + tail;
      assert r[1..] == tail;
      IndexOfTail(r, key);
    }
  }

  /** `branch[key] = child` changes no other key's position or value. */
  lemma {:induction false} PutOthers(ps: seq<(string, Extra)>, key: string, child: Extra, k: string)
    requires k != key
    ensures var r := Put(ps, key, child);
      IndexOf(r, k) == IndexOf(ps, k) && (IndexOf(ps, k).Some? ==> r[IndexOf(ps, k).value] == ps[IndexOf(ps, k).value])
  {
    var r := Put(ps, key, child);
    if ps == [] {
    } else if ps[0].0 == key {
      assert r[1..] == ps[1..];
    } else {
      assert r[1..] == Put(ps[1..], key, child);
      PutOthers(ps[1..], key, child, k);
    }
  }

  /** The "_extras" entry reached by following `parts` from `e`, if every step exists. */
  function At(e: Extra, parts: seq<string>): Option<seq<string>>
    decreases |parts|
  {
    if parts == [] then e.fields
    else match IndexOf(e.children, parts[0])
      case None => None
      case Some(i) => At(e.children[i].1, parts[1..])
  }

  /** One iteration of `collect_extra_tree`: walk `parts` with setdefault, then store the fields. */
  function Insert(e: Extra, parts: seq<string>, fields: seq<string>): (r: Extra)
    ensures At(r, parts) == Some(fields)
    ensures Nonempty(r)
    decreases |parts|
  {
    if parts == [] then e.(fields := Some(fields))
    else
      var sub := Insert(Child(e, parts[0]), parts[1..], fields);
      PutFinds(e.children, parts[0], sub);
      e.(children := Put(e.children, parts[0], sub))
  }

  lemma AtNothing(parts: seq<string>)
    ensures At(NoExtras, parts) == None
  {
  }

  /** Storing fields under one path leaves every other path's fields as they were. */
  lemma {:induction false} InsertKeepsOthers(e: Extra, parts: seq<string>, fields: seq<string>, other: seq<string>)
    requires other != parts
    ensures At(Insert(e, parts, fields), other) == At(e, other)
    decreases |parts|
  {
    if parts != [] && other != [] {
      var sub := Insert(Child(e, parts[0]), parts[1..], fields);
      var r := Insert(e, parts, fields);
      assert r.children == Put(e.children, parts[0], sub);
      if other[0] == parts[0] {
        assert other == [other[0]] + other[1..] && parts == [parts[0]] + parts[1..];
        assert other[1..] != parts[1..];
        InsertKeepsOthers(Child(e, parts[0]), parts[1..], fields, other[1..]);
        PutFinds(e.children, parts[0], sub);
        if IndexOf(e.children, parts[0]).None? {
          AtNothing(other[1..]);
        }
      } else {
        PutOthers(e.children, parts[0], sub, other[0]);
      }
    }
  }

  /** `collect_extra_tree()` over the extra-field entries (dict order). */
  function ExtraTree(extraFields: seq<(string, seq<string>)>): (r: Extra)
    ensures extraFields != [] ==> Nonempty(r)
  {
    if extraFields == [] then NoExtras
    else
      var last := extraFields[|extraFields| - 1];
      Insert(ExtraTree(extraFields[..|extraFields| - 1]), SplitDot(last.0), last.1)
  }

  /** Distinct dict keys split into distinct paths. */
  lemma SplitDotDistinct(a: string, b: string)
    requires a != b
    ensures SplitDot(a) != SplitDot(b)
  {
    JoinSplitDot(a);
    JoinSplitDot(b);
  }

  predicate DistinctKeys(extraFields: seq<(string, seq<string>)>) {
    forall j, k :: 0 <= j < k < |extraFields| ==> extraFields[j].0 != extraFields[k].0
  }

  lemma DistinctKeysPrefix(extraFields: seq<(string, seq<string>)>, n: nat)
    requires n <= |extraFields| && DistinctKeys(extraFields)
    ensures DistinctKeys(extraFields[..n])
  {
    var init := extraFields[..n];
    forall j, k | 0 <= j < k < |init| ensures init[j].0 != init[k].0 {
      assert init[j] == extraFields[j] && init[k] == extraFields[k];
    }
  }

  lemma ExtraTreeLast(extraFields: seq<(string, seq<string>)>)
    requires extraFields != []
    ensures var n := |extraFields| - 1;
      ExtraTree(extraFields) == Insert(ExtraTree(extraFields[..n]), SplitDot(extraFields[n].0), extraFields[n].1)
  {
  }

  /** Every extra-field path leads, in the tree, to its own list of fields. */
  lemma {:induction false} ExtraTreeFindsFields(extraFields: seq<(string, seq<string>)>, i: nat)
    requires i < |extraFields| && DistinctKeys(extraFields)
    ensures At(ExtraTree(extraFields), SplitDot(extraFields[i].0)) == Some(extraFields[i].1)
    decreases |extraFields|
  {
    var n := |extraFields| - 1;
    var init := extraFields[..n];
    ExtraTreeLast(extraFields);
    if i < n {
      DistinctKeysPrefix(extraFields, n);
      assert init[i] == extraFields[i];
      ExtraTreeFindsFields(init, i);
      SplitDotDistinct(extraFields[n].0, extraFields[i].0);
      InsertKeepsOthers(ExtraTree(init), SplitDot(extraFields[n].0), extraFields[n].1, SplitDot(extraFields[i].0));
    }
  }

  // ---------------------------------------------------------------- the selection tree

  /** A selected field: a bare name, or a name with a nested selection set. */
  datatype Sel = Leaf(name: string) | Block(name: string, body: seq<Sel>)

  function Names(sels: seq<Sel>): (r: seq<string>)
    ensures |r| == |sels| && forall i :: 0 <= i < |sels| ==> r[i] == sels[i].name
  {
    if sels == [] then [] else [sels[0].name] + Names(sels[1..])
  }

  /** The text of a selection: every field on the same padding, nested sets in ` {` ... `}`. */
  function Print(sels: seq<Sel>, pad: string): string
    decreases sels
  {
    if sels == [] then "" else PrintSel(sels[0], pad) + Print(sels[1..], pad)
  }

  function PrintSel(x: Sel, pad: string): string
    decreases x
  {
    match x
    case Leaf(n) => pad + n
    case Block(n, body) => pad + n + " {" + Print(body, pad) + pad + "}"
  }

  lemma PrintCons(x: Sel, rest: seq<Sel>, pad: string)
    ensures Print([x] + rest, pad) == PrintSel(x, pad) + Print(rest, pad)
  {
    assert ([x] + rest)[1..] == rest;
  }

  /** The filter `[k for k in keys if keep(k)]`. */
  function Keep(xs: seq<string>, keep: string -> bool): (r: seq<string>)
    ensures Elems(r) == set x | x in Elems(xs) && keep(x)
    ensures StrictlySorted(xs) ==> StrictlySorted(r)
    ensures forall i :: 0 <= i < |r| ==> r[i] in Elems(xs)
  {
    if xs == [] then []
    else
      var rest := Keep(xs[1..], keep);
      assert Elems(xs) == {xs[0]} + Elems(xs[1..]);
      if keep(xs[0]) then
        assert StrictlySorted(xs) && rest != [] ==> Lt(xs[0], rest[0]) by {
          if StrictlySorted(xs) && rest != [] {
            var j :| 0 <= j < |xs[1..]| && xs[1..][j] == rest[0];
            StrictlySortedPairwise(xs, 0, j + 1);
          }
        }
        assert Elems([xs[0]] + rest) == {xs[0]} + Elems(rest);
        [xs[0]] + rest
      else rest
  }

  /** `[key for key in keys if full_path(key) not in excluded_fields]`. */
  function Visible(path: string, excluded: set<string>): string -> bool {
    k => JoinPath(path, k) !in excluded
  }

  /** A key whose branch prints nothing: no object, no array of objects, extras with no "_extras". */
  predicate Omitted(s: Schema, e: Extra, key: string) {
    var prop := Prop(s, key);
    var sub := Child(e, key);
    !IsObject(prop) && !IsArrayOfObjects(prop) && Nonempty(sub) && sub.fields.None?
  }

  function Present(s: Schema, e: Extra): string -> bool {
    k => !Omitted(s, e, k)
  }

  /** `sorted(schema_keys | extra_keys - {"_extras"})`, without the excluded dot-paths. */
  function Keys(s: Schema, e: Extra, path: string, excluded: set<string>): (r: seq<string>)
    ensures StrictlySorted(r)
    ensures Elems(r) == set k | k in Elems(KeysOf(s.properties)) + Elems(KeysOf(e.children))
                                && JoinPath(path, k) !in excluded
  {
    Keep(SortedSet(KeysOf(s.properties) + KeysOf(e.children)), Visible(path, excluded))
  }

  /** `process_properties(properties, depth, parent_path, extras_branch)` as a selection. */
  function Render(s: Schema, e: Extra, path: string, excluded: set<string>, pad: string): (r: seq<Sel>)
    decreases SSize(s) + ESize(e), 2
  {
    RenderKeys(s, e, path, excluded, pad, Keys(s, e, path, excluded))
  }

  function RenderKeys(s: Schema, e: Extra, path: string, excluded: set<string>, pad: string, keys: seq<string>)
    : (r: seq<Sel>)
    ensures Names(r) == Keep(keys, Present(s, e))
    decreases SSize(s) + ESize(e), 1, |keys|
  {
    if keys == [] then []
    else
      var first := RenderKey(s, e, path, excluded, pad, keys[0]);
      var rest := RenderKeys(s, e, path, excluded, pad, keys[1..]);
      assert Names(first + rest) == Names(first) + Names(rest);
      first + rest
  }

  lemma RenderKeysCons(s: Schema, e: Extra, path: string, excluded: set<string>, pad: string, key: string,
                       keys: seq<string>)
    ensures RenderKeys(s, e, path, excluded, pad, [key] + keys)
         == RenderKey(s, e, path, excluded, pad, key) + RenderKeys(s, e, path, excluded, pad, keys)
  {
    assert ([key] + keys)[1..] == keys;
  }

  /** The line for one key: nothing, a bare name, or a name with its nested selection. */
  function RenderKey(s: Schema, e: Extra, path: string, excluded: set<string>, pad: string, key: string)
    : (r: seq<Sel>)
    ensures |r| <= 1 && (r == [] <==> Omitted(s, e, key))
    ensures r != [] ==> r[0].name == key
    ensures r != [] && !IsObject(Prop(s, key)) && !IsArrayOfObjects(Prop(s, key)) && !Nonempty(Child(e, key)) ==>
      r[0] == Leaf(key)
    decreases SSize(s) + ESize(e), 0
  {
    var full := JoinPath(path, key);
    var prop := Prop(s, key);
    var sub := Child(e, key);
    PropSmaller(s, key);
    ChildSmaller(e, key);
    if IsObject(prop) then
      [Block(key, Render(prop, sub, full, excluded, pad))]
    else if IsArrayOfObjects(prop) then
      [Block(key, Render(prop.items.value, sub, full, excluded, pad))]
    else if Nonempty(sub) then
      if sub.fields.None? then []
      else
        var body := Render(EmptySchema, sub, full, excluded, pad) + Leaves(sub.fields.value);
        if IsBlank(Print(body, pad)) then [Leaf(key)] else [Block(key, body)]
    else [Leaf(key)]
  }

  /** The extra field names appended after an extras-only branch's nested keys. */
  function Leaves(fields: seq<string>): (r: seq<Sel>)
    ensures Names(r) == fields && forall i :: 0 <= i < |r| ==> r[i].Leaf?
  {
    if fields == [] then [] else [Leaf(fields[0])] + Leaves(fields[1..])
  }

  /**
   * `get_graphql_query(root_field, indent, level)`: the selection of the schema's properties,
   * wrapped in the root field when one is given, inside `query {` ... `}`.
   */
  function GraphQlQuery(schema: Schema, extraFields: seq<(string, seq<string>)>, excluded: set<string>,
                        rootField: string, indent: nat, level: nat): (q: string)
    ensures "query {" <= q
    ensures var pad := Spaces(indent * level);
      var inner := Print(Render(schema, ExtraTree(extraFields), "", excluded, pad), pad);
      && (rootField != "" ==> q == "query {" + (pad + rootField + " {" + inner + pad + "}") + "}")
      && (rootField == "" ==> q == "query {" + inner + "}")
  {
    var pad := Spaces(indent * level);
    var inner := Print(Render(schema, ExtraTree(extraFields), "", excluded, pad), pad);
    var body := if rootField != "" then pad + rootField + " {" + inner + pad + "}" else inner;
    "query {" + body + "}"
  }

  // ---------------------------------------------------------------- properties

  /**
   * The fields selected at one level are strictly sorted, and they are exactly the schema and
   * extras keys whose dot-path is not excluded and whose branch is not omitted.
   */
  lemma RenderKeysSorted(s: Schema, e: Extra, path: string, excluded: set<string>, pad: string)
    ensures var names := Names(Render(s, e, path, excluded, pad));
      && StrictlySorted(names)
      && Elems(names) == set k | k in Elems(KeysOf(s.properties)) + Elems(KeysOf(e.children))
                                 && JoinPath(path, k) !in excluded && !Omitted(s, e, k)
  {
  }

  /**
   * An object-typed property, or an array whose items are objects, prints as a block holding
   * the nested schema's keys merged with the nested extra paths; the "_extras" list stored at
   * that key plays no part (only keys of the branch are read, and "_extras" is not one).
   */
  lemma RenderKeyNested(s: Schema, e: Extra, path: string, excluded: set<string>, pad: string, key: string)
    ensures var prop := Prop(s, key);
      var sub := Child(e, key).(fields := None);
      && (IsObject(prop) ==>
            RenderKey(s, e, path, excluded, pad, key) == [Block(key, Render(prop, sub, JoinPath(path, key), excluded, pad))])
      && (!IsObject(prop) && IsArrayOfObjects(prop) ==>
            RenderKey(s, e, path, excluded, pad, key)
              == [Block(key, Render(prop.items.value, sub, JoinPath(path, key), excluded, pad))])
  {
    var prop := Prop(s, key);
    if IsObject(prop) {
      RenderIgnoresFields(prop, Child(e, key), None, JoinPath(path, key), excluded, pad);
    } else if IsArrayOfObjects(prop) {
      RenderIgnoresFields(prop.items.value, Child(e, key), None, JoinPath(path, key), excluded, pad);
    }
  }

  /** Rendering a level reads the extras' nested paths, never their own "_extras" entry. */
  lemma RenderIgnoresFields(s: Schema, e: Extra, f: Option<seq<string>>, path: string, excluded: set<string>,
                            pad: string)
    ensures Render(s, e.(fields := f), path, excluded, pad) == Render(s, e, path, excluded, pad)
  {
    assert Keys(s, e.(fields := f), path, excluded) == Keys(s, e, path, excluded);
    RenderKeysIgnoresFields(s, e, f, path, excluded, pad, Keys(s, e, path, excluded));
  }

  lemma {:induction false} RenderKeysIgnoresFields(s: Schema, e: Extra, f: Option<seq<string>>, path: string,
                                                   excluded: set<string>, pad: string, keys: seq<string>)
    ensures RenderKeys(s, e.(fields := f), path, excluded, pad, keys) == RenderKeys(s, e, path, excluded, pad, keys)
    decreases |keys|
  {
    if keys != [] {
      var other := e.(fields := f);
      assert Child(other, keys[0]) == Child(e, keys[0]);
      assert RenderKey(s, other, path, excluded, pad, keys[0]) == RenderKey(s, e, path, excluded, pad, keys[0]);
      RenderKeysIgnoresFields(s, e, f, path, excluded, pad, keys[1..]);
    }
  }

  /** A field whose dot-path is excluded is never selected. */
  lemma ExcludedNeverSelected(s: Schema, e: Extra, path: string, excluded: set<string>, pad: string, key: string)
    requires JoinPath(path, key) in excluded
    ensures key !in Elems(Names(Render(s, e, path, excluded, pad)))
  {
    RenderKeysSorted(s, e, path, excluded, pad);
  }

  /** Every field name in the selection, at every depth, is free of braces. */
  predicate BraceFreeSels(sels: seq<Sel>) {
    forall i :: 0 <= i < |sels| ==>
      BraceFree(sels[i].name) && (sels[i].Block? ==> BraceFreeSels(sels[i].body))
  }

  /** Printing a brace-free selection gives balanced braces. */
  lemma {:induction false} PrintBalanced(sels: seq<Sel>, pad: string)
    requires BraceFree(pad) && BraceFreeSels(sels)
    ensures Balanced(Print(sels, pad))
    decreases sels
  {
    if sels != [] {
      PrintSelBalanced(sels[0], pad);
      PrintBalanced(sels[1..], pad);
      BalancedAppend(PrintSel(sels[0], pad), Print(sels[1..], pad));
    }
  }

  lemma {:induction false} PrintSelBalanced(x: Sel, pad: string)
    requires BraceFree(pad) && BraceFree(x.name) && (x.Block? ==> BraceFreeSels(x.body))
    ensures Balanced(PrintSel(x, pad))
    decreases x
  {
    match x
    case Leaf(n) =>
      BraceFreeFlat(pad);
      BraceFreeFlat(n);
      NetAppend(pad, n);
      LowAppend(pad, n);
    case Block(n, body) =>
      PrintBalanced(body, pad);
      var pre := pad + n + " ";
      assert BraceFree(pre) by {
        assert forall c :: c in pre ==> c in pad || c in n || c == ' ';
      }
      Wrap(pre, Print(body, pad), pad);
      assert pre + "{" + Print(body, pad) + pad + "}" == pad + n + " {" + Print(body, pad) + pad + "}";
  }

  /** The names of a brace-free schema and extras tree: keys, nested keys and extra fields. */
  predicate BraceFreeSchema(s: Schema)
    decreases s, 1
  {
    && (forall i :: 0 <= i < |s.properties| ==> BraceFree(s.properties[i].0) && BraceFreeSchemaAt(s, i))
    && (s.items.Some? ==> BraceFreeSchema(s.items.value))
  }

  predicate BraceFreeSchemaAt(s: Schema, i: nat)
    requires i < |s.properties|
    decreases s, 0
  {
    BraceFreeSchema(s.properties[i].1)
  }

  predicate BraceFreeExtra(e: Extra)
    decreases e, 1
  {
    && (e.fields.Some? ==> forall j :: 0 <= j < |e.fields.value| ==> BraceFree(e.fields.value[j]))
    && (forall i :: 0 <= i < |e.children| ==> BraceFree(e.children[i].0) && BraceFreeExtraAt(e, i))
  }

  predicate BraceFreeExtraAt(e: Extra, i: nat)
    requires i < |e.children|
    decreases e, 0
  {
    BraceFreeExtra(e.children[i].1)
  }

  lemma PropBraceFree(s: Schema, key: string)
    requires BraceFreeSchema(s)
    ensures BraceFreeSchema(Prop(s, key))
  {
    match IndexOf(s.properties, key)
    case None =>
    case Some(i) => assert BraceFreeSchemaAt(s, i);
  }

  lemma ChildBraceFree(e: Extra, key: string)
    requires BraceFreeExtra(e)
    ensures BraceFreeExtra(Child(e, key))
  {
    match IndexOf(e.children, key)
    case None =>
    case Some(i) => assert BraceFreeExtraAt(e, i);
  }

  lemma KeyBraceFree(s: Schema, e: Extra, key: string)
    requires BraceFreeSchema(s) && BraceFreeExtra(e)
    requires key in Elems(KeysOf(s.properties)) + Elems(KeysOf(e.children))
    ensures BraceFree(key)
  {
    if key in Elems(KeysOf(s.properties)) {
      var i := IndexOf(s.properties, key).value;
      assert BraceFree(s.properties[i].0);
    } else {
      var i := IndexOf(e.children, key).value;
      assert BraceFree(e.children[i].0);
    }
  }

  /** Brace-free schema keys and extra fields give a brace-free selection. */
  lemma {:induction false} RenderBraceFree(s: Schema, e: Extra, path: string, excluded: set<string>, pad: string)
    requires BraceFreeSchema(s) && BraceFreeExtra(e)
    ensures BraceFreeSels(Render(s, e, path, excluded, pad))
    decreases SSize(s) + ESize(e), 2
  {
    RenderKeysBraceFree(s, e, path, excluded, pad, Keys(s, e, path, excluded));
  }

  lemma {:induction false} RenderKeysBraceFree(s: Schema, e: Extra, path: string, excluded: set<string>, pad: string,
                                               keys: seq<string>)
    requires BraceFreeSchema(s) && BraceFreeExtra(e)
    requires forall i :: 0 <= i < |keys| ==> keys[i] in Elems(KeysOf(s.properties)) + Elems(KeysOf(e.children))
    ensures BraceFreeSels(RenderKeys(s, e, path, excluded, pad, keys))
    decreases SSize(s) + ESize(e), 1, |keys|
  {
    if keys != [] {
      RenderKeyBraceFree(s, e, path, excluded, pad, keys[0]);
      RenderKeysBraceFree(s, e, path, excluded, pad, keys[1..]);
    }
  }

  /** A brace-free selection followed by leaves with brace-free names stays brace-free. */
  lemma LeavesBraceFree(sels: seq<Sel>, fields: seq<string>)
    requires BraceFreeSels(sels)
    requires forall j :: 0 <= j < |fields| ==> BraceFree(fields[j])
    ensures BraceFreeSels(sels + Leaves(fields))
  {
    var leaves := Leaves(fields);
    var body := sels + leaves;
    forall i | 0 <= i < |body|
      ensures BraceFree(body[i].name) && (body[i].Block? ==> BraceFreeSels(body[i].body))
    {
      if i >= |sels| {
        assert body[i] == leaves[i - |sels|];
        assert Names(leaves)[i - |sels|] == fields[i - |sels|];
      }
    }
  }

  lemma {:induction false} RenderKeyBraceFree(s: Schema, e: Extra, path: string, excluded: set<string>, pad: string,
                                              key: string)
    requires BraceFreeSchema(s) && BraceFreeExtra(e)
    requires key in Elems(KeysOf(s.properties)) + Elems(KeysOf(e.children))
    ensures BraceFreeSels(RenderKey(s, e, path, excluded, pad, key))
    decreases SSize(s) + ESize(e), 0
  {
    var full := JoinPath(path, key);
    var prop := Prop(s, key);
    var sub := Child(e, key);
    PropSmaller(s, key);
    ChildSmaller(e, key);
    PropBraceFree(s, key);
    ChildBraceFree(e, key);
    KeyBraceFree(s, e, key);
    if IsObject(prop) {
      RenderBraceFree(prop, sub, full, excluded, pad);
      assert RenderKey(s, e, path, excluded, pad, key) == [Block(key, Render(prop, sub, full, excluded, pad))];
    } else if IsArrayOfObjects(prop) {
      RenderBraceFree(prop.items.value, sub, full, excluded, pad);
      assert RenderKey(s, e, path, excluded, pad, key)
          == [Block(key, Render(prop.items.value, sub, full, excluded, pad))];
    } else if Nonempty(sub) && sub.fields.Some? {
      var nested := Render(EmptySchema, sub, full, excluded, pad);
      RenderBraceFree(EmptySchema, sub, full, excluded, pad);
      var body := nested + Leaves(sub.fields.value);
      LeavesBraceFree(nested, sub.fields.value);
      assert RenderKey(s, e, path, excluded, pad, key)
          == if IsBlank(Print(body, pad)) then [Leaf(key)] else [Block(key, body)];
    }
  }

  // ---------------------------------------------------------------- balanced query text

  /** Every extra-field path and every extra field name is free of braces. */
  predicate BraceFreeFields(extraFields: seq<(string, seq<string>)>) {
    forall i :: 0 <= i < |extraFields| ==>
      BraceFree(extraFields[i].0) && forall j :: 0 <= j < |extraFields[i].1| ==> BraceFree(extraFields[i].1[j])
  }

  lemma {:induction false} SplitDotBraceFree(s: string)
    requires BraceFree(s)
    ensures forall i :: 0 <= i < |SplitDot(s)| ==> BraceFree(SplitDot(s)[i])
  {
    if s != [] {
      assert forall c :: c in s[1..] ==> c in s;
      SplitDotBraceFree(s[1..]);
      if s[0] != '.' {
        var rest := SplitDot(s[1..]);
        assert forall c :: c in [s[0]] + rest[0] ==> c == s[0] || c in rest[0];
      }
    }
  }

  /** Each entry after `branch[key] = child` is the new one or the entry that was there. */
  lemma {:induction false} PutShape(ps: seq<(string, Extra)>, key: string, child: Extra)
    ensures var r := Put(ps, key, child);
      forall i :: 0 <= i < |r| ==> r[i] == (key, child) || (i < |ps| && r[i] == ps[i])
  {
    if ps != [] && ps[0].0 != key {
      PutShape(ps[1..], key, child);
      var r := Put(ps, key, child);
      assert r[1..] == Put(ps[1..], key, child);
      forall i | 1 <= i < |r| ensures r[i] == (key, child) || (i < |ps| && r[i] == ps[i]) {
        assert r[i] == Put(ps[1..], key, child)[i - 1];
      }
    }
  }

  lemma {:induction false} InsertBraceFree(e: Extra, parts: seq<string>, fields: seq<string>)
    requires BraceFreeExtra(e)
    requires forall i :: 0 <= i < |parts| ==> BraceFree(parts[i])
    requires forall j :: 0 <= j < |fields| ==> BraceFree(fields[j])
    ensures BraceFreeExtra(Insert(e, parts, fields))
    decreases |parts|
  {
    if parts != [] {
      var c := Child(e, parts[0]);
      ChildBraceFree(e, parts[0]);
      InsertBraceFree(c, parts[1..], fields);
      var sub := Insert(c, parts[1..], fields);
      var r := Insert(e, parts, fields);
      PutShape(e.children, parts[0], sub);
      forall i | 0 <= i < |r.children| ensures BraceFree(r.children[i].0) && BraceFreeExtraAt(r, i) {
        if r.children[i] != (parts[0], sub) {
          assert BraceFreeExtraAt(e, i);
        }
      }
    }
  }

  lemma {:induction false} ExtraTreeBraceFree(extraFields: seq<(string, seq<string>)>)
    requires BraceFreeFields(extraFields)
    ensures BraceFreeExtra(ExtraTree(extraFields))
    decreases |extraFields|
  {
    if extraFields != [] {
      var n := |extraFields| - 1;
      assert BraceFreeFields(extraFields[..n]) by {
        forall i | 0 <= i < n ensures extraFields[..n][i] == extraFields[i] { }
      }
      ExtraTreeBraceFree(extraFields[..n]);
      SplitDotBraceFree(extraFields[n].0);
      InsertBraceFree(ExtraTree(extraFields[..n]), SplitDot(extraFields[n].0), extraFields[n].1);
    }
  }

  /** Depth bookkeeping for `a + b` when a and b both stay at or above depth 0 of their own. */
  lemma Chain(a: string, b: string)
    requires Low(a) == 0 && Low(b) == 0 && Net(a) >= 0
    ensures Net(a + b) == Net(a) + Net(b) && Low(a + b) == 0
  {
    NetAppend(a, b);
    LowAppend(a, b);
  }

  /** The root-field wrapping keeps the root's open braces and never dips below depth 0. */
  lemma WrapRoot(pad: string, rootField: string, inner: string, n: nat)
    requires BraceFree(pad) && Balanced(inner) && Net(rootField) == n && Low(rootField) == 0
    ensures var body := pad + rootField + " {" + inner + pad + "}";
      Net(body) == n && Low(body) == 0
  {
    BraceFreeFlat(pad);
    Chain(pad, rootField);
    assert Net(" {") == 1 && Low(" {") == 0;
    Chain(pad + rootField, " {");
    Chain(pad + rootField + " {", inner);
    Chain(pad + rootField + " {" + inner, pad);
    NetAppend(pad + rootField + " {" + inner + pad, "}");
    LowAppend(pad + rootField + " {" + inner + pad, "}");
  }

  /** `query {` + body + `}` adds one level around a body that stays at or above depth 0. */
  lemma WrapQuery(body: string, n: nat)
    requires Net(body) == n && Low(body) == 0
    ensures Balanced("query {" + body + "}" + Closing(n))
  {
    assert Net("query {") == 1 && Low("query {") == 0;
    Chain("query {", body);
    NetAppend("query {" + body, "}");
    LowAppend("query {" + body, "}");
    NetAppend("query {" + body + "}", Closing(n));
    LowAppend("query {" + body + "}", Closing(n));
  }

  /** The selection printed for a brace-free schema and extras is balanced. */
  lemma InnerBalanced(schema: Schema, extraFields: seq<(string, seq<string>)>, excluded: set<string>, pad: string)
    requires BraceFreeSchema(schema) && BraceFreeFields(extraFields) && BraceFree(pad)
    ensures Balanced(Print(Render(schema, ExtraTree(extraFields), "", excluded, pad), pad))
  {
    ExtraTreeBraceFree(extraFields);
    RenderBraceFree(schema, ExtraTree(extraFields), "", excluded, pad);
    PrintBalanced(Render(schema, ExtraTree(extraFields), "", excluded, pad), pad);
  }

  /**
   * A root field that leaves n braces open (and never closes more than it opened) yields a
   * query that n closing braces balance; a brace-free root field yields a balanced query.
   */
  lemma QueryBalanced(schema: Schema, extraFields: seq<(string, seq<string>)>, excluded: set<string>,
                      rootField: string, indent: nat, level: nat, n: nat)
    requires BraceFreeSchema(schema) && BraceFreeFields(extraFields)
    requires Net(rootField) == n && Low(rootField) == 0
    ensures Balanced(GraphQlQuery(schema, extraFields, excluded, rootField, indent, level) + Closing(n))
  {
    var pad := Spaces(indent * level);
    assert BraceFree(pad);
    var inner := Print(Render(schema, ExtraTree(extraFields), "", excluded, pad), pad);
    InnerBalanced(schema, extraFields, excluded, pad);
    if rootField != "" {
      WrapRoot(pad, rootField, inner, n);
      WrapQuery(pad + rootField + " {" + inner + pad + "}", n);
    } else {
      WrapQuery(inner, n);
    }
  }

  // ---------------------------------------------------------------- extras-only branches

  lemma BlankAppend(a: string, b: string)
    ensures IsBlank(a + b) <==> IsBlank(a) && IsBlank(b)
  {
    if IsBlank(a + b) {
      forall i | 0 <= i < |a| ensures IsSpace(a[i]) {
        assert (a + b)[i] == a[i];
      }
      forall i | 0 <= i < |b| ensures IsSpace(b[i]) {
        assert (a + b)[|a| + i] == b[i];
      }
    }
  }

  /** A printed selection is blank exactly when it holds only bare, blank names. */
  lemma {:induction false} PrintBlank(sels: seq<Sel>, pad: string)
    requires IsBlank(pad)
    ensures IsBlank(Print(sels, pad)) <==> forall i :: 0 <= i < |sels| ==> sels[i].Leaf? && IsBlank(sels[i].name)
    decreases sels
  {
    if sels != [] {
      PrintBlank(sels[1..], pad);
      BlankAppend(PrintSel(sels[0], pad), Print(sels[1..], pad));
      match sels[0]
      case Leaf(n) =>
        BlankAppend(pad, n);
      case Block(n, body) =>
        var t := PrintSel(sels[0], pad);
        assert t[|pad| + |n| + 1] == '{';
    }
  }

  /**
   * A key that only the extras name, with its own fields and no nested paths, selects those
   * fields in the order given; when every field name is blank, the bare key is selected.
   */
  lemma ExtrasOnlyKey(s: Schema, e: Extra, path: string, excluded: set<string>, pad: string, key: string,
                      fields: seq<string>)
    requires IsBlank(pad)
    requires IndexOf(s.properties, key).None? && Child(e, key) == Extra(Some(fields), [])
    ensures (exists j :: 0 <= j < |fields| && !IsBlank(fields[j])) ==>
      RenderKey(s, e, path, excluded, pad, key) == [Block(key, Leaves(fields))]
    ensures (forall j :: 0 <= j < |fields| ==> IsBlank(fields[j])) ==>
      RenderKey(s, e, path, excluded, pad, key) == [Leaf(key)]
  {
    var leaves := Leaves(fields);
    ExtrasOnlyRender(s, e, path, excluded, pad, key, fields);
    PrintBlank(leaves, pad);
    assert Names(leaves) == fields;
  }

  /** Such a key selects its fields as leaves, or the bare key when they print blank. */
  lemma ExtrasOnlyRender(s: Schema, e: Extra, path: string, excluded: set<string>, pad: string, key: string,
                         fields: seq<string>)
    requires IndexOf(s.properties, key).None? && Child(e, key) == Extra(Some(fields), [])
    ensures RenderKey(s, e, path, excluded, pad, key)
        == if IsBlank(Print(Leaves(fields), pad)) then [Leaf(key)] else [Block(key, Leaves(fields))]
  {
    RenderNoKeys(fields, JoinPath(path, key), excluded, pad);
    assert [] + Leaves(fields) == Leaves(fields);
    assert Prop(s, key) == EmptySchema;
  }

  /** Extras with fields but no nested paths, on an empty schema, render no keys. */
  lemma RenderNoKeys(fields: seq<string>, path: string, excluded: set<string>, pad: string)
    ensures Render(EmptySchema, Extra(Some(fields), []), path, excluded, pad) == []
  {
    assert Keys(EmptySchema, Extra(Some(fields), []), path, excluded) == [];
  }
}
