/**
 * The bookmark manager: the replication state (stream -> key -> timestamp), the base
 * `IncrementalStream.get_bookmark`/`write_bookmark`, the min-read and propagate-write merge of
 * boards, updates and board items across their children's composite keys, and the memoised
 * read floor of the child streams (tap_monday/streams/abstracts.py, boards.py, updates.py,
 * board_items.py, board_activity_logs.py, reply.py).
 */
module Bookmarks {
  import opened Wrappers
  import opened Failures
  import opened Text
  import opened Streams

  /** The "bookmarks" part of the singer state. */
  type State = map<string, map<string, string>>

  /** singer's `get_bookmark(state, stream, key, default)`. */
  function Lookup(state: State, stream: string, key: string, default: string): string {
    if stream in state && key in state[stream] then state[stream][key] else default
  }

  predicate Has(state: State, stream: string, key: string) {
    stream in state && key in state[stream]
  }

  /** singer's `write_bookmark(state, stream, key, value)`. */
  function Store(state: State, stream: string, key: string, value: string): (r: State)
    ensures Has(r, stream, key) && Lookup(r, stream, key, "") == value
    ensures forall st, k :: (st != stream || k != key) ==> Has(r, st, k) == Has(state, st, k)
    ensures forall st, k, d :: (st != stream || k != key) ==> Lookup(r, st, k, d) == Lookup(state, st, k, d)
  {
    state[stream := (if stream in state then state[stream] else map[])[key := value]]
  }

  /**
   * Bookmarks never regress: every entry read with the start date as default is at least what
   * it was, and no entry disappears.
   */
  ghost predicate Grows(a: State, b: State, start: string) {
    forall st, k :: GrowsAt(a, b, st, k, start)
  }

  /** One entry of `Grows`: present in `b` if present in `a`, and not lower. */
  ghost predicate GrowsAt(a: State, b: State, st: string, k: string, start: string) {
    (Has(a, st, k) ==> Has(b, st, k)) && Le(Lookup(a, st, k, start), Lookup(b, st, k, start))
  }

  lemma GrowsReflexive(a: State, start: string)
    ensures Grows(a, a, start)
  {
  }

  lemma GrowsTransitive(a: State, b: State, c: State, start: string)
    requires Grows(a, b, start) && Grows(b, c, start)
    ensures Grows(a, c, start)
  {
    forall st, k ensures GrowsAt(a, c, st, k, start) {
      assert GrowsAt(a, b, st, k, start) && GrowsAt(b, c, st, k, start);
      LeTransitive(Lookup(a, st, k, start), Lookup(b, st, k, start), Lookup(c, st, k, start));
    }
  }

  // ---------------------------------------------------------------- base write

  /**
   * The base `write_bookmark` for a resolved key: `max(stored or start_date, value)`. Python's
   * `max` of a str and None is a TypeError.
   */
  function WriteOne(state: State, start: string, stream: string, key: string, value: Option<string>)
    : (r: Result<State, Error>)
    ensures r.Ok? <==> value.Some?
    ensures r.Ok? ==> Grows(state, r.value, start)
    ensures r.Ok? ==> Lookup(r.value, stream, key, start) == Max(Lookup(state, stream, key, start), value.value)
  {
    if value.None? then Err(TypeError("'>' not supported between 'NoneType' and 'str'"))
    else
      var current := Lookup(state, stream, key, start);
      var r := Store(state, stream, key, Max(current, value.value));
      assert Grows(state, r, start) by {
        forall st, k ensures GrowsAt(state, r, st, k, start) {
          if st == stream && k == key {
            assert Lookup(r, st, k, start) == Max(current, value.value);
          } else {
            LeReflexive(Lookup(state, st, k, start));
          }
        }
      }
      Ok(r)
  }

  lemma LeReflexive(a: string)
    ensures Le(a, a)
  {
  }

  /**
   * `IncrementalStream.write_bookmark(state, stream, key, value)`: the state is returned
   * untouched when there is neither a key nor a replication key; otherwise the entry under
   * the key, or the first replication key, becomes the maximum of the stored value and `value`.
   */
  function BaseWrite(state: State, start: string, stream: string, key: string, replicationKeys: seq<string>,
                     value: Option<string>): (r: Result<State, Error>)
    ensures key == "" && replicationKeys == [] ==> r == Ok(state)
    ensures r.Ok? ==> Grows(state, r.value, start)
    ensures (key != "" || replicationKeys != []) && value.Some? ==>
      var k := if key != "" then key else replicationKeys[0];
      r.Ok? && Le(value.value, Lookup(r.value, stream, k, start))
      && forall st, k', d :: (st != stream || k' != k) ==> Lookup(r.value, st, k', d) == Lookup(state, st, k', d)
  {
    if key == "" && replicationKeys == [] then Ok(state)
    else WriteOne(state, start, stream, if key != "" then key else replicationKeys[0], value)
  }

  // ---------------------------------------------------------------- participants

  /** The composite key a parent stream keeps in each child's bookmarks, e.g. `boards_updated_at`. */
  function CompositeKey(s: Stream): string
    requires |s.attrs.replicationKeys| > 0
  {
    s.Id() + "_" + Rk0(s)
  }

  /** Whether a child takes part in its parent's merge: selected, and not full-table when skipped. */
  predicate Takes(c: Stream, skipFullTable: bool) {
    c.selected && !(skipFullTable && Upper(c.attrs.replicationMethod) == "FULL_TABLE")
  }

  /** The composite-key entries of the children that take part, in child order. */
  function ChildPairs(cs: seq<Stream>, key: string, skipFullTable: bool): (r: seq<(string, string)>)
    ensures forall i :: 0 <= i < |r| ==> r[i].1 == key
    decreases |cs|
  {
    if cs == [] then []
    else
      var c := cs[|cs| - 1];
      ChildPairs(cs[..|cs| - 1], key, skipFullTable) + (if Takes(c, skipFullTable) then [(c.Id(), key)] else [])
  }

  /** A child's entry is among the pairs exactly when that child takes part. */
  lemma {:induction false} ChildPairsMembers(cs: seq<Stream>, key: string, skipFullTable: bool, id: string)
    ensures (id, key) in ChildPairs(cs, key, skipFullTable) <==>
      exists j :: 0 <= j < |cs| && cs[j].Id() == id && Takes(cs[j], skipFullTable)
    decreases |cs|
  {
    if cs != [] {
      var init := cs[..|cs| - 1];
      ChildPairsMembers(init, key, skipFullTable, id);
      if exists j :: 0 <= j < |init| && init[j].Id() == id && Takes(init[j], skipFullTable) {
        var j :| 0 <= j < |init| && init[j].Id() == id && Takes(init[j], skipFullTable);
        assert cs[j] == init[j];
      }
      if exists j :: 0 <= j < |cs| && cs[j].Id() == id && Takes(cs[j], skipFullTable) {
        var j :| 0 <= j < |cs| && cs[j].Id() == id && Takes(cs[j], skipFullTable);
        if j < |init| {
          assert init[j] == cs[j];
        }
      }
    }
  }

  lemma ChildPairsStep(cs: seq<Stream>, i: nat, key: string, skipFullTable: bool)
    requires i < |cs|
    ensures ChildPairs(cs[..i + 1], key, skipFullTable) ==
      ChildPairs(cs[..i], key, skipFullTable) + (if Takes(cs[i], skipFullTable) then [(cs[i].Id(), key)] else [])
  {
    assert cs[..i + 1][..i] == cs[..i];
  }

  /** The stream's own entry, when it is selected. */
  function OwnPair(s: Stream): seq<(string, string)>
    requires |s.attrs.replicationKeys| > 0
  {
    if s.selected then [(s.Id(), Rk0(s))] else []
  }

  /** The entries a merging stream reads and writes: its own, then its children's. */
  function Participants(s: Stream, skipFullTable: bool): seq<(string, string)>
    requires |s.attrs.replicationKeys| > 0
  {
    OwnPair(s) + ChildPairs(s.children, CompositeKey(s), skipFullTable)
  }

  // ---------------------------------------------------------------- propagate write

  /** The base write applied to each entry in turn with the same value. */
  function WriteAll(state: State, start: string, pairs: seq<(string, string)>, value: Option<string>)
    : Result<State, Error>
    decreases |pairs|
  {
    if pairs == [] then Ok(state)
    else
      var prev :- WriteAll(state, start, pairs[..|pairs| - 1], value);
      WriteOne(prev, start, pairs[|pairs| - 1].0, pairs[|pairs| - 1].1, value)
  }

  lemma WriteAllPush(state: State, start: string, pairs: seq<(string, string)>, p: (string, string),
                     value: Option<string>, mid: State, after: State)
    requires WriteAll(state, start, pairs, value) == Ok(mid)
    requires WriteOne(mid, start, p.0, p.1, value) == Ok(after)
    ensures WriteAll(state, start, pairs + [p], value) == Ok(after)
  {
    assert (pairs + [p])[..|pairs|] == pairs;
  }

  lemma MaxAbsorbs(a: string, v: string)
    ensures Max(Max(a, v), v) == Max(a, v)
  {
    var m := Max(a, v);
    if m != v {
      assert Lt(v, m);
      LtAsymmetric(v, m);
    }
  }

  /**
   * The propagate write: every entry written ends at the maximum of its old value and `value`,
   * every other entry is unchanged, nothing regresses, and it fails exactly when a None value
   * meets an entry to write (before anything is written).
   */
  lemma {:induction false} WriteAllEffect(state: State, start: string, pairs: seq<(string, string)>, value: Option<string>)
    ensures var r := WriteAll(state, start, pairs, value);
      && (r.Err? <==> value.None? && pairs != [])
      && (r.Ok? ==> Grows(state, r.value, start))
      && (r.Ok? ==> forall i :: 0 <= i < |pairs| ==>
            Lookup(r.value, pairs[i].0, pairs[i].1, start) == Max(Lookup(state, pairs[i].0, pairs[i].1, start), value.value))
      && (r.Ok? ==> forall st, k, d :: (st, k) !in pairs ==> Lookup(r.value, st, k, d) == Lookup(state, st, k, d))
    decreases |pairs|
  {
    if pairs != [] {
      var init := pairs[..|pairs| - 1];
      var (st0, k0) := pairs[|pairs| - 1];
      WriteAllEffect(state, start, init, value);
      var r := WriteAll(state, start, pairs, value);
      if r.Ok? {
        var prev := WriteAll(state, start, init, value).value;
        GrowsTransitive(state, prev, r.value, start);
        forall i | 0 <= i < |pairs|
          ensures Lookup(r.value, pairs[i].0, pairs[i].1, start) == Max(Lookup(state, pairs[i].0, pairs[i].1, start), value.value)
        {
          if pairs[i] == (st0, k0) {
            if (st0, k0) in init {
              var j :| 0 <= j < |init| && init[j] == (st0, k0);
              MaxAbsorbs(Lookup(state, st0, k0, start), value.value);
            }
          } else {
            assert pairs[i] == init[i];
          }
        }
        forall st, k, d | (st, k) !in pairs
          ensures Lookup(r.value, st, k, d) == Lookup(state, st, k, d)
        {
          assert (st, k) !in init;
        }
      }
    }
  }

  /** One child of a merging write: its entry is written when it takes part, else nothing changes. */
  lemma MergedStep(state0: State, start: string, own: seq<(string, string)>, cs: seq<Stream>, i: nat,
                   key: string, skipFullTable: bool, value: Option<string>, mid: State)
    requires i < |cs|
    requires WriteAll(state0, start, own + ChildPairs(cs[..i], key, skipFullTable), value) == Ok(mid)
    ensures Takes(cs[i], skipFullTable) && WriteOne(mid, start, cs[i].Id(), key, value).Ok? ==>
      WriteAll(state0, start, own + ChildPairs(cs[..i + 1], key, skipFullTable), value) ==
      WriteOne(mid, start, cs[i].Id(), key, value)
    ensures !Takes(cs[i], skipFullTable) ==>
      WriteAll(state0, start, own + ChildPairs(cs[..i + 1], key, skipFullTable), value) == Ok(mid)
  {
    ChildPairsStep(cs, i, key, skipFullTable);
    var before := ChildPairs(cs[..i], key, skipFullTable);
    if Takes(cs[i], skipFullTable) {
      var p := (cs[i].Id(), key);
      assert own + (before + [p]) == (own + before) + [p];
      var w := WriteOne(mid, start, p.0, p.1, value);
      if w.Ok? {
        WriteAllPush(state0, start, own + before, p, value, mid, w.value);
      }
    } else {
      assert before + [] == before;
    }
  }

  /** The propagate write fails exactly when a None value meets an entry to write. */
  lemma WriteAllFails(state: State, start: string, pairs: seq<(string, string)>, value: Option<string>)
    ensures WriteAll(state, start, pairs, value).Err? <==> value.None? && pairs != []
  {
    WriteAllEffect(state, start, pairs, value);
  }

  /** Which entries `write_bookmark` of the stream writes. */
  function WritePairs(s: Stream): seq<(string, string)>
    requires |s.attrs.replicationKeys| > 0
  {
    match s.kind
    case Boards => Participants(s, false)
    case Updates => Participants(s, false)
    case BoardItems => Participants(s, true)
    case _ => [(s.Id(), Rk0(s))]
  }

  /** The stream's `write_bookmark(state, tap_stream_id, value=value)`. */
  function WriteSpec(s: Stream, state: State, start: string, value: Option<string>): Result<State, Error>
    requires |s.attrs.replicationKeys| > 0
  {
    if s.kind in {Boards, Updates, BoardItems} then WriteAll(state, start, WritePairs(s), value)
    else BaseWrite(state, start, s.Id(), "", s.attrs.replicationKeys, value)
  }

  /** Without an override, `write_bookmark` is the propagate write over the stream's one entry. */
  lemma WriteSpecIsWriteAll(s: Stream, state: State, start: string, value: Option<string>)
    requires |s.attrs.replicationKeys| > 0
    ensures WriteSpec(s, state, start, value) == WriteAll(state, start, WritePairs(s), value)
  {
    if s.kind !in {Boards, Updates, BoardItems} {
      var pairs := WritePairs(s);
      assert pairs[..0] == [];
    }
  }

  /**
   * After a successful `write_bookmark`, nothing has regressed and every entry the stream
   * writes holds at least the value written.
   */
  lemma WriteSpecEffect(s: Stream, state: State, start: string, value: Option<string>)
    requires |s.attrs.replicationKeys| > 0 && WriteSpec(s, state, start, value).Ok?
    ensures Grows(state, WriteSpec(s, state, start, value).value, start)
    ensures value.Some? ==> forall p :: p in WritePairs(s) ==>
      Le(value.value, Lookup(WriteSpec(s, state, start, value).value, p.0, p.1, start))
  {
    var pairs := WritePairs(s);
    WriteSpecIsWriteAll(s, state, start, value);
    WriteAllEffect(state, start, pairs, value);
    if value.Some? {
      var after := WriteSpec(s, state, start, value).value;
      forall p | p in pairs
        ensures Le(value.value, Lookup(after, p.0, p.1, start))
      {
        var i :| 0 <= i < |pairs| && pairs[i] == p;
        assert Lookup(after, p.0, p.1, start) == Max(Lookup(state, p.0, p.1, start), value.value);
      }
    }
  }

  /** Board items never write the composite key of a full-table child, however it spells the method. */
  lemma BoardItemsSkipsFullTable(s: Stream, j: nat)
    requires |s.attrs.replicationKeys| > 0 && s.kind == BoardItems && j < |s.children|
    requires Upper(s.children[j].attrs.replicationMethod) == "FULL_TABLE"
    requires forall i :: 0 <= i < |s.children| && s.children[i].Id() == s.children[j].Id() ==> i == j
    ensures (s.children[j].Id(), CompositeKey(s)) !in WritePairs(s)
  {
    ChildPairsMembers(s.children, CompositeKey(s), true, s.children[j].Id());
    if s.selected {
      assert CompositeKey(s) != Rk0(s) by {
        assert |CompositeKey(s)| > |Rk0(s)|;
      }
    }
  }

  /** The column values stream is one of those children. */
  lemma ColumnValuesIsFullTable()
    ensures Upper(ColumnValuesAttrs.replicationMethod) == "FULL_TABLE"
  {
    UpperIdle("FULL_TABLE");
  }

  // ---------------------------------------------------------------- min-merge read

  /** A truthy accumulator. */
  predicate Held(acc: Option<string>) {
    acc.Some? && acc.value != ""
  }

  /** One step of the min-merge: the minimum when the accumulator is truthy, else the child's value. */
  function MinStep(acc: Option<string>, v: string): Option<string> {
    if Held(acc) then Some(Min(acc.value, v)) else Some(v)
  }

  function MinFold(acc: Option<string>, state: State, start: string, pairs: seq<(string, string)>): Option<string>
    decreases |pairs|
  {
    if pairs == [] then acc
    else MinStep(MinFold(acc, state, start, pairs[..|pairs| - 1]), Lookup(state, pairs[|pairs| - 1].0, pairs[|pairs| - 1].1, start))
  }

  /** One more child of the min-merge loop: a selected child's entry joins the fold. */
  lemma MinFoldStep(acc: Option<string>, state: State, start: string, cs: seq<Stream>, i: nat, key: string)
    requires i < |cs|
    ensures MinFold(acc, state, start, ChildPairs(cs[..i + 1], key, false)) ==
      if cs[i].selected then MinStep(MinFold(acc, state, start, ChildPairs(cs[..i], key, false)), Lookup(state, cs[i].Id(), key, start))
      else MinFold(acc, state, start, ChildPairs(cs[..i], key, false))
  {
    ChildPairsStep(cs, i, key, false);
    var before := ChildPairs(cs[..i], key, false);
    if cs[i].selected {
      assert (before + [(cs[i].Id(), key)])[..|before|] == before;
    } else {
      assert before + [] == before;
    }
  }

  /**
   * The min-merge read of boards (`initNone` false: the accumulator starts at "") and of
   * updates (`initNone` true: it starts at None).
   */
  function MinRead(s: Stream, state: State, start: string, initNone: bool): Option<string>
    requires |s.attrs.replicationKeys| > 0
  {
    var init := if s.selected then Some(Lookup(state, s.Id(), Rk0(s), start)) else if initNone then None else Some("");
    MinFold(init, state, start, ChildPairs(s.children, CompositeKey(s), false))
  }

  /**
   * With non-empty stored values, the fold ends at the least of the accumulator and the
   * entries, and is one of them.
   */
  lemma {:induction false} MinFoldIsMin(acc: Option<string>, state: State, start: string, pairs: seq<(string, string)>)
    requires forall i :: 0 <= i < |pairs| ==> Lookup(state, pairs[i].0, pairs[i].1, start) != ""
    ensures var r := MinFold(acc, state, start, pairs);
      && (!Held(acc) && pairs == [] ==> r == acc)
      && (Held(acc) || pairs != [] ==>
            && Held(r)
            && (forall i :: 0 <= i < |pairs| ==> Le(r.value, Lookup(state, pairs[i].0, pairs[i].1, start)))
            && (Held(acc) ==> Le(r.value, acc.value))
            && (r == acc || exists i :: 0 <= i < |pairs| && r.value == Lookup(state, pairs[i].0, pairs[i].1, start)))
    decreases |pairs|
  {
    if pairs != [] {
      var init := pairs[..|pairs| - 1];
      var v := Lookup(state, pairs[|pairs| - 1].0, pairs[|pairs| - 1].1, start);
      MinFoldIsMin(acc, state, start, init);
      var prev := MinFold(acc, state, start, init);
      var r := MinFold(acc, state, start, pairs);
      assert r == MinStep(prev, v);
      if Held(prev) {
        forall i | 0 <= i < |pairs|
          ensures Le(r.value, Lookup(state, pairs[i].0, pairs[i].1, start))
        {
          if i < |init| {
            assert pairs[i] == init[i];
            LeTransitive(r.value, prev.value, Lookup(state, pairs[i].0, pairs[i].1, start));
          }
        }
        if Held(acc) {
          LeTransitive(r.value, prev.value, acc.value);
        }
        if r.value == prev.value && prev != acc {
          var i :| 0 <= i < |init| && prev.value == Lookup(state, init[i].0, init[i].1, start);
          assert pairs[i] == init[i];
        }
      } else {
        assert !Held(acc) && init == [];
      }
    }
  }

  /** The entries the min-merge of a stream reads. */
  lemma MinReadParticipants(s: Stream)
    requires |s.attrs.replicationKeys| > 0
    ensures Participants(s, false) == OwnPair(s) + ChildPairs(s.children, CompositeKey(s), false)
  {
  }

  /**
   * The min-merge read is the least of the participating entries, and one of them, when every
   * stored value is non-empty; with no participant it is "" for boards and None for updates.
   */
  lemma MinReadIsMin(s: Stream, state: State, start: string, initNone: bool)
    requires |s.attrs.replicationKeys| > 0
    requires var ps := Participants(s, false);
      forall i :: 0 <= i < |ps| ==> Lookup(state, ps[i].0, ps[i].1, start) != ""
    ensures var ps := Participants(s, false); var r := MinRead(s, state, start, initNone);
      && (ps == [] ==> r == if initNone then None else Some(""))
      && (ps != [] ==>
            && r.Some?
            && (forall i :: 0 <= i < |ps| ==> Le(r.value, Lookup(state, ps[i].0, ps[i].1, start)))
            && (exists i :: 0 <= i < |ps| && r.value == Lookup(state, ps[i].0, ps[i].1, start)))
  {
    var kids := ChildPairs(s.children, CompositeKey(s), false);
    if s.selected {
      var ps := Participants(s, false);
      assert ps == [(s.Id(), Rk0(s))] + kids;
      assert Lookup(state, ps[0].0, ps[0].1, start) != "";
      forall i | 0 <= i < |kids|
        ensures Lookup(state, kids[i].0, kids[i].1, start) != ""
      {
        assert ps[i + 1] == kids[i];
      }
      MinReadSelected(s, state, start, initNone, kids);
    } else {
      assert Participants(s, false) == kids;
      MinFoldIsMin(if initNone then None else Some(""), state, start, kids);
    }
  }

  lemma MinReadSelected(s: Stream, state: State, start: string, initNone: bool, kids: seq<(string, string)>)
    requires |s.attrs.replicationKeys| > 0 && s.selected
    requires kids == ChildPairs(s.children, CompositeKey(s), false)
    requires forall i :: 0 <= i < |kids| ==> Lookup(state, kids[i].0, kids[i].1, start) != ""
    requires Lookup(state, s.Id(), Rk0(s), start) != ""
    ensures var ps := Participants(s, false); var r := MinRead(s, state, start, initNone);
      && r.Some?
      && (forall i :: 0 <= i < |ps| ==> Le(r.value, Lookup(state, ps[i].0, ps[i].1, start)))
      && (exists i :: 0 <= i < |ps| && r.value == Lookup(state, ps[i].0, ps[i].1, start))
  {
    var ps := Participants(s, false);
    var own := Lookup(state, s.Id(), Rk0(s), start);
    assert ps == [(s.Id(), Rk0(s))] + kids;
    MinFoldIsMin(Some(own), state, start, kids);
    var r := MinRead(s, state, start, initNone);
    assert r == MinFold(Some(own), state, start, kids);
    forall i | 0 <= i < |ps|
      ensures Le(r.value, Lookup(state, ps[i].0, ps[i].1, start))
    {
      if i > 0 {
        assert ps[i] == kids[i - 1];
      }
    }
    if r == Some(own) {
      assert r.value == Lookup(state, ps[0].0, ps[0].1, start);
    } else {
      var i :| 0 <= i < |kids| && r.value == Lookup(state, kids[i].0, kids[i].1, start);
      assert ps[i + 1] == kids[i];
    }
  }

  /**
   * After the propagate write of a non-empty `v` that is at least every participating stored
   * value, the next min-merge read returns `v`.
   */
  lemma WriteThenRead(s: Stream, state: State, start: string, v: string, initNone: bool)
    requires |s.attrs.replicationKeys| > 0
    requires v != "" && Participants(s, false) != []
    requires var ps := Participants(s, false);
      forall i :: 0 <= i < |ps| ==> Le(Lookup(state, ps[i].0, ps[i].1, start), v)
    ensures WriteAll(state, start, Participants(s, false), Some(v)).Ok?
    ensures MinRead(s, WriteAll(state, start, Participants(s, false), Some(v)).value, start, initNone) == Some(v)
  {
    var ps := Participants(s, false);
    WriteAllEffect(state, start, ps, Some(v));
    var after := WriteAll(state, start, ps, Some(v)).value;
    forall i | 0 <= i < |ps|
      ensures Lookup(after, ps[i].0, ps[i].1, start) == v
    {
      var old_ := Lookup(state, ps[i].0, ps[i].1, start);
      if Max(old_, v) != v {
        LeAntisymmetric(old_, v);
      }
    }
    MinReadIsMin(s, after, start, initNone);
  }

  // ---------------------------------------------------------------- memoised floors

  /** The kinds whose `get_bookmark` memoises its first truthy value. */
  predicate Memoised(k: Kind) {
    k in {BoardItems, BoardActivityLogs, Reply}
  }

  /**
   * `get_bookmark` of the stream: the value and the new memo (`bookmark_value` per stream).
   * The memoised kinds look their own entry up only while the memo is falsy.
   */
  function ReadSpec(s: Stream, state: State, memo: map<string, string>, start: string)
    : (r: (Option<string>, map<string, string>))
    requires |s.attrs.replicationKeys| > 0
    ensures !Memoised(s.kind) ==> r.1 == memo
    ensures Memoised(s.kind) && s.Id() in memo && memo[s.Id()] != "" ==> r == (Some(memo[s.Id()]), memo)
    ensures Memoised(s.kind) && !(s.Id() in memo && memo[s.Id()] != "") ==>
      r.0 == Some(Lookup(state, s.Id(), Rk0(s), start)) && r.1 == memo[s.Id() := r.0.value]
    ensures s.kind !in {Boards, Updates} ==> r.0.Some?
  {
    if s.kind == Boards then (MinRead(s, state, start, false), memo)
    else if s.kind == Updates then (MinRead(s, state, start, true), memo)
    else if Memoised(s.kind) then
      if s.Id() in memo && memo[s.Id()] != "" then (Some(memo[s.Id()]), memo)
      else var v := Lookup(state, s.Id(), Rk0(s), start); (Some(v), memo[s.Id() := v])
    else (Some(Lookup(state, s.Id(), Rk0(s), start)), memo)
  }

  /**
   * A memoised floor: once a read has returned a truthy value, a later read returns the same
   * value whatever the state has become, e.g. after the stream's own bookmark was raised.
   */
  lemma MemoisedFloorIsFixed(s: Stream, state1: State, state2: State, memo: map<string, string>, start: string)
    requires |s.attrs.replicationKeys| > 0 && Memoised(s.kind)
    requires ReadSpec(s, state1, memo, start).0.value != ""
    ensures var first := ReadSpec(s, state1, memo, start);
      ReadSpec(s, state2, first.1, start) == first
  {
  }
}
