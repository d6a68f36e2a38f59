/**
 * The sync engine of the stream classes: `get_records` with its page loop, the incremental
 * and full-table `sync` of the base classes with their child syncs, the assets `sync`, and
 * the bookmark reads and writes of the classes that override them. One `Tap` object holds
 * what the Python stream instances share during a run: the bookmark state (a dict singer
 * updates in place), each instance's `data_payload`, `bookmark_value` and `cursor`, and the
 * RECORD messages written so far.
 */
module Sync {
  import opened Wrappers
  import opened Failures
  import opened Json
  import opened Text
  import opened Streams
  import opened Records
  import opened Payloads
  import opened Bookmarks
  import Client

  // ---------------------------------------------------------------- what a run writes

  /** The entries a log holds for the stream `id`, in the order they were added. */
  function Emitted<T>(out: seq<(string, T)>, id: string): (r: seq<T>)
    ensures |r| <= |out|
    decreases |out|
  {
    if out == [] then []
    else Emitted(out[..|out| - 1], id) + (if out[|out| - 1].0 == id then [out[|out| - 1].1] else [])
  }

  /** Adding an entry for `id` adds it to what the log holds for `id`. */
  lemma EmittedPush<T>(out: seq<(string, T)>, id: string, x: T)
    ensures Emitted(out + [(id, x)], id) == Emitted(out, id) + [x]
  {
    assert (out + [(id, x)])[..|out|] == out;
  }

  /** Entries for other streams leave what the log holds for `id` unchanged. */
  lemma {:induction false} EmittedSkips<T>(out0: seq<(string, T)>, out1: seq<(string, T)>, id: string)
    requires out0 <= out1
    requires forall i :: |out0| <= i < |out1| ==> out1[i].0 != id
    ensures Emitted(out1, id) == Emitted(out0, id)
    decreases |out1|
  {
    if |out1| > |out0| {
      var init := out1[..|out1| - 1];
      EmittedSkips(out0, init, id);
    } else {
      assert out1 == out0;
    }
  }

  lemma ConcatAssoc<T>(a: seq<T>, b: seq<T>, c: seq<T>)
    ensures a + b + c == a + (b + c)
  {
  }

  /** Every entry added after `out0` belongs to a stream of the tree rooted at `s`. */
  ghost predicate InTree<T>(s: Stream, out0: seq<(string, T)>, out1: seq<(string, T)>) {
    out0 <= out1 && forall i :: AddedInTree(s, out0, out1, i)
  }

  /** Entry `i`, when it was added after `out0`, belongs to the tree rooted at `s`. */
  ghost predicate AddedInTree<T>(s: Stream, out0: seq<(string, T)>, out1: seq<(string, T)>, i: int) {
    |out0| <= i < |out1| ==> !Excludes(s, out1[i].0)
  }

  /** What a child's tree adds belongs to its parent's tree, and never to the parent itself. */
  lemma ChildInTree<T>(s: Stream, j: nat, out0: seq<(string, T)>, out1: seq<(string, T)>)
    requires Tree(s) && j < |s.children| && InTree(s.children[j], out0, out1)
    ensures InTree(s, out0, out1)
    ensures Emitted(out1, s.Id()) == Emitted(out0, s.Id())
  {
    forall i | |out0| <= i < |out1|
      ensures AddedInTree(s, out0, out1, i) && out1[i].0 != s.Id()
    {
      assert AddedInTree(s.children[j], out0, out1, i);
      assert Excludes(s.children[j], s.Id());
    }
    EmittedSkips(out0, out1, s.Id());
  }

  lemma InTreeTrans<T>(s: Stream, a: seq<(string, T)>, b: seq<(string, T)>, c: seq<(string, T)>)
    requires InTree(s, a, b) && InTree(s, b, c)
    ensures InTree(s, a, c)
  {
    forall i
      ensures AddedInTree(s, a, c, i)
    {
      if |a| <= i < |b| {
        assert AddedInTree(s, a, b, i) && c[i] == b[i];
      } else if |b| <= i < |c| {
        assert AddedInTree(s, b, c, i);
      }
    }
  }

  /**
   * What a run has done so far: the RECORD messages written, the pages `get_records` received
   * (stream id, records, `page` flag), and the child syncs started (parent stream id, child
   * stream id, `parent_obj`).
   */
  datatype Trace = Trace(out: seq<(string, Json)>, fetched: seq<(string, (seq<Json>, bool))>,
                         spawned: seq<(string, (string, Json))>)

  /** Everything added to the trace from `t0` to `t1` belongs to the tree rooted at `s`. */
  ghost predicate Within(s: Stream, t0: Trace, t1: Trace) {
    InTree(s, t0.out, t1.out) && InTree(s, t0.fetched, t1.fetched) && InTree(s, t0.spawned, t1.spawned)
  }

  lemma WithinTrans(s: Stream, a: Trace, b: Trace, c: Trace)
    requires Within(s, a, b) && Within(s, b, c)
    ensures Within(s, a, c)
  {
    InTreeTrans(s, a.out, b.out, c.out);
    InTreeTrans(s, a.fetched, b.fetched, c.fetched);
    InTreeTrans(s, a.spawned, b.spawned, c.spawned);
  }

  /** A stream's own entries belong to its tree. */
  lemma OwnInTree<T>(s: Stream, out: seq<(string, T)>, x: T)
    ensures InTree(s, out, out + [(s.Id(), x)])
  {
  }

  /** The child syncs one record starts: each child of `child_to_sync`, in order, with the record. */
  function Spawns(s: Stream, record: Json): (r: seq<(string, Json)>)
    ensures |r| == |s.children| && forall i :: 0 <= i < |r| ==> r[i] == (s.children[i].Id(), record)
  {
    seq(|s.children|, i requires 0 <= i < |s.children| => (s.children[i].Id(), record))
  }

  /**
   * From `t0` to `t1` the run stayed in the tree rooted at `s`, and for `s` itself it wrote the
   * RECORD messages `recs`, received the pages `pages` and started the child syncs `spawns`.
   */
  ghost predicate Logged(s: Stream, t0: Trace, t1: Trace, recs: seq<Json>, pages: seq<(seq<Json>, bool)>,
                         spawns: seq<(string, Json)>) {
    && Within(s, t0, t1)
    && Emitted(t1.out, s.Id()) == Emitted(t0.out, s.Id()) + recs
    && Emitted(t1.fetched, s.Id()) == Emitted(t0.fetched, s.Id()) + pages
    && Emitted(t1.spawned, s.Id()) == Emitted(t0.spawned, s.Id()) + spawns
  }

  lemma LoggedNone(s: Stream, t: Trace)
    ensures Logged(s, t, t, [], [], [])
  {
    assert Emitted(t.out, s.Id()) + [] == Emitted(t.out, s.Id());
    assert Emitted(t.fetched, s.Id()) + [] == Emitted(t.fetched, s.Id());
    assert Emitted(t.spawned, s.Id()) + [] == Emitted(t.spawned, s.Id());
  }

  /** Two stretches of a run in turn log what each logs, in order. */
  lemma LoggedTrans(s: Stream, a: Trace, b: Trace, c: Trace,
                    r1: seq<Json>, p1: seq<(seq<Json>, bool)>, s1: seq<(string, Json)>,
                    r2: seq<Json>, p2: seq<(seq<Json>, bool)>, s2: seq<(string, Json)>)
    requires Logged(s, a, b, r1, p1, s1) && Logged(s, b, c, r2, p2, s2)
    ensures Logged(s, a, c, r1 + r2, p1 + p2, s1 + s2)
  {
    WithinTrans(s, a, b, c);
    ConcatAssoc(Emitted(a.out, s.Id()), r1, r2);
    ConcatAssoc(Emitted(a.fetched, s.Id()), p1, p2);
    ConcatAssoc(Emitted(a.spawned, s.Id()), s1, s2);
  }

  /** A child's sync stays in the parent's tree and logs nothing for the parent itself. */
  lemma ChildLogged(s: Stream, j: nat, a: Trace, b: Trace)
    requires Tree(s) && j < |s.children| && Within(s.children[j], a, b)
    ensures Logged(s, a, b, [], [], [])
  {
    ChildInTree(s, j, a.out, b.out);
    ChildInTree(s, j, a.fetched, b.fetched);
    ChildInTree(s, j, a.spawned, b.spawned);
    LoggedNone(s, a);
  }

  /** Starting the `i`-th child sync of a record, and the child's sync, log the start for `s`. */
  lemma ChildStep(s: Stream, record: Json, i: nat, t0: Trace, t1: Trace, t2: Trace, t3: Trace)
    requires Tree(s) && i < |s.children|
    requires Logged(s, t0, t1, [], [], Spawns(s, record)[..i])
    requires t2 == t1.(spawned := t1.spawned + [(s.Id(), (s.children[i].Id(), record))])
    requires Within(s.children[i], t2, t3)
    ensures Logged(s, t0, t3, [], [], Spawns(s, record)[..i + 1])
  {
    var x := (s.children[i].Id(), record);
    LogSpawn(s, t1, x.0, record);
    LoggedTrans(s, t0, t1, t2, [], [], Spawns(s, record)[..i], [], [], [x]);
    ChildLogged(s, i, t2, t3);
    LoggedTrans(s, t0, t2, t3, [], [], Spawns(s, record)[..i] + [x], [], [], []);
    assert Spawns(s, record)[..i + 1] == Spawns(s, record)[..i] + [x];
  }

  /** One more record of a full-table run: written, and its child syncs started. */
  lemma RecordStep(s: Stream, t0: Trace, t1: Trace, t2: Trace, seen: seq<Json>, rec: Json)
    requires Logged(s, t0, t1, seen, [], SpawnsAll(s, seen))
    requires Logged(s, t1, t2, [rec], [], Spawns(s, rec))
    ensures Logged(s, t0, t2, seen + [rec], [], SpawnsAll(s, seen + [rec]))
  {
    LoggedTrans(s, t0, t1, t2, seen, [], SpawnsAll(s, seen), [rec], [], Spawns(s, rec));
    SpawnsAllPush(s, seen, rec);
  }

  /** One more page of a full-table run: its records written, their child syncs started. */
  lemma PageStep(s: Stream, t0: Trace, t1: Trace, t2: Trace, seen: seq<Json>, pages: seq<(seq<Json>, bool)>,
                 done: seq<Json>, page: (seq<Json>, bool))
    requires Logged(s, t0, t1, seen, pages, SpawnsAll(s, seen))
    requires Logged(s, t1, t2, done, [page], SpawnsAll(s, done))
    ensures Logged(s, t0, t2, seen + done, pages + [page], SpawnsAll(s, seen + done))
  {
    LoggedTrans(s, t0, t1, t2, seen, pages, SpawnsAll(s, seen), done, [page], SpawnsAll(s, done));
    SpawnsAllAppend(s, seen, done);
  }

  /**
   * What the page loop of a full-table `sync` keeps: the pages so far, the records they
   * produced, all of them written and their children spawned, and their count.
   */
  ghost predicate FullRunSoFar(s: Stream, parent: Json, seen: seq<Json>, raws: seq<Json>,
                               pages: seq<(seq<Json>, bool)>, count: nat, more: bool, t0: Trace, t1: Trace)
  {
    && PagesSoFar(pages, raws, more)
    && ModifyAll(s.kind, raws, parent, s.attrs.objectToId) == Ok(seen)
    && Logged(s, t0, t1, seen, pages, SpawnsAll(s, seen))
    && count == |seen|
  }

  /** One more page, handled as `FullTableTurn` handles it, keeps what the page loop keeps. */
  lemma FullRunStep(s: Stream, parent: Json, seen: seq<Json>, raws: seq<Json>, pages: seq<(seq<Json>, bool)>,
                    count: nat, t0: Trace, t1: Trace, records: seq<Json>, done: seq<Json>, flag: bool, t2: Trace)
    requires FullRunSoFar(s, parent, seen, raws, pages, count, true, t0, t1)
    requires ModifyAll(s.kind, records, parent, s.attrs.objectToId) == Ok(done)
    requires Logged(s, t1, t2, done, [(records, flag)], SpawnsAll(s, done))
    ensures FullRunSoFar(s, parent, seen + done, raws + records, pages + [(records, flag)], count + |done|, flag, t0, t2)
  {
    ModifyAllAppend(s.kind, raws, records, parent, s.attrs.objectToId, seen, done);
    PageStep(s, t0, t1, t2, seen, pages, done, (records, flag));
    PagesSoFarPush(pages, raws, records, flag);
  }

  /** Writing a RECORD message of `s` logs it. */
  lemma LogRecord(s: Stream, t: Trace, rec: Json)
    ensures Logged(s, t, t.(out := t.out + [(s.Id(), rec)]), [rec], [], [])
  {
    EmittedPush(t.out, s.Id(), rec);
    OwnInTree(s, t.out, rec);
    LoggedNone(s, t);
  }

  /** Receiving a page of `s` logs it. */
  lemma LogPage(s: Stream, t: Trace, page: (seq<Json>, bool))
    ensures Logged(s, t, t.(fetched := t.fetched + [(s.Id(), page)]), [], [page], [])
  {
    EmittedPush(t.fetched, s.Id(), page);
    OwnInTree(s, t.fetched, page);
    LoggedNone(s, t);
  }

  /** Starting a child sync of `s` logs it. */
  lemma LogSpawn(s: Stream, t: Trace, child: string, rec: Json)
    ensures Logged(s, t, t.(spawned := t.spawned + [(s.Id(), (child, rec))]), [], [], [(child, rec)])
  {
    EmittedPush(t.spawned, s.Id(), (child, rec));
    OwnInTree(s, t.spawned, (child, rec));
    LoggedNone(s, t);
  }

  /** The child syncs a run of records starts, record by record. */
  function SpawnsAll(s: Stream, recs: seq<Json>): seq<(string, Json)>
    decreases |recs|
  {
    if recs == [] then [] else SpawnsAll(s, recs[..|recs| - 1]) + Spawns(s, recs[|recs| - 1])
  }

  lemma SpawnsAllPush(s: Stream, recs: seq<Json>, rec: Json)
    ensures SpawnsAll(s, recs + [rec]) == SpawnsAll(s, recs) + Spawns(s, rec)
  {
    assert (recs + [rec])[..|recs|] == recs;
  }

  lemma {:induction false} SpawnsAllAppend(s: Stream, a: seq<Json>, b: seq<Json>)
    ensures SpawnsAll(s, a + b) == SpawnsAll(s, a) + SpawnsAll(s, b)
    decreases |b|
  {
    if b == [] {
      assert a + b == a;
    } else {
      var init, last := b[..|b| - 1], b[|b| - 1];
      assert b == init + [last];
      assert a + b == (a + init) + [last];
      SpawnsAllAppend(s, a, init);
      SpawnsAllPush(s, a + init, last);
      SpawnsAllPush(s, init, last);
      ConcatAssoc(SpawnsAll(s, a), SpawnsAll(s, init), Spawns(s, last));
    }
  }

  /** The records of a run of pages, in order. */
  function RunRecords(pages: seq<(seq<Json>, bool)>): seq<Json>
    decreases |pages|
  {
    if pages == [] then [] else RunRecords(pages[..|pages| - 1]) + pages[|pages| - 1].0
  }

  lemma RunRecordsPush(pages: seq<(seq<Json>, bool)>, page: (seq<Json>, bool))
    ensures RunRecords(pages + [page]) == RunRecords(pages) + page.0
  {
    assert (pages + [page])[..|pages|] == pages;
  }

  /**
   * The pages of one `get_records` loop: at least one, and every page but the last had a truthy
   * `page` value.
   */
  predicate PageRun(pages: seq<(seq<Json>, bool)>) {
    pages != [] && !pages[|pages| - 1].1 && forall i :: 0 <= i < |pages| - 1 ==> pages[i].1
  }

  // ---------------------------------------------------------------- the floor comparison

  /** The replication value of a record passes the floor: a str at or after it. */
  predicate Passes(rec: Json, rk: string, floor: string) {
    rec.JObj? && rk in rec.fields && rec.fields[rk].JStr? && Le(floor, rec.fields[rk].s)
  }

  /** The records that pass the floor, in order. */
  function Passing(recs: seq<Json>, rk: string, floor: string): (r: seq<Json>)
    ensures forall x :: x in r ==> x in recs && Passes(x, rk, floor)
    decreases |recs|
  {
    if recs == [] then []
    else
      var last := recs[|recs| - 1];
      Passing(recs[..|recs| - 1], rk, floor) + (if Passes(last, rk, floor) then [last] else [])
  }

  lemma PassingPush(recs: seq<Json>, rk: string, floor: string, rec: Json)
    ensures Passing(recs + [rec], rk, floor) == Passing(recs, rk, floor) + (if Passes(rec, rk, floor) then [rec] else [])
  {
    assert (recs + [rec])[..|recs|] == recs;
  }

  /**
   * The pages a `get_records` loop has received so far, with their records `raws` in order:
   * while `more` holds every page had a truthy `page` value, and once it fails they form a run.
   */
  predicate PagesSoFar(pages: seq<(seq<Json>, bool)>, raws: seq<Json>, more: bool) {
    && raws == RunRecords(pages)
    && (more ==> forall i :: 0 <= i < |pages| ==> pages[i].1)
    && (!more ==> PageRun(pages))
  }

  /** One more page: its flag decides whether the loop goes on. */
  lemma PagesSoFarPush(pages: seq<(seq<Json>, bool)>, raws: seq<Json>, records: seq<Json>, flag: bool)
    requires PagesSoFar(pages, raws, true)
    ensures PagesSoFar(pages + [(records, flag)], raws + records, flag)
  {
    RunRecordsPush(pages, (records, flag));
  }

  /**
   * `current_max_bookmark_date` after a run of records, starting from `m`: each record at or
   * after the floor raises it to the larger of the two values, the others leave it.
   */
  function MaxOver(m: string, recs: seq<Json>, rk: string, floor: string): string
    decreases |recs|
  {
    if recs == [] then m
    else
      var last := recs[|recs| - 1];
      var prev := MaxOver(m, recs[..|recs| - 1], rk, floor);
      if Passes(last, rk, floor) then Max(prev, last.fields[rk].s) else prev
  }

  lemma MaxOverPush(m: string, recs: seq<Json>, rk: string, floor: string, rec: Json)
    ensures MaxOver(m, recs + [rec], rk, floor)
         == if Passes(rec, rk, floor) then Max(MaxOver(m, recs, rk, floor), rec.fields[rk].s) else MaxOver(m, recs, rk, floor)
  {
    assert (recs + [rec])[..|recs|] == recs;
  }

  /**
   * The running maximum is the largest of the start and the passing values: at or above each
   * of them, and equal to the start or to one of them.
   */
  lemma {:induction false} MaxOverIsMaximum(m: string, recs: seq<Json>, rk: string, floor: string)
    ensures Le(m, MaxOver(m, recs, rk, floor))
    ensures forall x :: x in Passing(recs, rk, floor) ==> Le(x.fields[rk].s, MaxOver(m, recs, rk, floor))
    ensures MaxOver(m, recs, rk, floor) == m
         || exists x :: x in Passing(recs, rk, floor) && MaxOver(m, recs, rk, floor) == x.fields[rk].s
    decreases |recs|
  {
    if recs != [] {
      var init, last := recs[..|recs| - 1], recs[|recs| - 1];
      var prev, r := MaxOver(m, init, rk, floor), MaxOver(m, recs, rk, floor);
      MaxOverIsMaximum(m, init, rk, floor);
      assert recs == init + [last];
      PassingPush(init, rk, floor, last);
      if Passes(last, rk, floor) {
        LeTransitive(m, prev, r);
        forall x | x in Passing(recs, rk, floor)
          ensures Le(x.fields[rk].s, r)
        {
          if x != last {
            LeTransitive(x.fields[rk].s, prev, r);
          }
        }
        assert last in Passing(recs, rk, floor);
      } else {
        assert Passing(recs, rk, floor) == Passing(init, rk, floor) + [];
      }
    }
  }

  /** Running the maximum over two runs in turn is running it over both. */
  lemma {:induction false} MaxOverAppend(m: string, a: seq<Json>, b: seq<Json>, rk: string, floor: string)
    ensures MaxOver(MaxOver(m, a, rk, floor), b, rk, floor) == MaxOver(m, a + b, rk, floor)
    decreases |b|
  {
    if b == [] {
      assert a + b == a;
    } else {
      var init, last := b[..|b| - 1], b[|b| - 1];
      assert b == init + [last];
      assert a + b == (a + init) + [last];
      MaxOverAppend(m, a, init, rk, floor);
      MaxOverPush(m, a + init, rk, floor, last);
      MaxOverPush(MaxOver(m, a, rk, floor), init, rk, floor, last);
    }
  }

  /**
   * What the record loop of an incremental page keeps: of the records `done` handled so far,
   * those at or after the floor raised the running maximum from `maxTs` to `current`, were
   * written (when the stream is selected) and counted in `count`, and started their child
   * syncs, and the trace from `t0` to `t1` logs exactly that for the stream.
   */
  ghost predicate PageSoFar(s: Stream, floor: Option<string>, maxTs: Option<string>, done: seq<Json>,
                            current: Option<string>, count: nat, t0: Trace, t1: Trace)
    requires |s.attrs.replicationKeys| > 0
  {
    var passing := Passing(done, Rk0(s), floor.GetOr(""));
    && (done != [] ==> floor.Some?)
    && (floor.Some? ==> current.Some?)
    && current == (if maxTs.Some? then Some(MaxOver(maxTs.value, done, Rk0(s), floor.GetOr(""))) else None)
    && Logged(s, t0, t1, if s.selected then passing else [], [], SpawnsAll(s, passing))
    && count == |if s.selected then passing else []|
  }

  /** One more record, handled as `IncrementalNext` handles it, keeps what the loop keeps. */
  lemma PageSoFarStep(s: Stream, floor: Option<string>, maxTs: Option<string>, done: seq<Json>,
                      current: Option<string>, count: nat, t0: Trace, t1: Trace,
                      record: Json, next: Option<string>, total: nat, t2: Trace)
    requires |s.attrs.replicationKeys| > 0 && (floor.Some? ==> maxTs.Some?)
    requires PageSoFar(s, floor, maxTs, done, current, count, t0, t1)
    requires floor.Some? && current.Some?
    requires next == (if Passes(record, Rk0(s), floor.value) then Some(Max(current.value, record.fields[Rk0(s)].s)) else current)
    requires Logged(s, t1, t2, if s.selected && Passes(record, Rk0(s), floor.value) then [record] else [], [],
                    if Passes(record, Rk0(s), floor.value) then Spawns(s, record) else [])
    requires total == count + (if s.selected && Passes(record, Rk0(s), floor.value) then 1 else 0)
    ensures PageSoFar(s, floor, maxTs, done + [record], next, total, t0, t2)
  {
    var rk, f := Rk0(s), floor.value;
    var passing := Passing(done, rk, f);
    LoggedTrans(s, t0, t1, t2, if s.selected then passing else [], [], SpawnsAll(s, passing),
                if s.selected && Passes(record, rk, f) then [record] else [], [],
                if Passes(record, rk, f) then Spawns(s, record) else []);
    PassingStep(s, done, rk, f, record, s.selected);
    MaxOverPush(maxTs.value, done, rk, f, record);
  }

  /**
   * What the page loop of an incremental `sync` keeps: the pages so far, the records they
   * produced, the running maximum over those that passed the floor, what was written and
   * spawned, and the count of records written.
   */
  ghost predicate PagesRunSoFar(s: Stream, parent: Json, floor: Option<string>, seen: seq<Json>, raws: seq<Json>,
                                pages: seq<(seq<Json>, bool)>, maxTs: Option<string>, count: nat, more: bool,
                                t0: Trace, t1: Trace)
    requires |s.attrs.replicationKeys| > 0
  {
    var passing := Passing(seen, Rk0(s), floor.GetOr(""));
    && PagesSoFar(pages, raws, more)
    && ModifyAll(s.kind, raws, parent, s.attrs.objectToId) == Ok(seen)
    && (seen != [] ==> floor.Some?)
    && maxTs == (if floor.Some? then Some(MaxOver(floor.value, seen, Rk0(s), floor.value)) else None)
    && Logged(s, t0, t1, if s.selected then passing else [], pages, SpawnsAll(s, passing))
    && count == |if s.selected then passing else []|
  }

  /** One more page, handled as `IncrementalTurn` handles it, keeps what the page loop keeps. */
  lemma PagesRunStep(s: Stream, parent: Json, floor: Option<string>, seen: seq<Json>, raws: seq<Json>,
                     pages: seq<(seq<Json>, bool)>, maxTs: Option<string>, count: nat, t0: Trace, t1: Trace,
                     records: seq<Json>, done: seq<Json>, flag: bool, newMax: Option<string>, n: nat, t2: Trace)
    requires |s.attrs.replicationKeys| > 0
    requires PagesRunSoFar(s, parent, floor, seen, raws, pages, maxTs, count, true, t0, t1)
    requires ModifyAll(s.kind, records, parent, s.attrs.objectToId) == Ok(done)
    requires done != [] ==> floor.Some?
    requires newMax == (if maxTs.Some? then Some(MaxOver(maxTs.value, done, Rk0(s), floor.GetOr(""))) else None)
    requires Logged(s, t1, t2, if s.selected then Passing(done, Rk0(s), floor.GetOr("")) else [], [(records, flag)],
                    SpawnsAll(s, Passing(done, Rk0(s), floor.GetOr(""))))
    requires n == |if s.selected then Passing(done, Rk0(s), floor.GetOr("")) else []|
    ensures PagesRunSoFar(s, parent, floor, seen + done, raws + records, pages + [(records, flag)], newMax, count + n,
                          flag, t0, t2)
  {
    var rk, f := Rk0(s), floor.GetOr("");
    ModifyAllAppend(s.kind, raws, records, parent, s.attrs.objectToId, seen, done);
    PassingPageStep(s, rk, f, t0, t1, t2, seen, pages, done, (records, flag));
    PagesSoFarPush(pages, raws, records, flag);
    if floor.Some? {
      MaxOverAppend(floor.value, seen, done, rk, f);
    }
  }

  /**
   * Records at or below the value written are at or below every entry that holds at least
   * that value.
   */
  lemma BoundAfterWrite(done: seq<Json>, rk: string, floor: string, written: string,
                        pairs: seq<(string, string)>, state: State, start: string)
    requires forall x :: x in Passing(done, rk, floor) ==> Le(x.fields[rk].s, written)
    requires forall p :: p in pairs ==> Le(written, Lookup(state, p.0, p.1, start))
    ensures forall p, x :: p in pairs && x in Passing(done, rk, floor) ==>
      Le(x.fields[rk].s, Lookup(state, p.0, p.1, start))
  {
    forall p, x | p in pairs && x in Passing(done, rk, floor)
      ensures Le(x.fields[rk].s, Lookup(state, p.0, p.1, start))
    {
      LeTransitive(x.fields[rk].s, written, Lookup(state, p.0, p.1, start));
    }
  }


  /**
   * One more record: it is written (when the stream is selected) and starts the child syncs
   * exactly when it passes the floor.
   */
  lemma PassingStep(s: Stream, done: seq<Json>, rk: string, floor: string, rec: Json, selected: bool)
    ensures (if selected then Passing(done, rk, floor) else []) + (if selected && Passes(rec, rk, floor) then [rec] else [])
         == (if selected then Passing(done + [rec], rk, floor) else [])
    ensures SpawnsAll(s, Passing(done, rk, floor)) + (if Passes(rec, rk, floor) then Spawns(s, rec) else [])
         == SpawnsAll(s, Passing(done + [rec], rk, floor))
  {
    PassingPush(done, rk, floor, rec);
    if Passes(rec, rk, floor) {
      SpawnsAllPush(s, Passing(done, rk, floor), rec);
    } else {
      assert Passing(done + [rec], rk, floor) == Passing(done, rk, floor) + [] == Passing(done, rk, floor);
    }
  }

  /** Two runs of records in turn: what each writes and starts, in order. */
  lemma PassingRun(s: Stream, a: seq<Json>, b: seq<Json>, rk: string, floor: string, selected: bool)
    ensures (if selected then Passing(a, rk, floor) else []) + (if selected then Passing(b, rk, floor) else [])
         == (if selected then Passing(a + b, rk, floor) else [])
    ensures SpawnsAll(s, Passing(a, rk, floor)) + SpawnsAll(s, Passing(b, rk, floor)) == SpawnsAll(s, Passing(a + b, rk, floor))
  {
    PassingAppend(a, b, rk, floor);
    SpawnsAllAppend(s, Passing(a, rk, floor), Passing(b, rk, floor));
  }

  /**
   * One more page of an incremental run: the records of it at or after the floor are written
   * (when the stream is selected) and start their child syncs.
   */
  lemma PassingPageStep(s: Stream, rk: string, f: string, t0: Trace, t1: Trace, t2: Trace, seen: seq<Json>,
                        pages: seq<(seq<Json>, bool)>, done: seq<Json>, page: (seq<Json>, bool))
    requires Logged(s, t0, t1, if s.selected then Passing(seen, rk, f) else [], pages, SpawnsAll(s, Passing(seen, rk, f)))
    requires Logged(s, t1, t2, if s.selected then Passing(done, rk, f) else [], [page], SpawnsAll(s, Passing(done, rk, f)))
    ensures Logged(s, t0, t2, if s.selected then Passing(seen + done, rk, f) else [], pages + [page],
                   SpawnsAll(s, Passing(seen + done, rk, f)))
    ensures |if s.selected then Passing(seen + done, rk, f) else []|
         == |if s.selected then Passing(seen, rk, f) else []| + |if s.selected then Passing(done, rk, f) else []|
  {
    LoggedTrans(s, t0, t1, t2, if s.selected then Passing(seen, rk, f) else [], pages, SpawnsAll(s, Passing(seen, rk, f)),
                if s.selected then Passing(done, rk, f) else [], [page], SpawnsAll(s, Passing(done, rk, f)));
    PassingRun(s, seen, done, rk, f, s.selected);
  }

  lemma {:induction false} PassingAppend(a: seq<Json>, b: seq<Json>, rk: string, floor: string)
    ensures Passing(a + b, rk, floor) == Passing(a, rk, floor) + Passing(b, rk, floor)
    decreases |b|
  {
    if b == [] {
      assert a + b == a;
      assert Passing(a, rk, floor) + [] == Passing(a, rk, floor);
    } else {
      var init, last := b[..|b| - 1], b[|b| - 1];
      var tail := if Passes(last, rk, floor) then [last] else [];
      assert b == init + [last];
      assert a + b == (a + init) + [last];
      PassingAppend(a, init, rk, floor);
      PassingPush(a + init, rk, floor, last);
      PassingPush(init, rk, floor, last);
      ConcatAssoc(Passing(a, rk, floor), Passing(init, rk, floor), tail);
    }
  }


  /**
   * `record_timestamp >= bookmark_date`: two strs compare in Python's order; a None floor, or a
   * replication value that is not a str, makes the comparison a TypeError.
   */
  function AtOrAfter(ts: Json, floor: Option<string>): (r: Result<bool, Error>)
    ensures r.Ok? <==> ts.JStr? && floor.Some?
    ensures r.Ok? ==> (r.value <==> Le(floor.value, ts.s))
  {
    if ts.JStr? && floor.Some? then Ok(Le(floor.value, ts.s))
    else Err(TypeError("'>=' not supported between the replication value and the bookmark"))
  }

  // ---------------------------------------------------------------- one page

  /** `parse_raw_records` of the stream: the records value and the cursor it leaves. */
  function ParsePage(s: Stream, raw: Json, cursor: Json): (r: Result<(Json, Json), Error>)
    ensures s.kind != BoardItems && r.Ok? ==> r.value.1 == cursor
    ensures s.kind !in {BoardItems, ColumnValues} ==> r == Ok((ParseRawRecords(raw), cursor))
  {
    if s.kind == BoardItems then ParseBoardItems(raw, cursor)
    else if s.kind == ColumnValues then
      var records :- ParseColumnValues(raw);
      Ok((records, cursor))
    else Ok((ParseRawRecords(raw), cursor))
  }

  /**
   * One turn of the `get_records` loop on a response: the records at the data key, parsed,
   * and whether the response's `page` value asks for another request.
   */
  function PageOf(s: Stream, response: Json, cursor: Json): (r: Result<(seq<Json>, bool), Error>)
    ensures r.Ok? ==> response.JObj?
  {
    var raw := DotPath(response, s.attrs.dataKey);
    var parsed :- ParsePage(s, raw, cursor);
    var next :- Get(response, "page", JNull);
    var records :- Iterate(parsed.0);
    Ok((records, Truthy(next)))
  }

  /**
   * The endpoint a stream's requests go to is never empty, so the client's
   * `endpoint or f"{base_url}/{path}"` keeps it: the class's own URL when it has one, else the
   * base URL joined with the stream's path.
   */
  lemma EndpointKept(s: Stream, path: Option<string>)
    ensures UrlEndpoint(s, Client.BaseUrl) != ""
    ensures Client.RequestEndpoint(UrlEndpoint(s, Client.BaseUrl), path)
      == if s.attrs.urlEndpoint != "" then s.attrs.urlEndpoint else Client.BaseUrl + "/" + s.attrs.path
  {
  }

  /**
   * monday.com answers without a `page` key, so every stream stops after its first request,
   * and a base stream's records are the list at its data key.
   */
  lemma SinglePage(s: Stream, fields: map<string, Json>, cursor: Json)
    requires "page" !in fields && PageOf(s, JObj(fields), cursor).Ok?
    ensures !PageOf(s, JObj(fields), cursor).value.1
    ensures s.kind !in {BoardItems, ColumnValues} && DotPath(JObj(fields), s.attrs.dataKey).JArr? ==>
      PageOf(s, JObj(fields), cursor).value.0 == DotPath(JObj(fields), s.attrs.dataKey).items
  {
  }

  // ---------------------------------------------------------------- the run

  class Tap {
    /** The client every stream shares, with the run's configuration. */
    const client: Client.Client
    /** The bookmark state; singer updates the dict in place, so every stream sees each write. */
    var state: State
    /** `bookmark_value` of the memoising streams, by stream id; an absent entry is None. */
    var memo: map<string, string>
    /** The board items pagination `cursor`, by stream id; an absent entry is None. */
    var cursor: map<string, Json>
    /** The `data_payload` of each stream instance, by stream id. */
    var payload: map<string, Client.Payload>
    /** The RECORD messages written so far, as (stream id, record). */
    var out: seq<(string, Json)>
    /** The pages received so far, as (stream id, (records, `page` flag)). */
    ghost var fetched: seq<(string, (seq<Json>, bool))>
    /** The child syncs started so far, as (parent stream id, (child stream id, `parent_obj`)). */
    ghost var spawned: seq<(string, (string, Json))>

    constructor (client: Client.Client, state: State)
      ensures this.client == client && this.state == state
      ensures memo == map[] && cursor == map[] && payload == map[] && out == []
      ensures fetched == [] && spawned == []
    {
      this.client := client;
      this.state := state;
      memo := map[];
      cursor := map[];
      payload := map[];
      out := [];
      fetched := [];
      spawned := [];
    }

    /** The run's trace as it stands. */
    ghost function Logs(): Trace
      reads this
    {
      Trace(out, fetched, spawned)
    }

    /** `config["start_date"]`, the default of every bookmark. */
    function Start(): string {
      client.config.startDate
    }

    function CursorOf(id: string): Json
      reads this
    {
      if id in cursor then cursor[id] else JNull
    }

    function PayloadOf(id: string): Client.Payload
      reads this
    {
      if id in payload then payload[id] else map[]
    }

    /** The request `get_records` sends for the stream. */
    function PageCall(s: Stream): Client.Call
      reads this
    {
      Client.Call("POST", Client.RequestEndpoint(UrlEndpoint(s, Client.BaseUrl), Some(s.attrs.path)),
                  Client.Authenticate(client.config, Some(map["Accept" := "application/json"]), None).0,
                  map[], Some(PayloadOf(s.Id())))
    }

    /**
     * The min-merge loop of boards and updates: the stream's own entry when it is selected,
     * else "" for boards and None for updates, merged with the entry of each selected child.
     */
    method MinMerge(s: Stream, initNone: bool) returns (r: Option<string>)
      requires |s.attrs.replicationKeys| > 0
      ensures r == MinRead(s, state, Start(), initNone)
    {
      var acc: Option<string> :=
        if s.selected then Some(Lookup(state, s.Id(), Rk0(s), Start()))
        else if initNone then None
        else Some("");
      ghost var init := acc;
      var key := CompositeKey(s);
      var i := 0;
      while i < |s.children|
        invariant 0 <= i <= |s.children|
        invariant acc == MinFold(init, state, Start(), ChildPairs(s.children[..i], key, false))
      {
        var child := s.children[i];
        MinFoldStep(init, state, Start(), s.children, i, key);
        if child.selected {
          var childBookmark := Lookup(state, child.Id(), key, Start());
          acc := if Held(acc) then Some(Min(acc.value, childBookmark)) else Some(childBookmark);
        }
        i := i + 1;
      }
      assert s.children[..i] == s.children;
      r := acc;
    }

    /**
     * The stream's `get_bookmark(state, tap_stream_id)`: the min-merge over the selected
     * entries for boards and updates, the memoised read for board items, activity logs and
     * replies, and the stored value or the start date for the others.
     */
    method GetBookmark(s: Stream) returns (r: Option<string>)
      requires |s.attrs.replicationKeys| > 0
      modifies this`memo
      ensures (r, memo) == ReadSpec(s, state, old(memo), Start())
    {
      var rk := Rk0(s);
      if s.kind == Boards || s.kind == Updates {
        r := MinMerge(s, s.kind == Updates);
      } else if Memoised(s.kind) {
        if !(s.Id() in memo && memo[s.Id()] != "") {
          memo := memo[s.Id() := Lookup(state, s.Id(), rk, Start())];
        }
        r := Some(memo[s.Id()]);
      } else {
        r := Some(Lookup(state, s.Id(), rk, Start()));
      }
    }

    /**
     * The stream's `write_bookmark(state, tap_stream_id, value=value)`: the propagate write of
     * boards, updates and board items, the base write otherwise. On failure nothing is written.
     */
    method WriteBookmark(s: Stream, value: Option<string>) returns (r: Result<(), Error>)
      requires |s.attrs.replicationKeys| > 0
      modifies this`state
      ensures var w := WriteSpec(s, old(state), Start(), value);
        && (r.Ok? <==> w.Ok?)
        && state == (if w.Ok? then w.value else old(state))
    {
      if s.kind in {Boards, Updates, BoardItems} {
        r := WriteMerged(s, s.kind == BoardItems, value);
      } else {
        var w := BaseWrite(state, Start(), s.Id(), "", s.attrs.replicationKeys, value);
        if w.Err? {
          return Err(w.error);
        }
        state := w.value;
        r := Ok(());
      }
    }

    /**
     * The override of boards, updates (`skipFullTable` false) and board items (true): the
     * stream's own entry when it is selected, then the composite key of each selected child,
     * board items passing over full-table children.
     */
    method WriteMerged(s: Stream, skipFullTable: bool, value: Option<string>) returns (r: Result<(), Error>)
      requires |s.attrs.replicationKeys| > 0
      modifies this`state
      ensures var w := WriteAll(old(state), Start(), Participants(s, skipFullTable), value);
        && (r.Ok? <==> w.Ok?)
        && state == (if w.Ok? then w.value else old(state))
    {
      ghost var state0 := state;
      if s.selected {
        var w := WriteOne(state, Start(), s.Id(), Rk0(s), value);
        if w.Err? {
          WriteAllFails(state0, Start(), Participants(s, skipFullTable), value);
          return Err(w.error);
        }
        WriteAllPush(state0, Start(), [], (s.Id(), Rk0(s)), value, state, w.value);
        assert [] + [(s.Id(), Rk0(s))] == OwnPair(s);
        state := w.value;
      }
      r := WriteChildren(s, skipFullTable, value, state0);
    }

    /**
     * The children's part of the override: after the stream's own entry has taken `state0` to
     * the current state, the composite key of each child that takes part, in child order.
     */
    method WriteChildren(s: Stream, skipFullTable: bool, value: Option<string>, ghost state0: State)
      returns (r: Result<(), Error>)
      requires |s.attrs.replicationKeys| > 0
      requires WriteAll(state0, Start(), OwnPair(s), value) == Ok(state)
      modifies this`state
      ensures var w := WriteAll(state0, Start(), Participants(s, skipFullTable), value);
        && (r.Ok? <==> w.Ok?)
        && state == (if w.Ok? then w.value else state0)
    {
      var key := CompositeKey(s);
      ghost var own := OwnPair(s);
      assert s.children[..0] == [];
      assert own + [] == own;
      var i := 0;
      while i < |s.children|
        invariant 0 <= i <= |s.children|
        invariant WriteAll(state0, Start(), own + ChildPairs(s.children[..i], key, skipFullTable), value) == Ok(state)
      {
        var child := s.children[i];
        MergedStep(state0, Start(), own, s.children, i, key, skipFullTable, value, state);
        if Takes(child, skipFullTable) {
          var w := WriteOne(state, Start(), child.Id(), key, value);
          if w.Err? {
            ChildPairsMembers(s.children, key, skipFullTable, child.Id());
            WriteAllFails(state0, Start(), Participants(s, skipFullTable), value);
            WriteAllFails(state0, Start(), own + ChildPairs(s.children[..i], key, skipFullTable), value);
            return Err(w.error);
          }
          state := w.value;
        }
        i := i + 1;
      }
      assert s.children[..i] == s.children;
      r := Ok(());
    }

    /** The stream's `update_data_payload`: the query goes under "query" of its `data_payload`. */
    method UpdateDataPayload(s: Stream, parent: Json) returns (r: Result<(), Error>)
      modifies this`payload
      ensures var q := QueryFor(s, parent, CursorOf(s.Id()));
        && (r.Ok? <==> q.Ok?)
        && payload == (if q.Ok? then old(payload)[s.Id() := old(PayloadOf(s.Id()))["query" := q.value]] else old(payload))
    {
      var query :- QueryFor(s, parent, CursorOf(s.Id()));
      if query != "" {
        payload := payload[s.Id() := PayloadOf(s.Id())["query" := query]];
      }
      r := Ok(());
    }

    /**
     * `BoardItems.update_pagination_key`: with no cursor held it returns None; otherwise the
     * payload is rebuilt on the cursor's root field and the page number advances by one.
     * `pagination_supported` is True for board items, so only the cursor decides.
     */
    method UpdatePaginationKey(s: Stream, parent: Json, nextPage: int) returns (r: Result<Option<int>, Error>)
      requires s.kind == BoardItems
      modifies this`payload
      ensures !Truthy(CursorOf(s.Id())) ==> r == Ok(None) && payload == old(payload)
      ensures Truthy(CursorOf(s.Id())) ==>
        && QueryFor(s, parent, CursorOf(s.Id())).Ok?
        && r == Ok(Some(nextPage + 1))
        && payload == old(payload)[s.Id() := old(PayloadOf(s.Id()))["query" := QueryFor(s, parent, CursorOf(s.Id())).value]]
    {
      if !Truthy(CursorOf(s.Id())) {
        return Ok(None);
      }
      // the cursor root always yields a query, so the rebuild cannot fail here
      var _ := UpdateDataPayload(s, parent);
      r := Ok(Some(nextPage + 1));
    }

    /**
     * One turn of `get_records`: the POST request with the stream's payload, the records at
     * its data key as `parse_raw_records` reads them (board items store the new cursor), and
     * the `page` value. The request's outcome is the client's next outcome on the script.
     */
    method FetchPage(s: Stream) returns (r: Result<(seq<Json>, bool), Error>)
      requires |client.calls| <= |client.script|
      modifies client`calls, this`cursor, this`fetched
      ensures fetched == old(fetched) + (if r.Ok? then [(s.Id(), r.value)] else [])
      ensures old(client.calls) <= client.calls && |client.calls| <= |client.script|
      ensures r.Ok? ==> |old(client.calls)| < |client.calls|
      ensures forall i :: |old(client.calls)| <= i < |client.calls| ==> client.calls[i] == PageCall(s)
      ensures var o := Client.Attempts("POST", Client.Outcomes(client.script), |old(client.calls)|, 1);
        && (o.result.Err? ==> r == Err(o.result.error) && cursor == old(cursor))
        && (o.result.Ok? ==> r == PageOf(s, o.result.value, old(CursorOf(s.Id()))))
        && (o.result.Ok? ==>
              var p := ParsePage(s, DotPath(o.result.value, s.attrs.dataKey), old(CursorOf(s.Id())));
              cursor == (if s.kind == BoardItems && p.Ok? then old(cursor)[s.Id() := p.value.1] else old(cursor)))
    {
      Client.AttemptsProgress("POST", Client.Outcomes(client.script), |client.calls|, 1);
      UpperIdle("POST");
      var response := client.MakeRequest("POST", UrlEndpoint(s, Client.BaseUrl), Some(map[]),
                                         Some(map["Accept" := "application/json"]), Some(PayloadOf(s.Id())),
                                         Some(s.attrs.path));
      if response.Err? {
        return Err(response.error);
      }
      r := ReadPage(s, response.value);
    }

    /**
     * The rest of a `get_records` turn once the response is in: `parse_raw_records` on the
     * value at the data key (board items store the new cursor), then the `page` value.
     */
    method ReadPage(s: Stream, response: Json) returns (r: Result<(seq<Json>, bool), Error>)
      modifies this`cursor, this`fetched
      ensures r == PageOf(s, response, old(CursorOf(s.Id())))
      ensures fetched == old(fetched) + (if r.Ok? then [(s.Id(), r.value)] else [])
      ensures var p := ParsePage(s, DotPath(response, s.attrs.dataKey), old(CursorOf(s.Id())));
        cursor == (if s.kind == BoardItems && p.Ok? then old(cursor)[s.Id() := p.value.1] else old(cursor))
    {
      var raw := GetDotPathValue(response, s.attrs.dataKey);
      var parsed := ParsePage(s, raw, CursorOf(s.Id()));
      if parsed.Err? {
        return Err(parsed.error);
      }
      if s.kind == BoardItems {
        cursor := cursor[s.Id() := parsed.value.1];
      }
      var next :- Get(response, "page", JNull);
      var records :- Iterate(parsed.value.0);
      fetched := fetched + [(s.Id(), (records, Truthy(next)))];
      r := Ok((records, Truthy(next)));
    }

    /**
     * The loop over `child_to_sync` for one parent record: each child's `sync` with the record
     * as `parent_obj`. The counts the children return are dropped; an exception propagates.
     */
    method SyncChildren(s: Stream, record: Json) returns (r: Result<(), Error>)
      requires Tree(s) && |client.calls| <= |client.script|
      modifies this, client
      decreases s, 0
      ensures old(client.calls) <= client.calls && |client.calls| <= |client.script|
      ensures Within(s, old(Logs()), Logs()) && Grows(old(state), state, Start())
      ensures r.Ok? ==> Logged(s, old(Logs()), Logs(), [], [], Spawns(s, record))
      ensures s.children == [] ==> r.Ok? && out == old(out) && state == old(state) && client.calls == old(client.calls)
    {
      GrowsReflexive(state, Start());
      LoggedNone(s, Logs());
      ghost var spawns := Spawns(s, record);
      var i := 0;
      while i < |s.children|
        invariant 0 <= i <= |s.children|
        invariant old(client.calls) <= client.calls && |client.calls| <= |client.script|
        invariant Grows(old(state), state, Start())
        invariant Logged(s, old(Logs()), Logs(), [], [], spawns[..i])
        invariant i == 0 ==> out == old(out) && state == old(state) && client.calls == old(client.calls)
      {
        var child := s.children[i];
        ghost var t1 := Logs();
        spawned := spawned + [(s.Id(), (child.Id(), record))];
        ghost var t2, state0 := Logs(), state;
        var c := Sync(child, record);
        ChildStep(s, record, i, old(Logs()), t1, t2, Logs());
        GrowsTransitive(old(state), state0, state, Start());
        if c.Err? {
          return Err(c.error);
        }
        i := i + 1;
      }
      assert spawns[..i] == spawns;
      r := Ok(());
    }

    /**
     * One record of the incremental `sync`: `modify_object` with the parent record, the first
     * replication key's value compared with the floor, and for a record at or after the floor
     * the RECORD message (selected streams only) and the child syncs.
     */
    method IncrementalRecord(s: Stream, parent: Json, floor: Option<string>, raw: Json)
      returns (r: Result<(Json, bool), Error>)
      requires Tree(s) && IsIncremental(s.kind) && |client.calls| <= |client.script|
      modifies this, client
      decreases s, 1
      ensures old(client.calls) <= client.calls && |client.calls| <= |client.script|
      ensures Within(s, old(Logs()), Logs()) && Grows(old(state), state, Start())
      ensures r.Ok? ==> ModifyObject(s.kind, raw, parent, s.attrs.objectToId) == Ok(r.value.0)
      ensures r.Ok? ==> floor.Some? && r.value.0.JObj? && Rk0(s) in r.value.0.fields && r.value.0.fields[Rk0(s)].JStr?
      ensures r.Ok? ==> (r.value.1 <==> Passes(r.value.0, Rk0(s), floor.value))
      ensures r.Ok? ==> Logged(s, old(Logs()), Logs(), if s.selected && r.value.1 then [r.value.0] else [], [],
                               if r.value.1 then Spawns(s, r.value.0) else [])
    {
      GrowsReflexive(state, Start());
      ghost var t0 := Logs();
      LoggedNone(s, t0);
      var record :- ModifyRecord(s.kind, raw, parent, s.attrs.objectToId);
      var timestamp :- Subscript(record, Rk0(s));
      var passes :- AtOrAfter(timestamp, floor);
      if passes {
        if s.selected {
          LogRecord(s, t0, record);
          out := out + [(s.Id(), record)];
        }
        ghost var t1, state0 := Logs(), state;
        var c := SyncChildren(s, record);
        WithinTrans(s, t0, t1, Logs());
        GrowsTransitive(old(state), state0, state, Start());
        if c.Err? {
          return Err(c.error);
        }
        LoggedTrans(s, t0, t1, Logs(), if s.selected then [record] else [], [], [], [], [], Spawns(s, record));
      }
      r := Ok((record, passes));
    }

    /**
     * One record of a full-table `sync` (and of the assets `sync`): `modify_object` with the
     * parent record, the RECORD message, and the child syncs. The `is_selected` the source
     * tests here is the bound method, which is always truthy, so every record is written.
     */
    method FullTableRecord(s: Stream, parent: Json, raw: Json) returns (r: Result<Json, Error>)
      requires Tree(s) && |client.calls| <= |client.script|
      modifies this, client
      decreases s, 1
      ensures old(client.calls) <= client.calls && |client.calls| <= |client.script|
      ensures Within(s, old(Logs()), Logs()) && Grows(old(state), state, Start())
      ensures r.Ok? ==> ModifyObject(s.kind, raw, parent, s.attrs.objectToId) == Ok(r.value)
      ensures r.Ok? ==> Logged(s, old(Logs()), Logs(), [r.value], [], Spawns(s, r.value))
      ensures s.children == [] ==> state == old(state) && client.calls == old(client.calls)
    {
      GrowsReflexive(state, Start());
      var record :- ModifyRecord(s.kind, raw, parent, s.attrs.objectToId);
      ghost var t0 := Logs();
      LogRecord(s, t0, record);
      out := out + [(s.Id(), record)];
      ghost var t1, state0 := Logs(), state;
      var c := SyncChildren(s, record);
      WithinTrans(s, t0, t1, Logs());
      GrowsTransitive(old(state), state0, state, Start());
      if c.Err? {
        return Err(c.error);
      }
      LoggedTrans(s, t0, t1, Logs(), [record], [], [], [], [], Spawns(s, record));
      r := Ok(record);
    }

    /**
     * One record of the incremental `sync` together with the running maximum and count: a
     * passing record raises `current_max_bookmark_date` to the larger of the two values and,
     * when the stream is selected, is written and counted.
     */
    method IncrementalNext(s: Stream, parent: Json, floor: Option<string>, raw: Json, current: Option<string>, count: nat,
                           ghost maxTs: Option<string>, ghost done: seq<Json>, ghost t0: Trace)
      returns (r: Result<(Json, Option<string>, nat), Error>)
      requires Tree(s) && IsIncremental(s.kind) && |client.calls| <= |client.script|
      requires (floor.Some? ==> maxTs.Some?) && PageSoFar(s, floor, maxTs, done, current, count, t0, Logs())
      modifies this, client
      decreases s, 2
      ensures old(client.calls) <= client.calls && |client.calls| <= |client.script|
      ensures Within(s, old(Logs()), Logs()) && Grows(old(state), state, Start())
      ensures r.Ok? ==>
        var (record, next, total) := r.value;
        && ModifyObject(s.kind, raw, parent, s.attrs.objectToId) == Ok(record)
        && floor.Some? && next.Some?
        && next == (if Passes(record, Rk0(s), floor.value) then Some(Max(current.value, record.fields[Rk0(s)].s)) else current)
        && Logged(s, old(Logs()), Logs(), if s.selected && Passes(record, Rk0(s), floor.value) then [record] else [], [],
                  if Passes(record, Rk0(s), floor.value) then Spawns(s, record) else [])
        && total == count + (if s.selected && Passes(record, Rk0(s), floor.value) then 1 else 0)
      ensures r.Ok? ==> PageSoFar(s, floor, maxTs, done + [r.value.0], r.value.1, r.value.2, t0, Logs())
    {
      var one := IncrementalRecord(s, parent, floor, raw);
      if one.Err? {
        return Err(one.error);
      }
      var record, passes := one.value.0, one.value.1;
      var rk := Rk0(s);
      var next, total := current, count;
      if passes {
        if s.selected {
          total := total + 1;
        }
        next := Some(Max(current.value, record.fields[rk].s));
      }
      PageSoFarStep(s, floor, maxTs, done, current, count, t0, old(Logs()), record, next, total, Logs());
      r := Ok((record, next, total));
    }

    /**
     * The records of one page of the incremental `sync`, in order. `maxTs` is the running
     * `current_max_bookmark_date` and the result holds its new value and the records written.
     */
    method IncrementalPage(s: Stream, parent: Json, floor: Option<string>, records: seq<Json>, maxTs: Option<string>)
      returns (r: Result<(Option<string>, nat), Error>, ghost done: seq<Json>)
      requires Tree(s) && IsIncremental(s.kind) && |client.calls| <= |client.script|
      requires floor.Some? ==> maxTs.Some?
      modifies this, client
      decreases s, 3
      ensures old(client.calls) <= client.calls && |client.calls| <= |client.script|
      ensures Within(s, old(Logs()), Logs()) && Grows(old(state), state, Start())
      ensures r.Ok? ==> ModifyAll(s.kind, records, parent, s.attrs.objectToId) == Ok(done)
      ensures r.Ok? ==> PageSoFar(s, floor, maxTs, done, r.value.0, r.value.1, old(Logs()), Logs())
    {
      GrowsReflexive(state, Start());
      LoggedNone(s, Logs());
      var rk := Rk0(s);
      var current := maxTs;
      var count: nat := 0;
      done := [];
      var j := 0;
      assert records[..0] == [];
      while j < |records|
        invariant 0 <= j <= |records|
        invariant old(client.calls) <= client.calls && |client.calls| <= |client.script|
        invariant Grows(old(state), state, Start())
        invariant ModifyAll(s.kind, records[..j], parent, s.attrs.objectToId) == Ok(done)
        invariant PageSoFar(s, floor, maxTs, done, current, count, old(Logs()), Logs())
      {
        ghost var t0, state0 := Logs(), state;
        var one := IncrementalNext(s, parent, floor, records[j], current, count, maxTs, done, old(Logs()));
        WithinTrans(s, old(Logs()), t0, Logs());
        GrowsTransitive(old(state), state0, state, Start());
        if one.Err? {
          return Err(one.error), done;
        }
        var record;
        record, current, count := one.value.0, one.value.1, one.value.2;
        ModifyAllStep(s.kind, records, j, parent, s.attrs.objectToId, done, record);
        done := done + [record];
        j := j + 1;
      }
      assert records[..j] == records;
      r := Ok((current, count));
    }

    /** One request of the incremental `get_records` loop and the records of its page. */
    method IncrementalTurn(s: Stream, parent: Json, floor: Option<string>, maxTs: Option<string>)
      returns (r: Result<(Option<string>, nat, bool), Error>, ghost records: seq<Json>, ghost done: seq<Json>)
      requires Tree(s) && IsIncremental(s.kind) && |client.calls| <= |client.script|
      requires floor.Some? ==> maxTs.Some?
      modifies this, client
      decreases s, 4
      ensures old(client.calls) <= client.calls && |client.calls| <= |client.script|
      ensures Within(s, old(Logs()), Logs()) && Grows(old(state), state, Start())
      ensures r.Ok? ==> |old(client.calls)| < |client.calls|
      ensures r.Ok? ==>
        var o := Client.Attempts("POST", Client.Outcomes(client.script), |old(client.calls)|, 1);
        o.result.Ok? && PageOf(s, o.result.value, old(CursorOf(s.Id()))) == Ok((records, r.value.2))
      ensures r.Ok? ==>
        var newMax := r.value.0;
        var passing := Passing(done, Rk0(s), floor.GetOr(""));
        && ModifyAll(s.kind, records, parent, s.attrs.objectToId) == Ok(done)
        && (done != [] ==> floor.Some?)
        && newMax == (if maxTs.Some? then Some(MaxOver(maxTs.value, done, Rk0(s), floor.GetOr(""))) else None)
        && (floor.Some? ==> newMax.Some?)
        && (maxTs.Some? ==> newMax.Some? && Le(maxTs.value, newMax.value))
        && (forall x :: x in passing ==> newMax.Some? && Le(x.fields[Rk0(s)].s, newMax.value))
        && Logged(s, old(Logs()), Logs(), if s.selected then passing else [], [(records, r.value.2)], SpawnsAll(s, passing))
        && r.value.1 == |if s.selected then passing else []|
    {
      GrowsReflexive(state, Start());
      records, done := [], [];
      var page := FetchPage(s);
      if page.Err? {
        return Err(page.error), records, done;
      }
      LogPage(s, old(Logs()), page.value);
      var recs := page.value.0;
      records := recs;
      ghost var t0 := Logs();
      var result;
      result, done := IncrementalPage(s, parent, floor, recs, maxTs);
      WithinTrans(s, old(Logs()), t0, Logs());
      if result.Err? {
        return Err(result.error), records, done;
      }
      if maxTs.Some? {
        MaxOverIsMaximum(maxTs.value, done, Rk0(s), floor.GetOr(""));
      }
      ghost var passing := Passing(done, Rk0(s), floor.GetOr(""));
      LoggedTrans(s, old(Logs()), t0, Logs(), [], [page.value], [],
                  if s.selected then passing else [], [], SpawnsAll(s, passing));
      assert page.value == (records, page.value.1);
      r := Ok((result.value.0, result.value.1, page.value.1));
    }

    /**
     * One turn of the incremental page loop, with what the loop keeps: the turn's page, its
     * records, the new maximum and the new count extend the run so far.
     */
    method IncrementalAdvance(s: Stream, parent: Json, floor: Option<string>, maxTs: Option<string>, count: nat,
                              ghost seen: seq<Json>, ghost raws: seq<Json>, ghost pages: seq<(seq<Json>, bool)>,
                              ghost t0: Trace, ghost state0: State)
      returns (r: Result<(Option<string>, nat, bool), Error>, ghost seen1: seq<Json>, ghost raws1: seq<Json>,
               ghost pages1: seq<(seq<Json>, bool)>)
      requires Tree(s) && IsIncremental(s.kind) && |client.calls| <= |client.script|
      requires floor.Some? ==> maxTs.Some?
      requires PagesRunSoFar(s, parent, floor, seen, raws, pages, maxTs, count, true, t0, Logs())
      requires Grows(state0, state, Start())
      modifies this, client
      decreases s, 5
      ensures old(client.calls) <= client.calls && |client.calls| <= |client.script|
      ensures Within(s, t0, Logs()) && Grows(state0, state, Start())
      ensures r.Ok? ==> |old(client.calls)| < |client.calls|
      ensures r.Ok? ==> (floor.Some? ==> r.value.0.Some?)
      ensures r.Ok? ==> PagesRunSoFar(s, parent, floor, seen1, raws1, pages1, r.value.0, r.value.1, r.value.2, t0, Logs())
    {
      ghost var records, done;
      var turn;
      turn, records, done := IncrementalTurn(s, parent, floor, maxTs);
      WithinTrans(s, t0, old(Logs()), Logs());
      GrowsTransitive(state0, old(state), state, Start());
      seen1, raws1, pages1 := seen, raws, pages;
      if turn.Err? {
        return Err(turn.error), seen1, raws1, pages1;
      }
      PagesRunStep(s, parent, floor, seen, raws, pages, maxTs, count, t0, old(Logs()),
                   records, done, turn.value.2, turn.value.0, turn.value.1, Logs());
      seen1, raws1, pages1 := seen + done, raws + records, pages + [(records, turn.value.2)];
      r := Ok((turn.value.0, count + turn.value.1, turn.value.2));
    }

    /**
     * The `get_records` loop of the incremental `sync`: pages are requested until a response's
     * `page` value is falsy, and each page's records are handled in order. `r.value.0` is the
     * final `current_max_bookmark_date`, `r.value.1` the records written.
     */
    method IncrementalPages(s: Stream, parent: Json, floor: Option<string>)
      returns (r: Result<(Option<string>, nat), Error>, ghost seen: seq<Json>, ghost raws: seq<Json>,
               ghost pages: seq<(seq<Json>, bool)>)
      requires Tree(s) && IsIncremental(s.kind) && |client.calls| <= |client.script|
      modifies this, client
      decreases s, 6
      ensures old(client.calls) <= client.calls && |client.calls| <= |client.script|
      ensures Within(s, old(Logs()), Logs()) && Grows(old(state), state, Start())
      ensures r.Ok? ==> PageRun(pages) && raws == RunRecords(pages)
      ensures r.Ok? ==>
        var maxTs := r.value.0;
        var passing := Passing(seen, Rk0(s), floor.GetOr(""));
        && ModifyAll(s.kind, raws, parent, s.attrs.objectToId) == Ok(seen)
        && (seen != [] ==> floor.Some?)
        && maxTs == (if floor.Some? then Some(MaxOver(floor.value, seen, Rk0(s), floor.value)) else None)
        && (floor.Some? ==> maxTs.Some?)
        && (forall x :: x in passing ==> maxTs.Some? && Le(x.fields[Rk0(s)].s, maxTs.value))
        && Logged(s, old(Logs()), Logs(), if s.selected then passing else [], pages, SpawnsAll(s, passing))
        && r.value.1 == |if s.selected then passing else []|
    {
      GrowsReflexive(state, Start());
      LoggedNone(s, Logs());
      seen, raws, pages := [], [], [];
      ghost var f := floor.GetOr("");
      var rk := Rk0(s);
      var maxTs := floor;
      var count: nat := 0;
      var more := true;
      while more
        invariant old(client.calls) <= client.calls && |client.calls| <= |client.script|
        invariant Grows(old(state), state, Start())
        invariant PagesRunSoFar(s, parent, floor, seen, raws, pages, maxTs, count, more, old(Logs()), Logs())
        decreases |client.script| - |client.calls|
      {
        var result;
        result, seen, raws, pages := IncrementalAdvance(s, parent, floor, maxTs, count, seen, raws, pages, old(Logs()), old(state));
        if result.Err? {
          return Err(result.error), seen, raws, pages;
        }
        maxTs, count, more := result.value.0, result.value.1, result.value.2;
      }
      if floor.Some? {
        MaxOverIsMaximum(floor.value, seen, rk, f);
      }
      r := Ok((maxTs, count));
    }

    /**
     * `IncrementalStream.sync`: the floor is read once, before any record, from the state as
     * it was when the sync began; the records at or after it are written (when the stream is
     * selected) and drive the child syncs; then the largest of the floor and their replication
     * values is written back. The count is the number of records written.
     */
    method SyncIncremental(s: Stream, parent: Json)
      returns (r: Result<nat, Error>, ghost floor: Option<string>, ghost seen: seq<Json>, ghost raws: seq<Json>,
               ghost mid: State, ghost pages: seq<(seq<Json>, bool)>)
      requires Tree(s) && IsIncremental(s.kind) && |client.calls| <= |client.script|
      modifies this, client
      decreases s, 8
      ensures old(client.calls) <= client.calls && |client.calls| <= |client.script|
      ensures Within(s, old(Logs()), Logs()) && Grows(old(state), state, Start())
      ensures floor == ReadSpec(s, old(state), old(memo), Start()).0
      ensures r.Ok? ==> PageRun(pages) && raws == RunRecords(pages)
      ensures r.Ok? ==>
        var passing := Passing(seen, Rk0(s), floor.GetOr(""));
        && (seen != [] ==> floor.Some?)
        && ModifyAll(s.kind, raws, parent, s.attrs.objectToId) == Ok(seen)
        && Logged(s, old(Logs()), Logs(), if s.selected then passing else [], pages, SpawnsAll(s, passing))
        && r.value == |if s.selected then passing else []|
        && WriteSpec(s, mid, Start(), if floor.Some? then Some(MaxOver(floor.value, seen, Rk0(s), floor.value)) else None)
           == Ok(state)
        && (forall p, x :: p in WritePairs(s) && x in passing ==>
              Le(x.fields[Rk0(s)].s, Lookup(state, p.0, p.1, Start())))
    {
      GrowsReflexive(state, Start());
      seen, raws, mid, pages := [], [], state, [];
      var bookmark, u := OpenIncremental(s, parent);
      floor := bookmark;
      if u.Err? {
        return Err(u.error), floor, seen, raws, mid, pages;
      }
      r, seen, raws, mid, pages := IncrementalFrom(s, parent, bookmark);
    }

    /** The start of an incremental `sync`: the floor is read, then the payload is built. */
    method OpenIncremental(s: Stream, parent: Json) returns (floor: Option<string>, u: Result<(), Error>)
      requires |s.attrs.replicationKeys| > 0
      modifies this`memo, this`payload
      ensures floor == ReadSpec(s, state, old(memo), Start()).0
      ensures u.Ok? <==> QueryFor(s, parent, CursorOf(s.Id())).Ok?
    {
      floor := GetBookmark(s);
      u := UpdateDataPayload(s, parent);
    }

    /**
     * The part of an incremental `sync` after the floor is read: the pages, then the bookmark
     * write of the largest of the floor and the replication values that passed it.
     */
    method IncrementalFrom(s: Stream, parent: Json, floor: Option<string>)
      returns (r: Result<nat, Error>, ghost seen: seq<Json>, ghost raws: seq<Json>, ghost mid: State,
               ghost pages: seq<(seq<Json>, bool)>)
      requires Tree(s) && IsIncremental(s.kind) && |client.calls| <= |client.script|
      modifies this, client
      decreases s, 7
      ensures old(client.calls) <= client.calls && |client.calls| <= |client.script|
      ensures Within(s, old(Logs()), Logs()) && Grows(old(state), state, Start())
      ensures r.Ok? ==> PageRun(pages) && raws == RunRecords(pages)
      ensures r.Ok? ==>
        var passing := Passing(seen, Rk0(s), floor.GetOr(""));
        && (seen != [] ==> floor.Some?)
        && ModifyAll(s.kind, raws, parent, s.attrs.objectToId) == Ok(seen)
        && Logged(s, old(Logs()), Logs(), if s.selected then passing else [], pages, SpawnsAll(s, passing))
        && r.value == |if s.selected then passing else []|
        && WriteSpec(s, mid, Start(), if floor.Some? then Some(MaxOver(floor.value, seen, Rk0(s), floor.value)) else None)
           == Ok(state)
        && (forall p, x :: p in WritePairs(s) && x in passing ==>
              Le(x.fields[Rk0(s)].s, Lookup(state, p.0, p.1, Start())))
    {
      var run;
      run, seen, raws, pages := IncrementalPages(s, parent, floor);
      mid := state;
      if run.Err? {
        return Err(run.error), seen, raws, mid, pages;
      }
      var maxTs := run.value.0;
      var w := WriteBookmark(s, maxTs);
      if w.Err? {
        return Err(w.error), seen, raws, mid, pages;
      }
      WriteSpecEffect(s, mid, Start(), maxTs);
      GrowsTransitive(old(state), mid, state, Start());
      if maxTs.Some? {
        BoundAfterWrite(seen, Rk0(s), floor.GetOr(""), maxTs.value, WritePairs(s), state, Start());
      }
      r := Ok(run.value.1);
    }

    /** The records of one page of a full-table `sync`, in order. */
    method FullTablePage(s: Stream, parent: Json, records: seq<Json>) returns (r: Result<nat, Error>, ghost done: seq<Json>)
      requires Tree(s) && |client.calls| <= |client.script|
      modifies this, client
      decreases s, 2
      ensures old(client.calls) <= client.calls && |client.calls| <= |client.script|
      ensures Within(s, old(Logs()), Logs()) && Grows(old(state), state, Start())
      ensures r.Ok? ==> ModifyAll(s.kind, records, parent, s.attrs.objectToId) == Ok(done)
      ensures r.Ok? ==> Logged(s, old(Logs()), Logs(), done, [], SpawnsAll(s, done)) && r.value == |done|
      ensures s.children == [] ==> state == old(state) && client.calls == old(client.calls)
    {
      GrowsReflexive(state, Start());
      LoggedNone(s, Logs());
      done := [];
      var j := 0;
      assert records[..0] == [];
      while j < |records|
        invariant 0 <= j <= |records|
        invariant old(client.calls) <= client.calls && |client.calls| <= |client.script|
        invariant Grows(old(state), state, Start())
        invariant ModifyAll(s.kind, records[..j], parent, s.attrs.objectToId) == Ok(done) && |done| == j
        invariant Logged(s, old(Logs()), Logs(), done, [], SpawnsAll(s, done))
        invariant s.children == [] ==> state == old(state) && client.calls == old(client.calls)
      {
        ghost var t0, state0 := Logs(), state;
        var one := FullTableRecord(s, parent, records[j]);
        WithinTrans(s, old(Logs()), t0, Logs());
        GrowsTransitive(old(state), state0, state, Start());
        if one.Err? {
          return Err(one.error), done;
        }
        ModifyAllStep(s.kind, records, j, parent, s.attrs.objectToId, done, one.value);
        RecordStep(s, old(Logs()), t0, Logs(), done, one.value);
        done := done + [one.value];
        j := j + 1;
      }
      assert records[..j] == records;
      r := Ok(|records|);
    }

    /** One request of the full-table `get_records` loop and the records of its page. */
    method FullTableTurn(s: Stream, parent: Json)
      returns (r: Result<(nat, bool), Error>, ghost records: seq<Json>, ghost done: seq<Json>)
      requires Tree(s) && |client.calls| <= |client.script|
      modifies this, client
      decreases s, 3
      ensures old(client.calls) <= client.calls && |client.calls| <= |client.script|
      ensures Within(s, old(Logs()), Logs()) && Grows(old(state), state, Start())
      ensures r.Ok? ==> |old(client.calls)| < |client.calls|
      ensures r.Ok? ==>
        var o := Client.Attempts("POST", Client.Outcomes(client.script), |old(client.calls)|, 1);
        o.result.Ok? && PageOf(s, o.result.value, old(CursorOf(s.Id()))) == Ok((records, r.value.1))
      ensures r.Ok? ==> ModifyAll(s.kind, records, parent, s.attrs.objectToId) == Ok(done)
      ensures r.Ok? ==> Logged(s, old(Logs()), Logs(), done, [(records, r.value.1)], SpawnsAll(s, done)) && r.value.0 == |done|
      ensures s.children == [] ==> state == old(state)
    {
      GrowsReflexive(state, Start());
      records, done := [], [];
      var page := FetchPage(s);
      if page.Err? {
        return Err(page.error), records, done;
      }
      LogPage(s, old(Logs()), page.value);
      var recs := page.value.0;
      records := recs;
      ghost var t0 := Logs();
      var result;
      result, done := FullTablePage(s, parent, recs);
      WithinTrans(s, old(Logs()), t0, Logs());
      if result.Err? {
        return Err(result.error), records, done;
      }
      LoggedTrans(s, old(Logs()), t0, Logs(), [], [page.value], [], done, [], SpawnsAll(s, done));
      assert page.value == (records, page.value.1);
      r := Ok((result.value, page.value.1));
    }

    /**
     * One turn of the full-table page loop, with what the loop keeps: the turn's page, its
     * records and the new count extend the run so far.
     */
    method FullTableAdvance(s: Stream, parent: Json, count: nat, ghost seen: seq<Json>, ghost raws: seq<Json>,
                            ghost pages: seq<(seq<Json>, bool)>, ghost t0: Trace, ghost state0: State)
      returns (r: Result<(nat, bool), Error>, ghost seen1: seq<Json>, ghost raws1: seq<Json>,
               ghost pages1: seq<(seq<Json>, bool)>)
      requires Tree(s) && |client.calls| <= |client.script|
      requires FullRunSoFar(s, parent, seen, raws, pages, count, true, t0, Logs())
      requires Grows(state0, state, Start())
      modifies this, client
      decreases s, 4
      ensures old(client.calls) <= client.calls && |client.calls| <= |client.script|
      ensures Within(s, t0, Logs()) && Grows(state0, state, Start())
      ensures r.Ok? ==> |old(client.calls)| < |client.calls|
      ensures r.Ok? ==> FullRunSoFar(s, parent, seen1, raws1, pages1, r.value.0, r.value.1, t0, Logs())
      ensures s.children == [] ==> state == old(state)
    {
      ghost var records, done;
      var turn;
      turn, records, done := FullTableTurn(s, parent);
      WithinTrans(s, t0, old(Logs()), Logs());
      GrowsTransitive(state0, old(state), state, Start());
      seen1, raws1, pages1 := seen, raws, pages;
      if turn.Err? {
        return Err(turn.error), seen1, raws1, pages1;
      }
      FullRunStep(s, parent, seen, raws, pages, count, t0, old(Logs()), records, done, turn.value.1, Logs());
      seen1, raws1, pages1 := seen + done, raws + records, pages + [(records, turn.value.1)];
      r := Ok((count + turn.value.0, turn.value.1));
    }

    /**
     * `FullTableStream.sync`: the payload is built, then every record of every page is written,
     * with its child syncs. The state changes only through the children.
     */
    method SyncFullTable(s: Stream, parent: Json)
      returns (r: Result<nat, Error>, ghost seen: seq<Json>, ghost raws: seq<Json>, ghost pages: seq<(seq<Json>, bool)>)
      requires Tree(s) && !IsIncremental(s.kind) && s.kind != Assets && |client.calls| <= |client.script|
      modifies this, client
      decreases s, 6
      ensures old(client.calls) <= client.calls && |client.calls| <= |client.script|
      ensures Within(s, old(Logs()), Logs()) && Grows(old(state), state, Start())
      ensures r.Ok? ==> QueryFor(s, parent, old(CursorOf(s.Id()))).Ok?
      ensures r.Ok? ==> PageRun(pages) && raws == RunRecords(pages)
      ensures r.Ok? ==>
        && ModifyAll(s.kind, raws, parent, s.attrs.objectToId) == Ok(seen)
        && Logged(s, old(Logs()), Logs(), seen, pages, SpawnsAll(s, seen))
        && r.value == |seen|
      ensures s.children == [] ==> state == old(state)
    {
      GrowsReflexive(state, Start());
      LoggedNone(s, Logs());
      seen, raws, pages := [], [], [];
      var u := UpdateDataPayload(s, parent);
      if u.Err? {
        return Err(u.error), seen, raws, pages;
      }
      r, seen, raws, pages := FullTablePages(s, parent);
    }

    /** The `get_records` loop of a full-table `sync`, once the payload is built. */
    method FullTablePages(s: Stream, parent: Json)
      returns (r: Result<nat, Error>, ghost seen: seq<Json>, ghost raws: seq<Json>, ghost pages: seq<(seq<Json>, bool)>)
      requires Tree(s) && |client.calls| <= |client.script|
      modifies this, client
      decreases s, 5
      ensures old(client.calls) <= client.calls && |client.calls| <= |client.script|
      ensures Within(s, old(Logs()), Logs()) && Grows(old(state), state, Start())
      ensures r.Ok? ==> PageRun(pages) && raws == RunRecords(pages)
      ensures r.Ok? ==>
        && ModifyAll(s.kind, raws, parent, s.attrs.objectToId) == Ok(seen)
        && Logged(s, old(Logs()), Logs(), seen, pages, SpawnsAll(s, seen))
        && r.value == |seen|
      ensures s.children == [] ==> state == old(state)
    {
      GrowsReflexive(state, Start());
      LoggedNone(s, Logs());
      seen, raws, pages := [], [], [];
      var count: nat := 0;
      var more := true;
      while more
        invariant old(client.calls) <= client.calls && |client.calls| <= |client.script|
        invariant Grows(old(state), state, Start())
        invariant FullRunSoFar(s, parent, seen, raws, pages, count, more, old(Logs()), Logs())
        invariant s.children == [] ==> state == old(state)
        decreases |client.script| - |client.calls|
      {
        var result;
        result, seen, raws, pages := FullTableAdvance(s, parent, count, seen, raws, pages, old(Logs()), old(state));
        if result.Err? {
          return Err(result.error), seen, raws, pages;
        }
        count, more := result.value.0, result.value.1;
      }
      r := Ok(count);
    }

    /**
     * `Assets.sync`: no request; the assets of the parent update and of its replies, each
     * written with the update's id and followed by its child syncs.
     */
    method SyncAssets(s: Stream, parent: Json) returns (r: Result<nat, Error>, ghost seen: seq<Json>)
      requires Tree(s) && s.kind == Assets && |client.calls| <= |client.script|
      modifies this, client
      decreases s, 5
      ensures old(client.calls) <= client.calls && |client.calls| <= |client.script|
      ensures Within(s, old(Logs()), Logs()) && Grows(old(state), state, Start())
      ensures r.Ok? ==>
        && AssetsOf(parent).Ok?
        && ModifyAll(Assets, AssetsOf(parent).value, parent, s.attrs.objectToId) == Ok(seen)
        && Logged(s, old(Logs()), Logs(), seen, [], SpawnsAll(s, seen))
        && r.value == |seen|
      ensures s.children == [] ==> state == old(state) && client.calls == old(client.calls)
    {
      seen := [];
      var assets := ExtractAssets(parent);
      if assets.Err? {
        GrowsReflexive(state, Start());
        LoggedNone(s, Logs());
        return Err(assets.error), seen;
      }
      r, seen := FullTablePage(s, parent, assets.value);
    }

    /** The stream's `sync`: the class's own, by kind. The count is the records it wrote. */
    method Sync(s: Stream, parent: Json) returns (r: Result<nat, Error>)
      requires Tree(s) && |client.calls| <= |client.script|
      modifies this, client
      decreases s, 9
      ensures old(client.calls) <= client.calls && |client.calls| <= |client.script|
      ensures Within(s, old(Logs()), Logs()) && Grows(old(state), state, Start())
      ensures r.Ok? ==> |Emitted(out, s.Id())| == |Emitted(old(out), s.Id())| + r.value
    {
      if IsIncremental(s.kind) {
        ghost var floor, seen, raws, mid, pages;
        r, floor, seen, raws, mid, pages := SyncIncremental(s, parent);
      } else if s.kind == Assets {
        ghost var seen;
        r, seen := SyncAssets(s, parent);
      } else {
        ghost var seen, raws, pages;
        r, seen, raws, pages := SyncFullTable(s, parent);
      }
    }
  }
}
