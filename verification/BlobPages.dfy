/**
 * Readers that page through many rows: all the holds of a space, and the
 * whole receipt of a release. Between two equal readings of the control row
 * they get everything, exactly once, however many pages it takes and whatever
 * other clients do meanwhile.
 */
module BlobPages {
  import opened Prelude
  import opened BlobTypes
  import opened EpisodeCatalog
  import opened CatalogProofs
  import opened BlobProtocol
  import opened BlobLifecycle
  import opened BlobInvariants
  import opened BlobRuns
  import opened BlobReads
  import opened BlobReceipts
  import opened BlobJournal

  /** The control row, if there is one, is as the watcher first read it. */
  ghost predicate Unmoved(s: Sys, w: nat) { w in s.watchers && s.Of(w).control == s.watchers[w].before }

  lemma AllSeenStand(s: Sys, w: nat)
    requires WatchersOk(s) && Unmoved(s, w)
    ensures AllStand(s.Of(w), s.watchers[w].seen)
  {
    hide Stands;
    assert WatcherOk(s.Of(w), s.watchers[w]);
  }

  // ----- Snapshots -----

  /** Pages of holds read one after the other; the end of results is an empty page. */
  ghost predicate HoldChain(seen: set<Observation>, after: Option<Att>, pages: seq<seq<Row<Hold>>>)
    decreases |pages|
  {
    if pages == [] then SawHolds(after, []) in seen
    else
      && pages[0] != [] && SawHolds(after, pages[0]) in seen
      && HoldChain(seen, Some(pages[0][|pages[0]| - 1].data.attachment.id), pages[1..])
  }

  /** Holds after a cursor, in key order, as the table has them. */
  ghost predicate HoldRows(ss: SpaceState, after: Option<Att>, rows: seq<Row<Hold>>)
  {
    && (forall i :: 0 <= i < |rows| ==> Beyond(after, Ids(rows)[i]) && Lookup(ss.holds, Ids(rows)[i]) == Some(rows[i]))
    && forall i, j :: 0 <= i < j < |rows| ==> Ids(rows)[i] < Ids(rows)[j]
  }

  lemma HoldPage(ss: SpaceState, after: Option<Att>, page: seq<Row<Hold>>)
    requires SpaceShows(ss, SawHolds(after, page))
    ensures HoldRows(ss, after, page)
    ensures page == [] ==> forall a: Att :: a in ss.holds ==> !Beyond(after, a)
    ensures page != [] ==> forall a: Att :: a in ss.holds && Beyond(after, a) && a <= Ids(page)[|page| - 1] ==> a in Ids(page)
  {
    var keys, ids := ss.holds.Keys, Ids(page);
    forall i, j | 0 <= i < j < |page| ensures ids[i] < ids[j] { RunSorted(keys, after, ids, i, j); }
    forall i | 0 <= i < |page| ensures Beyond(after, ids[i]) { if i > 0 { RunSorted(keys, after, ids, 0, i); } }
    if page != [] {
      forall a: Att | a in ss.holds && Beyond(after, a) && a <= ids[|ids| - 1] ensures a in ids { RunContains(keys, after, ids, a); }
    } else {
      assert ids == [];
    }
  }

  lemma JoinIds(page: seq<Row<Hold>>, rest: seq<Row<Hold>>)
    ensures Ids(page + rest) == Ids(page) + Ids(rest)
  {}

  lemma JoinHolds(ss: SpaceState, after: Option<Att>, page: seq<Row<Hold>>, rest: seq<Row<Hold>>)
    requires HoldRows(ss, after, page) && page != [] && HoldRows(ss, Some(Ids(page)[|page| - 1]), rest)
    ensures HoldRows(ss, after, page + rest)
  {
    JoinIds(page, rest);
    var rows := page + rest;
    forall i | 0 <= i < |rows| ensures Beyond(after, Ids(rows)[i]) && Lookup(ss.holds, Ids(rows)[i]) == Some(rows[i]) {
      if i >= |page| { assert Beyond(Some(Ids(page)[|page| - 1]), Ids(rest)[i - |page|]) && Beyond(after, Ids(page)[|page| - 1]); }
    }
    forall i, j | 0 <= i < j < |rows| ensures Ids(rows)[i] < Ids(rows)[j] {
      if i < |page| <= j {
        assert Ids(page)[i] <= Ids(page)[|page| - 1];
        assert Beyond(Some(Ids(page)[|page| - 1]), Ids(rest)[j - |page|]);
      }
    }
  }

  lemma {:induction false} HoldPages(ss: SpaceState, seen: set<Observation>, after: Option<Att>, pages: seq<seq<Row<Hold>>>)
    requires AllStand(ss, seen) && HoldChain(seen, after, pages)
    ensures HoldRows(ss, after, Flatten(pages))
    ensures forall a: Att :: a in ss.holds && Beyond(after, a) ==> a in Ids(Flatten(pages))
    decreases |pages|
  {
    hide SpaceShows, HoldRows;
    var page := if pages == [] then [] else pages[0];
    assert Stands(ss, SawHolds(after, page));
    HoldPage(ss, after, page);
    if pages != [] {
      var last, rest := Ids(page)[|page| - 1], Flatten(pages[1..]);
      HoldPages(ss, seen, Some(last), pages[1..]);
      JoinHolds(ss, after, page, rest);
      JoinIds(page, rest);
      assert Flatten(pages) == page + rest;
    }
  }

  /** Every hold of the space once, in ascending order, as it is now. */
  lemma HoldsRead(s: Sys, w: nat, pages: seq<seq<Row<Hold>>>)
    requires Inv(s) && Unmoved(s, w) && HoldChain(s.watchers[w].seen, None, pages)
    ensures var rows := Flatten(pages);
      && (forall i, j :: 0 <= i < j < |rows| ==> Ids(rows)[i] < Ids(rows)[j])
      && (forall i :: 0 <= i < |rows| ==> Lookup(s.Of(w).holds, Ids(rows)[i]) == Some(rows[i]))
      && forall a: Att :: a in Ids(rows) <==> a in s.Of(w).holds
  {
    hide SpacesOk, LifeOk, RootsExact, AllDoomed, Stands, HoldChain, WatchersOk;
    AllSeenStand(s, w);
    HoldPages(s.Of(w), s.watchers[w].seen, None, pages);
    var rows := Flatten(pages);
    forall a: Att | a in Ids(rows) ensures a in s.Of(w).holds {
      var i :| 0 <= i < |rows| && Ids(rows)[i] == a;
      assert Lookup(s.Of(w).holds, Ids(rows)[i]) == Some(rows[i]);
    }
  }

  // ----- Receipts -----

  /** Pages of result rows read one after the other. */
  ghost predicate ReceiptChain(seen: set<Observation>, op: Op, cursor: Option<SortKey>, pages: seq<seq<ResultRow>>)
    decreases |pages|
  {
    if pages == [] then SawResults(op, cursor, []) in seen
    else
      && pages[0] != [] && SawResults(op, cursor, pages[0]) in seen
      && ReceiptChain(seen, op, Some(pages[0][|pages[0]| - 1].key), pages[1..])
  }

  /** Result rows of an operation after a cursor, in key order, as the table has them. */
  ghost predicate ReceiptRows(ss: SpaceState, op: Op, cursor: Option<SortKey>, rows: seq<ResultRow>)
  {
    && (forall i :: 0 <= i < |rows| ==> BeyondKey(cursor, rows[i].key) && Lookup(ss.results, (op, rows[i].key)) == Some(rows[i].result))
    && forall i, j :: 0 <= i < j < |rows| ==> Below(rows[i].key, rows[j].key)
  }

  ghost predicate ListsKey(rows: seq<ResultRow>, k: SortKey) { exists i :: 0 <= i < |rows| && rows[i].key == k }

  lemma ReceiptPage(ss: SpaceState, op: Op, cursor: Option<SortKey>, page: seq<ResultRow>)
    requires SpaceShows(ss, SawResults(op, cursor, page))
    ensures ReceiptRows(ss, op, cursor, page)
    ensures page == [] ==> forall k: SortKey :: (op, k) in ss.results ==> !BeyondKey(cursor, k)
    ensures page != [] ==> forall k: SortKey :: (op, k) in ss.results && BeyondKey(cursor, k) && !BeyondKey(Some(page[|page| - 1].key), k) ==> ListsKey(page, k)
  {
    var keys, ids := ResultKeys(ss, op), Keys(page);
    assert forall k: SortKey :: (op, k) in ss.results ==> k in keys;
    forall i, j | 0 <= i < j < |page| ensures Below(page[i].key, page[j].key) { KeysAscend(keys, cursor, ids, i, j); }
    forall i | 0 <= i < |page| ensures BeyondKey(cursor, page[i].key) {
      assert IsNextKey(keys, cursor, ids[0]);
      if i > 0 && cursor.Some? {
        KeysAscend(keys, cursor, ids, 0, i);
        BelowChain(cursor.value, ids[0], ids[i]);
      }
    }
    if page != [] {
      forall k: SortKey | (op, k) in ss.results && BeyondKey(cursor, k) && !BeyondKey(Some(page[|page| - 1].key), k) ensures ListsKey(page, k) {
        RunCovers(keys, cursor, ids, k);
        var i :| 0 <= i < |ids| && ids[i] == k;
        assert page[i].key == k;
      }
    } else {
      assert ids == [];
    }
  }

  lemma JoinReceipts(ss: SpaceState, op: Op, cursor: Option<SortKey>, page: seq<ResultRow>, rest: seq<ResultRow>)
    requires ReceiptRows(ss, op, cursor, page) && page != [] && ReceiptRows(ss, op, Some(page[|page| - 1].key), rest)
    ensures ReceiptRows(ss, op, cursor, page + rest)
    ensures forall k: SortKey :: ListsKey(page, k) || ListsKey(rest, k) ==> ListsKey(page + rest, k)
  {
    var rows, last := page + rest, page[|page| - 1].key;
    forall i | 0 <= i < |rest| ensures BeyondKey(cursor, rest[i].key) {
      assert BeyondKey(Some(last), rest[i].key) && BeyondKey(cursor, last);
      if cursor.Some? { BelowChain(cursor.value, last, rest[i].key); }
    }
    forall i, j | 0 <= i < j < |rows| ensures Below(rows[i].key, rows[j].key) {
      if i < |page| <= j {
        assert BeyondKey(Some(last), rest[j - |page|].key);
        if i < |page| - 1 { BelowChain(page[i].key, last, rest[j - |page|].key); }
      }
    }
    forall k: SortKey | ListsKey(page, k) || ListsKey(rest, k) ensures ListsKey(rows, k) {
      if ListsKey(page, k) {
        var i :| 0 <= i < |page| && page[i].key == k;
        assert rows[i].key == k;
      } else {
        var i :| 0 <= i < |rest| && rest[i].key == k;
        assert rows[|page| + i].key == k;
      }
    }
  }

  lemma {:induction false} ReceiptPages(ss: SpaceState, seen: set<Observation>, op: Op, cursor: Option<SortKey>, pages: seq<seq<ResultRow>>)
    requires AllStand(ss, seen) && Names(ss, op) && ReceiptChain(seen, op, cursor, pages)
    ensures ReceiptRows(ss, op, cursor, Flatten(pages))
    ensures forall k: SortKey :: (op, k) in ss.results && BeyondKey(cursor, k) ==> ListsKey(Flatten(pages), k)
    decreases |pages|
  {
    hide SpaceShows, ReceiptRows, ListsKey;
    var page := if pages == [] then [] else pages[0];
    assert Stands(ss, SawResults(op, cursor, page));
    ReceiptPage(ss, op, cursor, page);
    if pages != [] {
      var rest := Flatten(pages[1..]);
      ReceiptPages(ss, seen, op, Some(page[|page| - 1].key), pages[1..]);
      JoinReceipts(ss, op, cursor, page, rest);
      assert Flatten(pages) == page + rest;
    }
  }

  /** The result rows of an operation, all of them, in key order. */
  ghost predicate IsReceipt(ss: SpaceState, op: Op, rows: seq<ResultRow>)
  {
    && (forall i :: 0 <= i < |rows| ==> Lookup(ss.results, (op, rows[i].key)) == Some(rows[i].result))
    && (forall i, j :: 0 <= i < j < |rows| ==> Below(rows[i].key, rows[j].key))
    && forall k: SortKey :: (op, k) in ss.results ==> ListsKey(rows, k)
  }

  /** A reader of pages gets the whole receipt, also while it is being collected. */
  lemma ReceiptRead(s: Sys, w: nat, op: Op, pages: seq<seq<ResultRow>>)
    requires Inv(s) && s.Current(w) && Names(s.Of(w), op) && ReceiptChain(s.watchers[w].seen, op, None, pages)
    ensures IsReceipt(s.Of(w), op, Flatten(pages))
  {
    hide SpacesOk, LifeOk, RootsExact, AllDoomed, Stands, ReceiptChain, WatchersOk, ListsKey;
    AllSeenStand(s, w);
    ReceiptPages(s.Of(w), s.watchers[w].seen, op, None, pages);
  }

  /** There is only one way to list a receipt. */
  lemma {:induction false} ReceiptUnique(ss: SpaceState, op: Op, x: seq<ResultRow>, y: seq<ResultRow>, i: nat)
    requires IsReceipt(ss, op, x) && IsReceipt(ss, op, y) && i <= |x| && i <= |y| && x[..i] == y[..i]
    ensures x == y
    decreases |x| - i
  {
    if i == |x| {
      if i < |y| { NotLater(ss, op, y, x, i); }
    } else if i == |y| {
      NotLater(ss, op, x, y, i);
    } else {
      NotLater(ss, op, x, y, i);
      NotLater(ss, op, y, x, i);
      assert x[i].key == y[i].key && x[i] == y[i];
      assert x[..i + 1] == x[..i] + [x[i]] && y[..i + 1] == y[..i] + [y[i]];
      ReceiptUnique(ss, op, x, y, i + 1);
    }
  }

  /** The next key of one listing is in the other, where it can only come next or later. */
  lemma NotLater(ss: SpaceState, op: Op, x: seq<ResultRow>, y: seq<ResultRow>, i: nat)
    requires IsReceipt(ss, op, x) && IsReceipt(ss, op, y) && i < |x| && i <= |y| && x[..i] == y[..i]
    ensures i < |y| && !Below(x[i].key, y[i].key)
  {
    assert Lookup(ss.results, (op, x[i].key)) == Some(x[i].result);
    assert ListsKey(y, x[i].key);
    var k :| 0 <= k < |y| && y[k].key == x[i].key;
    if k < i { assert false; }
    if i < k { assert Below(y[i].key, y[k].key); }
  }

  /** A client pages through the receipt and then ends the release: what it has read is what everybody else will read. */
  lemma EndKeepsReceipt(s: Sys, w: nat, op: Op, rows: seq<ResultRow>)
    requires CatalogEnabled(s, End(w)) && Names(s.Of(w), op) && IsReceipt(s.Of(w), op, rows)
    ensures var n := CatalogApply(s, End(w));
      n.At(s.watchers[w].space).results == s.Of(w).results && Finished(n.At(s.watchers[w].space), op) && IsReceipt(n.At(s.watchers[w].space), op, rows)
  {}

  lemma ReceiptOfReceipt(x: SpaceState, y: SpaceState, op: Op, rows: seq<ResultRow>)
    requires IsReceipt(x, op, rows) && Receipt(y, op) == Receipt(x, op)
    ensures IsReceipt(y, op, rows)
  {
    forall k: SortKey ensures Lookup(x.results, (op, k)) == Lookup(y.results, (op, k)) {
      assert (op, k) in x.results <==> k in Receipt(x, op);
      assert (op, k) in y.results <==> k in Receipt(y, op);
    }
  }

  /**
   * Every client of one release that returns, returns the same list: the one that ended it, from pages read before that,
   * and any other, from pages read between two equal readings of the control row at any later time.
   */
  lemma HelpersAgree(s: Sys, w: nat, op: Op, mine: seq<seq<ResultRow>>, run: seq<Action>, v: nat, theirs: seq<seq<ResultRow>>)
    requires Inv(s) && CatalogEnabled(s, End(w)) && Names(s.Of(w), op) && ReceiptChain(s.watchers[w].seen, op, None, mine)
    requires var b := CatalogApply(s, End(w)); Valid(b, run) && AllGuarded(b, run)
    requires var n := After(CatalogApply(s, End(w)), run);
      n.Current(v) && n.watchers[v].space == s.watchers[w].space && Names(n.Of(v), op) && ReceiptChain(n.watchers[v].seen, op, None, theirs)
    ensures Flatten(theirs) == Flatten(mine)
    ensures IsReceipt(s.Of(w), op, Flatten(mine)) && Finished(After(CatalogApply(s, End(w)), run).Of(v), op)
  {
    hide Inv, CatalogEnabled, CatalogApply, Valid, After, AllGuarded, ReceiptChain, IsReceipt, Receipt;
    EndsCurrent(s, w);
    var sp, b := s.watchers[w].space, CatalogApply(s, End(w));
    var n := After(b, run);
    ReceiptRead(s, w, op, mine);
    EndKeepsReceipt(s, w, op, Flatten(mine));
    assert Inv(b) by { StepInv(s, Catalog(End(w))); }
    RunInv(b, run);
    ReceiptRead(n, v, op, theirs);
    ReceiptStays(b, run, sp, op);
    ReceiptOfReceipt(b.At(sp), n.At(sp), op, Flatten(mine));
    ReceiptUnique(n.At(sp), op, Flatten(theirs), Flatten(mine), 0);
  }

  lemma EndsCurrent(s: Sys, w: nat)
    requires CatalogEnabled(s, End(w))
    ensures GcPhase(s, w)
  {}

  // ----- When a result was decided -----

  /** At some moment of a run the result was what the other spaces' holds made it. */
  ghost predicate Decided(s: Sys, run: seq<Action>, sp: Space, att: Att, mode: Mode, r: Result)
    requires Valid(s, run)
    decreases |run|
  {
    Honest(s, sp, att, mode, r) || (run != [] && Decided(Apply(s, run[0]), run[1..], sp, att, mode, r))
  }

  lemma {:induction false} ResultDecided(s: Sys, run: seq<Action>, sp: Space, op: Op, mode: Mode, k: SortKey)
    requires Inv(s) && Valid(s, run) && AllGuarded(s, run) && Names(s.At(sp), op) && Names(After(s, run).At(sp), op)
    requires Releasing(s.At(sp).Data()) ==> s.At(sp).Data().mode == mode
    requires (op, k) !in s.At(sp).results && (op, k) in After(s, run).At(sp).results
    ensures Decided(s, run, sp, k.att, mode, After(s, run).At(sp).results[(op, k)])
    decreases |run|
  {
    hide Inv, Enabled, Apply, GuardedStep, Honest;
    if run != [] {
      NamedNext(s, run, sp, op);
      var n := Apply(s, run[0]);
      if (op, k) in n.At(sp).results {
        ReceiptStays(n, run[1..], sp, op);
        assert k in Receipt(n.At(sp), op);
      } else {
        ResultDecided(n, run[1..], sp, op, mode, k);
      }
    }
  }
}
