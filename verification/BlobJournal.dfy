/**
 * The transactions that work a release journal off: deleting the rows of a
 * finished operation, and acknowledging the deletions a release asked for.
 */
module BlobJournal {
  import opened Prelude
  import opened BlobTypes
  import opened EpisodeCatalog
  import opened BlobProtocol
  import opened BlobLifecycle
  import opened BlobInvariants
  import opened BlobBatches

  lemma BelowChain(a: SortKey, b: SortKey, c: SortKey)
    requires Below(a, b) && Below(b, c)
    ensures Below(a, c)
  {}

  /** The keys of a page ascend. */
  lemma {:induction false} KeysAscend(keys: set<SortKey>, cursor: Option<SortKey>, ids: seq<SortKey>, i: nat, j: nat)
    requires IsKeyRun(keys, cursor, ids) && i < j < |ids|
    ensures Below(ids[i], ids[j])
    decreases j
  {
    assert IsNextKey(keys, Some(ids[j - 1]), ids[j]);
    if i < j - 1 {
      KeysAscend(keys, cursor, ids, i, j - 1);
      BelowChain(ids[i], ids[j - 1], ids[j]);
    }
  }

  // ----- Pruning -----

  function KeySet(rows: seq<ResultRow>): set<SortKey> { set i | 0 <= i < |rows| :: rows[i].key }

  function Prunings(op: Op, rows: seq<ResultRow>): (changes: seq<Change>)
    ensures |changes| == |rows|
    ensures forall i :: 0 <= i < |rows| ==> changes[i] == DeleteResult(op, rows[i].key)
  {
    seq(|rows|, i requires 0 <= i < |rows| => DeleteResult(op, rows[i].key))
  }

  lemma {:induction false} PruningsApply(s: Sys, sp: Space, op: Op, rows: seq<ResultRow>)
    requires sp in s.spaces
    ensures ApplyAll(s, sp, Prunings(op, rows)) == s.Put(sp, PruneRows(s.At(sp), op, KeySet(rows)))
    decreases |rows|
  {
    var changes, ss := Prunings(op, rows), s.At(sp);
    if rows == [] {
      assert KeySet(rows) == {} && PruneRows(ss, op, {}).results == ss.results;
      assert s.spaces[sp := ss] == s.spaces;
    } else {
      var one := ApplyChange(s, sp, changes[0]);
      assert changes[1..] == Prunings(op, rows[1..]);
      PruningsApply(one, sp, op, rows[1..]);
      assert KeySet(rows) == {rows[0].key} + KeySet(rows[1..]) by {
        forall i | 0 < i < |rows| ensures rows[i].key in KeySet(rows[1..]) { assert rows[1..][i - 1] == rows[i]; }
      }
      assert PruneRows(one.At(sp), op, KeySet(rows[1..])).results == PruneRows(ss, op, KeySet(rows)).results;
      assert s.spaces[sp := one.At(sp)][sp := PruneRows(ss, op, KeySet(rows))] == s.spaces[sp := PruneRows(ss, op, KeySet(rows))];
    }
  }

  /**
   * The plan of one pruning step, from a page of result rows read at any time, when their keys were `keys`: at most
   * 90 deletions, no row twice, and together exactly the pruning of those rows.
   */
  method PlanPrune(s: Sys, w: nat, op: Op, rows: seq<ResultRow>, ghost keys: set<SortKey>) returns (changes: seq<Change>)
    requires WatchersOk(s) && CatalogEnabled(s, Prune(w, op, KeySet(rows)))
    requires |rows| <= TRANSACTION_ROWS && IsKeyPage(keys, None, Keys(rows))
    ensures |changes| <= 90 && Once(changes)
    ensures ApplyAll(s, s.watchers[w].space, changes) == CatalogApply(s, Prune(w, op, KeySet(rows)))
  {
    hide ApplyAll, PruneRows, KeySet;
    var sp := s.watchers[w].space;
    changes := Prunings(op, rows);
    forall i, j | 0 <= i < j < |changes| ensures changes[i].Key() != changes[j].Key() { KeysAscend(keys, None, Keys(rows), i, j); }
    assert WatcherOk(s.Of(w), s.watchers[w]);
    KnownSpace(s, sp);
    PruningsApply(s, sp, op, rows);
  }

  // ----- Collecting -----

  /** Two rows of one operation never ask for the same generation. */
  lemma GenerationsApart(s: Sys, sp: Space, j: SortKey, k: SortKey)
    requires Inv(s) && Releasing(s.At(sp).Data()) && s.At(sp).Data().operation.Some?
    requires Doomed(s.At(sp), j).Some? && Doomed(s.At(sp), j) == Doomed(s.At(sp), k)
    ensures j == k
  {
    hide LifeOk, RootsExact, WatchersOk, RowsOk, Doom;
    var ss, op := s.At(sp), s.At(sp).Data().operation.value;
    SpaceIsOk(s, sp);
    KnownSpace(s, sp);
    assert ResultsDoomed(sp, ss, s.life);
    assert (op, j) in ss.results && (op, k) in ss.results;
    var g := Doomed(ss, j).value;
    assert Lookup(s.life.gens, g) == Some(j.att) && Lookup(s.life.gens, g) == Some(k.att);
  }

  /** What a result row asks for is, as long as an intent names it, the deletion of that row's attachment. */
  lemma CleanupIdentity(s: Sys, sp: Space, op: Op, k: SortKey)
    requires Inv(s) && (op, k) in s.At(sp).results && s.At(sp).results[(op, k)].generation.Some?
    requires (sp, s.At(sp).results[(op, k)].generation.value) in s.life.intents
    ensures var row := s.life.intents[(sp, s.At(sp).results[(op, k)].generation.value)];
      row.data.kind == Delete && row.data.att == k.att
  {
    hide SpacesOk, RootsExact, WatchersOk;
    var g := s.At(sp).results[(op, k)].generation.value;
    assert sp in s.spaces;
    assert ResultsDoomed(sp, s.spaces[sp], s.life) && Doom(s.life, sp, g);
    assert GenOk(s.life, g) && IntentOk(s.life, g, sp);
  }

  /** The rows of a page, as they are still while the control row has not changed. */
  lemma PageStands(s: Sys, w: nat, rows: seq<ResultRow>)
    requires Inv(s) && GcPhase(s, w) && SawResults(s.Of(w).Data().operation.value, s.Of(w).Data().cursor, rows) in s.watchers[w].seen
    ensures forall i, j :: 0 <= i < j < |rows| ==> Below(rows[i].key, rows[j].key)
    ensures forall i :: 0 <= i < |rows| ==>
      Lookup(s.Of(w).results, (s.Of(w).Data().operation.value, rows[i].key)) == Some(rows[i].result)
      && Doomed(s.Of(w), rows[i].key) == rows[i].result.generation
  {
    hide SpaceOk, LifeOk, RootsExact, AllDoomed;
    var ss, op := s.Of(w), s.Of(w).Data().operation.value;
    SeenStands(s, w, SawResults(op, ss.Data().cursor, rows));
    forall i, j | 0 <= i < j < |rows| ensures Below(rows[i].key, rows[j].key) {
      KeysAscend(ResultKeys(ss, op), ss.Data().cursor, Keys(rows), i, j);
    }
  }

  ghost predicate AskedFor(rows: seq<ResultRow>, g: Gen) { exists k :: 0 <= k < |rows| && rows[k].result.generation == Some(g) }

  lemma AskedForMore(rows: seq<ResultRow>, r: ResultRow, g: Gen)
    requires AskedFor(rows, g) || r.result.generation == Some(g)
    ensures AskedFor(rows + [r], g)
  {
    if AskedFor(rows, g) {
      var k :| 0 <= k < |rows| && rows[k].result.generation == Some(g);
      assert (rows + [r])[k] == rows[k];
    } else {
      assert (rows + [r])[|rows|] == r;
    }
  }

  /** Midway: the changes so far are those of the rows so far. */
  ghost predicate Collecting(s: Sys, w: nat, rows: seq<ResultRow>, changes: seq<Change>)
    requires w in s.watchers && s.Of(w).Data().operation.Some?
  {
    && Once(changes) && |changes| <= |rows|
    && (forall i :: 0 <= i < |changes| ==> changes[i].DeleteIntent? && AskedFor(rows, changes[i].g))
    && ApplyAll(s, s.watchers[w].space, changes) == s.(life := CollectLife(s.life, s.watchers[w].space, DoomedOf(s.Of(w), Keys(rows))))
  }

  lemma CollectingStart(s: Sys, w: nat)
    requires w in s.watchers && s.Of(w).Data().operation.Some?
    ensures Collecting(s, w, [], [])
  {
    assert Keys([]) == [] && DoomedOf(s.Of(w), []) == {};
    assert CollectLife(s.life, s.watchers[w].space, {}).intents == s.life.intents;
  }

  lemma DoomedMore(ss: SpaceState, rows: seq<ResultRow>, r: ResultRow)
    requires ss.Data().operation.Some? && Doomed(ss, r.key) == r.result.generation
    ensures DoomedOf(ss, Keys(rows + [r])) == DoomedOf(ss, Keys(rows)) + if r.result.generation.Some? then {r.result.generation.value} else {}
  {
    assert Keys(rows + [r]) == Keys(rows) + [r.key];
  }

  lemma CollectMore(l: Life, sp: Space, gens: set<Gen>, g: Gen)
    ensures CollectLife(l, sp, gens + {g}) == CollectLife(l, sp, gens).(intents := CollectLife(l, sp, gens).intents - {(sp, g)})
    ensures (sp, g) !in l.intents ==> CollectLife(l, sp, gens + {g}) == CollectLife(l, sp, gens)
  {
    assert CollectLife(l, sp, gens + {g}).intents == CollectLife(l, sp, gens).intents - {(sp, g)};
  }

  lemma CollectingStep(s: Sys, w: nat, rows: seq<ResultRow>, changes: seq<Change>, r: ResultRow)
    requires w in s.watchers && s.Of(w).Data().operation.Some? && Collecting(s, w, rows, changes)
    requires Doomed(s.Of(w), r.key) == r.result.generation
    requires r.result.generation.Some? ==> forall k :: 0 <= k < |rows| ==> rows[k].result.generation != r.result.generation
    ensures var sp := s.watchers[w].space;
      Collecting(s, w, rows + [r],
        if r.result.generation.Some? && (sp, r.result.generation.value) in s.life.intents
        then changes + [DeleteIntent(r.result.generation.value, r.key.att)] else changes)
  {
    hide CollectLife, DoomedOf, ApplyAll, AskedFor;
    var sp, more := s.watchers[w].space, rows + [r];
    DoomedMore(s.Of(w), rows, r);
    forall i | 0 <= i < |changes| ensures AskedFor(more, changes[i].g) { AskedForMore(rows, r, changes[i].g); }
    if r.result.generation.Some? {
      var g := r.result.generation.value;
      CollectMore(s.life, sp, DoomedOf(s.Of(w), Keys(rows)), g);
      if (sp, g) in s.life.intents {
        var change := DeleteIntent(g, r.key.att);
        ApplyMore(s, sp, changes, [change]);
        ApplySingle(ApplyAll(s, sp, changes), sp, change);
        AskedForMore(rows, r, g);
        forall i | 0 <= i < |changes| ensures changes[i].Key() != change.Key() { NotAskedFor(rows, changes[i].g, g); }
        assert Once(changes + [change]);
      }
    } else {
      assert DoomedOf(s.Of(w), Keys(rows)) + {} == DoomedOf(s.Of(w), Keys(rows));
    }
  }

  lemma NotAskedFor(rows: seq<ResultRow>, h: Gen, g: Gen)
    requires AskedFor(rows, h) && forall k :: 0 <= k < |rows| ==> rows[k].result.generation != Some(g)
    ensures h != g
  {}

  /**
   * The plan of one collection step: at most 90 intent deletions before the control row, no row twice,
   * and together exactly the collection of the page. `failed` is the error of a cleanup whose intent is another one.
   */
  method PlanCollect(s: Sys, w: nat, rows: seq<ResultRow>) returns (failed: bool, changes: seq<Change>, following: Control)
    requires Inv(s) && GcPhase(s, w) && rows != [] && |rows| <= TRANSACTION_ROWS
    requires SawResults(s.Of(w).Data().operation.value, s.Of(w).Data().cursor, rows) in s.watchers[w].seen
    ensures !failed && |changes| <= 90 && Once(changes)
    ensures CatalogEnabled(s, Collect(w, Keys(rows))) ==>
      var sp := s.watchers[w].space;
      Commit(Steer(ApplyAll(s, sp, changes), sp, following), sp) == CatalogApply(s, Collect(w, Keys(rows)))
  {
    hide Inv, CollectLife, DoomedOf, ApplyAll, Collecting, Once, Swept;
    var sp := s.watchers[w].space;
    failed, changes := false, [];
    PageStands(s, w, rows);
    CollectingStart(s, w);
    for i := 0 to |rows|
      invariant !failed && Collecting(s, w, rows[..i], changes)
    {
      var r := rows[i];
      assert rows[..i] + [r] == rows[..i + 1];
      if r.result.generation.Some? {
        var g := r.result.generation.value;
        forall k | 0 <= k < i ensures rows[..i][k].result.generation != r.result.generation { OtherGeneration(s, w, rows, k, i); }
        CollectingStep(s, w, rows[..i], changes, r);
        if (sp, g) in s.life.intents {
          CleanupIdentity(s, sp, s.Of(w).Data().operation.value, r.key);
          var intent := s.life.intents[(sp, g)];
          failed := failed || intent.data.kind != Delete || intent.data.att != r.key.att;
          changes := changes + [DeleteIntent(g, r.key.att)];
        }
      } else {
        CollectingStep(s, w, rows[..i], changes, r);
      }
    }
    assert rows[..|rows|] == rows;
    following := s.Of(w).Data().(cursor := Some(rows[|rows| - 1].key));
    CollectingEnd(s, w, rows, changes);
  }

  lemma OtherGeneration(s: Sys, w: nat, rows: seq<ResultRow>, k: nat, i: nat)
    requires Inv(s) && GcPhase(s, w) && SawResults(s.Of(w).Data().operation.value, s.Of(w).Data().cursor, rows) in s.watchers[w].seen
    requires k < i < |rows| && rows[i].result.generation.Some?
    ensures rows[k].result.generation != rows[i].result.generation
  {
    hide Inv;
    PageStands(s, w, rows);
    assert Below(rows[k].key, rows[i].key);
    if rows[k].result.generation == rows[i].result.generation {
      GenerationsApart(s, s.watchers[w].space, rows[k].key, rows[i].key);
    }
  }

  lemma CollectingEnd(s: Sys, w: nat, rows: seq<ResultRow>, changes: seq<Change>)
    requires GcPhase(s, w) && rows != [] && |rows| <= TRANSACTION_ROWS && Collecting(s, w, rows, changes)
    ensures |changes| <= TRANSACTION_ROWS && Once(changes)
    ensures CatalogEnabled(s, Collect(w, Keys(rows))) ==>
      var sp, following := s.watchers[w].space, s.Of(w).Data().(cursor := Some(rows[|rows| - 1].key));
      Commit(Steer(ApplyAll(s, sp, changes), sp, following), sp) == CatalogApply(s, Collect(w, Keys(rows)))
  {
    hide ApplyAll, CollectLife, DoomedOf, Once, Swept, SawPage;
    var sp, ss := s.watchers[w].space, s.Of(w);
    var last := rows[|rows| - 1].key;
    var y := ss.With(ss.Data().(cursor := Some(last)));
    assert s.spaces[sp := y][sp := y.Bump()] == s.spaces[sp := y.Bump()];
  }
}
