/**
 * Why migration and release come to an end: every one of their transactions
 * that goes through brings the space nearer to being at rest.
 */
module BlobProgress {
  import opened Prelude
  import opened BlobTypes
  import opened EpisodeCatalog
  import opened CatalogProofs
  import opened BlobProtocol
  import opened BlobLifecycle
  import opened BlobInvariants

  /** What is left to do, most significant first. */
  datatype Rank = Rank(stage: nat, stale: nat, ahead: nat, links: nat, uncollected: nat)

  predicate Less(x: Rank, y: Rank)
  {
    x.stage < y.stage || (x.stage == y.stage && (x.stale < y.stale || (x.stale == y.stale &&
      (x.ahead < y.ahead || (x.ahead == y.ahead && (x.links < y.links || (x.links == y.links && x.uncollected < y.uncollected)))))))
  }

  /** The candidates a release or migration has yet to come to. */
  function Ahead(keys: set<Att>, cursor: Option<Att>): set<Att> { set k | k in keys && Beyond(cursor, k) }

  function Uncollected(ss: SpaceState, op: Op): set<SortKey>
  {
    set k | k in ResultKeys(ss, op) && BeyondKey(ss.Data().cursor, k)
  }

  function RankOf(ss: SpaceState): Rank
  {
    var c := ss.Data();
    if c.mode == Active then Rank(0, 0, 0, 0, 0)
    else if c.mode == Mode.Migrate then
      Rank(1, 0, |Ahead(ss.holds.Keys, c.after)|, if c.offset <= MAX_LINKS then MAX_LINKS - c.offset else 0, 0)
    else if c.prior.Some? then Rank(3, |ResultKeys(ss, c.prior.value)|, 0, 0, 0)
    else if c.phase == Holds then Rank(2, 0, |Ahead(CandidateKeys(ss), CursorAtt(c))|, |ss.index|, 0)
    else Rank(1, 0, 0, 0, if c.operation.Some? then |Uncollected(ss, c.operation.value)| else 0)
  }

  lemma Shrinks<T>(x: set<T>, y: set<T>, t: T)
    requires x <= y && t in y && t !in x
    ensures |x| < |y|
  {
    assert x <= y - {t};
    SubsetSize(x, y - {t});
  }

  // ----- Migration -----

  /** A page moves the cursor past a hold, or further into one. */
  lemma {:induction false} IndexPageAdvances(ss: SpaceState, rows: seq<Row<Hold>>, room: nat)
    requires ss.control.Some? && rows != [] && room > 0 && OffsetsFit(ss.Data(), rows) && HeldRun(ss.holds, ss.Data().after, rows)
    ensures var c, d := ss.Data(), IndexPage(ss, rows, room).Data();
      && (d.after == c.after ==> d.offset > c.offset)
      && (d.after != c.after ==> d.after.Some? && d.after.value in ss.holds && Beyond(c.after, d.after.value))
    decreases |rows|
  {
    var h, c := rows[0].data, ss.Data();
    var to := Min(|h.links|, c.offset + room);
    assert IsNext(ss.holds.Keys, c.after, Ids(rows)[0]);
    var advanced := ss.(index := AddLinks(ss.index, h, c.offset, to)).With(c.(after := Some(h.attachment.id), offset := 0));
    if to == |h.links| && to - c.offset != room {
      if rows[1..] != [] {
        assert forall i :: 0 <= i < |rows| - 1 ==> Ids(rows[1..])[i] == Ids(rows)[i + 1];
        IndexPageAdvances(advanced, rows[1..], room - (to - c.offset));
      }
    }
  }

  lemma MigrateProgresses(ss: SpaceState, rows: seq<Row<Hold>>)
    requires SpaceOk(ss) && ss.control.Some? && ss.Data().mode == Mode.Migrate && SpaceShows(ss, SawHolds(ss.Data().after, rows))
    ensures OffsetsFit(ss.Data(), rows) && Less(RankOf(MigratePage(ss, rows)), RankOf(ss))
  {
    hide RowsOk, ControlOk, EpisodeCatalog.Progress;
    MigratePageOk(ss, rows);
    if rows != [] {
      var y := MigratePage(ss, rows);
      MigrateShape(ss, rows);
      var c, d := ss.Data(), y.Data();
      OffsetBound(ss);
      OffsetBound(y);
      if d.after != c.after {
        assert Ahead(ss.holds.Keys, d.after) <= Ahead(ss.holds.Keys, c.after);
        Shrinks(Ahead(ss.holds.Keys, d.after), Ahead(ss.holds.Keys, c.after), d.after.value);
      }
    }
  }

  lemma MigrateShape(ss: SpaceState, rows: seq<Row<Hold>>)
    requires RowsOk(ss) && ss.control.Some? && ss.Data().mode == Mode.Migrate && SpaceShows(ss, SawHolds(ss.Data().after, rows)) && rows != []
    requires OffsetsFit(ss.Data(), rows)
    ensures var y := MigratePage(ss, rows); var c, d := ss.Data(), y.Data();
      && y.holds == ss.holds && d.mode == Mode.Migrate && (d.after == c.after ==> d.offset > c.offset)
      && (d.after != c.after ==> d.after.Some? && d.after.value in ss.holds && Beyond(c.after, d.after.value))
  {
    hide RowsOk;
    assert forall i :: 0 <= i < |rows| ==> Lookup(ss.holds, Ids(rows)[i]) == Some(rows[i]);
    IndexPageAdvances(ss, rows, TRANSACTION_ROWS);
    IndexPageControl(ss, rows, TRANSACTION_ROWS);
  }

  lemma OffsetBound(ss: SpaceState)
    requires SpaceOk(ss)
    ensures ss.Data().offset <= MAX_LINKS
  {
    hide ControlOk, EpisodeCatalog.Progress, IndexExact, SequencesUnique;
    if ss.Data().offset > 0 {
      var a :| IsNext(ss.holds.Keys, ss.Data().after, a) && ss.Data().offset <= |LinksOf(ss.holds, a)|;
      assert HoldOk(ss.holds[a].data, a, ss.Rev());
    }
  }

  // ----- Release -----

  ghost predicate Nearer(y: SpaceState, x: SpaceState)
  {
    var m, n := |Ahead(CandidateKeys(y), CursorAtt(y.Data()))|, |Ahead(CandidateKeys(x), CursorAtt(x.Data()))|;
    m < n || (m == n && |y.index| < |x.index|)
  }

  lemma RemoveOneNearer(s: Sys, sp: Space, page: seq<LinkRow>, room: nat)
    requires Core(s) && InHolds(s.At(sp)) && page != [] && CandidateRun(s.At(sp), page) && room >= 5
    requires Removable(s, sp, page[0].att)
    ensures Nearer(NextSpace(s, sp, page[0].att, page[0].link.sequence, room), s.At(sp))
  {
    hide LifeOk, RootsExact, AllDoomed, RowsOk, ControlOk, EpisodeCatalog.Progress, ReleaseHold, GoneFrom, ResultOf, Taken, CandidateKeys;
    var ss, att := s.At(sp), page[0].att;
    KnownSpace(s, sp);
    assert SpaceOk(ss) && att == Atts(page)[0] && IsNext(CandidateKeys(ss), CursorAtt(ss.Data()), att);
    Candidate(ss, att);
    var gone := GoneFrom(s, sp, att, room);
    var y := ReleaseHold(ss, att, page[0].link.sequence, gone, ResultOf(s, sp, att));
    assert gone == Taken(ss.Data(), ss.holds[att].data, room) by { GoneIsTaken(s, sp, att, room); }
    if ss.Data().mode == Release && att in y.holds {
      PartialNearer(ss, att, page[0].link.sequence, gone, ResultOf(s, sp, att), room);
    } else {
      NextKeys(ss, att, page[0].link.sequence, gone, ResultOf(s, sp, att), room);
      var x := Ahead(CandidateKeys(ss), CursorAtt(ss.Data()));
      Shrinks(Ahead(CandidateKeys(y), CursorAtt(y.Data())), x, att);
    }
  }

  lemma GoneIsTaken(s: Sys, sp: Space, att: Att, room: nat)
    requires Removable(s, sp, att) && room >= 5
    ensures GoneFrom(s, sp, att, room) == Taken(s.At(sp).Data(), s.At(sp).holds[att].data, room)
  {}

  lemma PartialNearer(ss: SpaceState, att: Att, sequence: nat, gone: set<Episode>, result: Result, room: nat)
    requires SpaceOk(ss) && InHolds(ss) && ss.Data().mode == Release && att in ss.holds && ss.Data().count >= 1 && room >= 5
    requires gone == Taken(ss.Data(), ss.holds[att].data, room) && att in ReleaseHold(ss, att, sequence, gone, result).holds
    ensures Nearer(ReleaseHold(ss, att, sequence, gone, result), ss)
  {
    hide EpisodeCatalog.Progress, ResultsOwned, SequencesUnique, HoldsOk, OffsetOk, IndexExact;
    var y, links := ReleaseHold(ss, att, sequence, gone, result), ss.holds[att].data.links;
    assert Without(links, gone) != [];
    assert CandidateKeys(y) == CandidateKeys(ss) && CursorAtt(y.Data()) == CursorAtt(ss.Data());
    assert links != [];
    var l := links[0];
    assert links[..Min(|links|, room - 4)][0] == l && l in links;
    assert l.episode in gone;
    assert (l.episode, att) in ss.index by { IndexedLink(ss, att, l); }
    assert (l.episode, att) !in y.index;
    FewerRows(y.index, ss.index, (l.episode, att));
  }

  lemma FewerRows<K, V>(m: map<K, V>, n: map<K, V>, k: K)
    requires m.Keys <= n.Keys && k in n && k !in m
    ensures |m| < |n|
  {
    Shrinks(m.Keys, n.Keys, k);
    assert |m| == |m.Keys| && |n| == |n.Keys|;
  }

  lemma IndexedLink(ss: SpaceState, att: Att, l: Link)
    requires RowsOk(ss) && ss.Data().version == 1 && att in ss.holds && l in ss.holds[att].data.links
    ensures (l.episode, att) in ss.index
  {
    assert ColumnExact(ss.index, att, Now(ss.holds, att), Covered(ss.holds, CoverageOf(ss.Data()), att));
    FullCover(ss.holds, CoverageOf(ss.Data()), att);
  }

  lemma {:induction false} RemoveAllNearer(s: Sys, sp: Space, page: seq<LinkRow>, room: nat)
    requires Core(s) && InHolds(s.At(sp)) && CandidateRun(s.At(sp), page) && page != [] && room >= 5
    ensures RemoveAll(s, sp, page, room).Some? && Nearer(RemoveAll(s, sp, page, room).value.At(sp), s.At(sp))
    decreases |page|
  {
    hide Core, CandidateRun, Removable, RemoveOne, Cost, InHolds, Nearer;
    RemoveAllCore(s, sp, page, room);
    var att := page[0].att;
    RemoveOneCore(s, sp, page, room);
    RemoveOneNearer(s, sp, page, room);
    var n := RemoveOne(s, sp, att, page[0].link.sequence, room);
    if !(s.At(sp).Data().mode == Release && att in n.At(sp).holds) {
      NextRun(s, sp, page, room);
      var left: nat := if Cost(s, sp, att, room) > room then 0 else room - Cost(s, sp, att, room);
      if page[1..] != [] && left >= 5 {
        RemoveAllNearer(n, sp, page[1..], left);
        NearerChain(s.At(sp), n.At(sp), RemoveAll(n, sp, page[1..], left).value.At(sp));
      }
    }
  }

  lemma NearerChain(x: SpaceState, y: SpaceState, z: SpaceState)
    requires Nearer(y, x) && Nearer(z, y)
    ensures Nearer(z, x)
  {}

  // ----- Every step -----

  /** The transactions of migrations and releases; a pruning one deletes some row. */
  ghost predicate Helps(s: Sys, a: CatalogAction)
  {
    a.Migrate? || a.Pruned? || a.Remove? || a.Removed? || a.Collect? || a.End?
    || (a.Prune? && a.w in s.watchers && s.Of(a.w).Data().prior == Some(a.op) && Releasing(s.Of(a.w).Data())
        && exists k :: k in a.rows && (a.op, k) in s.Of(a.w).results)
  }

  /** Each transaction of a migration or release strictly decreases what is left to do. */
  lemma Progresses(s: Sys, a: CatalogAction)
    requires Inv(s) && CatalogEnabled(s, a) && Helps(s, a)
    ensures Less(RankOf(CatalogApply(s, a).At(Where(s, a))), RankOf(s.At(Where(s, a))))
  {
    hide RootsExact, LifeOk, AllDoomed, SpaceOk, CatalogEnabled, CatalogApply, RankOf, Less;
    var sp := Where(s, a);
    SpaceIsOk(s, sp);
    if a.Migrate? {
      MigrateStep(s, a);
    } else if a.Remove? {
      RemoveStep(s, a);
    } else if a.Collect? {
      CollectStep(s, a);
    } else if a.Prune? {
      PruneStep(s, a);
    } else {
      ModeIsOk(s.At(sp));
      StageStep(s, a);
    }
  }

  lemma ModeIsOk(ss: SpaceState)
    requires SpaceOk(ss)
    ensures ModeOk(ss.Data(), ss.ops)
  {}

  lemma MigrateStep(s: Sys, a: CatalogAction)
    requires Inv(s) && CatalogEnabled(s, a) && a.Migrate?
    ensures Less(RankOf(CatalogApply(s, a).At(Where(s, a))), RankOf(s.At(Where(s, a))))
  {
    hide SpaceOk, RootsExact, LifeOk, AllDoomed, RankOf, Less, MigratePage, SpaceShows, WatcherOk;
    SpaceIsOk(s, Where(s, a));
    SeenStands(s, a.w, SawHolds(s.Of(a.w).Data().after, a.holdPage));
    MigrateProgresses(s.Of(a.w), a.holdPage);
  }

  lemma RemoveStep(s: Sys, a: CatalogAction)
    requires Inv(s) && CatalogEnabled(s, a) && a.Remove?
    ensures Less(RankOf(CatalogApply(s, a).At(Where(s, a))), RankOf(s.At(Where(s, a))))
  {
    hide SpaceOk, RootsExact, LifeOk, AllDoomed, SawCandidates, CandidateRun, RemoveAll, WatchersOk, CandidateKeys;
    var sp := s.watchers[a.w].space;
    SeenCandidates(s, a.w, a.page);
    RemoveAllCore(s, sp, a.page, TRANSACTION_ROWS);
    RemoveAllNearer(s, sp, a.page, TRANSACTION_ROWS);
    var n := RemoveAll(s, sp, a.page, TRANSACTION_ROWS).value;
    BumpKeys(n.At(sp));
  }

  lemma BumpKeys(ss: SpaceState)
    requires ss.control.Some?
    ensures CandidateKeys(ss.Bump()) == CandidateKeys(ss) && ss.Bump().Data() == ss.Data() && ss.Bump().index == ss.index
  {}

  lemma CollectStep(s: Sys, a: CatalogAction)
    requires WatchersOk(s) && CatalogEnabled(s, a) && a.Collect?
    ensures Less(RankOf(CatalogApply(s, a).At(Where(s, a))), RankOf(s.At(Where(s, a))))
  {
    hide Swept, CollectLife, DoomedOf;
    var ss, op := s.Of(a.w), s.Of(a.w).Data().operation.value;
    SeenPage(s, a.w, a.batch);
    hide SawPage;
    var y := Collected(ss, a.batch[|a.batch| - 1]);
    KeyRunBeyond(ResultKeys(ss, op), ss.Data().cursor, a.batch);
    assert ResultKeys(y, op) == ResultKeys(ss, op);
    Shrinks(Uncollected(y, op), Uncollected(ss, op), a.batch[0]);
  }

  /** The last key of a page lies beyond the cursor, and the first does not lie beyond it. */
  lemma {:induction false} KeyRunBeyond(keys: set<SortKey>, cursor: Option<SortKey>, ids: seq<SortKey>)
    requires IsKeyRun(keys, cursor, ids) && ids != []
    ensures ids[0] in keys && BeyondKey(cursor, ids[0]) && !BeyondKey(Some(ids[|ids| - 1]), ids[0])
    ensures forall k :: BeyondKey(Some(ids[|ids| - 1]), k) ==> BeyondKey(cursor, k)
    decreases |ids|
  {
    if |ids| > 1 {
      var rest := ids[..|ids| - 1];
      KeyRunBeyond(keys, cursor, rest);
      assert IsNextKey(keys, Some(ids[|ids| - 2]), ids[|ids| - 1]);
    }
  }

  lemma PruneStep(s: Sys, a: CatalogAction)
    requires CatalogEnabled(s, a) && a.Prune? && Helps(s, a)
    ensures Less(RankOf(CatalogApply(s, a).At(Where(s, a))), RankOf(s.At(Where(s, a))))
  {
    var ss := s.Of(a.w);
    var y := PruneRows(ss, a.op, a.rows);
    var k :| k in a.rows && (a.op, k) in ss.results;
    Shrinks(ResultKeys(y, a.op), ResultKeys(ss, a.op), k);
  }

  lemma StageStep(s: Sys, a: CatalogAction)
    requires CatalogEnabled(s, a) && (a.Pruned? || a.Removed? || a.End?) && ModeOk(s.At(Where(s, a)).Data(), s.At(Where(s, a)).ops)
    ensures Less(RankOf(CatalogApply(s, a).At(Where(s, a))), RankOf(s.At(Where(s, a))))
  {
    hide SawCandidates;
  }
}
