/**
 * Reads that are not transactions: what a client may conclude from several
 * reads between two equal readings of a control row, and which of the
 * store's "inconsistent" errors can therefore never be raised.
 */
module BlobReads {
  import opened Prelude
  import opened BlobTypes
  import opened EpisodeCatalog
  import opened CatalogProofs
  import opened BlobProtocol
  import opened BlobLifecycle
  import opened BlobInvariants
  import opened BlobRuns

  // ----- The control row as a sequence lock -----

  lemma CatalogSpaceStep(s: Sys, a: CatalogAction, sp: Space)
    requires Inv(s) && CatalogEnabled(s, a)
    ensures CatalogApply(s, a).At(sp) == s.At(sp) || SpaceMoves(s.At(sp), CatalogApply(s, a).At(sp))
  {
    hide SpaceOk, RootsExact, LifeOk, AllDoomed, SawCandidates, RemoveAll, CatalogEnabled, CatalogApply, SpaceMoves;
    SpaceIsOk(s, Where(s, a));
    if IsLocal(a) {
      LocalShape(s, a);
      LocalMoves(s, a);
    } else if a.Remove? {
      RemoveSpaceStep(s, a, sp);
    } else {
      SharedSpaceStep(s, a, sp);
    }
  }

  lemma SharedSpaceStep(s: Sys, a: CatalogAction, sp: Space)
    requires CatalogEnabled(s, a) && (a.Join? || a.Publish? || a.Collect?)
    ensures CatalogApply(s, a).At(sp) == s.At(sp) || SpaceMoves(s.At(sp), CatalogApply(s, a).At(sp))
  {
    hide Swept, CollectLife, PublishLife;
  }

  lemma RemoveSpaceStep(s: Sys, a: CatalogAction, sp: Space)
    requires Inv(s) && CatalogEnabled(s, a) && a.Remove?
    ensures CatalogApply(s, a).At(sp) == s.At(sp) || SpaceMoves(s.At(sp), CatalogApply(s, a).At(sp))
  {
    hide SpaceOk, RootsExact, LifeOk, AllDoomed, SawCandidates, CandidateRun, RemoveAll, WatchersOk;
    SeenCandidates(s, a.w, a.page);
    RemoveAllCore(s, Where(s, a), a.page, TRANSACTION_ROWS);
  }

  lemma SpaceStep(s: Sys, a: Action, sp: Space)
    requires Inv(s) && Enabled(s, a)
    ensures Apply(s, a).At(sp) == s.At(sp) || SpaceMoves(s.At(sp), Apply(s, a).At(sp))
  {
    hide Inv, CatalogEnabled, CatalogApply, BytesEnabled, BytesApply, SpaceMoves, Shows;
    if a.Catalog? { CatalogSpaceStep(s, a.c, sp); }
  }

  lemma {:induction false} RevGrows(s: Sys, run: seq<Action>, sp: Space)
    requires Inv(s) && Valid(s, run) && AllGuarded(s, run)
    ensures s.At(sp).Rev() <= After(s, run).At(sp).Rev() && (s.At(sp).control.Some? ==> After(s, run).At(sp).control.Some?)
    decreases |run|
  {
    hide Inv, Enabled, Apply, GuardedStep;
    if run != [] {
      SpaceStep(s, run[0], sp);
      StepInv(s, run[0]);
      RevGrows(Apply(s, run[0]), run[1..], sp);
    }
  }

  ghost predicate SameRows(x: SpaceState, y: SpaceState)
  {
    x.control == y.control && x.holds == y.holds && x.index == y.index
  }

  /** Two equal readings of a control row bracket a time in which no hold and no episode row of the space changed. */
  lemma {:induction false} Seqlock(s: Sys, run: seq<Action>, sp: Space, k: nat)
    requires Inv(s) && Valid(s, run) && AllGuarded(s, run) && k <= |run|
    requires s.At(sp).control.Some? && After(s, run).At(sp).control == s.At(sp).control
    ensures Valid(s, run[..k]) && SameRows(s.At(sp), After(s, run[..k]).At(sp))
    decreases |run|
  {
    hide Inv, Enabled, Apply, GuardedStep;
    if k > 0 {
      var n, rest := Apply(s, run[0]), run[1..];
      SpaceStep(s, run[0], sp);
      StepInv(s, run[0]);
      RevGrows(n, rest, sp);
      Seqlock(n, rest, sp, k - 1);
      assert run[..k] == [run[0]] + rest[..k - 1] && run[..k][1..] == rest[..k - 1];
    }
  }

  // ----- One client's reads -----

  /** The check a reader makes of an episode row against the hold it then reads. */
  predicate Consistent(episode: Episode, row: LinkRow, hold: Option<Row<Hold>>)
  {
    && hold.Some? && hold.value.data.generation == row.link.generation && hold.value.data.attachment == row.link.attachment
    && row.att == row.link.attachment.id && Link(episode, row.link.sequence) in hold.value.data.links
  }

  /** With the control row unchanged, every episode row read agrees with every reading of its hold. */
  lemma RowsConsistent(s: Sys, w: nat, episode: Episode, after: Option<Att>, rows: seq<LinkRow>, i: nat, hold: Option<Row<Hold>>)
    requires Inv(s) && s.Current(w) && s.Of(w).Data().version == 1 && i < |rows|
    requires SawLinks(episode, after, rows) in s.watchers[w].seen && SawHold(rows[i].att, hold) in s.watchers[w].seen
    ensures Consistent(episode, rows[i], hold)
  {
    hide RootsExact, LifeOk, AllDoomed, ControlOk, EpisodeCatalog.Progress;
    var ss, att := s.Of(w), rows[i].att;
    SpaceIsOk(s, s.watchers[w].space);
    SeenStands(s, w, SawLinks(episode, after, rows));
    SeenStands(s, w, SawHold(att, hold));
    assert Lookup(ss.index, (episode, att)) == Some(rows[i].link);
    assert ColumnExact(ss.index, att, Now(ss.holds, att), Covered(ss.holds, CoverageOf(ss.Data()), att));
    FullCover(ss.holds, CoverageOf(ss.Data()), att);
    assert HoldOk(ss.holds[att].data, att, ss.Rev());
  }

  /** With the control row unchanged, every reading of the root of a hold finds it, in the hold's generation. */
  lemma RootConsistent(s: Sys, w: nat, att: Att, hold: Option<Row<Hold>>, root: Option<Row<Root>>)
    requires Inv(s) && s.Current(w) && hold.Some?
    requires SawHold(att, hold) in s.watchers[w].seen && SawRoot(att, root) in s.watchers[w].seen
    ensures root.Some? && root.value.data.generation == hold.value.data.generation
  {
    SeenStands(s, w, SawHold(att, hold));
    SeenStands(s, w, SawRoot(att, root));
  }

  /** A migration step's offset always fits, and a release page never meets a condition that fails. */
  lemma NoStalePlan(s: Sys, w: nat)
    requires Inv(s) && s.Current(w)
    ensures forall rows :: s.Of(w).Data().mode == Mode.Migrate && SawHolds(s.Of(w).Data().after, rows) in s.watchers[w].seen ==>
      OffsetsFit(s.Of(w).Data(), rows)
    ensures forall page :: HoldsPhase(s, w) && SawCandidates(s, w, page) ==>
      RemoveAll(s, s.watchers[w].space, page, TRANSACTION_ROWS).Some?
  {
    hide SpaceOk, RootsExact, LifeOk, AllDoomed, CandidateRun, RemoveAll, WatchersOk, SawCandidates;
    var ss := s.Of(w);
    SpaceIsOk(s, s.watchers[w].space);
    forall rows | ss.Data().mode == Mode.Migrate && SawHolds(ss.Data().after, rows) in s.watchers[w].seen
      ensures OffsetsFit(ss.Data(), rows)
    {
      SeenStands(s, w, SawHolds(ss.Data().after, rows));
      MigratePageOk(ss, rows);
    }
    forall page | HoldsPhase(s, w) && SawCandidates(s, w, page)
      ensures RemoveAll(s, s.watchers[w].space, page, TRANSACTION_ROWS).Some?
    {
      SeenCandidates(s, w, page);
      RemoveAllCore(s, s.watchers[w].space, page, TRANSACTION_ROWS);
    }
  }

  // ----- Reading one episode -----

  /** Pages of an episode partition read one after the other; the end of results is an empty page. */
  ghost predicate Chain(seen: set<Observation>, episode: Episode, after: Option<Att>, pages: seq<seq<LinkRow>>)
    decreases |pages|
  {
    if pages == [] then SawLinks(episode, after, []) in seen
    else
      && pages[0] != [] && SawLinks(episode, after, pages[0]) in seen
      && Chain(seen, episode, Some(pages[0][|pages[0]| - 1].att), pages[1..])
  }

  function Flatten<T>(pages: seq<seq<T>>): seq<T>
  {
    if pages == [] then [] else pages[0] + Flatten(pages[1..])
  }

  ghost predicate AllStand(ss: SpaceState, seen: set<Observation>) { forall o :: o in seen ==> Stands(ss, o) }

  /** Rows of one episode partition after a cursor, in key order, as the table has them. */
  ghost predicate Rows(ss: SpaceState, episode: Episode, after: Option<Att>, rows: seq<LinkRow>)
  {
    && (forall i :: 0 <= i < |rows| ==> Beyond(after, rows[i].att) && Lookup(ss.index, (episode, rows[i].att)) == Some(rows[i].link))
    && forall i, j :: 0 <= i < j < |rows| ==> rows[i].att < rows[j].att
  }

  ghost predicate Lists(rows: seq<LinkRow>, a: Att) { exists i :: 0 <= i < |rows| && rows[i].att == a }

  lemma {:induction false} ChainRows(ss: SpaceState, seen: set<Observation>, episode: Episode, after: Option<Att>, pages: seq<seq<LinkRow>>)
    requires AllStand(ss, seen) && Chain(seen, episode, after, pages)
    ensures Rows(ss, episode, after, Flatten(pages))
    ensures forall a: Att :: (episode, a) in ss.index && Beyond(after, a) ==> Lists(Flatten(pages), a)
    decreases |pages|
  {
    hide SpaceShows, Rows, Lists;
    if pages == [] {
      LastPage(ss, episode, after);
    } else {
      var page := pages[0];
      var last := page[|page| - 1].att;
      assert Stands(ss, SawLinks(episode, after, page));
      PageRows(ss, episode, after, page);
      ChainRows(ss, seen, episode, Some(last), pages[1..]);
      var rest := Flatten(pages[1..]);
      JoinRows(ss, episode, after, page, rest);
      forall a: Att | (episode, a) in ss.index && Beyond(after, a) ensures Lists(page + rest, a) {
        JoinLists(page, rest, a);
      }
    }
  }

  lemma JoinRows(ss: SpaceState, episode: Episode, after: Option<Att>, page: seq<LinkRow>, rest: seq<LinkRow>)
    requires Rows(ss, episode, after, page) && page != []
    requires Rows(ss, episode, Some(page[|page| - 1].att), rest)
    ensures Rows(ss, episode, after, page + rest)
  {}

  lemma JoinLists(page: seq<LinkRow>, rest: seq<LinkRow>, a: Att)
    ensures Lists(page, a) || Lists(rest, a) ==> Lists(page + rest, a)
  {
    var rows := page + rest;
    if Lists(page, a) {
      var i :| 0 <= i < |page| && page[i].att == a;
      assert rows[i].att == a;
    } else if Lists(rest, a) {
      var i :| 0 <= i < |rest| && rest[i].att == a;
      assert rows[|page| + i].att == a;
    }
  }

  lemma LastPage(ss: SpaceState, episode: Episode, after: Option<Att>)
    requires SpaceShows(ss, SawLinks(episode, after, []))
    ensures Rows(ss, episode, after, [])
    ensures forall a: Att :: (episode, a) in ss.index ==> !Beyond(after, a)
  {
    assert Atts([]) == [];
    forall a: Att | (episode, a) in ss.index ensures !Beyond(after, a) { assert a in EpisodeAtts(ss.index, episode); }
  }

  lemma PageRows(ss: SpaceState, episode: Episode, after: Option<Att>, page: seq<LinkRow>)
    requires SpaceShows(ss, SawLinks(episode, after, page)) && page != []
    ensures Rows(ss, episode, after, page)
    ensures forall a: Att :: (episode, a) in ss.index && Beyond(after, a) && a <= page[|page| - 1].att ==> Lists(page, a)
  {
    var keys, ids := EpisodeAtts(ss.index, episode), Atts(page);
    forall i, j | 0 <= i < j < |page| ensures page[i].att < page[j].att { RunSorted(keys, after, ids, i, j); }
    forall i | 0 <= i < |page| ensures Beyond(after, page[i].att) {
      if i > 0 { RunSorted(keys, after, ids, 0, i); }
      assert ids[0] == page[0].att && ids[i] == page[i].att;
    }
    forall a: Att | (episode, a) in ss.index && Beyond(after, a) && a <= page[|page| - 1].att ensures Lists(page, a) {
      assert a in keys;
      RunContains(keys, after, ids, a);
      var i :| 0 <= i < |ids| && ids[i] == a;
      assert page[i].att == a;
    }
  }

  lemma {:induction false} RunContains(keys: set<Att>, after: Option<Att>, ids: seq<Att>, a: Att)
    requires IsRun(keys, after, ids) && ids != [] && a in keys && Beyond(after, a) && a <= ids[|ids| - 1]
    ensures a in ids
    decreases |ids|
  {
    if a != ids[0] && |ids| > 1 {
      RunContains(keys, Some(ids[0]), ids[1..], a);
    }
  }

  /** An episode row as the hold of its attachment has it. */
  ghost predicate HeldRow(ss: SpaceState, episode: Episode, row: LinkRow)
  {
    && row.att in ss.holds && row.link == Entry(ss.holds[row.att].data, row.link.sequence)
    && Link(episode, row.link.sequence) in ss.holds[row.att].data.links
  }

  /**
   * A reader of a migrated space that paged through an episode between two equal readings of the control row
   * has exactly the episode's links as the holds have them, each once.
   */
  lemma EpisodeRead(s: Sys, w: nat, episode: Episode, pages: seq<seq<LinkRow>>)
    requires Inv(s) && s.Current(w) && s.Of(w).Data().version == 1
    requires Chain(s.watchers[w].seen, episode, None, pages)
    ensures var rows := Flatten(pages);
      && (forall i, j :: 0 <= i < j < |rows| ==> rows[i].att < rows[j].att)
      && (forall i :: 0 <= i < |rows| ==> HeldRow(s.Of(w), episode, rows[i]))
    ensures forall a: Att, n: nat :: a in s.Of(w).holds && Link(episode, n) in s.Of(w).holds[a].data.links ==>
      exists i :: 0 <= i < |Flatten(pages)| && Flatten(pages)[i].att == a && Flatten(pages)[i].link.sequence == n
  {
    hide RootsExact, LifeOk, AllDoomed, SpaceOk, Stands, Chain, WatchersOk;
    var ss, rows := s.Of(w), Flatten(pages);
    SpaceIsOk(s, s.watchers[w].space);
    forall o | o in s.watchers[w].seen ensures Stands(ss, o) { SeenStands(s, w, o); }
    ChainRows(ss, s.watchers[w].seen, episode, None, pages);
    MigratedIndexed(ss);
    forall i | 0 <= i < |rows| ensures HeldRow(ss, episode, rows[i]) {
      assert Lookup(ss.index, (episode, rows[i].att)) == Some(rows[i].link);
      IndexedRow(ss, episode, rows[i].att);
    }
    forall a: Att, n: nat | a in ss.holds && Link(episode, n) in ss.holds[a].data.links
      ensures exists i :: 0 <= i < |rows| && rows[i].att == a && rows[i].link.sequence == n
    {
      assert (episode, a) in ss.index && ss.index[(episode, a)] == Entry(ss.holds[a].data, n);
      assert Lists(rows, a);
      var i :| 0 <= i < |rows| && rows[i].att == a;
      assert Lookup(ss.index, (episode, rows[i].att)) == Some(rows[i].link);
    }
  }

  lemma IndexedRow(ss: SpaceState, episode: Episode, a: Att)
    requires SpaceOk(ss) && ss.Data().version == 1 && (episode, a) in ss.index
    ensures a in ss.holds && ss.index[(episode, a)] == Entry(ss.holds[a].data, ss.index[(episode, a)].sequence)
    ensures Link(episode, ss.index[(episode, a)].sequence) in ss.holds[a].data.links
  {
    hide ControlOk, EpisodeCatalog.Progress;
    assert ColumnExact(ss.index, a, Now(ss.holds, a), Covered(ss.holds, CoverageOf(ss.Data()), a));
    FullCover(ss.holds, CoverageOf(ss.Data()), a);
  }
}
