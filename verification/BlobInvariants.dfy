/** What every step of every client keeps: ownership, counts, index, observations, intents and bytes. */
module BlobInvariants {
  import opened Prelude
  import opened BlobTypes
  import opened EpisodeCatalog
  import opened CatalogProofs
  import opened BlobProtocol
  import opened BlobLifecycle

  ghost predicate SpacesOk(spaces: map<Space, SpaceState>)
  {
    forall sp :: sp in spaces ==> SpaceOk(spaces[sp])
  }

  // ----- Conservation of holds -----

  function Holders(spaces: map<Space, SpaceState>, att: Att): set<Space>
  {
    set sp | sp in spaces && att in spaces[sp].holds
  }

  /** A root stands exactly while some space holds the attachment, counts those spaces, and shares their generation. */
  ghost predicate RootExact(spaces: map<Space, SpaceState>, roots: map<Att, Row<Root>>, att: Att)
  {
    && (att in roots <==> Holders(spaces, att) != {})
    && (att in roots ==> roots[att].data.holds == |Holders(spaces, att)|)
    && forall sp :: sp in Holders(spaces, att) ==> spaces[sp].holds[att].data.generation == roots[att].data.generation
  }

  ghost predicate RootsExact(spaces: map<Space, SpaceState>, roots: map<Att, Row<Root>>)
  {
    forall att: Att :: RootExact(spaces, roots, att)
  }

  // ----- Observations under an unchanged control row -----

  /** What an earlier read still tells while the control row has not changed. */
  ghost predicate Stands(ss: SpaceState, o: Observation)
  {
    match o
    case SawRoot(att, root) =>
      att in ss.holds ==> root.Some? && root.value.data.generation == ss.holds[att].data.generation
    case SawResults(op, cursor, rows) =>
      && (ss.Data().operation == Some(op) ==> SpaceShows(ss, o))
      && (rows == [] && cursor.None? && ss.Data().prior == Some(op) ==> SpaceShows(ss, o))
    case _ => SpaceShows(ss, o)
  }

  ghost predicate Retired(ss: SpaceState, op: Op) { op in ss.ops && ss.Data().operation != Some(op) }

  ghost predicate WatcherOk(ss: SpaceState, w: Watcher)
  {
    && (w.before.Some? ==>
          && ss.control.Some? && w.before.value.rev <= ss.Rev() && (w.before.value.rev == ss.Rev() ==> ss.control == w.before)
          && (w.before.value.data.prior.Some? ==> Retired(ss, w.before.value.data.prior.value)))
    && (ss.control == w.before ==> forall o :: o in w.seen ==> Stands(ss, o))
  }

  ghost predicate WatchersOk(s: Sys)
  {
    forall w :: w in s.watchers ==> WatcherOk(s.Of(w), s.watchers[w])
  }

  // ----- Results and the bytes they give up -----

  /** The bytes behind a result row have been dealt with. */
  predicate Settled(c: Control, k: (Op, SortKey))
  {
    c.operation == Some(k.0) && (c.mode == Active || (c.phase == Gc && c.cursor.Some? && !BeyondKey(c.cursor, k.1)))
  }

  ghost predicate ResultsDoomed(sp: Space, ss: SpaceState, l: Life)
  {
    forall k :: k in ss.results && ss.results[k].generation.Some? ==>
      var g := ss.results[k].generation.value;
      Doom(l, sp, g) && Lookup(l.gens, g) == Some(k.1.att) && (Settled(ss.Data(), k) ==> (sp, g) !in l.intents)
  }

  ghost predicate AllDoomed(spaces: map<Space, SpaceState>, l: Life)
  {
    forall sp :: sp in spaces ==> ResultsDoomed(sp, spaces[sp], l)
  }

  ghost predicate Inv(s: Sys)
  {
    && SpacesOk(s.spaces) && RootsExact(s.spaces, s.life.roots) && LifeOk(s.life)
    && AllDoomed(s.spaces, s.life) && WatchersOk(s)
  }

  // ----- Steps inside one space -----

  ghost predicate SameHeld(x: SpaceState, y: SpaceState)
  {
    x.holds.Keys == y.holds.Keys && forall a :: a in x.holds ==> y.holds[a].data.generation == x.holds[a].data.generation
  }

  ghost predicate OnlyRetired(x: SpaceState, y: SpaceState)
  {
    && y.control == x.control && y.holds == x.holds && y.index == x.index
    && (forall k :: k in y.results ==> k in x.results && y.results[k] == x.results[k])
    && forall k :: k in x.results && x.Data().operation == Some(k.0) ==> k in y.results
  }

  /** How a space may move: its control row advances, or only rows of a retired operation go. */
  ghost predicate SpaceMoves(x: SpaceState, y: SpaceState)
  {
    && y.control.Some? && x.ops <= y.ops
    && (y.Data().operation == x.Data().operation || (y.Data().operation.Some? && y.Data().operation.value !in x.ops))
    && (y.Rev() > x.Rev() || OnlyRetired(x, y))
  }

  lemma StandsStays(x: SpaceState, y: SpaceState, o: Observation)
    requires SpaceMoves(x, y) && y.Rev() == x.Rev() && Stands(x, o)
    ensures Stands(y, o)
  {
    if o.SawResults? {
      if x.Data().operation == Some(o.op) {
        assert ResultKeys(y, o.op) == ResultKeys(x, o.op);
      } else {
        assert ResultKeys(y, o.op) <= ResultKeys(x, o.op);
      }
    }
  }

  lemma WatcherMoves(x: SpaceState, y: SpaceState, w: Watcher)
    requires WatcherOk(x, w) && SpaceMoves(x, y)
    ensures WatcherOk(y, w)
  {
    if y.control == w.before {
      forall o | o in w.seen ensures Stands(y, o) { StandsStays(x, y, o); }
    }
  }

  lemma SameHolders(spaces: map<Space, SpaceState>, sp: Space, y: SpaceState, att: Att)
    requires SameHeld(if sp in spaces then spaces[sp] else EMPTY_SPACE, y)
    ensures Holders(spaces[sp := y], att) == Holders(spaces, att)
  {
    assert sp in spaces || att !in EMPTY_SPACE.holds.Keys;
  }

  lemma OtherWatchers(s: Sys, sp: Space, y: SpaceState, life: Life)
    requires WatchersOk(s) && SpaceMoves(s.At(sp), y)
    ensures WatchersOk(s.Put(sp, y).(life := life))
  {
    hide WatcherOk, SpaceMoves;
    var n := s.Put(sp, y).(life := life);
    forall w | w in n.watchers ensures WatcherOk(n.Of(w), n.watchers[w]) {
      assert WatcherOk(s.Of(w), s.watchers[w]);
      if s.watchers[w].space == sp { WatcherMoves(s.At(sp), y, s.watchers[w]); }
    }
  }

  lemma SameRoots(spaces: map<Space, SpaceState>, roots: map<Att, Row<Root>>, sp: Space, y: SpaceState)
    requires RootsExact(spaces, roots) && SameHeld(if sp in spaces then spaces[sp] else EMPTY_SPACE, y)
    ensures RootsExact(spaces[sp := y], roots)
  {
    var n := spaces[sp := y];
    forall att: Att ensures RootExact(n, roots, att) {
      assert RootExact(spaces, roots, att);
      SameHolders(spaces, sp, y, att);
    }
  }

  lemma LocalStep(s: Sys, sp: Space, y: SpaceState)
    requires Inv(s) && SpaceOk(y) && SameHeld(s.At(sp), y) && SpaceMoves(s.At(sp), y) && ResultsDoomed(sp, y, s.life)
    ensures Inv(s.Put(sp, y))
  {
    hide SpaceOk, WatcherOk, LifeOk, RootExact, SpaceMoves, SameHeld, ResultsDoomed;
    SameRoots(s.spaces, s.life.roots, sp, y);
    OtherWatchers(s, sp, y, s.life);
  }

  lemma EmptySpaceOk()
    ensures SpaceOk(EMPTY_SPACE)
  {
    forall a: Att ensures ColumnExact(EMPTY_SPACE.index, a, Now(EMPTY_SPACE.holds, a), Covered(EMPTY_SPACE.holds, CoverageOf(FRESH_CONTROL), a)) {}
  }

  lemma SpaceIsOk(s: Sys, sp: Space)
    requires SpacesOk(s.spaces)
    ensures SpaceOk(s.At(sp))
  {
    EmptySpaceOk();
  }

  /** A watcher whose control row is current has seen what is there now. */
  lemma SeenStands(s: Sys, w: nat, o: Observation)
    requires WatchersOk(s) && s.Current(w) && o in s.watchers[w].seen
    ensures Stands(s.Of(w), o)
  {
    assert WatcherOk(s.Of(w), s.watchers[w]);
  }

  lemma ActiveOk(ss: SpaceState)
    requires SpaceOk(ss) && ss.control.Some? && ss.Data().mode == Active && ss.Data().version == 1
    ensures Ready(ss)
  {}

  lemma AtRest(ss: SpaceState)
    requires !Releasing(ss.Data())
    ensures EpisodeCatalog.Progress(ss)
  {}

  lemma AddHoldControl(ss: SpaceState, attachment: Attachment, generation: Gen)
    requires ControlOk(ss) && ss.control.Some? && ss.Data().mode == Active && attachment.id !in ss.holds
    ensures ControlOk(AddHold(ss, attachment, generation)) && !Releasing(AddHold(ss, attachment, generation).Data())
  {
    hide ResultsOwned;
    OneMore(ss.holds, attachment.id, Row(1, Hold(attachment, generation, [])));
    SameOwners(ss.results, ss.Data(), AddHold(ss, attachment, generation).Data());
  }

  lemma OneMore<K, V>(m: map<K, V>, k: K, v: V)
    requires k !in m
    ensures |m[k := v]| == |m| + 1
  {
    assert m[k := v].Keys == m.Keys + {k};
  }

  lemma SameOwners(results: map<(Op, SortKey), Result>, c: Control, d: Control)
    requires ResultsOwned(results, c) && d.operation == c.operation && d.prior == c.prior
    ensures ResultsOwned(results, d)
  {}

  lemma AddHoldSpaceOk(ss: SpaceState, attachment: Attachment, generation: Gen)
    requires SpaceOk(ss) && Ready(ss) && ss.Data().mode == Active && attachment.id !in ss.holds
    ensures SpaceOk(AddHold(ss, attachment, generation))
  {
    hide RowsOk, ControlOk, EpisodeCatalog.Progress, AddHold;
    AddHoldOk(ss, attachment, generation);
    AddHoldControl(ss, attachment, generation);
    AtRest(AddHold(ss, attachment, generation));
  }

  lemma AddLinkControl(ss: SpaceState, att: Att, episode: Episode)
    requires ControlOk(ss) && ss.control.Some? && ss.Data().mode == Active && att in ss.holds
    ensures ControlOk(AddLink(ss, att, episode)) && !Releasing(AddLink(ss, att, episode).Data())
  {
    var r := AddLink(ss, att, episode);
    assert r.holds.Keys == ss.holds.Keys;
  }

  lemma AddLinkSpaceOk(ss: SpaceState, att: Att, episode: Episode)
    requires SpaceOk(ss) && Ready(ss) && ss.Data().mode == Active && att in ss.holds
    requires episode !in Episodes(ss.holds[att].data.links) && |ss.holds[att].data.links| < MAX_LINKS
    ensures SpaceOk(AddLink(ss, att, episode))
  {
    hide RowsOk, ControlOk, EpisodeCatalog.Progress, AddLink;
    AddLinkOk(ss, att, episode);
    AddLinkControl(ss, att, episode);
    AtRest(AddLink(ss, att, episode));
  }

  lemma ClearPriorOk(ss: SpaceState)
    requires SpaceOk(ss) && ss.control.Some? && ss.Data().prior.Some? && ResultKeys(ss, ss.Data().prior.value) == {}
    ensures SpaceOk(ClearPrior(ss))
  {
    var c := ss.Data().(prior := None);
    forall k | k in ss.results ensures c.operation == Some(k.0) {
      assert ss.Data().prior == Some(k.0) ==> k.1 in ResultKeys(ss, k.0);
    }
    SameProgress(ss, c);
    BumpOk(ss.With(c));
  }

  lemma CollectedOk(ss: SpaceState, last: SortKey)
    requires SpaceOk(ss) && ss.control.Some? && Releasing(ss.Data()) && ss.Data().phase == Gc
    ensures SpaceOk(Collected(ss, last))
  {
    var c := ss.Data().(cursor := Some(last));
    SameProgress(ss, c);
    BumpOk(ss.With(c));
  }

  lemma FinishOk(ss: SpaceState)
    requires SpaceOk(ss) && ss.control.Some? && ss.Data().phase == Gc && Releasing(ss.Data())
    ensures SpaceOk(Finish(ss))
  {
    var c := FRESH_CONTROL.(count := ss.Data().count, version := 1, operation := ss.Data().operation);
    SameProgress(ss, c);
    BumpOk(ss.With(c));
  }

  lemma CreatedOk(ss: SpaceState)
    requires SpaceOk(ss) && ss.control.None?
    ensures SpaceOk(ss.(control := Some(Row(1, FRESH_CONTROL.(version := 1)))))
  {
    var r := ss.(control := Some(Row(1, FRESH_CONTROL.(version := 1))));
    forall a: Att ensures ColumnExact(r.index, a, Now(r.holds, a), Covered(r.holds, CoverageOf(r.Data()), a)) {}
  }

  // ----- Catalog steps that stay inside their space -----

  predicate IsLocal(a: CatalogAction) { !a.Join? && !a.Publish? && !a.Remove? && !a.Collect? }

  /** The space a catalog transaction writes. */
  function Where(s: Sys, a: CatalogAction): Space
  {
    match a
    case CreateControl(sp) => sp
    case StartMigration(sp) => sp
    case Join(sp, _) => sp
    case AddEpisode(sp, _, _) => sp
    case Begin(sp, _, _) => sp
    case Publish(g, _) => if g in s.life.uploaders then s.life.uploaders[g].space else 0
    case _ => if a.w in s.watchers then s.watchers[a.w].space else 0
  }

  ghost function LocalNext(s: Sys, a: CatalogAction): SpaceState
    requires IsLocal(a) && CatalogEnabled(s, a)
  {
    CatalogApply(s, a).At(Where(s, a))
  }

  lemma LocalShape(s: Sys, a: CatalogAction)
    requires IsLocal(a) && CatalogEnabled(s, a)
    ensures CatalogApply(s, a) == s.Put(Where(s, a), LocalNext(s, a))
  {}

  lemma LocalSpaceOk(s: Sys, a: CatalogAction)
    requires IsLocal(a) && CatalogEnabled(s, a) && SpacesOk(s.spaces) && WatchersOk(s)
    ensures SpaceOk(LocalNext(s, a))
  {
    hide RowsOk, ControlOk, EpisodeCatalog.Progress;
    var ss := s.At(Where(s, a));
    SpaceIsOk(s, Where(s, a));
    match a {
      case CreateControl(_) => CreatedOk(ss);
      case StartMigration(_) => BeginMigrationOk(ss);
      case Migrate(w, rows) =>
        SeenStands(s, w, SawHolds(ss.Data().after, rows));
        MigratePageOk(ss, rows);
      case AddEpisode(_, att, episode) => ActiveOk(ss); AddLinkSpaceOk(ss, att, episode);
      case Begin(_, episode, op) => ActiveOk(ss); StartReleaseOk(ss, episode, op);
      case Prune(w, op, keys) => assert WatcherOk(s.Of(w), s.watchers[w]); PruneRowsOk(ss, op, keys);
      case Pruned(w) =>
        SeenStands(s, w, SawResults(ss.Data().prior.value, None, []));
        ClearPriorOk(ss);
      case Removed(w) => LastCandidate(s, w); EnterGcOk(ss);
      case End(w) => FinishOk(ss);
    }
  }

  lemma LastCandidate(s: Sys, w: nat)
    requires WatchersOk(s) && HoldsPhase(s, w) && SawCandidates(s, w, [])
    ensures forall k :: k in CandidateKeys(s.Of(w)) ==> !Beyond(CursorAtt(s.Of(w).Data()), k)
  {
    var c := s.Of(w).Data();
    if c.mode == Release {
      var rows :| [] == AsCandidates(rows) && SawHolds(CursorAtt(c), rows) in s.watchers[w].seen;
      SeenStands(s, w, SawHolds(CursorAtt(c), rows));
      assert Ids(rows) == [];
    } else {
      SeenStands(s, w, SawLinks(c.episode, CursorAtt(c), []));
      assert Atts([]) == [];
    }
  }

  lemma PagedMoves(s: Sys, a: CatalogAction)
    requires (a.Migrate? || a.Prune?) && CatalogEnabled(s, a) && SpaceOk(s.At(Where(s, a))) && WatchersOk(s)
    ensures SpaceMoves(s.At(Where(s, a)), LocalNext(s, a)) && SameHeld(s.At(Where(s, a)), LocalNext(s, a))
  {
    hide SpaceOk;
    if a.Prune? {
      assert WatcherOk(s.Of(a.w), s.watchers[a.w]);
    } else if a.holdPage != [] {
      IndexPageControl(s.Of(a.w), a.holdPage, TRANSACTION_ROWS);
    }
  }

  lemma LocalMoves(s: Sys, a: CatalogAction)
    requires IsLocal(a) && CatalogEnabled(s, a) && SpaceOk(s.At(Where(s, a))) && WatchersOk(s)
    ensures SpaceMoves(s.At(Where(s, a)), LocalNext(s, a)) && SameHeld(s.At(Where(s, a)), LocalNext(s, a))
  {
    hide RowsOk, EpisodeCatalog.Progress, WatcherOk, Shows, SawCandidates;
    if a.Migrate? || a.Prune? { PagedMoves(s, a); }
  }

  lemma LocalDoomed(s: Sys, a: CatalogAction)
    requires IsLocal(a) && CatalogEnabled(s, a) && Inv(s)
    ensures ResultsDoomed(Where(s, a), LocalNext(s, a), s.life)
  {
    hide RowsOk, EpisodeCatalog.Progress, LifeOk, RootsExact, Doom, WatchersOk, SawCandidates, SpaceShows;
    var ss, y := s.At(Where(s, a)), LocalNext(s, a);
    SpaceIsOk(s, Where(s, a));
    assert ResultsDoomed(Where(s, a), ss, s.life);
    match a {
      case Migrate(w, rows) => if rows != [] { IndexPageControl(ss, rows, TRANSACTION_ROWS); }
      case End(w) => EverythingCollected(s, w);
      case _ =>
    }
  }

  /** The last page of results is empty only when all of them lie behind the cursor. */
  lemma EverythingCollected(s: Sys, w: nat)
    requires CatalogEnabled(s, End(w)) && WatchersOk(s)
    ensures forall k :: k in s.Of(w).results && s.Of(w).Data().operation == Some(k.0) ==> Settled(s.Of(w).Data(), k)
  {
    var ss := s.Of(w);
    SeenStands(s, w, SawResults(ss.Data().operation.value, ss.Data().cursor, []));
    forall k | k in ss.results && ss.Data().operation == Some(k.0) ensures Settled(ss.Data(), k) {
      assert k.1 in ResultKeys(ss, k.0);
    }
  }

  lemma LocalInv(s: Sys, a: CatalogAction)
    requires IsLocal(a) && CatalogEnabled(s, a) && Inv(s)
    ensures Inv(CatalogApply(s, a))
  {
    hide SpaceOk, WatcherOk, LifeOk, RootExact, SpaceMoves, SameHeld, ResultsDoomed, CatalogEnabled, CatalogApply;
    SpaceIsOk(s, Where(s, a));
    LocalShape(s, a);
    LocalSpaceOk(s, a);
    LocalMoves(s, a);
    LocalDoomed(s, a);
    LocalStep(s, Where(s, a), LocalNext(s, a));
  }

  // ----- Catalog steps that change roots and intents -----

  /** Everything but the watchers. */
  ghost predicate Core(s: Sys)
  {
    SpacesOk(s.spaces) && RootsExact(s.spaces, s.life.roots) && LifeOk(s.life) && AllDoomed(s.spaces, s.life)
  }

  /** A generation is for one attachment, always. */
  ghost predicate KeepsNames(l: Life, m: Life) { forall g: Gen :: g in l.gens ==> Lookup(m.gens, g) == Lookup(l.gens, g) }

  ghost predicate KeepsDoom(l: Life, m: Life)
  {
    && KeepsNames(l, m)
    && forall sp: Space, g: Gen :: Doom(l, sp, g) ==> Doom(m, sp, g) && ((sp, g) !in l.intents ==> (sp, g) !in m.intents)
  }

  lemma DoomedStays(sp: Space, ss: SpaceState, l: Life, m: Life)
    requires ResultsDoomed(sp, ss, l) && KeepsDoom(l, m)
    ensures ResultsDoomed(sp, ss, m)
  {
    hide Doom;
    forall k | k in ss.results && ss.results[k].generation.Some?
      ensures var g := ss.results[k].generation.value;
        Doom(m, sp, g) && Lookup(m.gens, g) == Some(k.1.att) && (Settled(ss.Data(), k) ==> (sp, g) !in m.intents)
    {
      assert Doom(l, sp, ss.results[k].generation.value);
    }
  }

  lemma SharedStep(s: Sys, sp: Space, y: SpaceState, m: Life)
    requires Core(s) && SpaceOk(y) && RootsExact(s.Put(sp, y).spaces, m.roots) && LifeOk(m)
    requires KeepsDoom(s.life, m) && ResultsDoomed(sp, y, m)
    ensures Core(s.Put(sp, y).(life := m))
  {
    hide SpaceOk, LifeOk, RootExact, ResultsDoomed, KeepsDoom;
    forall other | other in s.spaces ensures ResultsDoomed(other, s.spaces[other], m) {
      DoomedStays(other, s.spaces[other], s.life, m);
    }
  }

  lemma MoreHolders(spaces: map<Space, SpaceState>, sp: Space, y: SpaceState, att: Att)
    requires sp in spaces && y.holds.Keys == spaces[sp].holds.Keys + {att} && att !in spaces[sp].holds
    ensures Holders(spaces[sp := y], att) == Holders(spaces, att) + {sp} && sp !in Holders(spaces, att)
    ensures forall b: Att :: b != att ==> Holders(spaces[sp := y], b) == Holders(spaces, b)
  {
    forall b: Att ensures b != att ==> Holders(spaces[sp := y], b) == Holders(spaces, b) {
      assert b in y.holds.Keys <==> b in spaces[sp].holds.Keys || b == att;
    }
    assert att in y.holds.Keys;
  }

  lemma FewerHolders(spaces: map<Space, SpaceState>, sp: Space, y: SpaceState, att: Att)
    requires sp in spaces && y.holds.Keys == spaces[sp].holds.Keys - {att} && att in spaces[sp].holds
    ensures Holders(spaces[sp := y], att) == Holders(spaces, att) - {sp} && sp in Holders(spaces, att)
    ensures forall b: Att :: b != att ==> Holders(spaces[sp := y], b) == Holders(spaces, b)
  {
    forall b: Att ensures b != att ==> Holders(spaces[sp := y], b) == Holders(spaces, b) {
      assert b in y.holds.Keys <==> b in spaces[sp].holds.Keys && b != att;
    }
    assert att !in y.holds.Keys;
  }

  lemma AddHoldRoots(spaces: map<Space, SpaceState>, roots: map<Att, Row<Root>>, sp: Space, attachment: Attachment, root: Row<Root>)
    requires RootsExact(spaces, roots) && sp in spaces && spaces[sp].control.Some? && attachment.id !in spaces[sp].holds
    requires if attachment.id in roots then
        root.data.generation == roots[attachment.id].data.generation && root.data.holds == roots[attachment.id].data.holds + 1
      else root.data.holds == 1
    ensures RootsExact(spaces[sp := AddHold(spaces[sp], attachment, root.data.generation)], roots[attachment.id := root])
  {
    var att, y := attachment.id, AddHold(spaces[sp], attachment, root.data.generation);
    var n, next := spaces[sp := y], roots[att := root];
    MoreHolders(spaces, sp, y, att);
    forall b: Att ensures RootExact(n, next, b) {
      assert RootExact(spaces, roots, b);
      if b == att { assert RootExact(spaces, roots, att); }
    }
  }

  lemma DropHoldRoots(spaces: map<Space, SpaceState>, roots: map<Att, Row<Root>>, sp: Space, y: SpaceState, att: Att, root: Row<Root>)
    requires RootsExact(spaces, roots) && sp in spaces && att in spaces[sp].holds && y.holds == spaces[sp].holds - {att}
    requires att in roots && root.data.generation == roots[att].data.generation && root.data.holds == roots[att].data.holds - 1
    ensures if roots[att].data.holds == 1 then RootsExact(spaces[sp := y], roots - {att})
      else RootsExact(spaces[sp := y], roots[att := root])
  {
    var n, next := spaces[sp := y], if roots[att].data.holds == 1 then roots - {att} else roots[att := root];
    hide Holders;
    FewerHolders(spaces, sp, y, att);
    assert RootExact(spaces, roots, att);
    HolderLeaves(Holders(spaces, att), sp);
    forall b: Att ensures RootExact(n, next, b) {
      assert RootExact(spaces, roots, b);
      if b == att { SameGenerations(spaces, sp, y, att); } else { SameGenerations(spaces, sp, y, b); }
    }
  }

  lemma HolderLeaves(holders: set<Space>, sp: Space)
    requires sp in holders
    ensures |holders - {sp}| == |holders| - 1 && (|holders| == 1 <==> holders - {sp} == {})
  {}

  lemma SameGenerations(spaces: map<Space, SpaceState>, sp: Space, y: SpaceState, b: Att)
    requires sp in spaces && y.holds.Keys <= spaces[sp].holds.Keys && forall a :: a in y.holds ==> y.holds[a] == spaces[sp].holds[a]
    ensures forall other :: other in Holders(spaces[sp := y], b) ==>
      other in Holders(spaces, b) && spaces[sp := y][other].holds[b] == spaces[other].holds[b]
  {}

  lemma RecountDoom(l: Life, m: Life)
    requires forall g: Gen :: SameGen(l, m, g) && (Published(l, g) <==> Published(m, g))
    ensures KeepsDoom(l, m)
  {
    hide Doom, Published;
    assert KeepsNames(l, m) by { assert forall g: Gen :: SameGen(l, m, g) ==> Lookup(m.gens, g) == Lookup(l.gens, g); }
    forall sp: Space, g: Gen | Doom(l, sp, g)
      ensures Doom(m, sp, g) && ((sp, g) !in l.intents ==> (sp, g) !in m.intents)
    {
      SameDoom(l, m, sp, g);
    }
  }

  /** A generation that was published, or was being uploaded, was nobody's finished release. */
  lemma OtherDoom(l: Life, m: Life, g: Gen)
    requires forall h: Gen :: h != g ==> SameGen(l, m, h) && (Published(l, h) <==> Published(m, h))
    requires (Published(l, g) || g in l.uploaders) && Lookup(m.gens, g) == Lookup(l.gens, g)
    ensures KeepsDoom(l, m)
  {
    forall h: Gen | h in l.gens ensures Lookup(m.gens, h) == Lookup(l.gens, h) { if h != g { assert SameGen(l, m, h); } }
    hide SameGen;
    forall sp: Space, h: Gen | Doom(l, sp, h)
      ensures Doom(m, sp, h) && ((sp, h) !in l.intents ==> (sp, h) !in m.intents)
    {
      SameDoom(l, m, sp, h);
    }
  }

  lemma KnownSpace(s: Sys, sp: Space)
    requires s.At(sp).control.Some?
    ensures sp in s.spaces && s.spaces[sp] == s.At(sp)
  {}

  lemma JoinCore(s: Sys, sp: Space, attachment: Attachment)
    requires Core(s) && CatalogEnabled(s, Join(sp, attachment))
    ensures Core(CatalogApply(s, Join(sp, attachment)))
  {
    hide SpaceOk, LifeOk, RootsExact, KeepsDoom, SameGen, Published, Doom;
    KnownSpace(s, sp);
    var ss, root := s.At(sp), s.life.roots[attachment.id];
    var next := Row(root.rev + 1, root.data.(holds := root.data.holds + 1));
    var m := s.life.(roots := s.life.roots[attachment.id := next]);
    ActiveOk(ss);
    AddHoldSpaceOk(ss, attachment, root.data.generation);
    AddHoldRoots(s.spaces, s.life.roots, sp, attachment, next);
    assert m.roots.Keys == s.life.roots.Keys;
    RecountOk(s.life, m);
    RecountDoom(s.life, m);
    assert ResultsDoomed(sp, ss, s.life);
    DoomedStays(sp, ss, s.life, m);
    SharedStep(s, sp, AddHold(ss, attachment, root.data.generation), m);
  }

  lemma PublishCore(s: Sys, g: Gen, attachment: Attachment)
    requires Core(s) && CatalogEnabled(s, CatalogAction.Publish(g, attachment))
    ensures Core(CatalogApply(s, CatalogAction.Publish(g, attachment)))
  {
    hide SpaceOk, LifeOk, RootsExact, KeepsDoom, SameGen, Published, Doom;
    var sp, row := s.life.uploaders[g].space, s.life.uploaders[g].stage.upload.value;
    KnownSpace(s, sp);
    var ss, m := s.At(sp), PublishLife(s.life, g, sp, row.data.version);
    ActiveOk(ss);
    AddHoldSpaceOk(ss, attachment, g);
    AddHoldRoots(s.spaces, s.life.roots, sp, attachment, Row(1, Root(g, row.data.version, 1)));
    PublishOk(s.life, g, sp, row.data.version);
    OtherDoom(s.life, m, g);
    assert ResultsDoomed(sp, ss, s.life);
    DoomedStays(sp, ss, s.life, m);
    SharedStep(s, sp, AddHold(ss, attachment, g), m);
  }

  lemma {:induction false} RunCovers(keys: set<SortKey>, cursor: Option<SortKey>, ids: seq<SortKey>, k: SortKey)
    requires IsKeyRun(keys, cursor, ids) && ids != [] && k in keys
    requires BeyondKey(cursor, k) && !BeyondKey(Some(ids[|ids| - 1]), k)
    ensures k in ids
    decreases |ids|
  {
    if k != ids[0] {
      if |ids| > 1 { RunCovers(keys, Some(ids[0]), ids[1..], k); }
    }
  }

  lemma CollectCore(s: Sys, w: nat, batch: seq<SortKey>)
    requires Inv(s) && CatalogEnabled(s, Collect(w, batch))
    ensures Core(CatalogApply(s, Collect(w, batch)))
  {
    hide SpaceOk, LifeOk, RootExact, KeepsDoom, SameGen, Published, Doom, WatchersOk, Swept;
    var sp, ss := s.watchers[w].space, s.Of(w);
    KnownSpace(s, sp);
    var gens := DoomedOf(ss, batch);
    var y, m := Collected(ss, batch[|batch| - 1]), CollectLife(s.life, sp, gens);
    CollectedOk(ss, batch[|batch| - 1]);
    CollectOk(s.life, sp, gens);
    SameRoots(s.spaces, s.life.roots, sp, y);
    CollectKeepsDoom(s.life, sp, gens);
    CollectDoomed(s, w, batch);
    SharedStep(s, sp, y, m);
  }

  lemma CollectKeepsDoom(l: Life, sp: Space, gens: set<Gen>)
    ensures KeepsDoom(l, CollectLife(l, sp, gens))
  {
    hide Doom;
    forall other: Space, g: Gen | Doom(l, other, g)
      ensures Doom(CollectLife(l, sp, gens), other, g)
      ensures (other, g) !in l.intents ==> (other, g) !in CollectLife(l, sp, gens).intents
    {
      CollectDoom(l, sp, gens, other, g);
    }
  }

  /** The keys of the page a collection works on, as they still are. */
  lemma SeenPage(s: Sys, w: nat, page: seq<SortKey>)
    requires WatchersOk(s) && GcPhase(s, w) && SawPage(s, w, page)
    ensures IsKeyPage(ResultKeys(s.Of(w), s.Of(w).Data().operation.value), s.Of(w).Data().cursor, page)
  {
    hide IsKeyPage;
    var rows :| page == Keys(rows) && |rows| <= TRANSACTION_ROWS
      && SawResults(s.Of(w).Data().operation.value, s.Of(w).Data().cursor, rows) in s.watchers[w].seen;
    SeenStands(s, w, SawResults(s.Of(w).Data().operation.value, s.Of(w).Data().cursor, rows));
  }

  lemma CollectDoomed(s: Sys, w: nat, batch: seq<SortKey>)
    requires Inv(s) && CatalogEnabled(s, Collect(w, batch))
    ensures var ss := s.Of(w);
      ResultsDoomed(s.watchers[w].space, Collected(ss, batch[|batch| - 1]), CollectLife(s.life, s.watchers[w].space, DoomedOf(ss, batch)))
  {
    hide SpaceOk, LifeOk, RootsExact, Doom, WatchersOk, Swept;
    var sp, ss := s.watchers[w].space, s.Of(w);
    KnownSpace(s, sp);
    var op, y, m := ss.Data().operation.value, Collected(ss, batch[|batch| - 1]), CollectLife(s.life, sp, DoomedOf(ss, batch));
    SeenPage(s, w, batch);
    assert ResultsDoomed(sp, ss, s.life);
    forall k | k in y.results && y.results[k].generation.Some?
      ensures var g := y.results[k].generation.value;
        Doom(m, sp, g) && Lookup(m.gens, g) == Some(k.1.att) && (Settled(y.Data(), k) ==> (sp, g) !in m.intents)
    {
      var g := y.results[k].generation.value;
      CollectDoom(s.life, sp, DoomedOf(ss, batch), sp, g);
      if Settled(y.Data(), k) && !Settled(ss.Data(), k) {
        assert k.1 in ResultKeys(ss, op);
        RunCovers(ResultKeys(ss, op), ss.Data().cursor, batch, k.1);
        assert Doomed(ss, k.1) == Some(g);
      }
    }
  }

  // ----- A release transaction -----

  /** The sequence a candidate row carries. */
  function RowSequence(ss: SpaceState, att: Att): nat
  {
    var key := (ss.Data().episode, att);
    if ss.Data().mode != Release && key in ss.index then ss.index[key].sequence else 0
  }

  ghost predicate CandidateRun(ss: SpaceState, page: seq<LinkRow>)
  {
    && IsRun(CandidateKeys(ss), CursorAtt(ss.Data()), Atts(page))
    && forall i :: 0 <= i < |page| ==> page[i].att in CandidateKeys(ss) && page[i].link.sequence == RowSequence(ss, page[i].att)
  }

  lemma IsRemovable(s: Sys, sp: Space, att: Att)
    requires Core(s) && InHolds(s.At(sp)) && att in s.At(sp).holds
    ensures Removable(s, sp, att)
  {
    hide SpaceOk, LifeOk, AllDoomed;
    KnownSpace(s, sp);
    assert RootExact(s.spaces, s.life.roots, att) && sp in Holders(s.spaces, att);
    GiveUpOk(s.life, sp, att);
    assert SpaceOk(s.spaces[sp]) && att in s.spaces[sp].holds.Keys;
    HeldCount(s.spaces[sp], att);
  }

  lemma HeldCount(ss: SpaceState, att: Att)
    requires SpaceOk(ss) && att in ss.holds
    ensures ss.Data().count >= 1
  {
    assert att in ss.holds.Keys;
  }

  function GoneFrom(s: Sys, sp: Space, att: Att, room: nat): set<Episode>
    requires Removable(s, sp, att) && room >= 5
  {
    Taken(s.At(sp).Data(), s.At(sp).holds[att].data, room)
  }

  /** The result row a dropped hold leaves. */
  function ResultOf(s: Sys, sp: Space, att: Att): Result
    requires Removable(s, sp, att)
  {
    var root := s.life.roots[att].data;
    Result(s.At(sp).Data().mode == Unlink || root.holds == 1, if root.holds == 1 then Some(root.generation) else None)
  }

  function NextSpace(s: Sys, sp: Space, att: Att, sequence: nat, room: nat): SpaceState
    requires Removable(s, sp, att) && room >= 5
  {
    ReleaseHold(s.At(sp), att, sequence, GoneFrom(s, sp, att, room), ResultOf(s, sp, att))
  }

  function RemoveLife(s: Sys, sp: Space, att: Att, room: nat): Life
    requires Removable(s, sp, att) && room >= 5
  {
    var root := s.life.roots[att];
    if Without(s.At(sp).holds[att].data.links, GoneFrom(s, sp, att, room)) != [] then s.life
    else if root.data.holds == 1 then GiveUpLife(s.life, sp, att)
    else s.life.(roots := s.life.roots[att := Row(root.rev + 1, root.data.(holds := root.data.holds - 1))])
  }

  lemma RemoveOneShape(s: Sys, sp: Space, att: Att, sequence: nat, room: nat)
    requires Removable(s, sp, att) && room >= 5
    ensures RemoveOne(s, sp, att, sequence, room) ==
      s.Put(sp, NextSpace(s, sp, att, sequence, room)).(life := RemoveLife(s, sp, att, room))
  {}

  lemma RemoveLifeOk(s: Sys, sp: Space, att: Att, room: nat)
    requires Core(s) && Removable(s, sp, att) && room >= 5
    ensures LifeOk(RemoveLife(s, sp, att, room)) && KeepsDoom(s.life, RemoveLife(s, sp, att, room))
  {
    hide LifeOk, KeepsDoom, SameGen, RootsExact, AllDoomed, SpacesOk;
    var m := RemoveLife(s, sp, att, room);
    if Without(s.At(sp).holds[att].data.links, GoneFrom(s, sp, att, room)) != [] {
      SameKeepsDoom(s.life);
    } else if s.life.roots[att].data.holds == 1 {
      GiveUpOk(s.life, sp, att);
      OtherDoom(s.life, m, s.life.roots[att].data.generation);
    } else {
      assert m.roots.Keys == s.life.roots.Keys;
      RecountOk(s.life, m);
      RecountDoom(s.life, m);
    }
  }

  lemma SameKeepsDoom(l: Life)
    ensures KeepsDoom(l, l)
  {}

  lemma RemoveRootsOk(s: Sys, sp: Space, att: Att, sequence: nat, room: nat)
    requires Core(s) && Removable(s, sp, att) && room >= 5
    ensures RootsExact(s.Put(sp, NextSpace(s, sp, att, sequence, room)).spaces, RemoveLife(s, sp, att, room).roots)
  {
    hide LifeOk, RootsExact, AllDoomed, SpacesOk;
    KnownSpace(s, sp);
    var y, root := NextSpace(s, sp, att, sequence, room), s.life.roots[att];
    if Without(s.At(sp).holds[att].data.links, GoneFrom(s, sp, att, room)) == [] {
      DropHoldRoots(s.spaces, s.life.roots, sp, y, att, Row(root.rev + 1, root.data.(holds := root.data.holds - 1)));
    } else {
      assert y.holds.Keys == s.At(sp).holds.Keys;
      SameRoots(s.spaces, s.life.roots, sp, y);
    }
  }

  lemma RemoveResultsOk(s: Sys, sp: Space, att: Att, sequence: nat, room: nat)
    requires Core(s) && InHolds(s.At(sp)) && Removable(s, sp, att) && room >= 5
    ensures ResultsDoomed(sp, NextSpace(s, sp, att, sequence, room), RemoveLife(s, sp, att, room))
  {
    hide LifeOk, RootsExact, SpacesOk, SameGen, Published;
    KnownSpace(s, sp);
    RemoveLifeOk(s, sp, att, room);
    var m := RemoveLife(s, sp, att, room);
    assert ResultsDoomed(sp, s.At(sp), s.life);
    DoomedStays(sp, s.At(sp), s.life, m);
    if Without(s.At(sp).holds[att].data.links, GoneFrom(s, sp, att, room)) == [] && s.life.roots[att].data.holds == 1 {
      GiveUpDoom(s.life, sp, att);
    }
  }

  lemma GiveUpDoom(l: Life, sp: Space, att: Att)
    requires LifeOk(l) && att in l.roots
    ensures Doom(GiveUpLife(l, sp, att), sp, l.roots[att].data.generation)
    ensures Lookup(l.gens, l.roots[att].data.generation) == Some(att)
  {
    GiveUpOk(l, sp, att);
    assert GenOk(l, l.roots[att].data.generation);
  }

  lemma RemoveOneCore(s: Sys, sp: Space, page: seq<LinkRow>, room: nat)
    requires Core(s) && InHolds(s.At(sp)) && page != [] && CandidateRun(s.At(sp), page) && room >= 5
    ensures Removable(s, sp, page[0].att)
    ensures var n := RemoveOne(s, sp, page[0].att, page[0].link.sequence, room);
      Core(n) && InHolds(n.At(sp)) && n.watchers == s.watchers && n.At(sp) == NextSpace(s, sp, page[0].att, page[0].link.sequence, room)
  {
    hide SpaceOk, LifeOk, RootsExact, AllDoomed, KeepsDoom, ResultsDoomed;
    var att, sequence := page[0].att, page[0].link.sequence;
    KnownSpace(s, sp);
    assert att == Atts(page)[0] && SpaceOk(s.At(sp));
    Candidate(s.At(sp), att);
    IsRemovable(s, sp, att);
    ReleaseHoldOk(s.At(sp), att, sequence, GoneFrom(s, sp, att, room), room, ResultOf(s, sp, att));
    RemoveLifeOk(s, sp, att, room);
    RemoveRootsOk(s, sp, att, sequence, room);
    RemoveResultsOk(s, sp, att, sequence, room);
    RemoveOneShape(s, sp, att, sequence, room);
    SharedStep(s, sp, NextSpace(s, sp, att, sequence, room), RemoveLife(s, sp, att, room));
  }

  /** Once a candidate is done with, the rest of the page follows the new cursor. */
  lemma NextRun(s: Sys, sp: Space, page: seq<LinkRow>, room: nat)
    requires Core(s) && InHolds(s.At(sp)) && page != [] && CandidateRun(s.At(sp), page) && room >= 5
    requires Removable(s, sp, page[0].att)
    requires var y := NextSpace(s, sp, page[0].att, page[0].link.sequence, room);
      !(s.At(sp).Data().mode == Release && page[0].att in y.holds)
    ensures CandidateRun(NextSpace(s, sp, page[0].att, page[0].link.sequence, room), page[1..])
  {
    hide LifeOk, RootsExact, AllDoomed, RowsOk, ControlOk, EpisodeCatalog.Progress;
    KnownSpace(s, sp);
    var att, y := page[0].att, NextSpace(s, sp, page[0].att, page[0].link.sequence, room);
    var ss := s.At(sp);
    Candidate(ss, att);
    NextKeys(ss, att, page[0].link.sequence, GoneFrom(s, sp, att, room), ResultOf(s, sp, att), room);
    assert Atts(page[1..]) == Atts(page)[1..];
    ShorterRun(CandidateKeys(ss), CursorAtt(ss.Data()), Atts(page));
    forall i | 0 <= i < |page| - 1
      ensures page[1..][i].att in CandidateKeys(y) && page[1..][i].link.sequence == RowSequence(y, page[1..][i].att)
    {
      RunSorted(CandidateKeys(ss), CursorAtt(ss.Data()), Atts(page), 0, i + 1);
      assert Atts(page)[i + 1] == page[i + 1].att && page[i + 1].att in CandidateKeys(ss);
    }
  }

  lemma ShorterRun(keys: set<Att>, after: Option<Att>, ids: seq<Att>)
    requires IsRun(keys, after, ids) && ids != []
    ensures IsRun(keys - {ids[0]}, Some(ids[0]), ids[1..])
  {
    forall i | 0 < i < |ids| ensures IsNext(keys - {ids[0]}, Some(ids[i - 1]), ids[i]) {
      RunSorted(keys, after, ids, 0, i);
    }
  }

  lemma NextKeys(ss: SpaceState, att: Att, sequence: nat, gone: set<Episode>, result: Result, room: nat)
    requires InHolds(ss) && att in ss.holds && ss.Data().count >= 1 && room >= 5
    requires gone == Taken(ss.Data(), ss.holds[att].data, room)
    requires ss.Data().mode == Unlink ==> ss.Data().episode in Episodes(ss.holds[att].data.links)
    requires !(ss.Data().mode == Release && att in ReleaseHold(ss, att, sequence, gone, result).holds)
    ensures var y := ReleaseHold(ss, att, sequence, gone, result);
      && CandidateKeys(y) == CandidateKeys(ss) - {att} && CursorAtt(y.Data()) == Some(att)
      && y.Data().mode == ss.Data().mode && y.Data().episode == ss.Data().episode
      && forall k :: k in ss.index && k.1 != att ==> k in y.index && y.index[k] == ss.index[k]
  {
    var y, ep := ReleaseHold(ss, att, sequence, gone, result), ss.Data().episode;
    if ss.Data().mode == Unlink {
      forall a: Att ensures a in EpisodeAtts(y.index, ep) <==> a in EpisodeAtts(ss.index, ep) && a != att {
        assert a in EpisodeAtts(y.index, ep) <==> (ep, a) in y.index;
        assert a in EpisodeAtts(ss.index, ep) <==> (ep, a) in ss.index;
      }
    }
  }

  lemma {:induction false} RemoveAllCore(s: Sys, sp: Space, page: seq<LinkRow>, room: nat)
    requires Core(s) && InHolds(s.At(sp)) && CandidateRun(s.At(sp), page)
    ensures RemoveAll(s, sp, page, room).Some?
    ensures var n := RemoveAll(s, sp, page, room).value; Core(n) && InHolds(n.At(sp)) && n.watchers == s.watchers
    ensures var n := RemoveAll(s, sp, page, room).value;
      n.At(sp).Rev() == s.At(sp).Rev() && n.At(sp).ops == s.At(sp).ops && n.At(sp).Data().operation == s.At(sp).Data().operation
      && forall other :: other != sp ==> n.At(other) == s.At(other)
    decreases |page|
  {
    hide Core, CandidateRun, Removable, RemoveOne, Cost, InHolds;
    if page != [] && room >= 5 {
      RemoveOneCore(s, sp, page, room);
      var att := page[0].att;
      var n := RemoveOne(s, sp, att, page[0].link.sequence, room);
      RemoveOneFrame(s, sp, att, page[0].link.sequence, room);
      if !(s.At(sp).Data().mode == Release && att in n.At(sp).holds) {
        NextRun(s, sp, page, room);
        RemoveAllCore(n, sp, page[1..], if Cost(s, sp, att, room) > room then 0 else room - Cost(s, sp, att, room));
      }
    }
  }

  lemma RemoveOneFrame(s: Sys, sp: Space, att: Att, sequence: nat, room: nat)
    requires Removable(s, sp, att) && room >= 5
    ensures var n := RemoveOne(s, sp, att, sequence, room);
      n.At(sp).Rev() == s.At(sp).Rev() && n.At(sp).ops == s.At(sp).ops && n.At(sp).Data().operation == s.At(sp).Data().operation
      && forall other :: other != sp ==> n.At(other) == s.At(other)
  {}

  /** The page a release helper read is what the transaction finds. */
  lemma SeenCandidates(s: Sys, w: nat, page: seq<LinkRow>)
    requires WatchersOk(s) && HoldsPhase(s, w) && SawCandidates(s, w, page)
    ensures CandidateRun(s.Of(w), page)
  {
    var ss := s.Of(w);
    var c := ss.Data();
    if c.mode == Release {
      var rows :| page == AsCandidates(rows) && SawHolds(CursorAtt(c), rows) in s.watchers[w].seen;
      SeenStands(s, w, SawHolds(CursorAtt(c), rows));
      assert Atts(page) == Ids(rows);
      forall i | 0 <= i < |page| ensures page[i].att in CandidateKeys(ss) { assert Ids(rows)[i] in ss.holds; }
    } else {
      SeenStands(s, w, SawLinks(c.episode, CursorAtt(c), page));
      forall i | 0 <= i < |page|
        ensures page[i].att in CandidateKeys(ss) && page[i].link.sequence == RowSequence(ss, page[i].att)
      {
        assert Lookup(ss.index, (c.episode, page[i].att)) == Some(page[i].link);
        assert (c.episode, page[i].att) in ss.index;
      }
    }
  }

  lemma CommitCore(s: Sys, sp: Space)
    requires Core(s) && s.At(sp).control.Some?
    ensures Core(Commit(s, sp))
  {
    hide SpaceOk, LifeOk, RootsExact;
    KnownSpace(s, sp);
    BumpOk(s.At(sp));
    SameRoots(s.spaces, s.life.roots, sp, s.At(sp).Bump());
  }

  lemma RemoveInv(s: Sys, w: nat, page: seq<LinkRow>)
    requires Inv(s) && CatalogEnabled(s, Remove(w, page))
    ensures Inv(CatalogApply(s, Remove(w, page)))
  {
    hide SpaceOk, LifeOk, RootsExact, AllDoomed, WatcherOk, CandidateRun, RemoveAll, SawCandidates;
    var sp := s.watchers[w].space;
    SeenCandidates(s, w, page);
    RemoveAllCore(s, sp, page, TRANSACTION_ROWS);
    var n := RemoveAll(s, sp, page, TRANSACTION_ROWS).value;
    CommitCore(n, sp);
    var r := Commit(n, sp);
    forall v | v in r.watchers ensures WatcherOk(r.Of(v), r.watchers[v]) {
      assert WatcherOk(s.Of(v), s.watchers[v]);
      if s.watchers[v].space == sp { WatcherMoves(s.At(sp), r.At(sp), s.watchers[v]); }
    }
  }

  lemma SharedInv(s: Sys, a: CatalogAction)
    requires Inv(s) && CatalogEnabled(s, a) && (a.Join? || a.Publish? || a.Collect?)
    ensures Inv(CatalogApply(s, a))
  {
    hide SpaceOk, LifeOk, RootsExact, AllDoomed, WatcherOk;
    match a {
      case Join(sp, attachment) => JoinCore(s, sp, attachment);
      case Publish(g, attachment) => PublishCore(s, g, attachment);
      case Collect(w, batch) => CollectCore(s, w, batch);
    }
    var n, sp := CatalogApply(s, a), Where(s, a);
    assert n == s.Put(sp, n.At(sp)).(life := n.life);
    OtherWatchers(s, sp, n.At(sp), n.life);
  }

  lemma CatalogInv(s: Sys, a: CatalogAction)
    requires Inv(s) && CatalogEnabled(s, a)
    ensures Inv(CatalogApply(s, a))
  {
    hide Inv, CatalogEnabled, CatalogApply;
    if IsLocal(a) { LocalInv(s, a); }
    else if a.Remove? { RemoveInv(s, a.w, a.page); }
    else { SharedInv(s, a); }
  }

  lemma BytesInv(s: Sys, a: BytesAction)
    requires Inv(s) && BytesEnabled(s.life, a) && Guarded(s.life, a)
    ensures Inv(s.(life := BytesApply(s.life, a)))
  {
    hide SpaceOk, LifeOk, RootsExact, ResultsDoomed, WatchersOk, BytesApply, BytesEnabled, Guarded;
    var m := BytesApply(s.life, a);
    BytesOk(s.life, a);
    BytesKeepDoom(s.life, a);
    assert m.roots == s.life.roots by { BytesRoots(s.life, a); }
    forall sp | sp in s.spaces ensures ResultsDoomed(sp, s.spaces[sp], m) {
      DoomedStays(sp, s.spaces[sp], s.life, m);
    }
    SameWatchers(s, m);
  }

  lemma BytesRoots(l: Life, a: BytesAction)
    requires BytesEnabled(l, a)
    ensures BytesApply(l, a).roots == l.roots
  {}

  lemma BytesKeepDoom(l: Life, a: BytesAction)
    requires LifeOk(l) && BytesEnabled(l, a) && Guarded(l, a)
    ensures KeepsDoom(l, BytesApply(l, a))
  {
    hide LifeOk, Doom, BytesApply, BytesEnabled, Guarded;
    var m := BytesApply(l, a);
    assert KeepsNames(l, m) by { BytesKeepNames(l, a); }
    forall sp: Space, g: Gen | Doom(l, sp, g)
      ensures Doom(m, sp, g) && ((sp, g) !in l.intents ==> (sp, g) !in m.intents)
    {
      BytesDoom(l, a, sp, g);
    }
  }

  lemma BytesKeepNames(l: Life, a: BytesAction)
    requires BytesEnabled(l, a)
    ensures KeepsNames(l, BytesApply(l, a))
  {}

  lemma SameWatchers(s: Sys, m: Life)
    requires WatchersOk(s)
    ensures WatchersOk(s.(life := m))
  {
    var n := s.(life := m);
    forall w | w in n.watchers ensures WatcherOk(n.Of(w), n.watchers[w]) { assert WatcherOk(s.Of(w), s.watchers[w]); }
  }

  lemma ObserveStands(s: Sys, sp: Space, o: Observation)
    requires RootsExact(s.spaces, s.life.roots) && Shows(s, sp, o)
    ensures Stands(s.At(sp), o)
  {
    if o.SawRoot? && o.att in s.At(sp).holds {
      assert RootExact(s.spaces, s.life.roots, o.att) && sp in Holders(s.spaces, o.att);
    }
  }

  lemma ReaderInv(s: Sys, a: Action)
    requires Inv(s) && Enabled(s, a) && (a.Watch? || a.Observe?)
    ensures Inv(Apply(s, a))
  {
    hide LifeOk, RootsExact, AllDoomed, RowsOk, EpisodeCatalog.Progress, Stands, SpaceShows;
    var n := Apply(s, a);
    forall w | w in n.watchers ensures WatcherOk(n.Of(w), n.watchers[w]) {
      if w in s.watchers { assert WatcherOk(s.Of(w), s.watchers[w]); }
      if w == a.w {
        SpaceIsOk(s, n.watchers[w].space);
        if a.Observe? { ObserveStands(s, n.watchers[w].space, a.o); }
      }
    }
  }

  lemma CrashInv(s: Sys, g: Gen, t: nat, w: nat)
    requires Inv(s)
    ensures Inv(Apply(s, Crash(g, t, w)))
  {
    hide SpacesOk, LifeOk, RootsExact, ResultsDoomed, WatcherOk;
    CrashOk(s.life, g, t);
    var n := Apply(s, Crash(g, t, w));
    CrashKeepsDoom(s.life, n.life);
    forall sp | sp in s.spaces ensures ResultsDoomed(sp, s.spaces[sp], n.life) {
      DoomedStays(sp, s.spaces[sp], s.life, n.life);
    }
    forall v | v in n.watchers ensures WatcherOk(n.Of(v), n.watchers[v]) { assert WatcherOk(s.Of(v), s.watchers[v]); }
  }

  lemma CrashKeepsDoom(l: Life, m: Life)
    requires m.roots == l.roots && m.intents == l.intents && m.gens == l.gens && forall g :: g in m.uploaders ==> g in l.uploaders
    ensures KeepsDoom(l, m)
  {}

  /** No step rewrites a fenced upload row: see `Guarded`. */
  predicate GuardedStep(s: Sys, a: Action) { a.Bytes? ==> Guarded(s.life, a.b) }

  lemma StepInv(s: Sys, a: Action)
    requires Inv(s) && Enabled(s, a) && GuardedStep(s, a)
    ensures Inv(Apply(s, a))
  {
    hide Inv, CatalogEnabled, CatalogApply, BytesEnabled, BytesApply, Guarded, Shows;
    match a {
      case Catalog(c) => CatalogInv(s, c);
      case Bytes(b) => BytesInv(s, b);
      case Watch(_, _) => ReaderInv(s, a);
      case Observe(_, _) => ReaderInv(s, a);
      case Crash(g, t, w) => CrashInv(s, g, t, w);
    }
  }
}
