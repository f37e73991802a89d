/** What holds over whole runs of the attachment store, in every interleaving of its clients. */
module BlobRuns {
  import opened Prelude
  import opened BlobTypes
  import opened EpisodeCatalog
  import opened CatalogProofs
  import opened BlobProtocol
  import opened BlobLifecycle
  import opened BlobInvariants

  // ----- Starting states and runs -----

  /** A space before its catalog: active, version 0, no episode rows, no journal. */
  ghost predicate InitSpace(ss: SpaceState)
  {
    && (ss.control.None? ==> ss.holds == map[])
    && ss.Data() == FRESH_CONTROL.(count := |ss.holds|)
    && ss.index == map[] && ss.results == map[] && HoldsOk(ss.holds, ss.Rev()) && SequencesUnique(ss.holds)
  }

  /** Roots, intents and objects agree, holds agree with roots, and no client is at work yet. */
  ghost predicate Init(s: Sys)
  {
    && s.watchers == map[] && s.life.uploaders == map[] && s.life.sweeps == map[]
    && LifeOk(s.life) && RootsExact(s.spaces, s.life.roots)
    && forall sp :: sp in s.spaces ==> InitSpace(s.spaces[sp])
  }

  ghost predicate Valid(s: Sys, run: seq<Action>)
    decreases |run|
  {
    run != [] ==> Enabled(s, run[0]) && Valid(Apply(s, run[0]), run[1..])
  }

  ghost function After(s: Sys, run: seq<Action>): Sys
    requires Valid(s, run)
    decreases |run|
  {
    if run == [] then s else After(Apply(s, run[0]), run[1..])
  }

  ghost predicate AllGuarded(s: Sys, run: seq<Action>)
    requires Valid(s, run)
    decreases |run|
  {
    run != [] ==> GuardedStep(s, run[0]) && AllGuarded(Apply(s, run[0]), run[1..])
  }

  /** Every generation, at every step, moves along its life cycle. */
  ghost predicate AllMove(s: Sys, run: seq<Action>)
    requires Valid(s, run)
    decreases |run|
  {
    run != [] ==>
      && (forall g: Gen :: Moves(StatusOf(s.life, g), StatusOf(Apply(s, run[0]).life, g)))
      && AllMove(Apply(s, run[0]), run[1..])
  }

  lemma InitSpaceOk(ss: SpaceState)
    requires InitSpace(ss)
    ensures SpaceOk(ss)
  {
    forall a: Att ensures ColumnExact(ss.index, a, Now(ss.holds, a), Covered(ss.holds, CoverageOf(ss.Data()), a)) {}
  }

  lemma InitInv(s: Sys)
    requires Init(s)
    ensures Inv(s)
  {
    hide LifeOk, RootsExact;
    forall sp | sp in s.spaces ensures SpaceOk(s.spaces[sp]) { InitSpaceOk(s.spaces[sp]); }
  }

  lemma {:induction false} RunInv(s: Sys, run: seq<Action>)
    requires Inv(s) && Valid(s, run) && AllGuarded(s, run)
    ensures Inv(After(s, run))
    decreases |run|
  {
    hide Inv, Enabled, Apply, GuardedStep;
    if run != [] {
      StepInv(s, run[0]);
      RunInv(Apply(s, run[0]), run[1..]);
    }
  }

  // ----- The life cycle, exactly -----

  lemma {:induction false} RemoveAllMoves(s: Sys, sp: Space, page: seq<LinkRow>, room: nat, g: Gen)
    requires Core(s) && InHolds(s.At(sp)) && CandidateRun(s.At(sp), page)
    ensures RemoveAll(s, sp, page, room).Some?
    ensures var x, y := StatusOf(s.life, g), StatusOf(RemoveAll(s, sp, page, room).value.life, g);
      x == y || (x == Live && y == Deleting)
    decreases |page|
  {
    hide Core, CandidateRun, Removable, RemoveOne, Cost, InHolds, StatusOf;
    RemoveAllCore(s, sp, page, room);
    if page != [] && room >= 5 {
      var att := page[0].att;
      RemoveOneCore(s, sp, page, room);
      RemoveOneMoves(s, sp, page, room, g);
      var n := RemoveOne(s, sp, att, page[0].link.sequence, room);
      if !(s.At(sp).Data().mode == Release && att in n.At(sp).holds) {
        NextRun(s, sp, page, room);
        RemoveAllMoves(n, sp, page[1..], if Cost(s, sp, att, room) > room then 0 else room - Cost(s, sp, att, room), g);
      }
    }
  }

  lemma RemoveOneMoves(s: Sys, sp: Space, page: seq<LinkRow>, room: nat, g: Gen)
    requires Core(s) && InHolds(s.At(sp)) && CandidateRun(s.At(sp), page) && page != [] && room >= 5
    requires Removable(s, sp, page[0].att)
    ensures var x, y := StatusOf(s.life, g), StatusOf(RemoveOne(s, sp, page[0].att, page[0].link.sequence, room).life, g);
      x == y || (x == Live && y == Deleting)
  {
    hide SpacesOk, RootsExact, AllDoomed, SameGen, InHolds, CandidateRun, StatusOf, Published, GenOk;
    var att := page[0].att;
    RemoveOneCore(s, sp, page, room);
    RemoveOneShape(s, sp, att, page[0].link.sequence, room);
    var l, m := s.life, RemoveLife(s, sp, att, room);
    assert GenOk(l, g) && GenOk(m, g);
    if m != l {
      if l.roots[att].data.holds == 1 {
        GiveUpOk(l, sp, att);
        if g == l.roots[att].data.generation { GiveUpStatus(l, sp, att); } else { SameStatus(l, m, g); }
      } else {
        assert m.roots.Keys == l.roots.Keys;
        RecountOk(l, m);
        SameStatus(l, m, g);
      }
    }
  }

  lemma GiveUpStatus(l: Life, sp: Space, att: Att)
    requires LifeOk(l) && att in l.roots && LifeOk(GiveUpLife(l, sp, att))
    ensures StatusOf(l, l.roots[att].data.generation) == Live
    ensures StatusOf(GiveUpLife(l, sp, att), l.roots[att].data.generation) == Deleting
  {
    var g, m := l.roots[att].data.generation, GiveUpLife(l, sp, att);
    GiveUpOk(l, sp, att);
    assert (sp, g) in m.intents && GenOk(m, g);
    StatusByIntent(m, g, sp);
  }

  lemma PublishMoves(l: Life, g: Gen, sp: Space, version: Option<nat>, h: Gen)
    requires LifeOk(l) && PublishReady(l, g, sp)
    ensures Moves(StatusOf(l, h), StatusOf(PublishLife(l, g, sp, version), h))
  {
    hide SameGen, GenOk;
    var m := PublishLife(l, g, sp, version);
    PublishOk(l, g, sp, version);
    assert GenOk(l, h) && GenOk(m, h);
    if h == g { StatusByIntent(l, g, sp); } else { SameStatus(l, m, h); }
  }

  lemma CollectMoves(l: Life, sp: Space, gens: set<Gen>, h: Gen)
    requires LifeOk(l) && forall g :: g in gens ==> Swept(l, sp, g)
    ensures Moves(StatusOf(l, h), StatusOf(CollectLife(l, sp, gens), h))
  {
    var m := CollectLife(l, sp, gens);
    CollectOk(l, sp, gens);
    assert GenOk(l, h) && GenOk(m, h);
    if h !in gens {
      SameStatus(l, m, h);
    } else if (sp, h) in l.intents {
      assert Swept(l, sp, h);
      StatusByIntent(l, h, sp);
      assert IntentOk(l, h, sp) && !HasIntent(m, h);
    } else {
      forall other: Space ensures Lookup(l.intents, (other, h)) == Lookup(m.intents, (other, h)) {}
      assert SameGen(l, m, h);
      SameStatus(l, m, h);
    }
  }

  lemma CatalogMoves(s: Sys, a: CatalogAction, g: Gen)
    requires Inv(s) && CatalogEnabled(s, a)
    ensures Moves(StatusOf(s.life, g), StatusOf(CatalogApply(s, a).life, g))
  {
    hide SpacesOk, RootsExact, AllDoomed, WatchersOk, LifeOk, StatusOf, SameGen, Published, SawCandidates, RemoveAll;
    match a {
      case Join(sp, attachment) =>
        var root := s.life.roots[attachment.id];
        var m := s.life.(roots := s.life.roots[attachment.id := Row(root.rev + 1, root.data.(holds := root.data.holds + 1))]);
        assert m.roots.Keys == s.life.roots.Keys;
        RecountOk(s.life, m);
        GensOk(s.life, g);
        GensOk(m, g);
        SameStatus(s.life, m, g);
      case Publish(h, _) =>
        var sp, row := s.life.uploaders[h].space, s.life.uploaders[h].stage.upload.value;
        PublishMoves(s.life, h, sp, row.data.version, g);
      case Remove(w, page) =>
        SeenCandidates(s, w, page);
        RemoveAllMoves(s, s.watchers[w].space, page, TRANSACTION_ROWS, g);
      case Collect(w, batch) => CollectMoves(s.life, s.watchers[w].space, DoomedOf(s.Of(w), batch), g);
      case _ =>
    }
  }

  lemma GensOk(l: Life, g: Gen)
    requires LifeOk(l)
    ensures GenOk(l, g)
  {}

  lemma StepMoves(s: Sys, a: Action, g: Gen)
    requires Inv(s) && Enabled(s, a) && GuardedStep(s, a)
    ensures Moves(StatusOf(s.life, g), StatusOf(Apply(s, a).life, g))
  {
    hide CatalogEnabled, CatalogApply, BytesEnabled, BytesApply, Guarded, StatusOf;
    match a {
      case Catalog(c) => CatalogMoves(s, c, g);
      case Bytes(b) => BytesMoves(s.life, b, g);
      case Crash(h, t, w) =>
        CrashOk(s.life, h, t);
        CrashStatus(s.life, h, t, g);
      case _ =>
    }
  }

  lemma CrashStatus(l: Life, h: Gen, t: nat, g: Gen)
    requires LifeOk(l)
    ensures StatusOf(l.(uploaders := l.uploaders - {h}, sweeps := l.sweeps - {t}), g) == StatusOf(l, g)
  {
    var m := l.(uploaders := l.uploaders - {h}, sweeps := l.sweeps - {t});
    CrashOk(l, h, t);
    assert GenOk(l, g) && GenOk(m, g);
    if HasIntent(l, g) {
      var sp: Space :| (sp, g) in l.intents;
      StatusByIntent(l, g, sp);
      StatusByIntent(m, g, sp);
    }
  }

  /**
   * A generation only ever moves unused, uploading, live, deleting, gone, with exits from uploading to deleting
   * and to fenced - in a whole run, if and only if no uploader writes its version over a row that is no longer an upload.
   */
  lemma {:induction false} LifeCycle(s: Sys, run: seq<Action>)
    requires Inv(s) && Valid(s, run)
    ensures AllMove(s, run) <==> AllGuarded(s, run)
    decreases |run|
  {
    hide Inv, Enabled, Apply, StatusOf, Moves;
    if run != [] {
      var n := Apply(s, run[0]);
      if GuardedStep(s, run[0]) {
        forall g: Gen ensures Moves(StatusOf(s.life, g), StatusOf(n.life, g)) { StepMoves(s, run[0], g); }
        StepInv(s, run[0]);
        LifeCycle(n, run[1..]);
      } else {
        UnguardedStep(s, run[0]);
      }
    }
  }

  lemma UnguardedStep(s: Sys, a: Action)
    requires Inv(s) && Enabled(s, a) && !GuardedStep(s, a)
    ensures exists g: Gen :: !Moves(StatusOf(s.life, g), StatusOf(Apply(s, a).life, g))
  {
    hide Inv, BytesEnabled, BytesApply, Guarded, StatusOf, Moves;
    assert LifeOk(s.life) by { InvLife(s); }
    UnguardedResurrects(s.life, a.b);
  }

  lemma InvLife(s: Sys)
    requires Inv(s)
    ensures LifeOk(s.life)
  {}

  // ----- Facts of every reachable state -----

  /** Held bytes are stored, under the generation of the root that every holder shares. */
  ghost predicate Durable(s: Sys)
  {
    forall sp, att :: sp in s.spaces && att in s.spaces[sp].holds ==>
      && att in s.life.roots && s.life.roots[att].data.generation == s.spaces[sp].holds[att].data.generation
      && s.life.roots[att].data.generation in s.life.objects
  }

  /** Every stored object belongs to a root or to a generation some intent row still names. */
  ghost predicate Tracked(s: Sys)
  {
    forall g :: g in s.life.objects ==> Published(s.life, g) || HasIntent(s.life, g)
  }

  /** Roots count their holders, and spaces their holds. */
  ghost predicate Conserved(s: Sys)
  {
    && (forall att :: att in s.life.roots ==> s.life.roots[att].data.holds == |Holders(s.spaces, att)| >= 1)
    && (forall sp, att :: sp in s.spaces && att in s.spaces[sp].holds ==> att in s.life.roots)
    && forall sp :: sp in s.spaces ==> s.spaces[sp].Data().count == |s.spaces[sp].holds|
  }

  /** The rows of a migrated space's episodes are exactly the links of its holds. */
  ghost predicate Indexed(ss: SpaceState)
  {
    forall e: Episode, a: Att, n: nat ::
      (a in ss.holds && Link(e, n) in ss.holds[a].data.links) <==>
      ((e, a) in ss.index && a in ss.holds && ss.index[(e, a)] == Entry(ss.holds[a].data, n))
  }

  lemma InvDurable(s: Sys)
    requires Inv(s)
    ensures Durable(s)
  {
    hide SpacesOk, AllDoomed, WatchersOk;
    forall sp, att | sp in s.spaces && att in s.spaces[sp].holds
      ensures att in s.life.roots && s.life.roots[att].data.generation == s.spaces[sp].holds[att].data.generation
      ensures att in s.life.roots ==> s.life.roots[att].data.generation in s.life.objects
    {
      assert RootExact(s.spaces, s.life.roots, att) && sp in Holders(s.spaces, att);
      assert GenOk(s.life, s.life.roots[att].data.generation);
    }
  }

  lemma InvTracked(s: Sys)
    requires Inv(s)
    ensures Tracked(s)
  {
    hide SpacesOk, AllDoomed, WatchersOk, RootsExact;
    forall g | g in s.life.objects ensures Published(s.life, g) || HasIntent(s.life, g) { assert GenOk(s.life, g); }
  }

  lemma InvConserved(s: Sys)
    requires Inv(s)
    ensures Conserved(s)
  {
    hide LifeOk, AllDoomed, WatchersOk, RowsOk, EpisodeCatalog.Progress;
    forall att | att in s.life.roots ensures s.life.roots[att].data.holds == |Holders(s.spaces, att)| >= 1 {
      assert RootExact(s.spaces, s.life.roots, att);
    }
    forall sp, att | sp in s.spaces && att in s.spaces[sp].holds ensures att in s.life.roots {
      assert RootExact(s.spaces, s.life.roots, att) && sp in Holders(s.spaces, att);
    }
  }

  lemma MigratedIndexed(ss: SpaceState)
    requires SpaceOk(ss) && ss.Data().version == 1
    ensures Indexed(ss)
  {
    hide ControlOk, EpisodeCatalog.Progress;
    forall e: Episode, a: Att, n: nat
      ensures (a in ss.holds && Link(e, n) in ss.holds[a].data.links) <==>
        ((e, a) in ss.index && a in ss.holds && ss.index[(e, a)] == Entry(ss.holds[a].data, n))
    {
      assert ColumnExact(ss.index, a, Now(ss.holds, a), Covered(ss.holds, CoverageOf(ss.Data()), a));
      if a in ss.holds { FullCover(ss.holds, CoverageOf(ss.Data()), a); }
      if a in ss.holds && Link(e, n) in ss.holds[a].data.links {
        assert Link(e, n) in Covered(ss.holds, CoverageOf(ss.Data()), a);
      }
    }
  }

  /** During a migration the rows are those of the holds up to the cursor and of the first links of the next hold. */
  lemma MigratingIndexed(ss: SpaceState, a: Att, i: nat)
    requires SpaceOk(ss) && ss.Data().version == 0 && a in ss.holds && i < |ss.holds[a].data.links|
    ensures var c, l := ss.Data(), ss.holds[a].data.links[i];
      (l.episode, a) in ss.index <==>
        (c.after.Some? && a <= c.after.value) || (IsNext(ss.holds.Keys, c.after, a) && i < c.offset)
  {
    hide ControlOk, EpisodeCatalog.Progress;
    var c, v, links := ss.Data(), CoverageOf(ss.Data()), ss.holds[a].data.links;
    assert ColumnExact(ss.index, a, Now(ss.holds, a), Covered(ss.holds, v, a));
    var covered := Covered(ss.holds, v, a);
    assert HoldOk(ss.holds[a].data, a, ss.Rev());
    if i < Reach(ss.holds, v, a) {
      assert covered[i] == links[i];
    } else {
      assert forall j :: 0 <= j < |covered| ==> covered[j] == links[j] && links[j].episode != links[i].episode;
    }
  }

  /** In every reachable state: bytes of held attachments exist, no bytes are untracked, counts are right, indexes exact. */
  lemma ReachableState(s: Sys, run: seq<Action>)
    requires Init(s) && Valid(s, run) && AllGuarded(s, run)
    ensures var n := After(s, run); Durable(n) && Tracked(n) && Conserved(n)
    ensures forall sp :: sp in After(s, run).spaces && After(s, run).spaces[sp].Data().version == 1 ==> Indexed(After(s, run).spaces[sp])
    ensures forall t :: !GuardFires(After(s, run).life, t)
  {
    hide Init, Inv, Valid, After, AllGuarded, Durable, Tracked, Conserved, Indexed, GuardFires;
    InitInv(s);
    RunInv(s, run);
    var n := After(s, run);
    InvDurable(n);
    InvTracked(n);
    InvConserved(n);
    forall sp | sp in n.spaces && n.spaces[sp].Data().version == 1 ensures Indexed(n.spaces[sp]) {
      assert SpaceOk(n.spaces[sp]) by { InvSpace(n, sp); }
      MigratedIndexed(n.spaces[sp]);
    }
    forall t ensures !GuardFires(n.life, t) { InvLife(n); GuardNeverFires(n.life, t); }
  }

  lemma InvSpace(s: Sys, sp: Space)
    requires Inv(s)
    ensures SpaceOk(s.At(sp)) && (sp in s.spaces ==> s.At(sp) == s.spaces[sp])
  {
    SpaceIsOk(s, sp);
  }

  /** A delete, by however late a cleaner, never meets a published generation. */
  lemma DeleteMissesRoots(s: Sys, t: nat)
    requires Inv(s) && Enabled(s, Bytes(DeleteObject(t)))
    ensures !Published(s.life, s.life.sweeps[t].gen)
    ensures forall att :: att in s.life.roots ==> s.life.roots[att].data.generation != s.life.sweeps[t].gen
  {
    InvLife(s);
    assert SweepOk(s.life, s.life.sweeps[t]);
  }

  // ----- The read-back race -----

  const RACE_ATTACHMENT := Attachment(3, "image/png", 4, None)
  const RACE_SPACE := EMPTY_SPACE.(control := Some(Row(1, FRESH_CONTROL.(version := 1))))
  const UPLOAD_ROW := Row(1, Intent(Upload, 3, None))
  const FENCED_ROW := Row(2, Intent(Abandoned, 3, None))
  const REVIVED_ROW := Row(3, Intent(Upload, 3, Some(1)))

  const NOTHING := Sys(map[], map[], Life(map[], map[], {}, map[], map[], map[]))

  /** A fence between writing an upload intent and reading it back, seen by the uploader and by a slow cleaner. */
  const RACE: seq<Action> := [
    Catalog(CreateControl(0)),
    Bytes(NewUpload(0, 7, 3)),
    Bytes(Fence(0, 0, 7)), Bytes(Refresh(0)), Bytes(CheckRoot(0)),
    Bytes(ReadBack(7)), Bytes(PutObject(7)), Bytes(RecordVersion(7, Some(1))), Bytes(Reread(7)),
    Catalog(CatalogAction.Publish(7, RACE_ATTACHMENT)),
    Bytes(DeleteObject(0))]

  function RaceLife(row: Row<Intent>, objects: set<Gen>, stage: Stage, at: SweepStage): Life
  {
    Life(map[], map[(0, 7) := row], objects, map[7 := 3], map[7 := Uploader(0, stage)], map[0 := Sweep(0, 7, FENCED_ROW, at)])
  }

  function RaceState(row: Row<Intent>, objects: set<Gen>, stage: Stage, at: SweepStage): Sys
  {
    Sys(map[0 := RACE_SPACE], map[], RaceLife(row, objects, stage, at))
  }

  lemma OneStep(s: Sys, a: Action, n: Sys, rest: seq<Action>)
    requires Enabled(s, a) && Apply(s, a) == n && Valid(n, rest)
    ensures Valid(s, [a] + rest) && After(s, [a] + rest) == After(n, rest)
    ensures AllGuarded(s, [a] + rest) ==> GuardedStep(s, a) && AllGuarded(n, rest)
  {
    assert ([a] + rest)[1..] == rest;
  }

  lemma NothingInit()
    ensures Init(NOTHING)
  {
    forall att: Att ensures RootExact(NOTHING.spaces, NOTHING.life.roots, att) {}
  }

  const REVIVED := RaceState(REVIVED_ROW, {7}, Resting(Some(REVIVED_ROW)), Checked)

  lemma RacePublish()
    ensures Enabled(REVIVED, RACE[9])
    ensures var s := Apply(REVIVED, RACE[9]);
      && 0 in s.spaces && 3 in s.spaces[0].holds && 0 in s.life.sweeps && s.life.sweeps[0] == Sweep(0, 7, FENCED_ROW, Checked)
      && 3 in s.life.roots && s.life.roots[3].data.generation == 7
  {
    hide Valid, After;
  }

  /** The last two steps: the revived upload is published, and the cleaner deletes its object. */
  lemma RaceEnd()
    ensures Valid(REVIVED, RACE[9..]) && !Durable(After(REVIVED, RACE[9..]))
  {
    hide CatalogEnabled, CatalogApply;
    RacePublish();
    var published := Apply(REVIVED, RACE[9]);
    var lost := Apply(published, RACE[10]);
    assert 7 !in lost.life.objects && 3 in lost.spaces[0].holds && lost.life.roots == published.life.roots;
    OneStep(published, RACE[10], lost, []);
    OneStep(REVIVED, RACE[9], published, [RACE[10]]);
    assert RACE[9..] == [RACE[9]] + [RACE[10]] && [RACE[10]] == [RACE[10]] + [];
  }

  function RaceAt(k: nat): Sys
  {
    var started := NOTHING.(spaces := map[0 := RACE_SPACE]);
    match k
    case 0 => NOTHING
    case 1 => started
    case 2 => started.(life := Life(map[], map[(0, 7) := UPLOAD_ROW], {}, map[7 := 3], map[7 := Uploader(0, Created)], map[]))
    case 3 => RaceState(FENCED_ROW, {}, Created, Refreshing)
    case 4 => RaceState(FENCED_ROW, {}, Created, Guarding)
    case 5 => RaceState(FENCED_ROW, {}, Created, Checked)
    case 6 => RaceState(FENCED_ROW, {}, Sending(FENCED_ROW), Checked)
    case 7 => RaceState(FENCED_ROW, {7}, Sent(FENCED_ROW), Checked)
    case 8 => RaceState(REVIVED_ROW, {7}, Recorded, Checked)
    case _ => REVIVED
  }

  lemma RaceOne(k: nat)
    requires k < 9
    ensures Enabled(RaceAt(k), RACE[k]) && Apply(RaceAt(k), RACE[k]) == RaceAt(k + 1)
    ensures k == 7 ==> !GuardedStep(RaceAt(k), RACE[k])
  {
    hide Valid, After, AllGuarded;
    if k < 3 { RaceFence(k); } else if k < 6 { RaceSend(k); } else { RaceRecord(k); }
  }

  lemma RaceFence(k: nat)
    requires k < 3
    ensures Enabled(RaceAt(k), RACE[k]) && Apply(RaceAt(k), RACE[k]) == RaceAt(k + 1)
  {
    hide Valid, After, AllGuarded;
  }

  lemma RaceSend(k: nat)
    requires 3 <= k < 6
    ensures Enabled(RaceAt(k), RACE[k]) && Apply(RaceAt(k), RACE[k]) == RaceAt(k + 1)
  {
    hide Valid, After, AllGuarded, CatalogEnabled, CatalogApply;
  }

  lemma RaceRecord(k: nat)
    requires 6 <= k < 9
    ensures Enabled(RaceAt(k), RACE[k]) && Apply(RaceAt(k), RACE[k]) == RaceAt(k + 1)
  {
    hide Valid, After, AllGuarded, CatalogEnabled, CatalogApply;
  }

  lemma {:induction false} RaceFrom(k: nat)
    requires k <= 9
    ensures Valid(RaceAt(k), RACE[k..]) && !Durable(After(RaceAt(k), RACE[k..]))
    ensures k <= 7 ==> !AllGuarded(RaceAt(k), RACE[k..])
    decreases 9 - k
  {
    hide Enabled, Apply, Durable, GuardedStep, RaceAt;
    if k == 9 {
      RaceEnd();
      assert RaceAt(9) == REVIVED by { RaceNine(); }
    } else {
      RaceOne(k);
      RaceFrom(k + 1);
      RaceStep(RaceAt(k), k, RaceAt(k + 1));
    }
  }

  lemma RaceNine()
    ensures RaceAt(9) == REVIVED && RaceAt(0) == NOTHING
  {}

  /** The upload is published although it was fenced, and then loses its bytes while held. */
  lemma ReadBackRace()
    ensures Init(NOTHING) && Valid(NOTHING, RACE) && !AllGuarded(NOTHING, RACE) && !Durable(After(NOTHING, RACE))
  {
    hide Init, Valid, After, AllGuarded, Durable, RaceAt;
    NothingInit();
    RaceFrom(0);
    RaceNine();
    assert RACE[0..] == RACE;
  }

  lemma RaceStep(s: Sys, k: nat, n: Sys)
    requires k < |RACE| && Enabled(s, RACE[k]) && Apply(s, RACE[k]) == n && Valid(n, RACE[k + 1..])
    ensures Valid(s, RACE[k..]) && After(s, RACE[k..]) == After(n, RACE[k + 1..])
    ensures AllGuarded(s, RACE[k..]) ==> GuardedStep(s, RACE[k]) && AllGuarded(n, RACE[k + 1..])
  {
    assert RACE[k..] == [RACE[k]] + RACE[k + 1..];
    OneStep(s, RACE[k], n, RACE[k + 1..]);
  }
}
