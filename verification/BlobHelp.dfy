/**
 * One helper, left alone, finishes any migration or release, from any
 * reachable state and wherever other helpers have stopped.
 */
module BlobHelp {
  import opened Prelude
  import opened BlobTypes
  import opened EpisodeCatalog
  import opened CatalogProofs
  import opened BlobProtocol
  import opened BlobLifecycle
  import opened BlobInvariants
  import opened BlobRuns
  import opened BlobReads
  import opened BlobJournal
  import opened BlobStatus
  import opened BlobProgress
  import BlobReceipts
  import BlobRefinement

  // ----- First keys and fresh names -----

  lemma {:induction false} Above(m: set<nat>) returns (n: nat)
    ensures forall x :: x in m ==> x < n
    decreases |m|
  {
    if m == {} { return 0; }
    var x :| x in m;
    var below := Above(m - {x});
    n := if x < below then below else x + 1;
    forall y | y in m ensures y < n { if y != x { assert y in m - {x}; } }
  }

  lemma {:induction false} Least(keys: set<Att>) returns (k: Att)
    requires keys != {}
    ensures k in keys && forall j :: j in keys ==> k <= j
    decreases |keys|
  {
    var first :| first in keys;
    var rest := keys - {first};
    k := first;
    if rest != {} {
      var j := Least(rest);
      k := if first < j then first else j;
    }
    forall i | i in keys ensures k <= i { if i != first { assert i in rest; } }
  }

  lemma {:induction false} LeastKey(keys: set<SortKey>) returns (k: SortKey)
    requires keys != {}
    ensures k in keys && forall j :: j in keys ==> k == j || Below(k, j)
    decreases |keys|
  {
    var first :| first in keys;
    var rest := keys - {first};
    k := first;
    if rest != {} {
      var j := LeastKey(rest);
      if Below(j, first) { k := j; }
      forall i | i in rest ensures k == i || Below(k, i) {
        if k == first && i != j { BelowChain(first, j, i); }
      }
    }
    forall i | i in keys ensures i == first || i in rest {}
  }

  /** The next key after a cursor, as a page of its own; an empty page when there is none. */
  lemma NextPage(keys: set<Att>, after: Option<Att>) returns (page: seq<Att>)
    ensures IsPage(keys, after, page) && |page| <= 1 && forall k :: k in page ==> k in keys && Beyond(after, k)
  {
    var beyond := set k | k in keys && Beyond(after, k);
    if beyond == {} {
      page := [];
      forall k | k in keys ensures !Beyond(after, k) { assert k in beyond <==> Beyond(after, k); }
    } else {
      var k := Least(beyond);
      page := [k];
      forall j | j in keys && Beyond(after, j) ensures k <= j { assert j in beyond; }
    }
  }

  lemma NextKeyPage(keys: set<SortKey>, after: Option<SortKey>) returns (page: seq<SortKey>)
    ensures IsKeyPage(keys, after, page) && |page| <= 1 && forall k :: k in page ==> k in keys && BeyondKey(after, k)
  {
    var beyond := set k | k in keys && BeyondKey(after, k);
    if beyond == {} {
      page := [];
      forall k | k in keys ensures !BeyondKey(after, k) { assert k in beyond <==> BeyondKey(after, k); }
    } else {
      var k := LeastKey(beyond);
      page := [k];
      forall j | j in keys && BeyondKey(after, j) ensures k == j || Below(k, j) { assert j in beyond; }
    }
  }

  // ----- Building runs -----

  lemma {:induction false} RunMore(s: Sys, run: seq<Action>, more: seq<Action>)
    requires Valid(s, run) && Valid(After(s, run), more) && AllGuarded(s, run) && AllGuarded(After(s, run), more)
    ensures Valid(s, run + more) && AllGuarded(s, run + more) && After(s, run + more) == After(After(s, run), more)
    decreases |run|
  {
    hide Enabled, Apply, GuardedStep;
    if run == [] {
      assert run + more == more;
    } else {
      RunMore(Apply(s, run[0]), run[1..], more);
      assert (run + more)[0] == run[0] && (run + more)[1..] == run[1..] + more;
    }
  }

  lemma RunOne(s: Sys, a: Action)
    requires Enabled(s, a) && GuardedStep(s, a)
    ensures Valid(s, [a]) && AllGuarded(s, [a]) && After(s, [a]) == Apply(s, a)
  {
    hide Enabled, Apply, GuardedStep;
    var n := Apply(s, a);
    assert [a][1..] == [];
    assert Valid(n, []) && AllGuarded(n, []) && After(n, []) == n;
  }

  /** A helper comes, reads the control row, and then what `o` shows. */
  lemma Look(s: Sys, sp: Space, o: Observation) returns (w: nat, run: seq<Action>)
    requires Inv(s) && s.At(sp).control.Some? && Shows(s, sp, o)
    ensures Valid(s, run) && AllGuarded(s, run)
    ensures var n := After(s, run);
      Inv(n) && n == s.(watchers := s.watchers[w := Watcher(sp, s.At(sp).control, {o})]) && n.Current(w)
  {
    hide Inv, Shows, Valid, After, AllGuarded;
    w := Above(s.watchers.Keys);
    assert w !in s.watchers;
    var one := Apply(s, Watch(w, sp));
    assert Shows(one, sp, o) by { SameShows(s, one, sp, o); }
    var two := Apply(one, Observe(w, o));
    RunOne(s, Watch(w, sp));
    RunOne(one, Observe(w, o));
    StepInv(s, Watch(w, sp));
    StepInv(one, Observe(w, o));
    RunMore(s, [Watch(w, sp)], [Observe(w, o)]);
    run := [Watch(w, sp)] + [Observe(w, o)];
    assert {} + {o} == {o} && one.watchers[w] == Watcher(sp, s.At(sp).control, {});
    assert two.watchers == s.watchers[w := Watcher(sp, s.At(sp).control, {o})];
  }

  lemma SameShows(s: Sys, n: Sys, sp: Space, o: Observation)
    requires Shows(s, sp, o) && n.spaces == s.spaces && n.life == s.life
    ensures Shows(n, sp, o)
  {}

  /** The run brings the space nearer to being at rest. */
  ghost predicate Helped(s: Sys, sp: Space, run: seq<Action>)
  {
    && Valid(s, run) && AllGuarded(s, run) && After(s, run).At(sp).control.Some?
    && Less(RankOf(After(s, run).At(sp)), RankOf(s.At(sp))) && GoesOn(s.At(sp), After(s, run).At(sp))
  }

  /** What a release of an episode, or of everything, leaves of the holds it found. */
  ghost function Rest(holds: map<Att, Hold>, mode: Mode, episode: Episode): map<Att, Hold>
  {
    if mode == Release then map[] else BlobRefinement.Unlinked(holds, episode)
  }

  /**
   * The operation is the same one. Where it ends the space is migrated, with the holds it had, or a release has done what
   * it was begun for.
   */
  ghost predicate GoesOn(x: SpaceState, y: SpaceState)
  {
    && y.Data().operation == x.Data().operation && (x.Data().mode != Active && y.Data().mode == Active ==> y.Data().version == 1)
    && (x.Data().mode == Mode.Migrate ==> y.holds == x.holds && !Releasing(y.Data()))
    && (Releasing(x.Data()) ==>
          y.base == x.base
          && if y.Data().mode == Active then HoldData(y) == Rest(x.base, x.Data().mode, x.Data().episode)
             else y.Data().mode == x.Data().mode && y.Data().episode == x.Data().episode)
  }

  lemma HelpGoesOn(s: Sys, a: CatalogAction)
    requires Inv(s) && CatalogEnabled(s, a) && Helps(s, a)
    ensures GoesOn(s.At(Where(s, a)), CatalogApply(s, a).At(Where(s, a)))
  {
    hide SpaceOk, RootsExact, LifeOk, AllDoomed, SawCandidates, CandidateRun, RemoveAll, Swept, DoomedOf, CollectLife, WatchersOk, Rest;
    if a.Remove? {
      SeenCandidates(s, a.w, a.page);
      RemoveAllCore(s, s.watchers[a.w].space, a.page, TRANSACTION_ROWS);
      BlobReceipts.RemoveAllRecords(s, s.watchers[a.w].space, a.page, TRANSACTION_ROWS);
      RemovedMode(s, a);
    } else if a.Migrate? {
      if a.holdPage != [] { IndexPageControl(s.Of(a.w), a.holdPage, TRANSACTION_ROWS); }
    } else if a.End? {
      SpaceIsOk(s, s.watchers[a.w].space);
      Ended(s.Of(a.w));
    }
  }

  lemma Ended(ss: SpaceState)
    requires SpaceOk(ss) && Releasing(ss.Data()) && ss.Data().phase == Gc && ss.control.Some?
    ensures HoldData(EpisodeCatalog.Finish(ss)) == Rest(ss.base, ss.Data().mode, ss.Data().episode)
  {
    assert HoldData(EpisodeCatalog.Finish(ss)) == HoldData(ss);
    if ss.Data().mode == Release { BlobRefinement.ReleaseEnds(ss); } else { BlobRefinement.UnlinkEnds(ss); }
  }

  lemma RemovedMode(s: Sys, a: CatalogAction)
    requires a.Remove? && CatalogEnabled(s, a)
    requires InHolds(RemoveAll(s, s.watchers[a.w].space, a.page, TRANSACTION_ROWS).value.At(s.watchers[a.w].space))
    requires BlobReceipts.Records(s, RemoveAll(s, s.watchers[a.w].space, a.page, TRANSACTION_ROWS).value, s.watchers[a.w].space)
    ensures GoesOn(s.At(Where(s, a)), CatalogApply(s, a).At(Where(s, a)))
  {
    hide SawCandidates, RemoveAll, Rest;
  }

  /** A helping transaction after some reads. */
  lemma Act(s: Sys, sp: Space, run: seq<Action>, a: CatalogAction) returns (all: seq<Action>)
    requires Valid(s, run) && AllGuarded(s, run)
    requires var n := After(s, run);
      Inv(n) && n.At(sp) == s.At(sp) && CatalogEnabled(n, a) && Helps(n, a) && Where(n, a) == sp
    ensures Helped(s, sp, all)
  {
    hide Inv, Valid, After, AllGuarded, RankOf, Less, GoesOn, CatalogEnabled, CatalogApply, Helps, Where;
    var n := After(s, run);
    Progresses(n, a);
    RunOne(n, Catalog(a));
    RunMore(s, run, [Catalog(a)]);
    all := run + [Catalog(a)];
    StillControlled(n, a, sp);
    HelpGoesOn(n, a);
  }

  lemma StillControlled(s: Sys, a: CatalogAction, sp: Space)
    requires Inv(s) && CatalogEnabled(s, a) && Helps(s, a) && Where(s, a) == sp
    ensures CatalogApply(s, a).At(sp).control.Some?
  {
    hide CatalogEnabled, CatalogApply, SpaceMoves, Inv, Helps;
    CatalogSpaceStep(s, a, sp);
    if CatalogApply(s, a).At(sp) == s.At(sp) { HelpedControl(s, a); } else { MovesControl(s.At(sp), CatalogApply(s, a).At(sp)); }
  }

  lemma MovesControl(x: SpaceState, y: SpaceState)
    requires SpaceMoves(x, y)
    ensures y.control.Some?
  {}

  lemma HelpedControl(s: Sys, a: CatalogAction)
    requires Inv(s) && CatalogEnabled(s, a) && Helps(s, a)
    ensures s.At(Where(s, a)).control.Some?
  {
    hide SpacesOk, RootsExact, LifeOk, AllDoomed, SawCandidates, RemoveAll, Swept, Stands;
    assert a.w in s.watchers;
    assert WatcherOk(s.Of(a.w), s.watchers[a.w]);
  }

  // ----- What a helper does in each phase -----

  /** Whatever page of at most 100 holds there is after a cursor can be read. */
  lemma AnyHoldPage(ss: SpaceState, after: Option<Att>, page: seq<Att>) returns (rows: seq<Row<Hold>>)
    requires SpaceOk(ss) && IsPage(ss.holds.Keys, after, page) && |page| <= 100 && forall k :: k in page ==> k in ss.holds
    ensures SpaceShows(ss, SawHolds(after, rows)) && Ids(rows) == page
  {
    hide ControlOk, EpisodeCatalog.Progress, IndexExact, SequencesUnique, IsPage;
    rows := seq(|page|, i requires 0 <= i < |page| => assert page[i] in page; ss.holds[page[i]]);
    forall i | 0 <= i < |page| ensures Ids(rows)[i] == page[i] {
      assert page[i] in page;
      assert HoldOk(ss.holds[page[i]].data, page[i], ss.Rev());
    }
    assert Ids(rows) == page;
  }

  /** Readers see at most 100 rows at a time, releases at most 20 candidates. */
  lemma PageSizes(s: Sys, sp: Space, o: Observation, w: nat, page: seq<LinkRow>)
    requires Shows(s, sp, o) && w in s.watchers && s.watchers[w].before.Some? && SawCandidates(s, w, page)
    ensures |page| <= 20
    ensures match o case SawHolds(_, rows) => |rows| <= 100 case SawLinks(_, _, rows) => |rows| <= 100
      case SawResults(_, _, rows) => |rows| <= 100 case _ => true
  {}

  /** A page of at most one hold after a cursor. */
  lemma HoldPageOf(ss: SpaceState, after: Option<Att>) returns (rows: seq<Row<Hold>>)
    requires SpaceOk(ss)
    ensures SpaceShows(ss, SawHolds(after, rows)) && |rows| <= 1
  {
    hide SpaceOk, IsPage;
    var page := NextPage(ss.holds.Keys, after);
    rows := AnyHoldPage(ss, after, page);
    assert |Ids(rows)| == |rows|;
  }

  lemma LinkPageOf(ss: SpaceState, episode: Episode, after: Option<Att>) returns (rows: seq<LinkRow>)
    ensures SpaceShows(ss, SawLinks(episode, after, rows)) && |rows| <= 1
  {
    var page := NextPage(EpisodeAtts(ss.index, episode), after);
    if page == [] {
      rows := [];
      assert Atts(rows) == page;
    } else {
      assert page[0] in page && (episode, page[0]) in ss.index;
      rows := [LinkRow(page[0], ss.index[(episode, page[0])])];
      assert Atts(rows) == page;
    }
  }

  lemma ResultPageOf(ss: SpaceState, op: Op, after: Option<SortKey>) returns (rows: seq<ResultRow>)
    ensures SpaceShows(ss, SawResults(op, after, rows)) && |rows| <= 1
    ensures rows != [] ==> (op, rows[0].key) in ss.results && ss.results[(op, rows[0].key)] == rows[0].result
  {
    var page := NextKeyPage(ResultKeys(ss, op), after);
    if page == [] {
      rows := [];
      assert Keys(rows) == page;
    } else {
      assert page[0] in page && (op, page[0]) in ss.results;
      rows := [ResultRow(page[0], ss.results[(op, page[0])])];
      assert Keys(rows) == page;
    }
  }

  lemma HelpMigrate(s: Sys, sp: Space) returns (run: seq<Action>)
    requires Inv(s) && s.At(sp).control.Some? && s.At(sp).Data().mode == Mode.Migrate
    ensures Helped(s, sp, run)
  {
    hide Inv, Valid, After, AllGuarded, Helped, SpaceOk, SpaceShows;
    var ss := s.At(sp);
    assert SpaceOk(ss) by { InvSpace(s, sp); }
    var rows := HoldPageOf(ss, ss.Data().after);
    var w, look := Look(s, sp, SawHolds(ss.Data().after, rows));
    NoStalePlan(After(s, look), w);
    run := Act(s, sp, look, CatalogAction.Migrate(w, rows));
  }

  lemma HelpPrune(s: Sys, sp: Space) returns (run: seq<Action>)
    requires Inv(s) && s.At(sp).control.Some? && Releasing(s.At(sp).Data()) && s.At(sp).Data().prior.Some?
    ensures Helped(s, sp, run)
  {
    hide Inv, Valid, After, AllGuarded, Helped, SpaceOk;
    var ss, op := s.At(sp), s.At(sp).Data().prior.value;
    var rows := ResultPageOf(ss, op, None);
    var w, look := Look(s, sp, SawResults(op, None, rows));
    if rows == [] {
      run := Act(s, sp, look, Pruned(w));
    } else {
      assert rows[0].key in KeySet(rows);
      run := Act(s, sp, look, Prune(w, op, KeySet(rows)));
    }
  }

  lemma HelpRelease(s: Sys, sp: Space) returns (run: seq<Action>)
    requires Inv(s) && s.At(sp).control.Some? && Releasing(s.At(sp).Data()) && s.At(sp).Data().operation.Some?
    requires s.At(sp).Data().prior.None? && s.At(sp).Data().phase == Holds
    ensures Helped(s, sp, run)
  {
    hide Inv, Valid, After, AllGuarded, Helped, SpaceOk, SpaceShows, RemoveAll;
    var ss, c := s.At(sp), s.At(sp).Data();
    var w: nat, look: seq<Action>, page: seq<LinkRow>;
    if c.mode == Release {
      assert SpaceOk(ss) by { InvSpace(s, sp); }
      var rows := HoldPageOf(ss, CursorAtt(c));
      w, look := Look(s, sp, SawHolds(CursorAtt(c), rows));
      page := AsCandidates(rows);
    } else {
      page := LinkPageOf(ss, c.episode, CursorAtt(c));
      w, look := Look(s, sp, SawLinks(c.episode, CursorAtt(c), page));
    }
    var n := After(s, look);
    assert SawCandidates(n, w, page);
    NoStalePlan(n, w);
    if page == [] {
      run := Act(s, sp, look, Removed(w));
    } else {
      run := Act(s, sp, look, Remove(w, page));
    }
  }

  /** The three steps that remove an object. */
  lemma SweepSteps(l: Life, t: nat, sp: Space, g: Gen)
    requires LifeOk(l) && t !in l.sweeps && (sp, g) in l.intents && l.intents[(sp, g)].data.kind == Delete
    ensures BytesEnabled(l, StartSweep(t, sp, g))
    ensures var one := BytesApply(l, StartSweep(t, sp, g));
      BytesEnabled(one, CheckRoot(t)) && BytesEnabled(BytesApply(one, CheckRoot(t)), DeleteObject(t))
    ensures var m := BytesApply(BytesApply(BytesApply(l, StartSweep(t, sp, g)), CheckRoot(t)), DeleteObject(t));
      m.intents == l.intents && Swept(m, sp, g)
  {
    hide LifeOk;
    BytesOk(l, StartSweep(t, sp, g));
    GuardNeverFires(BytesApply(l, StartSweep(t, sp, g)), t);
    var m := BytesApply(BytesApply(BytesApply(l, StartSweep(t, sp, g)), CheckRoot(t)), DeleteObject(t));
    assert m.sweeps[t] == Sweep(sp, g, l.intents[(sp, g)], Acking);
  }

  lemma BytesStep(s: Sys, a: BytesAction)
    requires Inv(s) && BytesEnabled(s.life, a) && !a.RecordVersion?
    ensures Valid(s, [Bytes(a)]) && AllGuarded(s, [Bytes(a)]) && After(s, [Bytes(a)]) == s.(life := BytesApply(s.life, a))
    ensures Inv(After(s, [Bytes(a)]))
  {
    hide Inv, Valid, After, AllGuarded, BytesEnabled, BytesApply;
    RunOne(s, Bytes(a));
    StepInv(s, Bytes(a));
  }

  /** Removes the object of a generation to be deleted, up to the acknowledgement. */
  lemma Sweeps(s: Sys, sp: Space, g: Gen) returns (run: seq<Action>)
    requires Inv(s) && (sp, g) in s.life.intents && s.life.intents[(sp, g)].data.kind == Delete
    ensures Valid(s, run) && AllGuarded(s, run) && Inv(After(s, run))
    ensures After(s, run) == s.(life := After(s, run).life) && After(s, run).life.intents == s.life.intents && Swept(After(s, run).life, sp, g)
  {
    hide Inv, Valid, After, AllGuarded, BytesEnabled, BytesApply, Swept;
    var t := Above(s.life.sweeps.Keys);
    assert t !in s.life.sweeps;
    assert LifeOk(s.life) by { InvLife(s); }
    SweepSteps(s.life, t, sp, g);
    BytesStep(s, StartSweep(t, sp, g));
    var one := After(s, [Bytes(StartSweep(t, sp, g))]);
    BytesStep(one, CheckRoot(t));
    var two := After(one, [Bytes(CheckRoot(t))]);
    BytesStep(two, DeleteObject(t));
    RunMore(s, [Bytes(StartSweep(t, sp, g))], [Bytes(CheckRoot(t))]);
    RunMore(s, [Bytes(StartSweep(t, sp, g))] + [Bytes(CheckRoot(t))], [Bytes(DeleteObject(t))]);
    run := [Bytes(StartSweep(t, sp, g))] + [Bytes(CheckRoot(t))] + [Bytes(DeleteObject(t))];
  }

  /** What a result row asks for has been done, before its page is collected. */
  lemma Prepare(s: Sys, sp: Space, op: Op, k: SortKey) returns (run: seq<Action>)
    requires Inv(s) && (op, k) in s.At(sp).results
    ensures Valid(s, run) && AllGuarded(s, run) && Inv(After(s, run)) && After(s, run) == s.(life := After(s, run).life)
    ensures s.At(sp).results[(op, k)].generation.Some? ==> Swept(After(s, run).life, sp, s.At(sp).results[(op, k)].generation.value)
  {
    hide Inv, After, AllGuarded, Valid;
    run := [];
    assert Valid(s, run) && AllGuarded(s, run) && After(s, run) == s by { NoRun(s); }
    var generation := s.At(sp).results[(op, k)].generation;
    if generation.Some? && (sp, generation.value) in s.life.intents {
      CleanupIdentity(s, sp, op, k);
      run := Sweeps(s, sp, generation.value);
    }
  }

  lemma NoRun(s: Sys)
    ensures Valid(s, []) && AllGuarded(s, []) && After(s, []) == s
  {}

  lemma HelpCollect(s: Sys, sp: Space) returns (run: seq<Action>)
    requires Inv(s) && s.At(sp).control.Some? && Releasing(s.At(sp).Data()) && s.At(sp).Data().operation.Some?
    requires s.At(sp).Data().prior.None? && s.At(sp).Data().phase == Gc
    ensures Helped(s, sp, run)
  {
    hide Inv, Valid, After, AllGuarded, Helped, SpaceOk, SpaceShows, Swept;
    var ss, c := s.At(sp), s.At(sp).Data();
    var op := c.operation.value;
    var rows := ResultPageOf(ss, op, c.cursor);
    if rows == [] {
      var w, look := Look(s, sp, SawResults(op, c.cursor, rows));
      run := Act(s, sp, look, End(w));
    } else {
      var k := rows[0].key;
      var before := Prepare(s, sp, op, k);
      var m := After(s, before);
      var w, look := Look(m, sp, SawResults(op, c.cursor, rows));
      RunMore(s, before, look);
      var n := After(m, look);
      assert Keys(rows) == [k] && SawPage(n, w, [k]);
      run := Act(s, sp, before + look, Collect(w, [k]));
    }
  }

  /** Whatever a space is in the middle of, one helper can bring it nearer to rest. */
  lemma Help(s: Sys, sp: Space) returns (run: seq<Action>)
    requires Inv(s) && s.At(sp).control.Some? && s.At(sp).Data().mode != Active
    ensures Helped(s, sp, run)
  {
    hide Inv, Helped;
    var c := s.At(sp).Data();
    assert ModeOk(c, s.At(sp).ops) by { InvSpace(s, sp); ModeIsOk(s.At(sp)); }
    if c.mode == Mode.Migrate {
      run := HelpMigrate(s, sp);
    } else if c.prior.Some? {
      run := HelpPrune(s, sp);
    } else if c.phase == Holds {
      run := HelpRelease(s, sp);
    } else {
      run := HelpCollect(s, sp);
    }
  }

  /** So one helper alone finishes what anybody has begun. */
  lemma {:induction false} Finishes(s: Sys, sp: Space) returns (run: seq<Action>)
    requires Inv(s) && s.At(sp).control.Some?
    ensures Valid(s, run) && AllGuarded(s, run)
    ensures After(s, run).At(sp).control.Some? && After(s, run).At(sp).Data().mode == Active
    ensures GoesOn(s.At(sp), After(s, run).At(sp)) && (s.At(sp).Data().mode == Active ==> run == [])
    decreases RankOf(s.At(sp)).stage, RankOf(s.At(sp)).stale, RankOf(s.At(sp)).ahead, RankOf(s.At(sp)).links, RankOf(s.At(sp)).uncollected
  {
    hide Inv, Valid, After, AllGuarded, RankOf;
    if s.At(sp).Data().mode == Active {
      NoRun(s);
      return [];
    }
    var first := Help(s, sp);
    RunInv(s, first);
    var rest := Finishes(After(s, first), sp);
    if rest == [] { NoRun(After(s, first)); }
    RunMore(s, first, rest);
    run := first + rest;
  }
}
