/**
 * Result rows of a release: written once, complete when the release ends, and
 * untouched until the next release has made their operation unreachable. So
 * every helper of one release returns the same receipt.
 */
module BlobReceipts {
  import opened Prelude
  import opened BlobTypes
  import opened EpisodeCatalog
  import opened CatalogProofs
  import opened BlobProtocol
  import opened BlobLifecycle
  import opened BlobInvariants
  import opened BlobRuns
  import opened BlobReads

  function Receipt(ss: SpaceState, op: Op): map<SortKey, Result>
  {
    map k | k in ss.results && k.0 == op :: k.1 := ss.results[k]
  }

  /** A release finished: its rows are the space's current receipt. */
  predicate Finished(ss: SpaceState, op: Op)
  {
    ss.control.Some? && ss.Data().mode == Active && ss.Data().operation == Some(op)
  }

  ghost predicate Names(ss: SpaceState, op: Op) { ss.Data().operation == Some(op) }

  /** The other spaces that hold an attachment. */
  ghost function Others(spaces: map<Space, SpaceState>, sp: Space, att: Att): set<Space>
  {
    Holders(spaces, att) - {sp}
  }

  /** A result says whether the bytes went with the hold: no other space held the attachment. */
  ghost predicate Honest(s: Sys, sp: Space, att: Att, mode: Mode, r: Result)
  {
    && (r.generation.Some? <==> Others(s.spaces, sp, att) == {})
    && (r.released <==> mode == Unlink || Others(s.spaces, sp, att) == {})
  }

  // ----- One release transaction -----

  ghost predicate Records(s: Sys, n: Sys, sp: Space)
  {
    var x, y := s.At(sp), n.At(sp);
    && y.Data().operation == x.Data().operation && y.Data().mode == x.Data().mode && y.Data().version == x.Data().version
    && y.base == x.base && y.Data().episode == x.Data().episode
    && (forall k :: k in x.results ==> k in y.results && y.results[k] == x.results[k])
    && (forall k :: k in y.results && k !in x.results ==> Honest(s, sp, k.1.att, x.Data().mode, y.results[k]))
    && forall other :: other != sp ==> n.At(other) == s.At(other)
  }

  lemma SameOthers(s: Sys, n: Sys, sp: Space, att: Att)
    requires forall other :: other != sp ==> n.At(other) == s.At(other)
    ensures Others(n.spaces, sp, att) == Others(s.spaces, sp, att)
  {
    forall other: Space ensures other in Others(n.spaces, sp, att) <==> other in Others(s.spaces, sp, att) {
      assert n.At(other) == s.At(other) || other == sp;
    }
  }

  lemma RecordsChain(s: Sys, n: Sys, m: Sys, sp: Space)
    requires Records(s, n, sp) && Records(n, m, sp)
    ensures Records(s, m, sp)
  {
    forall k | k in m.At(sp).results && k !in s.At(sp).results
      ensures Honest(s, sp, k.1.att, s.At(sp).Data().mode, m.At(sp).results[k])
    {
      SameOthers(s, n, sp, k.1.att);
    }
  }

  /** No result row of the running operation is about a hold that is still there. */
  lemma HeldUnlisted(ss: SpaceState, key: SortKey)
    requires SpaceOk(ss) && Releasing(ss.Data()) && ss.Data().operation.Some? && key.att in ss.holds
    ensures (ss.Data().operation.value, key) !in ss.results
  {
    hide RowsOk, ControlOk;
  }

  lemma RemoveOneRecords(s: Sys, sp: Space, page: seq<LinkRow>, room: nat)
    requires Core(s) && InHolds(s.At(sp)) && page != [] && CandidateRun(s.At(sp), page) && room >= 5
    requires Removable(s, sp, page[0].att)
    ensures Records(s, RemoveOne(s, sp, page[0].att, page[0].link.sequence, room), sp)
  {
    hide SpaceOk, LifeOk, AllDoomed, CandidateRun, RootsExact, Others, GoneFrom, Honest, RemoveOne, RemoveLife, ResultOf, Taken;
    var att, sequence := page[0].att, page[0].link.sequence;
    RemoveOneShape(s, sp, att, sequence, room);
    SpaceIsOk(s, sp);
    HeldUnlisted(s.At(sp), SortKey(sequence, att));
    HonestResult(s, sp, att);
  }

  lemma HonestResult(s: Sys, sp: Space, att: Att)
    requires Core(s) && Removable(s, sp, att)
    ensures Honest(s, sp, att, s.At(sp).Data().mode, ResultOf(s, sp, att))
  {
    hide SpaceOk, LifeOk, AllDoomed;
    KnownSpace(s, sp);
    assert RootExact(s.spaces, s.life.roots, att) && sp in Holders(s.spaces, att);
    OneHolder(Holders(s.spaces, att), sp);
  }

  /**
   * Exactly the commit that takes an attachment's last hold turns its root into a deletion intent; any other leaves the
   * root, and every intent, in place.
   */
  lemma LastHoldGivesUp(s: Sys, sp: Space, att: Att, room: nat)
    requires Core(s) && Removable(s, sp, att) && room >= 5
    ensures var l, m, g := s.life, RemoveLife(s, sp, att, room), s.life.roots[att].data.generation;
      if Without(s.At(sp).holds[att].data.links, GoneFrom(s, sp, att, room)) == [] && Others(s.spaces, sp, att) == {}
      then att !in m.roots && (sp, g) in m.intents && m.intents[(sp, g)].data.kind == Delete && (sp, g) !in l.intents
      else att in m.roots && m.roots[att].data.generation == g && m.intents == l.intents
  {
    hide SpaceOk, LifeOk, AllDoomed, GoneFrom, Without;
    KnownSpace(s, sp);
    assert RootExact(s.spaces, s.life.roots, att) && sp in Holders(s.spaces, att);
    OneHolder(Holders(s.spaces, att), sp);
  }

  lemma OneHolder(holders: set<Space>, sp: Space)
    requires sp in holders
    ensures |holders| == 1 <==> holders - {sp} == {}
  {
    assert |holders - {sp}| == |holders| - 1;
  }

  lemma {:induction false} RemoveAllRecords(s: Sys, sp: Space, page: seq<LinkRow>, room: nat)
    requires Core(s) && InHolds(s.At(sp)) && CandidateRun(s.At(sp), page)
    ensures RemoveAll(s, sp, page, room).Some? && Records(s, RemoveAll(s, sp, page, room).value, sp)
    decreases |page|
  {
    hide Core, CandidateRun, Removable, RemoveOne, Cost, InHolds, Honest;
    RemoveAllCore(s, sp, page, room);
    if page != [] && room >= 5 {
      var att := page[0].att;
      RemoveOneCore(s, sp, page, room);
      RemoveOneRecords(s, sp, page, room);
      var n := RemoveOne(s, sp, att, page[0].link.sequence, room);
      if !(s.At(sp).Data().mode == Release && att in n.At(sp).holds) {
        NextRun(s, sp, page, room);
        var left: nat := if Cost(s, sp, att, room) > room then 0 else room - Cost(s, sp, att, room);
        RemoveAllRecords(n, sp, page[1..], left);
        RecordsChain(s, n, RemoveAll(n, sp, page[1..], left).value, sp);
      }
    }
  }

  // ----- Any step -----

  /** What any step does to the rows of the operation a space names before and after it. */
  ghost predicate Keeps(s: Sys, n: Sys, sp: Space, op: Op)
  {
    var x, y := s.At(sp), n.At(sp);
    && (forall k :: k in x.results && k.0 == op ==> k in y.results && y.results[k] == x.results[k])
    && (forall k :: k in y.results && k.0 == op && k !in x.results ==>
          Releasing(x.Data()) && Honest(s, sp, k.1.att, x.Data().mode, y.results[k]))
    && (Releasing(y.Data()) ==> y.Data().mode == x.Data().mode && y.Data().episode == x.Data().episode)
  }

  ghost predicate SameReceipt(x: SpaceState, y: SpaceState, op: Op)
  {
    && (forall k: (Op, SortKey) :: k.0 == op ==> Lookup(x.results, k) == Lookup(y.results, k))
    && (Releasing(y.Data()) ==> y.Data().mode == x.Data().mode && y.Data().episode == x.Data().episode)
  }

  /** No transaction but a release step touches rows of the operation its space goes on naming. */
  lemma OtherKeeps(s: Sys, a: CatalogAction, op: Op)
    requires Inv(s) && CatalogEnabled(s, a) && !a.Remove?
    requires Names(s.At(Where(s, a)), op) && Names(CatalogApply(s, a).At(Where(s, a)), op)
    ensures SameReceipt(s.At(Where(s, a)), CatalogApply(s, a).At(Where(s, a)), op)
  {
    hide RootsExact, LifeOk, AllDoomed, RowsOk, EpisodeCatalog.Progress, CatalogEnabled, CatalogApply;
    SpaceIsOk(s, Where(s, a));
    match a {
      case Prune(_, _, _) => PruneKeeps(s, a, op);
      case Migrate(w, rows) => MigrateKeeps(s, a, op);
      case _ => SimpleKeeps(s, a, op);
    }
  }

  lemma PruneKeeps(s: Sys, a: CatalogAction, op: Op)
    requires WatchersOk(s) && CatalogEnabled(s, a) && a.Prune? && Names(s.At(Where(s, a)), op)
    ensures SameReceipt(s.At(Where(s, a)), CatalogApply(s, a).At(Where(s, a)), op)
  {
    assert WatcherOk(s.Of(a.w), s.watchers[a.w]);
  }

  lemma MigrateKeeps(s: Sys, a: CatalogAction, op: Op)
    requires CatalogEnabled(s, a) && a.Migrate? && Names(s.At(Where(s, a)), op)
    ensures SameReceipt(s.At(Where(s, a)), CatalogApply(s, a).At(Where(s, a)), op)
  {
    hide SpaceOk;
    MigratePageMode(s.Of(a.w), a.holdPage);
  }

  lemma SimpleKeeps(s: Sys, a: CatalogAction, op: Op)
    requires CatalogEnabled(s, a) && !a.Remove? && !a.Migrate? && !a.Prune? && ModeOk(s.At(Where(s, a)).Data(), s.At(Where(s, a)).ops)
    requires Names(s.At(Where(s, a)), op) && Names(CatalogApply(s, a).At(Where(s, a)), op)
    ensures SameReceipt(s.At(Where(s, a)), CatalogApply(s, a).At(Where(s, a)), op)
  {
    hide SawCandidates, RemoveAll, HoldsPhase, Swept, DoomedOf, CollectLife;
  }

  lemma {:induction false} IndexPageMode(ss: SpaceState, rows: seq<Row<Hold>>, room: nat)
    requires ss.control.Some? && (rows != [] ==> OffsetsFit(ss.Data(), rows))
    ensures var r := IndexPage(ss, rows, room); r.results == ss.results && r.Data().mode == ss.Data().mode
    decreases |rows|
  {
    if rows != [] {
      var h, c := rows[0].data, ss.Data();
      var to := Min(|h.links|, c.offset + room);
      var advanced := ss.(index := AddLinks(ss.index, h, c.offset, to)).With(c.(after := Some(h.attachment.id), offset := 0));
      if to == |h.links| && to - c.offset != room {
        IndexPageMode(advanced, rows[1..], room - (to - c.offset));
      }
    }
  }

  lemma MigratePageMode(ss: SpaceState, rows: seq<Row<Hold>>)
    requires ss.control.Some? && OffsetsFit(ss.Data(), rows) && ss.Data().mode == Mode.Migrate
    ensures var r := MigratePage(ss, rows); r.results == ss.results && !Releasing(r.Data())
  {
    if rows != [] { IndexPageMode(ss, rows, TRANSACTION_ROWS); }
  }

  lemma RemoveKeeps(s: Sys, a: CatalogAction, op: Op)
    requires Inv(s) && CatalogEnabled(s, a) && a.Remove? && Names(s.At(Where(s, a)), op)
    ensures Keeps(s, CatalogApply(s, a), Where(s, a), op)
  {
    hide SpaceOk, RootsExact, LifeOk, AllDoomed, SawCandidates, CandidateRun, RemoveAll, Honest, WatchersOk;
    SeenCandidates(s, a.w, a.page);
    RemoveAllRecords(s, s.watchers[a.w].space, a.page, TRANSACTION_ROWS);
    RemoveAllCore(s, s.watchers[a.w].space, a.page, TRANSACTION_ROWS);
  }

  lemma SameKeeps(s: Sys, n: Sys, sp: Space, op: Op)
    requires SameReceipt(s.At(sp), n.At(sp), op)
    ensures Keeps(s, n, sp, op)
  {
    hide Honest;
    var x, y := s.At(sp).results, n.At(sp).results;
    assert forall k: (Op, SortKey) :: k in x <==> Lookup(x, k).Some?;
    assert forall k: (Op, SortKey) :: k in y <==> Lookup(y, k).Some?;
  }

  lemma CatalogKeeps(s: Sys, a: CatalogAction, sp: Space, op: Op)
    requires Inv(s) && CatalogEnabled(s, a) && Names(s.At(sp), op) && Names(CatalogApply(s, a).At(sp), op)
    ensures Keeps(s, CatalogApply(s, a), sp, op)
  {
    hide Inv, SawCandidates, RemoveAll, CatalogEnabled, CatalogApply, Honest, Where;
    if sp != Where(s, a) {
      Untouched(s, a, sp);
    } else if a.Remove? {
      RemoveKeeps(s, a, op);
    } else {
      OtherKeeps(s, a, op);
      SameKeeps(s, CatalogApply(s, a), sp, op);
    }
  }

  lemma Untouched(s: Sys, a: CatalogAction, sp: Space)
    requires Inv(s) && CatalogEnabled(s, a) && sp != Where(s, a)
    ensures CatalogApply(s, a).At(sp) == s.At(sp)
  {
    hide SpaceOk, RootsExact, LifeOk, AllDoomed, SawCandidates, CandidateRun, RemoveAll, WatchersOk;
    if a.Remove? {
      SeenCandidates(s, a.w, a.page);
      RemoveAllCore(s, s.watchers[a.w].space, a.page, TRANSACTION_ROWS);
    }
  }

  lemma StepKeeps(s: Sys, a: Action, sp: Space, op: Op)
    requires Inv(s) && Enabled(s, a) && Names(s.At(sp), op) && Names(Apply(s, a).At(sp), op)
    ensures Keeps(s, Apply(s, a), sp, op)
  {
    hide Inv, CatalogEnabled, CatalogApply, BytesEnabled, BytesApply, Honest, Shows;
    if a.Catalog? {
      CatalogKeeps(s, a.c, sp, op);
    } else {
      assert Apply(s, a).At(sp) == s.At(sp);
    }
  }

  // ----- Whole runs -----

  lemma {:induction false} RetiredStays(s: Sys, run: seq<Action>, sp: Space, op: Op)
    requires Inv(s) && Valid(s, run) && AllGuarded(s, run) && Retired(s.At(sp), op)
    ensures Retired(After(s, run).At(sp), op)
    decreases |run|
  {
    hide Inv, Enabled, Apply, GuardedStep;
    if run != [] {
      SpaceStep(s, run[0], sp);
      StepInv(s, run[0]);
      RetiredStays(Apply(s, run[0]), run[1..], sp, op);
    }
  }

  /** While a space names an operation at both ends of a run, it names it throughout. */
  lemma NamedNext(s: Sys, run: seq<Action>, sp: Space, op: Op)
    requires Inv(s) && Valid(s, run) && AllGuarded(s, run) && run != []
    requires Names(s.At(sp), op) && Names(After(s, run).At(sp), op)
    ensures Names(Apply(s, run[0]).At(sp), op) && Keeps(s, Apply(s, run[0]), sp, op) && Inv(Apply(s, run[0]))
  {
    hide Inv, Enabled, Apply, GuardedStep, Keeps, SpaceOk;
    var n := Apply(s, run[0]);
    SpaceStep(s, run[0], sp);
    StepInv(s, run[0]);
    NamedInOps(s, sp, op);
    if !Names(n.At(sp), op) { RetiredStays(n, run[1..], sp, op); } else { StepKeeps(s, run[0], sp, op); }
  }

  lemma NamedInOps(s: Sys, sp: Space, op: Op)
    requires Inv(s) && Names(s.At(sp), op)
    ensures op in s.At(sp).ops && s.At(sp).Data().version == 1 && s.At(sp).control.Some?
    ensures s.At(sp).Data().mode != Mode.Migrate
  {
    SpaceIsOk(s, sp);
  }

  /**
   * The rows of one release are written once; and once it has finished, every later reader that finds its operation
   * still named reads the same complete receipt.
   */
  lemma {:induction false} ReceiptStays(s: Sys, run: seq<Action>, sp: Space, op: Op)
    requires Inv(s) && Valid(s, run) && AllGuarded(s, run)
    requires Names(s.At(sp), op) && Names(After(s, run).At(sp), op)
    ensures forall k :: k in Receipt(s.At(sp), op) ==>
      k in Receipt(After(s, run).At(sp), op) && Receipt(After(s, run).At(sp), op)[k] == Receipt(s.At(sp), op)[k]
    ensures Finished(s.At(sp), op) ==> Finished(After(s, run).At(sp), op) && Receipt(After(s, run).At(sp), op) == Receipt(s.At(sp), op)
    decreases |run|
  {
    hide Inv, Enabled, Apply, GuardedStep, Honest;
    if run != [] {
      NamedNext(s, run, sp, op);
      NamedInOps(Apply(s, run[0]), sp, op);
      ReceiptStays(Apply(s, run[0]), run[1..], sp, op);
    }
  }

  /** Throughout a run, another space holds the attachment, or throughout none does. */
  ghost predicate Steady(s: Sys, run: seq<Action>, sp: Space, att: Att, alone: bool)
    requires Valid(s, run)
    decreases |run|
  {
    (Others(s.spaces, sp, att) == {} <==> alone) && (run != [] ==> Steady(Apply(s, run[0]), run[1..], sp, att, alone))
  }

  /** The results about an attachment say what became of its bytes. */
  ghost predicate Told(ss: SpaceState, op: Op, mode: Mode, att: Att, alone: bool)
  {
    forall k :: k in ss.results && k.0 == op && k.1.att == att ==>
      (ss.results[k].generation.Some? <==> alone) && (ss.results[k].released <==> mode == Unlink || alone)
  }

  lemma {:induction false} ToldStays(s: Sys, run: seq<Action>, sp: Space, op: Op, mode: Mode, att: Att, alone: bool)
    requires Inv(s) && Valid(s, run) && AllGuarded(s, run)
    requires Names(s.At(sp), op) && Names(After(s, run).At(sp), op) && (Releasing(s.At(sp).Data()) ==> s.At(sp).Data().mode == mode)
    requires Steady(s, run, sp, att, alone) && Told(s.At(sp), op, mode, att, alone)
    ensures Told(After(s, run).At(sp), op, mode, att, alone)
    decreases |run|
  {
    hide Inv, Enabled, Apply, GuardedStep, Others;
    if run != [] {
      NamedNext(s, run, sp, op);
      ToldStays(Apply(s, run[0]), run[1..], sp, op, mode, att, alone);
    }
  }

  /** A release that has just begun has no results. */
  lemma NothingTold(s: Sys, sp: Space, episode: Episode, op: Op)
    requires Inv(s) && CatalogEnabled(s, Begin(sp, episode, op))
    ensures var ss := CatalogApply(s, Begin(sp, episode, op)).At(sp); Receipt(ss, op) == map[] && Names(ss, op) && Releasing(ss.Data())
  {
    hide RowsOk, EpisodeCatalog.Progress, LifeOk, RootsExact, AllDoomed, WatchersOk;
    SpaceIsOk(s, sp);
  }

  /** Once a release has ended, the bytes it gave up are gone, and no intent row of the space names them. */
  lemma EndedGone(s: Sys, sp: Space, op: Op, key: SortKey)
    requires Inv(s) && Finished(s.At(sp), op) && key in Receipt(s.At(sp), op) && Receipt(s.At(sp), op)[key].generation.Some?
    ensures var g := Receipt(s.At(sp), op)[key].generation.value; g !in s.life.objects && !HasIntent(s.life, g)
  {
    hide SpacesOk, RootsExact, WatchersOk;
    var g := s.At(sp).results[(op, key)].generation.value;
    KnownSpace(s, sp);
    assert ResultsDoomed(sp, s.spaces[sp], s.life) && Doom(s.life, sp, g);
    GensOk(s.life, g);
  }

  /** A space once migrated stays migrated, so a put or link that has seen it migrated need not look again. */
  lemma CatalogedStep(s: Sys, a: CatalogAction, sp: Space)
    requires Inv(s) && CatalogEnabled(s, a) && s.At(sp).control.Some? && s.At(sp).Data().version == 1
    ensures CatalogApply(s, a).At(sp).Data().version == 1
  {
    hide Inv, CatalogEnabled, CatalogApply, Where;
    if sp != Where(s, a) {
      Untouched(s, a, sp);
    } else if a.Remove? {
      RemoveVersion(s, a);
    } else {
      assert ModeOk(s.At(sp).Data(), s.At(sp).ops) by { SpaceMode(s, sp); }
      PlainVersion(s, a);
    }
  }

  lemma SpaceMode(s: Sys, sp: Space)
    requires Inv(s)
    ensures ModeOk(s.At(sp).Data(), s.At(sp).ops)
  {
    SpaceIsOk(s, sp);
  }

  lemma RemoveVersion(s: Sys, a: CatalogAction)
    requires Inv(s) && CatalogEnabled(s, a) && a.Remove?
    ensures CatalogApply(s, a).At(Where(s, a)).Data().version == s.At(Where(s, a)).Data().version
  {
    hide SpaceOk, RootsExact, LifeOk, AllDoomed, SawCandidates, CandidateRun, RemoveAll, WatchersOk, Honest;
    SeenCandidates(s, a.w, a.page);
    RemoveAllRecords(s, s.watchers[a.w].space, a.page, TRANSACTION_ROWS);
    RemoveAllCore(s, s.watchers[a.w].space, a.page, TRANSACTION_ROWS);
  }

  lemma PlainVersion(s: Sys, a: CatalogAction)
    requires CatalogEnabled(s, a) && !a.Remove? && ModeOk(s.At(Where(s, a)).Data(), s.At(Where(s, a)).ops)
    requires s.At(Where(s, a)).control.Some? && s.At(Where(s, a)).Data().version == 1
    ensures CatalogApply(s, a).At(Where(s, a)).Data().version == 1
  {
    hide SawCandidates, HoldsPhase, Swept, DoomedOf, CollectLife;
  }

  lemma {:induction false} CatalogedStays(s: Sys, run: seq<Action>, sp: Space)
    requires Inv(s) && Valid(s, run) && AllGuarded(s, run) && s.At(sp).control.Some? && s.At(sp).Data().version == 1
    ensures After(s, run).At(sp).control.Some? && After(s, run).At(sp).Data().version == 1
    decreases |run|
  {
    hide Inv, CatalogEnabled, CatalogApply, BytesEnabled, BytesApply, GuardedStep, Shows;
    if run != [] {
      if run[0].Catalog? { CatalogedStep(s, run[0].c, sp); }
      SpaceStep(s, run[0], sp);
      StepInv(s, run[0]);
      CatalogedStays(Apply(s, run[0]), run[1..], sp);
    }
  }
}
