/**
 * The life of a generation: drawn for an upload, published under a root,
 * given up to deletion, gone - or fenced off by recovery. Nothing here reads
 * a space, so every fact holds whatever the spaces do meanwhile.
 */
module BlobLifecycle {
  import opened Prelude
  import opened BlobTypes
  import opened BlobProtocol

  ghost predicate Published(l: Life, g: Gen)
  {
    g in l.gens && l.gens[g] in l.roots && l.roots[l.gens[g]].data.generation == g
  }

  ghost predicate HasIntent(l: Life, g: Gen) { exists sp: Space :: (sp, g) in l.intents }

  ghost predicate SentOrLater(stage: Stage) { stage.Sent? || stage.Recorded? || stage.Resting? }

  /** The intent rows of a generation: one at most, none once it is published. */
  ghost predicate IntentOk(l: Life, g: Gen, sp: Space)
  {
    && (sp, g) in l.intents && g in l.gens && l.intents[(sp, g)].data.att == l.gens[g] && !Published(l, g)
    && (l.intents[(sp, g)].data.kind == Delete ==> g !in l.uploaders)
    && forall other: Space :: (other, g) in l.intents ==> other == sp
  }

  /** While its uploader may still act, a generation has an intent row, and a sent object is there until fenced. */
  ghost predicate UploaderOk(l: Life, g: Gen)
  {
    g in l.uploaders ==>
      var u := l.uploaders[g];
      && g in l.gens && (u.space, g) in l.intents
      && (u.stage.Sending? || u.stage.Sent? ==> u.stage.row.data.att == l.gens[g])
      && (SentOrLater(u.stage) && l.intents[(u.space, g)].data.kind == Upload ==> g in l.objects)
  }

  ghost predicate GenOk(l: Life, g: Gen)
  {
    && (forall sp: Space :: (sp, g) in l.intents ==> IntentOk(l, g, sp)) && UploaderOk(l, g)
    && (Published(l, g) ==> g in l.objects && g !in l.uploaders)
    && (g in l.objects ==> Published(l, g) || HasIntent(l, g))
    && (g in l.objects ==> g in l.gens)
  }

  /** Never to be published again: not published, and every intent row a fence. */
  ghost predicate Dead(l: Life, g: Gen)
  {
    g in l.gens && !Published(l, g) && forall sp: Space :: (sp, g) in l.intents ==> l.intents[(sp, g)].data.kind != Upload
  }

  ghost predicate SweepOk(l: Life, w: Sweep)
  {
    && Dead(l, w.gen) && w.row.data.att == l.gens[w.gen] && w.row.data.kind != Upload
    && (w.row.data.kind == Delete ==> w.gen !in l.uploaders)
    && (w.row.data.kind == Delete && w.at == Acking ==> w.gen !in l.objects)
  }

  ghost predicate RootGens(l: Life)
  {
    forall a :: a in l.roots ==> l.roots[a].data.generation in l.gens && l.gens[l.roots[a].data.generation] == a
  }

  ghost predicate LifeOk(l: Life)
  {
    RootGens(l) && (forall g: Gen :: GenOk(l, g)) && forall t :: t in l.sweeps ==> SweepOk(l, l.sweeps[t])
  }

  /** The uploader writes its version back over a row that is still an upload. */
  predicate Guarded(l: Life, a: BytesAction)
  {
    a.RecordVersion? && a.g in l.uploaders && l.uploaders[a.g].stage.Sent? ==>
      l.uploaders[a.g].stage.row.data.kind == Upload
  }

  /** The one generation a step on bytes concerns. */
  function Subject(l: Life, a: BytesAction): Option<Gen>
  {
    match a
    case NewUpload(_, g, _) => Some(g)
    case ReadBack(g) => Some(g)
    case PutObject(g) => Some(g)
    case RecordVersion(g, _) => Some(g)
    case Reread(g) => Some(g)
    case Dispose(g) => Some(g)
    case Fence(_, _, g) => Some(g)
    case StartSweep(_, _, g) => Some(g)
    case Refresh(t) => if t in l.sweeps then Some(l.sweeps[t].gen) else None
    case CheckRoot(t) => if t in l.sweeps then Some(l.sweeps[t].gen) else None
    case DeleteObject(t) => if t in l.sweeps then Some(l.sweeps[t].gen) else None
    case Acknowledge(t) => if t in l.sweeps then Some(l.sweeps[t].gen) else None
  }

  /** Two states agree on everything about one generation except its root. */
  ghost predicate SameGen(l: Life, m: Life, g: Gen)
  {
    && Lookup(l.gens, g) == Lookup(m.gens, g) && Lookup(l.uploaders, g) == Lookup(m.uploaders, g)
    && (g in l.objects <==> g in m.objects)
    && forall sp: Space :: Lookup(l.intents, (sp, g)) == Lookup(m.intents, (sp, g))
  }

  lemma BytesElsewhere(l: Life, a: BytesAction, g: Gen)
    requires BytesEnabled(l, a) && Subject(l, a) != Some(g)
    ensures SameGen(l, BytesApply(l, a), g) && BytesApply(l, a).roots == l.roots
  {
    match a {
      case NewUpload(_, _, _) =>
      case _ =>
    }
  }

  lemma SameGenOk(l: Life, m: Life, g: Gen)
    requires GenOk(l, g) && SameGen(l, m, g) && (Published(l, g) <==> Published(m, g))
    ensures GenOk(m, g)
  {
    assert forall sp: Space :: (sp, g) in l.intents <==> Lookup(l.intents, (sp, g)).Some?;
    assert forall sp: Space :: (sp, g) in m.intents <==> Lookup(m.intents, (sp, g)).Some?;
    forall sp: Space | (sp, g) in m.intents ensures IntentOk(m, g, sp) { assert IntentOk(l, g, sp); }
    if HasIntent(l, g) { var sp: Space :| (sp, g) in l.intents; assert (sp, g) in m.intents; }
  }

  lemma BytesSubject(l: Life, a: BytesAction, g: Gen)
    requires LifeOk(l) && BytesEnabled(l, a) && Guarded(l, a) && Subject(l, a) == Some(g)
    ensures GenOk(BytesApply(l, a), g)
  {
    var m := BytesApply(l, a);
    assert GenOk(l, g);
    match a {
      case NewUpload(sp, _, _) => assert (sp, g) in m.intents;
      case RecordVersion(_, _) => assert (l.uploaders[g].space, g) in m.intents;
      case _ =>
    }
  }

  lemma DeadStays(l: Life, a: BytesAction, g: Gen)
    requires LifeOk(l) && BytesEnabled(l, a) && Guarded(l, a) && Dead(l, g)
    ensures Dead(BytesApply(l, a), g) && BytesApply(l, a).gens[g] == l.gens[g]
    ensures g !in l.uploaders ==> g !in BytesApply(l, a).uploaders
  {
    assert GenOk(l, g);
  }

  lemma BytesSweeps(l: Life, a: BytesAction, t: nat)
    requires LifeOk(l) && BytesEnabled(l, a) && Guarded(l, a) && t in BytesApply(l, a).sweeps
    ensures SweepOk(BytesApply(l, a), BytesApply(l, a).sweeps[t])
  {
    var m := BytesApply(l, a);
    var g := m.sweeps[t].gen;
    assert GenOk(l, g);
    if t in l.sweeps {
      assert SweepOk(l, l.sweeps[t]);
      if l.sweeps[t].gen == g { DeadStays(l, a, g); }
    }
  }

  lemma BytesOk(l: Life, a: BytesAction)
    requires LifeOk(l) && BytesEnabled(l, a) && Guarded(l, a)
    ensures LifeOk(BytesApply(l, a))
  {
    var m := BytesApply(l, a);
    forall g: Gen ensures GenOk(m, g) {
      if Subject(l, a) == Some(g) {
        BytesSubject(l, a, g);
      } else {
        BytesElsewhere(l, a, g);
        SameGenOk(l, m, g);
      }
    }
    forall t | t in m.sweeps ensures SweepOk(m, m.sweeps[t]) { BytesSweeps(l, a, t); }
    assert RootGens(m) by { assert forall a :: a in l.roots ==> GenOk(l, l.roots[a].data.generation); }
  }

  // ----- Steps of the catalog that touch roots and intents -----

  /** Counting holds up or down. */
  lemma RecountOk(l: Life, m: Life)
    requires LifeOk(l) && m == l.(roots := m.roots) && m.roots.Keys == l.roots.Keys
    requires forall a :: a in l.roots ==> m.roots[a].data.generation == l.roots[a].data.generation
    ensures LifeOk(m) && forall g: Gen :: SameGen(l, m, g) && (Published(l, g) <==> Published(m, g))
  {
    assert forall g: Gen :: Published(l, g) <==> Published(m, g);
    forall g: Gen ensures GenOk(m, g) { SameGenOk(l, m, g); }
    forall t | t in m.sweeps ensures SweepOk(m, m.sweeps[t]) { assert SweepOk(l, l.sweeps[t]); }
  }

  ghost predicate PublishReady(l: Life, g: Gen, sp: Space)
  {
    && g in l.uploaders && l.uploaders[g].space == sp && l.uploaders[g].stage.Resting? && g in l.gens
    && l.gens[g] !in l.roots && (sp, g) in l.intents && l.intents[(sp, g)].data.kind == Upload
  }

  lemma PublishOk(l: Life, g: Gen, sp: Space, version: Option<nat>)
    requires LifeOk(l) && PublishReady(l, g, sp)
    ensures LifeOk(PublishLife(l, g, sp, version)) && Published(PublishLife(l, g, sp, version), g)
    ensures forall h: Gen :: h != g ==>
      SameGen(l, PublishLife(l, g, sp, version), h) && (Published(l, h) <==> Published(PublishLife(l, g, sp, version), h))
  {
    var m := PublishLife(l, g, sp, version);
    assert GenOk(l, g);
    forall h: Gen ensures GenOk(m, h) {
      if h != g { SameGenOk(l, m, h); }
    }
    forall t | t in m.sweeps ensures SweepOk(m, m.sweeps[t]) { assert SweepOk(l, l.sweeps[t]); }
  }

  /** The last hold goes: the root becomes a deletion intent, and that intent key was free. */
  lemma GiveUpOk(l: Life, sp: Space, att: Att)
    requires LifeOk(l) && att in l.roots
    ensures (sp, l.roots[att].data.generation) !in l.intents && LifeOk(GiveUpLife(l, sp, att))
    ensures var g := l.roots[att].data.generation;
      Published(l, g) && Dead(GiveUpLife(l, sp, att), g)
    ensures forall h: Gen :: h != l.roots[att].data.generation ==>
      SameGen(l, GiveUpLife(l, sp, att), h) && (Published(l, h) <==> Published(GiveUpLife(l, sp, att), h))
  {
    var m, g := GiveUpLife(l, sp, att), l.roots[att].data.generation;
    assert GenOk(l, g);
    assert (sp, g) in m.intents;
    forall h: Gen ensures GenOk(m, h) {
      if h != g { SameGenOk(l, m, h); }
    }
    forall t | t in m.sweeps ensures SweepOk(m, m.sweeps[t]) { assert SweepOk(l, l.sweeps[t]); }
  }

  lemma CollectOk(l: Life, sp: Space, gens: set<Gen>)
    requires LifeOk(l) && forall g :: g in gens ==> Swept(l, sp, g)
    ensures LifeOk(CollectLife(l, sp, gens))
    ensures forall h: Gen :: Published(l, h) <==> Published(CollectLife(l, sp, gens), h)
    ensures forall h: Gen :: h !in gens ==> SameGen(l, CollectLife(l, sp, gens), h)
  {
    var m := CollectLife(l, sp, gens);
    forall h: Gen ensures GenOk(m, h) {
      assert GenOk(l, h);
      if h !in gens {
        SameGenOk(l, m, h);
      } else if (sp, h) in l.intents {
        assert Swept(l, sp, h) && IntentOk(l, h, sp);
        var t :| t in l.sweeps && l.sweeps[t] == Sweep(sp, h, l.intents[(sp, h)], Acking);
        assert SweepOk(l, l.sweeps[t]);
      } else {
        SameGenOk(l, m, h);
      }
    }
    forall t | t in m.sweeps ensures SweepOk(m, m.sweeps[t]) { assert SweepOk(l, l.sweeps[t]); }
  }

  lemma CrashOk(l: Life, g: Gen, t: nat)
    requires LifeOk(l)
    ensures LifeOk(l.(uploaders := l.uploaders - {g}, sweeps := l.sweeps - {t}))
  {
    var m := l.(uploaders := l.uploaders - {g}, sweeps := l.sweeps - {t});
    forall h: Gen ensures GenOk(m, h) {
      assert GenOk(l, h);
      forall sp: Space | (sp, h) in m.intents ensures IntentOk(m, h, sp) { assert IntentOk(l, h, sp); }
      if HasIntent(l, h) { var sp: Space :| (sp, h) in l.intents; assert (sp, h) in m.intents; }
    }
    forall u | u in m.sweeps ensures SweepOk(m, m.sweeps[u]) { assert SweepOk(l, l.sweeps[u]); }
  }

  // ----- The life cycle -----

  datatype Status = Unused | Uploading | Live | Deleting | Fenced | Gone

  function OfKind(kind: Kind): Status
  {
    match kind case Upload => Uploading case Delete => Deleting case Abandoned => Fenced
  }

  ghost function StatusOf(l: Life, g: Gen): Status
  {
    if g !in l.gens then Unused
    else if Published(l, g) then Live
    else if HasIntent(l, g) then
      var sp: Space :| (sp, g) in l.intents;
      OfKind(l.intents[(sp, g)].data.kind)
    else Gone
  }

  /** The only ways a generation moves. */
  predicate Moves(x: Status, y: Status)
  {
    || x == y || (x == Unused && y == Uploading) || (x == Uploading && (y == Live || y == Deleting || y == Fenced))
    || (x == Live && y == Deleting) || (x == Deleting && y == Gone)
  }

  /** With one intent row at most, any of them tells the status. */
  lemma StatusByIntent(l: Life, g: Gen, sp: Space)
    requires GenOk(l, g) && (sp, g) in l.intents
    ensures StatusOf(l, g) == OfKind(l.intents[(sp, g)].data.kind)
  {
    assert IntentOk(l, g, sp);
  }

  lemma SameStatus(l: Life, m: Life, g: Gen)
    requires GenOk(l, g) && GenOk(m, g) && SameGen(l, m, g) && (Published(l, g) <==> Published(m, g))
    ensures StatusOf(l, g) == StatusOf(m, g)
  {
    if HasIntent(l, g) {
      var sp: Space :| (sp, g) in l.intents;
      assert Lookup(l.intents, (sp, g)) == Lookup(m.intents, (sp, g));
      StatusByIntent(l, g, sp);
      StatusByIntent(m, g, sp);
    }
  }

  lemma BytesMoves(l: Life, a: BytesAction, g: Gen)
    requires LifeOk(l) && BytesEnabled(l, a) && Guarded(l, a)
    ensures Moves(StatusOf(l, g), StatusOf(BytesApply(l, a), g))
  {
    var m := BytesApply(l, a);
    BytesOk(l, a);
    assert GenOk(l, g) && GenOk(m, g);
    if Subject(l, a) != Some(g) {
      BytesElsewhere(l, a, g);
      SameStatus(l, m, g);
    } else if HasIntent(m, g) {
      var sp: Space :| (sp, g) in m.intents;
      StatusByIntent(m, g, sp);
      if (sp, g) in l.intents { StatusByIntent(l, g, sp); }
    } else if HasIntent(l, g) {
      var sp: Space :| (sp, g) in l.intents;
      StatusByIntent(l, g, sp);
    }
  }

  /** Writing the version back over a fenced row brings the generation back to an upload. */
  lemma UnguardedResurrects(l: Life, a: BytesAction)
    requires LifeOk(l) && BytesEnabled(l, a) && !Guarded(l, a)
    ensures a.RecordVersion? && StatusOf(l, a.g) == Fenced && StatusOf(BytesApply(l, a), a.g) == Uploading
    ensures !Moves(StatusOf(l, a.g), StatusOf(BytesApply(l, a), a.g))
  {
    var m, sp := BytesApply(l, a), l.uploaders[a.g].space;
    assert GenOk(l, a.g);
    StatusByIntent(l, a.g, sp);
    assert (sp, a.g) in m.intents;
    forall other: Space | (other, a.g) in m.intents ensures other == sp {}
  }

  // ----- Deletion intents of finished releases -----

  /** Given up by `sp` for good: unpublished, no uploader left, and at most its own deletion intent. */
  ghost predicate Doom(l: Life, sp: Space, g: Gen)
  {
    && Dead(l, g) && g !in l.uploaders
    && forall other: Space :: (other, g) in l.intents ==> other == sp && l.intents[(other, g)].data.kind == Delete
  }

  lemma BytesDoom(l: Life, a: BytesAction, sp: Space, g: Gen)
    requires LifeOk(l) && BytesEnabled(l, a) && Guarded(l, a) && Doom(l, sp, g)
    ensures Doom(BytesApply(l, a), sp, g)
    ensures (sp, g) !in l.intents ==> (sp, g) !in BytesApply(l, a).intents
  {
    assert GenOk(l, g);
    DeadStays(l, a, g);
  }

  lemma SameDoom(l: Life, m: Life, sp: Space, g: Gen)
    requires Doom(l, sp, g) && SameGen(l, m, g) && (Published(l, g) <==> Published(m, g))
    ensures Doom(m, sp, g) && ((sp, g) in m.intents <==> (sp, g) in l.intents)
  {
    assert forall other: Space :: (other, g) in m.intents ==> Lookup(l.intents, (other, g)).Some?;
    assert Lookup(l.intents, (sp, g)) == Lookup(m.intents, (sp, g));
  }

  lemma CollectDoom(l: Life, sp: Space, gens: set<Gen>, other: Space, g: Gen)
    requires Doom(l, other, g)
    ensures Doom(CollectLife(l, sp, gens), other, g)
    ensures (other, g) in CollectLife(l, sp, gens).intents ==> (other, g) in l.intents && !(other == sp && g in gens)
  {}

  /** The check before a delete never finds the generation published. */
  lemma GuardNeverFires(l: Life, t: nat)
    requires LifeOk(l)
    ensures !GuardFires(l, t)
  {
    if t in l.sweeps { assert SweepOk(l, l.sweeps[t]); }
  }
}
