/**
 * The S3/DynamoDB store does what the in-memory store does. A space shows its
 * holds, or, while a release is under way, the holds the release started from;
 * a put, a link and the end of a release are the steps of the in-memory store,
 * and every other step of every client leaves what is shown unchanged.
 */
module BlobRefinement {
  import opened Prelude
  import opened BlobTypes
  import opened EpisodeCatalog
  import opened CatalogProofs
  import opened BlobProtocol
  import opened BlobLifecycle
  import opened BlobInvariants
  import opened BlobRuns
  import opened BlobReads
  import opened BlobReceipts
  import opened BlobSpec

  ghost function View(ss: SpaceState): map<Att, Hold>
  {
    if Releasing(ss.Data()) then ss.base else HoldData(ss)
  }

  ghost predicate Carries(view: map<Att, Hold>, e: Episode, a: Att) { a in view && e in Episodes(view[a].links) }

  ghost function Place(view: map<Att, Hold>, e: Episode, a: Att): nat
  {
    if a in view then SequenceOf(view[a].links, e) else 0
  }

  /** The attachments of an episode, in the order they were linked. */
  ghost predicate Listing(view: map<Att, Hold>, e: Episode, ids: seq<Att>)
  {
    && (forall a: Att :: a in ids <==> Carries(view, e, a))
    && forall i, j :: 0 <= i < j < |ids| ==> Place(view, e, ids[i]) < Place(view, e, ids[j])
  }

  ghost predicate SpaceAbstracts(view: map<Att, Hold>, t: Store, sp: Space)
  {
    && (forall a: Att :: (sp, a) in t.held <==> a in view) && (forall a :: a in view ==> t.held[(sp, a)] == view[a].attachment)
    && forall e: Episode :: Listing(view, e, Linked(t, sp, e))
  }

  ghost predicate Abstracts(s: Sys, t: Store)
  {
    Sane(t) && forall sp: Space :: SpaceAbstracts(View(s.At(sp)), t, sp)
  }

  ghost predicate ViewOk(view: map<Att, Hold>, rev: nat) { forall a :: a in view ==> HoldOk(view[a], a, rev) }

  lemma ViewIsOk(ss: SpaceState)
    requires SpaceOk(ss)
    ensures ViewOk(View(ss), ss.Rev())
  {
    hide HoldOk;
    if Releasing(ss.Data()) { assert ss.Data().operation.Some?; }
  }

  // ----- What the steps do to a view -----

  ghost predicate SameFor(t: Store, n: Store, sp: Space)
  {
    && (forall a: Att :: Lookup(n.held, (sp, a)) == Lookup(t.held, (sp, a)))
    && forall e: Episode :: Linked(n, sp, e) == Linked(t, sp, e)
  }

  lemma OtherSpace(view: map<Att, Hold>, t: Store, n: Store, sp: Space)
    requires SpaceAbstracts(view, t, sp) && SameFor(t, n, sp)
    ensures SpaceAbstracts(view, n, sp)
  {
    hide Listing, Linked;
    forall a: Att ensures (sp, a) in n.held <==> a in view { assert Lookup(n.held, (sp, a)) == Lookup(t.held, (sp, a)); }
    forall a | a in view ensures n.held[(sp, a)] == view[a].attachment { assert Lookup(n.held, (sp, a)) == Lookup(t.held, (sp, a)); }
    forall e: Episode ensures Listing(view, e, Linked(n, sp, e)) { assert Linked(n, sp, e) == Linked(t, sp, e); }
  }

  lemma PutView(view: map<Att, Hold>, t: Store, sp: Space, attachment: Attachment, g: Gen, data: Bytes)
    requires SpaceAbstracts(view, t, sp) && attachment.id !in view
    ensures SpaceAbstracts(view[attachment.id := Hold(attachment, g, [])], PutIn(t, sp, attachment, data), sp)
  {
    var next, n := view[attachment.id := Hold(attachment, g, [])], PutIn(t, sp, attachment, data);
    forall e: Episode ensures Listing(next, e, Linked(n, sp, e)) {
      assert Listing(view, e, Linked(t, sp, e));
      forall a: Att ensures Carries(next, e, a) <==> Carries(view, e, a) {}
    }
  }

  lemma {:induction false} AppendSequence(links: seq<Link>, l: Link, e: Episode)
    requires l.episode !in Episodes(links)
    ensures SequenceOf(links + [l], e) == if e == l.episode then l.sequence else SequenceOf(links, e)
  {
    if links == [] {
      assert links + [l] == [l];
    } else {
      assert (links + [l])[1..] == links[1..] + [l];
      assert links[0] in links;
      AppendSequence(links[1..], l, e);
    }
  }

  lemma {:induction false} PlaceOfEpisode(links: seq<Link>, e: Episode)
    requires e in Episodes(links)
    ensures Link(e, SequenceOf(links, e)) in links
  {
    if links[0].episode == e {
      assert links[0] in links;
    } else {
      var l: Link :| l in links && l.episode == e;
      assert l in links[1..];
      PlaceOfEpisode(links[1..], e);
    }
  }

  lemma LinkView(view: map<Att, Hold>, t: Store, sp: Space, a: Att, e: Episode, rev: nat)
    requires SpaceAbstracts(view, t, sp) && ViewOk(view, rev) && a in view && e !in Episodes(view[a].links)
    ensures SpaceAbstracts(view[a := view[a].(links := view[a].links + [Link(e, rev + 1)])], LinkIn(t, sp, a, e), sp)
  {
    var l := Link(e, rev + 1);
    var next, n := view[a := view[a].(links := view[a].links + [l])], LinkIn(t, sp, a, e);
    assert Listing(view, e, Linked(t, sp, e)) && !Carries(view, e, a);
    forall other: Episode ensures Listing(next, other, Linked(n, sp, other)) {
      assert Listing(view, other, Linked(t, sp, other));
      AppendSequence(view[a].links, l, other);
      LongerEpisodes(view[a].links, l);
      forall b: Att ensures Carries(next, other, b) <==> Carries(view, other, b) || (other == e && b == a) {}
      if other == e { LinkListing(view, next, Linked(t, sp, e), a, e, rev); }
    }
  }

  lemma LongerEpisodes(links: seq<Link>, l: Link)
    ensures Episodes(links + [l]) == Episodes(links) + {l.episode}
  {
    forall e: Episode ensures e in Episodes(links + [l]) <==> e in Episodes(links) || e == l.episode {
      if e in Episodes(links) { var m: Link :| m in links && m.episode == e; assert m in links + [l]; }
      if e == l.episode { assert l in links + [l]; }
    }
  }

  lemma LinkListing(view: map<Att, Hold>, next: map<Att, Hold>, ids: seq<Att>, a: Att, e: Episode, rev: nat)
    requires Listing(view, e, ids) && ViewOk(view, rev) && !Carries(view, e, a) && Place(next, e, a) == rev + 1
    requires forall b: Att :: Carries(next, e, b) <==> Carries(view, e, b) || b == a
    requires forall b: Att :: b != a ==> Place(next, e, b) == Place(view, e, b)
    ensures Listing(next, e, ids + [a])
  {
    forall i | 0 <= i < |ids| ensures Place(next, e, ids[i]) <= rev && ids[i] != a {
      assert ids[i] in ids && Carries(view, e, ids[i]);
      PlaceOfEpisode(view[ids[i]].links, e);
      assert HoldOk(view[ids[i]], ids[i], rev);
    }
  }

  // ----- Unlinking an episode -----

  /** The attachments of a view that only this episode carries. */
  ghost predicate Lone(view: map<Att, Hold>, e: Episode, a: Att)
  {
    Carries(view, e, a) && Without(view[a].links, {e}) == []
  }

  ghost function Unlinked(view: map<Att, Hold>, e: Episode): map<Att, Hold>
  {
    map a | a in view && !Lone(view, e, a) :: view[a].(links := Without(view[a].links, {e}))
  }

  /** The in-memory store releases exactly the attachments that only the episode carries. */
  lemma ReleasedIsLone(view: map<Att, Hold>, t: Store, sp: Space, e: Episode, rev: nat, a: Att)
    requires SpaceAbstracts(view, t, sp) && ViewOk(view, rev)
    ensures a in ReleasedBy(t, sp, e) <==> Lone(view, e, a)
  {
    ExceptMembers(Linked(t, sp, e), Elsewhere(t, sp, e), a);
    assert Listing(view, e, Linked(t, sp, e));
    if Carries(view, e, a) {
      var links := view[a].links;
      assert HoldOk(view[a], a, rev);
      WithoutLinks(links, {e});
      var rest := Without(links, {e});
      if rest != [] {
        assert rest[0] in rest;
        assert Listing(view, rest[0].episode, Linked(t, sp, rest[0].episode)) && Carries(view, rest[0].episode, a);
      }
      if a in Elsewhere(t, sp, e) {
        var k: (Space, Episode) :| k in t.links && k.0 == sp && k.1 != e && a in t.links[k];
        assert Listing(view, k.1, Linked(t, sp, k.1)) && k == (sp, k.1);
        var l: Link :| l in links && l.episode == k.1;
        assert l in rest;
      }
    }
  }

  lemma {:induction false} WithoutPlace(links: seq<Link>, e: Episode, other: Episode)
    requires other != e
    ensures SequenceOf(Without(links, {e}), other) == SequenceOf(links, other)
  {
    if links != [] {
      WithoutPlace(links[1..], e, other);
      var rest := Without(links[1..], {e});
      if links[0].episode != e { assert ([links[0]] + rest)[1..] == rest; }
    }
  }

  lemma UnlinkView(view: map<Att, Hold>, t: Store, sp: Space, e: Episode, rev: nat)
    requires SpaceAbstracts(view, t, sp) && ViewOk(view, rev)
    ensures SpaceAbstracts(Unlinked(view, e), UnlinkFrom(t, sp, e), sp)
  {
    hide Listing, ViewOk, Lone;
    var next, n := Unlinked(view, e), UnlinkFrom(t, sp, e);
    forall a: Att ensures (sp, a) in n.held <==> a in next { ReleasedIsLone(view, t, sp, e, rev, a); }
    forall other: Episode ensures Listing(next, other, Linked(n, sp, other)) {
      UnlinkListing(view, e, other, Linked(t, sp, other), rev);
    }
  }

  lemma UnlinkListing(view: map<Att, Hold>, e: Episode, other: Episode, ids: seq<Att>, rev: nat)
    requires Listing(view, other, ids) && ViewOk(view, rev)
    ensures Listing(Unlinked(view, e), other, if other == e then [] else ids)
  {
    var next := Unlinked(view, e);
    forall a: Att ensures Carries(next, other, a) <==> Carries(view, other, a) && other != e
    {
      if a in view {
        assert HoldOk(view[a], a, rev);
        WithoutLinks(view[a].links, {e});
        if other in Episodes(view[a].links) && other != e {
          var l: Link :| l in view[a].links && l.episode == other;
          assert l in Without(view[a].links, {e});
        }
      }
    }
    forall a: Att | a in next && other != e ensures Place(next, other, a) == Place(view, other, a) {
      WithoutPlace(view[a].links, e, other);
    }
    assert forall i :: 0 <= i < |ids| ==> ids[i] in ids;
  }

  lemma ReleaseView(view: map<Att, Hold>, t: Store, sp: Space)
    requires SpaceAbstracts(view, t, sp)
    ensures SpaceAbstracts(map[], ReleaseFrom(t, sp), sp)
  {
    var n := ReleaseFrom(t, sp);
    forall e: Episode ensures Listing(map[], e, Linked(n, sp, e)) {}
    forall a: Att ensures (sp, a) !in n.held { if (sp, a) in t.held { assert a in HeldIn(t, sp); } }
  }

  lemma LetGoSame(t: Store, sp: Space, gone: set<Att>, other: Space)
    requires other != sp
    ensures forall a: Att :: Lookup(LetGo(t, sp, gone).held, (other, a)) == Lookup(t.held, (other, a))
  {}

  // ----- The end of a release -----

  lemma UnlinkEndsAt(c: Control, h: Hold, now: Option<Hold>, listed: bool)
    requires HoldProgress(c, h, now, listed) && c.phase == Gc && c.mode == Unlink
    ensures listed <==> c.episode in Episodes(h.links) && Without(h.links, {c.episode}) == []
    ensures now == if listed then None else Some(h.(links := Without(h.links, {c.episode})))
  {
    if c.episode !in Episodes(h.links) { WithoutAbsent(h.links, c.episode); }
  }

  lemma UnlinkEnds(ss: SpaceState)
    requires SpaceOk(ss) && Releasing(ss.Data()) && ss.Data().phase == Gc && ss.Data().mode == Unlink
    ensures HoldData(ss) == Unlinked(ss.base, ss.Data().episode)
    ensures forall k :: k in ResultKeys(ss, ss.Data().operation.value) <==>
      Lone(ss.base, ss.Data().episode, k.att) && k.sequence == Place(ss.base, ss.Data().episode, k.att)
  {
    hide RowsOk, HoldProgress, HoldOk, Without;
    var c, e, view := ss.Data(), ss.Data().episode, ss.base;
    var op := c.operation.value;
    forall a: Att ensures Lookup(HoldData(ss), a) == Lookup(Unlinked(view, e), a) {
      if a in view { UnlinkEndsAt(c, view[a], Now(ss.holds, a), (op, ResultKey(c, view[a])) in ss.results); }
    }
    assert forall a: Att :: a in HoldData(ss) <==> Lookup(HoldData(ss), a).Some?;
    assert forall a: Att :: a in Unlinked(view, e) <==> Lookup(Unlinked(view, e), a).Some?;
    forall k: SortKey ensures k in ResultKeys(ss, op) <==> Lone(view, e, k.att) && k.sequence == Place(view, e, k.att) {
      assert k in ResultKeys(ss, op) <==> (op, k) in ss.results;
      if k.att in view {
        UnlinkEndsAt(c, view[k.att], Now(ss.holds, k.att), (op, ResultKey(c, view[k.att])) in ss.results);
        assert view[k.att].attachment.id == k.att by { assert HoldOk(view[k.att], k.att, ss.Rev()); KeyOf(view[k.att], k.att, ss.Rev()); }
      }
    }
  }

  lemma KeyOf(h: Hold, att: Att, rev: nat)
    requires HoldOk(h, att, rev)
    ensures h.attachment.id == att
  {}

  lemma ReleaseEndsAt(c: Control, h: Hold, now: Option<Hold>, listed: bool)
    requires HoldProgress(c, h, now, listed) && c.phase == Gc && c.mode == Release
    ensures listed && now.None?
  {}

  lemma ReleaseEnds(ss: SpaceState)
    requires SpaceOk(ss) && Releasing(ss.Data()) && ss.Data().phase == Gc && ss.Data().mode == Release
    ensures HoldData(ss) == map[]
    ensures forall k :: k in ResultKeys(ss, ss.Data().operation.value) <==> k.att in ss.base && k.sequence == 0
  {
    hide RowsOk, HoldProgress, HoldOk;
    var c, view := ss.Data(), ss.base;
    var op := c.operation.value;
    forall a: Att ensures a !in ss.holds {
      if a in view { ReleaseEndsAt(c, view[a], Now(ss.holds, a), (op, ResultKey(c, view[a])) in ss.results); }
    }
    forall k: SortKey ensures k in ResultKeys(ss, op) <==> k.att in view && k.sequence == 0 {
      assert k in ResultKeys(ss, op) <==> (op, k) in ss.results;
      if k.att in view {
        ReleaseEndsAt(c, view[k.att], Now(ss.holds, k.att), (op, ResultKey(c, view[k.att])) in ss.results);
        KeyOf(view[k.att], k.att, ss.Rev());
      }
    }
  }

  // ----- The simulation -----

  /** The step of the in-memory store a step of the S3 store stands for; most stand for none. */
  function SpecStep(s: Sys, a: Action, t: Store, content: Att -> Bytes): Store
  {
    match a
    case Catalog(Join(sp, attachment)) => PutIn(t, sp, attachment, content(attachment.id))
    case Catalog(Publish(g, attachment)) => PutIn(t, Where(s, a.c), attachment, content(attachment.id))
    case Catalog(AddEpisode(sp, att, episode)) => LinkIn(t, sp, att, episode)
    case Catalog(End(w)) =>
      var sp := Where(s, a.c);
      if s.At(sp).Data().mode == Unlink then UnlinkFrom(t, sp, s.At(sp).Data().episode) else ReleaseFrom(t, sp)
    case _ => t
  }

  /** Steps that stand for no step of the in-memory store. */
  predicate Silent(a: CatalogAction) { !a.Join? && !a.Publish? && !a.AddEpisode? && !a.End? }

  lemma SilentView(s: Sys, a: CatalogAction)
    requires Inv(s) && CatalogEnabled(s, a) && Silent(a)
    ensures View(CatalogApply(s, a).At(Where(s, a))) == View(s.At(Where(s, a)))
  {
    hide RootsExact, LifeOk, AllDoomed, WatchersOk, RowsOk, EpisodeCatalog.Progress, CatalogEnabled, CatalogApply;
    SpaceIsOk(s, Where(s, a));
    if a.Remove? {
      RemoveView(s, a);
    } else if a.Migrate? {
      MigrateView(s, a);
    } else {
      PlainView(s, a);
    }
  }

  lemma RemoveView(s: Sys, a: CatalogAction)
    requires Inv(s) && CatalogEnabled(s, a) && a.Remove?
    ensures View(CatalogApply(s, a).At(Where(s, a))) == View(s.At(Where(s, a)))
  {
    hide SpaceOk, RootsExact, LifeOk, AllDoomed, SawCandidates, CandidateRun, RemoveAll, WatchersOk, Honest;
    SeenCandidates(s, a.w, a.page);
    RemoveAllRecords(s, s.watchers[a.w].space, a.page, TRANSACTION_ROWS);
    RemoveAllCore(s, s.watchers[a.w].space, a.page, TRANSACTION_ROWS);
  }

  lemma MigrateView(s: Sys, a: CatalogAction)
    requires CatalogEnabled(s, a) && a.Migrate?
    ensures View(CatalogApply(s, a).At(Where(s, a))) == View(s.At(Where(s, a)))
  {
    MigratePageMode(s.Of(a.w), a.holdPage);
  }

  lemma PlainView(s: Sys, a: CatalogAction)
    requires CatalogEnabled(s, a) && Silent(a) && !a.Remove? && !a.Migrate? && ControlOk(s.At(Where(s, a)))
    ensures View(CatalogApply(s, a).At(Where(s, a))) == View(s.At(Where(s, a)))
  {
    hide SawCandidates, Swept, DoomedOf, CollectLife, ResultsOwned;
  }

  lemma JoinView(s: Sys, a: CatalogAction)
    requires CatalogEnabled(s, a) && (a.Join? || a.Publish?)
    ensures var x, y := View(s.At(Where(s, a))), View(CatalogApply(s, a).At(Where(s, a)));
      a.attachment.id !in x && exists g :: y == x[a.attachment.id := Hold(a.attachment, g, [])]
  {
    var g := if a.Join? then s.life.roots[a.attachment.id].data.generation else a.g;
    var x, y := View(s.At(Where(s, a))), View(CatalogApply(s, a).At(Where(s, a)));
    assert y == x[a.attachment.id := Hold(a.attachment, g, [])];
  }

  lemma AddEpisodeView(s: Sys, a: CatalogAction)
    requires CatalogEnabled(s, a) && a.AddEpisode?
    ensures var x, y := View(s.At(a.sp)), View(CatalogApply(s, a).At(a.sp));
      && a.att in x && a.episode !in Episodes(x[a.att].links)
      && y == x[a.att := x[a.att].(links := x[a.att].links + [Link(a.episode, s.At(a.sp).Rev() + 1)])]
  {}

  lemma EndView(s: Sys, a: CatalogAction)
    requires Inv(s) && CatalogEnabled(s, a) && a.End?
    ensures var ss := s.At(Where(s, a));
      && Releasing(ss.Data())
      && View(CatalogApply(s, a).At(Where(s, a))) == if ss.Data().mode == Unlink then Unlinked(View(ss), ss.Data().episode) else map[]
  {
    hide RootsExact, LifeOk, AllDoomed, WatchersOk, SpaceOk;
    var ss := s.At(Where(s, a));
    SpaceIsOk(s, Where(s, a));
    if ss.Data().mode == Unlink { UnlinkEnds(ss); } else { ReleaseEnds(ss); }
  }

  lemma LinkSameFor(t: Store, sp: Space, id: Att, e: Episode, other: Space)
    requires other != sp
    ensures SameFor(t, LinkIn(t, sp, id, e), other)
  {}

  lemma LetGoSameFor(t: Store, sp: Space, e: Episode, other: Space)
    requires other != sp
    ensures SameFor(t, UnlinkFrom(t, sp, e), other) && SameFor(t, ReleaseFrom(t, sp), other)
  {
    LetGoSame(t, sp, HeldIn(t, sp), other);
    LetGoSame(t, sp, Members(ReleasedBy(t, sp, e)), other);
  }

  lemma SpecElsewhere(s: Sys, a: CatalogAction, t: Store, content: Att -> Bytes, sp: Space)
    requires sp != Where(s, a)
    ensures SameFor(t, SpecStep(s, Catalog(a), t, content), sp)
  {
    hide SameFor;
    match a {
      case Join(other, attachment) => PutSameFor(t, other, attachment, content(attachment.id), sp);
      case Publish(g, attachment) => PutSameFor(t, Where(s, a), attachment, content(attachment.id), sp);
      case AddEpisode(other, att, episode) => LinkSameFor(t, other, att, episode, sp);
      case End(w) => LetGoSameFor(t, Where(s, a), s.At(Where(s, a)).Data().episode, sp);
      case _ => SameAsItself(t, sp);
    }
  }

  lemma PutSameFor(t: Store, sp: Space, attachment: Attachment, data: Bytes, other: Space)
    requires other != sp
    ensures SameFor(t, PutIn(t, sp, attachment, data), other)
  {}

  lemma SameAsItself(t: Store, sp: Space)
    ensures SameFor(t, t, sp)
  {}

  lemma SpecHere(s: Sys, a: CatalogAction, t: Store, content: Att -> Bytes)
    requires Inv(s) && CatalogEnabled(s, a) && SpaceAbstracts(View(s.At(Where(s, a))), t, Where(s, a))
    ensures SpaceAbstracts(View(CatalogApply(s, a).At(Where(s, a))), SpecStep(s, Catalog(a), t, content), Where(s, a))
  {
    hide Inv, CatalogEnabled, CatalogApply, SpaceAbstracts, View, PutIn, LinkIn, UnlinkFrom, ReleaseFrom, Unlinked;
    var sp := Where(s, a);
    var view, rev := View(s.At(sp)), s.At(sp).Rev();
    InvSpace(s, sp);
    ViewIsOk(s.At(sp));
    if a.Join? || a.Publish? {
      JoinView(s, a);
      var g :| View(CatalogApply(s, a).At(sp)) == view[a.attachment.id := Hold(a.attachment, g, [])];
      PutView(view, t, sp, a.attachment, g, content(a.attachment.id));
    } else if a.AddEpisode? {
      AddEpisodeView(s, a);
      LinkView(view, t, sp, a.att, a.episode, rev);
    } else if a.End? {
      EndView(s, a);
      if s.At(sp).Data().mode == Unlink { UnlinkView(view, t, sp, s.At(sp).Data().episode, rev); } else { ReleaseView(view, t, sp); }
    } else {
      SilentView(s, a);
    }
  }

  lemma SpecSane(s: Sys, a: Action, t: Store, content: Att -> Bytes)
    requires Sane(t)
    ensures Sane(SpecStep(s, a, t, content))
  {
    hide Sane, PutIn, LinkIn, UnlinkFrom, ReleaseFrom;
    match a {
      case Catalog(Join(sp, attachment)) => PutSane(t, sp, attachment, content(attachment.id));
      case Catalog(Publish(g, attachment)) => PutSane(t, Where(s, a.c), attachment, content(attachment.id));
      case Catalog(AddEpisode(sp, att, episode)) => LinkSane(t, sp, att, episode);
      case Catalog(End(w)) =>
        UnlinkSane(t, Where(s, a.c), s.At(Where(s, a.c)).Data().episode);
        ReleaseSane(t, Where(s, a.c));
      case _ =>
    }
  }

  /** Every step of the S3 store is a step of the in-memory store, or shows nothing new. */
  lemma StepSimulates(s: Sys, a: Action, t: Store, content: Att -> Bytes)
    requires Inv(s) && Enabled(s, a) && Abstracts(s, t)
    ensures Abstracts(Apply(s, a), SpecStep(s, a, t, content))
  {
    hide Inv, CatalogEnabled, CatalogApply, BytesEnabled, BytesApply, SpaceAbstracts, View, Sane, Shows;
    var n, u := Apply(s, a), SpecStep(s, a, t, content);
    SpecSane(s, a, t, content);
    if a.Catalog? {
      forall sp: Space ensures SpaceAbstracts(View(n.At(sp)), u, sp) {
        assert SpaceAbstracts(View(s.At(sp)), t, sp);
        if sp == Where(s, a.c) {
          SpecHere(s, a.c, t, content);
        } else {
          Untouched(s, a.c, sp);
          SpecElsewhere(s, a.c, t, content, sp);
          OtherSpace(View(s.At(sp)), t, u, sp);
        }
      }
    } else {
      assert u == t;
      forall sp: Space ensures SpaceAbstracts(View(n.At(sp)), u, sp) { assert n.At(sp) == s.At(sp) && SpaceAbstracts(View(s.At(sp)), t, sp); }
    }
  }

  ghost function SpecAfter(s: Sys, run: seq<Action>, t: Store, content: Att -> Bytes): Store
    requires Valid(s, run)
    decreases |run|
  {
    if run == [] then t else SpecAfter(Apply(s, run[0]), run[1..], SpecStep(s, run[0], t, content), content)
  }

  /** Whole runs, of any number of clients: the in-memory store run alongside always shows the same holds and links. */
  lemma {:induction false} RunSimulates(s: Sys, run: seq<Action>, t: Store, content: Att -> Bytes)
    requires Inv(s) && Valid(s, run) && AllGuarded(s, run) && Abstracts(s, t)
    ensures Abstracts(After(s, run), SpecAfter(s, run, t, content))
    decreases |run|
  {
    hide Inv, Enabled, Apply, GuardedStep, Abstracts, SpecStep;
    if run != [] {
      StepInv(s, run[0]);
      StepSimulates(s, run[0], t, content);
      RunSimulates(Apply(s, run[0]), run[1..], SpecStep(s, run[0], t, content), content);
    }
  }
}
