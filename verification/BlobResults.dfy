/**
 * What the operations of the S3/DynamoDB store return: the same lists, in the
 * same order, as the in-memory store they are simulated by.
 */
module BlobResults {
  import opened Prelude
  import opened BlobTypes
  import opened EpisodeCatalog
  import opened CatalogProofs
  import opened BlobProtocol
  import opened BlobLifecycle
  import opened BlobInvariants
  import opened BlobRuns
  import opened BlobReads
  import opened BlobReceipts
  import opened BlobPages
  import opened BlobSpec
  import opened BlobRefinement

  // ----- A starting store -----

  ghost predicate UniquePlaces(view: map<Att, Hold>, e: Episode)
  {
    forall a: Att, b: Att :: Carries(view, e, a) && Carries(view, e, b) && Place(view, e, a) == Place(view, e, b) ==> a == b
  }

  ghost predicate IsAt(view: map<Att, Hold>, e: Episode, n: nat, a: Att) { Carries(view, e, a) && Place(view, e, a) == n }

  /** The attachment linked at one place, if any. */
  ghost function AtPlace(view: map<Att, Hold>, e: Episode, n: nat): seq<Att>
  {
    if exists a: Att :: IsAt(view, e, n, a) then (var a: Att :| IsAt(view, e, n, a); [a]) else []
  }

  /** The attachments of an episode linked before `n`, in order. */
  ghost function Upto(view: map<Att, Hold>, e: Episode, n: nat): seq<Att>
  {
    if n == 0 then [] else Upto(view, e, n - 1) + AtPlace(view, e, n - 1)
  }

  lemma {:induction false} UptoLists(view: map<Att, Hold>, e: Episode, n: nat)
    requires UniquePlaces(view, e)
    ensures var ids := Upto(view, e, n);
      && (forall a: Att :: a in ids <==> Carries(view, e, a) && Place(view, e, a) < n)
      && forall i, j :: 0 <= i < j < |ids| ==> Place(view, e, ids[i]) < Place(view, e, ids[j])
  {
    if n > 0 {
      UptoLists(view, e, n - 1);
      var ids := Upto(view, e, n - 1);
      assert forall i :: 0 <= i < |ids| ==> ids[i] in ids;
      forall a: Att ensures a in Upto(view, e, n) <==> Carries(view, e, a) && Place(view, e, a) < n {
        if Carries(view, e, a) && Place(view, e, a) == n - 1 { assert IsAt(view, e, n - 1, a); }
      }
    }
  }

  lemma UniqueInHolds(ss: SpaceState, e: Episode)
    requires RowsOk(ss)
    ensures UniquePlaces(HoldData(ss), e)
  {
    var view := HoldData(ss);
    forall a: Att, b: Att | Carries(view, e, a) && Carries(view, e, b) && Place(view, e, a) == Place(view, e, b) ensures a == b {
      PlaceOfEpisode(view[a].links, e);
      PlaceOfEpisode(view[b].links, e);
      assert Link(e, Place(view, e, a)) in LinksOf(ss.holds, a) && Link(e, Place(view, e, b)) in LinksOf(ss.holds, b);
    }
  }

  lemma UptoAll(ss: SpaceState, e: Episode)
    requires RowsOk(ss)
    ensures Listing(HoldData(ss), e, Upto(HoldData(ss), e, ss.Rev() + 1))
  {
    var view := HoldData(ss);
    UniqueInHolds(ss, e);
    UptoLists(view, e, ss.Rev() + 1);
    forall a: Att | Carries(view, e, a) ensures Place(view, e, a) < ss.Rev() + 1 {
      assert HoldOk(view[a], a, ss.Rev());
      PlaceOfEpisode(view[a].links, e);
    }
  }

  /** The in-memory store that shows what a system at rest shows. */
  ghost function Shown(s: Sys, content: Att -> Bytes): Store
  {
    Store(ShownBytes(s.spaces, content), ShownHeld(s.spaces), ShownLinks(s.spaces))
  }

  ghost function HeldKeys(spaces: map<Space, SpaceState>): set<(Space, Att)>
  {
    set sp, a | sp in spaces && a in spaces[sp].holds :: (sp, a)
  }

  ghost function LinkKeys(spaces: map<Space, SpaceState>): set<(Space, Episode)>
  {
    set sp, a, e | sp in spaces && a in spaces[sp].holds && e in Episodes(spaces[sp].holds[a].data.links) :: (sp, e)
  }

  ghost function ShownHeld(spaces: map<Space, SpaceState>): map<(Space, Att), Attachment>
  {
    map k | k in HeldKeys(spaces) && k.0 in spaces && k.1 in spaces[k.0].holds :: spaces[k.0].holds[k.1].data.attachment
  }

  ghost function ShownBytes(spaces: map<Space, SpaceState>, content: Att -> Bytes): map<Att, Bytes>
  {
    var held := set k | k in HeldKeys(spaces) :: k.1;
    map a | a in held :: content(a)
  }

  ghost function ShownLinks(spaces: map<Space, SpaceState>): map<(Space, Episode), seq<Att>>
  {
    map k | k in LinkKeys(spaces) && k.0 in spaces :: Upto(HoldData(spaces[k.0]), k.1, spaces[k.0].Rev() + 1)
  }

  lemma UnlinkedKey(spaces: map<Space, SpaceState>, sp: Space, e: Episode, a: Att)
    requires sp in spaces && Carries(HoldData(spaces[sp]), e, a)
    ensures (sp, e) in LinkKeys(spaces)
  {}

  lemma LinkedShown(s: Sys, content: Att -> Bytes, sp: Space, e: Episode)
    ensures (sp, e) in LinkKeys(s.spaces) ==> sp in s.spaces
    ensures Linked(Shown(s, content), sp, e) ==
      if (sp, e) in LinkKeys(s.spaces) then Upto(HoldData(s.At(sp)), e, s.At(sp).Rev() + 1) else []
  {
    hide Upto, HoldData, ShownHeld, ShownBytes;
  }

  lemma ShownLists(s: Sys, content: Att -> Bytes, sp: Space, e: Episode)
    requires RowsOk(s.At(sp))
    ensures Listing(HoldData(s.At(sp)), e, Linked(Shown(s, content), sp, e))
  {
    hide RowsOk, Upto, LinkKeys, Shown, Linked;
    LinkedShown(s, content, sp, e);
    if (sp, e) in LinkKeys(s.spaces) {
      UptoAll(s.At(sp), e);
    } else {
      forall a: Att ensures !Carries(HoldData(s.At(sp)), e, a) {
        if Carries(HoldData(s.At(sp)), e, a) { UnlinkedKey(s.spaces, sp, e, a); }
      }
    }
  }

  lemma ShownLinked(s: Sys, content: Att -> Bytes, k: (Space, Episode))
    requires k in ShownLinks(s.spaces) && RowsOk(s.At(k.0))
    ensures NoRepeats(ShownLinks(s.spaces)[k]) && forall i :: i in ShownLinks(s.spaces)[k] ==> (k.0, i) in ShownHeld(s.spaces)
  {
    hide RowsOk, Listing, Upto;
    var ids := Linked(Shown(s, content), k.0, k.1);
    ShownLists(s, content, k.0, k.1);
    ListingSane(HoldData(s.At(k.0)), k.1, ids);
    forall i | i in ids ensures (k.0, i) in ShownHeld(s.spaces) { assert (k.0, i) in HeldKeys(s.spaces); }
  }

  lemma ShownSane(s: Sys, content: Att -> Bytes)
    requires forall sp :: sp in s.spaces ==> RowsOk(s.spaces[sp])
    ensures Sane(Shown(s, content))
  {
    hide RowsOk, Upto, ShownLinks, NoRepeats;
    var t := Shown(s, content);
    forall k | k in t.links ensures NoRepeats(t.links[k]) && forall i :: i in t.links[k] ==> (k.0, i) in t.held {
      ShownSpace(s, k);
      ShownLinked(s, content, k);
    }
    ShownHoldsSane(s, content);
  }

  lemma ShownHoldsSane(s: Sys, content: Att -> Bytes)
    requires forall sp :: sp in s.spaces ==> RowsOk(s.spaces[sp])
    ensures var t := Shown(s, content);
      (forall k :: k in t.held ==> k.1 in t.bytes && t.held[k].id == k.1) && forall a :: a in t.bytes ==> exists k :: k in t.held && k.1 == a
  {
    hide RowsOk, Upto, ShownLinks;
    var t := Shown(s, content);
    forall a | a in t.bytes ensures exists k :: k in t.held && k.1 == a {
      var k :| k in HeldKeys(s.spaces) && k.1 == a;
      assert k in t.held;
    }
    forall k | k in t.held ensures t.held[k].id == k.1 { HeldIdentity(s.spaces[k.0], k.1); }
  }

  lemma ShownSpace(s: Sys, k: (Space, Episode))
    requires k in ShownLinks(s.spaces)
    ensures k.0 in s.spaces
  {
    hide Upto;
  }

  lemma HeldIdentity(ss: SpaceState, a: Att)
    requires RowsOk(ss) && a in ss.holds
    ensures ss.holds[a].data.attachment.id == a
  {
    assert HoldOk(ss.holds[a].data, a, ss.Rev());
  }

  lemma ListingSane(view: map<Att, Hold>, e: Episode, ids: seq<Att>)
    requires Listing(view, e, ids)
    ensures NoRepeats(ids) && forall i :: i in ids ==> i in view
  {}

  lemma InitAbstracts(s: Sys, content: Att -> Bytes)
    requires Init(s)
    ensures Abstracts(s, Shown(s, content))
  {
    hide LifeOk, RootsExact, Listing, Sane, RowsOk, ShownLinks, ShownBytes, SpaceAbstracts;
    forall sp | sp in s.spaces ensures RowsOk(s.spaces[sp]) { InitSpaceOk(s.spaces[sp]); }
    ShownSane(s, content);
    forall sp: Space ensures SpaceAbstracts(View(s.At(sp)), Shown(s, content), sp) {
      if sp !in s.spaces { EmptySpaceOk(); }
      SpaceShown(s, content, sp);
    }
  }

  lemma SpaceShown(s: Sys, content: Att -> Bytes, sp: Space)
    requires RowsOk(s.At(sp)) && !Releasing(s.At(sp).Data())
    ensures SpaceAbstracts(View(s.At(sp)), Shown(s, content), sp)
  {
    hide Listing, RowsOk, ShownLinks, ShownBytes;
    forall a: Att ensures (sp, a) in HeldKeys(s.spaces) <==> a in s.At(sp).holds {}
    forall e: Episode ensures Listing(View(s.At(sp)), e, Linked(Shown(s, content), sp, e)) { ShownLists(s, content, sp, e); }
  }

  /**
   * The main theorem on meaning: started from any well-formed store, every run of every client shows, at every
   * moment, what the in-memory store shows after the puts, links, unlinks and releases that have taken effect.
   */
  lemma Refines(s: Sys, run: seq<Action>, content: Att -> Bytes)
    requires Init(s) && Valid(s, run) && AllGuarded(s, run)
    ensures Abstracts(s, Shown(s, content)) && Abstracts(After(s, run), SpecAfter(s, run, Shown(s, content), content))
  {
    hide Init, Inv, Valid, After, AllGuarded, Abstracts, SpecAfter;
    InitAbstracts(s, content);
    InitInv(s);
    RunSimulates(s, run, Shown(s, content), content);
  }

  // ----- Receipts -----

  /** The keys of the result rows of an operation, in order. */
  ghost predicate IsListing(ss: SpaceState, op: Op, keys: seq<SortKey>)
  {
    && (forall k: SortKey :: k in keys <==> k in ResultKeys(ss, op))
    && forall i, j :: 0 <= i < j < |keys| ==> Below(keys[i], keys[j])
  }

  lemma ReceiptKeys(ss: SpaceState, op: Op, rows: seq<ResultRow>)
    requires IsReceipt(ss, op, rows)
    ensures IsListing(ss, op, Keys(rows))
  {
    forall k: SortKey ensures k in Keys(rows) <==> k in ResultKeys(ss, op) {
      if (op, k) in ss.results {
        assert ListsKey(rows, k);
        var i :| 0 <= i < |rows| && rows[i].key == k;
        assert Keys(rows)[i] == k;
      }
      if k in Keys(rows) {
        var i :| 0 <= i < |rows| && Keys(rows)[i] == k;
        assert Lookup(ss.results, (op, rows[i].key)) == Some(rows[i].result);
      }
    }
  }

  /** The attachments of the rows with one disposition, as `receipt` lists them. */
  function Disposed(rows: seq<ResultRow>, released: bool): seq<Att>
  {
    if rows == [] then []
    else (if rows[0].result.released == released then [rows[0].key.att] else []) + Disposed(rows[1..], released)
  }

  lemma {:induction false} AllDisposed(rows: seq<ResultRow>)
    requires forall i :: 0 <= i < |rows| ==> rows[i].result.released
    ensures Disposed(rows, true) == KeyAtts(Keys(rows)) && Disposed(rows, false) == []
  {
    if rows != [] {
      AllDisposed(rows[1..]);
      assert KeyAtts(Keys(rows)) == [rows[0].key.att] + KeyAtts(Keys(rows[1..]));
    } else {
      assert KeyAtts(Keys(rows)) == [];
    }
  }

  /** Each list takes its part of the rows, in their order. */
  lemma {:induction false} DisposedMembers(rows: seq<ResultRow>, released: bool)
    requires Ascending(KeyAtts(Keys(rows)))
    ensures forall a: Att :: a in Disposed(rows, released) <==> exists i :: 0 <= i < |rows| && rows[i].key.att == a && rows[i].result.released == released
    ensures Ascending(Disposed(rows, released))
  {
    var ids := KeyAtts(Keys(rows));
    if rows != [] {
      var rest := rows[1..];
      assert KeyAtts(Keys(rest)) == ids[1..];
      DisposedMembers(rest, released);
      var mine := Disposed(rest, released);
      forall j | 0 <= j < |mine| ensures rows[0].key.att < mine[j] {
        assert mine[j] in mine;
        var i :| 0 <= i < |rest| && rest[i].key.att == mine[j] && rest[i].result.released == released;
        assert ids[0] < ids[i + 1];
      }
      forall a: Att
        ensures a in Disposed(rows, released) <==> exists i :: 0 <= i < |rows| && rows[i].key.att == a && rows[i].result.released == released
      {
        if i :| 0 <= i < |rows| && rows[i].key.att == a && rows[i].result.released == released {
          if i > 0 { assert rest[i - 1] == rows[i]; }
        }
        if a in mine {
          var i :| 0 <= i < |rest| && rest[i].key.att == a && rest[i].result.released == released;
          assert rows[i + 1] == rest[i];
        }
      }
    }
  }

  function KeyAtts(keys: seq<SortKey>): (ids: seq<Att>)
    ensures |ids| == |keys|
    ensures forall i :: 0 <= i < |keys| ==> ids[i] == keys[i].att
  {
    seq(|keys|, i requires 0 <= i < |keys| => keys[i].att)
  }

  ghost predicate InPlace(view: map<Att, Hold>, e: Episode, ids: seq<Att>)
  {
    forall i, j :: 0 <= i < j < |ids| ==> Place(view, e, ids[i]) < Place(view, e, ids[j])
  }

  lemma {:induction false} SameOrder(view: map<Att, Hold>, e: Episode, x: seq<Att>, y: seq<Att>)
    requires InPlace(view, e, x) && InPlace(view, e, y) && forall a: Att :: a in x <==> a in y
    ensures x == y
  {
    assert (x != [] ==> x[0] in x) && (y != [] ==> y[0] in y);
    if x != [] {
      assert x[0] in y && y[0] in x;
      forall a: Att ensures a in x[1..] <==> a in y[1..] {
        assert a in x[1..] <==> a in x && a != x[0];
        assert a in y[1..] <==> a in y && a != y[0];
      }
      SameOrder(view, e, x[1..], y[1..]);
      assert x == [x[0]] + x[1..] && y == [y[0]] + y[1..];
    }
  }

  lemma {:induction false} ExceptInPlace(view: map<Att, Hold>, e: Episode, ids: seq<Att>, gone: set<Att>)
    requires InPlace(view, e, ids)
    ensures InPlace(view, e, Except(ids, gone))
  {
    if ids != [] {
      var rest := Except(ids[1..], gone);
      ExceptInPlace(view, e, ids[1..], gone);
      forall i | 0 <= i < |rest| ensures Place(view, e, ids[0]) < Place(view, e, rest[i]) {
        ExceptMembers(ids[1..], gone, rest[i]);
        var j :| 0 <= j < |ids[1..]| && ids[1..][j] == rest[i];
        assert ids[j + 1] == rest[i];
      }
    }
  }

  lemma KeysInPlace(view: map<Att, Hold>, e: Episode, listing: seq<Att>, keys: seq<SortKey>)
    requires Listing(view, e, listing) && forall k :: k in keys ==> Carries(view, e, k.att) && k.sequence == Place(view, e, k.att)
    requires forall i, j :: 0 <= i < j < |keys| ==> Below(keys[i], keys[j])
    ensures InPlace(view, e, KeyAtts(keys))
  {
    forall i, j | 0 <= i < j < |keys| ensures keys[i].sequence < keys[j].sequence {
      assert keys[i] in keys && keys[j] in keys;
      assert keys[i].att in listing && keys[j].att in listing;
      var x :| 0 <= x < |listing| && listing[x] == keys[i].att;
      var y :| 0 <= y < |listing| && listing[y] == keys[j].att;
      assert Below(keys[i], keys[j]);
      if x < y { assert Place(view, e, listing[x]) < Place(view, e, listing[y]); }
      if y < x { assert Place(view, e, listing[y]) < Place(view, e, listing[x]); }
    }
  }

  /** When an unlink ends, its receipt in key order is the in-memory store's list. */
  lemma UnlinkReceipt(s: Sys, w: nat, t: Store, keys: seq<SortKey>)
    requires Inv(s) && GcPhase(s, w) && s.Of(w).Data().mode == Unlink && Abstracts(s, t)
    requires IsListing(s.Of(w), s.Of(w).Data().operation.value, keys)
    ensures KeyAtts(keys) == ReleasedBy(t, s.watchers[w].space, s.Of(w).Data().episode)
  {
    hide RootsExact, LifeOk, AllDoomed, WatchersOk, SpaceOk, Listing, Lone, Without, Sane, HoldOk, InPlace;
    var sp, ss, e := s.watchers[w].space, s.Of(w), s.Of(w).Data().episode;
    var view, x := ss.base, KeyAtts(keys);
    SpaceIsOk(s, sp);
    ViewIsOk(ss);
    UnlinkEnds(ss);
    assert SpaceAbstracts(View(s.At(sp)), t, sp) && Listing(view, e, Linked(t, sp, e));
    LoneCarries(view, e);
    KeysInPlace(view, e, Linked(t, sp, e), keys);
    ListingInPlace(view, e, Linked(t, sp, e));
    ExceptInPlace(view, e, Linked(t, sp, e), BlobSpec.Elsewhere(t, sp, e));
    forall a: Att ensures a in x <==> a in ReleasedBy(t, sp, e) {
      ReleasedIsLone(view, t, sp, e, ss.Rev(), a);
      if Lone(view, e, a) {
        assert SortKey(Place(view, e, a), a) in keys;
        var i :| 0 <= i < |keys| && keys[i] == SortKey(Place(view, e, a), a);
        assert x[i] == a;
      }
    }
    SameOrder(view, e, x, ReleasedBy(t, sp, e));
  }

  lemma LoneCarries(view: map<Att, Hold>, e: Episode)
    ensures forall a: Att :: Lone(view, e, a) ==> Carries(view, e, a)
  {}

  lemma ListingInPlace(view: map<Att, Hold>, e: Episode, ids: seq<Att>)
    requires Listing(view, e, ids)
    ensures InPlace(view, e, ids)
  {}

  /** When a whole-space release ends, its receipt lists what the in-memory store holds, in ascending order. */
  lemma ReleaseReceipt(s: Sys, w: nat, t: Store, keys: seq<SortKey>)
    requires Inv(s) && GcPhase(s, w) && s.Of(w).Data().mode == Release && Abstracts(s, t)
    requires IsListing(s.Of(w), s.Of(w).Data().operation.value, keys)
    ensures Ascending(KeyAtts(keys)) && forall a: Att :: a in KeyAtts(keys) <==> a in HeldIn(t, s.watchers[w].space)
  {
    hide RootsExact, LifeOk, AllDoomed, WatchersOk, SpaceOk, Listing, Sane;
    var sp, ss, x := s.watchers[w].space, s.Of(w), KeyAtts(keys);
    SpaceIsOk(s, sp);
    ReleaseEnds(ss);
    assert SpaceAbstracts(View(s.At(sp)), t, sp);
    forall i, j | 0 <= i < j < |keys| ensures keys[i].att < keys[j].att {
      assert keys[i] in keys && keys[j] in keys && Below(keys[i], keys[j]);
    }
    forall a: Att ensures a in x <==> a in ss.base {
      if a in ss.base {
        assert SortKey(0, a) in keys;
        var i :| 0 <= i < |keys| && keys[i] == SortKey(0, a);
        assert x[i] == a;
      }
    }
    forall a: Att ensures a in HeldIn(t, sp) <==> a in ss.base { assert a in HeldIn(t, sp) <==> (sp, a) in t.held; }
  }

  ghost predicate AllReleased(ss: SpaceState, op: Op) { forall k :: k in ss.results && k.0 == op ==> ss.results[k].released }

  lemma {:induction false} AllReleasedStays(s: Sys, run: seq<Action>, sp: Space, op: Op)
    requires Inv(s) && Valid(s, run) && AllGuarded(s, run) && Names(s.At(sp), op) && Names(After(s, run).At(sp), op)
    requires (Releasing(s.At(sp).Data()) ==> s.At(sp).Data().mode == Unlink) && AllReleased(s.At(sp), op)
    ensures AllReleased(After(s, run).At(sp), op)
    decreases |run|
  {
    hide Inv, Enabled, Apply, GuardedStep, Others;
    if run != [] {
      NamedNext(s, run, sp, op);
      AllReleasedStays(Apply(s, run[0]), run[1..], sp, op);
    }
  }

  lemma {:induction false} SameRelease(s: Sys, run: seq<Action>, sp: Space, op: Op)
    requires Inv(s) && Valid(s, run) && AllGuarded(s, run) && Names(s.At(sp), op) && Names(After(s, run).At(sp), op)
    requires Releasing(After(s, run).At(sp).Data())
    ensures var c, d := s.At(sp).Data(), After(s, run).At(sp).Data(); Releasing(c) && d.mode == c.mode && d.episode == c.episode
    decreases |run|
  {
    hide Inv, Enabled, Apply, GuardedStep, Honest;
    if run != [] {
      NamedNext(s, run, sp, op);
      SameRelease(Apply(s, run[0]), run[1..], sp, op);
    }
  }

  /** A client about to end the release of a space. */
  ghost predicate Ending(n: Sys, w: nat, sp: Space, op: Op)
  {
    CatalogEnabled(n, End(w)) && n.watchers[w].space == sp && Names(n.At(sp), op)
  }

  /** A release from its start to its end, whatever any client did in between. */
  ghost predicate Ran(s: Sys, sp: Space, episode: Episode, op: Op, run: seq<Action>, w: nat)
  {
    && Inv(s) && CatalogEnabled(s, Begin(sp, episode, op))
    && var b := CatalogApply(s, Begin(sp, episode, op));
    Valid(b, run) && AllGuarded(b, run) && Ending(After(b, run), w, sp, op)
  }

  ghost function Ended(s: Sys, sp: Space, episode: Episode, op: Op, run: seq<Action>, w: nat): Sys
    requires Ran(s, sp, episode, op, run, w)
  {
    After(CatalogApply(s, Begin(sp, episode, op)), run)
  }

  lemma RanMode(s: Sys, sp: Space, episode: Episode, op: Op, run: seq<Action>, w: nat)
    requires Ran(s, sp, episode, op, run, w)
    ensures var n := Ended(s, sp, episode, op, run, w);
      && Inv(n) && n.At(sp).Data().episode == episode && n.At(sp).Data().mode == (if episode == 0 then Release else Unlink)
      && (episode >= 1 ==> AllReleased(n.At(sp), op))
  {
    hide Inv, Valid, AllGuarded, After, AllReleased, Receipt;
    var a := Catalog(Begin(sp, episode, op));
    var b := Apply(s, a);
    StepInv(s, a);
    NothingTold(s, sp, episode, op);
    RunInv(b, run);
    SameRelease(b, run, sp, op);
    if episode >= 1 {
      NoneTold(b.At(sp), op);
      AllReleasedStays(b, run, sp, op);
    }
  }

  lemma NoneTold(ss: SpaceState, op: Op)
    requires Receipt(ss, op) == map[]
    ensures AllReleased(ss, op) && forall mode: Mode, att: Att, alone: bool :: Told(ss, op, mode, att, alone)
  {
    assert forall k: (Op, SortKey) :: k in ss.results && k.0 == op <==> k.0 == op && k.1 in Receipt(ss, op);
  }

  /** The client that ends a release has paged through its receipt. */
  ghost predicate HasRead(n: Sys, w: nat, op: Op, pages: seq<seq<ResultRow>>)
  {
    w in n.watchers && ReceiptChain(n.watchers[w].seen, op, None, pages)
  }

  lemma RanReceipt(s: Sys, sp: Space, episode: Episode, op: Op, run: seq<Action>, w: nat, pages: seq<seq<ResultRow>>)
    requires Ran(s, sp, episode, op, run, w) && HasRead(Ended(s, sp, episode, op, run, w), w, op, pages)
    ensures var n := Ended(s, sp, episode, op, run, w);
      n.Of(w) == n.At(sp) && IsReceipt(n.At(sp), op, Flatten(pages)) && IsListing(n.At(sp), op, Keys(Flatten(pages)))
  {
    hide Inv, Valid, AllGuarded, After, IsReceipt, IsListing, ReceiptChain;
    RanMode(s, sp, episode, op, run, w);
    var n := Ended(s, sp, episode, op, run, w);
    EndsCurrent(n, w);
    ReceiptRead(n, w, op, pages);
    ReceiptKeys(n.At(sp), op, Flatten(pages));
  }

  /**
   * An unlink returns exactly what the in-memory store returns, in the order the attachments were linked, and keeps
   * nothing back, however its helpers and all other clients interleave. (HelpersAgree: every helper returns this list.)
   */
  lemma UnlinkAgrees(s: Sys, sp: Space, episode: Episode, op: Op, run: seq<Action>, w: nat, t: Store, pages: seq<seq<ResultRow>>)
    requires episode >= 1 && Ran(s, sp, episode, op, run, w)
    requires var n := Ended(s, sp, episode, op, run, w); Abstracts(n, t) && HasRead(n, w, op, pages)
    ensures Disposed(Flatten(pages), true) == ReleasedBy(t, sp, episode) && Disposed(Flatten(pages), false) == []
  {
    hide Inv, Valid, AllGuarded, After, Abstracts, ReleasedBy, Receipt, AllReleased, ReceiptChain, IsReceipt, IsListing;
    var n, rows := Ended(s, sp, episode, op, run, w), Flatten(pages);
    RanMode(s, sp, episode, op, run, w);
    RanReceipt(s, sp, episode, op, run, w, pages);
    EndsCurrent(n, w);
    UnlinkReceipt(n, w, t, Keys(rows));
    RowsReleased(n.At(sp), op, rows);
    AllDisposed(rows);
  }

  lemma RowsReleased(ss: SpaceState, op: Op, rows: seq<ResultRow>)
    requires IsReceipt(ss, op, rows) && AllReleased(ss, op)
    ensures forall i :: 0 <= i < |rows| ==> rows[i].result.released
  {
    forall i | 0 <= i < |rows| ensures rows[i].result.released { assert Lookup(ss.results, (op, rows[i].key)) == Some(rows[i].result); }
  }

  /**
   * A whole-space release returns two ascending lists that share out what the space held. An attachment is on the first
   * exactly if, at the moment its hold was removed, no other space held it; so that one whose other holders neither
   * came nor went during the release is released or kept as the in-memory store says.
   */
  lemma ReleaseAgrees(s: Sys, sp: Space, op: Op, run: seq<Action>, w: nat, t: Store, pages: seq<seq<ResultRow>>)
    requires Ran(s, sp, 0, op, run, w)
    requires var n := Ended(s, sp, 0, op, run, w); Abstracts(n, t) && HasRead(n, w, op, pages)
    ensures var released, kept := Disposed(Flatten(pages), true), Disposed(Flatten(pages), false);
      && Ascending(released) && Ascending(kept)
      && (forall a: Att :: a in HeldIn(t, sp) <==> a in released || a in kept) && (forall a: Att :: !(a in released && a in kept))
    ensures forall i :: 0 <= i < |Flatten(pages)| ==>
      var row := Flatten(pages)[i];
      Decided(CatalogApply(s, Begin(sp, 0, op)), run, sp, row.key.att, Release, row.result)
    ensures forall a: Att, alone: bool :: a in HeldIn(t, sp) && Steady(CatalogApply(s, Begin(sp, 0, op)), run, sp, a, alone) ==>
      (a in Disposed(Flatten(pages), true) <==> alone)
  {
    hide Inv, Valid, AllGuarded, After, Abstracts, HeldIn, Steady, Receipt, ReceiptChain, IsReceipt, IsListing, Decided, Disposed;
    var n, b, rows := Ended(s, sp, 0, op, run, w), CatalogApply(s, Begin(sp, 0, op)), Flatten(pages);
    RanMode(s, sp, 0, op, run, w);
    RanReceipt(s, sp, 0, op, run, w, pages);
    EndsCurrent(n, w);
    ReleaseReceipt(n, w, t, Keys(rows));
    DisposedMembers(rows, true);
    DisposedMembers(rows, false);
    SharedOut(rows);
    forall i | 0 <= i < |rows| ensures Decided(b, run, sp, rows[i].key.att, Release, rows[i].result) {
      ReceiptRow(n.At(sp), op, rows, i);
      RowDecided(s, sp, op, run, w, rows[i].key);
    }
    forall a: Att, alone: bool | a in HeldIn(t, sp) && Steady(b, run, sp, a, alone) ensures a in Disposed(rows, true) <==> alone {
      SteadyRows(s, sp, op, run, w, rows, a, alone);
    }
  }

  lemma ReceiptRow(ss: SpaceState, op: Op, rows: seq<ResultRow>, i: nat)
    requires IsReceipt(ss, op, rows) && i < |rows|
    ensures (op, rows[i].key) in ss.results && ss.results[(op, rows[i].key)] == rows[i].result
  {
    assert Lookup(ss.results, (op, rows[i].key)) == Some(rows[i].result);
  }

  /** Rows of different attachments, each released or not: the two lists share the attachments out. */
  lemma SharedOut(rows: seq<ResultRow>)
    requires Ascending(KeyAtts(Keys(rows)))
    ensures forall a: Att :: a in KeyAtts(Keys(rows)) <==> a in Disposed(rows, true) || a in Disposed(rows, false)
    ensures forall a: Att :: !(a in Disposed(rows, true) && a in Disposed(rows, false))
  {
    hide Disposed;
    DisposedMembers(rows, true);
    DisposedMembers(rows, false);
    var ids := KeyAtts(Keys(rows));
    forall a: Att ensures a in ids <==> a in Disposed(rows, true) || a in Disposed(rows, false) {
      if a in ids {
        var i :| 0 <= i < |ids| && ids[i] == a;
        assert rows[i].key.att == a;
      }
      if i :| 0 <= i < |rows| && rows[i].key.att == a { assert ids[i] == a; }
    }
    forall a: Att ensures !(a in Disposed(rows, true) && a in Disposed(rows, false)) {
      if a in Disposed(rows, true) && a in Disposed(rows, false) { assert false; }
    }
  }

  lemma RowDecided(s: Sys, sp: Space, op: Op, run: seq<Action>, w: nat, k: SortKey)
    requires Ran(s, sp, 0, op, run, w) && (op, k) in Ended(s, sp, 0, op, run, w).At(sp).results
    ensures Decided(CatalogApply(s, Begin(sp, 0, op)), run, sp, k.att, Release, Ended(s, sp, 0, op, run, w).At(sp).results[(op, k)])
  {
    hide Inv, Valid, AllGuarded, After, Receipt, Decided;
    var a, b := Catalog(Begin(sp, 0, op)), CatalogApply(s, Begin(sp, 0, op));
    StepInv(s, a);
    RanMode(s, sp, 0, op, run, w);
    NothingTold(s, sp, 0, op);
    NothingListed(b.At(sp), op, k);
    SameRelease(b, run, sp, op);
    ResultDecided(b, run, sp, op, Release, k);
  }

  lemma NothingListed(ss: SpaceState, op: Op, k: SortKey)
    requires Receipt(ss, op) == map[]
    ensures (op, k) !in ss.results
  {
    assert (op, k) in ss.results ==> k in Receipt(ss, op);
  }

  lemma SteadyRows(s: Sys, sp: Space, op: Op, run: seq<Action>, w: nat, rows: seq<ResultRow>, a: Att, alone: bool)
    requires Ran(s, sp, 0, op, run, w) && Steady(CatalogApply(s, Begin(sp, 0, op)), run, sp, a, alone)
    requires IsReceipt(Ended(s, sp, 0, op, run, w).At(sp), op, rows) && Ascending(KeyAtts(Keys(rows))) && a in KeyAtts(Keys(rows))
    ensures a in Disposed(rows, true) <==> alone
  {
    hide Inv, Valid, AllGuarded, After, Steady, Receipt, Disposed, IsReceipt;
    var n, b, act := Ended(s, sp, 0, op, run, w), CatalogApply(s, Begin(sp, 0, op)), Catalog(Begin(sp, 0, op));
    RanMode(s, sp, 0, op, run, w);
    StepInv(s, act);
    NothingTold(s, sp, 0, op);
    NoneTold(b.At(sp), op);
    SameRelease(b, run, sp, op);
    ToldStays(b, run, sp, op, Release, a, alone);
    DisposedMembers(rows, true);
    var ids := KeyAtts(Keys(rows));
    var i :| 0 <= i < |ids| && ids[i] == a;
    ReceiptRow(n.At(sp), op, rows, i);
    assert rows[i].result.released <==> alone;
    forall j | 0 <= j < |rows| && rows[j].key.att == a ensures j == i { assert ids[j] == ids[i]; }
  }

  // ----- Puts -----

  /**
   * A put that reads a hold returns its attachment, and that is what the in-memory store returns at that moment, where
   * the put changes nothing but what it changes here: nothing.
   */
  lemma PutAgain(s: Sys, sp: Space, offered: Attachment, row: Row<Hold>, t: Store, data: Bytes)
    requires Inv(s) && Abstracts(s, t) && Shows(s, sp, SawHold(offered.id, Some(row)))
    ensures Lookup(PutIn(t, sp, offered, data).held, (sp, offered.id)) == Some(row.data.attachment)
    ensures Abstracts(s, PutIn(t, sp, offered, data))
  {
    hide Inv, SpaceOk, Listing, Sane, View, Linked, SameFor;
    var ss, n := s.At(sp), PutIn(t, sp, offered, data);
    InvSpace(s, sp);
    assert SpaceAbstracts(View(ss), t, sp);
    HeldInView(ss, offered.id);
    PutSane(t, sp, offered, data);
    forall other: Space ensures SpaceAbstracts(View(s.At(other)), n, other) {
      assert SpaceAbstracts(View(s.At(other)), t, other);
      PutNothing(t, sp, offered, data, other);
      OtherSpace(View(s.At(other)), t, n, other);
    }
  }

  lemma PutNothing(t: Store, sp: Space, offered: Attachment, data: Bytes, other: Space)
    requires (sp, offered.id) in t.held
    ensures SameFor(t, PutIn(t, sp, offered, data), other)
  {}

  /** What is still held during a release was held, as the same attachment, when it began. */
  lemma HeldInView(ss: SpaceState, a: Att)
    requires SpaceOk(ss) && a in ss.holds
    ensures a in View(ss) && View(ss)[a].attachment == ss.holds[a].data.attachment
  {
    if Releasing(ss.Data()) {
      var c := ss.Data();
      assert HoldProgress(c, ss.base[a], Now(ss.holds, a), (c.operation.value, ResultKey(c, ss.base[a])) in ss.results);
    }
  }

  /** A put that takes a hold returns the attachment it was given, as the in-memory store then does. */
  lemma PutFirst(s: Sys, a: CatalogAction, t: Store, content: Att -> Bytes)
    requires Inv(s) && CatalogEnabled(s, a) && Abstracts(s, t) && (a.Join? || a.Publish?)
    ensures var n := SpecStep(s, Catalog(a), t, content);
      (Where(s, a), a.attachment.id) !in t.held && Lookup(n.held, (Where(s, a), a.attachment.id)) == Some(a.attachment)
  {
    hide RootsExact, LifeOk, AllDoomed, WatchersOk, RowsOk, Listing, Sane;
    var sp := Where(s, a);
    assert SpaceAbstracts(View(s.At(sp)), t, sp);
  }

  /** Other spaces at rest hold what the in-memory store says they hold. */
  lemma OthersAgree(s: Sys, t: Store, sp: Space, a: Att)
    requires Abstracts(s, t) && forall other :: other != sp ==> !Releasing(s.At(other).Data())
    ensures a in HeldBeyond(t, sp) <==> Others(s.spaces, sp, a) != {}
  {
    hide Sane, Listing;
    if a in HeldBeyond(t, sp) {
      var k :| k in t.held && k.0 != sp && k.1 == a;
      assert SpaceAbstracts(View(s.At(k.0)), t, k.0) && k == (k.0, a);
      assert k.0 in Others(s.spaces, sp, a);
    }
    if other :| other in Others(s.spaces, sp, a) {
      assert SpaceAbstracts(View(s.At(other)), t, other);
      assert (other, a) in t.held;
    }
  }

  // ----- Reads -----

  function RowKey(row: LinkRow): SortKey { SortKey(row.link.sequence, row.att) }

  /** The rows read, sorted by link sequence and then attachment. */
  ghost predicate IsSorted(rows: seq<LinkRow>, order: seq<LinkRow>)
  {
    && (forall row: LinkRow :: row in order <==> row in rows)
    && forall i, j :: 0 <= i < j < |order| ==> Below(RowKey(order[i]), RowKey(order[j]))
  }

  lemma RowPlace(ss: SpaceState, e: Episode, row: LinkRow)
    requires HoldsOk(ss.holds, ss.Rev()) && HeldRow(ss, e, row)
    ensures Carries(HoldData(ss), e, row.att) && Place(HoldData(ss), e, row.att) == row.link.sequence
  {
    assert HoldOk(ss.holds[row.att].data, row.att, ss.Rev());
    SequenceOfLink(ss.holds[row.att].data.links, Link(e, row.link.sequence));
  }

  /** `for_episode` on a space at rest returns the in-memory store's attachments, in its order. */
  lemma ForEpisodeAgrees(s: Sys, w: nat, e: Episode, pages: seq<seq<LinkRow>>, order: seq<LinkRow>, t: Store)
    requires Inv(s) && s.Current(w) && s.Of(w).Data().version == 1 && !Releasing(s.Of(w).Data()) && Abstracts(s, t)
    requires Chain(s.watchers[w].seen, e, None, pages) && IsSorted(Flatten(pages), order)
    ensures Atts(order) == Linked(t, s.watchers[w].space, e)
    ensures forall i :: 0 <= i < |order| ==>
      (s.watchers[w].space, order[i].att) in t.held && order[i].link.attachment == t.held[(s.watchers[w].space, order[i].att)]
  {
    hide RootsExact, LifeOk, AllDoomed, WatchersOk, SpaceOk, Listing, Sane, HeldRow, Chain, Carries, Place, InPlace;
    var sp, ss, rows := s.watchers[w].space, s.Of(w), Flatten(pages);
    var view, ids := HoldData(ss), Linked(t, sp, e);
    EpisodeRead(s, w, e, pages);
    RowsHeld(s, sp);
    assert SpaceAbstracts(View(s.At(sp)), t, sp) && Listing(view, e, ids);
    forall row | row in rows ensures HeldRow(ss, e, row) {}
    forall row | row in rows ensures Carries(view, e, row.att) && Place(view, e, row.att) == row.link.sequence { RowPlace(ss, e, row); }
    ListedRows(ss, e, rows, order, ids);
    forall i | 0 <= i < |order|
      ensures (sp, order[i].att) in t.held && order[i].link.attachment == t.held[(sp, order[i].att)]
    {
      assert order[i] in order && HeldRow(ss, e, order[i]);
      RowAttachment(ss, e, order[i]);
    }
  }

  lemma RowsHeld(s: Sys, sp: Space)
    requires Inv(s)
    ensures HoldsOk(s.At(sp).holds, s.At(sp).Rev())
  {
    SpaceIsOk(s, sp);
  }

  lemma RowAttachment(ss: SpaceState, e: Episode, row: LinkRow)
    requires HeldRow(ss, e, row)
    ensures row.att in ss.holds && row.link.attachment == ss.holds[row.att].data.attachment
  {}

  lemma ListedRows(ss: SpaceState, e: Episode, rows: seq<LinkRow>, order: seq<LinkRow>, ids: seq<Att>)
    requires HoldsOk(ss.holds, ss.Rev()) && Listing(HoldData(ss), e, ids) && IsSorted(rows, order)
    requires forall row :: row in rows ==> Carries(HoldData(ss), e, row.att) && Place(HoldData(ss), e, row.att) == row.link.sequence
    requires forall a: Att, n: nat :: a in ss.holds && Link(e, n) in ss.holds[a].data.links ==>
      exists i :: 0 <= i < |rows| && rows[i].att == a && rows[i].link.sequence == n
    ensures Atts(order) == ids
  {
    hide HoldsOk, Listing, Place;
    var view, keys := HoldData(ss), seq(|order|, i requires 0 <= i < |order| => RowKey(order[i]));
    forall k | k in keys ensures Carries(view, e, k.att) && k.sequence == Place(view, e, k.att) {
      var i :| 0 <= i < |order| && keys[i] == k;
      assert order[i] in order;
    }
    KeysInPlace(view, e, ids, keys);
    assert KeyAtts(keys) == Atts(order);
    ListingInPlace(view, e, ids);
    forall a: Att ensures a in Atts(order) <==> a in ids {
      ListingMember(view, e, ids, a);
      if a in Atts(order) { var i :| 0 <= i < |order| && order[i].att == a; assert order[i] in order; }
      if Carries(view, e, a) {
        PlaceOfEpisode(view[a].links, e);
        var n := SequenceOf(view[a].links, e);
        assert a in ss.holds && Link(e, n) in ss.holds[a].data.links;
        var i :| 0 <= i < |rows| && rows[i].att == a && rows[i].link.sequence == n;
        assert rows[i] in order;
        var j :| 0 <= j < |order| && order[j] == rows[i];
        assert Atts(order)[j] == a;
      }
    }
    SameOrder(view, e, Atts(order), ids);
  }

  lemma ListingMember(view: map<Att, Hold>, e: Episode, ids: seq<Att>, a: Att)
    requires Listing(view, e, ids)
    ensures a in ids <==> Carries(view, e, a)
  {}

  /** Of the attachments read, those whose hold has no other link. */
  ghost function Single(ss: SpaceState, ids: seq<Att>): seq<Att>
  {
    if ids == [] then [] else (if |LinksOf(ss.holds, ids[0])| == 1 then [ids[0]] else []) + Single(ss, ids[1..])
  }

  lemma SingleIsLone(links: seq<Link>, e: Episode)
    requires Distinct(links) && e in Episodes(links)
    ensures |links| == 1 <==> Without(links, {e}) == []
  {
    WithoutLinks(links, {e});
    var l: Link :| l in links && l.episode == e;
    if |links| > 1 {
      var other := if links[0] == l then links[1] else links[0];
      assert other in links && other.episode != e;
      assert other in Without(links, {e});
    }
    assert forall rest: seq<Link> :: rest != [] ==> rest[0] in rest;
  }

  lemma {:induction false} SingleIsExcept(s: Sys, sp: Space, e: Episode, t: Store, ids: seq<Att>)
    requires Inv(s) && !Releasing(s.At(sp).Data()) && Abstracts(s, t) && forall a :: a in ids ==> a in Linked(t, sp, e)
    ensures Single(s.At(sp), ids) == Except(ids, BlobSpec.Elsewhere(t, sp, e))
  {
    hide Inv, Abstracts, Lone, Carries, BlobSpec.Elsewhere, Linked;
    if ids != [] {
      var a := ids[0];
      assert a in ids;
      OneIsSingle(s, sp, e, t, a);
      SingleIsExcept(s, sp, e, t, ids[1..]);
    }
  }

  lemma OneIsSingle(s: Sys, sp: Space, e: Episode, t: Store, a: Att)
    requires Inv(s) && !Releasing(s.At(sp).Data()) && Abstracts(s, t) && a in Linked(t, sp, e)
    ensures |LinksOf(s.At(sp).holds, a)| == 1 <==> a !in BlobSpec.Elsewhere(t, sp, e)
  {
    hide RootsExact, LifeOk, AllDoomed, WatchersOk, SpaceOk, Listing, Sane, BlobSpec.Elsewhere, Linked, Without;
    var ss, view := s.At(sp), HoldData(s.At(sp));
    InvSpace(s, sp);
    ViewIsOk(ss);
    assert SpaceAbstracts(View(ss), t, sp) && Listing(view, e, Linked(t, sp, e));
    ListingMember(view, e, Linked(t, sp, e), a);
    ReleasedIsLone(view, t, sp, e, ss.Rev(), a);
    ExceptMembers(Linked(t, sp, e), BlobSpec.Elsewhere(t, sp, e), a);
    assert HoldOk(view[a], a, ss.Rev());
    SingleIsLone(view[a].links, e);
  }

  /** `released_by` on a space at rest returns the in-memory store's list. */
  lemma ReleasedByAgrees(s: Sys, sp: Space, e: Episode, t: Store)
    requires Inv(s) && !Releasing(s.At(sp).Data()) && Abstracts(s, t)
    ensures Single(s.At(sp), Linked(t, sp, e)) == ReleasedBy(t, sp, e)
  {
    SingleIsExcept(s, sp, e, t, Linked(t, sp, e));
  }

  /** What a space at rest holds and links is what the in-memory store says. */
  lemma HeldShown(s: Sys, sp: Space, t: Store)
    requires Inv(s) && !Releasing(s.At(sp).Data()) && Abstracts(s, t)
    ensures HeldIn(t, sp) == s.At(sp).holds.Keys
    ensures forall a: Att :: (exists e: Episode :: a in Linked(t, sp, e)) <==> LinksOf(s.At(sp).holds, a) != []
  {
    hide Inv, Listing, Sane;
    var ss, view := s.At(sp), HoldData(s.At(sp));
    assert SpaceAbstracts(View(ss), t, sp);
    forall a: Att ensures a in HeldIn(t, sp) <==> a in ss.holds { assert a in HeldIn(t, sp) <==> (sp, a) in t.held; }
    forall a: Att ensures (exists e: Episode :: a in Linked(t, sp, e)) <==> LinksOf(ss.holds, a) != [] {
      if LinksOf(ss.holds, a) != [] {
        var l := view[a].links[0];
        assert l in view[a].links && Carries(view, l.episode, a);
        ListingMember(view, l.episode, Linked(t, sp, l.episode), a);
      }
      if e: Episode :| a in Linked(t, sp, e) {
        ListingMember(view, e, Linked(t, sp, e), a);
        var l: Link :| l in view[a].links && l.episode == e;
      }
    }
  }

  function LinkedRows(rows: seq<Row<Hold>>): set<Att> { set i | 0 <= i < |rows| && rows[i].data.links != [] :: rows[i].data.attachment.id }

  /**
   * `held` and `linked`, from pages of holds between two equal readings of the control row of a space at rest: the
   * ascending list of what the in-memory store holds, and the set of what it links to any episode.
   */
  lemma HeldAgrees(s: Sys, w: nat, pages: seq<seq<Row<Hold>>>, t: Store)
    requires Inv(s) && Unmoved(s, w) && HoldChain(s.watchers[w].seen, None, pages)
    requires !Releasing(s.Of(w).Data()) && Abstracts(s, t)
    ensures Ascending(Ids(Flatten(pages))) && forall a: Att :: a in Ids(Flatten(pages)) <==> a in HeldIn(t, s.watchers[w].space)
    ensures forall a: Att :: a in LinkedRows(Flatten(pages)) <==> exists e: Episode :: a in Linked(t, s.watchers[w].space, e)
  {
    hide Inv, Abstracts, HeldIn, Linked, HoldChain;
    var ss, rows := s.Of(w), Flatten(pages);
    HoldsRead(s, w, pages);
    HeldShown(s, s.watchers[w].space, t);
    forall a: Att ensures a in LinkedRows(rows) <==> LinksOf(ss.holds, a) != [] {
      if a in ss.holds {
        assert a in Ids(rows);
        var i :| 0 <= i < |rows| && Ids(rows)[i] == a;
        assert Lookup(ss.holds, Ids(rows)[i]) == Some(rows[i]);
      }
      if a in LinkedRows(rows) {
        var i :| 0 <= i < |rows| && rows[i].data.links != [] && rows[i].data.attachment.id == a;
        assert Lookup(ss.holds, Ids(rows)[i]) == Some(rows[i]);
      }
    }
  }
}
