/**
 * How migration and release plan one transaction: the loops that collect
 * changes until the transaction is full. A plan never exceeds the transaction
 * limit, never writes a row twice, and does exactly what the catalog step says.
 */
module BlobBatches {
  import opened Prelude
  import opened BlobTypes
  import opened EpisodeCatalog
  import opened CatalogProofs
  import opened BlobProtocol
  import opened BlobLifecycle
  import opened BlobInvariants

  // ----- One page of a migration -----

  /** A derived row, written without a condition. */
  datatype LinkWrite = LinkWrite(e: Episode, a: Att, link: EpisodeLink)

  function WriteLinks(index: map<(Episode, Att), EpisodeLink>, writes: seq<LinkWrite>): map<(Episode, Att), EpisodeLink>
  {
    if writes == [] then index
    else
      var w := writes[|writes| - 1];
      WriteLinks(index, writes[..|writes| - 1])[(w.e, w.a) := w.link]
  }

  ghost predicate NoRowTwice(writes: seq<LinkWrite>)
  {
    forall i, j :: 0 <= i < j < |writes| ==> writes[i].e != writes[j].e || writes[i].a != writes[j].a
  }

  ghost predicate PageOk(rows: seq<Row<Hold>>, rev: nat)
  {
    && (forall i :: 0 <= i < |rows| ==> HoldOk(rows[i].data, Ids(rows)[i], rev))
    && forall i, j :: 0 <= i < j < |rows| ==> Ids(rows)[i] != Ids(rows)[j]
  }

  /** The space once a plan is carried out: its rows written, its cursor moved. */
  function Carried(ss: SpaceState, writes: seq<LinkWrite>, after: Option<Att>, offset: nat): SpaceState
    requires ss.control.Some?
  {
    ss.(index := WriteLinks(ss.index, writes)).With(ss.Data().(after := after, offset := offset))
  }

  lemma {:induction false} AddLinksSplit(index: map<(Episode, Att), EpisodeLink>, h: Hold, lo: nat, hi: nat)
    requires lo < hi <= |h.links|
    ensures AddLinks(index, h, lo, hi) ==
      AddLinks(index[(h.links[lo].episode, h.attachment.id) := Entry(h, h.links[lo].sequence)], h, lo + 1, hi)
    decreases hi
  {
    if lo + 1 < hi { AddLinksSplit(index, h, lo, hi - 1); }
  }

  /** Writing the next link of the next hold changes nothing about where the page will end. */
  lemma {:induction false} OneLink(ss: SpaceState, rows: seq<Row<Hold>>, writes: seq<LinkWrite>, after: Option<Att>, offset: nat)
    requires ss.control.Some? && rows != [] && offset < |rows[0].data.links| && |writes| < TRANSACTION_ROWS
    ensures var h := rows[0].data;
      var w := LinkWrite(h.links[offset].episode, h.attachment.id, Entry(h, h.links[offset].sequence));
      && offset + 1 <= |h.links|
      && IndexPage(Carried(ss, writes, after, offset), rows, TRANSACTION_ROWS - |writes|)
         == (if |writes| + 1 == TRANSACTION_ROWS && offset + 1 < |h.links| then Carried(ss, writes + [w], after, offset + 1)
             else if |writes| + 1 == TRANSACTION_ROWS then Carried(ss, writes + [w], Some(h.attachment.id), 0)
             else IndexPage(Carried(ss, writes + [w], after, offset + 1), rows, TRANSACTION_ROWS - |writes| - 1))
  {
    hide IndexPage;
    var h := rows[0].data;
    var w := LinkWrite(h.links[offset].episode, h.attachment.id, Entry(h, h.links[offset].sequence));
    assert (writes + [w])[..|writes + [w]| - 1] == writes;
    OneLinkAt(Carried(ss, writes, after, offset), rows, TRANSACTION_ROWS - |writes|);
    assert Carried(ss, writes + [w], after, offset + 1) == PastLink(Carried(ss, writes, after, offset), h);
    assert Carried(ss, writes + [w], Some(h.attachment.id), 0)
      == PastLink(Carried(ss, writes, after, offset), h).With(ss.Data().(after := Some(h.attachment.id), offset := 0));
  }

  /** The next link of a hold written, and the cursor past it. */
  function PastLink(ss: SpaceState, h: Hold): SpaceState
    requires ss.control.Some? && ss.Data().offset < |h.links|
  {
    var l := h.links[ss.Data().offset];
    ss.(index := ss.index[(l.episode, h.attachment.id) := Entry(h, l.sequence)]).With(ss.Data().(offset := ss.Data().offset + 1))
  }

  lemma {:induction false} OneLinkAt(ss: SpaceState, rows: seq<Row<Hold>>, room: nat)
    requires ss.control.Some? && rows != [] && ss.Data().offset < |rows[0].data.links| && room > 0
    ensures var h := rows[0].data;
      var n := PastLink(ss, h);
      IndexPage(ss, rows, room) ==
        if room > 1 then IndexPage(n, rows, room - 1)
        else if n.Data().offset < |h.links| then n else n.With(ss.Data().(after := Some(h.attachment.id), offset := 0))
  {
    var h, offset := rows[0].data, ss.Data().offset;
    AddLinksSplit(ss.index, h, offset, Min(|h.links|, offset + room));
  }

  /** Where the plan for the rest of a page leads, given what is planned so far. */
  ghost function Outcome(ss: SpaceState, writes: seq<LinkWrite>, after: Option<Att>, offset: nat, rest: seq<Row<Hold>>): SpaceState
    requires ss.control.Some? && |writes| <= TRANSACTION_ROWS && (rest != [] ==> offset <= |rest[0].data.links|)
    requires rest == [] ==> offset == 0
  {
    if |writes| < TRANSACTION_ROWS then IndexPage(Carried(ss, writes, after, offset), rest, TRANSACTION_ROWS - |writes|)
    else if rest == [] || offset < |rest[0].data.links| then Carried(ss, writes, after, offset)
    else Carried(ss, writes, Some(rest[0].data.attachment.id), 0)
  }

  lemma {:induction false} NextLink(ss: SpaceState, rest: seq<Row<Hold>>, writes: seq<LinkWrite>, after: Option<Att>, offset: nat)
    requires ss.control.Some? && rest != [] && offset < |rest[0].data.links| && |writes| < TRANSACTION_ROWS
    ensures var h := rest[0].data;
      Outcome(ss, writes + [LinkWrite(h.links[offset].episode, h.attachment.id, Entry(h, h.links[offset].sequence))], after, offset + 1, rest)
      == Outcome(ss, writes, after, offset, rest)
  {
    hide IndexPage, Carried;
    OneLink(ss, rest, writes, after, offset);
  }

  lemma HoldDone(ss: SpaceState, rest: seq<Row<Hold>>, writes: seq<LinkWrite>, after: Option<Att>, offset: nat)
    requires ss.control.Some? && rest != [] && offset == |rest[0].data.links| && |writes| < TRANSACTION_ROWS
    ensures Outcome(ss, writes, Some(rest[0].data.attachment.id), 0, rest[1..]) == Outcome(ss, writes, after, offset, rest)
  {}

  /** The rows written are for different links: of earlier holds, or of this one up to `offset`. */
  ghost predicate Tidy(writes: seq<LinkWrite>, rows: seq<Row<Hold>>, i: nat, offset: nat)
    requires i < |rows| && offset <= |rows[i].data.links|
  {
    && NoRowTwice(writes) && (forall k :: 0 <= k < |writes| ==> writes[k].a in Ids(rows)[..i + 1])
    && forall k :: 0 <= k < |writes| && writes[k].a == Ids(rows)[i] ==>
         exists j :: 0 <= j < offset && writes[k].e == rows[i].data.links[j].episode
  }

  lemma TidyAdd(writes: seq<LinkWrite>, rows: seq<Row<Hold>>, rev: nat, i: nat, offset: nat, link: EpisodeLink)
    requires i < |rows| && offset < |rows[i].data.links| && PageOk(rows, rev) && Tidy(writes, rows, i, offset)
    ensures Tidy(writes + [LinkWrite(rows[i].data.links[offset].episode, rows[i].data.attachment.id, link)], rows, i, offset + 1)
  {
    assert HoldOk(rows[i].data, Ids(rows)[i], rev);
    assert Ids(rows)[i] in Ids(rows)[..i + 1];
    forall k | 0 <= k < |writes| && writes[k].a == Ids(rows)[i]
      ensures exists j :: 0 <= j < offset + 1 && writes[k].e == rows[i].data.links[j].episode
    {
      var j :| 0 <= j < offset && writes[k].e == rows[i].data.links[j].episode;
      assert 0 <= j < offset + 1;
    }
  }

  lemma TidyNext(writes: seq<LinkWrite>, rows: seq<Row<Hold>>, rev: nat, i: nat)
    requires i + 1 < |rows| && PageOk(rows, rev) && Tidy(writes, rows, i, |rows[i].data.links|)
    ensures Tidy(writes, rows, i + 1, 0)
  {
    assert forall k :: 0 <= k < |writes| ==> writes[k].a in Ids(rows)[..i + 1];
  }

  /** Where a migration plan has got to, inside hold `i` of the page. */
  ghost predicate Drafting(ss: SpaceState, rows: seq<Row<Hold>>, i: nat, writes: seq<LinkWrite>, after: Option<Att>, offset: nat)
    requires ss.control.Some? && rows != [] && OffsetsFit(ss.Data(), rows)
  {
    && i < |rows| && offset <= |rows[i].data.links| && |writes| <= TRANSACTION_ROWS && Tidy(writes, rows, i, offset)
    && Outcome(ss, writes, after, offset, rows[i..]) == IndexPage(ss, rows, TRANSACTION_ROWS)
  }

  lemma DraftStart(ss: SpaceState, rows: seq<Row<Hold>>)
    requires ss.control.Some? && rows != [] && OffsetsFit(ss.Data(), rows)
    ensures Drafting(ss, rows, 0, [], ss.Data().after, ss.Data().offset)
  {
    hide IndexPage, Outcome;
    assert rows[0..] == rows;
    StartsThere(ss, rows);
  }

  lemma DraftLink(ss: SpaceState, rows: seq<Row<Hold>>, i: nat, writes: seq<LinkWrite>, after: Option<Att>, offset: nat)
    requires ss.control.Some? && rows != [] && OffsetsFit(ss.Data(), rows) && PageOk(rows, ss.Rev())
    requires Drafting(ss, rows, i, writes, after, offset) && offset < |rows[i].data.links| && |writes| < TRANSACTION_ROWS
    ensures var h := rows[i].data;
      Drafting(ss, rows, i, writes + [LinkWrite(h.links[offset].episode, h.attachment.id, Entry(h, h.links[offset].sequence))], after, offset + 1)
  {
    hide IndexPage, Outcome, Tidy, PageOk;
    NextLink(ss, rows[i..], writes, after, offset);
    TidyAdd(writes, rows, ss.Rev(), i, offset, Entry(rows[i].data, rows[i].data.links[offset].sequence));
  }

  lemma DraftHold(ss: SpaceState, rows: seq<Row<Hold>>, i: nat, writes: seq<LinkWrite>, after: Option<Att>)
    requires ss.control.Some? && rows != [] && OffsetsFit(ss.Data(), rows) && PageOk(rows, ss.Rev())
    requires i < |rows| && Drafting(ss, rows, i, writes, after, |rows[i].data.links|) && |writes| < TRANSACTION_ROWS
    ensures NoRowTwice(writes)
    ensures if i + 1 < |rows| then Drafting(ss, rows, i + 1, writes, Some(rows[i].data.attachment.id), 0)
      else Carried(ss, writes, Some(rows[i].data.attachment.id), 0) == IndexPage(ss, rows, TRANSACTION_ROWS)
  {
    hide IndexPage, Outcome, Tidy, PageOk, Carried;
    assert rows[i..][0] == rows[i] && rows[i..][1..] == rows[i + 1..];
    TidyApart(writes, rows, i, |rows[i].data.links|);
    HoldDone(ss, rows[i..], writes, after, |rows[i].data.links|);
    if i + 1 < |rows| {
      TidyNext(writes, rows, ss.Rev(), i);
    } else {
      assert rows[i + 1..] == [];
      EndsThere(ss, writes, Some(rows[i].data.attachment.id));
    }
  }

  lemma DraftFull(ss: SpaceState, rows: seq<Row<Hold>>, i: nat, writes: seq<LinkWrite>, after: Option<Att>, offset: nat)
    requires ss.control.Some? && rows != [] && OffsetsFit(ss.Data(), rows)
    requires Drafting(ss, rows, i, writes, after, offset) && |writes| == TRANSACTION_ROWS
    ensures NoRowTwice(writes)
    ensures IndexPage(ss, rows, TRANSACTION_ROWS) ==
      if offset < |rows[i].data.links| then Carried(ss, writes, after, offset) else Carried(ss, writes, Some(rows[i].data.attachment.id), 0)
  {
    hide IndexPage, Outcome, Tidy, Carried;
    TidyApart(writes, rows, i, offset);
    FullThere(ss, writes, after, offset, rows[i..]);
  }

  /**
   * The plan of one migration step: derived rows for as many links as fit, from where the last step stopped. It stops
   * before the end of the page only when it is full.
   */
  method PlanMigration(ss: SpaceState, rows: seq<Row<Hold>>) returns (writes: seq<LinkWrite>, after: Option<Att>, offset: nat)
    requires ss.control.Some? && rows != [] && OffsetsFit(ss.Data(), rows) && PageOk(rows, ss.Rev())
    ensures |writes| <= 90 && NoRowTwice(writes) && (|writes| < 90 ==> after == Some(rows[|rows| - 1].data.attachment.id) && offset == 0)
    ensures Carried(ss, writes, after, offset) == IndexPage(ss, rows, TRANSACTION_ROWS)
  {
    hide IndexPage, Carried, PageOk, NoRowTwice, Outcome, Tidy;
    writes, after, offset := [], ss.Data().after, ss.Data().offset;
    DraftStart(ss, rows);
    for i := 0 to |rows|
      invariant |writes| < TRANSACTION_ROWS && (i > 0 ==> after == Some(rows[i - 1].data.attachment.id) && offset == 0)
      invariant i < |rows| ==> Drafting(ss, rows, i, writes, after, offset)
      invariant i == |rows| ==> NoRowTwice(writes) && Carried(ss, writes, after, offset) == IndexPage(ss, rows, TRANSACTION_ROWS)
    {
      var h := rows[i].data;
      while offset < |h.links| && |writes| < TRANSACTION_ROWS
        invariant Drafting(ss, rows, i, writes, after, offset)
      {
        DraftLink(ss, rows, i, writes, after, offset);
        writes := writes + [LinkWrite(h.links[offset].episode, h.attachment.id, Entry(h, h.links[offset].sequence))];
        offset := offset + 1;
      }
      if |writes| == TRANSACTION_ROWS { DraftFull(ss, rows, i, writes, after, offset); }
      if offset < |h.links| { return; }
      if |writes| < TRANSACTION_ROWS { DraftHold(ss, rows, i, writes, after); }
      after, offset := Some(h.attachment.id), 0;
      if |writes| == TRANSACTION_ROWS { return; }
    }
  }

  lemma StartsThere(ss: SpaceState, rows: seq<Row<Hold>>)
    requires ss.control.Some? && rows != [] && OffsetsFit(ss.Data(), rows)
    ensures Outcome(ss, [], ss.Data().after, ss.Data().offset, rows) == IndexPage(ss, rows, TRANSACTION_ROWS)
  {
    assert Carried(ss, [], ss.Data().after, ss.Data().offset) == ss;
  }

  lemma FullThere(ss: SpaceState, writes: seq<LinkWrite>, after: Option<Att>, offset: nat, rest: seq<Row<Hold>>)
    requires ss.control.Some? && |writes| <= TRANSACTION_ROWS && rest != [] && offset <= |rest[0].data.links|
    ensures |writes| == TRANSACTION_ROWS ==>
      Outcome(ss, writes, after, offset, rest) ==
      if offset < |rest[0].data.links| then Carried(ss, writes, after, offset) else Carried(ss, writes, Some(rest[0].data.attachment.id), 0)
  {}

  lemma EndsThere(ss: SpaceState, writes: seq<LinkWrite>, after: Option<Att>)
    requires ss.control.Some? && |writes| < TRANSACTION_ROWS
    ensures Outcome(ss, writes, after, 0, []) == Carried(ss, writes, after, 0)
  {}


  lemma TidyApart(writes: seq<LinkWrite>, rows: seq<Row<Hold>>, i: nat, offset: nat)
    requires i < |rows| && offset <= |rows[i].data.links| && Tidy(writes, rows, i, offset)
    ensures NoRowTwice(writes)
  {}

  // ----- One release transaction -----

  datatype Key = LinkKey(e: Episode, a: Att) | HoldKey(a: Att) | RootKey(a: Att) | ReceiptKey(k: SortKey) | IntentKey(g: Gen)

  datatype Change =
    | WriteLink(e: Episode, a: Att, link: EpisodeLink)
    | DeleteLink(e: Episode, a: Att)
    | WriteHold(a: Att, hold: Row<Hold>)
    | DeleteHold(a: Att)
    | WriteRoot(a: Att, root: Row<Root>)
    | DeleteRoot(a: Att)
    | WriteResult(op: Op, k: SortKey, result: Result)
    | DeleteResult(op: Op, k: SortKey)
    | WriteIntent(g: Gen, intent: Row<Intent>)
    | DeleteIntent(g: Gen, a: Att)
  {
    function Key(): Key
    {
      match this
      case WriteLink(e, a, _) => LinkKey(e, a)
      case DeleteLink(e, a) => LinkKey(e, a)
      case WriteHold(a, _) => HoldKey(a)
      case DeleteHold(a) => HoldKey(a)
      case WriteRoot(a, _) => RootKey(a)
      case DeleteRoot(a) => RootKey(a)
      case WriteResult(_, k, _) => ReceiptKey(k)
      case DeleteResult(_, k) => ReceiptKey(k)
      case WriteIntent(g, _) => IntentKey(g)
      case DeleteIntent(g, _) => IntentKey(g)
    }
    predicate OnIntent() { WriteIntent? || DeleteIntent? }

    /** The attachment a change is about. */
    function About(): Att
    {
      match this
      case WriteResult(_, k, _) => k.att
      case DeleteResult(_, k) => k.att
      case WriteIntent(_, row) => row.data.att
      case _ => this.a
    }
  }

  function ApplyChange(s: Sys, sp: Space, c: Change): Sys
  {
    var ss := s.At(sp);
    match c
    case WriteLink(e, a, link) => s.Put(sp, ss.(index := ss.index[(e, a) := link]))
    case DeleteLink(e, a) => s.Put(sp, ss.(index := ss.index - {(e, a)}))
    case WriteHold(a, row) => s.Put(sp, ss.(holds := ss.holds[a := row]))
    case DeleteHold(a) => s.Put(sp, ss.(holds := ss.holds - {a}))
    case WriteRoot(a, row) => s.(life := s.life.(roots := s.life.roots[a := row]))
    case DeleteRoot(a) => s.(life := s.life.(roots := s.life.roots - {a}))
    case WriteResult(op, k, r) => s.Put(sp, ss.(results := ss.results[(op, k) := r]))
    case DeleteResult(op, k) => s.Put(sp, ss.(results := ss.results - {(op, k)}))
    case WriteIntent(g, row) => s.(life := s.life.(intents := s.life.intents[(sp, g) := row]))
    case DeleteIntent(g, _) => s.(life := s.life.(intents := s.life.intents - {(sp, g)}))
  }

  function ApplyAll(s: Sys, sp: Space, changes: seq<Change>): Sys
    decreases |changes|
  {
    if changes == [] then s else ApplyAll(ApplyChange(s, sp, changes[0]), sp, changes[1..])
  }

  lemma {:induction false} ApplyMore(s: Sys, sp: Space, x: seq<Change>, y: seq<Change>)
    ensures ApplyAll(s, sp, x + y) == ApplyAll(ApplyAll(s, sp, x), sp, y)
    decreases |x|
  {
    if x == [] {
      assert x + y == y;
    } else {
      assert (x + y)[1..] == x[1..] + y;
      ApplyMore(ApplyChange(s, sp, x[0]), sp, x[1..], y);
    }
  }

  /** The space with another control payload, as the last write of the transaction leaves it. */
  function Steer(s: Sys, sp: Space, c: Control): Sys
  {
    if s.At(sp).control.Some? then s.Put(sp, s.At(sp).With(c)) else s
  }

  lemma {:induction false} SteerLater(s: Sys, sp: Space, c: Control, changes: seq<Change>)
    requires s.At(sp).control.Some?
    ensures ApplyAll(Steer(s, sp, c), sp, changes) == Steer(ApplyAll(s, sp, changes), sp, c)
    ensures ApplyAll(s, sp, changes).At(sp).control == s.At(sp).control
    decreases |changes|
  {
    if changes != [] {
      SteerOne(s, sp, c, changes[0]);
      SteerLater(ApplyChange(s, sp, changes[0]), sp, c, changes[1..]);
    }
  }

  lemma SteerOne(s: Sys, sp: Space, c: Control, change: Change)
    requires s.At(sp).control.Some?
    ensures ApplyChange(Steer(s, sp, c), sp, change) == Steer(ApplyChange(s, sp, change), sp, c)
    ensures ApplyChange(s, sp, change).At(sp).control == s.At(sp).control
  {
    var x, y := ApplyChange(Steer(s, sp, c), sp, change), Steer(ApplyChange(s, sp, change), sp, c);
    assert x.spaces == y.spaces;
  }

  /** The links a release step takes from a hold, in order. */
  function Removed(c: Control, links: seq<Link>, budget: nat): seq<Link>
    requires budget >= 5
  {
    if c.mode == Release then links[..Min(|links|, budget - 4)] else Only(links, c.episode)
  }

  function Only(links: seq<Link>, e: Episode): seq<Link>
  {
    if links == [] then [] else (if links[0].episode == e then [links[0]] else []) + Only(links[1..], e)
  }

  lemma {:induction false} OnlyCount(links: seq<Link>, e: Episode)
    requires Distinct(links)
    ensures |Only(links, e)| + |Without(links, {e})| == |links| && |Only(links, e)| <= 1
    ensures Episodes(Only(links, e)) == if e in Episodes(links) then {e} else {}
    ensures forall l: Link :: l in Only(links, e) ==> l in links && l.episode == e
  {
    if links != [] {
      OnlyCount(links[1..], e);
      assert forall l: Link :: l in links <==> l == links[0] || l in links[1..];
      if links[0].episode == e {
        forall l: Link | l in links[1..] ensures l.episode != e {
          var i :| 0 <= i < |links[1..]| && links[1..][i] == l;
          assert links[i + 1] == l;
        }
        var o := Only(links[1..], e);
        assert o != [] ==> o[0] in o && o[0].episode in Episodes(o);
        assert Only(links, e) == [links[0]];
      } else {
        assert Only(links, e) == Only(links[1..], e);
      }
    }
  }

  lemma RemovedCount(c: Control, h: Hold, budget: nat)
    requires budget >= 5 && Distinct(h.links)
    ensures Episodes(Removed(c, h.links, budget)) == Taken(c, h, budget)
    ensures |Removed(c, h.links, budget)| == |h.links| - |Without(h.links, Taken(c, h, budget))| <= budget - 4
    ensures Distinct(Removed(c, h.links, budget))
    ensures c.mode == Release ==> Without(h.links, Taken(c, h, budget)) == h.links[Min(|h.links|, budget - 4)..]
  {
    OnlyCount(h.links, c.episode);
    if c.mode == Release {
      DropPrefix(h.links, Min(|h.links|, budget - 4));
    } else if c.episode !in Episodes(h.links) {
      EmptyWithout(h.links);
      WithoutAbsent(h.links, c.episode);
    }
  }

  lemma {:induction false} EmptyWithout(links: seq<Link>)
    ensures Without(links, {}) == links
  {
    if links != [] { EmptyWithout(links[1..]); }
  }

  function Deletes(removed: seq<Link>, att: Att): (changes: seq<Change>)
    ensures |changes| == |removed|
    ensures forall i :: 0 <= i < |removed| ==> changes[i] == DeleteLink(removed[i].episode, att)
  {
    seq(|removed|, i requires 0 <= i < |removed| => DeleteLink(removed[i].episode, att))
  }

  lemma {:induction false} DeletesUnindex(s: Sys, sp: Space, removed: seq<Link>, att: Att)
    requires sp in s.spaces
    ensures ApplyAll(s, sp, Deletes(removed, att)) == s.Put(sp, s.At(sp).(index := Unindex(s.At(sp).index, att, Episodes(removed))))
    decreases |removed|
  {
    var ss := s.At(sp);
    if removed == [] {
      assert Episodes([]) == {} && Unindex(ss.index, att, {}) == ss.index && s.spaces[sp := ss] == s.spaces;
    } else {
      var n := ApplyChange(s, sp, DeleteLink(removed[0].episode, att));
      assert Deletes(removed, att)[1..] == Deletes(removed[1..], att);
      DeletesUnindex(n, sp, removed[1..], att);
      assert Episodes(removed) == Episodes(removed[1..]) + {removed[0].episode} by {
        assert forall l: Link :: l in removed <==> l == removed[0] || l in removed[1..];
      }
      assert Unindex(n.At(sp).index, att, Episodes(removed[1..])) == Unindex(ss.index, att, Episodes(removed));
      assert n.spaces[sp := n.At(sp).(index := Unindex(ss.index, att, Episodes(removed)))]
        == s.spaces[sp := ss.(index := Unindex(ss.index, att, Episodes(removed)))];
    }
  }

  /** The writes for a hold that keeps some links, or for one that goes. */
  function HoldChanges(c: Control, op: Op, hold: Row<Hold>, root: Row<Root>, sequence: nat, remaining: seq<Link>): seq<Change>
    requires root.data.holds >= 1
  {
    var att, last := hold.data.attachment.id, root.data.holds == 1;
    if remaining != [] then [WriteHold(att, Row(hold.rev + 1, hold.data.(links := remaining)))]
    else
      [DeleteHold(att),
       if last then DeleteRoot(att) else WriteRoot(att, Row(root.rev + 1, root.data.(holds := root.data.holds - 1))),
       WriteResult(op, SortKey(sequence, att), Result(c.mode == Unlink || last, if last then Some(root.data.generation) else None))]
      + if last then [WriteIntent(root.data.generation, Row(1, Intent(Delete, att, root.data.version)))] else []
  }

  ghost function Cleared(s: Sys, sp: Space, att: Att, gone: set<Episode>): Sys
  {
    s.Put(sp, s.At(sp).(index := Unindex(s.At(sp).index, att, gone)))
  }

  ghost predicate Reads(s: Sys, sp: Space, hold: Row<Hold>, root: Row<Root>)
  {
    var att := hold.data.attachment.id;
    Removable(s, sp, att) && s.At(sp).holds[att] == hold && s.life.roots[att] == root
  }

  /** The control payload after one candidate. */
  function Following(c: Control, att: Att, remaining: seq<Link>): Control
    requires c.count >= 1
  {
    if remaining == [] then c.(cursor := Some(SortKey(0, att)), count := c.count - 1)
    else if c.mode == Release then c else c.(cursor := Some(SortKey(0, att)))
  }

  lemma HoldChangesApply(s: Sys, sp: Space, hold: Row<Hold>, root: Row<Root>, sequence: nat, budget: nat)
    requires Reads(s, sp, hold, root) && budget >= 5
    ensures var c, att := s.At(sp).Data(), hold.data.attachment.id;
      var gone := Taken(c, hold.data, budget);
      var remaining := Without(hold.data.links, gone);
      Steer(ApplyAll(Cleared(s, sp, att, gone), sp, HoldChanges(c, c.operation.value, hold, root, sequence, remaining)), sp, Following(c, att, remaining))
      == RemoveOne(s, sp, att, sequence, budget)
  {
    hide Taken, Without, ApplyAll, ApplyChange, Cleared, RemoveOne, HoldChanges;
    var c, att := s.At(sp).Data(), hold.data.attachment.id;
    var gone := Taken(c, hold.data, budget);
    if Without(hold.data.links, gone) != [] { KeepApplies(s, sp, hold, root, sequence, budget); } else { DropApplies(s, sp, hold, root, sequence, budget); }
  }

  lemma KeepApplies(s: Sys, sp: Space, hold: Row<Hold>, root: Row<Root>, sequence: nat, budget: nat)
    requires Reads(s, sp, hold, root) && budget >= 5
    requires Without(hold.data.links, Taken(s.At(sp).Data(), hold.data, budget)) != []
    ensures var c, att := s.At(sp).Data(), hold.data.attachment.id;
      var gone := Taken(c, hold.data, budget);
      var remaining := Without(hold.data.links, gone);
      Steer(ApplyAll(Cleared(s, sp, att, gone), sp, HoldChanges(c, c.operation.value, hold, root, sequence, remaining)), sp, Following(c, att, remaining))
      == RemoveOne(s, sp, att, sequence, budget)
  {
    hide Unindex, Taken, Without, ApplyAll;
    var c, att := s.At(sp).Data(), hold.data.attachment.id;
    var gone := Taken(c, hold.data, budget);
    var remaining, n := Without(hold.data.links, gone), Cleared(s, sp, att, gone);
    ApplySingle(n, sp, WriteHold(att, Row(hold.rev + 1, hold.data.(links := remaining))));
    var x, y := Steer(ApplyChange(n, sp, WriteHold(att, Row(hold.rev + 1, hold.data.(links := remaining)))), sp, Following(c, att, remaining)), RemoveOne(s, sp, att, sequence, budget);
    assert x.At(sp) == y.At(sp) && x.spaces == y.spaces;
  }

  /** What the writes for a hold that goes leave behind. */
  ghost function Dropped(n: Sys, sp: Space, c: Control, op: Op, hold: Row<Hold>, root: Row<Root>, sequence: nat): Sys
    requires root.data.holds >= 1
  {
    var ss, att, last := n.At(sp), hold.data.attachment.id, root.data.holds == 1;
    var result := Result(c.mode == Unlink || last, if last then Some(root.data.generation) else None);
    n.Put(sp, ss.(holds := ss.holds - {att}, results := ss.results[(op, SortKey(sequence, att)) := result]))
     .(life :=
       if last then n.life.(roots := n.life.roots - {att},
         intents := n.life.intents[(sp, root.data.generation) := Row(1, Intent(Delete, att, root.data.version))])
       else n.life.(roots := n.life.roots[att := Row(root.rev + 1, root.data.(holds := root.data.holds - 1))]))
  }

  lemma DropLands(n: Sys, sp: Space, c: Control, op: Op, hold: Row<Hold>, root: Row<Root>, sequence: nat)
    requires root.data.holds >= 1
    ensures ApplyAll(n, sp, HoldChanges(c, op, hold, root, sequence, [])) == Dropped(n, sp, c, op, hold, root, sequence)
  {
    hide ApplyAll;
    var changes := HoldChanges(c, op, hold, root, sequence, []);
    ApplyThree(n, sp, changes);
    var y := Dropped(n, sp, c, op, hold, root, sequence);
    var a := ApplyChange(n, sp, changes[0]);
    var b := ApplyChange(a, sp, changes[1]);
    var d := ApplyChange(b, sp, changes[2]);
    assert d.At(sp) == y.At(sp) && d.spaces == y.spaces;
  }

  lemma DropApplies(s: Sys, sp: Space, hold: Row<Hold>, root: Row<Root>, sequence: nat, budget: nat)
    requires Reads(s, sp, hold, root) && budget >= 5
    requires Without(hold.data.links, Taken(s.At(sp).Data(), hold.data, budget)) == []
    ensures var c, att := s.At(sp).Data(), hold.data.attachment.id;
      var gone := Taken(c, hold.data, budget);
      Steer(ApplyAll(Cleared(s, sp, att, gone), sp, HoldChanges(c, c.operation.value, hold, root, sequence, [])), sp, Following(c, att, []))
      == RemoveOne(s, sp, att, sequence, budget)
  {
    hide Unindex, Taken, Without, ApplyAll, HoldChanges;
    var c, att := s.At(sp).Data(), hold.data.attachment.id;
    var gone := Taken(c, hold.data, budget);
    var n := Cleared(s, sp, att, gone);
    DropLands(n, sp, c, c.operation.value, hold, root, sequence);
    var x := Steer(Dropped(n, sp, c, c.operation.value, hold, root, sequence), sp, Following(c, att, []));
    var y := RemoveOne(s, sp, att, sequence, budget);
    assert x.At(sp) == y.At(sp) && x.life == y.life && x.spaces == y.spaces;
  }

  lemma ApplySingle(s: Sys, sp: Space, c: Change)
    ensures ApplyAll(s, sp, [c]) == ApplyChange(s, sp, c)
  {
    hide ApplyChange;
    assert [c][1..] == [];
  }

  lemma ApplyThree(s: Sys, sp: Space, changes: seq<Change>)
    requires 3 <= |changes| <= 4
    ensures var n := ApplyChange(ApplyChange(ApplyChange(s, sp, changes[0]), sp, changes[1]), sp, changes[2]);
      ApplyAll(s, sp, changes) == if |changes| == 4 then ApplyChange(n, sp, changes[3]) else n
  {
    hide ApplyChange;
    var a := ApplyChange(s, sp, changes[0]);
    var b := ApplyChange(a, sp, changes[1]);
    assert changes[1..][1..] == changes[2..] && changes[2..][1..] == changes[3..];
    assert ApplyAll(s, sp, changes) == ApplyAll(a, sp, changes[1..]) == ApplyAll(b, sp, changes[2..]);
    var n := ApplyChange(b, sp, changes[2]);
    assert ApplyAll(b, sp, changes[2..]) == ApplyAll(n, sp, changes[3..]);
    if |changes| == 4 { ApplySingle(n, sp, changes[3]); assert changes[3..] == [changes[3]]; } else { assert changes[3..] == []; }
  }

  /** No transaction may name one row twice. */
  ghost predicate Once(changes: seq<Change>)
  {
    forall i, j :: 0 <= i < j < |changes| ==> changes[i].Key() != changes[j].Key()
  }

  /** Every change is about a known attachment, deletion intents included. */
  ghost predicate Named(changes: seq<Change>, gens: map<Gen, Att>)
  {
    forall i :: 0 <= i < |changes| && changes[i].OnIntent() ==> Lookup(gens, changes[i].g) == Some(changes[i].About())
  }

  ghost predicate AllAbout(changes: seq<Change>, att: Att) { forall i :: 0 <= i < |changes| ==> changes[i].About() == att }

  lemma OneHold(c: Control, op: Op, hold: Row<Hold>, root: Row<Root>, sequence: nat, removed: seq<Link>, remaining: seq<Link>, gens: map<Gen, Att>)
    requires root.data.holds >= 1 && Distinct(removed) && Lookup(gens, root.data.generation) == Some(hold.data.attachment.id)
    ensures var changes := Deletes(removed, hold.data.attachment.id) + HoldChanges(c, op, hold, root, sequence, remaining);
      Once(changes) && Named(changes, gens) && AllAbout(changes, hold.data.attachment.id)
  {
    var x, y := Deletes(removed, hold.data.attachment.id), HoldChanges(c, op, hold, root, sequence, remaining);
    var changes := x + y;
    forall i | 0 <= i < |changes|
      ensures changes[i] == if i < |x| then DeleteLink(removed[i].episode, hold.data.attachment.id) else y[i - |x|]
    {}
    assert forall j :: 0 <= j < |y| ==> y[j].About() == hold.data.attachment.id && !y[j].DeleteLink?;
  }

  lemma Apart(x: seq<Change>, y: seq<Change>, gens: map<Gen, Att>, att: Att)
    requires Once(x) && Once(y) && Named(x, gens) && Named(y, gens) && AllAbout(y, att)
    requires forall i :: 0 <= i < |x| ==> x[i].About() != att
    ensures Once(x + y) && Named(x + y, gens)
  {
    forall i, j | 0 <= i < |x| && 0 <= j < |y| ensures x[i].Key() != y[j].Key() { DifferentKeys(x[i], y[j], gens); }
  }

  lemma DifferentKeys(a: Change, b: Change, gens: map<Gen, Att>)
    requires a.About() != b.About()
    requires a.OnIntent() ==> Lookup(gens, a.g) == Some(a.About())
    requires b.OnIntent() ==> Lookup(gens, b.g) == Some(b.About())
    ensures a.Key() != b.Key()
  {}

  /** The plan for one candidate. */
  method RemoveLinks(ghost s: Sys, sp: Space, c: Control, hold: Row<Hold>, root: Row<Root>, sequence: nat, budget: nat)
    returns (changes: seq<Change>, following: Control, partial: bool)
    requires Reads(s, sp, hold, root) && budget >= 5 && c == s.At(sp).Data() && Distinct(hold.data.links)
    requires Lookup(s.life.gens, root.data.generation) == Some(hold.data.attachment.id)
    ensures |changes| == Cost(s, sp, hold.data.attachment.id, budget) <= budget
    ensures Steer(ApplyAll(s, sp, changes), sp, following) == RemoveOne(s, sp, hold.data.attachment.id, sequence, budget)
    ensures partial <==> c.mode == Release && Without(hold.data.links, Taken(c, hold.data, budget)) != []
    ensures Once(changes) && Named(changes, s.life.gens) && AllAbout(changes, hold.data.attachment.id)
  {
    var att := hold.data.attachment.id;
    RemovedCount(c, hold.data, budget);
    var removed := Removed(c, hold.data.links, budget);
    var remaining := Without(hold.data.links, Episodes(removed));
    partial := c.mode == Release && remaining != [];
    following := if partial then c else c.(cursor := Some(SortKey(0, att)));
    if remaining == [] { following := following.(count := c.count - 1); }
    changes := Deletes(removed, att) + HoldChanges(c, c.operation.value, hold, root, sequence, remaining);
    OneHold(c, c.operation.value, hold, root, sequence, removed, remaining, s.life.gens);
    PlanApplies(s, sp, hold, root, sequence, budget, removed, following);
  }

  lemma PlanApplies(s: Sys, sp: Space, hold: Row<Hold>, root: Row<Root>, sequence: nat, budget: nat, removed: seq<Link>, following: Control)
    requires Reads(s, sp, hold, root) && budget >= 5 && Episodes(removed) == Taken(s.At(sp).Data(), hold.data, budget)
    requires following == Following(s.At(sp).Data(), hold.data.attachment.id, Without(hold.data.links, Episodes(removed)))
    ensures var c, att := s.At(sp).Data(), hold.data.attachment.id;
      var changes := Deletes(removed, att) + HoldChanges(c, c.operation.value, hold, root, sequence, Without(hold.data.links, Episodes(removed)));
      Steer(ApplyAll(s, sp, changes), sp, following) == RemoveOne(s, sp, att, sequence, budget)
  {
    hide ApplyAll, HoldChanges, RemoveOne, Taken, Without, Following;
    var c, att := s.At(sp).Data(), hold.data.attachment.id;
    DeletesUnindex(s, sp, removed, att);
    ApplyMore(s, sp, Deletes(removed, att), HoldChanges(c, c.operation.value, hold, root, sequence, Without(hold.data.links, Episodes(removed))));
    HoldChangesApply(s, sp, hold, root, sequence, budget);
  }

  /** The rows a plan has read and not yet used are still as they were read. */
  ghost predicate Unused(s: Sys, now: Sys, sp: Space, page: seq<LinkRow>)
  {
    && now.life.gens == s.life.gens
    && forall i :: 0 <= i < |page| ==>
         Lookup(now.At(sp).holds, page[i].att) == Lookup(s.At(sp).holds, page[i].att)
         && Lookup(now.life.roots, page[i].att) == Lookup(s.life.roots, page[i].att)
  }

  ghost predicate Workable(s: Sys, sp: Space, page: seq<LinkRow>)
  {
    Core(s) && InHolds(s.At(sp)) && CandidateRun(s.At(sp), page)
  }

  /** What a plan needs of the rows it has read for a candidate. */
  ghost predicate Readable(s: Sys, now: Sys, sp: Space, att: Att)
  {
    && att in s.At(sp).holds && att in s.life.roots && s.At(sp).holds[att].data.attachment.id == att
    && Reads(now, sp, s.At(sp).holds[att], s.life.roots[att]) && Distinct(s.At(sp).holds[att].data.links)
    && Lookup(now.life.gens, s.life.roots[att].data.generation) == Some(att)
  }

  lemma ReadRows(s: Sys, now: Sys, sp: Space, page: seq<LinkRow>, room: nat)
    requires Workable(now, sp, page) && page != [] && 5 <= room && Unused(s, now, sp, page)
    ensures Readable(s, now, sp, page[0].att)
  {
    hide ControlOk, AllDoomed, RootsExact, CandidateRun, EpisodeCatalog.Progress, Removable, RemoveOne;
    var att := page[0].att;
    RemoveOneCore(now, sp, page, room);
    RemovableRows(now, sp, att);
    KnownSpace(now, sp);
    assert SpaceOk(now.At(sp));
    assert HoldOk(now.At(sp).holds[att].data, att, now.At(sp).Rev());
    assert Lookup(now.At(sp).holds, att) == Lookup(s.At(sp).holds, att);
  }

  lemma RemovableRows(s: Sys, sp: Space, att: Att)
    requires Removable(s, sp, att)
    ensures att in s.At(sp).holds && att in s.life.roots
  {}

  ghost predicate Partial(s: Sys, now: Sys, sp: Space, att: Att, room: nat)
    requires att in s.At(sp).holds && room >= 5
  {
    now.At(sp).Data().mode == Release && Without(s.At(sp).holds[att].data.links, Taken(now.At(sp).Data(), s.At(sp).holds[att].data, room)) != []
  }

  /** One candidate of a release, as a step of the whole transaction. */
  lemma CandidateStep(s: Sys, now: Sys, sp: Space, page: seq<LinkRow>, room: nat)
    requires Workable(now, sp, page) && page != [] && 5 <= room && Unused(s, now, sp, page) && Readable(s, now, sp, page[0].att)
    requires Cost(now, sp, page[0].att, room) <= room
    ensures var n := RemoveOne(now, sp, page[0].att, page[0].link.sequence, room);
      if Partial(s, now, sp, page[0].att, room) then RemoveAll(now, sp, page, room) == Some(n)
      else
        Workable(n, sp, page[1..]) && Unused(s, n, sp, page[1..])
        && RemoveAll(now, sp, page, room) == RemoveAll(n, sp, page[1..], room - Cost(now, sp, page[0].att, room))
  {
    hide Core, CandidateRun, Cost, Without, Taken, RemoveAll, RemoveOne, InHolds, Unused;
    var att := page[0].att;
    RemoveOneCore(now, sp, page, room);
    var n := RemoveOne(now, sp, att, page[0].link.sequence, room);
    RemoveKeeps(now, sp, att, page[0].link.sequence, room);
    AllUnrolled(now, sp, page, room);
    if !Partial(s, now, sp, att, room) {
      NextRun(now, sp, page, room);
      StillUnused(s, now, n, sp, page);
    }
  }

  lemma RemoveKeeps(s: Sys, sp: Space, att: Att, sequence: nat, room: nat)
    requires Removable(s, sp, att) && room >= 5
    ensures var n := RemoveOne(s, sp, att, sequence, room);
      && n.life.gens == s.life.gens
      && (forall a: Att :: a != att ==> Lookup(n.At(sp).holds, a) == Lookup(s.At(sp).holds, a))
      && (forall a: Att :: a != att ==> Lookup(n.life.roots, a) == Lookup(s.life.roots, a))
      && (att in n.At(sp).holds <==> Without(s.At(sp).holds[att].data.links, Taken(s.At(sp).Data(), s.At(sp).holds[att].data, room)) != [])
  {
    hide Taken, Without, RemoveOne, RemoveLife, NextSpace, GoneFrom;
    RemoveOneShape(s, sp, att, sequence, room);
    KeptRoots(s, sp, att, room);
    KeptHolds(s, sp, att, sequence, room);
  }

  lemma KeptRoots(s: Sys, sp: Space, att: Att, room: nat)
    requires Removable(s, sp, att) && room >= 5
    ensures RemoveLife(s, sp, att, room).gens == s.life.gens
    ensures forall a: Att :: a != att ==> Lookup(RemoveLife(s, sp, att, room).roots, a) == Lookup(s.life.roots, a)
  {
    hide Without, GoneFrom;
  }

  lemma KeptHolds(s: Sys, sp: Space, att: Att, sequence: nat, room: nat)
    requires Removable(s, sp, att) && room >= 5
    ensures var y := NextSpace(s, sp, att, sequence, room);
      && (forall a: Att :: a != att ==> Lookup(y.holds, a) == Lookup(s.At(sp).holds, a))
      && (att in y.holds <==> Without(s.At(sp).holds[att].data.links, Taken(s.At(sp).Data(), s.At(sp).holds[att].data, room)) != [])
  {
    hide Without, Taken, Unindex, ResultOf;
  }

  lemma AllUnrolled(s: Sys, sp: Space, page: seq<LinkRow>, room: nat)
    requires page != [] && room >= 5 && Removable(s, sp, page[0].att)
    ensures var n := RemoveOne(s, sp, page[0].att, page[0].link.sequence, room);
      RemoveAll(s, sp, page, room) ==
      if s.At(sp).Data().mode == Release && page[0].att in n.At(sp).holds then Some(n)
      else RemoveAll(n, sp, page[1..], if Cost(s, sp, page[0].att, room) > room then 0 else room - Cost(s, sp, page[0].att, room))
  {
    hide RemoveOne, Cost;
  }

  lemma StillUnused(s: Sys, now: Sys, n: Sys, sp: Space, page: seq<LinkRow>)
    requires page != [] && CandidateRun(now.At(sp), page) && Unused(s, now, sp, page) && n.life.gens == now.life.gens
    requires forall a: Att :: a != page[0].att ==>
      Lookup(n.At(sp).holds, a) == Lookup(now.At(sp).holds, a) && Lookup(n.life.roots, a) == Lookup(now.life.roots, a)
    ensures Unused(s, n, sp, page[1..])
  {
    forall i | 0 <= i < |page| - 1 ensures page[1..][i].att != page[0].att && page[1..][i] == page[i + 1] {
      RunSorted(CandidateKeys(now.At(sp)), CursorAtt(now.At(sp).Data()), Atts(page), 0, i + 1);
      assert Atts(page)[i + 1] == page[i + 1].att && Atts(page)[0] == page[0].att;
    }
  }

  ghost predicate AboutPast(changes: seq<Change>, page: seq<LinkRow>, i: nat)
  {
    forall k :: 0 <= k < |changes| ==> forall j :: i <= j < |page| ==> changes[k].About() != page[j].att
  }

  lemma PastMore(s: SpaceState, changes: seq<Change>, more: seq<Change>, page: seq<LinkRow>, i: nat)
    requires i < |page| && CandidateRun(s, page) && AboutPast(changes, page, i) && AllAbout(more, page[i].att)
    ensures AboutPast(changes + more, page, i + 1) && forall k :: 0 <= k < |changes| ==> changes[k].About() != page[i].att
  {
    forall j | i < j < |page| ensures page[j].att != page[i].att {
      RunSorted(CandidateKeys(s), CursorAtt(s.Data()), Atts(page), i, j);
    }
  }

  /** Where a release plan has got to: `now` is the store once the changes so far are made. */
  ghost predicate Underway(s: Sys, sp: Space, page: seq<LinkRow>, i: nat, changes: seq<Change>, following: Control, now: Sys)
    requires i <= |page|
  {
    && |changes| <= TRANSACTION_ROWS && Once(changes) && Named(changes, s.life.gens) && AboutPast(changes, page, i)
    && now == Steer(ApplyAll(s, sp, changes), sp, following) && now.At(sp).Data() == following
    && Workable(now, sp, page[i..]) && Unused(s, now, sp, page[i..]) && CandidateRun(s.At(sp), page) && s.At(sp).control.Some?
    && RemoveAll(s, sp, page, TRANSACTION_ROWS) == RemoveAll(now, sp, page[i..], TRANSACTION_ROWS - |changes|)
  }

  lemma UnderwayStart(s: Sys, sp: Space, page: seq<LinkRow>)
    requires Workable(s, sp, page)
    ensures Underway(s, sp, page, 0, [], s.At(sp).Data(), s)
  {
    hide Core, CandidateRun, RemoveAll;
    KnownSpace(s, sp);
    assert page[0..] == page && s.spaces[sp := s.At(sp)] == s.spaces;
  }

  lemma UnderwayReads(s: Sys, sp: Space, page: seq<LinkRow>, i: nat, changes: seq<Change>, following: Control, now: Sys)
    requires i < |page| && Underway(s, sp, page, i, changes, following, now) && TRANSACTION_ROWS - |changes| >= 5
    ensures Readable(s, now, sp, page[i].att) && now.At(sp).Data() == following && now.life.gens == s.life.gens
  {
    hide RemoveAll, Core, CandidateRun, Readable, Steer, ApplyAll, InHolds;
    ReadRows(s, now, sp, page[i..], TRANSACTION_ROWS - |changes|);
  }

  /** The plan with one more candidate's changes: finished if links are left, and otherwise underway. */
  lemma UnderwayStep(s: Sys, sp: Space, page: seq<LinkRow>, i: nat, changes: seq<Change>, following: Control, now: Sys, more: seq<Change>, next: Control)
    requires i < |page| && Underway(s, sp, page, i, changes, following, now) && TRANSACTION_ROWS - |changes| >= 5
    requires Readable(s, now, sp, page[i].att) && |more| == Cost(now, sp, page[i].att, TRANSACTION_ROWS - |changes|) <= TRANSACTION_ROWS - |changes|
    requires Steer(ApplyAll(now, sp, more), sp, next) == RemoveOne(now, sp, page[i].att, page[i].link.sequence, TRANSACTION_ROWS - |changes|)
    requires Once(more) && Named(more, s.life.gens) && AllAbout(more, page[i].att)
    ensures |changes + more| <= TRANSACTION_ROWS && Once(changes + more)
    ensures var n := RemoveOne(now, sp, page[i].att, page[i].link.sequence, TRANSACTION_ROWS - |changes|);
      if Partial(s, now, sp, page[i].att, TRANSACTION_ROWS - |changes|) then
        RemoveAll(s, sp, page, TRANSACTION_ROWS) == Some(Steer(ApplyAll(s, sp, changes + more), sp, next))
      else Underway(s, sp, page, i + 1, changes + more, next, n)
  {
    hide RemoveAll, RemoveOne, Cost, ApplyAll, Steer, Core, InHolds, CandidateRun, Once, Named, Readable, Partial, AboutPast, Unused, AllAbout;
    assert page[i..][0] == page[i] && page[i..][1..] == page[i + 1..];
    CandidateStep(s, now, sp, page[i..], TRANSACTION_ROWS - |changes|);
    PastMore(s.At(sp), changes, more, page, i);
    Apart(changes, more, s.life.gens, page[i].att);
    Extend(s, sp, changes, following, more, next);
    SteerData(s, sp, changes + more, next);
  }

  lemma UnderwayEnd(s: Sys, sp: Space, page: seq<LinkRow>, i: nat, changes: seq<Change>, following: Control, now: Sys)
    requires i <= |page| && Underway(s, sp, page, i, changes, following, now)
    requires i == |page| || TRANSACTION_ROWS - |changes| < 5
    ensures |changes| <= TRANSACTION_ROWS && Once(changes)
    ensures RemoveAll(s, sp, page, TRANSACTION_ROWS) == Some(Steer(ApplyAll(s, sp, changes), sp, following))
  {
    hide Core, CandidateRun, RemoveAll, Steer, ApplyAll;
    if i == |page| {
      assert page[i..] == [];
      NoPage(now, sp, TRANSACTION_ROWS - |changes|);
    } else {
      NoRoom(now, sp, page[i..], TRANSACTION_ROWS - |changes|);
    }
  }

  /**
   * The plan of one release step, from a page of candidates and the rows read for them: at most
   * 90 writes, no row twice, and together exactly the release step of the catalog.
   */
  method PlanRelease(s: Sys, sp: Space, page: seq<LinkRow>) returns (changes: seq<Change>, following: Control)
    requires Workable(s, sp, page)
    ensures |changes| <= 90 && Once(changes)
    ensures RemoveAll(s, sp, page, TRANSACTION_ROWS) == Some(Steer(ApplyAll(s, sp, changes), sp, following))
  {
    hide RemoveAll, RemoveOne, Cost, ApplyAll, Steer, Workable, Once, Named, Partial, AllAbout, Underway, Readable;
    changes, following := [], s.At(sp).Data();
    ghost var now := s;
    UnderwayStart(s, sp, page);
    for i := 0 to |page|
      invariant Underway(s, sp, page, i, changes, following, now) && |changes| <= TRANSACTION_ROWS
    {
      var budget := TRANSACTION_ROWS - |changes|;
      if budget < 5 {
        UnderwayEnd(s, sp, page, i, changes, following, now);
        return;
      }
      UnderwayReads(s, sp, page, i, changes, following, now);
      ReadableRows(s, now, sp, page[i].att);
      var hold, root := s.At(sp).holds[page[i].att], s.life.roots[page[i].att];
      var more, next, partial := RemoveLinks(now, sp, following, hold, root, page[i].link.sequence, budget);
      PartialMeans(s, now, sp, page[i].att, budget);
      UnderwayStep(s, sp, page, i, changes, following, now, more, next);
      now := RemoveOne(now, sp, page[i].att, page[i].link.sequence, budget);
      changes, following := changes + more, next;
      if partial { return; }
    }
    UnderwayEnd(s, sp, page, |page|, changes, following, now);
  }

  lemma ReadableRows(s: Sys, now: Sys, sp: Space, att: Att)
    requires Readable(s, now, sp, att)
    ensures att in s.At(sp).holds && att in s.life.roots && s.At(sp).holds[att].data.attachment.id == att
    ensures Reads(now, sp, s.At(sp).holds[att], s.life.roots[att]) && Distinct(s.At(sp).holds[att].data.links)
    ensures Lookup(now.life.gens, s.life.roots[att].data.generation) == Some(att)
  {}

  lemma PartialMeans(s: Sys, now: Sys, sp: Space, att: Att, room: nat)
    requires Readable(s, now, sp, att) && room >= 5
    ensures Partial(s, now, sp, att, room) <==>
      now.At(sp).Data().mode == Release && Without(s.At(sp).holds[att].data.links, Taken(now.At(sp).Data(), s.At(sp).holds[att].data, room)) != []
  {}

  lemma NoRoom(s: Sys, sp: Space, page: seq<LinkRow>, room: nat)
    requires room < 5
    ensures RemoveAll(s, sp, page, room) == Some(s)
  {}

  lemma NoPage(s: Sys, sp: Space, room: nat)
    ensures RemoveAll(s, sp, [], room) == Some(s)
  {}

  lemma SteerData(s: Sys, sp: Space, changes: seq<Change>, c: Control)
    requires s.At(sp).control.Some?
    ensures Steer(ApplyAll(s, sp, changes), sp, c).At(sp).Data() == c
  {
    SteerLater(s, sp, c, changes);
  }

  lemma Extend(s: Sys, sp: Space, changes: seq<Change>, c: Control, more: seq<Change>, next: Control)
    requires s.At(sp).control.Some?
    ensures Steer(ApplyAll(s, sp, changes + more), sp, next) == Steer(ApplyAll(Steer(ApplyAll(s, sp, changes), sp, c), sp, more), sp, next)
  {
    hide ApplyAll;
    SteerLater(s, sp, c, changes);
    ApplyMore(s, sp, changes, more);
    var mid := ApplyAll(s, sp, changes);
    SteerLater(mid, sp, c, more);
    SteerTwice(ApplyAll(mid, sp, more), sp, c, next);
  }

  lemma SteerTwice(s: Sys, sp: Space, c: Control, d: Control)
    ensures Steer(Steer(s, sp, c), sp, d) == Steer(s, sp, d)
  {
    assert Steer(Steer(s, sp, c), sp, d).spaces == Steer(s, sp, d).spaces;
  }
}
