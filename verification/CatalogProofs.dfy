/** Every catalog step keeps the invariants of its space. */
module CatalogProofs {
  import opened Prelude
  import opened BlobTypes
  import opened EpisodeCatalog

  // ----- Migration -----

  /** Two indexes agree on every episode row of an attachment. */
  ghost predicate SameColumn(x: map<(Episode, Att), EpisodeLink>, y: map<(Episode, Att), EpisodeLink>, a: Att)
  {
    forall e: Episode :: ((e, a) in x <==> (e, a) in y) && ((e, a) in x ==> x[(e, a)] == y[(e, a)])
  }

  lemma KeepColumn(x: map<(Episode, Att), EpisodeLink>, y: map<(Episode, Att), EpisodeLink>, a: Att, h: Option<Hold>, covered: seq<Link>)
    requires ColumnExact(x, a, h, covered) && SameColumn(x, y, a)
    ensures ColumnExact(y, a, h, covered)
  {}

  lemma {:induction false} AddLinksColumn(index: map<(Episode, Att), EpisodeLink>, h: Hold, from: nat, to: nat)
    requires from <= to <= |h.links| && Distinct(h.links) && ColumnExact(index, h.attachment.id, Some(h), h.links[..from])
    ensures ColumnExact(AddLinks(index, h, from, to), h.attachment.id, Some(h), h.links[..to])
  {
    if from < to {
      AddLinksColumn(index, h, from, to - 1);
      AddColumnLink(AddLinks(index, h, from, to - 1), h, h.links[..to - 1], h.links[to - 1]);
      assert h.links[..to] == h.links[..to - 1] + [h.links[to - 1]];
    }
  }

  lemma {:induction false} AddLinksElsewhere(index: map<(Episode, Att), EpisodeLink>, h: Hold, from: nat, to: nat, b: Att)
    requires from <= to <= |h.links| && b != h.attachment.id
    ensures SameColumn(index, AddLinks(index, h, from, to), b)
  {
    if from < to { AddLinksElsewhere(index, h, from, to - 1, b); }
  }

  lemma AddColumnLink(x: map<(Episode, Att), EpisodeLink>, h: Hold, covered: seq<Link>, l: Link)
    requires ColumnExact(x, h.attachment.id, Some(h), covered) && forall m :: m in covered ==> m.episode != l.episode
    ensures ColumnExact(x[(l.episode, h.attachment.id) := Entry(h, l.sequence)], h.attachment.id, Some(h), covered + [l])
  {
    assert l in covered + [l];
  }

  lemma WriteLinks(holds: map<Att, Row<Hold>>, index: map<(Episode, Att), EpisodeLink>, v: Coverage, a: Att, to: nat)
    requires IndexExact(holds, index, v) && !v.full
    requires IsNext(holds.Keys, v.after, a) && v.offset <= to <= |holds[a].data.links|
    requires holds[a].data.attachment.id == a && Distinct(holds[a].data.links)
    ensures IndexExact(holds, AddLinks(index, holds[a].data, v.offset, to), v.(offset := to))
  {
    var h, w := holds[a].data, v.(offset := to);
    var r := AddLinks(index, h, v.offset, to);
    assert ColumnExact(index, a, Now(holds, a), Covered(holds, v, a));
    AddLinksColumn(index, h, v.offset, to);
    forall b: Att ensures ColumnExact(r, b, Now(holds, b), Covered(holds, w, b)) {
      if b != a {
        assert Covered(holds, w, b) == Covered(holds, v, b);
        AddLinksElsewhere(index, h, v.offset, to, b);
        KeepColumn(index, r, b, Now(holds, b), Covered(holds, v, b));
      }
    }
  }

  lemma PassHold(holds: map<Att, Row<Hold>>, index: map<(Episode, Att), EpisodeLink>, v: Coverage, a: Att)
    requires IndexExact(holds, index, v) && IsNext(holds.Keys, v.after, a) && v.offset == |holds[a].data.links|
    ensures IndexExact(holds, index, Coverage(v.full, Some(a), 0))
  {
    var w := Coverage(v.full, Some(a), 0);
    forall b: Att ensures ColumnExact(index, b, Now(holds, b), Covered(holds, w, b)) {
      assert Covered(holds, w, b) == Covered(holds, v, b);
    }
  }

  ghost predicate HeldRun(holds: map<Att, Row<Hold>>, after: Option<Att>, rows: seq<Row<Hold>>)
  {
    && IsRun(holds.Keys, after, Ids(rows))
    && forall i :: 0 <= i < |rows| ==> Ids(rows)[i] in holds && holds[Ids(rows)[i]] == rows[i]
  }

  function Written(ss: SpaceState, h: Hold, to: nat): SpaceState
    requires ss.control.Some? && ss.Data().offset <= to <= |h.links|
  {
    ss.(index := AddLinks(ss.index, h, ss.Data().offset, to)).With(ss.Data().(offset := to))
  }

  function PastHold(ss: SpaceState, a: Att): SpaceState
    requires ss.control.Some?
  {
    ss.With(ss.Data().(after := Some(a), offset := 0))
  }

  lemma NextRow(ss: SpaceState, rows: seq<Row<Hold>>)
    requires ss.control.Some? && RowsOk(ss) && HeldRun(ss.holds, ss.Data().after, rows) && rows != []
    ensures var a := Ids(rows)[0];
      IsNext(ss.holds.Keys, ss.Data().after, a) && a in ss.holds && ss.holds[a] == rows[0] && HoldOk(rows[0].data, a, ss.Rev())
    ensures OffsetsFit(ss.Data(), rows)
  {
    assert IsNext(ss.holds.Keys, ss.Data().after, Ids(rows)[0]);
  }

  lemma WrittenOk(ss: SpaceState, a: Att, to: nat)
    requires ss.control.Some? && ss.Data().version == 0 && RowsOk(ss) && IsNext(ss.holds.Keys, ss.Data().after, a)
    requires a in ss.holds && HoldOk(ss.holds[a].data, a, ss.Rev()) && ss.Data().offset <= to <= |ss.holds[a].data.links|
    ensures RowsOk(Written(ss, ss.holds[a].data, to))
  {
    hide IndexExact;
    WriteLinks(ss.holds, ss.index, CoverageOf(ss.Data()), a, to);
  }

  lemma PastHoldOk(ss: SpaceState, a: Att)
    requires ss.control.Some? && ss.Data().version == 0 && RowsOk(ss) && IsNext(ss.holds.Keys, ss.Data().after, a)
    requires a in ss.holds && ss.Data().offset == |ss.holds[a].data.links|
    ensures RowsOk(PastHold(ss, a))
  {
    hide IndexExact;
    PassHold(ss.holds, ss.index, CoverageOf(ss.Data()), a);
  }

  lemma RestRun(holds: map<Att, Row<Hold>>, after: Option<Att>, rows: seq<Row<Hold>>)
    requires HeldRun(holds, after, rows) && rows != []
    ensures HeldRun(holds, Some(Ids(rows)[0]), rows[1..])
  {
    assert forall i :: 0 <= i < |rows| - 1 ==> Ids(rows[1..])[i] == Ids(rows)[i + 1];
    assert Ids(rows[1..]) == Ids(rows)[1..];
  }

  lemma {:induction false} IndexPageOk(ss: SpaceState, rows: seq<Row<Hold>>, room: nat)
    requires ss.control.Some? && ss.Data().version == 0 && RowsOk(ss) && HeldRun(ss.holds, ss.Data().after, rows)
    ensures rows != [] ==> OffsetsFit(ss.Data(), rows)
    ensures RowsOk(IndexPage(ss, rows, room))
    decreases |rows|
  {
    hide RowsOk, HeldRun, AddLinks, IsNext;
    if rows != [] {
      var a, c := Ids(rows)[0], ss.Data();
      NextRow(ss, rows);
      var to := Min(|rows[0].data.links|, c.offset + room);
      WrittenOk(ss, a, to);
      var written := Written(ss, rows[0].data, to);
      if to == |rows[0].data.links| {
        PastHoldOk(written, a);
        RestRun(ss.holds, c.after, rows);
        IndexPageOk(PastHold(written, a), rows[1..], room - (to - c.offset));
      }
    }
  }

  // ----- Holds and links -----

  lemma {:induction false} WithoutLinks(links: seq<Link>, gone: set<Episode>)
    requires Distinct(links)
    ensures Distinct(Without(links, gone)) && |Without(links, gone)| <= |links|
    ensures forall l: Link :: l in Without(links, gone) <==> l in links && l.episode !in gone
  {
    if links != [] {
      WithoutLinks(links[1..], gone);
      var rest := Without(links[1..], gone);
      assert forall l: Link :: l in links <==> l == links[0] || l in links[1..];
      assert forall i :: 0 <= i < |rest| ==> rest[i] in links[1..];
    }
  }

  lemma {:induction false} WithoutAbsent(links: seq<Link>, e: Episode)
    requires e !in Episodes(links)
    ensures Without(links, {e}) == links
  {
    if links != [] {
      assert links[0] in links;
      WithoutAbsent(links[1..], e);
    }
  }

  /** A page lists its keys in ascending order. */
  lemma {:induction false} RunSorted(keys: set<Att>, after: Option<Att>, ids: seq<Att>, i: nat, j: nat)
    requires IsRun(keys, after, ids) && i < j < |ids|
    ensures ids[i] < ids[j]
    decreases j
  {
    assert IsNext(keys, Some(ids[j - 1]), ids[j]);
    if i < j - 1 { RunSorted(keys, after, ids, i, j - 1); }
  }

  /** Taking a prefix's episodes away leaves the suffix. */
  lemma {:induction false} DropPrefix(links: seq<Link>, n: nat)
    requires Distinct(links) && n <= |links|
    ensures Without(links, Episodes(links[..n])) == links[n..]
  {
    DropPrefixFrom(links, n, links);
  }

  lemma PrefixEpisode(links: seq<Link>, n: nat, i: nat)
    requires Distinct(links) && n <= |links| && i < |links|
    ensures links[i].episode in Episodes(links[..n]) <==> i < n
  {
    if i < n { assert links[i] == links[..n][i]; }
  }

  lemma {:induction false} DropPrefixFrom(links: seq<Link>, n: nat, tail: seq<Link>)
    requires Distinct(links) && n <= |links| && IsSuffix(tail, links)
    ensures Without(tail, Episodes(links[..n])) == if |links| - |tail| >= n then tail else links[n..]
    decreases |tail|
  {
    hide Distinct, Episodes;
    if tail != [] {
      var i := |links| - |tail|;
      assert tail[0] == links[i] && tail[1..] == links[i + 1..];
      DropPrefixFrom(links, n, tail[1..]);
      PrefixEpisode(links, n, i);
    }
  }

  lemma FullCover(holds: map<Att, Row<Hold>>, v: Coverage, a: Att)
    requires v.full && a in holds
    ensures Covered(holds, v, a) == holds[a].data.links
  {}

  ghost predicate Ready(ss: SpaceState) { ss.control.Some? && ss.Data().version == 1 && ModeOk(ss.Data(), ss.ops) }

  lemma AddHoldOk(ss: SpaceState, attachment: Attachment, generation: Gen)
    requires Ready(ss) && RowsOk(ss) && attachment.id !in ss.holds
    ensures RowsOk(AddHold(ss, attachment, generation))
  {
    var r, v := AddHold(ss, attachment, generation), CoverageOf(ss.Data());
    forall a: Att ensures ColumnExact(r.index, a, Now(r.holds, a), Covered(r.holds, v, a)) {
      assert ColumnExact(ss.index, a, Now(ss.holds, a), Covered(ss.holds, v, a));
      assert Covered(r.holds, v, a) == Covered(ss.holds, v, a);
    }
    assert forall a: Att :: LinksOf(r.holds, a) == LinksOf(ss.holds, a);
  }

  lemma AddLinkColumns(ss: SpaceState, att: Att, episode: Episode)
    requires Ready(ss) && RowsOk(ss) && att in ss.holds && episode !in Episodes(ss.holds[att].data.links)
    ensures var r := AddLink(ss, att, episode); IndexExact(r.holds, r.index, CoverageOf(r.Data()))
  {
    var r, v := AddLink(ss, att, episode), CoverageOf(ss.Data());
    var h, l := ss.holds[att].data, Link(episode, ss.Rev() + 1);
    FullCover(ss.holds, v, att);
    FullCover(r.holds, v, att);
    forall a: Att ensures ColumnExact(r.index, a, Now(r.holds, a), Covered(r.holds, v, a)) {
      assert ColumnExact(ss.index, a, Now(ss.holds, a), Covered(ss.holds, v, a));
      if a == att {
        forall m | m in h.links ensures m.episode != episode { assert m.episode in Episodes(h.links); }
        AddColumnLink(ss.index, h, h.links, l);
      } else {
        assert Covered(r.holds, v, a) == Covered(ss.holds, v, a);
        KeepColumn(ss.index, r.index, a, Now(ss.holds, a), Covered(ss.holds, v, a));
      }
    }
  }

  lemma AppendLink(h: Hold, att: Att, l: Link, rev: nat)
    requires HoldOk(h, att, rev) && l.episode !in Episodes(h.links) && |h.links| < MAX_LINKS && l.sequence == rev + 1
    ensures HoldOk(h.(links := h.links + [l]), att, rev + 1)
  {
    forall i | 0 <= i < |h.links| ensures h.links[i].episode != l.episode { assert h.links[i].episode in Episodes(h.links); }
  }

  lemma AppendUnique(x: map<Att, Row<Hold>>, y: map<Att, Row<Hold>>, rev: nat, att: Att, l: Link)
    requires HoldsOk(x, rev) && SequencesUnique(x) && l.sequence == rev + 1
    requires LinksOf(y, att) == LinksOf(x, att) + [l] && forall a: Att :: a != att ==> LinksOf(y, a) == LinksOf(x, a)
    ensures SequencesUnique(y)
  {
    forall a: Att, m: Link | m in LinksOf(x, a) ensures m.sequence <= rev {
      assert HoldOk(x[a].data, a, rev);
    }
    forall a: Att, b: Att, m: Link, n: Link | m in LinksOf(y, a) && n in LinksOf(y, b) && m.sequence == n.sequence
      ensures a == b && m == n
    {
      assert m in LinksOf(x, a) || (a == att && m == l);
      assert n in LinksOf(x, b) || (b == att && n == l);
    }
  }

  lemma AddLinkOk(ss: SpaceState, att: Att, episode: Episode)
    requires Ready(ss) && RowsOk(ss) && att in ss.holds
    requires episode !in Episodes(ss.holds[att].data.links) && |ss.holds[att].data.links| < MAX_LINKS
    ensures RowsOk(AddLink(ss, att, episode))
  {
    var r, l := AddLink(ss, att, episode), Link(episode, ss.Rev() + 1);
    AddLinkColumns(ss, att, episode);
    AppendLink(ss.holds[att].data, att, l, ss.Rev());
    AppendUnique(ss.holds, r.holds, ss.Rev(), att, l);
  }

  lemma RemoveLinksColumns(ss: SpaceState, r: SpaceState, att: Att, gone: set<Episode>)
    requires Ready(ss) && RowsOk(ss) && att in ss.holds
    requires r.index == Unindex(ss.index, att, gone) && CoverageOf(r.Data()) == CoverageOf(ss.Data())
    requires forall b: Att :: b != att ==> Now(r.holds, b) == Now(ss.holds, b)
    requires Now(r.holds, att) == Some(ss.holds[att].data.(links := Without(ss.holds[att].data.links, gone)))
          || (Now(r.holds, att) == None && Without(ss.holds[att].data.links, gone) == [])
    ensures IndexExact(r.holds, r.index, CoverageOf(r.Data()))
  {
    var v, links := CoverageOf(ss.Data()), ss.holds[att].data.links;
    WithoutLinks(links, gone);
    FullCover(ss.holds, v, att);
    forall a: Att ensures ColumnExact(r.index, a, Now(r.holds, a), Covered(r.holds, v, a)) {
      assert ColumnExact(ss.index, a, Now(ss.holds, a), Covered(ss.holds, v, a));
      if a == att {
        assert Covered(r.holds, v, att) == Without(links, gone);
      } else {
        assert Covered(r.holds, v, a) == Covered(ss.holds, v, a);
        KeepColumn(ss.index, r.index, a, Now(ss.holds, a), Covered(ss.holds, v, a));
      }
    }
  }

  /** Holds after a removal: one hold trimmed or dropped, every other hold as it was. */
  lemma FewerLinks(x: map<Att, Row<Hold>>, y: map<Att, Row<Hold>>, rev: nat)
    requires HoldsOk(x, rev) && SequencesUnique(x)
    requires forall a :: a in y ==>
      && a in x && y[a].data.attachment == x[a].data.attachment
      && (forall l: Link :: l in y[a].data.links ==> l in x[a].data.links)
      && Distinct(y[a].data.links) && |y[a].data.links| <= |x[a].data.links|
    ensures HoldsOk(y, rev) && SequencesUnique(y)
  {
    assert forall a: Att, l: Link :: l in LinksOf(y, a) ==> l in LinksOf(x, a);
  }

  lemma TrimHoldOk(ss: SpaceState, att: Att, gone: set<Episode>)
    requires Ready(ss) && RowsOk(ss) && att in ss.holds
    ensures RowsOk(TrimHold(ss, att, gone))
  {
    var r := TrimHold(ss, att, gone);
    WithoutLinks(ss.holds[att].data.links, gone);
    FewerLinks(ss.holds, r.holds, ss.Rev());
    RemoveLinksColumns(ss, r, att, gone);
  }

  lemma DropHoldOk(ss: SpaceState, att: Att, gone: set<Episode>, key: SortKey, result: Result)
    requires Ready(ss) && RowsOk(ss) && ControlOk(ss) && att in ss.holds && Releasing(ss.Data())
    requires Without(ss.holds[att].data.links, gone) == []
    ensures ss.Data().count >= 1
    ensures RowsOk(DropHold(ss, att, gone, key, result)) && ControlOk(DropHold(ss, att, gone, key, result))
  {
    assert att in ss.holds.Keys;
    var r := DropHold(ss, att, gone, key, result);
    FewerLinks(ss.holds, r.holds, ss.Rev());
    RemoveLinksColumns(ss, r, att, gone);
    assert r.holds.Keys == ss.holds.Keys - {att};
  }

  // ----- Releases -----

  lemma {:induction false} SequenceOfLink(links: seq<Link>, l: Link)
    requires Distinct(links) && l in links
    ensures SequenceOf(links, l.episode) == l.sequence
  {
    if links[0] != l {
      var i :| 0 <= i < |links| && links[i] == l;
      assert links[1..][i - 1] == l;
      SequenceOfLink(links[1..], l);
    }
  }

  ghost predicate InHolds(ss: SpaceState)
  {
    ss.control.Some? && Releasing(ss.Data()) && ss.Data().phase == Holds && ss.Data().prior.None? && ss.Data().operation.Some?
  }

  /** Between the cursor and the next candidate there is no hold the release has yet to change. */
  lemma NothingSkipped(ss: SpaceState, b: Att)
    requires SpaceOk(ss) && InHolds(ss) && b in ss.base
    requires Touched(ss.Data(), ss.base[b]) && !Passed(ss.Data(), b)
    ensures b in CandidateKeys(ss) && Beyond(CursorAtt(ss.Data()), b) && b in ss.holds
  {
    var c := ss.Data();
    assert HoldProgress(c, ss.base[b], Now(ss.holds, b), (c.operation.value, ResultKey(c, ss.base[b])) in ss.results);
    if c.mode == Unlink {
      FullCover(ss.holds, CoverageOf(c), b);
      assert ColumnExact(ss.index, b, Now(ss.holds, b), Covered(ss.holds, CoverageOf(c), b));
      assert (c.episode, b) in ss.index;
    }
  }

  /** A candidate row names a link of a hold the release has yet to change. */
  lemma Candidate(ss: SpaceState, att: Att)
    requires SpaceOk(ss) && InHolds(ss) && att in CandidateKeys(ss) && Beyond(CursorAtt(ss.Data()), att)
    ensures att in ss.holds && att in ss.base && ss.Data().count >= 1
    ensures ss.Data().mode == Unlink ==>
      && Link(ss.Data().episode, ss.index[(ss.Data().episode, att)].sequence) in ss.holds[att].data.links
      && Touched(ss.Data(), ss.base[att]) && ss.holds[att].data == ss.base[att]
      && ss.index[(ss.Data().episode, att)].sequence == ResultKey(ss.Data(), ss.base[att]).sequence
  {
    var c := ss.Data();
    if c.mode == Unlink {
      assert ColumnExact(ss.index, att, Now(ss.holds, att), Covered(ss.holds, CoverageOf(c), att));
      FullCover(ss.holds, CoverageOf(c), att);
      var l := Link(c.episode, ss.index[(c.episode, att)].sequence);
      assert l in ss.holds[att].data.links;
      SequenceOfLink(ss.holds[att].data.links, l);
      assert HoldProgress(c, ss.base[att], Now(ss.holds, att), (c.operation.value, ResultKey(c, ss.base[att])) in ss.results);
    }
    assert att in ss.holds.Keys;
  }

  ghost function Listed(ss: SpaceState, b: Att): bool
    requires b in ss.base && ss.Data().operation.Some?
  {
    (ss.Data().operation.value, ResultKey(ss.Data(), ss.base[b])) in ss.results
  }

  ghost predicate Chosen(ss: SpaceState, att: Att, sequence: nat, gone: set<Episode>, room: nat)
  {
    && room >= 5 && SpaceOk(ss) && InHolds(ss) && IsNext(CandidateKeys(ss), CursorAtt(ss.Data()), att) && att in ss.holds
    && gone == Taken(ss.Data(), ss.holds[att].data, room)
    && sequence == if ss.Data().mode == Release then 0 else ss.index[(ss.Data().episode, att)].sequence
  }

  /** What a step leaves of a hold's links: all but the first it had room for, or all but the episode's. */
  lemma TakenLinks(ss: SpaceState, att: Att, room: nat)
    requires RowsOk(ss) && att in ss.holds && room >= 5
    ensures var c, links := ss.Data(), ss.holds[att].data.links;
      var remaining := Without(links, Taken(c, ss.holds[att].data, room));
      if c.mode == Release then remaining == links[Min(|links|, room - 4)..]
      else forall l: Link :: l in links && l.episode == c.episode ==> remaining == Without(links, {c.episode})
  {
    assert HoldOk(ss.holds[att].data, att, ss.Rev());
    hide RowsOk, HoldOk;
    if ss.Data().mode == Release {
      var links := ss.holds[att].data.links;
      DropPrefix(links, Min(|links|, room - 4));
    }
  }

  lemma RemainingLinks(ss: SpaceState, att: Att, sequence: nat, gone: set<Episode>, room: nat)
    requires Chosen(ss, att, sequence, gone, room)
    ensures att in ss.base
    ensures var remaining := Without(ss.holds[att].data.links, gone);
      if ss.Data().mode == Release then IsSuffix(remaining, ss.base[att].links)
      else remaining == Goal(ss.Data(), ss.base[att]) && sequence == ResultKey(ss.Data(), ss.base[att]).sequence
  {
    hide RowsOk, ControlOk, Without, Taken;
    Candidate(ss, att);
    var c, links := ss.Data(), ss.holds[att].data.links;
    TakenLinks(ss, att, room);
    if c.mode == Release {
      assert HoldProgress(c, ss.base[att], Now(ss.holds, att), Listed(ss, att));
    }
  }

  lemma OwnProgress(c: Control, h: Hold, now: Hold, remaining: seq<Link>)
    requires Releasing(c) && !Passed(c, h.attachment.id) && Touched(c, h) && HoldProgress(c, h, Some(now), false)
    requires if c.mode == Release then IsSuffix(remaining, h.links) else remaining == Goal(c, h)
    ensures var passed := c.(cursor := Some(SortKey(0, h.attachment.id)));
      if remaining == [] then HoldProgress(passed.(count := 0), h, None, true)
      else HoldProgress(if c.mode == Release then c else passed, h, Some(now.(links := remaining)), false)
  {}

  /** A hold keeps its standing when the cursor moves over no hold still to be changed. */
  lemma StillProgress(c: Control, d: Control, h: Hold, now: Option<Hold>, listed: bool)
    requires HoldProgress(c, h, now, listed) && d.mode == c.mode && d.episode == c.episode
    requires Touched(c, h) ==> (Passed(d, h.attachment.id) <==> Passed(c, h.attachment.id))
    ensures HoldProgress(d, h, now, listed)
  {}

  lemma ReleaseHoldFrame(ss: SpaceState, att: Att, sequence: nat, gone: set<Episode>, result: Result, b: Att)
    requires ss.control.Some? && att in ss.holds && ss.Data().operation.Some? && ss.Data().count >= 1
    requires b in ss.base && b != att && ss.base[b].attachment.id == b
    ensures var r := ReleaseHold(ss, att, sequence, gone, result);
      Now(r.holds, b) == Now(ss.holds, b) && Listed(r, b) == Listed(ss, b)
  {}

  lemma ReleaseHoldOther(ss: SpaceState, att: Att, sequence: nat, gone: set<Episode>, room: nat, result: Result, b: Att)
    requires Chosen(ss, att, sequence, gone, room) && ss.Data().count >= 1 && b in ss.base && b != att
    ensures var r := ReleaseHold(ss, att, sequence, gone, result);
      HoldProgress(r.Data(), r.base[b], Now(r.holds, b), Listed(r, b))
  {
    hide RowsOk, ControlOk;
    var c, r := ss.Data(), ReleaseHold(ss, att, sequence, gone, result);
    assert HoldProgress(c, ss.base[b], Now(ss.holds, b), Listed(ss, b)) && ss.base[b].attachment.id == b;
    ReleaseHoldFrame(ss, att, sequence, gone, result, b);
    if Touched(c, ss.base[b]) && !Passed(c, b) { NothingSkipped(ss, b); }
    StillProgress(c, r.Data(), ss.base[b], Now(ss.holds, b), Listed(ss, b));
  }

  lemma ReleaseHoldOwn(ss: SpaceState, att: Att, sequence: nat, gone: set<Episode>, room: nat, result: Result)
    requires Chosen(ss, att, sequence, gone, room) && ss.Data().count >= 1
    ensures att in ss.base && ss.base[att].attachment.id == att
    ensures var r := ReleaseHold(ss, att, sequence, gone, result);
      HoldProgress(r.Data(), r.base[att], Now(r.holds, att), Listed(r, att))
  {
    hide RowsOk, ControlOk;
    Candidate(ss, att);
    RemainingLinks(ss, att, sequence, gone, room);
    assert HoldProgress(ss.Data(), ss.base[att], Now(ss.holds, att), Listed(ss, att)) && ss.base[att].attachment.id == att;
    OwnProgress(ss.Data(), ss.base[att], ss.holds[att].data, Without(ss.holds[att].data.links, gone));
  }

  lemma ReleaseHoldRows(ss: SpaceState, att: Att, sequence: nat, gone: set<Episode>, room: nat, result: Result)
    requires Chosen(ss, att, sequence, gone, room)
    ensures ss.Data().count >= 1
    ensures var r := ReleaseHold(ss, att, sequence, gone, result); RowsOk(r) && ControlOk(r) && InHolds(r)
  {
    hide Progress, IndexExact, HoldsOk, SequencesUnique, CandidateKeys;
    Candidate(ss, att);
    if Without(ss.holds[att].data.links, gone) == [] {
      DropHoldOk(ss, att, gone, SortKey(sequence, att), result);
    } else {
      TrimHoldOk(ss, att, gone);
      assert TrimHold(ss, att, gone).holds.Keys == ss.holds.Keys;
    }
  }

  /** New result rows are those of the hold that went. */
  lemma ReleaseHoldListed(ss: SpaceState, att: Att, sequence: nat, gone: set<Episode>, room: nat, result: Result)
    requires Chosen(ss, att, sequence, gone, room) && ss.Data().count >= 1
    ensures var r := ReleaseHold(ss, att, sequence, gone, result);
      && (forall a :: a in r.holds ==> a in r.base)
      && (forall k :: k in r.results && k.0 == r.Data().operation.value ==>
            k.1.att in r.base && k.1 == ResultKey(r.Data(), r.base[k.1.att]))
  {
    hide RowsOk, ControlOk, HoldProgress;
    RemainingLinks(ss, att, sequence, gone, room);
    assert ss.base[att].attachment.id == att;
  }

  lemma ReleaseHoldOk(ss: SpaceState, att: Att, sequence: nat, gone: set<Episode>, room: nat, result: Result)
    requires Chosen(ss, att, sequence, gone, room)
    ensures ss.Data().count >= 1
    ensures SpaceOk(ReleaseHold(ss, att, sequence, gone, result)) && InHolds(ReleaseHold(ss, att, sequence, gone, result))
  {
    hide RowsOk, ControlOk, HoldProgress;
    ReleaseHoldRows(ss, att, sequence, gone, room, result);
    var r := ReleaseHold(ss, att, sequence, gone, result);
    ReleaseHoldOwn(ss, att, sequence, gone, room, result);
    forall b | b in ss.base && b != att ensures HoldProgress(r.Data(), r.base[b], Now(r.holds, b), Listed(r, b)) {
      ReleaseHoldOther(ss, att, sequence, gone, room, result, b);
    }
    ReleaseHoldListed(ss, att, sequence, gone, room, result);
  }

  lemma EnterGcOk(ss: SpaceState)
    requires SpaceOk(ss) && InHolds(ss) && forall k :: k in CandidateKeys(ss) ==> !Beyond(CursorAtt(ss.Data()), k)
    ensures SpaceOk(EnterGc(ss))
  {
    hide IndexExact, HoldsOk, SequencesUnique, CandidateKeys, HoldProgress;
    var r := ss.With(ss.Data().(phase := Gc, cursor := None));
    forall b | b in ss.base ensures HoldProgress(r.Data(), r.base[b], Now(r.holds, b), Listed(r, b)) {
      assert HoldProgress(ss.Data(), ss.base[b], Now(ss.holds, b), Listed(ss, b)) && ss.base[b].attachment.id == b;
      if Touched(ss.Data(), ss.base[b]) && !Passed(ss.Data(), b) { NothingSkipped(ss, b); }
      StillProgress(ss.Data(), r.Data(), ss.base[b], Now(ss.holds, b), Listed(ss, b));
    }
    BumpOk(r);
  }

  lemma StartReleaseOk(ss: SpaceState, episode: Episode, op: Op)
    requires SpaceOk(ss) && Ready(ss) && ss.Data().mode == Active && op !in ss.ops
    ensures SpaceOk(StartRelease(ss, episode, op))
  {
    var r := StartRelease(ss, episode, op);
    forall b | b in r.base ensures HoldProgress(r.Data(), r.base[b], Now(r.holds, b), Listed(r, b)) {}
  }

  lemma PruneRowsOk(ss: SpaceState, op: Op, keys: set<SortKey>)
    requires SpaceOk(ss) && ss.Data().operation != Some(op)
    ensures SpaceOk(PruneRows(ss, op, keys))
  {
    var r := PruneRows(ss, op, keys);
    if Releasing(ss.Data()) && ss.Data().operation.Some? {
      forall b | b in r.base ensures HoldProgress(r.Data(), r.base[b], Now(r.holds, b), Listed(r, b)) {
        assert HoldProgress(ss.Data(), ss.base[b], Now(ss.holds, b), Listed(ss, b));
      }
    }
  }

  /** Control changes that leave the course of a release alone. */
  lemma SameProgress(ss: SpaceState, c: Control)
    requires SpaceOk(ss) && ss.control.Some? && ModeOk(c, ss.ops) && ResultsOwned(ss.results, c)
    requires c.count == ss.Data().count && CoverageOf(c) == CoverageOf(ss.Data())
    requires Releasing(c) ==>
      && c.mode == ss.Data().mode && c.episode == ss.Data().episode && c.operation == ss.Data().operation
      && c.phase == ss.Data().phase && (c.phase == Gc || c.cursor == ss.Data().cursor)
    ensures SpaceOk(ss.With(c))
  {
    hide IndexExact, SequencesUnique, HoldsOk, HoldProgress;
    var r := ss.With(c);
    if Releasing(c) {
      forall b | b in r.base ensures HoldProgress(r.Data(), r.base[b], Now(r.holds, b), Listed(r, b)) {
        assert HoldProgress(ss.Data(), ss.base[b], Now(ss.holds, b), Listed(ss, b));
        StillProgress(ss.Data(), c, ss.base[b], Now(ss.holds, b), Listed(ss, b));
      }
    }
  }

  lemma BumpOk(ss: SpaceState)
    requires SpaceOk(ss) && ss.control.Some?
    ensures SpaceOk(ss.Bump())
  {
    hide IndexExact, SequencesUnique, HoldProgress;
    var r := ss.Bump();
    if Releasing(ss.Data()) {
      forall b | b in r.base ensures HoldProgress(r.Data(), r.base[b], Now(r.holds, b), Listed(r, b)) {
        assert HoldProgress(ss.Data(), ss.base[b], Now(ss.holds, b), Listed(ss, b));
      }
    }
  }

  lemma MigratePageOk(ss: SpaceState, rows: seq<Row<Hold>>)
    requires SpaceOk(ss) && ss.control.Some? && ss.Data().mode == Migrate
    requires HeldRun(ss.holds, ss.Data().after, rows) && IsPage(ss.holds.Keys, ss.Data().after, Ids(rows))
    ensures OffsetsFit(ss.Data(), rows) && SpaceOk(MigratePage(ss, rows))
  {
    if rows == [] {
      assert Ids(rows) == [];
      var done := ss.With(ss.Data().(mode := Active, version := 1, after := None, offset := 0));
      forall a: Att ensures ColumnExact(ss.index, a, Now(ss.holds, a), Covered(ss.holds, CoverageOf(done.Data()), a)) {
        assert ColumnExact(ss.index, a, Now(ss.holds, a), Covered(ss.holds, CoverageOf(ss.Data()), a));
        assert Covered(ss.holds, CoverageOf(done.Data()), a) == Covered(ss.holds, CoverageOf(ss.Data()), a);
      }
      BumpOk(done);
    } else {
      IndexPageOk(ss, rows, TRANSACTION_ROWS);
      IndexPageControl(ss, rows, TRANSACTION_ROWS);
      BumpOk(IndexPage(ss, rows, TRANSACTION_ROWS));
    }
  }

  lemma {:induction false} IndexPageControl(ss: SpaceState, rows: seq<Row<Hold>>, room: nat)
    requires ss.control.Some? && (rows != [] ==> OffsetsFit(ss.Data(), rows))
    ensures var r := IndexPage(ss, rows, room);
      r.Data() == ss.Data().(after := r.Data().after, offset := r.Data().offset) && r.(control := None, index := map[]) == ss.(control := None, index := map[])
    decreases |rows|
  {
    if rows != [] {
      var h, c := rows[0].data, ss.Data();
      var to := Min(|h.links|, c.offset + room);
      if to == |h.links| && to - c.offset != room {
        var written := ss.(index := AddLinks(ss.index, h, c.offset, to)).With(c.(offset := to));
        IndexPageControl(written.With(c.(after := Some(h.attachment.id), offset := 0)), rows[1..], room - (to - c.offset));
      }
    }
  }

  lemma BeginMigrationOk(ss: SpaceState)
    requires SpaceOk(ss) && ss.control.Some? && ss.Data().mode == Active && ss.Data().version == 0
    ensures SpaceOk(BeginMigration(ss))
  {
    SameProgress(ss, ss.Data().(mode := Migrate, after := None, offset := 0));
    BumpOk(ss.With(ss.Data().(mode := Migrate, after := None, offset := 0)));
  }
}
