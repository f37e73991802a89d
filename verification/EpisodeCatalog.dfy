/**
 * The episode catalog of one space: its resumable migration, links and the
 * hold-by-hold part of a release, as functions on the space's rows.
 */
module EpisodeCatalog {
  import opened Prelude
  import opened BlobTypes

  // ----- Steps -----

  function Entry(h: Hold, sequence: nat): EpisodeLink
  {
    EpisodeLink(h.attachment, h.generation, sequence)
  }

  /** Derived rows for links `from..to` of a hold. */
  function AddLinks(index: map<(Episode, Att), EpisodeLink>, h: Hold, from: nat, to: nat): map<(Episode, Att), EpisodeLink>
    requires from <= to <= |h.links|
  {
    if from == to then index
    else AddLinks(index, h, from, to - 1)[(h.links[to - 1].episode, h.attachment.id) := Entry(h, h.links[to - 1].sequence)]
  }

  function Min(a: int, b: int): int { if a < b then a else b }

  /** The rows a migration step reads are checked against its cursor before use. */
  predicate OffsetsFit(c: Control, rows: seq<Row<Hold>>)
  {
    (rows == [] ==> c.offset == 0) && (rows != [] ==> c.offset <= |rows[0].data.links|)
  }

  /** One migration step over the holds of a page, writing at most `room` derived rows. */
  function IndexPage(ss: SpaceState, rows: seq<Row<Hold>>, room: nat): (r: SpaceState)
    requires ss.control.Some? && (rows != [] ==> OffsetsFit(ss.Data(), rows))
    ensures r.control.Some? && r.holds == ss.holds && r.Rev() == ss.Rev()
    decreases |rows|
  {
    if rows == [] then ss else
      var h, c := rows[0].data, ss.Data();
      var to := Min(|h.links|, c.offset + room);
      var written := ss.(index := AddLinks(ss.index, h, c.offset, to)).With(c.(offset := to));
      if to < |h.links| then written else
        var advanced := written.With(c.(after := Some(h.attachment.id), offset := 0));
        if to - c.offset == room then advanced else IndexPage(advanced, rows[1..], room - (to - c.offset))
  }

  function BeginMigration(ss: SpaceState): SpaceState
    requires ss.control.Some?
  {
    ss.With(ss.Data().(mode := Migrate, after := None, offset := 0)).Bump()
  }

  function MigratePage(ss: SpaceState, rows: seq<Row<Hold>>): SpaceState
    requires ss.control.Some? && OffsetsFit(ss.Data(), rows)
  {
    if rows == [] then ss.With(ss.Data().(mode := Active, version := 1, after := None, offset := 0)).Bump()
    else IndexPage(ss, rows, TRANSACTION_ROWS).Bump()
  }

  function AddHold(ss: SpaceState, attachment: Attachment, generation: Gen): SpaceState
    requires ss.control.Some?
  {
    ss.(holds := ss.holds[attachment.id := Row(1, Hold(attachment, generation, []))])
      .With(ss.Data().(count := ss.Data().count + 1)).Bump()
  }

  function AddLink(ss: SpaceState, att: Att, episode: Episode): SpaceState
    requires ss.control.Some? && att in ss.holds
  {
    var row := ss.holds[att];
    var sequence := ss.Rev() + 1;
    ss.(holds := ss.holds[att := Row(row.rev + 1, row.data.(links := row.data.links + [Link(episode, sequence)]))],
        index := ss.index[(episode, att) := Entry(row.data, sequence)]).Bump()
  }

  function HoldData(ss: SpaceState): map<Att, Hold>
  {
    map a | a in ss.holds :: ss.holds[a].data
  }

  /** Fence the space for a release; episode 0 stands for the whole space. */
  function StartRelease(ss: SpaceState, episode: Episode, op: Op): SpaceState
    requires ss.control.Some?
  {
    var c := ss.Data();
    ss.(ops := ss.ops + {op}, base := HoldData(ss))
      .With(Control(if episode == 0 then Release else Unlink, c.count, 1, None, 0, Holds, None, c.operation, Some(op), episode)).Bump()
  }

  function PruneRows(ss: SpaceState, op: Op, keys: set<SortKey>): SpaceState
  {
    ss.(results := map k | k in ss.results && !(k.0 == op && k.1 in keys) :: ss.results[k])
  }

  function ClearPrior(ss: SpaceState): SpaceState
    requires ss.control.Some?
  {
    ss.With(ss.Data().(prior := None)).Bump()
  }

  function Without(links: seq<Link>, gone: set<Episode>): (remaining: seq<Link>)
    ensures |remaining| <= |links|
  {
    if links == [] then []
    else if links[0].episode in gone then Without(links[1..], gone)
    else [links[0]] + Without(links[1..], gone)
  }

  function Episodes(links: seq<Link>): set<Episode>
  {
    set l | l in links :: l.episode
  }

  function Unindex(index: map<(Episode, Att), EpisodeLink>, att: Att, gone: set<Episode>): map<(Episode, Att), EpisodeLink>
  {
    map k | k in index && !(k.1 == att && k.0 in gone) :: index[k]
  }

  /** The episodes one release step takes from a hold: the named one, or as many as fit. */
  function Taken(c: Control, h: Hold, room: nat): set<Episode>
    requires room >= 5
  {
    if c.mode == Release then Episodes(h.links[..Min(|h.links|, room - 4)])
    else if c.episode in Episodes(h.links) then {c.episode} else {}
  }

  function TrimHold(ss: SpaceState, att: Att, gone: set<Episode>): SpaceState
    requires att in ss.holds
  {
    var row := ss.holds[att];
    ss.(holds := ss.holds[att := Row(row.rev + 1, row.data.(links := Without(row.data.links, gone)))],
        index := Unindex(ss.index, att, gone))
  }

  function DropHold(ss: SpaceState, att: Att, gone: set<Episode>, key: SortKey, result: Result): SpaceState
    requires ss.control.Some? && ss.Data().operation.Some? && ss.Data().count >= 1
  {
    ss.(holds := ss.holds - {att}, index := Unindex(ss.index, att, gone),
        results := ss.results[(ss.Data().operation.value, key) := result])
      .With(ss.Data().(count := ss.Data().count - 1))
  }

  function Advance(ss: SpaceState, att: Att): SpaceState
    requires ss.control.Some?
  {
    ss.With(ss.Data().(cursor := Some(SortKey(0, att))))
  }

  /** One candidate of a release step: its taken links go, and the hold with them when none is left. */
  function ReleaseHold(ss: SpaceState, att: Att, sequence: nat, gone: set<Episode>, result: Result): (r: SpaceState)
    requires ss.control.Some? && att in ss.holds && ss.Data().operation.Some? && ss.Data().count >= 1
    ensures r.control.Some? && r.Rev() == ss.Rev() && r.base == ss.base && r.ops == ss.ops
  {
    var remaining := Without(ss.holds[att].data.links, gone);
    if remaining == [] then Advance(DropHold(ss, att, gone, SortKey(sequence, att), result), att)
    else if ss.Data().mode == Release then TrimHold(ss, att, gone)
    else Advance(TrimHold(ss, att, gone), att)
  }

  /** The attachments with a row in an episode partition. */
  function EpisodeAtts(index: map<(Episode, Att), EpisodeLink>, episode: Episode): set<Att>
  {
    set k | k in index && k.0 == episode :: k.1
  }

  /** The keys a release step pages over: the holds, or the rows of the episode. */
  function CandidateKeys(ss: SpaceState): set<Att>
  {
    if ss.Data().mode == Release then ss.holds.Keys else EpisodeAtts(ss.index, ss.Data().episode)
  }

  function CursorAtt(c: Control): Option<Att>
  {
    if c.cursor.Some? then Some(c.cursor.value.att) else None
  }

  function EnterGc(ss: SpaceState): SpaceState
    requires ss.control.Some?
  {
    ss.With(ss.Data().(phase := Gc, cursor := None)).Bump()
  }

  function Collected(ss: SpaceState, last: SortKey): SpaceState
    requires ss.control.Some?
  {
    ss.With(ss.Data().(cursor := Some(last))).Bump()
  }

  function Finish(ss: SpaceState): SpaceState
    requires ss.control.Some?
  {
    ss.With(FRESH_CONTROL.(count := ss.Data().count, version := 1, operation := ss.Data().operation)).Bump()
  }

  // ----- Invariants of a space -----

  ghost predicate Distinct(links: seq<Link>)
  {
    forall i, j :: 0 <= i < j < |links| ==> links[i].episode != links[j].episode
  }

  ghost predicate HoldOk(h: Hold, att: Att, rev: nat)
  {
    && h.attachment.id == att && |h.links| <= MAX_LINKS && Distinct(h.links)
    && forall l :: l in h.links ==> 1 <= l.sequence <= rev
  }

  ghost function LinksOf(holds: map<Att, Row<Hold>>, att: Att): seq<Link>
  {
    if att in holds then holds[att].data.links else []
  }

  ghost predicate HoldsOk(holds: map<Att, Row<Hold>>, rev: nat)
  {
    forall a :: a in holds ==> HoldOk(holds[a].data, a, rev)
  }

  /** A link sequence names one link of the space. */
  ghost predicate SequencesUnique(holds: map<Att, Row<Hold>>)
  {
    forall a: Att, b: Att, l: Link, m: Link :: l in LinksOf(holds, a) && m in LinksOf(holds, b) && l.sequence == m.sequence ==> a == b && l == m
  }

  /** How far the catalog reaches: every hold once migrated; while migrating, the holds
      up to `after` and the first `offset` links of the next one. */
  datatype Coverage = Coverage(full: bool, after: Option<Att>, offset: nat)

  ghost function CoverageOf(c: Control): Coverage { Coverage(c.version == 1, c.after, c.offset) }

  ghost function Reach(holds: map<Att, Row<Hold>>, v: Coverage, att: Att): nat
    requires att in holds
  {
    var links := holds[att].data.links;
    if v.full || (v.after.Some? && att <= v.after.value) then |links|
    else if v.offset > 0 && IsNext(holds.Keys, v.after, att) then Min(v.offset, |links|)
    else 0
  }

  ghost function Covered(holds: map<Att, Row<Hold>>, v: Coverage, att: Att): seq<Link>
  {
    if att in holds then holds[att].data.links[..Reach(holds, v, att)] else []
  }

  /** The rows of one attachment, in all episode partitions, are exactly the covered links of its hold. */
  ghost predicate ColumnExact(index: map<(Episode, Att), EpisodeLink>, a: Att, h: Option<Hold>, covered: seq<Link>)
  {
    && (forall e: Episode :: (e, a) in index ==>
          h.Some? && Link(e, index[(e, a)].sequence) in covered && index[(e, a)] == Entry(h.value, index[(e, a)].sequence))
    && (forall l: Link :: l in covered ==> (l.episode, a) in index && index[(l.episode, a)].sequence == l.sequence)
  }

  ghost function Now(holds: map<Att, Row<Hold>>, a: Att): Option<Hold>
  {
    if a in holds then Some(holds[a].data) else None
  }

  /** The episode rows are exactly the covered links of the holds. */
  ghost predicate IndexExact(holds: map<Att, Row<Hold>>, index: map<(Episode, Att), EpisodeLink>, v: Coverage)
  {
    forall a: Att :: ColumnExact(index, a, Now(holds, a), Covered(holds, v, a))
  }

  ghost predicate OffsetOk(holds: map<Att, Row<Hold>>, after: Option<Att>, offset: nat)
  {
    offset > 0 ==> exists a :: IsNext(holds.Keys, after, a) && offset <= |LinksOf(holds, a)|
  }

  /** Result rows belong to the current operation, or to the one whose rows are being pruned. */
  ghost predicate ResultsOwned(results: map<(Op, SortKey), Result>, c: Control)
  {
    forall k :: k in results ==> c.operation == Some(k.0) || c.prior == Some(k.0)
  }

  predicate Releasing(c: Control) { c.mode == Unlink || c.mode == Release }

  predicate ModeOk(c: Control, ops: set<Op>)
  {
    && c.version <= 1 && (c.mode == Migrate ==> c.version == 0) && (c.version == 0 ==> !Releasing(c) && c.operation.None?)
    && (c.mode != Migrate ==> c.after.None? && c.offset == 0)
    && (Releasing(c) ==> c.operation.Some? && (c.mode == Release <==> c.episode == 0))
    && (!Releasing(c) ==> c.phase == Holds && c.cursor.None? && c.prior.None?)
    && (c.phase == Gc ==> c.prior.None?) && (c.prior.Some? ==> c.cursor.None?)
    && (c.cursor.Some? && c.phase == Holds ==> c.cursor.value.sequence == 0)
    && (c.operation.Some? ==> c.operation.value in ops)
    && (c.prior.Some? ==> c.prior.value in ops && c.prior != c.operation)
  }

  // A release in progress, measured against the holds it started from.

  ghost predicate Touched(c: Control, h: Hold) { c.mode == Release || c.episode in Episodes(h.links) }

  /** The links a finished release leaves on a hold. */
  ghost function Goal(c: Control, h: Hold): seq<Link>
  {
    if c.mode == Release then [] else Without(h.links, {c.episode})
  }

  function SequenceOf(links: seq<Link>, episode: Episode): nat
  {
    if links == [] then 0 else if links[0].episode == episode then links[0].sequence else SequenceOf(links[1..], episode)
  }

  ghost function ResultKey(c: Control, h: Hold): SortKey
  {
    SortKey(if c.mode == Release then 0 else SequenceOf(h.links, c.episode), h.attachment.id)
  }

  ghost predicate Passed(c: Control, att: Att) { c.phase == Gc || (c.cursor.Some? && att <= c.cursor.value.att) }

  ghost predicate IsSuffix<T>(s: seq<T>, t: seq<T>) { |s| <= |t| && s == t[|t| - |s|..] }

  /** What has become of hold `h` of the start, given the hold row and result row now. */
  ghost predicate HoldProgress(c: Control, h: Hold, now: Option<Hold>, listed: bool)
  {
    if !Touched(c, h) then now == Some(h) && !listed
    else if !Passed(c, h.attachment.id) then
      && now.Some? && !listed && IsSuffix(now.value.links, h.links) && now.value == h.(links := now.value.links)
      && (c.mode == Unlink ==> now.value == h)
    else if Goal(c, h) == [] then now.None? && listed
    else now == Some(h.(links := Goal(c, h))) && !listed
  }

  ghost predicate Progress(ss: SpaceState)
  {
    var c := ss.Data();
    Releasing(c) && c.operation.Some? ==>
      && (forall a :: a in ss.base ==> HoldOk(ss.base[a], a, ss.Rev()))
      && (forall a :: a in ss.holds ==> a in ss.base)
      && (forall a :: a in ss.base ==>
            HoldProgress(c, ss.base[a], Now(ss.holds, a), (c.operation.value, ResultKey(c, ss.base[a])) in ss.results))
      && (forall k :: k in ss.results && k.0 == c.operation.value ==>
            k.1.att in ss.base && k.1 == ResultKey(c, ss.base[k.1.att]))
  }

  ghost predicate RowsOk(ss: SpaceState)
  {
    && HoldsOk(ss.holds, ss.Rev()) && SequencesUnique(ss.holds)
    && IndexExact(ss.holds, ss.index, CoverageOf(ss.Data())) && OffsetOk(ss.holds, ss.Data().after, ss.Data().offset)
  }

  ghost predicate ControlOk(ss: SpaceState)
  {
    && (ss.control.None? ==> ss.holds == map[] && ss.index == map[] && ss.results == map[])
    && ss.Data().count == |ss.holds| && ModeOk(ss.Data(), ss.ops) && ResultsOwned(ss.results, ss.Data())
    && (ss.Data().version == 0 ==> ss.results == map[])
  }

  ghost predicate SpaceOk(ss: SpaceState)
  {
    RowsOk(ss) && ControlOk(ss) && Progress(ss)
  }
}
