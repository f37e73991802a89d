/**
 * The shared-state protocol of the S3/DynamoDB attachment store: spaces with
 * their catalogs, reference-counted roots, intents, stored objects, and the
 * clients at work on them. A run is any sequence of actions of any clients;
 * a client that stops, for whatever reason, simply takes no further action.
 */
module BlobProtocol {
  import opened Prelude
  import opened BlobTypes
  import opened EpisodeCatalog

  /** Where the client that drew a generation stands in its upload. */
  datatype Stage =
    | Created
    | Sending(row: Row<Intent>)
    | Sent(row: Row<Intent>)
    | Recorded
    | Resting(upload: Option<Row<Intent>>)

  datatype Uploader = Uploader(space: Space, stage: Stage)

  /** A client deleting the object an intent row it once read names. */
  datatype SweepStage = Refreshing | Guarding | Checked | Acking
  datatype Sweep = Sweep(space: Space, gen: Gen, row: Row<Intent>, at: SweepStage)

  /** One metadata read: what the table showed at that moment. */
  datatype Observation =
    | SawHolds(after: Option<Att>, holdRows: seq<Row<Hold>>)
    | SawLinks(episode: Episode, after: Option<Att>, linkRows: seq<LinkRow>)
    | SawHold(att: Att, hold: Option<Row<Hold>>)
    | SawRoot(att: Att, root: Option<Row<Root>>)
    | SawResults(op: Op, cursor: Option<SortKey>, resultRows: seq<ResultRow>)

  /** A client that read a control row and has since made the reads in `seen`. */
  datatype Watcher = Watcher(space: Space, before: Option<Row<Control>>, seen: set<Observation>)

  /**
   * Everything shared between spaces: roots, intents, objects, the clients that
   * upload or delete them, and (read by no step) which attachment each drawn
   * generation is for.
   */
  datatype Life = Life(
    roots: map<Att, Row<Root>>, intents: map<(Space, Gen), Row<Intent>>, objects: set<Gen>,
    gens: map<Gen, Att>, uploaders: map<Gen, Uploader>, sweeps: map<nat, Sweep>)

  datatype Sys = Sys(spaces: map<Space, SpaceState>, watchers: map<nat, Watcher>, life: Life)
  {
    function At(sp: Space): SpaceState { if sp in spaces then spaces[sp] else EMPTY_SPACE }
    function Put(sp: Space, ss: SpaceState): Sys { this.(spaces := spaces[sp := ss]) }
    predicate Current(w: nat) { w in watchers && At(watchers[w].space).control == watchers[w].before && watchers[w].before.Some? }
    function Of(w: nat): SpaceState requires w in watchers { At(watchers[w].space) }
  }

  /** Transactions on a space's own rows and on roots. */
  datatype CatalogAction =
    | CreateControl(sp: Space)
    | StartMigration(sp: Space)
    | Migrate(w: nat, holdPage: seq<Row<Hold>>)
    | Join(sp: Space, attachment: Attachment)
    | Publish(g: Gen, attachment: Attachment)
    | AddEpisode(sp: Space, att: Att, episode: Episode)
    | Begin(sp: Space, episode: Episode, op: Op)
    | Prune(w: nat, op: Op, rows: set<SortKey>)
    | Pruned(w: nat)
    | Remove(w: nat, page: seq<LinkRow>)
    | Removed(w: nat)
    | Collect(w: nat, batch: seq<SortKey>)
    | End(w: nat)

  /** Steps on one generation: its intent row, its object, its uploader and its cleaners. */
  datatype BytesAction =
    | NewUpload(sp: Space, g: Gen, att: Att)
    | ReadBack(g: Gen)
    | PutObject(g: Gen)
    | RecordVersion(g: Gen, version: Option<nat>)
    | Reread(g: Gen)
    | Dispose(g: Gen)
    | Fence(t: nat, sp: Space, g: Gen)
    | Refresh(t: nat)
    | StartSweep(t: nat, sp: Space, g: Gen)
    | CheckRoot(t: nat)
    | DeleteObject(t: nat)
    | Acknowledge(t: nat)

  datatype Action =
    | Catalog(c: CatalogAction)
    | Bytes(b: BytesAction)
    | Watch(w: nat, sp: Space)
    | Observe(w: nat, o: Observation)
    | Crash(g: Gen, t: nat, w: nat)

  function Lookup<K, V>(m: map<K, V>, k: K): Option<V> { if k in m then Some(m[k]) else None }

  function ResultKeys(ss: SpaceState, op: Op): set<SortKey>
  {
    set k | k in ss.results && k.0 == op :: k.1
  }

  /** What a read of the space's own rows returns. */
  ghost predicate SpaceShows(ss: SpaceState, o: Observation)
  {
    match o
    case SawHolds(after, rows) =>
      && |rows| <= HOLD_PAGE && IsPage(ss.holds.Keys, after, Ids(rows))
      && forall i :: 0 <= i < |rows| ==> Lookup(ss.holds, Ids(rows)[i]) == Some(rows[i])
    case SawLinks(episode, after, rows) =>
      && |rows| <= HOLD_PAGE && IsPage(EpisodeAtts(ss.index, episode), after, Atts(rows))
      && forall i :: 0 <= i < |rows| ==> Lookup(ss.index, (episode, rows[i].att)) == Some(rows[i].link)
    case SawHold(att, row) => row == Lookup(ss.holds, att)
    case SawRoot(att, row) => true
    case SawResults(op, cursor, rows) =>
      && |rows| <= HOLD_PAGE && IsKeyPage(ResultKeys(ss, op), cursor, Keys(rows))
      && forall i :: 0 <= i < |rows| ==> Lookup(ss.results, (op, rows[i].key)) == Some(rows[i].result)
  }

  /** What a read returns in a given state. */
  ghost predicate Shows(s: Sys, sp: Space, o: Observation)
  {
    SpaceShows(s.At(sp), o) && (o.SawRoot? ==> o.root == Lookup(s.life.roots, o.att))
  }

  // ----- What catalog transactions do outside their space -----

  /** A first hold: the upload intent becomes a root. */
  function PublishLife(l: Life, g: Gen, sp: Space, version: Option<nat>): Life
    requires g in l.gens
  {
    l.(roots := l.roots[l.gens[g] := Row(1, Root(g, version, 1))], intents := l.intents - {(sp, g)}, uploaders := l.uploaders - {g})
  }

  /** A last hold gone: the root becomes a deletion intent of the space that let go. */
  function GiveUpLife(l: Life, sp: Space, att: Att): Life
    requires att in l.roots
  {
    l.(roots := l.roots - {att},
       intents := l.intents[(sp, l.roots[att].data.generation) := Row(1, Intent(Delete, att, l.roots[att].data.version))])
  }

  /** Acknowledged deletions lose their intents. */
  function CollectLife(l: Life, sp: Space, gens: set<Gen>): Life
  {
    l.(intents := map k | k in l.intents && !(k.0 == sp && k.1 in gens) :: l.intents[k])
  }

  /** A deletion intent whose object a cleaner has removed. */
  ghost predicate Swept(l: Life, sp: Space, g: Gen)
  {
    (sp, g) in l.intents ==>
      && l.intents[(sp, g)].data.kind == Delete
      && exists t :: t in l.sweeps && l.sweeps[t] == Sweep(sp, g, l.intents[(sp, g)], Acking)
  }

  // ----- One release transaction, candidate by candidate -----

  /** Whether the conditional writes for one candidate would pass. */
  predicate Removable(s: Sys, sp: Space, att: Att)
  {
    var ss := s.At(sp);
    && ss.control.Some? && ss.Data().operation.Some? && ss.Data().count >= 1 && att in ss.holds && att in s.life.roots
    && s.life.roots[att].data.holds >= 1 && s.life.roots[att].data.generation == ss.holds[att].data.generation
    && (sp, s.life.roots[att].data.generation) !in s.life.intents
  }

  function RemoveOne(s: Sys, sp: Space, att: Att, sequence: nat, room: nat): Sys
    requires Removable(s, sp, att) && room >= 5
  {
    var ss, root := s.At(sp), s.life.roots[att];
    var gone, last := Taken(ss.Data(), ss.holds[att].data, room), root.data.holds == 1;
    var result := Result(ss.Data().mode == Unlink || last, if last then Some(root.data.generation) else None);
    var moved := s.Put(sp, ReleaseHold(ss, att, sequence, gone, result));
    if Without(ss.holds[att].data.links, gone) != [] then moved
    else if last then
      moved.(life := GiveUpLife(s.life, sp, att))
    else moved.(life := s.life.(roots := s.life.roots[att := Row(root.rev + 1, root.data.(holds := root.data.holds - 1))]))
  }

  /** Rows one candidate adds to the transaction. */
  function Cost(s: Sys, sp: Space, att: Att, room: nat): nat
    requires Removable(s, sp, att) && room >= 5
  {
    var h := s.At(sp).holds[att].data;
    var remaining := Without(h.links, Taken(s.At(sp).Data(), h, room));
    |h.links| - |remaining| + if remaining != [] then 1 else if s.life.roots[att].data.holds == 1 then 4 else 3
  }

  /** The whole transaction; None when a condition fails and nothing is written. */
  function RemoveAll(s: Sys, sp: Space, page: seq<LinkRow>, room: nat): Option<Sys>
    decreases |page|
  {
    if page == [] || room < 5 then Some(s)
    else if !Removable(s, sp, page[0].att) then None
    else
      var att := page[0].att;
      var next := RemoveOne(s, sp, att, page[0].link.sequence, room);
      if s.At(sp).Data().mode == Release && att in next.At(sp).holds then Some(next)
      else RemoveAll(next, sp, page[1..], if Cost(s, sp, att, room) > room then 0 else room - Cost(s, sp, att, room))
  }

  function Commit(s: Sys, sp: Space): Sys
  {
    if s.At(sp).control.Some? then s.Put(sp, s.At(sp).Bump()) else s
  }

  /** A page of holds as release candidates: no link sequence orders a whole-space release. */
  function AsCandidates(rows: seq<Row<Hold>>): (page: seq<LinkRow>)
    ensures |page| == |rows|
    ensures forall i :: 0 <= i < |rows| ==>
      page[i] == LinkRow(rows[i].data.attachment.id, EpisodeLink(rows[i].data.attachment, rows[i].data.generation, 0))
  {
    seq(|rows|, i requires 0 <= i < |rows| =>
      LinkRow(rows[i].data.attachment.id, EpisodeLink(rows[i].data.attachment, rows[i].data.generation, 0)))
  }

  /** The watcher has read this page of candidates after its release cursor. */
  ghost predicate SawCandidates(s: Sys, w: nat, page: seq<LinkRow>)
    requires w in s.watchers && s.watchers[w].before.Some?
  {
    var c := s.watchers[w].before.value.data;
    |page| <= RELEASE_PAGE &&
    if c.mode == Release then
      exists rows :: page == AsCandidates(rows) && SawHolds(CursorAtt(c), rows) in s.watchers[w].seen
    else SawLinks(c.episode, CursorAtt(c), page) in s.watchers[w].seen
  }

  ghost predicate HoldsPhase(s: Sys, w: nat)
  {
    && s.Current(w) && Releasing(s.Of(w).Data()) && s.Of(w).Data().operation.Some?
    && s.Of(w).Data().prior.None? && s.Of(w).Data().phase == Holds
  }

  ghost predicate GcPhase(s: Sys, w: nat)
  {
    && s.Current(w) && Releasing(s.Of(w).Data()) && s.Of(w).Data().operation.Some?
    && s.Of(w).Data().prior.None? && s.Of(w).Data().phase == Gc
  }

  /** The generation a result row asks to be deleted. */
  function Doomed(ss: SpaceState, key: SortKey): Option<Gen>
    requires ss.Data().operation.Some?
  {
    var k := (ss.Data().operation.value, key);
    if k in ss.results then ss.results[k].generation else None
  }

  function DoomedOf(ss: SpaceState, page: seq<SortKey>): set<Gen>
    requires ss.Data().operation.Some?
  {
    set k | k in page && Doomed(ss, k).Some? :: Doomed(ss, k).value
  }

  /** The watcher has read these result rows after its collection cursor. */
  ghost predicate SawPage(s: Sys, w: nat, page: seq<SortKey>)
    requires w in s.watchers && s.Of(w).Data().operation.Some?
  {
    exists rows :: page == Keys(rows) && |rows| <= TRANSACTION_ROWS
      && SawResults(s.Of(w).Data().operation.value, s.Of(w).Data().cursor, rows) in s.watchers[w].seen
  }

  /** When a catalog transaction commits: the rows its conditions name are current. */
  ghost predicate CatalogEnabled(s: Sys, a: CatalogAction)
  {
    match a
    case CreateControl(sp) => s.At(sp).control.None?
    case StartMigration(sp) => s.At(sp).control.Some? && s.At(sp).Data().mode == Mode.Active && s.At(sp).Data().version == 0
    case Migrate(w, rows) =>
      && s.Current(w) && s.Of(w).Data().mode == Mode.Migrate && OffsetsFit(s.Of(w).Data(), rows)
      && SawHolds(s.Of(w).Data().after, rows) in s.watchers[w].seen
    case Join(sp, attachment) =>
      && s.At(sp).control.Some? && s.At(sp).Data().mode == Active && s.At(sp).Data().version == 1
      && attachment.id !in s.At(sp).holds && attachment.id in s.life.roots
    case Publish(g, attachment) =>
      && g in s.life.uploaders && g in s.life.gens && attachment.id == s.life.gens[g]
      && s.life.uploaders[g].stage.Resting? && s.life.uploaders[g].stage.upload.Some? && s.life.uploaders[g].stage.upload.value.data.kind == Upload
      && Lookup(s.life.intents, (s.life.uploaders[g].space, g)) == s.life.uploaders[g].stage.upload
      && s.At(s.life.uploaders[g].space).control.Some? && s.At(s.life.uploaders[g].space).Data().mode == Active
      && s.At(s.life.uploaders[g].space).Data().version == 1
      && attachment.id !in s.At(s.life.uploaders[g].space).holds && attachment.id !in s.life.roots
    case AddEpisode(sp, att, episode) =>
      && s.At(sp).control.Some? && s.At(sp).Data().mode == Active && s.At(sp).Data().version == 1
      && episode >= 1 && att in s.At(sp).holds && episode !in Episodes(s.At(sp).holds[att].data.links)
      && |s.At(sp).holds[att].data.links| < MAX_LINKS
    case Begin(sp, episode, op) =>
      && s.At(sp).control.Some? && s.At(sp).Data().mode == Active && s.At(sp).Data().version == 1 && op !in s.At(sp).ops
    case Prune(w, op, keys) =>
      w in s.watchers && s.watchers[w].before.Some? && s.watchers[w].before.value.data.prior == Some(op)
    case Pruned(w) =>
      && s.Current(w) && Releasing(s.Of(w).Data()) && s.Of(w).Data().prior.Some?
      && SawResults(s.Of(w).Data().prior.value, None, []) in s.watchers[w].seen
    case Remove(w, page) =>
      && HoldsPhase(s, w) && page != [] && SawCandidates(s, w, page)
      && RemoveAll(s, s.watchers[w].space, page, TRANSACTION_ROWS).Some?
    case Removed(w) => HoldsPhase(s, w) && SawCandidates(s, w, [])
    case Collect(w, page) =>
      && GcPhase(s, w) && page != [] && SawPage(s, w, page)
      && forall k :: k in page && Doomed(s.Of(w), k).Some? ==> Swept(s.life, s.watchers[w].space, Doomed(s.Of(w), k).value)
    case End(w) =>
      GcPhase(s, w) && SawResults(s.Of(w).Data().operation.value, s.Of(w).Data().cursor, []) in s.watchers[w].seen
  }

  /** When a client can take a step on a generation, and its conditions pass. */
  ghost predicate BytesEnabled(l: Life, a: BytesAction)
  {
    match a
    case NewUpload(sp, g, att) => g !in l.gens && (sp, g) !in l.intents
    case ReadBack(g) => g in l.uploaders && l.uploaders[g].stage.Created? && (l.uploaders[g].space, g) in l.intents
    case PutObject(g) => g in l.uploaders && l.uploaders[g].stage.Sending?
    case RecordVersion(g, version) =>
      && g in l.uploaders && l.uploaders[g].stage.Sent?
      && Lookup(l.intents, (l.uploaders[g].space, g)) == Some(l.uploaders[g].stage.row)
    case Reread(g) => g in l.uploaders && l.uploaders[g].stage.Recorded?
    case Dispose(g) =>
      && g in l.uploaders && l.uploaders[g].stage.Resting? && (l.uploaders[g].space, g) in l.intents
      && l.intents[(l.uploaders[g].space, g)].data.kind == Upload
    case Fence(t, sp, g) => t !in l.sweeps && (sp, g) in l.intents && l.intents[(sp, g)].data.kind == Upload
    case Refresh(t) => t in l.sweeps && l.sweeps[t].at == Refreshing && (l.sweeps[t].space, l.sweeps[t].gen) in l.intents
    case StartSweep(t, sp, g) => t !in l.sweeps && (sp, g) in l.intents && l.intents[(sp, g)].data.kind != Upload
    case CheckRoot(t) => t in l.sweeps && l.sweeps[t].at == Guarding && !GuardFires(l, t)
    case DeleteObject(t) => t in l.sweeps && l.sweeps[t].at == Checked
    case Acknowledge(t) =>
      && t in l.sweeps && l.sweeps[t].at == Acking && l.sweeps[t].row.data.kind == Delete
      && Lookup(l.intents, (l.sweeps[t].space, l.sweeps[t].gen)) == Some(l.sweeps[t].row)
  }

  ghost predicate Enabled(s: Sys, a: Action)
  {
    match a
    case Catalog(c) => CatalogEnabled(s, c)
    case Bytes(b) => BytesEnabled(s.life, b)
    case Watch(w, sp) => w !in s.watchers
    case Observe(w, o) => w in s.watchers && Shows(s, s.watchers[w].space, o)
    case Crash(g, t, w) => true
  }

  /** The check before a delete finds the generation published, and raises. */
  predicate GuardFires(l: Life, t: nat)
  {
    && t in l.sweeps && l.sweeps[t].at == Guarding
    && l.sweeps[t].row.data.att in l.roots && l.roots[l.sweeps[t].row.data.att].data.generation == l.sweeps[t].gen
  }

  function SetStage(l: Life, g: Gen, stage: Stage): Life
    requires g in l.uploaders
  {
    l.(uploaders := l.uploaders[g := l.uploaders[g].(stage := stage)])
  }

  function SetSweep(l: Life, t: nat, at: SweepStage): Life
    requires t in l.sweeps
  {
    l.(sweeps := l.sweeps[t := l.sweeps[t].(at := at)])
  }

  /** The conditional rewrite of an intent row. */
  function Rewrite(row: Row<Intent>, data: Intent): Row<Intent> { Row(row.rev + 1, data) }

  ghost function CatalogApply(s: Sys, a: CatalogAction): Sys
    requires CatalogEnabled(s, a)
  {
    match a
    case CreateControl(sp) => s.Put(sp, s.At(sp).(control := Some(Row(1, FRESH_CONTROL.(version := 1)))))
    case StartMigration(sp) => s.Put(sp, BeginMigration(s.At(sp)))
    case Migrate(w, rows) => s.Put(s.watchers[w].space, MigratePage(s.Of(w), rows))
    case Join(sp, attachment) =>
      var root := s.life.roots[attachment.id];
      s.Put(sp, AddHold(s.At(sp), attachment, root.data.generation))
       .(life := s.life.(roots := s.life.roots[attachment.id := Row(root.rev + 1, root.data.(holds := root.data.holds + 1))]))
    case Publish(g, attachment) =>
      var sp, row := s.life.uploaders[g].space, s.life.uploaders[g].stage.upload.value;
      s.Put(sp, AddHold(s.At(sp), attachment, g))
       .(life := PublishLife(s.life, g, sp, row.data.version))
    case AddEpisode(sp, att, episode) => s.Put(sp, AddLink(s.At(sp), att, episode))
    case Begin(sp, episode, op) => s.Put(sp, StartRelease(s.At(sp), episode, op))
    case Prune(w, op, keys) => s.Put(s.watchers[w].space, PruneRows(s.Of(w), op, keys))
    case Pruned(w) => s.Put(s.watchers[w].space, ClearPrior(s.Of(w)))
    case Remove(w, page) =>
      var next := RemoveAll(s, s.watchers[w].space, page, TRANSACTION_ROWS).value;
      Commit(next, s.watchers[w].space)
    case Removed(w) => s.Put(s.watchers[w].space, EnterGc(s.Of(w)))
    case Collect(w, page) =>
      var sp := s.watchers[w].space;
      s.Put(sp, Collected(s.Of(w), page[|page| - 1]))
       .(life := CollectLife(s.life, sp, DoomedOf(s.Of(w), page)))
    case End(w) => s.Put(s.watchers[w].space, Finish(s.Of(w)))
  }

  ghost function BytesApply(l: Life, a: BytesAction): Life
    requires BytesEnabled(l, a)
  {
    match a
    case NewUpload(sp, g, att) =>
      l.(intents := l.intents[(sp, g) := Row(1, Intent(Upload, att, None))], gens := l.gens[g := att],
         uploaders := l.uploaders[g := Uploader(sp, Created)])
    case ReadBack(g) => SetStage(l, g, Sending(l.intents[(l.uploaders[g].space, g)]))
    case PutObject(g) => SetStage(l, g, Sent(l.uploaders[g].stage.row)).(objects := l.objects + {g})
    case RecordVersion(g, version) =>
      var sp, row := l.uploaders[g].space, l.uploaders[g].stage.row;
      SetStage(l, g, Recorded).(intents := l.intents[(sp, g) := Rewrite(row, Intent(Upload, row.data.att, version))])
    case Reread(g) => SetStage(l, g, Resting(Lookup(l.intents, (l.uploaders[g].space, g))))
    case Dispose(g) =>
      var key := (l.uploaders[g].space, g);
      l.(intents := l.intents[key := Rewrite(l.intents[key], l.intents[key].data.(kind := Delete))], uploaders := l.uploaders - {g})
    case Fence(t, sp, g) =>
      var row := Rewrite(l.intents[(sp, g)], l.intents[(sp, g)].data.(kind := Abandoned));
      l.(intents := l.intents[(sp, g) := row], sweeps := l.sweeps[t := Sweep(sp, g, row, Refreshing)])
    case Refresh(t) =>
      var w := l.sweeps[t];
      l.(sweeps := l.sweeps[t := Sweep(w.space, w.gen, l.intents[(w.space, w.gen)], Guarding)])
    case StartSweep(t, sp, g) => l.(sweeps := l.sweeps[t := Sweep(sp, g, l.intents[(sp, g)], Guarding)])
    case CheckRoot(t) => SetSweep(l, t, Checked)
    case DeleteObject(t) => SetSweep(l, t, Acking).(objects := l.objects - {l.sweeps[t].gen})
    case Acknowledge(t) =>
      l.(intents := l.intents - {(l.sweeps[t].space, l.sweeps[t].gen)}, sweeps := l.sweeps - {t})
  }

  ghost function Apply(s: Sys, a: Action): Sys
    requires Enabled(s, a)
  {
    match a
    case Catalog(c) => CatalogApply(s, c)
    case Bytes(b) => s.(life := BytesApply(s.life, b))
    case Watch(w, sp) => s.(watchers := s.watchers[w := Watcher(sp, s.At(sp).control, {})])
    case Observe(w, o) => s.(watchers := s.watchers[w := s.watchers[w].(seen := s.watchers[w].seen + {o})])
    case Crash(g, t, w) => s.(life := s.life.(uploaders := s.life.uploaders - {g}, sweeps := s.life.sweeps - {t}), watchers := s.watchers - {w})
  }
}
