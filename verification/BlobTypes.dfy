/** Shared helper types. */
module Prelude {
  datatype Option<+T> = None | Some(value: T)

  lemma SubsetSize<T>(x: set<T>, y: set<T>)
    requires x <= y
    ensures |x| <= |y|
  {
    assert |y| == |x| + |y - x|;
  }
}

/**
 * The rows of the attachment store: DynamoDB metadata rows and the state of
 * one space. Attachment digests, generations and operations are fixed-width
 * hexadecimal strings in the store, so their string order is the order of the
 * numbers that stand for them here.
 */
module BlobTypes {
  import opened Prelude

  type Space = nat
  type Att = nat
  type Gen = nat
  type Op = nat
  type Episode = nat

  const TRANSACTION_ROWS := 90
  const MAX_LINKS := 1024
  const HOLD_PAGE := 100
  const RELEASE_PAGE := 20

  /** A stored item: its revision and its payload. A conditional write names both. */
  datatype Row<+T> = Row(rev: nat, data: T)

  datatype Attachment = Attachment(id: Att, mediaType: string, bytes: nat, filename: Option<string>)

  datatype Link = Link(episode: Episode, sequence: nat)

  datatype Hold = Hold(attachment: Attachment, generation: Gen, links: seq<Link>)

  datatype Root = Root(generation: Gen, version: Option<nat>, holds: nat)

  datatype Kind = Upload | Delete | Abandoned

  datatype Intent = Intent(kind: Kind, att: Att, version: Option<nat>)

  /** One row of an episode partition, keyed by episode and attachment. */
  datatype EpisodeLink = EpisodeLink(attachment: Attachment, generation: Gen, sequence: nat)

  /** Sort key of a release result: link sequence first, then attachment. */
  datatype SortKey = SortKey(sequence: nat, att: Att)

  datatype Result = Result(released: bool, generation: Option<Gen>)

  /** What one result row shows its reader. */
  datatype ResultRow = ResultRow(key: SortKey, result: Result)

  /** What one row of an episode partition shows its reader. */
  datatype LinkRow = LinkRow(att: Att, link: EpisodeLink)

  datatype Mode = Active | Unlink | Release | Migrate
  datatype Phase = Holds | Gc

  datatype Control = Control(
    mode: Mode, count: nat, version: nat, after: Option<Att>, offset: nat,
    phase: Phase, cursor: Option<SortKey>, prior: Option<Op>, operation: Option<Op>, episode: Episode)

  const FRESH_CONTROL := Control(Active, 0, 0, None, 0, Holds, None, None, None, 0)

  /**
   * Everything one space owns except its upload and deletion intents.
   * `ops` are the operation names drawn so far (they are random and never
   * repeat) and `base` remembers the holds at the last start of a release;
   * no step reads either, they only let properties speak of the past.
   */
  datatype SpaceState = SpaceState(
    control: Option<Row<Control>>, holds: map<Att, Row<Hold>>,
    index: map<(Episode, Att), EpisodeLink>, results: map<(Op, SortKey), Result>,
    ops: set<Op>, base: map<Att, Hold>)
  {
    function Data(): Control { if control.Some? then control.value.data else FRESH_CONTROL }
    function Rev(): nat { if control.Some? then control.value.rev else 0 }
    function With(c: Control): SpaceState
      requires control.Some?
    {
      this.(control := Some(control.value.(data := c)))
    }
    /** The conditional write of the control row: same data, next revision. */
    function Bump(): SpaceState
      requires control.Some?
    {
      this.(control := Some(control.value.(rev := control.value.rev + 1)))
    }
  }

  const EMPTY_SPACE := SpaceState(None, map[], map[], map[], {}, map[])

  // Orders of the two kinds of sort key, and what a strongly consistent page returns.

  predicate Beyond(after: Option<Att>, k: Att) { after.None? || after.value < k }

  /** `k` is the first key after the cursor. */
  predicate IsNext(keys: set<Att>, after: Option<Att>, k: Att)
  {
    k in keys && Beyond(after, k) && forall j :: j in keys && Beyond(after, j) ==> k <= j
  }

  /** Consecutive keys after the cursor, without a gap. */
  predicate IsRun(keys: set<Att>, after: Option<Att>, ids: seq<Att>)
  {
    && (|ids| > 0 ==> IsNext(keys, after, ids[0]))
    && forall i :: 0 < i < |ids| ==> IsNext(keys, Some(ids[i - 1]), ids[i])
  }

  /** A strongly consistent page: a run after the cursor, empty only when no key is left. */
  predicate IsPage(keys: set<Att>, after: Option<Att>, ids: seq<Att>)
  {
    IsRun(keys, after, ids) && (ids == [] ==> forall k :: k in keys ==> !Beyond(after, k))
  }

  predicate Below(a: SortKey, b: SortKey)
  {
    a.sequence < b.sequence || (a.sequence == b.sequence && a.att < b.att)
  }

  predicate BeyondKey(after: Option<SortKey>, k: SortKey) { after.None? || Below(after.value, k) }

  predicate IsNextKey(keys: set<SortKey>, after: Option<SortKey>, k: SortKey)
  {
    k in keys && BeyondKey(after, k) && forall j :: j in keys && BeyondKey(after, j) ==> k == j || Below(k, j)
  }

  predicate IsKeyRun(keys: set<SortKey>, after: Option<SortKey>, ids: seq<SortKey>)
  {
    && (|ids| > 0 ==> IsNextKey(keys, after, ids[0]))
    && forall i :: 0 < i < |ids| ==> IsNextKey(keys, Some(ids[i - 1]), ids[i])
  }

  predicate IsKeyPage(keys: set<SortKey>, after: Option<SortKey>, ids: seq<SortKey>)
  {
    IsKeyRun(keys, after, ids) && (ids == [] ==> forall k :: k in keys ==> !BeyondKey(after, k))
  }

  function Atts(rows: seq<LinkRow>): (ids: seq<Att>)
    ensures |ids| == |rows|
    ensures forall i :: 0 <= i < |rows| ==> ids[i] == rows[i].att
  {
    seq(|rows|, i requires 0 <= i < |rows| => rows[i].att)
  }

  function Keys(rows: seq<ResultRow>): (keys: seq<SortKey>)
    ensures |keys| == |rows|
    ensures forall i :: 0 <= i < |rows| ==> keys[i] == rows[i].key
  {
    seq(|rows|, i requires 0 <= i < |rows| => rows[i].key)
  }

  function Ids(rows: seq<Row<Hold>>): (ids: seq<Att>)
    ensures |ids| == |rows|
    ensures forall i :: 0 <= i < |rows| ==> ids[i] == rows[i].data.attachment.id
  {
    seq(|rows|, i requires 0 <= i < |rows| => rows[i].data.attachment.id)
  }
}
