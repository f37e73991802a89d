/**
 * The transactions of `put` and `link`, as the writes they are planned with,
 * and what every write does to the revision of its row.
 */
module BlobPuts {
  import opened Prelude
  import opened BlobTypes
  import opened EpisodeCatalog
  import opened BlobProtocol
  import opened BlobLifecycle
  import opened BlobInvariants
  import opened BlobBatches

  /** Everything in the table; what clients remember is not. */
  ghost predicate SameTable(s: Sys, n: Sys)
  {
    && s.spaces == n.spaces && s.life.roots == n.life.roots && s.life.intents == n.life.intents
    && s.life.objects == n.life.objects && s.life.gens == n.life.gens
  }

  lemma ApplyTwo(s: Sys, sp: Space, a: Change, b: Change)
    ensures ApplyAll(s, sp, [a, b]) == ApplyChange(ApplyChange(s, sp, a), sp, b)
  {
    assert [a, b][1..] == [b];
    ApplySingle(ApplyChange(s, sp, a), sp, b);
  }

  /** The table after a transaction has written these rows, and the control row last. */
  ghost function Landing(s: Sys, sp: Space, changes: seq<Change>, following: Control): Sys
  {
    Commit(Steer(ApplyAll(s, sp, changes), sp, following), sp)
  }

  /** A put of something some space holds: one hold more, under the same generation. */
  method PlanJoin(s: Sys, sp: Space, attachment: Attachment) returns (changes: seq<Change>, following: Control)
    requires CatalogEnabled(s, Join(sp, attachment))
    ensures Once(changes) && |changes| <= 2
    ensures SameTable(Landing(s, sp, changes, following), CatalogApply(s, Join(sp, attachment)))
  {
    var root, current := s.life.roots[attachment.id], s.At(sp).Data();
    following := current.(count := current.count + 1);
    changes := [WriteHold(attachment.id, Row(1, Hold(attachment, root.data.generation, []))),
                WriteRoot(attachment.id, Row(root.rev + 1, root.data.(holds := root.data.holds + 1)))];
    ApplyTwo(s, sp, changes[0], changes[1]);
    Landed(s, sp, ApplyAll(s, sp, changes), following, AddHold(s.At(sp), attachment, root.data.generation));
  }

  /** A first put: the upload's intent goes, and a root and a hold come, with the version on record. */
  method PlanPublish(s: Sys, g: Gen, attachment: Attachment) returns (changes: seq<Change>, following: Control)
    requires CatalogEnabled(s, CatalogAction.Publish(g, attachment))
    ensures Once(changes) && |changes| <= 3
    ensures var sp := s.life.uploaders[g].space;
      SameTable(Landing(s, sp, changes, following), CatalogApply(s, CatalogAction.Publish(g, attachment)))
  {
    var sp := s.life.uploaders[g].space;
    var intent, current := s.life.intents[(sp, g)], s.At(sp).Data();
    following := current.(count := current.count + 1);
    changes := [WriteHold(attachment.id, Row(1, Hold(attachment, g, []))),
                WriteRoot(attachment.id, Row(1, Root(g, intent.data.version, 1))), DeleteIntent(g, attachment.id)];
    ApplyThree(s, sp, changes);
    Landed(s, sp, ApplyAll(s, sp, changes), following, AddHold(s.At(sp), attachment, g));
  }

  /** What `put` does after its reads: it may have an upload of its own, whose intent it has read again. */
  datatype PutStep = Held(attachment: Attachment) | NeedsUpload | Fenced | Commits(changes: seq<Change>, following: Control)

  method PlanPut(s: Sys, sp: Space, attachment: Attachment, mine: Option<Gen>) returns (step: PutStep)
    requires s.At(sp).control.Some? && s.At(sp).Data().mode == Active && s.At(sp).Data().version == 1
    requires mine.Some? ==>
      && mine.value in s.life.uploaders && s.life.uploaders[mine.value].space == sp && s.life.uploaders[mine.value].stage.Resting?
      && Lookup(s.life.gens, mine.value) == Some(attachment.id)
    requires mine.Some? ==> Lookup(s.life.intents, (sp, mine.value)) == s.life.uploaders[mine.value].stage.upload
    ensures step.Held? ==> attachment.id in s.At(sp).holds && step.attachment == s.At(sp).holds[attachment.id].data.attachment
    ensures step.NeedsUpload? ==> attachment.id !in s.At(sp).holds && attachment.id !in s.life.roots && mine.None?
    ensures step.Fenced? ==>
      && attachment.id !in s.At(sp).holds && attachment.id !in s.life.roots && mine.Some?
      && ((sp, mine.value) in s.life.intents ==> s.life.intents[(sp, mine.value)].data.kind != Upload)
    ensures step.Commits? ==> attachment.id !in s.At(sp).holds && Once(step.changes) && |step.changes| <= 3
    ensures step.Commits? && attachment.id in s.life.roots ==>
      && CatalogEnabled(s, Join(sp, attachment))
      && SameTable(Landing(s, sp, step.changes, step.following), CatalogApply(s, Join(sp, attachment)))
    ensures step.Commits? && attachment.id !in s.life.roots ==>
      && mine.Some? && CatalogEnabled(s, CatalogAction.Publish(mine.value, attachment))
      && SameTable(Landing(s, sp, step.changes, step.following), CatalogApply(s, CatalogAction.Publish(mine.value, attachment)))
  {
    if attachment.id in s.At(sp).holds { return Held(s.At(sp).holds[attachment.id].data.attachment); }
    if attachment.id in s.life.roots {
      var changes, following := PlanJoin(s, sp, attachment);
      return Commits(changes, following);
    }
    if mine.None? { return NeedsUpload; }
    var upload := s.life.uploaders[mine.value].stage.upload;
    if upload.None? || upload.value.data.kind != Upload { return PutStep.Fenced; }
    var changes, following := PlanPublish(s, mine.value, attachment);
    step := Commits(changes, following);
  }

  /** What `link` does after its reads. */
  datatype LinkStep = NotHeld | Linked | Full | Links(changes: seq<Change>, following: Control)

  /** A link: its sequence is the control revision this very transaction makes. */
  method PlanLink(s: Sys, sp: Space, att: Att, episode: Episode) returns (step: LinkStep)
    requires s.At(sp).control.Some? && s.At(sp).Data().mode == Active && s.At(sp).Data().version == 1 && episode >= 1
    ensures step.NotHeld? <==> att !in s.At(sp).holds
    ensures step.Linked? <==> att in s.At(sp).holds && episode in Episodes(s.At(sp).holds[att].data.links)
    ensures step.Full? <==> att in s.At(sp).holds && episode !in Episodes(s.At(sp).holds[att].data.links) && |s.At(sp).holds[att].data.links| >= 1024
    ensures step.Links? ==>
      && Once(step.changes) && |step.changes| <= 2 && CatalogEnabled(s, AddEpisode(sp, att, episode))
      && SameTable(Landing(s, sp, step.changes, step.following), CatalogApply(s, AddEpisode(sp, att, episode)))
  {
    if att !in s.At(sp).holds { return NotHeld; }
    var row, sequence := s.At(sp).holds[att], s.At(sp).Rev() + 1;
    if episode in Episodes(row.data.links) { return Linked; }
    if |row.data.links| >= MAX_LINKS { return Full; }
    var following := s.At(sp).Data();
    var changes := [WriteHold(att, Row(row.rev + 1, row.data.(links := row.data.links + [Link(episode, sequence)]))),
                    WriteLink(episode, att, EpisodeLink(row.data.attachment, row.data.generation, sequence))];
    ApplyTwo(s, sp, changes[0], changes[1]);
    Landed(s, sp, ApplyAll(s, sp, changes), following, AddLink(s.At(sp), att, episode));
    step := Links(changes, following);
  }

  /** The control row is written last. */
  lemma Landed(s: Sys, sp: Space, n: Sys, following: Control, y: SpaceState)
    requires s.At(sp).control.Some? && n.spaces == s.spaces[sp := n.At(sp)] && n.At(sp).control == s.At(sp).control
    requires y == n.At(sp).With(following).Bump()
    ensures Commit(Steer(n, sp, following), sp).spaces == s.spaces[sp := y]
    ensures Commit(Steer(n, sp, following), sp).life == n.life
  {}

  // ----- Revisions -----

  /** A row that is written gets a new revision, so that no earlier reading of it passes a condition. */
  ghost predicate Advances<T>(x: Option<Row<T>>, y: Option<Row<T>>)
  {
    x.Some? && y.Some? ==> y == x || y.value.rev > x.value.rev
  }

  ghost predicate RowsAdvance(s: Sys, n: Sys)
  {
    && (forall a: Att :: Advances(Lookup(s.life.roots, a), Lookup(n.life.roots, a)))
    && (forall k: (Space, Gen) :: Advances(Lookup(s.life.intents, k), Lookup(n.life.intents, k)))
    && forall sp: Space, a: Att :: Advances(Lookup(s.At(sp).holds, a), Lookup(n.At(sp).holds, a))
  }

  lemma BytesAdvance(l: Life, a: BytesAction, k: (Space, Gen))
    requires BytesEnabled(l, a)
    ensures Advances(Lookup(l.intents, k), Lookup(BytesApply(l, a).intents, k)) && BytesApply(l, a).roots == l.roots
  {}

  /** A release transaction brings no root and no hold back, rewrites those it keeps, and leaves earlier intents alone. */
  ghost predicate Recedes(s: Sys, n: Sys)
  {
    && (forall a :: a in n.life.roots ==> a in s.life.roots && (n.life.roots[a] == s.life.roots[a] || n.life.roots[a].rev > s.life.roots[a].rev))
    && (forall k :: k in s.life.intents ==> k in n.life.intents && n.life.intents[k] == s.life.intents[k])
    && forall sp: Space, a: Att :: a in n.At(sp).holds ==>
         a in s.At(sp).holds && (n.At(sp).holds[a] == s.At(sp).holds[a] || n.At(sp).holds[a].rev > s.At(sp).holds[a].rev)
  }

  lemma RecedesOn(s: Sys, m: Sys, n: Sys)
    requires Recedes(s, m) && Recedes(m, n)
    ensures Recedes(s, n)
  {}

  lemma RemoveOneRecedes(s: Sys, sp: Space, att: Att, sequence: nat, room: nat)
    requires Removable(s, sp, att) && room >= 5
    ensures Recedes(s, RemoveOne(s, sp, att, sequence, room))
  {
    hide Taken, Without;
  }

  lemma {:induction false} RemoveAllRecedes(s: Sys, sp: Space, page: seq<LinkRow>, room: nat)
    requires RemoveAll(s, sp, page, room).Some?
    ensures Recedes(s, RemoveAll(s, sp, page, room).value)
    decreases |page|
  {
    hide Removable, RemoveOne, Cost, Recedes;
    if page == [] || room < 5 {
      assert Recedes(s, s) by { RecedesNone(s); }
    } else {
      var att := page[0].att;
      var next := RemoveOne(s, sp, att, page[0].link.sequence, room);
      RemoveOneRecedes(s, sp, att, page[0].link.sequence, room);
      if !(s.At(sp).Data().mode == Release && att in next.At(sp).holds) {
        var left: nat := if Cost(s, sp, att, room) > room then 0 else room - Cost(s, sp, att, room);
        RemoveAllRecedes(next, sp, page[1..], left);
        RecedesOn(s, next, RemoveAll(next, sp, page[1..], left).value);
      }
    }
  }

  lemma RecedesNone(s: Sys)
    ensures Recedes(s, s)
  {}

  lemma RecedesAdvances(s: Sys, n: Sys)
    requires Recedes(s, n)
    ensures RowsAdvance(s, n)
  {}

  lemma CommitRows(s: Sys, sp: Space)
    ensures Commit(s, sp).life == s.life && forall other: Space :: Commit(s, sp).At(other).holds == s.At(other).holds
  {}

  lemma SameRowsAdvance(s: Sys, n: Sys, m: Sys)
    requires RowsAdvance(s, n) && m.life == n.life && forall sp: Space :: m.At(sp).holds == n.At(sp).holds
    ensures RowsAdvance(s, m)
  {}

  lemma CatalogAdvances(s: Sys, a: CatalogAction)
    requires CatalogEnabled(s, a)
    ensures RowsAdvance(s, CatalogApply(s, a))
  {
    hide SawCandidates, RemoveAll, Swept, DoomedOf;
    match a {
      case Remove(w, page) =>
        var sp := s.watchers[w].space;
        var n := RemoveAll(s, sp, page, TRANSACTION_ROWS).value;
        RemoveAllRecedes(s, sp, page, TRANSACTION_ROWS);
        RecedesAdvances(s, n);
        CommitRows(n, sp);
        SameRowsAdvance(s, n, Commit(n, sp));
      case Migrate(w, rows) =>
        assert MigratePage(s.Of(w), rows).holds == s.Of(w).holds;
      case _ =>
    }
  }

  /**
   * No step of any client writes a root, an intent or a hold without giving its row a new revision. So a transaction
   * that names a row it has read commits only if nobody has written that row since.
   */
  lemma StepAdvances(s: Sys, a: Action)
    requires Enabled(s, a)
    ensures RowsAdvance(s, Apply(s, a))
  {
    hide CatalogEnabled, CatalogApply, BytesEnabled, BytesApply, Shows;
    match a {
      case Catalog(c) => CatalogAdvances(s, c);
      case Bytes(b) =>
        forall k: (Space, Gen) ensures Advances(Lookup(s.life.intents, k), Lookup(BytesApply(s.life, b).intents, k)) { BytesAdvance(s.life, b, k); }
        BytesAdvance(s.life, b, (0, 0));
      case _ =>
    }
  }
}
