/**
 * The reference attachment store, kept in memory: what a put, a link, an
 * unlink and a whole-space release mean. Every other store has to agree with it.
 */
module BlobSpec {
  import opened Prelude
  import opened BlobTypes

  type Bytes = seq<bv8>

  datatype Store = Store(bytes: map<Att, Bytes>, held: map<(Space, Att), Attachment>, links: map<(Space, Episode), seq<Att>>)

  function Linked(t: Store, sp: Space, e: Episode): seq<Att>
  {
    if (sp, e) in t.links then t.links[(sp, e)] else []
  }

  function HeldIn(t: Store, sp: Space): set<Att> { set k | k in t.held && k.0 == sp :: k.1 }

  function HeldBeyond(t: Store, sp: Space): set<Att> { set k | k in t.held && k.0 != sp :: k.1 }

  /** What the other episodes of a space carry. */
  function Elsewhere(t: Store, sp: Space, e: Episode): set<Att>
  {
    set k, i | k in t.links && k.0 == sp && k.1 != e && i in t.links[k] :: i
  }

  function Except(ids: seq<Att>, gone: set<Att>): seq<Att>
  {
    if ids == [] then [] else (if ids[0] in gone then [] else [ids[0]]) + Except(ids[1..], gone)
  }

  function ReleasedBy(t: Store, sp: Space, e: Episode): seq<Att> { Except(Linked(t, sp, e), Elsewhere(t, sp, e)) }

  function PutIn(t: Store, sp: Space, attachment: Attachment, data: Bytes): Store
  {
    t.(bytes := t.bytes[attachment.id := data],
       held := if (sp, attachment.id) in t.held then t.held else t.held[(sp, attachment.id) := attachment])
  }

  function LinkIn(t: Store, sp: Space, id: Att, e: Episode): Store
  {
    if (sp, id) !in t.held || id in Linked(t, sp, e) then t else t.(links := t.links[(sp, e) := Linked(t, sp, e) + [id]])
  }

  function Members(ids: seq<Att>): set<Att> { set a | a in ids }

  /** A space lets go of some attachments; bytes that no other space holds go too. */
  function LetGo(t: Store, sp: Space, gone: set<Att>): Store
  {
    Store(map a | a in t.bytes && !(a in gone && a !in HeldBeyond(t, sp)) :: t.bytes[a],
          map k | k in t.held && !(k.0 == sp && k.1 in gone) :: t.held[k], t.links)
  }

  function UnlinkFrom(t: Store, sp: Space, e: Episode): Store
  {
    LetGo(t, sp, Members(ReleasedBy(t, sp, e))).(links := t.links - {(sp, e)})
  }

  function ReleaseFrom(t: Store, sp: Space): Store
  {
    LetGo(t, sp, HeldIn(t, sp)).(links := map k | k in t.links && k.0 != sp :: t.links[k])
  }

  ghost predicate NoRepeats(ids: seq<Att>) { forall i, j :: 0 <= i < j < |ids| ==> ids[i] != ids[j] }

  /** Links are to held attachments, and exactly the held attachments have bytes. */
  ghost predicate Sane(t: Store)
  {
    && (forall k, i :: k in t.links && i in t.links[k] ==> (k.0, i) in t.held)
    && (forall k :: k in t.links ==> NoRepeats(t.links[k]))
    && (forall k :: k in t.held ==> k.1 in t.bytes && t.held[k].id == k.1)
    && forall a :: a in t.bytes ==> exists k :: k in t.held && k.1 == a
  }

  lemma {:induction false} ExceptMembers(ids: seq<Att>, gone: set<Att>, a: Att)
    ensures a in Except(ids, gone) <==> a in ids && a !in gone
  {
    if ids != [] { ExceptMembers(ids[1..], gone, a); }
  }

  lemma PutSane(t: Store, sp: Space, attachment: Attachment, data: Bytes)
    requires Sane(t)
    ensures Sane(PutIn(t, sp, attachment, data))
  {
    var n := PutIn(t, sp, attachment, data);
    forall a | a in n.bytes ensures exists k :: k in n.held && k.1 == a {
      if a == attachment.id {
        assert (sp, a) in n.held;
      } else {
        var k :| k in t.held && k.1 == a;
        assert k in n.held;
      }
    }
  }

  lemma LinkSane(t: Store, sp: Space, id: Att, e: Episode)
    requires Sane(t)
    ensures Sane(LinkIn(t, sp, id, e))
  {}

  lemma LetGoHeld(t: Store, sp: Space, gone: set<Att>)
    requires forall a :: a in t.bytes ==> exists k :: k in t.held && k.1 == a
    requires forall k :: k in t.held ==> k.1 in t.bytes
    ensures var n := LetGo(t, sp, gone); forall a :: a in n.bytes ==> exists k :: k in n.held && k.1 == a
    ensures var n := LetGo(t, sp, gone); forall k :: k in n.held ==> k.1 in n.bytes
  {
    var n := LetGo(t, sp, gone);
    forall a | a in n.bytes ensures exists k :: k in n.held && k.1 == a {
      var k :| k in t.held && k.1 == a;
      if !(k.0 == sp && a in gone) {
        assert k in n.held;
      } else {
        var j :| j in t.held && j.0 != sp && j.1 == a;
        assert j in n.held;
      }
    }
  }

  lemma UnlinkSane(t: Store, sp: Space, e: Episode)
    requires Sane(t)
    ensures Sane(UnlinkFrom(t, sp, e))
  {
    LetGoHeld(t, sp, Members(ReleasedBy(t, sp, e)));
    var n := UnlinkFrom(t, sp, e);
    forall k, i | k in n.links && i in n.links[k] ensures (k.0, i) in n.held {
      ExceptMembers(Linked(t, sp, e), Elsewhere(t, sp, e), i);
    }
  }

  lemma ReleaseSane(t: Store, sp: Space)
    requires Sane(t)
    ensures Sane(ReleaseFrom(t, sp))
  {
    LetGoHeld(t, sp, HeldIn(t, sp));
  }

  predicate Ascending(ids: seq<Att>) { forall i, j :: 0 <= i < j < |ids| ==> ids[i] < ids[j] }

  /** The members of a set in ascending order. */
  method Sorted(ids: set<Att>) returns (list: seq<Att>)
    ensures Ascending(list) && forall a :: a in list <==> a in ids
  {
    list := [];
    var rest := ids;
    while rest != {}
      invariant Ascending(list) && rest <= ids && forall a :: a in ids <==> a in list || a in rest
      invariant forall i, b :: 0 <= i < |list| && b in rest ==> list[i] < b
      decreases |rest|
    {
      var least: Att :| least in rest;
      var seen := {least};
      while seen != rest
        invariant seen <= rest && least in seen && forall a :: a in seen ==> least <= a
        decreases |rest| - |seen|
      {
        Smaller(seen, rest);
        var a: Att :| a in rest - seen;
        seen := seen + {a};
        if a < least { least := a; }
      }
      list, rest := list + [least], rest - {least};
    }
  }

  lemma Smaller(x: set<Att>, y: set<Att>)
    requires x <= y && x != y
    ensures |x| < |y| && exists a :: a in y - x
  {
    assert |y| == |x| + |y - x| && y == x + (y - x);
  }

  class InMemoryBlobStore {
    const digest: Bytes -> Att
    var bytes: map<Att, Bytes>
    var held: map<(Space, Att), Attachment>
    var links: map<(Space, Episode), seq<Att>>

    function Contents(): Store reads this { Store(bytes, held, links) }

    /** Bytes are kept under their digest. */
    ghost predicate Valid()
      reads this
    {
      Sane(Contents()) && forall a :: a in bytes ==> digest(bytes[a]) == a
    }

    constructor (digest: Bytes -> Att)
      ensures Valid() && Contents() == Store(map[], map[], map[]) && this.digest == digest
    {
      this.digest := digest;
      bytes, held, links := map[], map[], map[];
    }

    method Put(space: Space, data: Bytes, mediaType: string, filename: Option<string>) returns (stored: Attachment)
      requires Valid()
      modifies this
      ensures Valid() && Contents() == PutIn(old(Contents()), space, Attachment(digest(data), mediaType, |data|, filename), data)
      ensures (space, digest(data)) in held && stored == held[(space, digest(data))]
      ensures digest(data) in bytes && bytes[digest(data)] == data
    {
      hide Sane;
      var id := digest(data);
      PutSane(Contents(), space, Attachment(id, mediaType, |data|, filename), data);
      bytes := bytes[id := data];
      if (space, id) in held { return held[(space, id)]; }
      stored := Attachment(id, mediaType, |data|, filename);
      held := held[(space, id) := stored];
    }

    method Get(space: Space, id: Att) returns (found: Option<(Attachment, Bytes)>)
      requires Valid()
      ensures found.Some? <==> (space, id) in held
      ensures found.Some? ==> id in bytes && found.value == (held[(space, id)], bytes[id])
      ensures found.Some? ==> digest(found.value.1) == id && found.value.0.id == id
    {
      if (space, id) in held { found := Some((held[(space, id)], bytes[id])); } else { found := None; }
    }

    method Link(space: Space, id: Att, episode: Episode) returns (found: bool)
      requires Valid()
      modifies this`links
      ensures Valid() && Contents() == LinkIn(old(Contents()), space, id, episode) && found == ((space, id) in held)
    {
      LinkSane(Contents(), space, id, episode);
      if (space, id) !in held { return false; }
      var mine := if (space, episode) in links then links[(space, episode)] else [];
      if id !in mine { links := links[(space, episode) := mine + [id]]; }
      found := true;
    }

    method ForEpisode(space: Space, episode: Episode) returns (attachments: seq<Attachment>)
      requires Valid()
      ensures |attachments| == |Linked(Contents(), space, episode)|
      ensures forall i :: 0 <= i < |attachments| ==>
        (space, Linked(Contents(), space, episode)[i]) in held && attachments[i] == held[(space, Linked(Contents(), space, episode)[i])]
    {
      var mine := Linked(Contents(), space, episode);
      assert forall i :: 0 <= i < |mine| ==> mine[i] in mine;
      attachments := seq(|mine|, i requires 0 <= i < |mine| && (space, mine[i]) in held reads this => held[(space, mine[i])]);
    }

    method Drop(space: Space, id: Att)
      modifies this
      ensures Contents() == LetGo(old(Contents()), space, {id})
    {
      ghost var t := Contents();
      held := held - {(space, id)};
      if !exists k :: k in held && k.1 == id { bytes := bytes - {id}; }
      BytesGone(t, space, id);
    }

    /** Drops one episode; returns what only it carried, in the order it was linked. */
    method Unlink(space: Space, episode: Episode) returns (released: seq<Att>)
      requires Valid()
      modifies this
      ensures Valid() && Contents() == UnlinkFrom(old(Contents()), space, episode)
      ensures released == ReleasedBy(old(Contents()), space, episode)
    {
      hide LetGo, Sane, Except;
      UnlinkSane(Contents(), space, episode);
      UnlinkShape(Contents(), space, episode);
      UnlinkBytes(Contents(), space, episode);
      released := ReleasedBy(Contents(), space, episode);
      ghost var t := Contents().(links := links - {(space, episode)});
      links := links - {(space, episode)};
      var i := 0;
      LetGoNone(t, space);
      assert Members(released[..0]) == {};
      while i < |released|
        invariant i <= |released| && Contents() == LetGo(t, space, Members(released[..i]))
      {
        LetGoMore(t, space, Members(released[..i]), released[i]);
        assert Members(released[..i + 1]) == Members(released[..i]) + {released[i]};
        Drop(space, released[i]);
        i := i + 1;
      }
      assert released[..i] == released;
    }

    /** Lets go of everything a space holds; tells apart what nobody else holds. A preview changes nothing. */
    method ReleaseSpace(space: Space, preview: bool) returns (released: seq<Att>, kept: seq<Att>)
      requires Valid()
      modifies this
      ensures Valid() && Contents() == if preview then old(Contents()) else ReleaseFrom(old(Contents()), space)
      ensures Ascending(released) && Ascending(kept)
      ensures forall a :: a in released <==> a in HeldIn(old(Contents()), space) && a !in HeldBeyond(old(Contents()), space)
      ensures forall a :: a in kept <==> a in HeldIn(old(Contents()), space) && a in HeldBeyond(old(Contents()), space)
    {
      hide Sane, HeldIn, HeldBeyond, LetGo;
      ghost var t := Contents();
      var mine, beyond := HeldIn(Contents(), space), HeldBeyond(Contents(), space);
      released := Sorted(mine - beyond);
      kept := Sorted(mine * beyond);
      ReleaseSane(t, space);
      if !preview {
        assert (set a | a in released) == mine - beyond;
        links := map k | k in links && k.0 != space :: links[k];
        held := held - set a | a in mine :: (space, a);
        bytes := bytes - set a | a in released;
        ReleasedParts(t, space, held, bytes);
      }
    }
  }

  lemma UnlinkBytes(t: Store, sp: Space, e: Episode)
    ensures forall a :: a in UnlinkFrom(t, sp, e).bytes ==> a in t.bytes && UnlinkFrom(t, sp, e).bytes[a] == t.bytes[a]
  {}

  lemma ReleasedParts(t: Store, sp: Space, held: map<(Space, Att), Attachment>, bytes: map<Att, Bytes>)
    requires held == t.held - (set a | a in HeldIn(t, sp) :: (sp, a))
    requires bytes == t.bytes - (HeldIn(t, sp) - HeldBeyond(t, sp))
    ensures held == ReleaseFrom(t, sp).held && bytes == ReleaseFrom(t, sp).bytes
  {
    var n := ReleaseFrom(t, sp);
    forall k: (Space, Att) ensures k in held <==> k in n.held {
      if k in t.held && k.0 == sp { assert k.1 in HeldIn(t, sp) && k == (sp, k.1); }
    }
  }

  lemma UnlinkShape(t: Store, sp: Space, e: Episode)
    ensures UnlinkFrom(t, sp, e) == LetGo(t.(links := t.links - {(sp, e)}), sp, Members(ReleasedBy(t, sp, e)))
  {}

  lemma LetGoNone(t: Store, sp: Space)
    ensures LetGo(t, sp, {}) == t
  {}

  lemma LetGoMore(t: Store, sp: Space, gone: set<Att>, a: Att)
    ensures LetGo(LetGo(t, sp, gone), sp, {a}) == LetGo(t, sp, gone + {a})
  {
    var n, x, y := LetGo(t, sp, gone), LetGo(LetGo(t, sp, gone), sp, {a}), LetGo(t, sp, gone + {a});
    assert HeldBeyond(n, sp) == HeldBeyond(t, sp) by {
      forall b ensures b in HeldBeyond(n, sp) <==> b in HeldBeyond(t, sp) {
        if b in HeldBeyond(t, sp) { var k :| k in t.held && k.0 != sp && k.1 == b; assert k in n.held; }
      }
    }
    assert x.bytes == y.bytes && x.held == y.held;
  }

  /** Letting go of one attachment. */
  lemma BytesGone(t: Store, sp: Space, a: Att)
    ensures var n := LetGo(t, sp, {a});
      && n.held == t.held - {(sp, a)}
      && n.bytes == if exists k :: k in t.held - {(sp, a)} && k.1 == a then t.bytes else t.bytes - {a}
  {
    var held := t.held - {(sp, a)};
    if k :| k in held && k.1 == a {
      assert k.0 != sp && a in HeldBeyond(t, sp);
    } else {
      forall k | k in t.held && k.0 != sp ensures k.1 != a { assert k in held; }
    }
  }
}
