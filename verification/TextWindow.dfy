/**
 * The bounded window over a stream of text, and the reader that follows it.
 * The window is the longest end of the stream within both limits; a reader
 * accounts for every number it passes exactly once, as text or inside one gap.
 */
module TextWindow {
  import opened Prelude

  const MAX_BYTES := 65536
  const MAX_CHUNKS := 256
  const MAX_SEQUENCE := 0x7FFF_FFFF_FFFF_FFFF

  /** A text, as the bytes of its encoding. */
  type Text = seq<bv8>

  datatype Chunk = Chunk(sequence: nat, text: Text, size: nat)

  /** What a cursor leads to: a missing prefix, the next chunk, or nothing for now. */
  datatype Next = BadCursor | Gap(first: nat) | Following(chunk: Chunk) | Nothing

  function Total(texts: seq<Text>): nat
  {
    if texts == [] then 0 else |texts[0]| + Total(texts[1..])
  }

  function Last(texts: seq<Text>, k: nat): seq<Text>
    requires k <= |texts|
  {
    texts[|texts| - k..]
  }

  predicate WithinLimits(texts: seq<Text>) { Total(texts) <= MAX_BYTES && |texts| <= MAX_CHUNKS }

  /** The last `k` texts are the most that fit. */
  ghost predicate IsLongest(texts: seq<Text>, k: nat)
  {
    k <= |texts| && WithinLimits(Last(texts, k)) && forall m :: k < m <= |texts| ==> !WithinLimits(Last(texts, m))
  }

  lemma {:induction false} TotalAppend(texts: seq<Text>, t: Text)
    ensures Total(texts + [t]) == Total(texts) + |t|
  {
    if texts == [] {
      assert [] + [t] == [t] && [t][1..] == [];
    } else {
      assert (texts + [t])[1..] == texts[1..] + [t];
      TotalAppend(texts[1..], t);
    }
  }

  lemma {:induction false} LongerIsMore(texts: seq<Text>, k: nat, m: nat)
    requires k <= m <= |texts|
    ensures Total(Last(texts, k)) <= Total(Last(texts, m))
    decreases m
  {
    if k < m {
      assert Last(texts, m)[1..] == Last(texts, m - 1);
      LongerIsMore(texts, k, m - 1);
    }
  }

  /** There is only one longest end. */
  lemma LongestUnique(texts: seq<Text>, k: nat, m: nat)
    requires IsLongest(texts, k) && IsLongest(texts, m)
    ensures k == m
  {}

  /** A longer stream keeps no more of what it already dropped. */
  lemma AppendDrops(texts: seq<Text>, k: nat, t: Text, m: nat)
    requires IsLongest(texts, k) && k + 1 < m <= |texts| + 1
    ensures !WithinLimits(Last(texts + [t], m))
  {
    assert Last(texts + [t], m) == Last(texts, m - 1) + [t];
    TotalAppend(Last(texts, m - 1), t);
  }

  lemma WithinNumbers(texts: seq<Text>)
    ensures WithinLimits(texts) <==> Total(texts) <= 65536 && |texts| <= 256
  {}

  /** Nothing is evicted as long as everything fits. */
  lemma AllFit(texts: seq<Text>, k: nat)
    requires IsLongest(texts, k) && WithinLimits(texts)
    ensures k == |texts|
  {
    assert Last(texts, |texts|) == texts;
  }

  class TextWindow {
    var chunks: seq<Chunk>
    var bytes: nat
    var lastSequence: nat
    var closed: bool
    var failed: bool
    /** Every nonempty text appended so far, in order. */
    ghost var history: seq<Text>

    /** While open, the chunks are the longest end of the history that fits, numbered up to the last. */
    ghost predicate Valid()
      reads this
    {
      && |history| == lastSequence <= MAX_SEQUENCE && (failed ==> closed)
      && (forall i :: 0 <= i < |history| ==> 1 <= |history[i]| <= MAX_BYTES)
      && (closed ==> chunks == [] && bytes == 0)
      && (!closed ==> IsLongest(history, |chunks|) && bytes == Total(Last(history, |chunks|)) && Numbered(chunks, history))
    }

    constructor ()
      ensures Valid() && !closed && !failed && history == []
    {
      chunks, bytes, lastSequence, closed, failed, history := [], 0, 0, false, false, [];
    }

    /** None stands for a value that is not text, or that does not encode. False is the exception the caller sees. */
    method Append(text: Option<Text>) returns (ok: bool)
      requires Valid()
      modifies this
      ensures Valid()
      ensures ok <==> !old(closed) && text.Some? && |text.value| <= 65536 && old(lastSequence) < MAX_SEQUENCE
      ensures ok && |history| <= 256 && Total(history) <= 65536 ==> |chunks| == |history|
      ensures ok ==> !closed && history == old(history) + (if text.value == [] then [] else [text.value])
      ensures !ok ==> closed && history == old(history) && (failed <==> old(failed) || !old(closed))
    {
      hide Last, IsLongest, WithinLimits, Numbered, Total, Kept;
      if closed { return false; }
      if text.None? || |text.value| > MAX_BYTES || lastSequence == MAX_SEQUENCE {
        failed := true;
        Finish();
        return false;
      }
      var size := |text.value|;
      if size == 0 {
        if WithinLimits(history) { AllFit(history, |chunks|); }
        WithinNumbers(history);
        return true;
      }
      ghost var before := history;
      lastSequence := lastSequence + 1;
      history := history + [text.value];
      chunks := chunks + [Chunk(lastSequence, text.value, size)];
      bytes := bytes + size;
      Appended(old(chunks), old(bytes), before, text.value);
      while bytes > MAX_BYTES || |chunks| > MAX_CHUNKS
        invariant Kept(chunks, bytes, history) && history == before + [text.value] && lastSequence == |history| && !closed && !failed
        decreases |chunks|
      {
        Evict(chunks, bytes, history);
        bytes := bytes - chunks[0].size;
        chunks := chunks[1..];
      }
      Settled(chunks, bytes, history);
      if WithinLimits(history) { AllFit(history, |chunks|); }
      WithinNumbers(history);
      ok := true;
    }

    method Finish()
      requires |history| == lastSequence <= MAX_SEQUENCE && forall i :: 0 <= i < |history| ==> 1 <= |history[i]| <= MAX_BYTES
      modifies this`closed, this`chunks, this`bytes
      ensures Valid() && closed
    {
      closed, chunks, bytes := true, [], 0;
    }

    /**
     * An open window answers a cursor with the gap before its first chunk, or with exactly the chunk after the cursor.
     */
    method NextAfter(cursor: int) returns (next: Next)
      requires Valid()
      ensures next.BadCursor? <==> !(0 <= cursor <= lastSequence)
      ensures 0 <= cursor <= lastSequence && (closed || chunks == []) ==> next == Nothing
      ensures 0 <= cursor <= lastSequence && !closed && chunks != [] ==>
        next == if cursor + 1 < chunks[0].sequence then Gap(chunks[0].sequence)
                else if cursor < lastSequence then Following(Chunk(cursor + 1, history[cursor], |history[cursor]|))
                else Nothing
    {
      if !(0 <= cursor <= lastSequence) { return BadCursor; }
      if closed || chunks == [] { return Nothing; }
      if cursor + 1 < chunks[0].sequence { return Gap(chunks[0].sequence); }
      for i := 0 to |chunks|
        invariant forall k :: 0 <= k < i ==> chunks[k].sequence <= cursor
      {
        if chunks[i].sequence > cursor {
          assert i > 0 ==> chunks[i].sequence == chunks[i - 1].sequence + 1;
          assert chunks[i].text == history[chunks[i].sequence - 1];
          return Following(chunks[i]);
        }
      }
      next := Nothing;
    }
  }

  /** Chunks carry the numbers and texts of the end of a history. */
  ghost predicate Numbered(chunks: seq<Chunk>, history: seq<Text>)
  {
    && |chunks| <= |history|
    && forall i :: 0 <= i < |chunks| ==>
         chunks[i].sequence == |history| - |chunks| + 1 + i && chunks[i].text == history[|history| - |chunks| + i]
         && chunks[i].size == |chunks[i].text|
  }

  /** While evicting: everything longer than what is kept is over a limit. */
  ghost predicate Kept(chunks: seq<Chunk>, bytes: nat, history: seq<Text>)
  {
    && |chunks| <= |history| && bytes == Total(Last(history, |chunks|)) && Numbered(chunks, history)
    && forall m :: |chunks| < m <= |history| ==> !WithinLimits(Last(history, m))
  }

  lemma Appended(chunks: seq<Chunk>, bytes: nat, history: seq<Text>, t: Text)
    requires IsLongest(history, |chunks|) && bytes == Total(Last(history, |chunks|)) && Numbered(chunks, history)
    ensures Kept(chunks + [Chunk(|history| + 1, t, |t|)], bytes + |t|, history + [t])
  {
    hide WithinLimits;
    var k := |chunks|;
    assert Last(history + [t], k + 1) == Last(history, k) + [t];
    TotalAppend(Last(history, k), t);
    forall m | k + 1 < m <= |history| + 1 ensures !WithinLimits(Last(history + [t], m)) { AppendDrops(history, k, t, m); }
  }

  lemma Evict(chunks: seq<Chunk>, bytes: nat, history: seq<Text>)
    requires Kept(chunks, bytes, history) && (bytes > MAX_BYTES || |chunks| > MAX_CHUNKS)
    ensures chunks != [] && bytes >= chunks[0].size && Kept(chunks[1..], bytes - chunks[0].size, history)
  {
    var n := |chunks|;
    if n > 0 {
      assert Last(history, n)[0] == history[|history| - n] == chunks[0].text;
      assert Last(history, n)[1..] == Last(history, n - 1);
    }
  }

  lemma Settled(chunks: seq<Chunk>, bytes: nat, history: seq<Text>)
    requires Kept(chunks, bytes, history) && bytes <= MAX_BYTES && |chunks| <= MAX_CHUNKS
    ensures IsLongest(history, |chunks|) && bytes == Total(Last(history, |chunks|)) && Numbered(chunks, history)
  {}

  // ----- A reader -----

  datatype Event = Missed(after: nat, next: nat) | Text(sequence: nat, text: Text)

  /** The events lead from one cursor to another, and every text is that of its number. */
  ghost predicate Leads(events: seq<Event>, from: nat, to: nat, history: seq<Text>)
  {
    if events == [] then from == to
    else
      match events[0]
      case Missed(after, next) => after == from && from + 1 < next && Leads(events[1..], next - 1, to, history)
      case Text(sequence, text) =>
        sequence == from + 1 && sequence <= |history| && text == history[sequence - 1] && Leads(events[1..], sequence, to, history)
  }

  /** The number is one of those an event accounts for. */
  predicate Accounts(e: Event, n: nat)
  {
    match e
    case Missed(after, next) => after < n < next
    case Text(sequence, _) => n == sequence
  }

  lemma {:induction false} LeadsOn(events: seq<Event>, from: nat, to: nat, history: seq<Text>, more: seq<Text>, e: Event, next: nat)
    requires Leads(events, from, to, history) && Leads([e], to, next, history + more)
    ensures Leads(events + [e], from, next, history + more)
    decreases |events|
  {
    if events == [] {
      assert [] + [e] == [e];
    } else {
      assert (events + [e])[1..] == events[1..] + [e];
      LeadsOn(events[1..], if events[0].Missed? then events[0].next - 1 else events[0].sequence, to, history, more, e, next);
    }
  }

  lemma {:induction false} LeadsStill(events: seq<Event>, from: nat, to: nat, history: seq<Text>, more: seq<Text>)
    requires Leads(events, from, to, history)
    ensures Leads(events, from, to, history + more)
    decreases |events|
  {
    if events != [] { LeadsStill(events[1..], if events[0].Missed? then events[0].next - 1 else events[0].sequence, to, history, more); }
  }

  /** Every number the cursor has passed is accounted for by exactly one event. */
  lemma {:induction false} ExactlyOnce(events: seq<Event>, from: nat, to: nat, history: seq<Text>, n: nat)
    requires Leads(events, from, to, history)
    ensures from <= to
    ensures from < n <= to ==> exists i :: 0 <= i < |events| && Accounts(events[i], n)
    ensures forall i, k :: 0 <= i < |events| && 0 <= k < |events| && Accounts(events[i], n) && Accounts(events[k], n) ==> i == k
    ensures forall i :: 0 <= i < |events| && Accounts(events[i], n) ==> from < n <= to
    decreases |events|
  {
    if events != [] {
      var rest, mid := events[1..], if events[0].Missed? then events[0].next - 1 else events[0].sequence;
      ExactlyOnce(rest, mid, to, history, n);
      assert forall i :: 0 <= i < |rest| ==> rest[i] == events[i + 1];
      if from < n <= mid { assert Accounts(events[0], n); }
      if mid < n <= to {
        var i :| 0 <= i < |rest| && Accounts(rest[i], n);
        assert Accounts(events[i + 1], n);
      }
      forall i | 0 < i < |events| && Accounts(events[i], n) ensures mid < n { assert Accounts(rest[i - 1], n); }
    }
  }

  lemma GapLeads(events: seq<Event>, from: nat, after: nat, first: nat, history: seq<Text>)
    requires Leads(events, from, after, history) && after + 1 < first
    ensures Leads(events + [Missed(after, first)], from, first - 1, history)
  {
    assert [Missed(after, first)][1..] == [] && history + [] == history;
    LeadsOn(events, from, after, history, [], Missed(after, first), first - 1);
  }

  lemma TextLeads(events: seq<Event>, from: nat, after: nat, history: seq<Text>)
    requires Leads(events, from, after, history) && after < |history|
    ensures Leads(events + [Event.Text(after + 1, history[after])], from, after + 1, history)
  {
    var e := Event.Text(after + 1, history[after]);
    assert [e][1..] == [] && history + [] == history;
    LeadsOn(events, from, after, history, [], e, after + 1);
  }

  class Reader {
    const start: nat
    var after: nat
    ghost var events: seq<Event>

    ghost predicate Follows(w: TextWindow)
      reads this, w
    {
      w.Valid() && start <= after <= w.lastSequence && Leads(events, start, after, w.history)
    }

    constructor (cursor: nat)
      ensures start == after == cursor && events == []
    {
      start, after, events := cursor, cursor, [];
    }

    /** One turn of the output loop: reports a gap or a chunk, or has nothing to report. */
    method Turn(w: TextWindow) returns (e: Option<Event>)
      requires Follows(w)
      modifies this
      ensures Follows(w) && events == if e.Some? then old(events) + [e.value] else old(events)
      ensures e.Some? ==> after > old(after)
      ensures e.None? ==> after == old(after) && (w.closed || after == w.lastSequence)
    {
      hide Leads, IsLongest, Last, Total, WithinLimits;
      var next := w.NextAfter(after);
      match next {
        case BadCursor => assert false;
        case Nothing =>
          e := None;
          if !w.closed && w.chunks == [] { NothingKept(w.history); }
        case Gap(first) =>
          e := Some(Missed(after, first));
          GapLeads(events, start, after, first, w.history);
          events := events + [e.value];
          after := first - 1;
        case Following(chunk) =>
          e := Some(Event.Text(chunk.sequence, chunk.text));
          TextLeads(events, start, after, w.history);
          events := events + [e.value];
          after := chunk.sequence;
      }
    }
  }

  lemma OneFits(history: seq<Text>)
    requires history != [] && |history[|history| - 1]| <= MAX_BYTES
    ensures WithinLimits(Last(history, 1))
  {
    assert Last(history, 1) == [history[|history| - 1]] && Last(history, 1)[1..] == [];
  }

  /** An open window is empty only before the first text: a single text always fits. */
  lemma NothingKept(history: seq<Text>)
    requires IsLongest(history, 0) && forall i :: 0 <= i < |history| ==> |history[i]| <= MAX_BYTES
    ensures history == []
  {
    if history != [] { OneFits(history); }
  }

  datatype Move = Write(text: Option<Text>) | Close | Read

  /** A reader among any appends: each number it has passed is accounted for exactly once. */
  method Follow(w: TextWindow, r: Reader, moves: seq<Move>)
    requires r.Follows(w)
    modifies w, r
    ensures r.Follows(w) && old(w.history) <= w.history
    ensures old(r.events) <= r.events && old(r.after) <= r.after
  {
    for i := 0 to |moves|
      invariant r.Follows(w) && old(w.history) <= w.history && old(r.events) <= r.events && old(r.after) <= r.after
    {
      ghost var history := w.history;
      match moves[i] {
        case Write(text) =>
          var ok := w.Append(text);
          assert w.history == history + w.history[|history|..];
          LeadsStill(r.events, r.start, r.after, history, w.history[|history|..]);
        case Close => w.Finish();
        case Read => var e := r.Turn(w);
      }
    }
  }
}
