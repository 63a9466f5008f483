/** How a batch is cut into forwards under a cap that may change between any two (src/engine.rs). */
module Chunks {
  import opened Wrappers

  datatype Phase = Prefill | Decode

  datatype ForwardChunk = ForwardChunk(start: nat, counts: seq<nat>, seqBase: nat, finished: seq<nat>, phase: Phase)

  function Sum(s: seq<nat>): nat {
    if s == [] then 0 else Sum(s[..|s| - 1]) + s[|s| - 1]
  }

  lemma {:induction false} SumAppend(s: seq<nat>, x: nat)
    ensures Sum(s + [x]) == Sum(s) + x
  {
    assert (s + [x])[..|s|] == s;
  }

  lemma {:induction false} SumPrefix(s: seq<nat>, n: nat)
    requires n <= |s|
    ensures Sum(s[..n]) <= Sum(s)
    decreases |s|
  {
    if n < |s| {
      assert s[..|s| - 1][..n] == s[..n];
      SumPrefix(s[..|s| - 1], n);
    } else {
      assert s[..n] == s;
    }
  }

  lemma {:induction false} SumStep(s: seq<nat>, n: nat)
    requires n < |s|
    ensures Sum(s[..n + 1]) == Sum(s[..n]) + s[n]
    ensures Sum(s[..n + 1]) <= Sum(s)
  {
    assert s[..n + 1][..n] == s[..n];
    SumPrefix(s, n + 1);
  }

  /** Where the walk stands: all sequences before `at` are done, `done` tokens of sequence `at` are. */
  datatype Cursor = Cursor(at: nat, done: nat)

  predicate CursorOk(counts: seq<nat>, cur: Cursor) {
    && cur.at <= |counts|
    && (cur.at == |counts| ==> cur.done == 0)
    && (cur.at < |counts| ==> cur.done == 0 || cur.done < counts[cur.at])
  }

  /** How many tokens of sequence `i` have been handed out. */
  function Fed(counts: seq<nat>, cur: Cursor, i: nat): nat
    requires i < |counts|
  {
    if i < cur.at then counts[i] else if i == cur.at then cur.done else 0
  }

  function Start(counts: seq<nat>, cur: Cursor): nat
    requires cur.at <= |counts|
  {
    Sum(counts[..cur.at]) + cur.done
  }

  function UpTo(n: nat): (s: seq<nat>)
    ensures |s| == n && forall i | 0 <= i < n :: s[i] == i
  {
    seq(n, i => i)
  }

  lemma {:induction false} UpToStarts()
    ensures UpTo(0) == []
  {
  }

  function Room(cap: nat): nat {
    if cap == 0 then 1 else cap
  }

  /** Row `j` of a chunk carries what sequence `seqBase + j` gained, and no other sequence gained anything. */
  ghost predicate RowsAre(counts: seq<nat>, from: Cursor, to: Cursor, rows: seq<nat>) {
    && from.at + |rows| <= |counts|
    && (forall j: nat | j < |rows| ::
        Fed(counts, to, from.at + j) == Fed(counts, from, from.at + j) + rows[j])
    && (forall i: nat | from.at + |rows| <= i < |counts| :: Fed(counts, to, i) == Fed(counts, from, i))
    && to.at <= from.at + |rows| <= to.at + 1
  }

  /** A chunk and the cursor after it, from `from` under `cap`. */
  ghost predicate IsNext(counts: seq<nat>, split: nat, from: Cursor, cap: nat, chunk: ForwardChunk, to: Cursor) {
    && CursorOk(counts, from) && from.at < |counts|
    && CursorOk(counts, to)
    && chunk.seqBase == from.at && chunk.start == Start(counts, from)
    && chunk.counts != [] && RowsAre(counts, from, to, chunk.counts)
    && Start(counts, to) == chunk.start + Sum(chunk.counts)
    && (from.at < to.at || (from.at == to.at && from.done < to.done))
    && Sum(chunk.counts) <= Room(cap)
    // A chunk is cut short only where the batch ends or the decode part begins.
    && (Sum(chunk.counts) == Room(cap) || to.at == |counts| || to == Cursor(split, 0))
    && chunk.finished == UpTo(to.at - from.at)
    && chunk.phase == (if from.at < split then Prefill else Decode)
    && (from.at < split ==> from.at + |chunk.counts| <= split)
  }

  /** The cursor after `take` more tokens of its sequence. */
  function Taken(counts: seq<nat>, cur: Cursor, take: nat): Cursor
    requires CursorOk(counts, cur) && cur.at < |counts| && cur.done + take <= counts[cur.at]
  {
    if cur.done + take == counts[cur.at] then Cursor(cur.at + 1, 0) else Cursor(cur.at, cur.done + take)
  }

  lemma {:induction false} RowAdded(counts: seq<nat>, from: Cursor, cur: Cursor, rows: seq<nat>, take: nat)
    requires CursorOk(counts, from) && CursorOk(counts, cur) && cur.at < |counts|
    requires RowsAre(counts, from, cur, rows) && cur.at == from.at + |rows|
    requires cur.done + take <= counts[cur.at] && (rows != [] ==> cur.done == 0) && (rows == [] ==> cur == from)
    ensures CursorOk(counts, Taken(counts, cur, take))
    ensures RowsAre(counts, from, Taken(counts, cur, take), rows + [take])
    ensures Start(counts, Taken(counts, cur, take)) == Start(counts, cur) + take
    ensures Sum(rows + [take]) == Sum(rows) + take
  {
    hide Sum;
    SumStep(counts, cur.at);
    SumAppend(rows, take);
    var to := Taken(counts, cur, take);
    forall j: nat | j < |rows| + 1
      ensures Fed(counts, to, from.at + j) == Fed(counts, from, from.at + j) + (rows + [take])[j]
    {
      if j < |rows| {
        assert Fed(counts, cur, from.at + j) == Fed(counts, from, from.at + j) + rows[j];
      } else {
        assert Fed(counts, from, cur.at) == cur.done;
      }
    }
  }

  /** What holds inside the walk of one chunk: `rows` handed out so far, from `from` to `cur`. */
  ghost predicate Walking(counts: seq<nat>, split: nat, from: Cursor, cap: nat, cur: Cursor, rows: seq<nat>,
        finished: seq<nat>, room: nat) {
    && CursorOk(counts, from) && CursorOk(counts, cur) && from.at < |counts|
    && from.at <= cur.at
    && RowsAre(counts, from, cur, rows)
    && Start(counts, cur) == Start(counts, from) + Sum(rows)
    && Sum(rows) + room == Room(cap)
    && finished == UpTo(cur.at - from.at)
    && (rows == [] ==> cur == from && room > 0)
    && (rows != [] ==> from.at < cur.at || (from.at == cur.at && from.done < cur.done))
    && (room > 0 ==> cur.at == from.at + |rows| && (rows != [] ==> cur.done == 0))
    && (from.at < split ==> from.at + |rows| <= split)
  }

  lemma {:induction false} WalkStarts(counts: seq<nat>, split: nat, from: Cursor, cap: nat)
    requires CursorOk(counts, from) && from.at < |counts|
    ensures Walking(counts, split, from, cap, from, [], [], Room(cap))
  {
  }

  lemma {:induction false} WalkSteps(counts: seq<nat>, split: nat, from: Cursor, cap: nat, cur: Cursor, rows: seq<nat>,
        finished: seq<nat>, room: nat, take: nat)
    requires Walking(counts, split, from, cap, cur, rows, finished, room) && room > 0 && cur.at < |counts|
    requires !(cur.at == split && rows != [])
    requires take == if counts[cur.at] - cur.done < room then counts[cur.at] - cur.done else room
    ensures cur.done + take <= counts[cur.at] && take <= room
    ensures Walking(counts, split, from, cap, Taken(counts, cur, take), rows + [take],
      if cur.done + take == counts[cur.at] then finished + [|rows|] else finished, room - take)
  {
    hide Sum, Start, RowsAre, Fed;
    RowAdded(counts, from, cur, rows, take);
  }

  lemma {:induction false} WalkEnds(counts: seq<nat>, split: nat, from: Cursor, cap: nat, cur: Cursor, rows: seq<nat>,
        finished: seq<nat>, room: nat)
    requires Walking(counts, split, from, cap, cur, rows, finished, room)
    requires room == 0 || cur.at >= |counts| || (cur.at == split && rows != [])
    ensures var phase := if from.at < split then Prefill else Decode;
      IsNext(counts, split, from, cap, ForwardChunk(Start(counts, from), rows, from.at, finished, phase), cur)
    ensures CursorOk(counts, cur) && Start(counts, cur) == Start(counts, from) + Sum(rows)
  {
    hide RowsAre, Start, Sum;
  }

  lemma {:induction false} Cursors(counts: seq<nat>, split: nat, from: Cursor, cap: nat, cur: Cursor, rows: seq<nat>,
        finished: seq<nat>, room: nat)
    requires Walking(counts, split, from, cap, cur, rows, finished, room) && cur.at < |counts|
    ensures CursorOk(counts, cur) && cur.done <= counts[cur.at]
  {
    hide RowsAre, Start, Sum;
  }

  class ChunkPlanner {
    const counts: seq<nat>
    const splitAt: nat
    var at: nat
    var doneInSeq: nat
    var start: nat

    ghost predicate Valid()
      reads this
    {
      && CursorOk(counts, Cursor(at, doneInSeq))
      && start == Start(counts, Cursor(at, doneInSeq))
    }

    function Here(): Cursor
      reads this
    {
      Cursor(at, doneInSeq)
    }

    constructor (counts: seq<nat>, splitAt: nat)
      ensures Valid() && Here() == Cursor(0, 0)
      ensures this.counts == counts && this.splitAt == splitAt
    {
      this.counts := counts;
      this.splitAt := splitAt;
      at, doneInSeq, start := 0, 0, 0;
    }

    method Next(cap: nat) returns (chunk: Option<ForwardChunk>)
      requires Valid()
      modifies this
      ensures Valid()
      ensures chunk.None? <==> old(at) == |counts|
      ensures chunk.None? ==> Here() == old(Here())
      ensures chunk.Some? ==> IsNext(counts, splitAt, old(Here()), cap, chunk.value, Here())
    {
      hide Walking, Start, IsNext, Sum;
      if at >= |counts| {
        return None;
      }
      ghost var from := Here();
      var seqBase, base := at, start;
      var phase := if seqBase < splitAt then Prefill else Decode;
      var rows: seq<nat> := [];
      var finished: seq<nat> := [];
      var room: nat := if cap < 1 then 1 else cap;
      WalkStarts(counts, splitAt, from, cap);
      while at < |counts| && room > 0
        invariant Walking(counts, splitAt, from, cap, Cursor(at, doneInSeq), rows, finished, room)
        decreases |counts| - at, room
      {
        if at == splitAt && rows != [] {
          break;
        }
        var left := counts[at] - doneInSeq;
        var take := if left < room then left else room;
        Cursors(counts, splitAt, from, cap, Cursor(at, doneInSeq), rows, finished, room);
        WalkSteps(counts, splitAt, from, cap, Cursor(at, doneInSeq), rows, finished, room, take);
        rows := rows + [take];
        room := room - take;
        doneInSeq := doneInSeq + take;
        if doneInSeq == counts[at] {
          finished := finished + [|rows| - 1];
          at := at + 1;
          doneInSeq := 0;
        }
      }
      WalkEnds(counts, splitAt, from, cap, Cursor(at, doneInSeq), rows, finished, room);
      start := base + Sum(rows);
      chunk := Some(ForwardChunk(base, rows, seqBase, finished, phase));
    }
  }

  // ----- whole plans

  /** Everything the planner hands out for one batch: `cursors[k]` is where it stood before chunk `k`. */
  datatype Plan = Plan(cursors: seq<Cursor>, caps: seq<nat>, chunks: seq<ForwardChunk>)

  ghost predicate PlanOk(counts: seq<nat>, split: nat, p: Plan) {
    && |p.cursors| == |p.chunks| + 1 && |p.caps| == |p.chunks|
    && p.cursors[0] == Cursor(0, 0)
    && forall k: nat | k < |p.chunks| ::
        IsNext(counts, split, p.cursors[k], p.caps[k], p.chunks[k], p.cursors[k + 1])
  }

  /** The sequences whose logits rows the chunks contribute, in the order the rows come out. */
  function FinishedOrder(chunks: seq<ForwardChunk>): seq<nat> {
    if chunks == [] then [] else
      var c := chunks[|chunks| - 1];
      FinishedOrder(chunks[..|chunks| - 1])
      + seq(|c.finished|, j requires 0 <= j < |c.finished| => c.seqBase + c.finished[j])
  }

  /** How many tokens of sequence `i` the chunks carry. */
  function Carried(chunks: seq<ForwardChunk>, i: nat): nat {
    if chunks == [] then 0 else
      var c := chunks[|chunks| - 1];
      Carried(chunks[..|chunks| - 1], i)
      + if c.seqBase <= i < c.seqBase + |c.counts| then c.counts[i - c.seqBase] else 0
  }

  function Initial(p: Plan, k: nat): Plan
    requires k <= |p.chunks| == |p.caps| && |p.cursors| == |p.chunks| + 1
  {
    Plan(p.cursors[..k + 1], p.caps[..k], p.chunks[..k])
  }

  /** The plan stops: every chunk moves on, whatever the caps do. */
  lemma {:induction false} PlanIsBounded(counts: seq<nat>, split: nat, p: Plan)
    requires PlanOk(counts, split, p)
    ensures var last := p.cursors[|p.chunks|];
      last.at <= |counts| && |p.chunks| <= Start(counts, last) + last.at
    decreases |p.chunks|
  {
    var n := |p.chunks|;
    if n > 0 {
      hide RowsAre, Sum;
      PlanIsBounded(counts, split, Initial(p, n - 1));
      assert IsNext(counts, split, p.cursors[n - 1], p.caps[n - 1], p.chunks[n - 1], p.cursors[n]);
      Moves(counts, p.cursors[n - 1], p.cursors[n]);
    }
  }

  lemma {:induction false} Moves(counts: seq<nat>, from: Cursor, to: Cursor)
    requires from.at <= |counts| && to.at <= |counts| && Start(counts, from) <= Start(counts, to)
    requires from.at < to.at || (from.at == to.at && from.done < to.done)
    ensures Start(counts, from) + from.at + 1 <= Start(counts, to) + to.at
  {
  }

  /** What the chunks of a plan have handed out so far, under any caps. */
  lemma {:induction false} PlanPartition(counts: seq<nat>, split: nat, p: Plan)
    requires PlanOk(counts, split, p)
    ensures var last := p.cursors[|p.chunks|];
      && CursorOk(counts, last)
      && FinishedOrder(p.chunks) == UpTo(last.at)
      && (forall i: nat | i < |counts| :: Carried(p.chunks, i) == Fed(counts, last, i))
    decreases |p.chunks|
  {
    hide RowsAre, Sum, Start, UpTo, Fed;
    var n := |p.chunks|;
    if n > 0 {
      PlanPartition(counts, split, Initial(p, n - 1));
      var from, to, c := p.cursors[n - 1], p.cursors[n], p.chunks[n - 1];
      assert IsNext(counts, split, from, p.caps[n - 1], c, to);
      FinishedStep(from, to, c.finished);
      forall i: nat | i < |counts|
        ensures Carried(p.chunks, i) == Fed(counts, to, i)
      {
        RowGain(counts, from, to, c.counts, i);
      }
    } else {
      UpToStarts();
      forall i: nat | i < |counts|
        ensures Fed(counts, Cursor(0, 0), i) == 0
      {
        NothingFed(counts, i);
      }
    }
  }

  lemma {:induction false} NothingFed(counts: seq<nat>, i: nat)
    requires i < |counts|
    ensures Fed(counts, Cursor(0, 0), i) == 0
  {
  }

  /** Every chunk starts where the one before it ended. */
  lemma {:induction false} ChunksAreContiguous(counts: seq<nat>, split: nat, p: Plan, k: nat)
    requires PlanOk(counts, split, p) && k < |p.chunks|
    ensures p.chunks[k].start == if k == 0 then 0 else p.chunks[k - 1].start + Sum(p.chunks[k - 1].counts)
  {
    hide RowsAre;
    assert IsNext(counts, split, p.cursors[k], p.caps[k], p.chunks[k], p.cursors[k + 1]);
    if k > 0 {
      assert IsNext(counts, split, p.cursors[k - 1], p.caps[k - 1], p.chunks[k - 1], p.cursors[k]);
    }
  }

  lemma {:induction false} FinishedStep(from: Cursor, to: Cursor, finished: seq<nat>)
    requires from.at <= to.at && finished == UpTo(to.at - from.at)
    ensures UpTo(from.at) + seq(|finished|, j requires 0 <= j < |finished| => from.at + finished[j]) == UpTo(to.at)
  {
  }

  lemma {:induction false} RowGain(counts: seq<nat>, from: Cursor, to: Cursor, rows: seq<nat>, i: nat)
    requires RowsAre(counts, from, to, rows) && i < |counts| && from.at <= to.at
    ensures Fed(counts, to, i)
         == Fed(counts, from, i) + if from.at <= i < from.at + |rows| then rows[i - from.at] else 0
  {
    if from.at <= i < from.at + |rows| {
      var j: nat := i - from.at;
      assert Fed(counts, to, from.at + j) == Fed(counts, from, from.at + j) + rows[j];
    }
  }

  /** A chunk stays under its cap and on one side of the split between prefills and decodes. */
  predicate OnePhase(split: nat, cap: nat, c: ForwardChunk) {
    && 1 <= |c.counts| && Sum(c.counts) <= Room(cap)
    && (c.phase.Prefill? ==> c.seqBase + |c.counts| <= split)
    && (c.phase.Decode? ==> split <= c.seqBase)
  }

  /** Theorem: a finished plan carries every sequence once and yields its rows in batch order. */
  lemma {:induction false} FinishedPlan(counts: seq<nat>, split: nat, p: Plan)
    requires PlanOk(counts, split, p) && p.cursors[|p.chunks|].at == |counts|
    ensures FinishedOrder(p.chunks) == UpTo(|counts|)
    ensures forall i: nat | i < |counts| :: Carried(p.chunks, i) == counts[i]
    ensures |p.chunks| <= Sum(counts) + |counts|
    ensures p.chunks != [] ==>
      var c := p.chunks[|p.chunks| - 1];
      c.start + Sum(c.counts) == Sum(counts)
    ensures forall k: nat | k < |p.chunks| :: OnePhase(split, p.caps[k], p.chunks[k])
  {
    hide RowsAre, Sum;
    PlanPartition(counts, split, p);
    PlanIsBounded(counts, split, p);
    assert counts[..|counts|] == counts;
    forall k: nat | k < |p.chunks|
      ensures OnePhase(split, p.caps[k], p.chunks[k])
    {
      assert IsNext(counts, split, p.cursors[k], p.caps[k], p.chunks[k], p.cursors[k + 1]);
    }
    var n := |p.chunks|;
    if n > 0 {
      assert IsNext(counts, split, p.cursors[n - 1], p.caps[n - 1], p.chunks[n - 1], p.cursors[n]);
    }
  }
}
