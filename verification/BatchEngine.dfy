/** One engine step: prefix reuse, the batched forwards and the sampling that follows (src/engine.rs). */
module BatchEngine {
  import opened Chunks
  import opened PagedPools
  import opened PrefixCaches
  import opened SequenceStates
  import opened SharedBlocks
  import opened Wrappers

  const CHUNK_MAX: nat := 1024
  const CHUNK_CEILING: real := 3.0

  /** Tokens per forward, climbed while throughput improves. */
  class PrefillPacer {
    var cap: nat
    var best: Option<(nat, real)>
    var settled: bool

    /** The cap never leaves 16 to 1024, so a chunk always has room. */
    predicate Valid()
      reads this
    {
      && 16 <= cap <= CHUNK_MAX
      && (best.Some? ==> 16 <= best.value.0 <= CHUNK_MAX)
    }

    constructor ()
      ensures Valid()
    {
      cap, best, settled := 512, None, false;
    }

    method Observe(tokens: nat, elapsed: real)
      requires Valid() && tokens <= cap
      modifies this
      ensures Valid()
      ensures old(settled) ==> settled && cap == old(cap)
      ensures cap != old(cap) ==> cap > old(cap) || settled
    {
      if tokens < cap || settled {
        return;
      }
      var rate := tokens as real / (if elapsed < 0.000000001 then 0.000000001 else elapsed);
      if best.Some? && rate <= best.value.1 * 1.05 {
        cap := best.value.0;
        settled := true;
      } else {
        best := Some((tokens, rate));
        if elapsed >= CHUNK_CEILING || cap >= CHUNK_MAX {
          settled := true;
        } else {
          cap := if cap * 2 < CHUNK_MAX then cap * 2 else CHUNK_MAX;
        }
      }
    }

    method Shrink() returns (shrunk: bool)
      requires Valid()
      modifies this
      ensures Valid()
      ensures shrunk <==> old(cap) > 32
      ensures if shrunk then cap == old(cap) / 2 && settled else cap == old(cap)
    {
      if cap <= 32 {
        return false;
      }
      cap := cap / 2;
      best := None;
      settled := true;
      return true;
    }
  }

  // ----- the batched model

  /** The tokens of sequence `i` in the flattened batch. */
  function Part(counts: seq<nat>, slots: seq<Slot>, i: nat): (p: seq<Slot>)
    requires i < |counts| && |slots| == Sum(counts)
    ensures |p| == counts[i]
  {
    SumStep(counts, i);
    slots[Sum(counts[..i])..Sum(counts[..i + 1])]
  }

  /** Each cache takes the tokens of its own row of the input. */
  function Extended(caches: seq<seq<Slot>>, slots: seq<Slot>, counts: seq<nat>): (next: seq<seq<Slot>>)
    requires |caches| == |counts| && |slots| == Sum(counts)
    ensures |next| == |caches|
  {
    seq(|caches|, j requires 0 <= j < |caches| => caches[j] + Part(counts, slots, j))
  }

  /** The caches of a chunk's sequences after its forward. */
  function MovedRows(now: seq<seq<Slot>>, slots: seq<Slot>, c: ForwardChunk): (moved: seq<seq<Slot>>)
    requires c.start + Sum(c.counts) <= |slots| && c.seqBase + |c.counts| <= |now|
    ensures |moved| == |c.counts|
  {
    Extended(now[c.seqBase..c.seqBase + |c.counts|], slots[c.start..c.start + Sum(c.counts)], c.counts)
  }

  /** All caches after a chunk's forward. */
  function NextCaches(now: seq<seq<Slot>>, slots: seq<Slot>, c: ForwardChunk): (next: seq<seq<Slot>>)
    requires c.start + Sum(c.counts) <= |slots| && c.seqBase + |c.counts| <= |now|
    ensures |next| == |now|
  {
    now[..c.seqBase] + MovedRows(now, slots, c) + now[c.seqBase + |c.counts|..]
  }

  function Zip(tokens: seq<nat>, positions: seq<nat>): (s: seq<Slot>)
    requires |tokens| == |positions|
    ensures |s| == |tokens|
  {
    seq(|tokens|, i requires 0 <= i < |tokens| => Slot(tokens[i], positions[i]))
  }

  /** How far each sequence's cache has come when the planner stands at `cur`. */
  function CachesAt(counts: seq<nat>, slots: seq<Slot>, caches: seq<seq<Slot>>, cur: Cursor): (next: seq<seq<Slot>>)
    requires |caches| == |counts| && |slots| == Sum(counts) && CursorOk(counts, cur)
    ensures |next| == |caches|
  {
    seq(|caches|, i requires 0 <= i < |caches| => caches[i] + Part(counts, slots, i)[..Fed(counts, cur, i)])
  }

  function RowsAt<P, C>(env: Env<P, C>, counts: seq<nat>, slots: seq<Slot>, caches: seq<seq<Slot>>,
        n: nat): (rows: seq<seq<real>>)
    requires |caches| == |counts| && |slots| == Sum(counts) && n <= |counts|
    ensures |rows| == n
  {
    seq(n, i requires 0 <= i < n => env.logits(caches[i] + Part(counts, slots, i)))
  }

  lemma {:induction false} RowOffset(counts: seq<nat>, split: nat, from: Cursor, cap: nat, chunk: ForwardChunk,
        to: Cursor, j: nat)
    requires IsNext(counts, split, from, cap, chunk, to) && j < |chunk.counts|
    ensures chunk.start + Sum(chunk.counts[..j]) == Sum(counts[..from.at + j]) + Fed(counts, from, from.at + j)
  {
    hide Sum, CursorOk;
    if j == 0 {
      SumOfNone(chunk.counts);
    } else {
      RowOffset(counts, split, from, cap, chunk, to, j - 1);
      SumStep(chunk.counts, j - 1);
      SumStep(counts, from.at + j - 1);
      assert Fed(counts, to, from.at + (j - 1)) == Fed(counts, from, from.at + (j - 1)) + chunk.counts[j - 1];
    }
  }

  lemma {:induction false} SumOfNone(s: seq<nat>)
    ensures Sum(s[..0]) == 0
  {
  }

  /** Row `j` of a chunk's input is the next stretch of its sequence's tokens. */
  lemma {:induction false} RowTokens(counts: seq<nat>, slots: seq<Slot>, split: nat, from: Cursor, cap: nat,
        chunk: ForwardChunk, to: Cursor, j: nat)
    requires IsNext(counts, split, from, cap, chunk, to) && j < |chunk.counts| && |slots| == Sum(counts)
    requires chunk.start + Sum(chunk.counts) <= |slots|
    ensures var i := from.at + j;
      && Fed(counts, from, i) <= Fed(counts, to, i) <= counts[i]
      && Part(chunk.counts, slots[chunk.start..chunk.start + Sum(chunk.counts)], j)
         == Part(counts, slots, i)[Fed(counts, from, i)..Fed(counts, to, i)]
  {
    hide Sum, CursorOk;
    var i := from.at + j;
    RowOffset(counts, split, from, cap, chunk, to, j);
    SumStep(chunk.counts, j);
    SumStep(counts, i);
    assert Fed(counts, to, from.at + j) == Fed(counts, from, from.at + j) + chunk.counts[j];
    FedIsBounded(counts, from, i);
    FedIsBounded(counts, to, i);
    var f, t := Fed(counts, from, i), Fed(counts, to, i);
    SliceOfSlice(slots, chunk.start, chunk.start + Sum(chunk.counts), Sum(chunk.counts[..j]),
      Sum(chunk.counts[..j + 1]));
    SliceOfSlice(slots, Sum(counts[..i]), Sum(counts[..i + 1]), f, t);
  }

  lemma {:induction false} SliceOfSlice<T>(s: seq<T>, a: nat, b: nat, c: nat, d: nat)
    requires a <= b <= |s| && c <= d <= b - a
    ensures s[a..b][c..d] == s[a + c..a + d]
  {
    var x, y := s[a..b][c..d], s[a + c..a + d];
    assert |x| == |y|;
    forall k: nat | k < |x|
      ensures x[k] == y[k]
    {
      assert x[k] == s[a..b][c + k];
    }
  }

  lemma {:induction false} FedIsBounded(counts: seq<nat>, cur: Cursor, i: nat)
    requires CursorOk(counts, cur) && i < |counts|
    ensures Fed(counts, cur, i) <= counts[i]
    ensures i < cur.at ==> Fed(counts, cur, i) == counts[i]
  {
  }

  /** One forward takes the caches from where the planner stood to where it stands. */
  lemma {:induction false} ForwardAdvances(counts: seq<nat>, slots: seq<Slot>, caches: seq<seq<Slot>>, split: nat,
        from: Cursor, cap: nat, chunk: ForwardChunk, to: Cursor)
    requires IsNext(counts, split, from, cap, chunk, to)
    requires |caches| == |counts| && |slots| == Sum(counts)
    ensures chunk.start + Sum(chunk.counts) <= |slots| && chunk.seqBase + |chunk.counts| <= |caches|
    ensures NextCaches(CachesAt(counts, slots, caches, from), slots, chunk) == CachesAt(counts, slots, caches, to)
  {
    ChunkFits(counts, slots, split, from, cap, chunk, to);
    hide *;
    var before, after := CachesAt(counts, slots, caches, from), CachesAt(counts, slots, caches, to);
    forall i: nat | i < |counts|
      ensures after[i] == MovedTo(before, slots, chunk, i)
    {
      RowAdvances(counts, slots, caches, split, from, cap, chunk, to, i);
    }
    NextCachesAre(before, slots, chunk, after);
  }

  /** Where sequence `i`'s cache stands after a chunk's forward. */
  function MovedTo(now: seq<seq<Slot>>, slots: seq<Slot>, c: ForwardChunk, i: nat): seq<Slot>
    requires c.start + Sum(c.counts) <= |slots| && c.seqBase + |c.counts| <= |now| && i < |now|
  {
    if c.seqBase <= i < c.seqBase + |c.counts| then MovedRows(now, slots, c)[i - c.seqBase] else now[i]
  }

  lemma {:induction false} NextCachesAre(now: seq<seq<Slot>>, slots: seq<Slot>, c: ForwardChunk, after: seq<seq<Slot>>)
    requires c.start + Sum(c.counts) <= |slots| && c.seqBase + |c.counts| <= |now| == |after|
    requires forall i: nat | i < |after| :: after[i] == MovedTo(now, slots, c, i)
    ensures NextCaches(now, slots, c) == after
  {
    hide Sum, MovedRows;
    Spliced(now, MovedRows(now, slots, c), after, c.seqBase);
  }

  lemma {:induction false} ChunkFits(counts: seq<nat>, slots: seq<Slot>, split: nat, from: Cursor, cap: nat,
        chunk: ForwardChunk, to: Cursor)
    requires IsNext(counts, split, from, cap, chunk, to) && |slots| == Sum(counts)
    ensures CursorOk(counts, from) && CursorOk(counts, to)
    ensures chunk.start + Sum(chunk.counts) <= |slots| && chunk.seqBase + |chunk.counts| <= |counts|
  {
    hide Sum, Fed, CursorOk, Start;
    StartInside(counts, to);
  }

  lemma {:induction false} RowAdvances(counts: seq<nat>, slots: seq<Slot>, caches: seq<seq<Slot>>, split: nat,
        from: Cursor, cap: nat, chunk: ForwardChunk, to: Cursor, i: nat)
    requires IsNext(counts, split, from, cap, chunk, to) && i < |counts|
    requires |caches| == |counts| && |slots| == Sum(counts) && chunk.start + Sum(chunk.counts) <= |slots|
    requires CursorOk(counts, from) && CursorOk(counts, to) && chunk.seqBase + |chunk.counts| <= |counts|
    ensures CachesAt(counts, slots, caches, to)[i] == MovedTo(CachesAt(counts, slots, caches, from), slots, chunk, i)
  {
    hide Sum, Part, Fed, CursorOk, Start;
    if chunk.seqBase <= i < chunk.seqBase + |chunk.counts| {
      RowTokens(counts, slots, split, from, cap, chunk, to, i - chunk.seqBase);
      Longer(caches[i], Part(counts, slots, i), Fed(counts, from, i), Fed(counts, to, i));
    } else {
      Untouched(counts, from, to, chunk.counts, i);
    }
  }

  lemma {:induction false} Longer<T>(c: seq<T>, p: seq<T>, f: nat, t: nat)
    requires f <= t <= |p|
    ensures c + p[..t] == (c + p[..f]) + p[f..t]
  {
  }

  lemma {:induction false} Untouched(counts: seq<nat>, from: Cursor, to: Cursor, rows: seq<nat>, i: nat)
    requires RowsAre(counts, from, to, rows) && from.at <= to.at
    requires i < |counts| && !(from.at <= i < from.at + |rows|)
    ensures Fed(counts, to, i) == Fed(counts, from, i)
  {
  }

  lemma {:induction false} Spliced<T>(before: seq<T>, moved: seq<T>, after: seq<T>, b: nat)
    requires b + |moved| <= |before| == |after|
    requires forall i: nat | i < |after| :: after[i] == if b <= i < b + |moved| then moved[i - b] else before[i]
    ensures before[..b] + moved + before[b + |moved|..] == after
  {
  }

  lemma {:induction false} StartInside(counts: seq<nat>, cur: Cursor)
    requires CursorOk(counts, cur)
    ensures Start(counts, cur) <= Sum(counts)
  {
    if cur.at < |counts| {
      SumStep(counts, cur.at);
    } else {
      assert counts[..cur.at] == counts;
    }
  }

  // ----- the forwards of one batch

  /** What the outside decides while a batch runs: how long chunk `k` takes and whether it fails. */
  datatype Weather = Weather(elapsed: nat -> real, fails: nat -> bool)

  /** Every cache holds what it held and a prefix of its own tokens. */
  ghost predicate Partly(counts: seq<nat>, slots: seq<Slot>, caches: seq<seq<Slot>>, now: seq<seq<Slot>>)
    requires |caches| == |counts| && |slots| == Sum(counts)
  {
    && |now| == |caches|
    && exists cur :: CursorOk(counts, cur) && now == CachesAt(counts, slots, caches, cur)
  }

  /** One forward: every row of the chunk is appended to its sequence's tables and cache. */
  method RunChunk<P, C>(env: Env<P, C>, now: seq<seq<Slot>>, slots: seq<Slot>, c: ForwardChunk, split: nat,
        prefix: PrefixCache, allocs: seq<BlockAllocator>, tables: seq<PagedCache>, ghost outside: seq<multiset<nat>>)
    returns (ok: bool, next: seq<seq<Slot>>, finished: seq<seq<real>>)
    requires |tables| == |now| && Carrying(prefix, allocs, tables, outside, split, now)
    requires c.start + Sum(c.counts) <= |slots| && c.seqBase + |c.counts| <= |now|
    requires |c.finished| <= |c.counts| && forall j | 0 <= j < |c.finished| :: c.finished[j] == j
    modifies tables, allocs
    ensures Sound(prefix, allocs, LayersOf(tables), outside)
    ensures ok ==> Carrying(prefix, allocs, tables, outside, split, next)
    ensures ok ==> next == NextCaches(now, slots, c)
    ensures ok ==> |finished| == |c.finished| && AreLogits(env, MovedRows(now, slots, c), finished)
  {
    hide Carrying, Sum, Part, Extended, SharedBlocks.Advanced, Sound, LayersOf;
    var b, n := c.seqBase, |c.counts|;
    var input := slots[c.start..c.start + Sum(c.counts)];
    var parts := seq(n, j requires 0 <= j < n => Part(c.counts, input, j));
    ok := AppendRows(prefix, allocs, tables, b, parts, split, outside, now);
    if !ok {
      return false, now, [];
    }
    AdvancedIsExtended(now, b, parts, input, c.counts);
    var moved := Extended(now[b..b + n], input, c.counts);
    var last := seq(n, j requires 0 <= j < n => env.logits(moved[j]));
    next := now[..b] + moved + now[b + n..];
    finished := seq(|c.finished|, j requires 0 <= j < |c.finished| => last[c.finished[j]]);
  }

  method RunChunks<P, C>(env: Env<P, C>, caches: seq<seq<Slot>>, slots: seq<Slot>, counts: seq<nat>, split: nat,
        prefix: PrefixCache, allocs: seq<BlockAllocator>, tables: seq<PagedCache>, ghost outside: seq<multiset<nat>>,
        pacer: PrefillPacer, weather: Weather)
    returns (rows: Option<seq<seq<real>>>, now: seq<seq<Slot>>)
    requires pacer.Valid() && |tables| == |caches| == |counts| && |slots| == Sum(counts)
    requires Carrying(prefix, allocs, tables, outside, split, caches)
    modifies pacer, tables, allocs
    ensures pacer.Valid() && Sound(prefix, allocs, LayersOf(tables), outside)
    ensures rows.Some? ==> Carrying(prefix, allocs, tables, outside, split, now)
    ensures Partly(counts, slots, caches, now)
    ensures rows.Some? ==> now == Extended(caches, slots, counts)
    ensures rows.Some? ==> rows.value == RowsAt(env, counts, slots, caches, |counts|)
  {
    hide IsNext, Part, Start, Sum, CursorOk, CachesAt, RowsAt, Left, Carrying, LayersOf, Extended, Sound, MovedRows,
      NextCaches, AreLogits;
    var planner := new ChunkPlanner(counts, split);
    var out: seq<seq<real>> := [];
    now := caches;
    var k := 0;
    AtTheStart(env, counts, slots, caches);
    CarryingIsSound(prefix, allocs, tables, outside, split, now);
    while true
      invariant pacer.Valid() && planner.Valid() && fresh(planner)
      invariant planner.counts == counts && planner.splitAt == split
      invariant CursorOk(counts, planner.Here())
      invariant now == CachesAt(counts, slots, caches, planner.Here())
      invariant planner.at <= |counts|
      invariant out == RowsAt(env, counts, slots, caches, planner.at)
      invariant Carrying(prefix, allocs, tables, outside, split, now)
      invariant Sound(prefix, allocs, LayersOf(tables), outside)
      decreases |counts| - planner.at, Left(counts, planner.Here())
    {
      ghost var from := planner.Here();
      var cap := pacer.cap;
      var chunk := planner.Next(cap);
      if chunk.None? {
        break;
      }
      var c := chunk.value;
      ghost var to := planner.Here();
      NextFacts(counts, split, from, cap, c, to);
      ForwardAdvances(counts, slots, caches, split, from, cap, c, to);
      var ok, next, finished := false, now, [];
      if !weather.fails(k) {
        ok, next, finished := RunChunk(env, now, slots, c, split, prefix, allocs, tables, outside);
      }
      if !ok {
        var _ := pacer.Shrink();
        return None, now;
      }
      RowsFinish(env, counts, slots, caches, split, from, cap, c, to, finished);
      now := next;
      out := out + finished;
      if Sum(c.counts) > |c.counts| {
        pacer.Observe(Sum(c.counts), weather.elapsed(k));
      }
      k := k + 1;
    }
    AtTheEnd(counts, slots, caches, planner.Here());
    rows := Some(out);
  }

  lemma {:induction false} CarryingIsSound(prefix: PrefixCache, allocs: seq<BlockAllocator>, tables: seq<PagedCache>,
        outside: seq<multiset<nat>>, split: nat, now: seq<seq<Slot>>)
    requires Carrying(prefix, allocs, tables, outside, split, now)
    ensures Sound(prefix, allocs, LayersOf(tables), outside)
  {
  }

  /** What the tables were given is what the caches took. */
  lemma {:induction false} AdvancedIsExtended(now: seq<seq<Slot>>, b: nat, parts: seq<seq<Slot>>, input: seq<Slot>,
        counts: seq<nat>)
    requires |input| == Sum(counts) && |parts| == |counts| && b + |parts| <= |now|
    requires forall j: nat | j < |parts| :: parts[j] == Part(counts, input, j)
    ensures SharedBlocks.Advanced(now, b, parts, |parts|)
      == now[..b] + Extended(now[b..b + |parts|], input, counts) + now[b + |parts|..]
  {
    hide Part, Sum;
  }

  /** Tokens of the current sequence still to be fed. */
  ghost function Left(counts: seq<nat>, cur: Cursor): nat
    requires CursorOk(counts, cur)
  {
    if cur.at < |counts| then counts[cur.at] - cur.done else 0
  }

  lemma {:induction false} NextFacts(counts: seq<nat>, split: nat, from: Cursor, cap: nat, c: ForwardChunk, to: Cursor)
    requires IsNext(counts, split, from, cap, c, to)
    ensures CursorOk(counts, from) && CursorOk(counts, to) && from.at <= to.at <= |counts|
    ensures c.seqBase == from.at && |c.finished| == to.at - from.at && to.at - from.at <= |c.counts|
    ensures forall j: nat | j < |c.finished| :: c.finished[j] == j
    ensures Sum(c.counts) <= Room(cap)
    ensures from.at < to.at || (from.at == to.at && Left(counts, to) < Left(counts, from))
  {
    hide Sum, Start;
  }

  lemma {:induction false} AtTheStart<P, C>(env: Env<P, C>, counts: seq<nat>, slots: seq<Slot>, caches: seq<seq<Slot>>)
    requires |caches| == |counts| && |slots| == Sum(counts)
    ensures CursorOk(counts, Cursor(0, 0)) && caches == CachesAt(counts, slots, caches, Cursor(0, 0))
    ensures RowsAt(env, counts, slots, caches, 0) == []
  {
    hide Part, Sum;
    var now := CachesAt(counts, slots, caches, Cursor(0, 0));
    forall i: nat | i < |counts|
      ensures now[i] == caches[i]
    {
      NothingFed(counts, i);
      assert Part(counts, slots, i)[..0] == [];
    }
  }

  lemma {:induction false} AtTheEnd(counts: seq<nat>, slots: seq<Slot>, caches: seq<seq<Slot>>, cur: Cursor)
    requires |caches| == |counts| && |slots| == Sum(counts) && CursorOk(counts, cur) && cur.at == |counts|
    ensures CachesAt(counts, slots, caches, cur) == Extended(caches, slots, counts)
  {
    hide Part, Sum;
    var a, b := CachesAt(counts, slots, caches, cur), Extended(caches, slots, counts);
    forall i: nat | i < |counts|
      ensures a[i] == b[i]
    {
      var p := Part(counts, slots, i);
      FedIsBounded(counts, cur, i);
      assert p[..|p|] == p;
    }
  }

  /** The rows are the model's over the first of these histories. */
  ghost predicate AreLogits<P, C>(env: Env<P, C>, histories: seq<seq<Slot>>, rows: seq<seq<real>>) {
    |rows| <= |histories| && forall j | 0 <= j < |rows| :: rows[j] == env.logits(histories[j])
  }

  /** The rows a chunk contributes are those of the sequences that end in it, each over its whole history. */
  lemma {:induction false} RowsFinish<P, C>(env: Env<P, C>, counts: seq<nat>, slots: seq<Slot>, caches: seq<seq<Slot>>,
        split: nat, from: Cursor, cap: nat, c: ForwardChunk, to: Cursor, finished: seq<seq<real>>)
    requires |caches| == |counts| && |slots| == Sum(counts) && IsNext(counts, split, from, cap, c, to)
    requires c.start + Sum(c.counts) <= |slots| && c.seqBase + |c.counts| <= |counts| && from.at <= to.at <= |counts|
    requires NextCaches(CachesAt(counts, slots, caches, from), slots, c) == CachesAt(counts, slots, caches, to)
    requires |finished| == to.at - from.at
    requires AreLogits(env, MovedRows(CachesAt(counts, slots, caches, from), slots, c), finished)
    ensures RowsAt(env, counts, slots, caches, from.at) + finished == RowsAt(env, counts, slots, caches, to.at)
  {
    hide Part, Sum, Start, RowsAre, MovedRows;
    var after := CachesAt(counts, slots, caches, to);
    var moved := MovedRows(CachesAt(counts, slots, caches, from), slots, c);
    forall j: nat | j < |finished|
      ensures moved[j] == caches[from.at + j] + Part(counts, slots, from.at + j)
    {
      var i := from.at + j;
      var p := Part(counts, slots, i);
      assert after[i] == moved[j];
      FedIsBounded(counts, to, i);
      assert p[..|p|] == p;
    }
  }

  // ----- building the batch

  /** What the prefix cache spares a prefill; at least one token is always left to run. */
  datatype PrefillInfo = PrefillInfo(numCachedTokens: nat, numCachedBlocks: nat, numFullBlocksTotal: nat,
    uncachedLen: nat, inputTokens: seq<nat>)

  function InfoOf(tokens: seq<nat>, matched: nat, blockSize: nat): (info: PrefillInfo)
    requires blockSize > 0
    ensures info.numCachedTokens <= |tokens| && (tokens != [] ==> info.numCachedTokens < |tokens|)
    ensures info.inputTokens == tokens[info.numCachedTokens..] && info.uncachedLen == |info.inputTokens|
  {
    var maxCacheable := (if |tokens| == 0 then 0 else |tokens| - 1) / blockSize;
    var blocks := if matched > maxCacheable then maxCacheable else matched;
    var cached := blocks * blockSize;
    BlocksFit(blocks, blockSize, if |tokens| == 0 then 0 else |tokens| - 1);
    PrefillInfo(cached, blocks, |tokens| / blockSize, |tokens| - cached, tokens[cached..])
  }

  lemma {:induction false} BlocksFit(blocks: nat, size: nat, len: nat)
    requires size > 0 && blocks <= len / size
    ensures blocks * size <= len
  {
    var q := len / size;
    assert q * size <= len;
    var d := q - blocks;
    assert q * size == blocks * size + d * size;
  }

  /** Theorem: of `matched` whole blocks all are reused that leave at least one token to run; every full block of the
      prompt is counted. */
  lemma {:induction false} ReuseIsLongest(tokens: seq<nat>, matched: nat, size: nat, blocks: nat)
    requires size > 0 && tokens != []
    ensures var info := InfoOf(tokens, matched, size);
      && info.numCachedTokens == info.numCachedBlocks * size
      && (blocks <= info.numCachedBlocks <==> blocks <= matched && blocks * size < |tokens|)
      && (blocks <= info.numFullBlocksTotal <==> blocks * size <= |tokens|)
  {
    FitsBlocks(|tokens| - 1, size, blocks);
    FitsBlocks(|tokens|, size, blocks);
  }

  lemma {:induction false} FitsBlocks(n: nat, size: nat, blocks: nat)
    requires size > 0
    ensures blocks <= n / size <==> blocks * size <= n
  {
    var q := n / size;
    Divided(n, size);
    if q < blocks {
      SmallerQuotient(q, n % size, blocks, 0, size);
    } else if blocks < q {
      SmallerQuotient(blocks, 0, q, 0, size);
    }
  }

  /** What sequence `i` of the batch is fed: an uncached suffix at its own positions, or its last token. */
  function PrefillInput(info: PrefillInfo): (s: seq<Slot>)
    ensures |s| == |info.inputTokens|
  {
    seq(|info.inputTokens|,
      i requires 0 <= i < |info.inputTokens| => Slot(info.inputTokens[i], info.numCachedTokens + i))
  }

  function Flat(inputs: seq<seq<Slot>>): seq<Slot> {
    if inputs == [] then [] else Flat(inputs[..|inputs| - 1]) + inputs[|inputs| - 1]
  }

  function Counts(inputs: seq<seq<Slot>>): (counts: seq<nat>)
    ensures |counts| == |inputs|
  {
    seq(|inputs|, i requires 0 <= i < |inputs| => |inputs[i]|)
  }

  lemma {:induction false} FlatLength(inputs: seq<seq<Slot>>)
    ensures |Flat(inputs)| == Sum(Counts(inputs))
  {
    if inputs != [] {
      var init := inputs[..|inputs| - 1];
      FlatLength(init);
      assert Counts(inputs)[..|init|] == Counts(init);
    }
  }

  lemma {:induction false} FlatGrows(inputs: seq<seq<Slot>>, x: seq<Slot>)
    ensures Flat(inputs + [x]) == Flat(inputs) + x
    ensures Counts(inputs + [x]) == Counts(inputs) + [|x|]
  {
    assert (inputs + [x])[..|inputs|] == inputs;
  }

  /** Flattening keeps every sequence's tokens where the counts say they are. */
  lemma {:induction false} PartOfFlat(inputs: seq<seq<Slot>>, i: nat)
    requires i < |inputs|
    ensures |Flat(inputs)| == Sum(Counts(inputs))
    ensures Part(Counts(inputs), Flat(inputs), i) == inputs[i]
    decreases |inputs|
  {
    hide Sum;
    FlatLength(inputs);
    var n := |inputs| - 1;
    var init := inputs[..n];
    FlatLength(init);
    var counts, shorter := Counts(inputs), Counts(init);
    assert counts[..n] == shorter;
    SumStep(counts, i);
    if i < n {
      PartOfFlat(init, i);
      SumStep(shorter, i);
      assert counts[..i] == shorter[..i] && counts[..i + 1] == shorter[..i + 1];
      assert Flat(inputs) == Flat(init) + inputs[n];
    } else {
      assert counts[..n + 1] == counts;
      assert Flat(inputs) == Flat(init) + inputs[n];
    }
  }

  ghost predicate Distinct<P, C>(seqs: seq<SequenceState<P, C>>) {
    forall i, j | 0 <= i < j < |seqs| :: seqs[i] != seqs[j]
  }

  /** A prompt about to be prefilled, with nothing cached yet. */
  predicate Fresh<P, C>(s: Sequence<P, C>) {
    s.phase == Prefill && s.tokens != [] && s.cache == []
  }

  /** What a prefill's cache holds once the matched blocks are in it. */
  function Prepopulated(tokens: seq<nat>, matched: nat, blockSize: nat): seq<Slot>
    requires blockSize > 0
  {
    Slots(tokens[..InfoOf(tokens, matched, blockSize).numCachedTokens])
  }

  lemma {:induction false} NoBlocksNoSlots(tokens: seq<nat>, matched: nat, blockSize: nat)
    requires blockSize > 0 && InfoOf(tokens, matched, blockSize).numCachedBlocks == 0
    ensures Prepopulated(tokens, matched, blockSize) == []
  {
  }

  function Planned<P, C>(v: Sequence<P, C>, matched: nat, blockSize: nat): Sequence<P, C>
    requires blockSize > 0
  {
    v.(cache := Prepopulated(v.tokens, matched, blockSize))
  }

  ghost function Values<P, C>(seqs: seq<SequenceState<P, C>>): (vs: seq<Sequence<P, C>>)
    reads seqs
    ensures |vs| == |seqs| && forall i | 0 <= i < |seqs| :: vs[i] == seqs[i].Value()
  {
    seq(|seqs|, i requires 0 <= i < |seqs| reads seqs => seqs[i].Value())
  }

  /** The batch after planning; the first `|matched|` sequences are the prefills. */
  function PlannedAll<P, C>(vs: seq<Sequence<P, C>>, matched: seq<nat>, blockSize: nat): (next: seq<Sequence<P, C>>)
    requires blockSize > 0
    ensures |next| == |vs|
  {
    seq(|vs|, i requires 0 <= i < |vs| => if i < |matched| then Planned(vs[i], matched[i], blockSize) else vs[i])
  }

  function InfosOf<P, C>(vs: seq<Sequence<P, C>>, matched: seq<nat>, blockSize: nat): (infos: seq<PrefillInfo>)
    requires blockSize > 0 && |matched| <= |vs|
    ensures |infos| == |matched|
  {
    seq(|matched|, i requires 0 <= i < |matched| => InfoOf(vs[i].tokens, matched[i], blockSize))
  }

  /** No registered prefix is confusable with a prefix of the prompt. */
  ghost predicate Foreseen(prefix: PrefixCache, tokens: seq<nat>)
    reads prefix`log
  {
    forall r | r in prefix.log :: Distinguishes(prefix.chain, prefix.size, r.prefix, tokens)
  }

  /** No registered prefix is confusable with a prefix of the prompts to be prefilled. */
  ghost predicate AllForeseen(prefix: PrefixCache, prompts: seq<seq<nat>>, n: nat)
    reads prefix`log
  {
    n <= |prompts| && forall i | 0 <= i < n :: Foreseen(prefix, prompts[i])
  }

  /** Any layer reads back what every layer holds. */
  lemma {:induction false} FilledReads(ps: seq<Pool>, ts: seq<Table>, slots: seq<Slot>, size: nat)
    requires size > 0 && FilledAll(ps, ts, slots, size)
    ensures forall l | 0 <= l < |ps| :: Gathered(ps[l].data, ts[l], size) == slots
  {
    hide Stored, Gathered;
    forall l: nat | l < |ps|
      ensures Gathered(ps[l].data, ts[l], size) == slots
    {
      assert LayerFilled(ps[l], ts[l], slots, size);
      GatheredIsStored(ps[l].data, ts[l], slots, size);
    }
  }

  /** The first `n` prefills hold what their caches do and end on a block boundary; the others are empty. */
  ghost predicate Loading(prefix: PrefixCache, allocs: seq<BlockAllocator>, tables: seq<PagedCache>,
        outside: seq<multiset<nat>>, split: nat, n: nat, caches: seq<seq<Slot>>)
    reads prefix, allocs, tables
  {
    && Sharing(prefix, allocs, tables, outside)
    && n <= split <= |tables| == |caches|
    && (forall i | 0 <= i < n :: Loaded(PoolsOf(allocs), tables[i].layers, caches[i], prefix.size))
    && forall i | n <= i < split :: tables[i].layers == NoTables(|allocs|)
  }

  ghost predicate Loaded(ps: seq<Pool>, ts: seq<Table>, cache: seq<Slot>, size: nat)
    requires size > 0
  {
    FilledAll(ps, ts, cache, size) && |cache| % size == 0
  }

  /** Matched blocks go into prefill `i`'s tables, and its cache is what they hold. */
  method LoadPrompt(prefix: PrefixCache, allocs: seq<BlockAllocator>, tables: seq<PagedCache>, i: nat, tokens: seq<nat>,
        ghost split: nat, ghost outside: seq<multiset<nat>>, ghost caches: seq<seq<Slot>>)
    returns (info: PrefillInfo, cache: seq<Slot>, ghost matched: nat)
    requires |allocs| > 0 && i < split && Loading(prefix, allocs, tables, outside, split, i, caches)
    requires prefix.size > 0 && Foreseen(prefix, tokens)
    modifies tables[i], allocs, prefix`entries
    ensures IsMatched(prefix.chain, prefix.size, old(prefix.entries), tokens, matched)
    ensures info == InfoOf(tokens, matched, prefix.size) && cache == Prepopulated(tokens, matched, prefix.size)
    ensures info.numCachedBlocks == 0 ==> cache == []
    ensures Loading(prefix, allocs, tables, outside, split, i + 1, caches[i := cache])
  {
    hide Sound, Usable, Loaded, Slots, NoTables, HoldsPrefix, SameData, IsMatched;
    ghost var ps, vals, size := PoolsOf(allocs), LayersOf(tables), prefix.size;
    var n, found := Match(prefix, allocs, tokens, vals, i, outside);
    matched := n;
    info := InfoOf(tokens, n, prefix.size);
    var blocks := info.numCachedBlocks;
    if blocks > 0 {
      UsablePrefix(DataOf(allocs), RestOf(prefix.entries, vals, i, outside), tokens, size, found, blocks);
      PrepopulateRow(prefix, allocs, tables, i, found[..blocks], tokens, outside);
      PrefixReads(PoolsOf(allocs), tables[i].layers, tokens, blocks, size);
      cache := Gathered(allocs[0].data, tables[i].layers[0], prefix.size);
    } else {
      NoBlocksNoSlots(tokens, n, size);
      NothingLoaded(PoolsOf(allocs), tables[i].layers, size);
      cache := [];
      SameAsEver(ps);
    }
    forall j | 0 <= j < i
      ensures Loaded(PoolsOf(allocs), tables[j].layers, caches[j], size)
    {
      StillLoaded(ps, PoolsOf(allocs), vals[j], caches[j], size);
    }
  }

  lemma {:induction false} StillLoaded(ps: seq<Pool>, ps': seq<Pool>, ts: seq<Table>, cache: seq<Slot>, size: nat)
    requires size > 0 && Loaded(ps, ts, cache, size) && SameData(ps, ps')
    ensures Loaded(ps', ts, cache, size)
  {
    hide FilledAll;
    AlignedKept(ps, ps', ts, cache, size);
  }

  lemma {:induction false} NothingLoaded(ps: seq<Pool>, ts: seq<Table>, size: nat)
    requires size > 0 && ts == NoTables(|ps|)
    ensures Loaded(ps, ts, [], size)
  {
    hide FilledAll;
    NothingFilled(ps, ts, size);
  }

  lemma {:induction false} PrefixReads(ps: seq<Pool>, ts: seq<Table>, tokens: seq<nat>, blocks: nat, size: nat)
    requires size > 0 && |ps| > 0 && HoldsPrefix(ps, ts, tokens, blocks, size)
    ensures |ts| == |ps| && blocks * size <= |tokens|
    ensures Gathered(ps[0].data, ts[0], size) == Slots(tokens[..blocks * size])
    ensures Loaded(ps, ts, Slots(tokens[..blocks * size]), size)
  {
    hide Slots;
    SlotsPrefix(tokens, blocks * size);
    FilledReads(ps, ts, Slots(tokens[..blocks * size]), size);
    DividedOnce(blocks, 0, size);
  }

  /** Each prefill starts with the blocks cached for its prompt and skips their tokens. */
  method PlanPrefillInputs<P, C>(seqs: seq<SequenceState<P, C>>, split: nat, prefix: PrefixCache,
        allocs: seq<BlockAllocator>, tables: seq<PagedCache>, ghost outside: seq<multiset<nat>>)
    returns (infos: seq<PrefillInfo>, ghost matched: seq<nat>)
    requires split <= |seqs| == |tables| && Distinct(seqs) && |allocs| > 0 && prefix.size > 0
    requires Loading(prefix, allocs, tables, outside, split, 0, CachesOf(Values(seqs)))
    requires forall i | 0 <= i < split :: Values(seqs)[i].cache == []
    requires AllForeseen(prefix, TokensOf(Values(seqs)), split)
    modifies seqs, tables, allocs, prefix`entries
    ensures |matched| == split
    ensures infos == InfosOf(old(Values(seqs)), matched, prefix.size)
    ensures Values(seqs) == PlannedAll(old(Values(seqs)), matched, prefix.size)
    ensures Primed(prefix, allocs, tables, outside, split, CachesOf(Values(seqs)))
  {
    hide InfoOf, Planned, Prepopulated, Loading, Foreseen, AllForeseen, Primed, SequenceState.Value, PlannedAll, Values,
      Distinct;
    ghost var before, caches, size := Values(seqs), CachesOf(Values(seqs)), prefix.size;
    infos, matched := [], [];
    for n := 0 to split
      invariant |infos| == |matched| == n && |caches| == |seqs|
      invariant Loading(prefix, allocs, tables, outside, split, n, caches)
      invariant forall i | 0 <= i < n :: infos[i] == InfoOf(before[i].tokens, matched[i], size)
      invariant forall i | 0 <= i < n :: caches[i] == Prepopulated(before[i].tokens, matched[i], size)
      invariant forall i | n <= i < |seqs| :: caches[i] == before[i].cache
      invariant forall i | 0 <= i < |seqs| :: seqs[i].Value() == before[i].(cache := caches[i])
    {
      assert seqs[n].Value() == before[n];
      var info, cache;
      ghost var m;
      ForeseenAt(prefix, TokensOf(before), split, n);
      info, cache, m := LoadPrompt(prefix, allocs, tables, n, TokensIn(seqs[n]), split, outside, caches);
      if info.numCachedBlocks > 0 {
        PutCache(seqs, n, cache);
      }
      caches := caches[n := cache];
      infos, matched := infos + [info], matched + [m];
    }
    PlannedWith(before, matched, size, caches);
    AllLoaded(prefix, allocs, tables, outside, split, caches);
  }

  function TokensIn<P, C>(s: SequenceState<P, C>): (tokens: seq<nat>)
    reads s
    ensures tokens == s.Value().tokens
  {
    s.tokens
  }

  lemma {:induction false} ForeseenAt(prefix: PrefixCache, prompts: seq<seq<nat>>, n: nat, i: nat)
    requires AllForeseen(prefix, prompts, n) && i < n
    ensures Foreseen(prefix, prompts[i])
  {
  }

  method PutCache<P, C>(seqs: seq<SequenceState<P, C>>, n: nat, cache: seq<Slot>)
    requires Distinct(seqs) && n < |seqs|
    modifies seqs[n]
    ensures seqs[n].Value() == old(seqs[n].Value()).(cache := cache)
    ensures forall i | 0 <= i < |seqs| && i != n :: seqs[i].Value() == old(seqs[i].Value())
  {
    hide SequenceState.Value;
    SetCache(seqs[n], cache);
  }

  lemma {:induction false} PlannedWith<P, C>(vs: seq<Sequence<P, C>>, matched: seq<nat>, size: nat,
        caches: seq<seq<Slot>>)
    requires size > 0 && |matched| <= |vs| == |caches|
    requires forall i | 0 <= i < |matched| :: caches[i] == Prepopulated(vs[i].tokens, matched[i], size)
    requires forall i | |matched| <= i < |vs| :: caches[i] == vs[i].cache
    ensures PlannedAll(vs, matched, size) == WithCaches(vs, caches)
    ensures CachesOf(WithCaches(vs, caches)) == caches
  {
    hide Prepopulated;
  }

  lemma {:induction false} AllLoaded(prefix: PrefixCache, allocs: seq<BlockAllocator>, tables: seq<PagedCache>,
        outside: seq<multiset<nat>>, split: nat, caches: seq<seq<Slot>>)
    requires Loading(prefix, allocs, tables, outside, split, split, caches) && prefix.size > 0
    ensures Primed(prefix, allocs, tables, outside, split, caches)
  {
    hide Sharing, FilledAll, PoolsOf;
    forall i | 0 <= i < split
      ensures FilledAll(PoolsOf(allocs), LayersOf(tables)[i], caches[i], prefix.size)
    {
      assert Loaded(PoolsOf(allocs), tables[i].layers, caches[i], prefix.size);
    }
  }

  datatype BatchInput = BatchInput(tokenIds: seq<nat>, positions: seq<nat>, counts: seq<nat>)

  function DecodeInput<P, C>(s: Sequence<P, C>): (x: seq<Slot>)
    requires s.tokens != []
  {
    [Slot(s.tokens[|s.tokens| - 1], s.numProcessed)]
  }

  function InputOf<P, C>(v: Sequence<P, C>, infos: seq<PrefillInfo>, i: nat): (x: seq<Slot>)
    requires v.tokens != []
  {
    if i < |infos| then PrefillInput(infos[i]) else DecodeInput(v)
  }

  /** What the batch is fed: the prefills' uncached suffixes, then one token per decode. */
  function InputsOf<P, C>(vs: seq<Sequence<P, C>>, infos: seq<PrefillInfo>): (inputs: seq<seq<Slot>>)
    requires forall i | 0 <= i < |vs| :: vs[i].tokens != []
    ensures |inputs| == |vs|
  {
    seq(|vs|, i requires 0 <= i < |vs| => InputOf(vs[i], infos, i))
  }

  method PrefillPositions(info: PrefillInfo) returns (positions: seq<nat>)
    requires info.uncachedLen == |info.inputTokens|
    ensures |positions| == |info.inputTokens| && Zip(info.inputTokens, positions) == PrefillInput(info)
  {
    positions := [];
    while |positions| < info.uncachedLen
      invariant |positions| <= info.uncachedLen
      invariant forall j | 0 <= j < |positions| :: positions[j] == info.numCachedTokens + j
    {
      positions := positions + [info.numCachedTokens + |positions|];
    }
  }

  method BuildBatchInput<P, C>(infos: seq<PrefillInfo>, seqs: seq<SequenceState<P, C>>) returns (b: BatchInput)
    requires |infos| <= |seqs|
    requires forall i | 0 <= i < |seqs| :: Values(seqs)[i].tokens != []
    requires forall i | 0 <= i < |infos| :: infos[i].uncachedLen == |infos[i].inputTokens|
    ensures var inputs := InputsOf(Values(seqs), infos);
      && |b.tokenIds| == |b.positions|
      && Zip(b.tokenIds, b.positions) == Flat(inputs)
      && b.counts == Counts(inputs)
  {
    hide Flat, Counts, Zip, PrefillInput;
    var ids, positions, counts := [], [], [];
    ghost var inputs := InputsOf(Values(seqs), infos);
    EmptyBatch();
    for i := 0 to |infos|
      invariant |ids| == |positions|
      invariant Zip(ids, positions) == Flat(inputs[..i]) && counts == Counts(inputs[..i])
    {
      var local := PrefillPositions(infos[i]);
      ZipGrows(ids, positions, infos[i].inputTokens, local);
      FlatGrows(inputs[..i], PrefillInput(infos[i]));
      assert inputs[..i] + [inputs[i]] == inputs[..i + 1];
      ids := ids + infos[i].inputTokens;
      positions := positions + local;
      counts := counts + [infos[i].uncachedLen];
    }
    for i := |infos| to |seqs|
      invariant |ids| == |positions|
      invariant Zip(ids, positions) == Flat(inputs[..i]) && counts == Counts(inputs[..i])
    {
      var s := seqs[i];
      var last := s.tokens[|s.tokens| - 1];
      ZipOne(last, s.numProcessed);
      ZipGrows(ids, positions, [last], [s.numProcessed]);
      FlatGrows(inputs[..i], DecodeInput(s.Value()));
      assert inputs[..i] + [inputs[i]] == inputs[..i + 1];
      ids := ids + [last];
      positions := positions + [s.numProcessed];
      counts := counts + [1];
    }
    assert inputs[..|seqs|] == inputs;
    b := BatchInput(ids, positions, counts);
  }

  lemma {:induction false} EmptyBatch()
    ensures Zip([], []) == Flat([]) && Counts([]) == []
  {
  }

  lemma {:induction false} ZipOne(t: nat, p: nat)
    ensures Zip([t], [p]) == [Slot(t, p)]
  {
  }

  lemma {:induction false} ZipGrows(a: seq<nat>, p: seq<nat>, b: seq<nat>, q: seq<nat>)
    requires |a| == |p| && |b| == |q|
    ensures Zip(a + b, p + q) == Zip(a, p) + Zip(b, q)
  {
  }

  // ----- one step

  function WithCaches<P, C>(vs: seq<Sequence<P, C>>, caches: seq<seq<Slot>>): (next: seq<Sequence<P, C>>)
    requires |caches| == |vs|
    ensures |next| == |vs|
  {
    seq(|vs|, i requires 0 <= i < |vs| => vs[i].(cache := caches[i]))
  }

  function CachesOf<P, C>(vs: seq<Sequence<P, C>>): (cs: seq<seq<Slot>>)
    ensures |cs| == |vs|
  {
    seq(|vs|, i requires 0 <= i < |vs| => vs[i].cache)
  }

  method SetCache<P, C>(s: SequenceState<P, C>, cache: seq<Slot>)
    modifies s
    ensures s.Value() == old(s.Value()).(cache := cache)
  {
    s.cache := cache;
  }

  method TakeCaches<P, C>(seqs: seq<SequenceState<P, C>>) returns (taken: seq<seq<Slot>>)
    requires Distinct(seqs)
    modifies seqs
    ensures taken == CachesOf(old(Values(seqs)))
    ensures Values(seqs) == WithCaches(old(Values(seqs)), seq(|seqs|, i => []))
  {
    taken := [];
    for n := 0 to |seqs|
      invariant |taken| == n
      invariant forall i | 0 <= i < n :: taken[i] == old(seqs[i].Value()).cache
      invariant forall i | 0 <= i < n :: seqs[i].Value() == old(seqs[i].Value()).(cache := [])
      invariant forall i | n <= i < |seqs| :: seqs[i].Value() == old(seqs[i].Value())
    {
      assert seqs[n].Value() == old(seqs[n].Value());
      taken := taken + [seqs[n].cache];
      SetCache(seqs[n], []);
    }
  }

  method RestoreCaches<P, C>(seqs: seq<SequenceState<P, C>>, caches: seq<seq<Slot>>)
    requires Distinct(seqs) && |caches| == |seqs|
    modifies seqs
    ensures Values(seqs) == WithCaches(old(Values(seqs)), caches)
  {
    for n := 0 to |seqs|
      invariant forall i | 0 <= i < n :: seqs[i].Value() == old(seqs[i].Value()).(cache := caches[i])
      invariant forall i | n <= i < |seqs| :: seqs[i].Value() == old(seqs[i].Value())
    {
      assert seqs[n].Value() == old(seqs[n].Value());
      SetCache(seqs[n], caches[n]);
    }
  }

  /** The pool is written for prefills only: nothing but whole prompt blocks is ever shared. */
  method SetWrites(tables: seq<PagedCache>, split: nat)
    requires Separate(tables)
    modifies tables
    ensures LayersOf(tables) == old(LayersOf(tables))
    ensures WritesOnly(tables, split)
  {
    for n := 0 to |tables|
      invariant forall i | 0 <= i < |tables| :: tables[i].layers == old(tables[i].layers)
      invariant forall i | 0 <= i < n :: tables[i].poolWrites <==> i < split
    {
      tables[n].SetPoolWrites(n < split);
    }
  }

  /** What a batch's forwards leave: all rows and caches, or no rows and prefixes. */
  ghost predicate Ran<P, C>(env: Env<P, C>, counts: seq<nat>, slots: seq<Slot>, caches: seq<seq<Slot>>,
        rows: Option<seq<seq<real>>>, now: seq<seq<Slot>>)
    requires |caches| == |counts| && |slots| == Sum(counts)
  {
    && Partly(counts, slots, caches, now)
    && (rows.Some? ==> now == Extended(caches, slots, counts))
    && (rows.Some? ==> rows.value == RowsAt(env, counts, slots, caches, |counts|))
  }

  method RunWithWrites<P, C>(env: Env<P, C>, caches: seq<seq<Slot>>, slots: seq<Slot>, counts: seq<nat>, split: nat,
        prefix: PrefixCache, allocs: seq<BlockAllocator>, tables: seq<PagedCache>, ghost outside: seq<multiset<nat>>,
        pacer: PrefillPacer, weather: Weather)
    returns (rows: Option<seq<seq<real>>>, now: seq<seq<Slot>>)
    requires pacer.Valid() && |tables| == |caches| == |counts| && |slots| == Sum(counts)
    requires Primed(prefix, allocs, tables, outside, split, caches)
    modifies pacer, tables, allocs
    ensures pacer.Valid() && Sharing(prefix, allocs, tables, outside)
    ensures rows.Some? ==> Carrying(prefix, allocs, tables, outside, split, now)
    ensures |now| == |caches| && Ran(env, counts, slots, caches, rows, now)
  {
    SoundSize(prefix, allocs, LayersOf(tables), outside);
    hide RowsAt, Sum, Extended, Sound, Following, PoolsOf, LayersOf;
    SetWrites(tables, split);
    rows, now := RunChunks(env, caches, slots, counts, split, prefix, allocs, tables, outside, pacer, weather);
  }

  /** The caches leave the sequences for the forwards and come back whether or not the forwards succeed. */
  method RunForwardPass<P, C>(env: Env<P, C>, seqs: seq<SequenceState<P, C>>, split: nat, b: BatchInput,
        prefix: PrefixCache, allocs: seq<BlockAllocator>, tables: seq<PagedCache>, ghost outside: seq<multiset<nat>>,
        pacer: PrefillPacer, weather: Weather)
    returns (rows: Option<seq<seq<real>>>, ghost now: seq<seq<Slot>>)
    requires Distinct(seqs) && pacer.Valid() && |b.counts| == |seqs| == |tables|
    requires |b.tokenIds| == |b.positions| == Sum(b.counts)
    requires Primed(prefix, allocs, tables, outside, split, CachesOf(Values(seqs)))
    modifies seqs, tables, allocs, pacer
    ensures pacer.Valid() && Sharing(prefix, allocs, tables, outside)
    ensures rows.Some? ==> Carrying(prefix, allocs, tables, outside, split, now)
    ensures var slots := Zip(b.tokenIds, b.positions);
      var caches := CachesOf(old(Values(seqs)));
      && |now| == |seqs| && Ran(env, b.counts, slots, caches, rows, now)
      && Values(seqs) == WithCaches(old(Values(seqs)), now)
  {
    hide Zip, Sum, Ran, CachesOf, WithCaches, Sharing, Primed, Carrying, SequenceState.Value, Distinct, Values,
      PrefillPacer.Valid;
    ghost var before := Values(seqs);
    var slots := Zip(b.tokenIds, b.positions);
    var taken := TakeCaches(seqs);
    ghost var emptied := Values(seqs);
    var back;
    rows, back := RunWithWrites(env, taken, slots, b.counts, split, prefix, allocs, tables, outside, pacer, weather);
    RestoreCaches(seqs, back);
    RecachedTwice(before, emptied, back);
    now := back;
  }

  lemma {:induction false} RecachedTwice<P, C>(vs: seq<Sequence<P, C>>, emptied: seq<Sequence<P, C>>,
        caches: seq<seq<Slot>>)
    requires |caches| == |vs| && emptied == WithCaches(vs, seq(|vs|, i => []))
    ensures WithCaches(emptied, caches) == WithCaches(vs, caches)
  {
  }

  lemma {:induction false} PartlyIsPrefix(counts: seq<nat>, slots: seq<Slot>, caches: seq<seq<Slot>>,
        now: seq<seq<Slot>>)
    requires |caches| == |counts| && |slots| == Sum(counts) && Partly(counts, slots, caches, now)
    ensures |now| == |caches|
    ensures forall i | 0 <= i < |now| :: now[i] <= caches[i] + Part(counts, slots, i)
  {
    hide Part, Sum;
    var cur :| CursorOk(counts, cur) && now == CachesAt(counts, slots, caches, cur);
    forall i: nat | i < |now|
      ensures now[i] <= caches[i] + Part(counts, slots, i)
    {
      FedIsBounded(counts, cur, i);
      var p := Part(counts, slots, i);
      assert caches[i] + p == (caches[i] + p[..Fed(counts, cur, i)]) + p[Fed(counts, cur, i)..];
    }
  }

  /** A sequence with its sampled token taken in, before the stop rules look at it. */
  function TakenIn<P, C>(env: Env<P, C>, s: Sequence<P, C>, token: nat): Sequence<P, C> {
    var t := Appended(s.(constraint := SequenceStates.Advanced(env, s.constraint, token)), token);
    t.(numProcessed := |t.tokens| - 1, phase := Decode)
  }

  method TakeIn<P, C>(env: Env<P, C>, s: SequenceState<P, C>, token: nat, prefill: bool)
    requires prefill || s.Value().phase == Decode
    modifies s
    ensures s.Value() == TakenIn(env, old(s.Value()), token)
  {
    if s.constraint.Some? {
      s.constraint := Some(env.advance(s.constraint.value, token));
    }
    s.AppendToken(token);
    s.numProcessed := |s.tokens| - 1;
    if prefill {
      s.phase := Decode;
    }
  }

  lemma {:induction false} SampledIs<P, C>(env: Env<P, C>, s: Sequence<P, C>, row: seq<real>)
    ensures var token := env.sample(row, s.settings, s.tokens, s.tokenCounts, s.constraint);
      var t := TakenIn(env, s, token);
      var r := Applied(t, Stops(env.rules, token, t.tokens));
      Sampled(env, s, row) == (r.0, if r.1 then Some(token) else None)
  {
    hide Stops;
  }

  /** Samples a sequence's next token; a prefill becomes a decode. */
  method SampleOne<P, C>(env: Env<P, C>, s: SequenceState<P, C>, row: seq<real>, prefill: bool)
    returns (token: nat, emit: bool)
    requires prefill || s.Value().phase == Decode
    modifies s
    ensures s.Value() == Sampled(env, old(s.Value()), row).0
    ensures (if emit then Some(token) else None) == Sampled(env, old(s.Value()), row).1
  {
    hide Stops, TakenIn, Sampled, Applied;
    SampledIs(env, s.Value(), row);
    token := env.sample(row, s.settings, s.tokens, s.tokenCounts, s.constraint);
    TakeIn(env, s, token, prefill);
    var isStop := Stops(env.rules, token, s.tokens);
    emit := s.ApplyToken(isStop);
  }

  function SampledAll<P, C>(env: Env<P, C>, vs: seq<Sequence<P, C>>, rows: seq<seq<real>>): (next: seq<Sequence<P, C>>)
    requires |rows| == |vs|
    ensures |next| == |vs|
  {
    seq(|vs|, i requires 0 <= i < |vs| => Sampled(env, vs[i], rows[i]).0)
  }

  /** The tokens a batch emits, each with its place in the batch. */
  function EmittedFrom<P, C>(env: Env<P, C>, vs: seq<Sequence<P, C>>, rows: seq<seq<real>>, n: nat): seq<(nat, nat)>
    requires |rows| == |vs| && n <= |vs|
  {
    if n == 0 then [] else
      var token := Sampled(env, vs[n - 1], rows[n - 1]).1;
      EmittedFrom(env, vs, rows, n - 1) + if token.Some? then [(n - 1, token.value)] else []
  }

  /** A sound pool in which the prompts' blocks hold their prompts. */
  ghost predicate Prefilled(prefix: PrefixCache, allocs: seq<BlockAllocator>, tables: seq<PagedCache>,
        outside: seq<multiset<nat>>, split: nat, prompts: seq<seq<nat>>)
    reads prefix, allocs, tables
  {
    && Sharing(prefix, allocs, tables, outside)
    && split <= |tables| == |prompts|
    && forall i | 0 <= i < split :: StoredAll(PoolsOf(allocs), tables[i].layers, Slots(prompts[i]), prefix.size)
  }

  /** Every registered prefix is an old one or begins one of the prompts. */
  ghost predicate LogFrom(log: set<Registration>, before: set<Registration>, prompts: seq<seq<nat>>) {
    forall r | r in log :: r in before || exists i | 0 <= i < |prompts| :: r.prefix <= prompts[i]
  }

  function TokensOf<P, C>(vs: seq<Sequence<P, C>>): (ts: seq<seq<nat>>)
    ensures |ts| == |vs|
  {
    seq(|vs|, i requires 0 <= i < |vs| => vs[i].tokens)
  }

  lemma {:induction false} SampledAppends<P, C>(env: Env<P, C>, s: Sequence<P, C>, row: seq<real>)
    ensures s.tokens <= Sampled(env, s, row).0.tokens
  {
    hide Stops;
  }

  /** The blocks that prefill `n` filled go into the prefix cache. */
  method RegisterPrompt(prefix: PrefixCache, allocs: seq<BlockAllocator>, tables: seq<PagedCache>, n: nat,
        infos: seq<PrefillInfo>, tokens: seq<nat>, ghost prompts: seq<seq<nat>>, ghost outside: seq<multiset<nat>>)
    requires n < |infos| && Prefilled(prefix, allocs, tables, outside, |infos|, prompts)
    requires infos[n].numFullBlocksTotal * prefix.size <= |prompts[n]| && prompts[n] <= tokens
    modifies prefix`entries, prefix`log, allocs
    ensures Prefilled(prefix, allocs, tables, outside, |infos|, prompts)
    ensures LogFrom(prefix.log, old(prefix.log), prompts)
  {
    hide Sound, StoredAll, PoolsOf, SameData, Slots;
    ghost var ps, vals := PoolsOf(allocs), LayersOf(tables);
    if infos[n].numFullBlocksTotal > infos[n].numCachedBlocks {
      RegisterRow(prefix, allocs, tables, n, tokens, infos[n].numCachedBlocks, infos[n].numFullBlocksTotal,
        prompts[n], outside);
      SoundSize(prefix, allocs, LayersOf(tables), outside);
      forall i | 0 <= i < |infos|
        ensures StoredAll(PoolsOf(allocs), tables[i].layers, Slots(prompts[i]), prefix.size)
      {
        StillStored(ps, PoolsOf(allocs), vals[i], Slots(prompts[i]), prefix.size);
      }
    }
  }

  /** How many blocks each prefill may register: no more than its prompt fills. */
  ghost predicate Registrable(infos: seq<PrefillInfo>, prompts: seq<seq<nat>>, size: nat) {
    |infos| <= |prompts| && forall i | 0 <= i < |infos| :: infos[i].numFullBlocksTotal * size <= |prompts[i]|
  }

  /** Sequence `n` is sampled and nothing else of the batch moves. */
  method SampleAt<P, C>(env: Env<P, C>, seqs: seq<SequenceState<P, C>>, n: nat, row: seq<real>, prefill: bool)
    returns (token: nat, emit: bool)
    requires Distinct(seqs) && n < |seqs| && (prefill || Values(seqs)[n].phase == Decode)
    modifies seqs[n]
    ensures Values(seqs) == old(Values(seqs))[n := Sampled(env, old(Values(seqs))[n], row).0]
    ensures (if emit then Some(token) else None) == Sampled(env, old(Values(seqs))[n], row).1
  {
    hide Sampled, SequenceState.Value;
    token, emit := SampleOne(env, seqs[n], row, prefill);
  }

  /** The batch when its first `n` sequences have been sampled. */
  ghost predicate SampledTo<P, C>(env: Env<P, C>, before: seq<Sequence<P, C>>, rows: seq<seq<real>>, n: nat,
        now: seq<Sequence<P, C>>, emitted: seq<(nat, nat)>)
  {
    && |now| == |before| == |rows| && n <= |now|
    && emitted == EmittedFrom(env, before, rows, n)
    && (forall i | 0 <= i < n :: now[i] == Sampled(env, before[i], rows[i]).0)
    && forall i | n <= i < |now| :: now[i] == before[i]
  }

  lemma {:induction false} OneMoreSampled<P, C>(env: Env<P, C>, before: seq<Sequence<P, C>>, rows: seq<seq<real>>,
        n: nat, now: seq<Sequence<P, C>>, emitted: seq<(nat, nat)>)
    requires SampledTo(env, before, rows, n, now, emitted) && n < |now|
    ensures now[n] == before[n]
    ensures var (next, token) := Sampled(env, now[n], rows[n]);
      && now[n].tokens <= next.tokens
      && SampledTo(env, before, rows, n + 1, now[n := next],
           if token.Some? then emitted + [(n, token.value)] else emitted)
  {
    hide Sampled;
    OneMoreEmitted(env, before, rows, n);
    SampledAppends(env, before[n], rows[n]);
  }

  /** Prefills are sampled first and their blocks registered. */
  method SamplePrefills<P, C>(env: Env<P, C>, seqs: seq<SequenceState<P, C>>, infos: seq<PrefillInfo>,
        rows: seq<seq<real>>, prefix: PrefixCache, allocs: seq<BlockAllocator>, tables: seq<PagedCache>,
        ghost outside: seq<multiset<nat>>)
    returns (newTokens: seq<(nat, nat)>)
    requires Distinct(seqs) && |rows| == |seqs| && |infos| <= |seqs|
    requires Prefilled(prefix, allocs, tables, outside, |infos|, TokensOf(Values(seqs)))
    requires Registrable(infos, TokensOf(Values(seqs)), prefix.size)
    modifies seqs, prefix`entries, prefix`log, allocs
    ensures SampledTo(env, old(Values(seqs)), rows, |infos|, Values(seqs), newTokens)
    ensures Prefilled(prefix, allocs, tables, outside, |infos|, old(TokensOf(Values(seqs))))
    ensures LogFrom(prefix.log, old(prefix.log), old(TokensOf(Values(seqs))))
  {
    hide Sampled, SequenceState.Value, SampledTo, Prefilled, LogFrom, Values, Distinct;
    ghost var before, prompts, log := Values(seqs), TokensOf(Values(seqs)), prefix.log;
    newTokens := [];
    NoneSampled(env, before, rows);
    NoNews(log, prompts);
    for n := 0 to |infos|
      invariant SampledTo(env, before, rows, n, Values(seqs), newTokens)
      invariant Prefilled(prefix, allocs, tables, outside, |infos|, prompts)
      invariant LogFrom(prefix.log, log, prompts)
    {
      OneMoreSampled(env, before, rows, n, Values(seqs), newTokens);
      var token, emit := SampleAt(env, seqs, n, rows[n], true);
      if emit {
        newTokens := newTokens + [(n, token)];
      }
      ghost var sofar := prefix.log;
      assert TokensIn(seqs[n]) == Values(seqs)[n].tokens;
      RegisterPrompt(prefix, allocs, tables, n, infos, TokensIn(seqs[n]), prompts, outside);
      MoreNews(prefix.log, sofar, log, prompts);
    }
  }

  lemma {:induction false} NoneSampled<P, C>(env: Env<P, C>, before: seq<Sequence<P, C>>, rows: seq<seq<real>>)
    requires |rows| == |before|
    ensures SampledTo(env, before, rows, 0, before, [])
  {
  }

  lemma {:induction false} NoNews(log: set<Registration>, prompts: seq<seq<nat>>)
    ensures LogFrom(log, log, prompts)
  {
  }

  lemma {:induction false} MoreNews(log: set<Registration>, sofar: set<Registration>, before: set<Registration>,
        prompts: seq<seq<nat>>)
    requires LogFrom(log, sofar, prompts) && LogFrom(sofar, before, prompts)
    ensures LogFrom(log, before, prompts)
  {
  }

  /** Decodes are sampled after the prefills, each from its own row. */
  method SampleDecodes<P, C>(env: Env<P, C>, seqs: seq<SequenceState<P, C>>, split: nat, rows: seq<seq<real>>,
        emitted: seq<(nat, nat)>, ghost before: seq<Sequence<P, C>>)
    returns (newTokens: seq<(nat, nat)>)
    requires Distinct(seqs) && |before| == |rows| == |seqs| && split <= |seqs|
    requires SampledTo(env, before, rows, split, Values(seqs), emitted)
    requires forall i | split <= i < |before| :: before[i].phase == Decode
    modifies seqs
    ensures Values(seqs) == SampledAll(env, before, rows)
    ensures newTokens == EmittedFrom(env, before, rows, |seqs|)
  {
    hide Sampled, SequenceState.Value, SampledTo, EmittedFrom, SampledAll, Values, Distinct;
    newTokens := emitted;
    for n := split to |seqs|
      invariant |before| == |seqs|
      invariant SampledTo(env, before, rows, n, Values(seqs), newTokens)
    {
      OneMoreSampled(env, before, rows, n, Values(seqs), newTokens);
      var token, emit := SampleAt(env, seqs, n, rows[n], false);
      if emit {
        newTokens := newTokens + [(n, token)];
      }
    }
    AllSampled(env, before, rows, Values(seqs), newTokens);
  }

  lemma {:induction false} OneMoreEmitted<P, C>(env: Env<P, C>, vs: seq<Sequence<P, C>>, rows: seq<seq<real>>, n: nat)
    requires |rows| == |vs| && n < |vs|
    ensures var token := Sampled(env, vs[n], rows[n]).1;
      EmittedFrom(env, vs, rows, n + 1)
      == if token.Some? then EmittedFrom(env, vs, rows, n) + [(n, token.value)] else EmittedFrom(env, vs, rows, n)
  {
    hide Sampled;
  }

  lemma {:induction false} AllSampled<P, C>(env: Env<P, C>, before: seq<Sequence<P, C>>, rows: seq<seq<real>>,
        now: seq<Sequence<P, C>>, emitted: seq<(nat, nat)>)
    requires SampledTo(env, before, rows, |now|, now, emitted)
    ensures now == SampledAll(env, before, rows) && emitted == EmittedFrom(env, before, rows, |now|)
  {
    hide Sampled;
  }

  /** Prefills first, with nothing cached; then decodes, with everything but their last token cached. */
  predicate Admitted<P, C>(vs: seq<Sequence<P, C>>, split: nat) {
    && split <= |vs|
    && (forall i | 0 <= i < split :: Fresh(vs[i]))
    && (forall i | split <= i < |vs| :: Ready(vs[i]))
  }

  /** What the cache holds and what is fed are together the whole history, whatever was reused. */
  lemma {:induction false} HistoryIsWhole<P, C>(v: Sequence<P, C>, matched: nat, blockSize: nat)
    requires blockSize > 0 && v.tokens != []
    ensures Fresh(v) ==>
      Planned(v, matched, blockSize).cache + PrefillInput(InfoOf(v.tokens, matched, blockSize)) == Slots(v.tokens)
    ensures Ready(v) ==> v.cache + DecodeInput(v) == Slots(v.tokens)
  {
    hide InfoOf;
    var n := |v.tokens| - 1;
    assert v.tokens[..n] + [v.tokens[n]] == v.tokens;
  }

  lemma {:induction false} BatchIsWhole<P, C>(vs: seq<Sequence<P, C>>, matched: seq<nat>, blockSize: nat)
    requires blockSize > 0 && Admitted(vs, |matched|)
    ensures var infos := InfosOf(vs, matched, blockSize);
      var planned := PlannedAll(vs, matched, blockSize);
      var inputs := InputsOf(planned, infos);
      && |Flat(inputs)| == Sum(Counts(inputs))
      && forall i | 0 <= i < |vs| ::
          planned[i].cache + Part(Counts(inputs), Flat(inputs), i) == Slots(vs[i].tokens)
  {
    hide Flat, Counts, Part, Prepopulated, InfoOf;
    var infos := InfosOf(vs, matched, blockSize);
    var planned := PlannedAll(vs, matched, blockSize);
    var inputs := InputsOf(planned, infos);
    FlatLength(inputs);
    forall i: nat | i < |vs|
      ensures planned[i].cache + Part(Counts(inputs), Flat(inputs), i) == Slots(vs[i].tokens)
    {
      PartOfFlat(inputs, i);
      HistoryIsWhole(vs[i], if i < |matched| then matched[i] else 0, blockSize);
    }
  }

  /** Where a successful batch leaves its sequences: each where it would be on its own. */
  function AloneAll<P, C>(env: Env<P, C>, vs: seq<Sequence<P, C>>): (next: seq<Sequence<P, C>>)
    ensures |next| == |vs|
  {
    seq(|vs|, i requires 0 <= i < |vs| => StepAlone(env, vs[i]).0)
  }

  /** The tokens the sequences would emit on their own, each with its place in the batch. */
  function EmittedAlone<P, C>(env: Env<P, C>, vs: seq<Sequence<P, C>>, n: nat): seq<(nat, nat)>
    requires n <= |vs|
  {
    if n == 0 then [] else
      var token := StepAlone(env, vs[n - 1]).1;
      EmittedAlone(env, vs, n - 1) + if token.Some? then [(n - 1, token.value)] else []
  }

  lemma {:induction false} EachAsIfAlone<P, C>(env: Env<P, C>, vs: seq<Sequence<P, C>>, after: seq<Sequence<P, C>>,
        rows: seq<seq<real>>, n: nat)
    requires |after| == |rows| == |vs| && n <= |vs|
    requires forall i | 0 <= i < |vs| ::
      && after[i] == vs[i].(cache := Slots(vs[i].tokens))
      && rows[i] == env.logits(Slots(vs[i].tokens))
    ensures EmittedFrom(env, after, rows, n) == EmittedAlone(env, vs, n)
    ensures SampledAll(env, after, rows) == AloneAll(env, vs)
  {
    hide Sampled;
    if n > 0 {
      EachAsIfAlone(env, vs, after, rows, n - 1);
    }
  }

  /** After the forwards every cache holds its sequence's whole history and every row was computed from it. */
  lemma {:induction false} ForwardsSeeHistories<P, C>(env: Env<P, C>, vs: seq<Sequence<P, C>>, matched: seq<nat>,
        blockSize: nat, planned: seq<Sequence<P, C>>, slots: seq<Slot>, counts: seq<nat>, i: nat)
    requires blockSize > 0 && Admitted(vs, |matched|) && i < |vs|
    requires planned == PlannedAll(vs, matched, blockSize)
    requires var inputs := InputsOf(planned, InfosOf(vs, matched, blockSize));
      slots == Flat(inputs) && counts == Counts(inputs)
    ensures |counts| == |vs| && |slots| == Sum(counts)
    ensures var caches := CachesOf(planned);
      && WithCaches(planned, Extended(caches, slots, counts))[i] == vs[i].(cache := Slots(vs[i].tokens))
      && RowsAt(env, counts, slots, caches, |vs|)[i] == env.logits(Slots(vs[i].tokens))
  {
    hide Flat, Counts, Part, Prepopulated, InfoOf;
    BatchIsWhole(vs, matched, blockSize);
  }

  /** When a forward fails, no token is sampled and each cache holds a prefix of its own history. */
  lemma {:induction false} FailureKeepsHistories<P, C>(vs: seq<Sequence<P, C>>, matched: seq<nat>, blockSize: nat,
        planned: seq<Sequence<P, C>>, slots: seq<Slot>, counts: seq<nat>, now: seq<seq<Slot>>, i: nat)
    requires blockSize > 0 && Admitted(vs, |matched|) && i < |vs|
    requires planned == PlannedAll(vs, matched, blockSize)
    requires var inputs := InputsOf(planned, InfosOf(vs, matched, blockSize));
      slots == Flat(inputs) && counts == Counts(inputs)
    requires |counts| == |vs| && |slots| == Sum(counts) && Partly(counts, slots, CachesOf(planned), now)
    ensures |now| == |vs|
    ensures WithCaches(planned, now)[i] == vs[i].(cache := now[i]) && now[i] <= Slots(vs[i].tokens)
  {
    hide Flat, Counts, Part, Prepopulated, InfoOf, Partly;
    BatchIsWhole(vs, matched, blockSize);
    PartlyIsPrefix(counts, slots, CachesOf(planned), now);
  }

  /** The forwards and the sampling of a planned batch. */
  method Forward<P, C>(env: Env<P, C>, seqs: seq<SequenceState<P, C>>, infos: seq<PrefillInfo>, prefix: PrefixCache,
        allocs: seq<BlockAllocator>, tables: seq<PagedCache>, ghost outside: seq<multiset<nat>>, pacer: PrefillPacer,
        weather: Weather, ghost before: seq<Sequence<P, C>>, ghost matched: seq<nat>)
    returns (newTokens: Option<seq<(nat, nat)>>)
    requires pacer.Valid() && Distinct(seqs) && |before| == |seqs| == |tables| && prefix.size > 0
    requires Admitted(before, |matched|)
    requires infos == InfosOf(before, matched, prefix.size) && Values(seqs) == PlannedAll(before, matched, prefix.size)
    requires Primed(prefix, allocs, tables, outside, |matched|, CachesOf(Values(seqs)))
    modifies seqs, tables, allocs, prefix`entries, prefix`log, pacer
    ensures pacer.Valid() && Sharing(prefix, allocs, tables, outside)
    ensures LogFrom(prefix.log, old(prefix.log), TokensOf(before))
    ensures Stepped(env, before, Values(seqs), newTokens)
  {
    hide PlannedAll, InfosOf, InputsOf, Flat, Counts, CachesOf, WithCaches, Sum, Zip, Primed, Carrying, Prefilled,
      Sharing, LogFrom, Ran, Distinct, Values, SequenceState.Value, PrefillPacer.Valid, SampledTo, SampledAll,
      EmittedFrom, Stepped, Sampled;
    ghost var planned, size, split := Values(seqs), prefix.size, |matched|;
    AdmittedFacts(before, split);
    PlannedFacts(before, matched, size);
    var b := BuildBatchInput(infos, seqs);
    ghost var slots := Zip(b.tokenIds, b.positions);
    FlatLength(InputsOf(planned, infos));
    var rows, now := RunForwardPass(env, seqs, |infos|, b, prefix, allocs, tables, outside, pacer, weather);
    NoNews(prefix.log, TokensOf(before));
    ghost var after := Values(seqs);
    if rows.None? {
      NotStepped(env, before, matched, size, planned, slots, b.counts, now, after);
      return None;
    }
    AllSeeHistories(env, before, matched, size, planned, slots, b.counts, now, rows.value, after);
    CarriedIsPrefilled(prefix, allocs, tables, outside, split, now, before, after);
    FullIsRegistrable(before, matched, size);
    var out := SamplePrefills(env, seqs, infos, rows.value, prefix, allocs, tables, outside);
    PrefilledIsSharing(prefix, allocs, tables, outside, split, TokensOf(before));
    out := SampleDecodes(env, seqs, |infos|, rows.value, out, after);
    HasStepped(env, before, after, rows.value, Values(seqs), out);
    return Some(out);
  }

  /** Where a step leaves a batch: each sequence as if alone, or each with at most a prefix of its history cached. */
  ghost predicate Stepped<P, C>(env: Env<P, C>, before: seq<Sequence<P, C>>, after: seq<Sequence<P, C>>,
        newTokens: Option<seq<(nat, nat)>>) {
    && |after| == |before|
    && if newTokens.Some? then
         after == AloneAll(env, before) && newTokens.value == EmittedAlone(env, before, |before|)
       else forall i | 0 <= i < |before| ::
         after[i] == before[i].(cache := after[i].cache) && after[i].cache <= Slots(before[i].tokens)
  }

  lemma {:induction false} NotStepped<P, C>(env: Env<P, C>, before: seq<Sequence<P, C>>, matched: seq<nat>, size: nat,
        planned: seq<Sequence<P, C>>, slots: seq<Slot>, counts: seq<nat>, now: seq<seq<Slot>>,
        after: seq<Sequence<P, C>>)
    requires size > 0 && Admitted(before, |matched|) && planned == PlannedAll(before, matched, size)
    requires var inputs := InputsOf(planned, InfosOf(before, matched, size));
      slots == Flat(inputs) && counts == Counts(inputs)
    requires |counts| == |before| == |now| && |slots| == Sum(counts)
    requires Ran(env, counts, slots, CachesOf(planned), None, now)
    requires after == WithCaches(planned, now)
    ensures Stepped(env, before, after, None)
  {
    hide Flat, Counts, InputsOf, InfosOf, PlannedAll, Partly, Extended, RowsAt, Sum, Slots, WithCaches, CachesOf;
    forall i: nat | i < |before|
      ensures after[i] == before[i].(cache := after[i].cache) && after[i].cache <= Slots(before[i].tokens)
    {
      FailureKeepsHistories(before, matched, size, planned, slots, counts, now, i);
    }
  }

  lemma {:induction false} AllSeeHistories<P, C>(env: Env<P, C>, before: seq<Sequence<P, C>>, matched: seq<nat>,
        size: nat, planned: seq<Sequence<P, C>>, slots: seq<Slot>, counts: seq<nat>, now: seq<seq<Slot>>,
        rows: seq<seq<real>>, after: seq<Sequence<P, C>>)
    requires size > 0 && Admitted(before, |matched|) && planned == PlannedAll(before, matched, size)
    requires var inputs := InputsOf(planned, InfosOf(before, matched, size));
      slots == Flat(inputs) && counts == Counts(inputs)
    requires |counts| == |before| == |now| && |slots| == Sum(counts)
    requires Ran(env, counts, slots, CachesOf(planned), Some(rows), now)
    requires after == WithCaches(planned, now)
    ensures |rows| == |after| == |before|
    ensures forall i | 0 <= i < |before| ::
      && after[i] == before[i].(cache := Slots(before[i].tokens))
      && rows[i] == env.logits(Slots(before[i].tokens))
    ensures forall i | 0 <= i < |before| :: now[i] == after[i].cache
  {
    hide Flat, Counts, InputsOf, InfosOf, PlannedAll, Partly, Extended, Sum, Slots, CachesOf;
    forall i: nat | i < |before|
      ensures after[i] == before[i].(cache := Slots(before[i].tokens)) && rows[i] == env.logits(Slots(before[i].tokens))
    {
      ForwardsSeeHistories(env, before, matched, size, planned, slots, counts, i);
    }
  }

  lemma {:induction false} CarriedIsPrefilled<P, C>(prefix: PrefixCache, allocs: seq<BlockAllocator>,
        tables: seq<PagedCache>, outside: seq<multiset<nat>>, split: nat, now: seq<seq<Slot>>,
        before: seq<Sequence<P, C>>, after: seq<Sequence<P, C>>)
    requires Carrying(prefix, allocs, tables, outside, split, now) && |before| == |after| == |tables| == |now|
    requires prefix.size > 0
    requires split <= |before|
    requires forall i | 0 <= i < |after| ::
      after[i] == before[i].(cache := Slots(before[i].tokens)) && now[i] == after[i].cache
    ensures TokensOf(after) == TokensOf(before)
    ensures Prefilled(prefix, allocs, tables, outside, split, TokensOf(before))
  {
    hide Slots, FilledAll, StoredAll, PoolsOf, Sharing;
    forall i | 0 <= i < split
      ensures StoredAll(PoolsOf(allocs), tables[i].layers, Slots(before[i].tokens), prefix.size)
    {
      FilledIsStored(PoolsOf(allocs), LayersOf(tables)[i], now[i], prefix.size);
    }
  }

  lemma {:induction false} FullIsRegistrable<P, C>(before: seq<Sequence<P, C>>, matched: seq<nat>, size: nat)
    requires size > 0 && |matched| <= |before|
    ensures Registrable(InfosOf(before, matched, size), TokensOf(before), size)
  {
    forall i | 0 <= i < |matched|
      ensures InfosOf(before, matched, size)[i].numFullBlocksTotal * size <= |TokensOf(before)[i]|
    {
      FullBlocks(|before[i].tokens|, size);
    }
  }

  lemma {:induction false} PrefilledIsSharing(prefix: PrefixCache, allocs: seq<BlockAllocator>, tables: seq<PagedCache>,
        outside: seq<multiset<nat>>, split: nat, prompts: seq<seq<nat>>)
    requires Prefilled(prefix, allocs, tables, outside, split, prompts)
    ensures Sharing(prefix, allocs, tables, outside)
  {
  }

  lemma {:induction false} HasStepped<P, C>(env: Env<P, C>, before: seq<Sequence<P, C>>, after: seq<Sequence<P, C>>,
        rows: seq<seq<real>>, end: seq<Sequence<P, C>>, out: seq<(nat, nat)>)
    requires |rows| == |after| == |before|
    requires forall i | 0 <= i < |before| ::
      && after[i] == before[i].(cache := Slots(before[i].tokens))
      && rows[i] == env.logits(Slots(before[i].tokens))
    requires end == SampledAll(env, after, rows) && out == EmittedFrom(env, after, rows, |after|)
    ensures Stepped(env, before, end, Some(out))
  {
    hide Slots, SampledAll, EmittedFrom, AloneAll, EmittedAlone;
    EachAsIfAlone(env, before, after, rows, |before|);
  }

  /** One engine step without speculation: the first `split` sequences are prefilled, the others decode. Whatever the
      prefix cache supplies, each sequence takes the step it would take alone, and the cache stays sound. */
  method Step<P, C>(env: Env<P, C>, seqs: seq<SequenceState<P, C>>, split: nat, prefix: PrefixCache,
        allocs: seq<BlockAllocator>, tables: seq<PagedCache>, ghost outside: seq<multiset<nat>>, pacer: PrefillPacer,
        weather: Weather)
    returns (newTokens: Option<seq<(nat, nat)>>)
    requires pacer.Valid() && Distinct(seqs) && |seqs| == |tables| && |allocs| > 0
    requires Admitted(Values(seqs), split) && Sharing(prefix, allocs, tables, outside)
    requires forall i | 0 <= i < split :: tables[i].layers == NoTables(|allocs|)
    requires AllForeseen(prefix, TokensOf(Values(seqs)), split)
    modifies seqs, tables, allocs, prefix`entries, prefix`log, pacer
    ensures pacer.Valid() && Sharing(prefix, allocs, tables, outside)
    ensures LogFrom(prefix.log, old(prefix.log), old(TokensOf(Values(seqs))))
    ensures Stepped(env, old(Values(seqs)), Values(seqs), newTokens)
  {
    hide PlannedAll, InfosOf, CachesOf, Primed, Sound, Distinct, Values, SequenceState.Value, PrefillPacer.Valid,
      Stepped, NoTables, AllForeseen, LogFrom, LayersOf;
    ghost var before := Values(seqs);
    SoundSize(prefix, allocs, LayersOf(tables), outside);
    AdmittedFacts(before, split);
    var infos;
    ghost var matched;
    infos, matched := PlanPrefillInputs(seqs, split, prefix, allocs, tables, outside);
    newTokens := Forward(env, seqs, infos, prefix, allocs, tables, outside, pacer, weather, before, matched);
  }

  lemma {:induction false} AdmittedFacts<P, C>(vs: seq<Sequence<P, C>>, split: nat)
    requires Admitted(vs, split)
    ensures forall i | 0 <= i < split :: vs[i].cache == []
    ensures forall i | 0 <= i < |vs| :: vs[i].tokens != []
    ensures forall i | split <= i < |vs| :: vs[i].phase == Decode
  {
  }

  lemma {:induction false} PlannedFacts<P, C>(vs: seq<Sequence<P, C>>, matched: seq<nat>, blockSize: nat)
    requires blockSize > 0 && |matched| <= |vs|
    ensures forall i | 0 <= i < |vs| :: PlannedAll(vs, matched, blockSize)[i].tokens == vs[i].tokens
    ensures forall i | 0 <= i < |matched| ::
      var info := InfosOf(vs, matched, blockSize)[i];
      info.uncachedLen == |info.inputTokens|
  {
    hide Prepopulated;
  }
}
