/** Turning a growing token sequence into text deltas (src/common/incremental_decode.rs). */
module IncrementalDecode {
  import opened Utf8
  import opened Wrappers

  const DECODE_STABLE_LOOKBACK: nat := 4
  const SPLIT_CHAR_BACKOFF: nat := 3

  /** A byte-level tokenizer: the octets of every token. */
  type Tokenizer = nat -> Text

  function Octets(tok: Tokenizer, ids: seq<nat>): Text {
    if ids == [] then [] else Octets(tok, ids[..|ids| - 1]) + tok(ids[|ids| - 1])
  }

  function Decode(tok: Tokenizer, ids: seq<nat>): Text {
    Lossy(Octets(tok, ids))
  }

  lemma {:induction false} OctetsConcat(tok: Tokenizer, a: seq<nat>, b: seq<nat>)
    ensures Octets(tok, a + b) == Octets(tok, a) + Octets(tok, b)
    decreases |b|
  {
    if b == [] {
      assert a + b == a;
    } else {
      assert (a + b)[..|a + b| - 1] == a + b[..|b| - 1];
      OctetsConcat(tok, a, b[..|b| - 1]);
    }
  }

  lemma {:induction false} OctetsSplit(tok: Tokenizer, ids: seq<nat>, m: nat, n: nat)
    requires m <= n <= |ids|
    ensures Octets(tok, ids[..n]) == Octets(tok, ids[..m]) + Octets(tok, ids[m..n])
  {
    assert ids[..n] == ids[..m] + ids[m..n];
    OctetsConcat(tok, ids[..m], ids[m..n]);
  }

  // ----- the neutral prefix

  datatype NeutralPrefix = NeutralPrefix(id: nat, text: Text)

  predicate NeutralOk(tok: Tokenizer, neutral: NeutralPrefix) {
    Complete(tok(neutral.id)) && neutral.text == Decode(tok, [neutral.id])
  }

  function DecodeWithNeutralPrefix(tok: Tokenizer, ids: seq<nat>, neutral: NeutralPrefix): Text {
    if ids == [] then [] else
      var withPrefix := Decode(tok, [neutral.id] + ids);
      if neutral.text <= withPrefix then withPrefix[|neutral.text|..] else Decode(tok, ids)
  }

  /** Stripping the neutral token leaves the decode of the fragment. */
  lemma {:induction false} NeutralIsNeutral(tok: Tokenizer, ids: seq<nat>, neutral: NeutralPrefix)
    requires NeutralOk(tok, neutral)
    ensures DecodeWithNeutralPrefix(tok, ids, neutral) == Decode(tok, ids)
  {
    hide Lossy, Complete;
    OctetsConcat(tok, [neutral.id], ids);
    OneToken(tok, neutral.id);
    AfterComplete(tok(neutral.id), Octets(tok, ids));
    CompleteIsValid(tok(neutral.id));
    NoOctets(tok);
  }

  lemma {:induction false} OneToken(tok: Tokenizer, id: nat)
    ensures Octets(tok, [id]) == tok(id)
  {
    assert [id][..0] == [];
  }

  lemma {:induction false} NoOctets(tok: Tokenizer)
    ensures Octets(tok, []) == [] && Decode(tok, []) == []
  {
  }

  // ----- emission

  predicate CharBoundary(s: Text, i: nat) {
    i == 0 || i == |s| || (i < |s| && !Tail(s[i]))
  }

  function ClampToCharBoundary(s: Text, i: nat): (r: nat)
    ensures r <= i && r <= |s| && CharBoundary(s, r)
    ensures i <= |s| && CharBoundary(s, i) ==> r == i
  {
    if i > |s| then |s|
    else if CharBoundary(s, i) then i
    else ClampToCharBoundary(s, i - 1)
  }

  /** The text not yet sent and how much has been sent after it; a U+FFFD at the end is held back. */
  function EmitSuffix(full: Text, decodedLen: nat): (Option<Text>, nat) {
    var start := ClampToCharBoundary(full, decodedLen);
    var emit := Trimmed(full[start..]);
    if emit != [] then (Some(emit), start + |emit|) else (None, start)
  }

  function Sent(r: Option<Text>): Text {
    if r.Some? then r.value else []
  }

  // ----- the stable window

  function Target(n: nat): nat {
    if n < DECODE_STABLE_LOOKBACK then 0 else n - DECODE_STABLE_LOOKBACK
  }

  /** The text of tokens `from..end`. */
  function Delta(tok: Tokenizer, ids: seq<nat>, from: nat, end: nat, neutral: NeutralPrefix): Text
    requires from <= end <= |ids|
  {
    if from == 0 then Decode(tok, ids[..end]) else DecodeWithNeutralPrefix(tok, ids[from..end], neutral)
  }

  predicate Broken(tok: Tokenizer, ids: seq<nat>, from: nat, end: nat, neutral: NeutralPrefix)
    requires from <= end <= |ids|
  {
    EndsWith(Delta(tok, ids, from, end, neutral), REPLACEMENT)
  }

  /** What one text channel remembers. */
  datatype Channel = Channel(decodedLen: nat, stableEnd: nat, stableText: Text)

  /** Backs off from a split character, at most three tokens. */
  function BackOff(tok: Tokenizer, ids: seq<nat>, from: nat, end: nat, neutral: NeutralPrefix): (e: nat)
    requires from < end <= Target(|ids|) <= end + SPLIT_CHAR_BACKOFF
    ensures from < e <= end && Target(|ids|) <= e + SPLIT_CHAR_BACKOFF
    decreases end
  {
    if Broken(tok, ids, from, end, neutral) && end > from + 1 && end + SPLIT_CHAR_BACKOFF > Target(|ids|) then
      BackOff(tok, ids, from, end - 1, neutral)
    else end
  }

  lemma {:induction false} BackOffStops(tok: Tokenizer, ids: seq<nat>, from: nat, end: nat, neutral: NeutralPrefix)
    requires from < end <= Target(|ids|) <= end + SPLIT_CHAR_BACKOFF
    ensures var e := BackOff(tok, ids, from, end, neutral);
      && (Broken(tok, ids, from, e, neutral) ==> e == from + 1 || e + SPLIT_CHAR_BACKOFF == Target(|ids|))
      && forall k | e < k <= end :: Broken(tok, ids, from, k, neutral)
    decreases end
  {
    hide Broken;
    if Broken(tok, ids, from, end, neutral) && end > from + 1 && end + SPLIT_CHAR_BACKOFF > Target(|ids|) {
      BackOffStops(tok, ids, from, end - 1, neutral);
    }
  }

  /** Where the stable window ends next. */
  function NextEnd(tok: Tokenizer, ids: seq<nat>, from: nat, neutral: NeutralPrefix): (end: nat)
    requires from <= |ids|
    ensures from <= end <= |ids| && |ids| - end <= DECODE_STABLE_LOOKBACK + SPLIT_CHAR_BACKOFF
    ensures end > from ==> end <= Target(|ids|)
  {
    var target := Target(|ids|);
    if target <= from then from else
      var end := BackOff(tok, ids, from, target, neutral);
      BackOffStops(tok, ids, from, target, neutral);
      if !Broken(tok, ids, from, end, neutral) then end
      else if end + SPLIT_CHAR_BACKOFF > target then from
      else target
  }

  /** The channel after the window has moved. */
  function Frozen(tok: Tokenizer, ids: seq<nat>, c: Channel, neutral: NeutralPrefix): (d: Channel)
    requires c.stableEnd <= |ids|
    ensures c.stableEnd <= d.stableEnd <= |ids|
  {
    var end := NextEnd(tok, ids, c.stableEnd, neutral);
    if end == c.stableEnd then c else
      var delta := Delta(tok, ids, c.stableEnd, end, neutral);
      c.(stableEnd := end, stableText := if c.stableEnd == 0 then delta else c.stableText + delta)
  }

  /** The whole text as the channel sees it. */
  function Seen(tok: Tokenizer, ids: seq<nat>, c: Channel, neutral: NeutralPrefix): Text
    requires c.stableEnd <= |ids|
  {
    c.stableText + Delta(tok, ids, c.stableEnd, |ids|, neutral)
  }

  /** One push: the channel after it and the text handed out. */
  function Pushed(tok: Tokenizer, ids: seq<nat>, c: Channel, neutral: NeutralPrefix): (r: (Channel, Option<Text>))
    requires c.stableEnd <= |ids|
    ensures c.stableEnd <= r.0.stableEnd <= |ids|
  {
    var d := Frozen(tok, ids, c, neutral);
    var sent := EmitSuffix(Seen(tok, ids, d, neutral), c.decodedLen);
    (d.(decodedLen := sent.1), sent.0)
  }

  /** What the end of the stream hands out. */
  function Finished(tok: Tokenizer, ids: seq<nat>, c: Channel): Option<Text> {
    if ids == [] then None else
      var full := Decode(tok, ids);
      var start := ClampToCharBoundary(full, c.decodedLen);
      if start < |full| then Some(full[start..]) else None
  }

  class IncrementalDecoder {
    var decodedLen: nat
    var stableEnd: nat
    var stableText: Text

    function View(): Channel
      reads this
    {
      Channel(decodedLen, stableEnd, stableText)
    }

    constructor ()
      ensures View() == Channel(0, 0, [])
    {
      decodedLen, stableEnd, stableText := 0, 0, [];
    }

    /** Freezes old tokens, up to the last end that decodes cleanly. */
    method AdvanceStableWindow(tok: Tokenizer, ids: seq<nat>, neutral: NeutralPrefix)
      requires stableEnd <= |ids|
      modifies `stableEnd, `stableText
      ensures View() == Frozen(tok, ids, old(View()), neutral)
      // Never more than seven tokens are left to decode again.
      ensures old(stableEnd) <= stableEnd <= |ids| && |ids| - stableEnd <= 7
    {
      hide Delta, Broken;
      var target := Target(|ids|);
      if target <= stableEnd {
        return;
      }
      var end := target;
      while Broken(tok, ids, stableEnd, end, neutral) && end > stableEnd + 1 && end + SPLIT_CHAR_BACKOFF > target
        invariant stableEnd < end <= target <= end + SPLIT_CHAR_BACKOFF
        invariant BackOff(tok, ids, stableEnd, end, neutral) == BackOff(tok, ids, stableEnd, target, neutral)
      {
        end := end - 1;
      }
      if Broken(tok, ids, stableEnd, end, neutral) {
        if end + SPLIT_CHAR_BACKOFF > target {
          return;
        }
        end := target;
      }
      var delta := Delta(tok, ids, stableEnd, end, neutral);
      if stableEnd == 0 {
        stableText := delta;
      } else {
        stableText := stableText + delta;
      }
      stableEnd := end;
    }

    method Push(tok: Tokenizer, ids: seq<nat>, neutral: NeutralPrefix) returns (r: Option<Text>)
      requires stableEnd <= |ids|
      modifies this
      ensures (View(), r) == Pushed(tok, ids, old(View()), neutral)
      ensures |ids| - stableEnd <= 7
    {
      hide Frozen, EmitSuffix, Delta;
      AdvanceStableWindow(tok, ids, neutral);
      var windowText := Delta(tok, ids, stableEnd, |ids|, neutral);
      var sent := EmitSuffix(stableText + windowText, decodedLen);
      r, decodedLen := sent.0, sent.1;
    }

    method Finish(tok: Tokenizer, ids: seq<nat>) returns (r: Option<Text>)
      modifies `decodedLen
      ensures r == Finished(tok, ids, old(View()))
    {
      hide Decode, ClampToCharBoundary;
      if |ids| == 0 {
        return None;
      }
      var full := Decode(tok, ids);
      var start := ClampToCharBoundary(full, decodedLen);
      decodedLen := |full|;
      r := if start < |full| then Some(full[start..]) else None;
    }
  }

  // ----- what is true of valid text

  /** The frozen text is the frozen tokens' text and ends at a character boundary. */
  predicate Right(tok: Tokenizer, ids: seq<nat>, end: nat, text: Text) {
    && end <= |ids|
    && Complete(Octets(tok, ids[..end]))
    && text == Octets(tok, ids[..end])
  }

  predicate Good(tok: Tokenizer, ids: seq<nat>, neutral: NeutralPrefix, end: nat, text: Text) {
    && NeutralOk(tok, neutral)
    && Valid(Octets(tok, ids))
    && Right(tok, ids, end, text)
  }

  /** The four newest ends that may be frozen are all inside characters. */
  predicate Stuck(tok: Tokenizer, ids: seq<nat>, from: nat) {
    && Target(|ids|) >= from + SPLIT_CHAR_BACKOFF + 1
    && forall e | Target(|ids|) - SPLIT_CHAR_BACKOFF <= e <= Target(|ids|) :: !Complete(Octets(tok, ids[..e]))
  }

  /** Frozen tokens decode to their own text and break exactly at a split character. */
  lemma {:induction false} DeltaIs(tok: Tokenizer, ids: seq<nat>, from: nat, text: Text, end: nat,
        neutral: NeutralPrefix)
    requires Good(tok, ids, neutral, from, text) && from <= end <= |ids|
    ensures Valid(Octets(tok, ids[..end]))
    ensures text + Delta(tok, ids, from, end, neutral) == Lossy(Octets(tok, ids[..end]))
    ensures Broken(tok, ids, from, end, neutral) <==> !Complete(Octets(tok, ids[..end]))
  {
    hide Valid, Complete, Whole, Lossy, Octets, NeutralOk, EndsWith;
    var a, b := Octets(tok, ids[..from]), Octets(tok, ids[from..end]);
    assert ids[..|ids|] == ids;
    OctetsSplit(tok, ids, end, |ids|);
    ValidPrefix(Octets(tok, ids), |Octets(tok, ids[..end])|);
    assert Octets(tok, ids)[..|Octets(tok, ids[..end])|] == Octets(tok, ids[..end]);
    OctetsSplit(tok, ids, from, end);
    AfterComplete(a, b);
    SplitEnd(b);
    NeutralIsNeutral(tok, ids[from..end], neutral);
    if from == 0 {
      NoOctets(tok);
      assert ids[..0] == [] && ids[0..end] == ids[..end];
      assert a + b == b;
    }
  }

  /** The window stays put when the ends it may take are all broken, unless the back-off is exhausted. */
  lemma {:induction false} EndIs(tok: Tokenizer, ids: seq<nat>, from: nat, neutral: NeutralPrefix)
    requires from <= |ids|
    ensures var end := NextEnd(tok, ids, from, neutral);
      && (end > from && Broken(tok, ids, from, end, neutral) ==>
          end == Target(|ids|) >= from + SPLIT_CHAR_BACKOFF + 1
          && forall e | end - SPLIT_CHAR_BACKOFF <= e <= end :: Broken(tok, ids, from, e, neutral))
      && (Target(|ids|) >= from + SPLIT_CHAR_BACKOFF + 1
          && (forall e | Target(|ids|) - SPLIT_CHAR_BACKOFF <= e <= Target(|ids|) ::
                Broken(tok, ids, from, e, neutral)) ==>
          end == Target(|ids|))
  {
    hide Broken;
    if Target(|ids|) > from {
      BackOffStops(tok, ids, from, Target(|ids|), neutral);
    }
  }

  /** On valid text the frozen part stays right exactly when the window is not stuck inside characters. */
  lemma {:induction false} FreezeIsRight(tok: Tokenizer, ids: seq<nat>, c: Channel, neutral: NeutralPrefix)
    requires Good(tok, ids, neutral, c.stableEnd, c.stableText)
    ensures var d := Frozen(tok, ids, c, neutral);
      && d.stableEnd <= |ids|
      && (Right(tok, ids, d.stableEnd, d.stableText) <==> !Stuck(tok, ids, c.stableEnd))
      && d.stableText + [] == Lossy(Octets(tok, ids[..d.stableEnd]))
      && (Stuck(tok, ids, c.stableEnd) ==> d.stableEnd == Target(|ids|) > c.stableEnd)
  {
    hide Valid, Complete, Lossy, Octets, NeutralOk, Broken, Delta, NextEnd;
    var from, text := c.stableEnd, c.stableText;
    forall e | from <= e <= |ids|
      ensures Broken(tok, ids, from, e, neutral) <==> !Complete(Octets(tok, ids[..e]))
    {
      DeltaIs(tok, ids, from, text, e, neutral);
    }
    EndIs(tok, ids, from, neutral);
    var end := NextEnd(tok, ids, from, neutral);
    DeltaIs(tok, ids, from, text, end, neutral);
    CompleteIsValid(Octets(tok, ids[..from]));
    if Complete(Octets(tok, ids[..end])) {
      CompleteIsValid(Octets(tok, ids[..end]));
    }
    if from == 0 {
      NoOctets(tok);
      assert ids[..0] == [];
      assert text + Delta(tok, ids, from, end, neutral) == Delta(tok, ids, from, end, neutral);
    }
  }

  lemma {:induction false} FullIsDecode(tok: Tokenizer, ids: seq<nat>, end: nat, text: Text, neutral: NeutralPrefix)
    requires Good(tok, ids, neutral, end, text)
    ensures text + Delta(tok, ids, end, |ids|, neutral) == Lossy(Octets(tok, ids))
  {
    hide Valid, Complete, Lossy, Octets, NeutralOk, Delta;
    DeltaIs(tok, ids, end, text, |ids|, neutral);
    assert ids[..|ids|] == ids;
  }

  /** A valid text starts with the whole characters of any prefix, and so does its decode. */
  lemma {:induction false} WholeThenRest(p: Text, q: Text)
    requires Valid(p + q)
    ensures var w := Whole(p);
      && w <= p && Whole(p + q) == w + Whole(p[|w|..] + q)
      && Lossy(p + q) == w + Lossy(p[|w|..] + q)
      && Valid(p[|w|..] + q)
      && CharBoundary(Lossy(p + q), |w|) && |w| <= |Lossy(p + q)|
  {
    hide Valid, Complete, Whole, Lossy;
    var w := Whole(p);
    var rest := p[|w|..] + q;
    ValidPrefix(p + q, |p|);
    assert (p + q)[..|p|] == p;
    ValidParts(p);
    assert p + q == w + rest;
    AfterComplete(w, rest);
    if rest == [] {
      CompleteIsValid([]);
    } else {
      BoundaryAfter(w, rest);
      HeadOrSplit(rest);
      assert (w + Lossy(rest))[|w|] == Lossy(rest)[0];
    }
  }

  lemma {:induction false} EmitsTheRest(tok: Tokenizer, ids: seq<nat>, before: nat)
    requires Valid(Octets(tok, ids)) && before <= |ids|
    ensures var whole, w := Whole(Octets(tok, ids)), Whole(Octets(tok, ids[..before]));
      var sent := EmitSuffix(Lossy(Octets(tok, ids)), |w|);
      whole == w + Sent(sent.0) && sent.1 == |whole|
  {
    hide Valid, Complete, Whole, Lossy, Octets, Trimmed;
    assert ids[..|ids|] == ids;
    OctetsSplit(tok, ids, before, |ids|);
    var p, q := Octets(tok, ids[..before]), Octets(tok, ids[before..]);
    WholeThenRest(p, q);
    var w := Whole(p);
    var rest := p[|w|..] + q;
    SplitEnd(rest);
    assert (w + Lossy(rest))[|w|..] == Lossy(rest);
  }

  lemma {:induction false} WholeIsDecoded(s: Text)
    requires Valid(s)
    ensures Whole(s) <= Lossy(s)
  {
    hide Valid, Complete, Whole, Lossy;
    ValidParts(s);
  }

  lemma {:induction false} NothingToFinish(tok: Tokenizer)
    ensures Octets(tok, []) == [] && Whole([]) == [] && Decode(tok, []) == []
  {
  }

  // ----- a whole stream

  predicate Increasing(cuts: seq<nat>, last: nat) {
    && (forall i, j | 0 <= i < j < |cuts| :: cuts[i] <= cuts[j])
    && cuts != [] && cuts[|cuts| - 1] == last
  }

  /** How many tokens the first `i` pushes have seen. */
  function SeenTokens(cuts: seq<nat>, i: nat): nat
    requires i <= |cuts|
  {
    if i == 0 then 0 else cuts[i - 1]
  }

  lemma {:induction false} CutsGrow(cuts: seq<nat>, last: nat, i: nat)
    requires Increasing(cuts, last) && i < |cuts|
    ensures SeenTokens(cuts, i) <= cuts[i] <= last
  {
    assert i < |cuts| - 1 ==> cuts[i] <= cuts[|cuts| - 1];
  }

  /** The channel after the first `i` pushes. */
  function After(tok: Tokenizer, ids: seq<nat>, cuts: seq<nat>, neutral: NeutralPrefix, i: nat): (c: Channel)
    requires Increasing(cuts, |ids|) && i <= |cuts|
    ensures c.stableEnd <= SeenTokens(cuts, i) <= |ids|
  {
    if i == 0 then Channel(0, 0, []) else
      CutsGrow(cuts, |ids|, i - 1);
      Pushed(tok, ids[..cuts[i - 1]], After(tok, ids, cuts, neutral, i - 1), neutral).0
  }

  /** What the first `i` pushes handed out. */
  function SentBy(tok: Tokenizer, ids: seq<nat>, cuts: seq<nat>, neutral: NeutralPrefix, i: nat): Text
    requires Increasing(cuts, |ids|) && i <= |cuts|
  {
    if i == 0 then [] else
      CutsGrow(cuts, |ids|, i - 1);
      SentBy(tok, ids, cuts, neutral, i - 1)
      + Sent(Pushed(tok, ids[..cuts[i - 1]], After(tok, ids, cuts, neutral, i - 1), neutral).1)
  }

  /** What all pushes and the finish hand out. */
  function Streamed(tok: Tokenizer, ids: seq<nat>, cuts: seq<nat>, neutral: NeutralPrefix): Text
    requires Increasing(cuts, |ids|)
  {
    SentBy(tok, ids, cuts, neutral, |cuts|) + Sent(Finished(tok, ids, After(tok, ids, cuts, neutral, |cuts|)))
  }

  /** Feeds the sequence as it grows through the lengths `cuts` and finishes it. */
  method Stream(tok: Tokenizer, ids: seq<nat>, cuts: seq<nat>, neutral: NeutralPrefix) returns (text: Text)
    requires Increasing(cuts, |ids|)
    ensures text == Streamed(tok, ids, cuts, neutral)
  {
    hide Pushed, Finished;
    var d := new IncrementalDecoder();
    text := [];
    for i := 0 to |cuts|
      invariant d.View() == After(tok, ids, cuts, neutral, i) && text == SentBy(tok, ids, cuts, neutral, i)
    {
      CutsGrow(cuts, |ids|, i);
      var r := d.Push(tok, ids[..cuts[i]], neutral);
      text := text + Sent(r);
    }
    var r := d.Finish(tok, ids);
    text := text + Sent(r);
  }

  /** The window of push `i` is not stuck. */
  predicate Moves(tok: Tokenizer, ids: seq<nat>, cuts: seq<nat>, neutral: NeutralPrefix, i: nat)
    requires Increasing(cuts, |ids|) && i < |cuts|
  {
    CutsGrow(cuts, |ids|, i);
    !Stuck(tok, ids[..cuts[i]], After(tok, ids, cuts, neutral, i).stableEnd)
  }

  predicate NoPushStuck(tok: Tokenizer, ids: seq<nat>, cuts: seq<nat>, neutral: NeutralPrefix)
    requires Increasing(cuts, |ids|)
  {
    forall i | 0 <= i < |cuts| :: Moves(tok, ids, cuts, neutral, i)
  }

  lemma {:induction false} PrefixOctets(tok: Tokenizer, ids: seq<nat>, n: nat)
    requires n <= |ids|
    ensures Valid(Octets(tok, ids)) ==> Valid(Octets(tok, ids[..n]))
    ensures Octets(tok, ids) == Octets(tok, ids[..n]) + Octets(tok, ids[n..])
  {
    hide Valid, Octets;
    assert ids[..|ids|] == ids;
    OctetsSplit(tok, ids, n, |ids|);
    if Valid(Octets(tok, ids)) {
      ValidPrefix(Octets(tok, ids), |Octets(tok, ids[..n])|);
      assert Octets(tok, ids)[..|Octets(tok, ids[..n])|] == Octets(tok, ids[..n]);
    }
  }

  /** What is handed out while no push was stuck. */
  ghost predicate InStep(tok: Tokenizer, ids: seq<nat>, cuts: seq<nat>, neutral: NeutralPrefix, i: nat)
    requires Increasing(cuts, |ids|) && i <= |cuts|
  {
    var c := After(tok, ids, cuts, neutral, i);
    && Right(tok, ids, c.stableEnd, c.stableText)
    && SentBy(tok, ids, cuts, neutral, i) == Whole(Octets(tok, ids[..SeenTokens(cuts, i)]))
    && c.decodedLen == |SentBy(tok, ids, cuts, neutral, i)|
  }

  lemma {:induction false} StartsInStep(tok: Tokenizer, ids: seq<nat>, cuts: seq<nat>, neutral: NeutralPrefix)
    requires Increasing(cuts, |ids|)
    ensures InStep(tok, ids, cuts, neutral, 0)
  {
    assert ids[..0] == [];
  }

  /** A push whose window is not stuck stays in step. */
  lemma {:induction false} PushInStep(tok: Tokenizer, ids: seq<nat>, c: Channel, before: nat, n: nat,
        neutral: NeutralPrefix)
    requires NeutralOk(tok, neutral) && Valid(Octets(tok, ids)) && c.stableEnd <= before <= n <= |ids|
    requires Right(tok, ids, c.stableEnd, c.stableText) && c.decodedLen == |Whole(Octets(tok, ids[..before]))|
    requires !Stuck(tok, ids[..n], c.stableEnd)
    ensures var r := Pushed(tok, ids[..n], c, neutral);
      && Right(tok, ids, r.0.stableEnd, r.0.stableText)
      && Whole(Octets(tok, ids[..n])) == Whole(Octets(tok, ids[..before])) + Sent(r.1)
      && r.0.decodedLen == |Whole(Octets(tok, ids[..n]))|
  {
    hide Valid, Complete, Whole, Lossy, Octets, NeutralOk, Stuck, Frozen, EmitSuffix, Delta;
    var now := ids[..n];
    PrefixOctets(tok, ids, n);
    assert now[..c.stableEnd] == ids[..c.stableEnd] && now[..before] == ids[..before];
    FreezeIsRight(tok, now, c, neutral);
    var d := Frozen(tok, now, c, neutral);
    assert now[..d.stableEnd] == ids[..d.stableEnd];
    FullIsDecode(tok, now, d.stableEnd, d.stableText, neutral);
    EmitsTheRest(tok, now, before);
  }

  lemma {:induction false} StaysInStep(tok: Tokenizer, ids: seq<nat>, cuts: seq<nat>, neutral: NeutralPrefix, i: nat)
    requires NeutralOk(tok, neutral) && Increasing(cuts, |ids|) && Valid(Octets(tok, ids)) && i <= |cuts|
    requires forall k | 0 <= k < i :: Moves(tok, ids, cuts, neutral, k)
    ensures InStep(tok, ids, cuts, neutral, i)
  {
    hide Valid, Whole, Octets, NeutralOk, Stuck, Right, Pushed;
    if i == 0 {
      StartsInStep(tok, ids, cuts, neutral);
    } else {
      StaysInStep(tok, ids, cuts, neutral, i - 1);
      CutsGrow(cuts, |ids|, i - 1);
      assert Moves(tok, ids, cuts, neutral, i - 1);
      PushInStep(tok, ids, After(tok, ids, cuts, neutral, i - 1), SeenTokens(cuts, i - 1), cuts[i - 1], neutral);
    }
  }

  /** Theorem: on valid text, while no push is stuck the stream is the decode. */
  lemma {:induction false} StreamIsDecode(tok: Tokenizer, ids: seq<nat>, cuts: seq<nat>, neutral: NeutralPrefix)
    requires NeutralOk(tok, neutral) && Increasing(cuts, |ids|) && Valid(Octets(tok, ids))
    requires NoPushStuck(tok, ids, cuts, neutral)
    ensures Streamed(tok, ids, cuts, neutral) == Decode(tok, ids)
  {
    hide Valid, Whole, Lossy, Octets, NeutralOk, Right, Pushed, After, SentBy, Moves;
    StaysInStep(tok, ids, cuts, neutral, |cuts|);
    assert ids[..|ids|] == ids;
    FinishIsRest(tok, ids, After(tok, ids, cuts, neutral, |cuts|));
  }

  lemma {:induction false} FinishIsRest(tok: Tokenizer, ids: seq<nat>, c: Channel)
    requires Valid(Octets(tok, ids)) && c.decodedLen == |Whole(Octets(tok, ids))|
    ensures Whole(Octets(tok, ids)) + Sent(Finished(tok, ids, c)) == Decode(tok, ids)
  {
    hide Valid, Complete, Whole, Lossy, Octets, ClampToCharBoundary;
    NothingToFinish(tok);
    assert Octets(tok, ids) + [] == Octets(tok, ids);
    WholeThenRest(Octets(tok, ids), []);
    WholeIsDecoded(Octets(tok, ids));
  }

  // ----- when a push is stuck

  predicate NoEmptyToken(tok: Tokenizer, ids: seq<nat>) {
    forall i | 0 <= i < |ids| :: tok(ids[i]) != []
  }

  lemma {:induction false} TokensAreLong(tok: Tokenizer, ids: seq<nat>, m: nat, n: nat)
    requires NoEmptyToken(tok, ids) && m <= n <= |ids|
    ensures |Octets(tok, ids[m..n])| >= n - m
  {
    if m < n {
      TokensAreLong(tok, ids, m, n - 1);
      assert ids[m..n] == ids[m..n - 1] + [ids[n - 1]];
      assert ids[m..n][..n - 1 - m] == ids[m..n - 1];
    }
  }

  /** The frozen text is longer than the octets it stands for, or ends inside a character, which will make it so. */
  predicate Heavy(tok: Tokenizer, ids: seq<nat>, end: nat, text: Text) {
    && 0 < end <= |ids|
    && (|| |text| > |Octets(tok, ids[..end])|
        || (|text| >= |Octets(tok, ids[..end])| && !Complete(Octets(tok, ids[..end]))))
  }

  /** A fragment behind a heavy one makes the text heavier than its octets, unless it is empty. */
  lemma {:induction false} FragmentIsHeavy(tok: Tokenizer, ids: seq<nat>, end: nat, text: Text, to: nat,
        neutral: NeutralPrefix)
    requires NeutralOk(tok, neutral) && Complete(Octets(tok, ids)) && NoEmptyToken(tok, ids)
    requires Heavy(tok, ids, end, text) && end < to <= |ids|
    ensures |text + DecodeWithNeutralPrefix(tok, ids[end..to], neutral)| > |Octets(tok, ids[..to])|
  {
    hide Complete, Lossy, Octets, NeutralOk;
    NeutralIsNeutral(tok, ids[end..to], neutral);
    OctetsSplit(tok, ids, end, to);
    var a, b := Octets(tok, ids[..end]), Octets(tok, ids[end..to]);
    TokensAreLong(tok, ids, end, to);
    LossyIsLonger(b);
    if !Complete(a) {
      PrefixOctets(tok, ids, to);
      var c := Octets(tok, ids[to..]);
      assert a + b + c == a + (b + c);
      BoundaryParts(a, b + c);
      assert (b + c)[0] == b[0];
    }
  }

  /** A push on a heavy channel leaves it heavy. */
  lemma {:induction false} HeavyStays(tok: Tokenizer, ids: seq<nat>, c: Channel, n: nat, neutral: NeutralPrefix)
    requires NeutralOk(tok, neutral) && Complete(Octets(tok, ids)) && NoEmptyToken(tok, ids)
    requires c.stableEnd <= n <= |ids| && Heavy(tok, ids, c.stableEnd, c.stableText)
    ensures var d := Pushed(tok, ids[..n], c, neutral).0; Heavy(tok, ids, d.stableEnd, d.stableText)
  {
    hide Complete, Octets, NeutralOk, EmitSuffix, NextEnd, DecodeWithNeutralPrefix;
    var end := NextEnd(tok, ids[..n], c.stableEnd, neutral);
    if end > c.stableEnd {
      FragmentIsHeavy(tok, ids, c.stableEnd, c.stableText, end, neutral);
      assert ids[..n][c.stableEnd..end] == ids[c.stableEnd..end];
    }
  }

  /** A stuck push makes a right channel heavy. */
  lemma {:induction false} StuckIsHeavy(tok: Tokenizer, ids: seq<nat>, c: Channel, n: nat, neutral: NeutralPrefix)
    requires NeutralOk(tok, neutral) && Valid(Octets(tok, ids)) && c.stableEnd <= n <= |ids|
    requires Right(tok, ids, c.stableEnd, c.stableText) && Stuck(tok, ids[..n], c.stableEnd)
    ensures var d := Pushed(tok, ids[..n], c, neutral).0; Heavy(tok, ids, d.stableEnd, d.stableText)
  {
    hide Valid, Complete, Lossy, Octets, NeutralOk, Frozen, EmitSuffix;
    var now := ids[..n];
    PrefixOctets(tok, ids, n);
    assert now[..c.stableEnd] == ids[..c.stableEnd];
    FreezeIsRight(tok, now, c, neutral);
    var d := Frozen(tok, now, c, neutral);
    assert now[..d.stableEnd] == ids[..d.stableEnd];
    LossyIsLonger(Octets(tok, ids[..d.stableEnd]));
    assert d.stableText + [] == d.stableText;
  }

  lemma {:induction false} HeavyToTheEnd(tok: Tokenizer, ids: seq<nat>, cuts: seq<nat>, neutral: NeutralPrefix, i: nat,
        j: nat)
    requires NeutralOk(tok, neutral) && Increasing(cuts, |ids|) && Complete(Octets(tok, ids)) && NoEmptyToken(tok, ids)
    requires i < j <= |cuts| && !Moves(tok, ids, cuts, neutral, i)
    requires forall k | 0 <= k < i :: Moves(tok, ids, cuts, neutral, k)
    ensures var c := After(tok, ids, cuts, neutral, j); Heavy(tok, ids, c.stableEnd, c.stableText)
    decreases j
  {
    hide Valid, Complete, Whole, Octets, NeutralOk, Stuck, Right, Pushed, Heavy;
    CompleteIsValid(Octets(tok, ids));
    CutsGrow(cuts, |ids|, j - 1);
    if j == i + 1 {
      StaysInStep(tok, ids, cuts, neutral, i);
      StuckIsHeavy(tok, ids, After(tok, ids, cuts, neutral, i), cuts[i], neutral);
    } else {
      HeavyToTheEnd(tok, ids, cuts, neutral, i, j - 1);
      HeavyStays(tok, ids, After(tok, ids, cuts, neutral, j - 1), cuts[j - 1], neutral);
    }
  }

  /** Never less is handed out than the channel thinks. */
  lemma {:induction false} SentIsCounted(tok: Tokenizer, ids: seq<nat>, cuts: seq<nat>, neutral: NeutralPrefix, i: nat)
    requires Increasing(cuts, |ids|) && i <= |cuts|
    ensures After(tok, ids, cuts, neutral, i).decodedLen <= |SentBy(tok, ids, cuts, neutral, i)|
  {
    hide Pushed;
    if i > 0 {
      SentIsCounted(tok, ids, cuts, neutral, i - 1);
      CutsGrow(cuts, |ids|, i - 1);
      PushCounts(tok, ids[..cuts[i - 1]], After(tok, ids, cuts, neutral, i - 1), neutral);
    }
  }

  lemma {:induction false} PushCounts(tok: Tokenizer, ids: seq<nat>, c: Channel, neutral: NeutralPrefix)
    requires c.stableEnd <= |ids|
    ensures var r := Pushed(tok, ids, c, neutral); r.0.decodedLen <= c.decodedLen + |Sent(r.1)|
  {
    hide Frozen, Seen, Trimmed, ClampToCharBoundary;
  }

  /** A last push that sees a text with a clean end has handed out as much as that text by then. */
  lemma {:induction false} AllIsSent(tok: Tokenizer, ids: seq<nat>, c: Channel, sent: Text, neutral: NeutralPrefix)
    requires c.stableEnd <= |ids| && c.decodedLen <= |sent|
    requires var full := Seen(tok, ids, Frozen(tok, ids, c, neutral), neutral); !EndsWith(full, REPLACEMENT)
    ensures |sent + Sent(Pushed(tok, ids, c, neutral).1)| >= |Seen(tok, ids, Frozen(tok, ids, c, neutral), neutral)|
  {
    hide Frozen, Seen, EndsWith, ClampToCharBoundary;
    var full := Seen(tok, ids, Frozen(tok, ids, c, neutral), neutral);
    var start := ClampToCharBoundary(full, c.decodedLen);
    CleanEnd(full, start);
  }

  lemma {:induction false} CleanEnd(full: Text, start: nat)
    requires start <= |full| && !EndsWith(full, REPLACEMENT)
    ensures Trimmed(full[start..]) == full[start..]
  {
    EndOfRest(full, start);
  }

  /** What the last push sees ends with the last character. */
  lemma {:induction false} SeenEndsClean(tok: Tokenizer, ids: seq<nat>, c: Channel, neutral: NeutralPrefix)
    requires NeutralOk(tok, neutral) && Complete(Octets(tok, ids)) && NoEmptyToken(tok, ids)
    requires 0 < c.stableEnd && c.stableEnd + DECODE_STABLE_LOOKBACK <= |ids|
    ensures !EndsWith(Seen(tok, ids, c, neutral), REPLACEMENT)
  {
    hide Complete, Lossy, Octets, NeutralOk, EndsWith;
    var end := c.stableEnd;
    NeutralIsNeutral(tok, ids[end..], neutral);
    PrefixOctets(tok, ids, end);
    TokensAreLong(tok, ids, end, |ids|);
    assert ids[end..|ids|] == ids[end..];
    var a, b := Octets(tok, ids[..end]), Octets(tok, ids[end..]);
    LeadNearEnd(a + b);
    assert forall k | 0 <= k < |b| :: (a + b)[|a| + k] == b[k];
    LossyEndsClean(a, b);
    LossyIsLonger(b);
    EndOfRest(c.stableText + Lossy(b), |c.stableText|);
    assert (c.stableText + Lossy(b))[|c.stableText|..] == Lossy(b);
  }

  /** The stable window never reaches into the last four tokens. */
  lemma {:induction false} WindowIsBehind(tok: Tokenizer, ids: seq<nat>, cuts: seq<nat>, neutral: NeutralPrefix, i: nat)
    requires Increasing(cuts, |ids|) && i <= |cuts|
    ensures After(tok, ids, cuts, neutral, i).stableEnd <= Target(SeenTokens(cuts, i))
  {
    hide Delta, EmitSuffix, NextEnd;
    if i > 0 {
      WindowIsBehind(tok, ids, cuts, neutral, i - 1);
      CutsGrow(cuts, |ids|, i - 1);
    }
  }

  lemma {:induction false} FirstStuck(tok: Tokenizer, ids: seq<nat>, cuts: seq<nat>, neutral: NeutralPrefix, n: nat)
    returns (i: nat)
    requires Increasing(cuts, |ids|) && n < |cuts| && !Moves(tok, ids, cuts, neutral, n)
    ensures i <= n && !Moves(tok, ids, cuts, neutral, i) && forall k | 0 <= k < i :: Moves(tok, ids, cuts, neutral, k)
  {
    hide Moves;
    i := 0;
    while Moves(tok, ids, cuts, neutral, i)
      invariant i <= n && forall k | 0 <= k < i :: Moves(tok, ids, cuts, neutral, k)
      decreases n - i
    {
      i := i + 1;
    }
  }

  /** A stuck push makes the stream longer than the decode. */
  lemma {:induction false} StuckIsLonger(tok: Tokenizer, ids: seq<nat>, cuts: seq<nat>, neutral: NeutralPrefix, n: nat)
    requires NeutralOk(tok, neutral) && Increasing(cuts, |ids|) && Complete(Octets(tok, ids)) && NoEmptyToken(tok, ids)
    requires n < |cuts| && !Moves(tok, ids, cuts, neutral, n)
    ensures |Streamed(tok, ids, cuts, neutral)| > |Decode(tok, ids)|
  {
    hide Complete, Lossy, Octets, NeutralOk, Moves, Pushed, Frozen, EndsWith, Finished, Heavy;
    var i := FirstStuck(tok, ids, cuts, neutral, n);
    var m := |cuts| - 1;
    assert ids[..cuts[m]] == ids;
    var c := After(tok, ids, cuts, neutral, m);
    HeavyToTheEnd(tok, ids, cuts, neutral, i, m + 1);
    LastPush(tok, ids, c, neutral);
    var d := Frozen(tok, ids, c, neutral);
    WindowIsBehind(tok, ids, cuts, neutral, m + 1);
    HeavyParts(tok, ids, d.stableEnd, d.stableText);
    SeenEndsClean(tok, ids, d, neutral);
    SentIsCounted(tok, ids, cuts, neutral, m);
    AllIsSent(tok, ids, c, SentBy(tok, ids, cuts, neutral, m), neutral);
    FragmentIsHeavy(tok, ids, d.stableEnd, d.stableText, |ids|, neutral);
    assert ids[d.stableEnd..|ids|] == ids[d.stableEnd..] && ids[..|ids|] == ids;
    CompleteIsValid(Octets(tok, ids));
  }

  lemma {:induction false} LastPush(tok: Tokenizer, ids: seq<nat>, c: Channel, neutral: NeutralPrefix)
    requires c.stableEnd <= |ids|
    ensures var d, p := Frozen(tok, ids, c, neutral), Pushed(tok, ids, c, neutral).0;
      d.stableEnd == p.stableEnd <= |ids| && d.stableText == p.stableText
  {
  }

  lemma {:induction false} HeavyParts(tok: Tokenizer, ids: seq<nat>, end: nat, text: Text)
    requires Heavy(tok, ids, end, text)
    ensures 0 < end <= |ids|
  {
  }

  /** Theorem: for tokens that spell whole characters, none of them empty and none of them U+FFFD, the stream is the
      decode exactly when no push finds its window stuck inside characters. */
  lemma {:induction false} StreamIsDecodeIff(tok: Tokenizer, ids: seq<nat>, cuts: seq<nat>, neutral: NeutralPrefix)
    requires NeutralOk(tok, neutral) && Increasing(cuts, |ids|) && Complete(Octets(tok, ids)) && NoEmptyToken(tok, ids)
    ensures Streamed(tok, ids, cuts, neutral) == Decode(tok, ids) <==> NoPushStuck(tok, ids, cuts, neutral)
  {
    hide Complete, Octets, NeutralOk, Moves, Streamed, Lossy;
    CompleteIsValid(Octets(tok, ids));
    if NoPushStuck(tok, ids, cuts, neutral) {
      StreamIsDecode(tok, ids, cuts, neutral);
    } else {
      var n :| 0 <= n < |cuts| && !Moves(tok, ids, cuts, neutral, n);
      StuckIsLonger(tok, ids, cuts, neutral, n);
    }
  }

  // ----- a stream that is still going on

  predicate IsOctet(tok: Tokenizer, id: nat, b: Octet) {
    tok(id) == [b]
  }

  ghost predicate HasOctet(tok: Tokenizer, b: Octet) {
    exists id :: IsOctet(tok, id, b)
  }

  /** As a byte-level vocabulary has: a token for every single octet. */
  ghost predicate HasAllOctets(tok: Tokenizer) {
    forall b: Octet :: HasOctet(tok, b)
  }

  /** The tokens go on with `more`, pushed at `later`, to whole characters, and then the stream is the decode. */
  ghost predicate ComesOutRight(tok: Tokenizer, ids: seq<nat>, cuts: seq<nat>, neutral: NeutralPrefix, more: seq<nat>,
        later: seq<nat>) {
    && Increasing(cuts + later, |ids + more|) && NoEmptyToken(tok, ids + more) && Complete(Octets(tok, ids + more))
    && Streamed(tok, ids + more, cuts + later, neutral) == Decode(tok, ids + more)
  }

  /** What has been pushed does not depend on what follows. */
  lemma {:induction false} SameSoFar(tok: Tokenizer, ids: seq<nat>, cuts: seq<nat>, neutral: NeutralPrefix,
        more: seq<nat>, later: seq<nat>, i: nat)
    requires Increasing(cuts, |ids|) && Increasing(cuts + later, |ids + more|) && i <= |cuts|
    ensures After(tok, ids + more, cuts + later, neutral, i) == After(tok, ids, cuts, neutral, i)
    ensures i < |cuts| ==> (Moves(tok, ids + more, cuts + later, neutral, i) <==> Moves(tok, ids, cuts, neutral, i))
  {
    hide Pushed, Stuck;
    if i > 0 {
      SameSoFar(tok, ids, cuts, neutral, more, later, i - 1);
      CutsGrow(cuts, |ids|, i - 1);
      assert (cuts + later)[i - 1] == cuts[i - 1];
      assert (ids + more)[..cuts[i - 1]] == ids[..cuts[i - 1]];
    }
    if i < |cuts| {
      CutsGrow(cuts, |ids|, i);
      assert (cuts + later)[i] == cuts[i];
      assert (ids + more)[..cuts[i]] == ids[..cuts[i]];
    }
  }

  /** Octets that complete a split character, to one that is not U+FFFD. */
  lemma {:induction false} SplitCompletes(z: Text) returns (q: Text)
    requires Split(z)
    ensures Complete(z + q)
  {
    var low: Octet := if |z| > 1 then 0x80 else if z[0] == 0xE0 then 0xA0 else if z[0] == 0xF0 then 0x90 else 0x80;
    q := [low] + seq(Width(z[0]) - |z| - 1, _ => 0x80);
    var t := z + q;
    assert forall k | 0 <= k < |z| :: t[k] == z[k];
    assert forall k | |z| <= k < |t| :: t[k] == q[k - |z|];
    assert Head(t) == |t|;
    assert t[|t| - 1] != 0xBD;
    assert t[..|t|] == t && t[|t|..] == [];
  }

  lemma {:induction false} ValidCompletes(s: Text) returns (q: Text)
    requires Valid(s)
    ensures Complete(s + q)
  {
    hide Valid, Complete, Whole, Split, Lossy;
    ValidParts(s);
    var w := Whole(s);
    var rest := s[|w|..];
    assert s == w + rest;
    if rest == [] {
      q := [];
      assert s + [] == s && w + [] == w;
    } else {
      q := SplitCompletes(rest);
      AfterComplete(w, rest + q);
      Regroup(w, rest, q);
    }
  }

  lemma {:induction false} Spell(tok: Tokenizer, q: Text) returns (ids: seq<nat>)
    requires HasAllOctets(tok)
    ensures Octets(tok, ids) == q && NoEmptyToken(tok, ids) && |ids| == |q|
    decreases |q|
  {
    if q == [] {
      ids := [];
    } else {
      var n := |q| - 1;
      var init := Spell(tok, q[..n]);
      assert HasOctet(tok, q[n]);
      var id :| IsOctet(tok, id, q[n]);
      ids := init + [id];
      assert ids[..n] == init;
      assert q[..n] + [q[n]] == q;
    }
  }

  function Plain(n: nat): (t: Text)
    ensures |t| == n
  {
    seq<Octet>(n, _ => 0x61)
  }

  lemma {:induction false} PlainIsComplete(n: nat)
    ensures Complete(Plain(n))
    decreases n
  {
    var t := Plain(n);
    if n > 0 {
      assert Head(t) == 1 && |t[..1]| == 1;
      assert t[1..] == Plain(n - 1);
      PlainIsComplete(n - 1);
    }
  }

  /** A push whose newest end to freeze lies between characters is not stuck. */
  lemma {:induction false} FreeToMove(tok: Tokenizer, ids: seq<nat>, cuts: seq<nat>, neutral: NeutralPrefix, i: nat)
    requires Increasing(cuts, |ids|) && i < |cuts| && cuts[i] == |ids|
    requires Complete(Octets(tok, ids[..Target(|ids|)]))
    ensures Moves(tok, ids, cuts, neutral, i)
  {
    hide Complete, Octets, After;
    CutsGrow(cuts, |ids|, i);
    assert ids[..cuts[i]] == ids;
  }

  /** The text ends with whole characters, and one more push, whose window is free, completes the stream. */
  lemma {:induction false} GoesOnRight(tok: Tokenizer, ids: seq<nat>, cuts: seq<nat>, neutral: NeutralPrefix)
    returns (more: seq<nat>, later: seq<nat>)
    requires NeutralOk(tok, neutral) && Increasing(cuts, |ids|) && HasAllOctets(tok) && NoEmptyToken(tok, ids)
    requires Valid(Octets(tok, ids)) && NoPushStuck(tok, ids, cuts, neutral)
    ensures ComesOutRight(tok, ids, cuts, neutral, more, later)
  {
    hide Valid, Complete, Octets, NeutralOk, Moves, Streamed, Lossy, HasAllOctets;
    var q := ValidCompletes(Octets(tok, ids));
    PlainIsComplete(DECODE_STABLE_LOOKBACK);
    var a := Spell(tok, q);
    var b := Spell(tok, Plain(DECODE_STABLE_LOOKBACK));
    more := a + b;
    var all := ids + more;
    later := [|all|];
    OctetsConcat(tok, ids, a);
    assert all == (ids + a) + b;
    OctetsConcat(tok, ids + a, b);
    AfterComplete(Octets(tok, ids + a), Octets(tok, b));
    CompleteIsValid(Octets(tok, all));
    assert all[..|ids + a|] == ids + a && Target(|all|) == |ids + a|;
    FreeToMove(tok, all, cuts + later, neutral, |cuts|);
    forall i | 0 <= i < |cuts|
      ensures Moves(tok, all, cuts + later, neutral, i)
    {
      SameSoFar(tok, ids, cuts, neutral, more, later, i);
      assert Moves(tok, ids, cuts, neutral, i);
    }
    StreamIsDecode(tok, all, cuts + later, neutral);
  }

  /** Theorem: whether the text so far is whole or breaks off inside a character, it can still go on to a text that
      comes out right exactly when no push so far was stuck. */
  lemma {:induction false} CanComeOutRightIff(tok: Tokenizer, ids: seq<nat>, cuts: seq<nat>, neutral: NeutralPrefix)
    requires NeutralOk(tok, neutral) && Increasing(cuts, |ids|) && HasAllOctets(tok) && NoEmptyToken(tok, ids)
    requires Valid(Octets(tok, ids))
    ensures (exists more, later :: ComesOutRight(tok, ids, cuts, neutral, more, later))
      <==> NoPushStuck(tok, ids, cuts, neutral)
  {
    hide Valid, Complete, Octets, NeutralOk, Moves, Streamed, HasAllOctets, Decode;
    if NoPushStuck(tok, ids, cuts, neutral) {
      var more, later := GoesOnRight(tok, ids, cuts, neutral);
    }
    if more, later :| ComesOutRight(tok, ids, cuts, neutral, more, later) {
      StreamIsDecodeIff(tok, ids + more, cuts + later, neutral);
      forall i | 0 <= i < |cuts|
        ensures Moves(tok, ids, cuts, neutral, i)
      {
        SameSoFar(tok, ids, cuts, neutral, more, later, i);
        assert Moves(tok, ids + more, cuts + later, neutral, i);
      }
    }
  }

  // ----- which tokens keep the window from getting stuck

  predicate BoundaryNear(tok: Tokenizer, ids: seq<nat>, k: nat)
    requires SPLIT_CHAR_BACKOFF < k <= |ids|
  {
    exists e | k - SPLIT_CHAR_BACKOFF <= e <= k :: Complete(Octets(tok, ids[..e]))
  }

  /** Of any four consecutive token ends one is a character boundary. */
  predicate NeverStuck(tok: Tokenizer, ids: seq<nat>) {
    forall k | SPLIT_CHAR_BACKOFF < k <= |ids| :: BoundaryNear(tok, ids, k)
  }

  lemma {:induction false} NeverStuckMoves(tok: Tokenizer, ids: seq<nat>, cuts: seq<nat>, neutral: NeutralPrefix)
    requires Increasing(cuts, |ids|) && NeverStuck(tok, ids)
    ensures NoPushStuck(tok, ids, cuts, neutral)
  {
    hide Complete, Octets, After;
    forall i | 0 <= i < |cuts|
      ensures Moves(tok, ids, cuts, neutral, i)
    {
      CutsGrow(cuts, |ids|, i);
      var n := cuts[i];
      if Target(n) > SPLIT_CHAR_BACKOFF {
        assert BoundaryNear(tok, ids, Target(n));
        var e :| Target(n) - SPLIT_CHAR_BACKOFF <= e <= Target(n) && Complete(Octets(tok, ids[..e]));
        assert ids[..n][..e] == ids[..e];
      }
    }
  }

  /** A token that starts inside a character ends inside it or with it, and no token is empty. */
  predicate Aligned(tok: Tokenizer, ids: seq<nat>, i: nat)
    requires i < |ids|
  {
    var p, q := Octets(tok, ids[..i]), Octets(tok, ids[..i + 1]);
    && tok(ids[i]) != []
    && (Complete(p) || Complete(q) || Whole(q) == Whole(p))
  }

  /** Where a split character has how many octets already. */
  lemma {:induction false} SplitLength(tok: Tokenizer, ids: seq<nat>, n: nat)
    requires Valid(Octets(tok, ids)) && n <= |ids| && !Complete(Octets(tok, ids[..n]))
    ensures var p := Octets(tok, ids[..n]);
      1 <= |p| - |Whole(p)| <= 3
  {
    hide Valid, Complete, Whole, Octets;
    assert ids[..|ids|] == ids;
    OctetsSplit(tok, ids, n, |ids|);
    var p := Octets(tok, ids[..n]);
    ValidPrefix(Octets(tok, ids), |p|);
    assert Octets(tok, ids)[..|p|] == p;
    ValidParts(p);
    assert |Whole(p)| == |p| ==> Whole(p) == p;
  }

  lemma {:induction false} SplitGrows(tok: Tokenizer, ids: seq<nat>, i: nat)
    requires i < |ids| && Aligned(tok, ids, i)
    requires !Complete(Octets(tok, ids[..i])) && !Complete(Octets(tok, ids[..i + 1]))
    ensures var p, q := Octets(tok, ids[..i]), Octets(tok, ids[..i + 1]);
      |q| - |Whole(q)| >= |p| - |Whole(p)| + 1
  {
    hide Complete, Whole;
    assert ids[..i + 1][..i] == ids[..i];
  }

  /** Theorem: tokens that never straddle a character boundary never get the window stuck, since a character has at most
      three octets before its last. */
  lemma {:induction false} AlignedTokensNeverStick(tok: Tokenizer, ids: seq<nat>)
    requires Valid(Octets(tok, ids)) && forall i: nat | i < |ids| :: Aligned(tok, ids, i)
    ensures NeverStuck(tok, ids)
  {
    hide Valid, Complete, Whole, Octets, Aligned;
    forall k | SPLIT_CHAR_BACKOFF < k <= |ids|
      ensures BoundaryNear(tok, ids, k)
    {
      if !BoundaryNear(tok, ids, k) {
        SplitLength(tok, ids, k - 3);
        SplitGrows(tok, ids, k - 3);
        SplitGrows(tok, ids, k - 2);
        SplitGrows(tok, ids, k - 1);
        SplitLength(tok, ids, k);
        assert false;
      }
    }
  }

  /** Theorem: such tokens stream right however they are cut into pushes. */
  lemma {:induction false} AlignedTokensStreamRight(tok: Tokenizer, ids: seq<nat>, cuts: seq<nat>,
        neutral: NeutralPrefix)
    requires NeutralOk(tok, neutral) && Increasing(cuts, |ids|) && Valid(Octets(tok, ids))
    requires forall i: nat | i < |ids| :: Aligned(tok, ids, i)
    ensures Streamed(tok, ids, cuts, neutral) == Decode(tok, ids)
  {
    hide *;
    AlignedTokensNeverStick(tok, ids);
    NeverStuckMoves(tok, ids, cuts, neutral);
    StreamIsDecode(tok, ids, cuts, neutral);
  }

  // ----- tokens that do straddle

  const E_ACUTE: Text := [0xC3, 0xA9]

  function Straddler(): Tokenizer {
    id => if id == 0 then [0xC3] else if id == 1 then [0xA9, 0xC3] else if id == 3 then [0xA9] else [0x61]
  }

  const STRADDLING: seq<nat> := [0, 1, 1, 1, 1, 1, 1, 1, 3]

  lemma {:induction false} Acute(s: Text)
    ensures Head(E_ACUTE + s) == 2 && E_ACUTE != REPLACEMENT
    ensures Valid(s) ==> Valid(E_ACUTE + s)
    ensures Complete(E_ACUTE + s) <==> Complete(s)
    ensures Whole(E_ACUTE + s) == E_ACUTE + Whole(s)
    ensures Lossy(E_ACUTE + s) == E_ACUTE + Lossy(s)
  {
    var t := E_ACUTE + s;
    assert t[0] == 0xC3 && t[1] == 0xA9;
    assert t[..2] == E_ACUTE && t[2..] == s;
    assert |E_ACUTE| == 2;
    NotSplit(t);
  }

  lemma {:induction false} Lead()
    ensures Split([0xC3])
  {
  }

  /** `n` characters and a lead. */
  function Acutes(n: nat): Text {
    if n == 0 then [0xC3] else E_ACUTE + Acutes(n - 1)
  }

  lemma {:induction false} AcutesAre(n: nat)
    ensures Valid(Acutes(n)) && !Complete(Acutes(n)) && |Acutes(n)| == 2 * n + 1
    ensures Whole(Acutes(n)) + [0xC3] == Acutes(n)
    ensures Lossy(Acutes(n)) == Whole(Acutes(n)) + REPLACEMENT
  {
    hide Valid, Complete, Whole, Lossy, Head;
    if n == 0 {
      Lead();
      SplitUnfold([0xC3]);
    } else {
      Acute(Acutes(n - 1));
      AcutesAre(n - 1);
    }
    ValidParts(Acutes(n));
  }

  lemma {:induction false} AcutesGrow(n: nat)
    ensures Acutes(n) + [0xA9, 0xC3] == Acutes(n + 1)
  {
    if n == 0 {
      assert [0xC3] + [0xA9, 0xC3] == E_ACUTE + [0xC3];
    } else {
      AcutesGrow(n - 1);
      assert E_ACUTE + Acutes(n - 1) + [0xA9, 0xC3] == E_ACUTE + (Acutes(n - 1) + [0xA9, 0xC3]);
    }
  }

  lemma {:induction false} StraddlingOctets(n: nat)
    requires 1 <= n <= 8
    ensures Octets(Straddler(), STRADDLING[..n]) == Acutes(n - 1)
  {
    var ids := STRADDLING[..n];
    assert ids[..n - 1] == STRADDLING[..n - 1];
    if n == 1 {
      NoOctets(Straddler());
      assert Octets(Straddler(), ids) == [] + [0xC3];
    } else {
      StraddlingOctets(n - 1);
      AcutesGrow(n - 2);
    }
  }

  lemma {:induction false} PlainNeutral()
    ensures NeutralOk(Straddler(), NeutralPrefix(2, [0x61]))
  {
    OneToken(Straddler(), 2);
    var a: Text := [0x61];
    assert Head(a) == 1 && a[1..] == [];
    CompleteIsValid(a);
  }

  lemma {:induction false} NothingIsComplete()
    ensures Complete([]) && Valid([])
  {
  }

  lemma {:induction false} LastAcute(n: nat)
    ensures Complete(Acutes(n) + [0xA9])
  {
    hide Complete, Head;
    if n == 0 {
      assert Acutes(0) + [0xA9] == E_ACUTE + [];
      Acute([]);
      NothingIsComplete();
    } else {
      LastAcute(n - 1);
      assert Acutes(n) + [0xA9] == E_ACUTE + (Acutes(n - 1) + [0xA9]);
      Acute(Acutes(n - 1) + [0xA9]);
    }
  }

  /** The first of two pushes finds four ends inside characters. */
  lemma {:induction false} StraddlingIsStuck(neutral: NeutralPrefix)
    ensures Complete(Octets(Straddler(), STRADDLING)) && NoEmptyToken(Straddler(), STRADDLING)
    ensures Increasing([8, 9], |STRADDLING|) && !Moves(Straddler(), STRADDLING, [8, 9], neutral, 0)
  {
    hide Complete, Octets;
    StraddlingOctets(8);
    OctetsSplit(Straddler(), STRADDLING, 8, 9);
    assert STRADDLING[..9] == STRADDLING && STRADDLING[8..9] == [3];
    OneToken(Straddler(), 3);
    LastAcute(7);
    forall e | 1 <= e <= 4
      ensures !Complete(Octets(Straddler(), STRADDLING[..8][..e]))
    {
      StraddlingOctets(e);
      AcutesAre(e - 1);
      assert STRADDLING[..8][..e] == STRADDLING[..e];
    }
  }

  /** Tokens that straddle: eight two-octet characters, fed in two pushes, do not stream to their decode. */
  lemma {:induction false} StraddledTextIsWrong()
    ensures var neutral := NeutralPrefix(2, [0x61]);
      && NeutralOk(Straddler(), neutral) && Increasing([8, 9], |STRADDLING|)
      && Streamed(Straddler(), STRADDLING, [8, 9], neutral) != Decode(Straddler(), STRADDLING)
  {
    hide *;
    var neutral := NeutralPrefix(2, [0x61]);
    PlainNeutral();
    StraddlingIsStuck(neutral);
    StuckIsLonger(Straddler(), STRADDLING, [8, 9], neutral, 0);
  }

  // ----- where the text breaks off inside a character

  const SMILE: Text := [0xF0, 0x9F, 0x98, 0x80]

  function AcutesThen(n: nat, t: Text): Text {
    if n == 0 then t else E_ACUTE + AcutesThen(n - 1, t)
  }

  lemma {:induction false} AcutesThenAre(n: nat, t: Text)
    ensures Valid(t) ==> Valid(AcutesThen(n, t))
    ensures Complete(AcutesThen(n, t)) <==> Complete(t)
    ensures Whole(AcutesThen(n, t)) == AcutesThen(n, []) + Whole(t)
    ensures Lossy(AcutesThen(n, t)) == AcutesThen(n, []) + Lossy(t)
  {
    hide Valid, Complete, Whole, Lossy, Head;
    if n > 0 {
      AcutesThenAre(n - 1, t);
      Acute(AcutesThen(n - 1, t));
    }
  }

  lemma {:induction false} Lone(lead: Octet)
    requires lead == 0xC3 || lead == 0xF0
    ensures Split([lead]) && Valid([lead]) && !Complete([lead]) && Whole([lead]) == [] && Lossy([lead]) == REPLACEMENT
  {
    SplitUnfold([lead]);
  }

  lemma {:induction false} TrimOne(s: Text)
    ensures Trimmed(s + REPLACEMENT) == Trimmed(s)
  {
    var t := s + REPLACEMENT;
    assert t[|t| - 3..] == REPLACEMENT && t[..|t| - 3] == s;
  }

  /** `last` is the last octet of one character; all other tokens are fixed. */
  function Repeater(last: Octet): Tokenizer {
    id =>
      if id == 0 then [0xC3] else if id == 1 then [0xA9, 0xC3] else if id == 3 then [0xA9] + SMILE
      else if id == 4 then [0xF0] else if id == 5 then [0x9F, 0x98, 0x80, 0xF0] else if id == 6 then [0x9F]
      else if id == 7 then [0x98] else if id == 8 then [last] else [0x61]
  }

  /** Four times E9, four emoji that straddle, and the start of a fifth. */
  const REPEATING: seq<nat> := [0, 1, 1, 1, 3, 4, 5, 5, 6, 7, 8, 4, 6]

  const HALF_SMILE: Text := [0xF0, 0x9F]

  function Smiles(n: nat, t: Text): Text {
    if n == 0 then t else SMILE + Smiles(n - 1, t)
  }

  lemma {:induction false} OneEmoji(last: Octet, s: Text)
    requires last == 0x80 || last == 0x81
    ensures var e: Text := [0xF0, 0x9F, 0x98, last];
      && (Valid(s) ==> Valid(e + s)) && (Complete(e + s) <==> Complete(s))
      && Whole(e + s) == e + Whole(s) && Lossy(e + s) == e + Lossy(s)
  {
    var e: Text := [0xF0, 0x9F, 0x98, last];
    var t := e + s;
    assert t[0] == 0xF0 && t[1] == 0x9F && t[2] == 0x98 && t[3] == last;
    assert Head(t) == 4 && t[..4] == e && t[4..] == s;
    Unfold(t);
  }

  lemma {:induction false} SmilesAre(n: nat, t: Text)
    ensures Valid(t) ==> Valid(Smiles(n, t))
    ensures Complete(Smiles(n, t)) <==> Complete(t)
    ensures Whole(Smiles(n, t)) == Smiles(n, []) + Whole(t)
    ensures Lossy(Smiles(n, t)) == Smiles(n, []) + Lossy(t)
    ensures |Smiles(n, t)| == 4 * n + |t| && Smiles(n, t) == Smiles(n, []) + t
  {
    hide Valid, Complete, Whole, Lossy;
    if n > 0 {
      SmilesAre(n - 1, t);
      OneEmoji(0x80, Smiles(n - 1, t));
    } else {
      assert Smiles(n, []) + Whole(t) == Whole(t) && Smiles(n, []) + Lossy(t) == Lossy(t);
    }
  }

  lemma {:induction false} HalfSmile()
    ensures Split(HALF_SMILE) && Valid(HALF_SMILE) && !Complete(HALF_SMILE) && Whole(HALF_SMILE) == []
    ensures Lossy(HALF_SMILE) == REPLACEMENT
  {
    SplitUnfold(HALF_SMILE);
  }

  lemma {:induction false} RepeatingOctets(last: Octet)
    ensures var tok := Repeater(last);
      && Octets(tok, REPEATING[..1]) == Acutes(0) && Octets(tok, REPEATING[..2]) == Acutes(1)
      && Octets(tok, REPEATING[..3]) == Acutes(2) && Octets(tok, REPEATING[..4]) == Acutes(3)
  {
    hide Octets, Acutes, Smiles;
    var tok := Repeater(last);
    NextOctets(tok, 0, 0);
    NoOctets(tok);
    NextOctets(tok, 0, 1);
    NextOctets(tok, 0, 2);
    NextOctets(tok, 0, 3);
    SmilesGrow();
    AcutesGrow(0);
    AcutesGrow(1);
    AcutesGrow(2);
  }

  lemma {:induction false} FragmentOctets(last: Octet)
    ensures var tok := Repeater(last);
      && Octets(tok, REPEATING[4..5]) == [0xA9] + SMILE
      && Octets(tok, REPEATING[4..6]) == [0xA9] + Smiles(1, [0xF0])
      && Octets(tok, REPEATING[4..7]) == [0xA9] + Smiles(2, [0xF0])
      && Octets(tok, REPEATING[4..8]) == [0xA9] + Smiles(3, [0xF0])
      && Octets(tok, REPEATING[4..9]) == [0xA9] + Smiles(3, HALF_SMILE)
  {
    hide Octets, Smiles;
    var tok := Repeater(last);
    NextOctets(tok, 4, 4);
    NextOctets(tok, 4, 5);
    NextOctets(tok, 4, 6);
    NextOctets(tok, 4, 7);
    NextOctets(tok, 4, 8);
    assert [] + ([0xA9] + SMILE) == [0xA9] + SMILE;
    SmilesGrow();
  }

  lemma {:induction false} LastOctets(last: Octet)
    ensures Octets(Repeater(last), REPEATING[9..13]) == [0x98, last, 0xF0, 0x9F]
  {
    hide Octets;
    var tok := Repeater(last);
    NextOctets(tok, 9, 9);
    NextOctets(tok, 9, 10);
    NextOctets(tok, 9, 11);
    NextOctets(tok, 9, 12);
  }

  lemma {:induction false} NextOctets(tok: Tokenizer, from: nat, n: nat)
    requires from <= n < |REPEATING|
    ensures Octets(tok, REPEATING[from..n + 1]) == Octets(tok, REPEATING[from..n]) + tok(REPEATING[n])
    ensures from == 0 ==> REPEATING[from..n] == REPEATING[..n] && REPEATING[from..n + 1] == REPEATING[..n + 1]
    ensures from == n ==> Octets(tok, REPEATING[from..n]) == []
  {
    assert REPEATING[from..n + 1][..n - from] == REPEATING[from..n];
  }

  lemma {:induction false} SmilesGrow()
    ensures Acutes(0) == [0xC3]
    ensures [0xA9] + SMILE + [0xF0] == [0xA9] + Smiles(1, [0xF0])
    ensures [0xA9] + Smiles(1, [0xF0]) + [0x9F, 0x98, 0x80, 0xF0] == [0xA9] + Smiles(2, [0xF0])
    ensures [0xA9] + Smiles(2, [0xF0]) + [0x9F, 0x98, 0x80, 0xF0] == [0xA9] + Smiles(3, [0xF0])
    ensures [0xA9] + Smiles(3, [0xF0]) + [0x9F] == [0xA9] + Smiles(3, HALF_SMILE)
  {
    assert Smiles(1, [0xF0]) == SMILE + [0xF0];
    assert Smiles(2, [0xF0]) == SMILE + (SMILE + [0xF0]);
    assert Smiles(3, [0xF0]) == SMILE + (SMILE + (SMILE + [0xF0]));
    assert Smiles(3, HALF_SMILE) == SMILE + (SMILE + (SMILE + HALF_SMILE));
  }

  function Emoji(last: Octet): Text {
    [0xF0, 0x9F, 0x98, last]
  }

  /** The whole text. */
  function Repeated(last: Octet): Text {
    AcutesThen(4, Smiles(3, Emoji(last) + HALF_SMILE))
  }

  lemma {:induction false} AcutesAppend(n: nat, t: Text)
    ensures AcutesThen(n, t) == AcutesThen(n, []) + t && |AcutesThen(n, t)| == 2 * n + |t|
    decreases n
  {
    if n == 0 {
      assert AcutesThen(0, []) + t == t;
    } else {
      AcutesAppend(n - 1, t);
      Regroup(E_ACUTE, AcutesThen(n - 1, []), t);
    }
  }

  lemma {:induction false} AcutesEnd(n: nat, t: Text)
    ensures Acutes(n) + ([0xA9] + t) == AcutesThen(n + 1, t)
    decreases n
  {
    if n == 0 {
      assert [0xC3] + ([0xA9] + t) == E_ACUTE + t;
      assert AcutesThen(1, t) == E_ACUTE + AcutesThen(0, t);
    } else {
      AcutesEnd(n - 1, t);
      Regroup(E_ACUTE, Acutes(n - 1), [0xA9] + t);
    }
  }

  lemma {:induction false} Regroup(a: Text, b: Text, c: Text)
    ensures (a + b) + c == a + (b + c)
  {
  }

  lemma {:induction false} RepeatedOctets(last: Octet)
    requires last == 0x80 || last == 0x81
    ensures var tok := Repeater(last);
      && Octets(tok, REPEATING) == Repeated(last) && Octets(tok, REPEATING[..5]) == AcutesThen(4, SMILE)
      && Valid(Repeated(last)) && !Complete(Repeated(last))
      && Lossy(Repeated(last)) == AcutesThen(4, []) + (Smiles(3, []) + (Emoji(last) + REPLACEMENT))
  {
    hide Octets, Valid, Complete, Whole, Lossy, Acutes, AcutesThen, Smiles;
    var tok := Repeater(last);
    RepeatingOctets(last);
    FragmentOctets(last);
    LastOctets(last);
    OctetsSplit(tok, REPEATING, 4, 5);
    OctetsSplit(tok, REPEATING, 4, 9);
    OctetsSplit(tok, REPEATING, 9, 13);
    assert REPEATING[..13] == REPEATING;
    var rest: Text := [0x98, last, 0xF0, 0x9F];
    AcutesEnd(3, SMILE);
    AcutesEnd(3, Smiles(3, HALF_SMILE) + rest);
    SmilesAre(3, HALF_SMILE);
    SmilesAre(3, Emoji(last) + HALF_SMILE);
    assert HALF_SMILE + rest == Emoji(last) + HALF_SMILE;
    assert Smiles(3, []) + HALF_SMILE + rest == Smiles(3, []) + (HALF_SMILE + rest);
    assert Acutes(3) + ([0xA9] + Smiles(3, HALF_SMILE)) + rest == Acutes(3) + ([0xA9] + (Smiles(3, HALF_SMILE) + rest));
    HalfSmile();
    OneEmoji(last, HALF_SMILE);
    AcutesThenAre(4, Smiles(3, Emoji(last) + HALF_SMILE));
  }

  /** The tail of a character, then whole ones, then part of one. */
  lemma {:induction false} FragmentIs(n: nat, t: Text)
    requires t == [0xF0] || t == HALF_SMILE
    ensures Lossy([0xA9] + Smiles(n, t)) == REPLACEMENT + Smiles(n, []) + REPLACEMENT
    ensures EndsWith(Lossy([0xA9] + Smiles(n, t)), REPLACEMENT)
  {
    hide Lossy, Smiles;
    var f := [0xA9] + Smiles(n, t);
    LoneTail(f);
    assert f[1..] == Smiles(n, t);
    SmilesAre(n, t);
    Lone(0xF0);
    HalfSmile();
    var r := Lossy(f);
    assert r == REPLACEMENT + Smiles(n, []) + REPLACEMENT;
    assert r[|r| - 3..] == REPLACEMENT;
  }

  lemma {:induction false} RepeaterNeutral(last: Octet)
    ensures NeutralOk(Repeater(last), NeutralPrefix(2, [0x61]))
  {
    OneToken(Repeater(last), 2);
    var a: Text := [0x61];
    assert Head(a) == 1 && a[1..] == [];
    CompleteIsValid(a);
  }

  /** The first push hands out the four characters and the first emoji, and freezes nothing. */
  lemma {:induction false} FirstPush(last: Octet, neutral: NeutralPrefix)
    requires (last == 0x80 || last == 0x81) && neutral == NeutralPrefix(2, [0x61])
    ensures var r := Pushed(Repeater(last), REPEATING[..5], Channel(0, 0, []), neutral);
      r.0 == Channel(12, 0, []) && Sent(r.1) == AcutesThen(4, SMILE)
  {
    hide Octets, Valid, Complete, Whole, Lossy, Acutes, AcutesThen, Smiles, NeutralOk, EmitSuffix, Delta, Broken;
    var (tok, c) := (Repeater(last), Channel(0, 0, []));
    RepeaterNeutral(last);
    RepeatedOctets(last);
    RepeatingOctets(last);
    NoOctets(tok);
    NothingIsComplete();
    CompleteIsValid([]);
    assert REPEATING[..0] == [];
    PushInStep(tok, REPEATING, c, 0, 5, neutral);
    var r := Pushed(tok, REPEATING[..5], c, neutral);
    assert r.0.stableEnd <= Target(5);
    AcutesAre(0);
    AcutesAppend(4, SMILE);
    OneEmoji(0x80, []);
    assert Emoji(0x80) + [] == SMILE;
    AcutesThenAre(4, SMILE);
    CompleteIsValid(AcutesThen(4, SMILE));
  }

  /** What the second push freezes: three characters and half of the fourth. */
  function FirstFrozen(): Text {
    AcutesThen(3, []) + REPLACEMENT
  }

  lemma {:induction false} EmitsFrom(a: Text, b: Text, n: nat)
    requires |a| == n && b != [] && !Tail(b[0])
    ensures EmitSuffix(a + b, n) == if Trimmed(b) != [] then (Some(Trimmed(b)), n + |Trimmed(b)|) else (None, n)
  {
    hide Trimmed;
    assert (a + b)[n..] == b && (a + b)[n] == b[0];
  }

  /** The second push gives up inside the fourth character, and so hands out three emoji where two are new. */
  lemma {:induction false} SecondPush(last: Octet, neutral: NeutralPrefix)
    requires (last == 0x80 || last == 0x81) && neutral == NeutralPrefix(2, [0x61])
    ensures Stuck(Repeater(last), REPEATING[..8], 0)
    ensures var r := Pushed(Repeater(last), REPEATING[..8], Channel(12, 0, []), neutral);
      r.0 == Channel(24, 4, FirstFrozen()) && Sent(r.1) == Smiles(3, [])
  {
    hide Octets, Valid, Complete, Whole, Lossy, Acutes, AcutesThen, Smiles, NeutralOk, EmitSuffix, Trimmed, Frozen;
    var (tok, c, now) := (Repeater(last), Channel(12, 0, []), REPEATING[..8]);
    RepeaterNeutral(last);
    RepeatedOctets(last);
    RepeatingOctets(last);
    FragmentOctets(last);
    NoOctets(tok);
    NothingIsComplete();
    forall e | 1 <= e <= 4
      ensures !Complete(Octets(tok, now[..e])) && now[..e] == REPEATING[..e]
    {
      assert now[..e] == REPEATING[..e] && (e == 1 || e == 2 || e == 3 || e == 4);
      AcutesAre(e - 1);
    }
    PrefixOctets(tok, REPEATING, 8);
    assert now[..0] == [];
    FreezeIsRight(tok, now, c, neutral);
    var d := Frozen(tok, now, c, neutral);
    AcutesAre(3);
    AcutesAppend(3, []);
    ThreeWhole();
    assert d.stableText + [] == d.stableText == FirstFrozen();
    NeutralIsNeutral(tok, now[4..], neutral);
    assert now[4..|now|] == now[4..] == REPEATING[4..8];
    FragmentIs(3, [0xF0]);
    var t := Smiles(3, []) + REPLACEMENT;
    SmilesAre(3, []);
    assert FirstFrozen() + (REPLACEMENT + Smiles(3, []) + REPLACEMENT) == (FirstFrozen() + REPLACEMENT) + t;
    ThreeSmiles();
    TrimmedWhole(Smiles(3, []));
    EmitsFrom(FirstFrozen() + REPLACEMENT, t, 12);
  }

  lemma {:induction false} ThreeWhole()
    ensures Lossy(Acutes(3)) == FirstFrozen() && |AcutesThen(3, [])| == 6
  {
    hide Lossy, Whole;
    AcutesAppend(3, [0xC3]);
    AcutesAre(3);
    Lone(0xC3);
    AcutesThenAre(3, [0xC3]);
    SameAcutes(3);
  }

  lemma {:induction false} SameAcutes(n: nat)
    ensures Acutes(n) == AcutesThen(n, [0xC3])
  {
    if n > 0 {
      SameAcutes(n - 1);
    }
  }

  lemma {:induction false} ThreeSmiles()
    ensures |Smiles(3, [])| == 12 && Smiles(3, [])[0] == 0xF0 && Complete(Smiles(3, []))
  {
    hide Complete;
    SmilesAre(3, []);
    NothingIsComplete();
    assert Smiles(3, []) == SMILE + Smiles(2, []);
  }

  /** What the third push freezes: three emoji and half of the fourth. */
  function SecondFrozen(): Text {
    FirstFrozen() + (REPLACEMENT + Smiles(3, []) + REPLACEMENT)
  }

  lemma {:induction false} EndsBroken(last: Octet, neutral: NeutralPrefix, e: nat)
    requires neutral == NeutralPrefix(2, [0x61]) && 6 <= e <= 9
    ensures Broken(Repeater(last), REPEATING, 4, e, neutral)
  {
    hide Octets, Lossy, Smiles, NeutralOk, EndsWith;
    var tok := Repeater(last);
    RepeaterNeutral(last);
    FragmentOctets(last);
    NeutralIsNeutral(tok, REPEATING[4..e], neutral);
    if e == 9 {
      FragmentIs(3, HALF_SMILE);
    } else {
      FragmentIs(e - 5, [0xF0]);
    }
  }

  lemma {:induction false} ThirdFreeze(last: Octet, neutral: NeutralPrefix)
    requires neutral == NeutralPrefix(2, [0x61])
    ensures Frozen(Repeater(last), REPEATING, Channel(24, 4, FirstFrozen()), neutral) == Channel(24, 9, SecondFrozen())
  {
    hide Octets, Lossy, Smiles, NeutralOk, NextEnd, EndsWith, AcutesThen, Broken;
    var tok := Repeater(last);
    forall e | 6 <= e <= 9
      ensures Broken(tok, REPEATING, 4, e, neutral)
    {
      EndsBroken(last, neutral, e);
    }
    EndIs(tok, REPEATING, 4, neutral);
    RepeaterNeutral(last);
    FragmentOctets(last);
    FragmentIs(3, HALF_SMILE);
    NeutralIsNeutral(tok, REPEATING[4..9], neutral);
  }

  /** The third push gives up inside the fourth emoji and hands out nothing. */
  lemma {:induction false} ThirdPush(last: Octet, neutral: NeutralPrefix)
    requires (last == 0x80 || last == 0x81) && neutral == NeutralPrefix(2, [0x61])
    ensures var r := Pushed(Repeater(last), REPEATING, Channel(24, 4, FirstFrozen()), neutral);
      r.0.decodedLen == 24 && Sent(r.1) == []
  {
    hide Octets, Lossy, Smiles, NeutralOk, EmitSuffix, Trimmed, Frozen, AcutesThen;
    var (tok, ids) := (Repeater(last), REPEATING);
    ThirdFreeze(last, neutral);
    RepeaterNeutral(last);
    LastOctets(last);
    NeutralIsNeutral(tok, ids[9..], neutral);
    assert ids[9..|ids|] == ids[9..] == ids[9..13];
    TwoTailsAndHalf(last);
    LastSeen();
  }

  lemma {:induction false} LastSeen()
    ensures EmitSuffix(SecondFrozen() + (REPLACEMENT + (REPLACEMENT + REPLACEMENT)), 24) == (None, 24)
  {
    hide EmitSuffix, Trimmed, Smiles, AcutesThen;
    ThreeWhole();
    ThreeSmiles();
    var a := FirstFrozen() + REPLACEMENT + Smiles(3, []);
    var b := REPLACEMENT + REPLACEMENT + REPLACEMENT + REPLACEMENT;
    assert SecondFrozen() + (REPLACEMENT + (REPLACEMENT + REPLACEMENT)) == a + b;
    FourTrimmed();
    EmitsFrom(a, b, 24);
  }

  lemma {:induction false} FourTrimmed()
    ensures Trimmed(REPLACEMENT + REPLACEMENT + REPLACEMENT + REPLACEMENT) == []
  {
    hide Trimmed;
    TrimOne(REPLACEMENT + REPLACEMENT + REPLACEMENT);
    TrimOne(REPLACEMENT + REPLACEMENT);
    TrimOne(REPLACEMENT);
    TrimmedWhole([]);
    NothingIsComplete();
    assert [] + REPLACEMENT == REPLACEMENT;
  }

  lemma {:induction false} TwoTailsAndHalf(last: Octet)
    requires last == 0x80 || last == 0x81
    ensures Lossy([0x98, last, 0xF0, 0x9F]) == REPLACEMENT + (REPLACEMENT + REPLACEMENT)
  {
    hide Lossy;
    HalfSmile();
    LoneTail([last, 0xF0, 0x9F]);
    LoneTail([0x98, last, 0xF0, 0x9F]);
    assert [0x98, last, 0xF0, 0x9F][1..] == [last, 0xF0, 0x9F];
    assert [last, 0xF0, 0x9F][1..] == HALF_SMILE;
  }

  lemma {:induction false} OnePush(tok: Tokenizer, ids: seq<nat>, cuts: seq<nat>, neutral: NeutralPrefix, i: nat)
    requires Increasing(cuts, |ids|) && i < |cuts| && cuts[i] <= |ids|
    requires After(tok, ids, cuts, neutral, i).stableEnd <= cuts[i]
    ensures var r := Pushed(tok, ids[..cuts[i]], After(tok, ids, cuts, neutral, i), neutral);
      && After(tok, ids, cuts, neutral, i + 1) == r.0
      && SentBy(tok, ids, cuts, neutral, i + 1) == SentBy(tok, ids, cuts, neutral, i) + Sent(r.1)
  {
    hide Pushed;
  }

  /** What three pushes and the finish hand out. */
  lemma {:induction false} ThreePushes(tok: Tokenizer, ids: seq<nat>, cuts: seq<nat>, neutral: NeutralPrefix)
    requires Increasing(cuts, |ids|) && |cuts| == 3 && cuts[0] <= cuts[1] <= |ids|
    ensures var r0 := Pushed(tok, ids[..cuts[0]], Channel(0, 0, []), neutral);
      var r1 := Pushed(tok, ids[..cuts[1]], r0.0, neutral);
      var r2 := Pushed(tok, ids[..cuts[2]], r1.0, neutral);
      && After(tok, ids, cuts, neutral, 1) == r0.0
      && Streamed(tok, ids, cuts, neutral) == Sent(r0.1) + Sent(r1.1) + Sent(r2.1) + Sent(Finished(tok, ids, r2.0))
  {
    hide Pushed, Finished;
    OnePush(tok, ids, cuts, neutral, 0);
    OnePush(tok, ids, cuts, neutral, 1);
    OnePush(tok, ids, cuts, neutral, 2);
    assert SentBy(tok, ids, cuts, neutral, 0) == [] && After(tok, ids, cuts, neutral, 0) == Channel(0, 0, []);
  }

  lemma {:induction false} RepeatedFinish(last: Octet, c: Channel)
    requires (last == 0x80 || last == 0x81) && c.decodedLen == 24
    ensures Sent(Finished(Repeater(last), REPEATING, c)) == REPLACEMENT
    ensures Decode(Repeater(last), REPEATING) == AcutesThen(4, []) + (Smiles(3, []) + (Emoji(last) + REPLACEMENT))
  {
    hide Octets, Lossy, Smiles, AcutesThen;
    RepeatedOctets(last);
    AcutesAppend(4, []);
    ThreeSmiles();
    var a := AcutesThen(4, []) + Smiles(3, []) + Emoji(last);
    var full := Decode(Repeater(last), REPEATING);
    assert full == a + REPLACEMENT;
    assert |a| == 24 && full[24..] == REPLACEMENT && full[24] == REPLACEMENT[0];
  }

  /** Two texts whose tokens have the same lengths, pushed alike, in both of which pushes give up inside characters: the
      one whose last two emoji are the same comes out right, the other does not. For texts that break off, no condition
      on where tokens, characters and pushes end can be exact. */
  lemma {:induction false} CharactersDecide(last: Octet)
    requires last == 0x80 || last == 0x81
    ensures var (tok, neutral, cuts) := (Repeater(last), NeutralPrefix(2, [0x61]), [5, 8, 13]);
      && NeutralOk(tok, neutral) && Increasing(cuts, |REPEATING|) && NoEmptyToken(tok, REPEATING)
      && Valid(Octets(tok, REPEATING)) && !Complete(Octets(tok, REPEATING))
      && !NoPushStuck(tok, REPEATING, cuts, neutral)
      && (Streamed(tok, REPEATING, cuts, neutral) == Decode(tok, REPEATING) <==> last == 0x80)
  {
    hide Octets, Valid, Complete, Lossy, Pushed, Finished, Stuck, NeutralOk, Smiles, AcutesThen, Decode, Streamed;
    var (tok, neutral, cuts) := (Repeater(last), NeutralPrefix(2, [0x61]), [5, 8, 13]);
    RepeaterNeutral(last);
    RepeatedOctets(last);
    FirstPush(last, neutral);
    SecondPush(last, neutral);
    ThirdPush(last, neutral);
    assert REPEATING[..13] == REPEATING;
    ThreePushes(tok, REPEATING, cuts, neutral);
    assert !Moves(tok, REPEATING, cuts, neutral, 1);
    var c := Pushed(tok, REPEATING, Channel(24, 4, FirstFrozen()), neutral).0;
    RepeatedFinish(last, c);
    AcutesAppend(4, SMILE);
    AcutesAppend(4, []);
    ThreeSmiles();
    EmojiFirstOrLast(last);
  }

  lemma {:induction false} EmojiFirstOrLast(last: Octet)
    requires last == 0x80 || last == 0x81
    ensures var w := AcutesThen(4, []);
      AcutesThen(4, SMILE) + Smiles(3, []) + [] + REPLACEMENT == w + (Smiles(3, []) + (Emoji(last) + REPLACEMENT))
      <==> last == 0x80
  {
    hide AcutesThen, Smiles;
    AcutesAppend(4, SMILE);
    AcutesAppend(4, []);
    ThreeSmiles();
    SmilesCommute();
    Shuffled(AcutesThen(4, []), Smiles(3, []), last);
  }

  lemma {:induction false} Shuffled(w: Text, s: Text, last: Octet)
    requires SMILE + s == s + SMILE
    ensures (w + SMILE) + s + [] + REPLACEMENT == w + (s + (Emoji(last) + REPLACEMENT)) <==> last == 0x80
  {
    var a := w + s;
    assert (w + SMILE) + s == w + (SMILE + s);
    assert w + (s + SMILE) == a + SMILE;
    assert (w + SMILE) + s + [] + REPLACEMENT == a + (SMILE + REPLACEMENT);
    assert w + (s + (Emoji(last) + REPLACEMENT)) == a + (Emoji(last) + REPLACEMENT);
    assert (a + (Emoji(last) + REPLACEMENT))[|a| + 3] == last && (a + (SMILE + REPLACEMENT))[|a| + 3] == 0x80;
    if last == 0x80 {
      assert Emoji(last) == SMILE;
    }
  }

  lemma {:induction false} SmilesCommute()
    ensures SMILE + Smiles(3, []) == Smiles(3, []) + SMILE
  {
    assert Smiles(3, []) == SMILE + (SMILE + (SMILE + []));
  }
}
