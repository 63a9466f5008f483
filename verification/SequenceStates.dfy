/** One sequence of the engine: its tokens, counters, finish rules and cached slots (src/scheduler/sequence.rs). */
module SequenceStates {
  import opened Chunks
  import opened Wrappers

  /** A token as the model is fed it: with the position it stands at. */
  datatype Slot = Slot(token: nat, pos: nat)

  /** Tokens at their own positions. */
  function Slots(tokens: seq<nat>): (s: seq<Slot>)
    ensures |s| == |tokens|
  {
    seq(|tokens|, i requires 0 <= i < |tokens| => Slot(tokens[i], i))
  }

  datatype Status = Waiting | Running | Finished

  /** The value of a sequence: `P` are its sampling settings and `C` its grammar constraint. */
  datatype Sequence<P, C> = Sequence(
    tokens: seq<nat>, tokenCounts: multiset<nat>, settings: P, constraint: Option<C>,
    status: Status, phase: Phase, numGenerated: nat, numProcessed: nat, maxTokens: nat,
    finishReason: Option<string>, cache: seq<Slot>, draftCache: seq<Slot>)

  function Appended<P, C>(s: Sequence<P, C>, token: nat): Sequence<P, C> {
    s.(tokens := s.tokens + [token], tokenCounts := s.tokenCounts + multiset{token})
  }

  /** The state after the token, and whether the token is emitted. */
  function Applied<P, C>(s: Sequence<P, C>, isStop: bool): (Sequence<P, C>, bool) {
    if isStop then (s.(status := Finished, finishReason := Some("stop")), false)
    else
      var t := s.(numGenerated := s.numGenerated + 1);
      (if t.numGenerated >= t.maxTokens then t.(status := Finished, finishReason := Some("length")) else t, true)
  }

  /** The merged stop tokens and multi-token stop sequences. */
  datatype StopRules = StopRules(ids: set<nat>, sequences: seq<seq<nat>>)

  predicate EndsWith(tokens: seq<nat>, tail: seq<nat>) {
    |tail| > 0 && |tokens| >= |tail| && tokens[|tokens| - |tail|..] == tail
  }

  predicate Stops(rules: StopRules, token: nat, tokens: seq<nat>) {
    token in rules.ids || exists i | 0 <= i < |rules.sequences| :: EndsWith(tokens, rules.sequences[i])
  }

  class SequenceState<P, C> {
    var tokens: seq<nat>
    var tokenCounts: multiset<nat>
    var settings: P
    var constraint: Option<C>
    var status: Status
    var phase: Phase
    var numGenerated: nat
    var numProcessed: nat
    var maxTokens: nat
    var finishReason: Option<string>
    var cache: seq<Slot>
    var draftCache: seq<Slot>

    function Value(): Sequence<P, C>
      reads this
    {
      Sequence(tokens, tokenCounts, settings, constraint, status, phase, numGenerated, numProcessed, maxTokens,
        finishReason, cache, draftCache)
    }

    constructor (v: Sequence<P, C>)
      ensures Value() == v
    {
      tokens, tokenCounts, settings, constraint := v.tokens, v.tokenCounts, v.settings, v.constraint;
      status, phase, numGenerated, numProcessed := v.status, v.phase, v.numGenerated, v.numProcessed;
      maxTokens, finishReason, cache, draftCache := v.maxTokens, v.finishReason, v.cache, v.draftCache;
    }

    method AppendToken(token: nat)
      modifies `tokens, `tokenCounts
      ensures Value() == Appended(old(Value()), token)
    {
      tokens := tokens + [token];
      tokenCounts := tokenCounts + multiset{token};
    }

    method ApplyToken(isStop: bool) returns (emit: bool)
      modifies `status, `finishReason, `numGenerated
      ensures (Value(), emit) == Applied(old(Value()), isStop)
    {
      if isStop {
        status := Finished;
        finishReason := Some("stop");
        return false;
      }
      numGenerated := numGenerated + 1;
      if numGenerated >= maxTokens {
        status := Finished;
        finishReason := Some("length");
      }
      return true;
    }
  }

  // ----- what sampling does to one sequence

  /** The model and the sampler, as far as one sequence can tell: both are functions of its own history. */
  datatype Env<!P, !C> = Env(
    logits: seq<Slot> -> seq<real>,
    sample: (seq<real>, P, seq<nat>, multiset<nat>, Option<C>) -> nat,
    advance: (C, nat) -> C,
    rules: StopRules)

  function Advanced<P, C>(env: Env<P, C>, c: Option<C>, token: nat): Option<C> {
    if c.Some? then Some(env.advance(c.value, token)) else None
  }

  /** A sequence after its next token is sampled from logits `row`, and the token if it is emitted. */
  function Sampled<P, C>(env: Env<P, C>, s: Sequence<P, C>, row: seq<real>): (Sequence<P, C>, Option<nat>) {
    var token := env.sample(row, s.settings, s.tokens, s.tokenCounts, s.constraint);
    var t := Appended(s.(constraint := Advanced(env, s.constraint, token)), token);
    var u := t.(numProcessed := |t.tokens| - 1, phase := Decode);
    var r := Applied(u, Stops(env.rules, token, u.tokens));
    (r.0, if r.1 then Some(token) else None)
  }

  /** A decoding sequence has cached everything but its last token, and knows it. */
  predicate Ready<P, C>(s: Sequence<P, C>) {
    && s.phase == Decode && s.tokens != []
    && s.numProcessed == |s.tokens| - 1
    && s.cache == Slots(s.tokens[..|s.tokens| - 1])
  }

  /** The step a sequence takes when it is the only one there is and nothing is cached for it. */
  function StepAlone<P, C>(env: Env<P, C>, s: Sequence<P, C>): (Sequence<P, C>, Option<nat>) {
    Sampled(env, s.(cache := Slots(s.tokens)), env.logits(Slots(s.tokens)))
  }

  lemma {:induction false} StepAloneIsReady<P, C>(env: Env<P, C>, s: Sequence<P, C>)
    ensures Ready(StepAlone(env, s).0)
  {
    var t := StepAlone(env, s).0;
    assert t.tokens[..|t.tokens| - 1] == s.tokens;
  }

  lemma {:induction false} SlotsPrefix(tokens: seq<nat>, n: nat)
    requires n <= |tokens|
    ensures Slots(tokens)[..n] == Slots(tokens[..n])
  {
  }
}
