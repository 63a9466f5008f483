# Models and proofs for oxydllm

oxydllm serves language models. Around its tensor kernels it has a number of algorithms whose correctness is a matter of
logic: the JSON automaton and schema guide that mask tokens, the chunked form of the gated delta rule, the batched
engine with its paged cache, prefix reuse and speculative decoding, the streaming decoder, and several codecs, caches
and filters. This project models them in Dafny and proves what they are for. Floats are exact reals throughout.

- **Guided decoding** (`Automaton`, `Json*`, `Guide*`, `Conformance`, `NeverStuck`, `OnlySpaces`, `OpenEnums`,
  `SchemaArena`, `SchemaGuidance`, `SchemaKeywords`). `JsonGrammar` is RFC 8259, sections 2 to 7, as syntax trees with
  their texts. The byte automaton and its bit stack are a class whose every step is proved against a pure automaton; the
  automaton is proved to accept exactly the bounded documents of the grammar; the guide is proved to let through exactly
  the texts whose tree can still conform to the compiled schema; and from every reachable state some accepted text goes
  on.
- **Gated DeltaNet** (`Matrices`, `TriangularInverse`, `DeltaRule`, `ChunkScan`, `DeltaLayer`, `HeadChannels`). The
  blocked triangular inversion, the chunked scan and the whole layer segment equal the token-by-token recurrence,
  however a prompt is cut.
- **Engine** (`Chunks`, `SequenceStates`, `PrefixCaches`, `ConfusablePrefixes`, `PagedPools`, `SharedBlocks`,
  `BatchEngine`, `EngineBatches`, `Speculative`, `EngineSteps`, `StepOutcomes`, `EngineRuns`). Block pools hold slots,
  tables refer to blocks, the prefix cache shares them. One invariant, `SharedBlocks.Sound`, says whose each reference
  is and that a cached block holds, in every layer, the slots of the prefix it was registered for. Every operation keeps
  it; on it rests that a batched step is, for each sequence, the step it would take alone, and that whole runs, with or
  without a draft model, do not depend on scheduling, preemption, eviction or the failure of other steps.
- **The rest**: the Walsh-Hadamard transform and the quantizer behind it (`Hadamard`, `Powers`, `BitPacking`,
  `Quantizer`), streaming text (`Utf8`, `Utf8Characters`, `IncrementalDecode`), the expert cache (`ExpertStream`),
  sampling filters (`Sampling`, `SamplingLaws`), the GGUF header (`Gguf`, `GgufOctets`) and AWQ layouts (`Awq`,
  `AwqLayout`). `Wrappers` and `Sequences` are small helpers.

Code that updates fields or arrays is modelled as classes and methods, each proved against a function or predicate of
the old state; the theorems are lemmas about those. Where code and specification use one function, say for a literal, a
stop rule or a table of types, a theorem in plain characters, octets, channels or positions says what it has to be
(`JsonCharacters`, `SchemaKeywords`, `HeadChannels`, `StepOutcomes`, `Utf8Characters`, `SamplingLaws`, `GgufOctets`,
`AwqLayout`). `dafny verify dfyconfig.toml` checks everything.

## Findings

Properties one would expect of the code and that it does not have. Each has the exact condition under which it holds,
and an input at which it fails; for the prefix cache, whose hash is not part of this model, the failing calls are proved
to exist for every hash of 64 bits.

- **A number under an enum.** In value mode a number at the top counts as finished before it is held against the enum it
  belongs to (`src/constrain.rs:149-155`): under the enum `[12]` the text `1` is accepted
  (`GuidedSteps.TopLevelNumberEscapesItsEnum`). Every accepted text conforms exactly when the root is not an enum with a
  literal that starts with a number which is not itself a literal (`OpenEnums.EveryTextConformsIff`). In object mode
  there is no exception (`GuidedSteps.GuidedObjectsConform`).
- **Only a space inside a literal.** Inside a string the mask can be reduced to whitespace
  (`NeverStuck.OnlyASpaceInsideALiteral`). That happens exactly where the value is an enum string, or the key one of a
  closed object, and every live literal or unused name has a space next (`OnlySpaces.OtherByteIff`,
  `JsonConstraint.MaskNeverEmpty`).
- **Object mode for a schema that is no object.** `src/server/routes/chat.rs:2194-2200` picks object mode when a schema
  has `properties`, whatever its `type`. A byte other than whitespace is then let through at the start exactly when
  guidance reads the schema as an object, or as nothing it follows (`SchemaGuidance.ObjectModeStartsIff`): never for
  `{"type":"string","properties":{}}` (`SchemaGuidance.StringWithPropertiesIsStuck`).
- **Bytes RFC 8259 allows and the automaton refuses.** Whitespace inside an empty array (`src/constrain.rs:361`; the
  text `[ ]` in `JsonComplete.SpacedEmptyArrayIsRefused`), runs of more than 22 spaces even inside strings (`:255-261`),
  and after a number runs of more than 21, because the first one is counted twice (`:458`).
  `JsonGrammar.BoundedDocument` states these limits and `JsonComplete.AcceptsExactlyTheBoundedTexts` proves that there
  are no others.
- **Bursts overshoot `max_tokens`.** `apply_token` reports the token that reaches the cap as emitted, and the burst's
  loop goes on (`src/engine.rs:850-863`, `src/scheduler/sequence.rs:60-73`): with one token left to generate, five are
  appended (`Speculative.BurstOvershoots`). Every draft leaves a state of plain decoding exactly when the target's own
  next five tokens, cut at the first stop, fit what is left (`Speculative.EveryDraftIsPlainIff`); without stop rules,
  exactly when five tokens fit (`Speculative.EveryBurstIsPlainIff`). The documentation at `src/engine.rs:791` promises
  it without a condition.
- **Characters that straddle tokens.** The decoder freezes old tokens up to an end that decodes cleanly, but gives up
  after a few steps back and then freezes half a character: sixteen octets in tokens that straddle, fed in two pushes,
  do not stream to their decode (`IncrementalDecode.StraddledTextIsWrong`). On text that ends with a whole character the
  stream is the decode exactly when no push gives up inside one (`IncrementalDecode.StreamIsDecodeIff`). A text that so
  far breaks off inside a character can still come out right exactly when no push gave up
  (`IncrementalDecode.CanComeOutRightIff`). Should it end there, the condition is still sufficient
  (`IncrementalDecode.StreamIsDecode`); beyond it the characters themselves decide: of two texts whose tokens have the
  same lengths, pushed alike, one comes out right and the other does not (`IncrementalDecode.CharactersDecide`).
- **The token check of a cached block is not enough.** A lookup compares the block's own tokens and trusts the chain
  hash for everything before them (`src/common/prefix_cache.rs:86-111`). Every hit of every run of registrations,
  lookups and evictions was registered for exactly its prefix if and only if no two different prefixes of whole blocks
  have equal chain hash and equal last block, the second of them one that a lookup can get through
  (`ConfusablePrefixes.EveryHitMatchesIff`). With blocks of three or more 32-bit tokens every hash of 64 bits has such a
  pair, so for each some calls hand out another prefix's block (`ConfusablePrefixes.NarrowHashesConfuse`). What is
  proved about reuse is proved where no registered prefix is confusable with a prompt's.
- **AWQ without inputs.** `compressed_to_awq` accepts a layer with outputs and no inputs, whose result the dequantizer
  divides by zero on (`Awq.NoInputsConvertButCannotBeRead`); every other conversion can be read back
  (`Awq.ConversionKeepsWeights`, an if and only if).

## Model

| member | source | states |
|---|---|---|
| `JsonComplete.AcceptsExactlyTheBoundedTexts` | src/constrain.rs:144-507 | a byte text is accepted exactly when it is a JSON document of RFC 8259 within the automaton's limits on nesting and whitespace, in object mode one whose value is an object |
| `JsonComplete.SpacedEmptyArrayIsRefused` | src/constrain.rs:361 | `[ ]` is a JSON document and is not accepted |
| `JsonCharacters.WordsAreTheLiterals` | src/constrain.rs:122 | in value mode the accepted texts that begin with a lower-case letter and hold no whitespace are exactly "true", "false" and "null" |
| `JsonCharacters.ClassesByCharacter` | src/constrain.rs:124-126 | which characters are whitespace, digits, hex digits, exponent marks and simple escapes to automaton and grammar |
| `JsonCharacters.TwentyTwoSpaces` | src/constrain.rs:116-120 | spaces and a zero are accepted exactly when there are at most 22 spaces |
| `JsonCharacters.SixtyFourArrays` | src/constrain.rs:157-165 | n opening and n closing brackets are accepted exactly when n is at most 64 |
| `JsonTree.StepFollows` | src/constrain.rs:252-507 | every accepted byte extends a partial syntax tree: its text by that byte, and its automaton state to the one the byte leads to |
| `Automaton.JsonMachine.StepEvents` | src/constrain.rs:252-326 | the class with the 128-bit stack refuses, accepts and reports events exactly as the pure automaton with its explicit list of levels does |
| `Guide.GuideState.Follow` | src/constrain.rs:851-935 | the guide class moves to the state of the pure guide for the same byte and events, or refuses when that does |
| `GuidedSteps.WalkIffViable` | src/constrain.rs:851-1109 | machine and guide together let a text through exactly when the automaton runs on it and its tree can still become a conforming document; the guide's state is the one the tree determines |
| `GuidedSteps.GuidedTextsConform` | src/constrain.rs:851-1174 | the accepted texts are exactly those of conforming documents, except for a number standing alone that no enum has settled yet |
| `GuidedSteps.GuidedObjectsConform` | src/constrain.rs:144-155 | in object mode the accepted texts are exactly those of conforming documents |
| `Conformance.RequiredArePresent` | src/constrain.rs:1100 | a conforming object has a key for each of its required properties |
| `OpenEnums.EveryTextConformsIff` | src/constrain.rs:149-155 | in value mode every accepted text conforms exactly when the root is no enum with a literal that starts with a number which is not a literal |
| `GuidedSteps.TopLevelNumberEscapesItsEnum` | src/constrain.rs:149-155 | under the enum `[12]` the text `1` is accepted and does not conform |
| `NeverStuck.NeverStuck` | src/constrain.rs:827-1109 | from every state that guided decoding reaches there is a continuation which is accepted and conforms, and which outside strings starts with no whitespace |
| `OnlySpaces.OtherByteIff` | src/constrain.rs:851-1109 | a reachable state may stop or take a byte that is no whitespace, except exactly where every live literal or unused name has a space next; there a space goes on and nothing else |
| `NeverStuck.OnlyASpaceInsideALiteral` | src/constrain.rs:865-895 | an enum literal that is one space leaves only the space after its opening quote |
| `JsonConstraint.JsonConstraint.Allowed` | src/constrain.rs:1152-1174 | the mask offers a token exactly when it is a stop at an accepting state, or has bytes that machine and guide let through |
| `JsonConstraint.JsonConstraint.Advance` | src/constrain.rs:1178-1195 | a token moves the state by its bytes when they all go through, and leaves it alone when it is a stop, has no bytes or fails |
| `JsonConstraint.MaskNeverEmpty` | src/constrain.rs:1152-1174 | after any generation under its own masks, the mask offers a token; it offers a stop or a token that begins with no whitespace except exactly where only a space is left |
| `JsonConstraint.StoppedTextConforms` | src/constrain.rs:1152-1195 | where the mask offers a stop, what was generated is a conforming document, or in value mode an unsettled number |
| `SchemaArena.SchemaCompiler.CompileRoot` | src/constrain.rs:578-715 | as long as node ids fit, the compiled arena's root stands for the meaning of the schema, nested references, fallbacks and depth limit included |
| `SchemaArena.CompiledIsWellFormed` | src/constrain.rs:578-715 | what the compiler leaves is what guidance expects of an arena, the one-node arena of an unconstrained request included |
| `SchemaArena.CompiledIsSpeakable` | src/constrain.rs:578-715 | with names and literals that can be written, a compiled arena never gets stuck |
| `SchemaKeywords.TypeAsks` | src/constrain.rs:685-704 | under `type` "string", "number", "integer", "boolean" or "null", whatever `properties` says, a value satisfies the schema exactly when it is a string, a number, a number without fraction and exponent, `true` or `false`, or `null` |
| `SchemaKeywords.EnumAsks` | src/constrain.rs:623-639 | under `enum` with one to 64 scalars a value satisfies the schema exactly when it is written as one of them; any other `enum` asks nothing |
| `SchemaKeywords.RefAsks` | src/constrain.rs:608-622 | a `$ref` asks what the definition it names under `$defs` or `definitions` asks one level deeper, and nothing when it names none |
| `SchemaKeywords.ArrayAsks` | src/constrain.rs:677-684 | under `type` "array" a value satisfies the schema exactly when it is an array and, inside fewer than eight containers, its items satisfy `items` |
| `SchemaKeywords.ObjectAsks` | src/constrain.rs:643-676 | an object schema asks for an object with a member for every required name, whose first member of a listed name satisfies that property, and others only unless `additionalProperties` is false; more than 64 properties or an unlisted required name ask nothing |
| `SchemaKeywords.FreeSchemas` | src/constrain.rs:602-642 | a schema that is no object, lies deeper than 32, combines schemas or has no type that is known asks nothing |
| `SchemaGuidance.ConformsIsSatisfies` | src/constrain.rs:596-715 | a value conforms to the arena exactly when it satisfies the shape the arena stands for |
| `SchemaGuidance.GuidedGeneration` | src/constrain.rs:578-1195 | compiler, guide and mask together: whatever was generated under a compiled schema, the mask is not empty, and where it offers a stop the text satisfies the schema as guidance reads it, or is an unsettled number |
| `SchemaGuidance.ForSchema` | src/constrain.rs:1124-1135 | a constraint made for a schema starts at the beginning, over a sound arena whose root stands for the schema's meaning |
| `SchemaGuidance.ObjectModeNeedsAnObject` | src/constrain.rs:144-147 | in object mode some byte other than whitespace starts a text exactly when the root is an object or free |
| `SchemaGuidance.ObjectModeStartsIff` | src/server/routes/chat.rs:2194-2200 | in object mode some byte other than whitespace starts a text exactly when guidance reads the schema as an object, or as nothing it follows |
| `SchemaGuidance.StringWithPropertiesIsStuck` | src/server/routes/chat.rs:2194-2200 | `{"type":"string","properties":{}}` picks object mode, and then no byte but whitespace is let through |
| `TriangularInverse.InvertUnitLower` | src/common/gdn.rs:169-223 | for every strictly lower triangular A of any size, the result is the two-sided inverse of I - A, by blocks where the size is a power of two above 16 and by the doubling loop otherwise |
| `TriangularInverse.InvertUnitLowerBase` | src/common/gdn.rs:147-158 | the doubling loop returns the two-sided inverse of I - A for every strictly lower triangular A |
| `TriangularInverse.InverseIsUnique` | src/common/gdn.rs:147-223 | a matrix has one two-sided inverse, so both forms agree wherever both apply |
| `DeltaRule.StateIsClosed` | src/common/gdn.rs:240-259 | the state the recurrence leaves is the start decayed plus what each token wrote, decayed to the end |
| `ChunkScan.NewValuesAreDeltas` | src/common/gdn.rs:312-352 | what the scan computes through the inverse is, row by row, what the recurrence writes token by token |
| `DeltaLayer.ChunkGatedDeltaRule` | src/common/gdn.rs:269-371 | for every length, chunk size, padding and initial state, outputs and final state of the chunked scan are those of the recurrence |
| `DeltaLayer.RecurrentDeltaStep` | src/common/gdn.rs:240-259 | one step of the recurrence on a normalized token |
| `DeltaLayer.MixSegment` | src/common/gdn.rs:644-727 | either path, decode or prefill, gives every head the outputs of the recurrence over the convolved segment and leaves its state |
| `HeadChannels.OneTokenInChannels` | src/common/gdn.rs:654-714 | what one token does to a head, entry by entry in the packed row's channels: the state decays and takes, in the row of the normalized key, beta times what the value exceeds the recalled one by; the output is what the normalized query recalls |
| `HeadChannels.SilentQueries` | src/common/gdn.rs:667-671 | when the channels before `num_k_heads * head_k_dim` are zero every output is zero |
| `HeadChannels.SilentKeys` | src/common/gdn.rs:672-676 | when the next as many channels are zero a head's state only decays |
| `HeadChannels.HeadsAreApart` | src/common/gdn.rs:667-698 | outputs and state of a value head depend on no channels but those of its key head, tiled or repeated, and its own values, on its own gates and betas, and on its own state |
| `HeadChannels.FreshIsZero` | src/common/gdn.rs:601-604 | a prompt without a state runs as from a window and states of zeros |
| `DeltaLayer.PromptInPieces` | src/common/gdn.rs:585-618 | however a prompt is cut into segments, every head's outputs and the state left, convolution window included, are those of the whole prompt |
| `Chunks.ChunkPlanner.Next` | src/engine.rs:332-371 | each chunk is the next one: contiguous, within the cap, of one phase, and its finished rows are the sequences that end in it |
| `Chunks.ChunksAreContiguous` | src/engine.rs:332-371 | every chunk of a plan starts where the one before it ended |
| `Chunks.PlanPartition` | src/engine.rs:313-371 | under any caps, what the chunks carried of a sequence is what the cursor says, and the rows finished so far are the sequences passed, in order |
| `Chunks.FinishedPlan` | src/engine.rs:313-371 | a finished plan carries every sequence exactly, yields its rows once each in batch order, and mixes no prefill with decode |
| `PrefixCaches.HitsAreSound` | src/common/prefix_cache.rs:59-111 | where no registered prefix is confusable with the prompt's, the block matched at index i was registered for exactly the prompt's first i + 1 blocks |
| `ConfusablePrefixes.EveryHitMatchesIff` | src/common/prefix_cache.rs:86-218 | over all runs of registrations, lookups and evictions, every hit was registered for exactly its prefix if and only if no two different prefixes have equal chain hash and equal last block, the second one such that equal chains within it belong to equal blocks |
| `ConfusablePrefixes.NarrowHashesConfuse` | src/common/prefix_cache.rs:224-229 | for every 64-bit hash, and blocks of at least three 32-bit tokens, there is such a pair and hence a run with a wrong hit |
| `PrefixCaches.PrefixCache.Lookup` | src/common/prefix_cache.rs:86-111 | returns the blocks of the longest cached prefix and changes neither the entries nor the references; what it looked at then stands last, in the prompt's order, and everything else before it in its old order |
| `PrefixCaches.PrefixCache.CountCachedBlocks` | src/common/prefix_cache.rs:59-80 | counts what a lookup would match and changes nothing |
| `PrefixCaches.PrefixCache.Touch` | src/common/prefix_cache.rs:116-132 | leaves the order a lookup would: the entries it looked at last, in the prompt's order, the others before them in their old order; it changes nothing else |
| `PrefixCaches.PrefixCache.Register` | src/common/prefix_cache.rs:159-218 | adds an entry for each new chain in order, evicting when full, and keeps each layer's references equal to the entries' and the sequences' |
| `PrefixCaches.PrefixCache.EvictLru` | src/common/prefix_cache.rs:136-155 | removes the entry used longest ago and exactly its references |
| `PrefixCaches.LookedAtGoLast` | src/common/prefix_cache.rs:86-155 | after a lookup or a touch, evicting takes no entry that it looked at while another one is left |
| `PrefixCaches.RecordedInOrder` | src/common/prefix_cache.rs:180-218 | registering appends, in block order, one entry for each block whose chain is not there when its turn comes, and keeps the last `capacity` of all |
| `PagedPools.PagedCache.Append` | src/common/paged.rs:1236-1300 | in every layer the blocks go on to hold what they held and the new slots, nothing that others refer to changes, and with writes off no slot does |
| `PagedPools.RunIsStored` | src/common/paged.rs:1262-1296 | a run written from where the last block has room extends what the blocks hold |
| `PagedPools.PagedCache.Prepopulate` | src/common/paged.rs:1575-1597 | the table starts with the matched blocks of its layer, each with one more reference, and no slot changes |
| `PagedPools.PagedCache.TruncateTo` | src/common/paged.rs:1610-1625 | the blocks that only held dropped tokens are given up, and no others |
| `PagedPools.BlocksAreLeast` | src/common/paged.rs:1610-1625 | a table of n tokens has the least number of blocks that hold them |
| `SharedBlocks.AppendRow` | src/common/paged.rs:1236-1300 | appending to one sequence keeps the pool sound and writes into no cached block and into no block of another sequence |
| `SharedBlocks.HitsMatch` | src/common/prefix_cache.rs:86-111 | where no registered prefix is confusable with the prompt's, every matched block holds, in every layer, the slots of the prompt's own block at that index |
| `SharedBlocks.PrepopulateRow` | src/engine.rs:461-484 | a prefill that starts with matched blocks holds its prompt's own slots there, in every layer |
| `SharedBlocks.RegisterRow` | src/engine.rs:690-703 | registering what a prefill filled keeps every cached entry backed by its prefix's own slots and adds only prefixes of that prompt |
| `BatchEngine.LoadPrompt` | src/engine.rs:457-500 | matches the longest cached prefix of whole blocks, leaves at least one token to run, and fills the cache from the pool with exactly the prompt's own slots |
| `BatchEngine.ReuseIsLongest` | src/engine.rs:461-484 | of the matched blocks all are reused that leave a token to run, and the full blocks of the prompt are all counted |
| `BatchEngine.BuildBatchInput` | src/engine.rs:509-541 | the flattened input is every prefill's uncached suffix at its own positions, then every decode's last token |
| `BatchEngine.RunChunks` | src/engine.rs:568-628 | under any caps and failures each cache takes a prefix of its own row; when nothing fails, all of it, and row i is the model's answer to sequence i's history |
| `BatchEngine.BatchIsWhole` | src/engine.rs:451-541 | whatever was reused, what a sequence has cached and what it is fed make up its whole history |
| `BatchEngine.Step` | src/engine.rs:1013-1109 | a successful step leaves every sequence, and emits for it, what a step alone would; a failed one leaves each with a prefix of its history cached; the pool stays sound either way |
| `StepOutcomes.StepTakesOneToken` | src/engine.rs:655-687 | after a successful step every sequence has the token sampled from its own history; where that is a stop token, or the text ends with a listed stop sequence, it is finished with "stop" and the token is not emitted, and everywhere else it is emitted and counted against the cap |
| `StepOutcomes.FailedStepTakesNone` | src/engine.rs:568-628 | after a failed step a sequence is what it was, but for a cache of at most its own history |
| `EngineBatches.StepAloneRested` | src/scheduler/mod.rs:272-285 | a preempted sequence takes the step it would have taken without the preemption |
| `Speculative.RunBurst` | src/engine.rs:804-876 | proposing, verifying, accepting and rolling back leave the specified burst, with both caches back at a prefix of the tokens |
| `StepOutcomes.BurstTakesTokens` | src/engine.rs:848-863 | a burst appends one to five tokens; none but the last ends the text by a stop token or sequence; if the last does, it is not emitted and the sequence is finished with "stop", and otherwise all are emitted |
| `Speculative.BurstIsGreedy` | src/engine.rs:787-793 | whatever the draft proposes, a burst appends one to five tokens and they are the target's own greedy ones |
| `Speculative.GenerationIsGreedy` | src/engine.rs:787-793 | however many bursts run with whatever drafts, the text is the target's greedy continuation |
| `Speculative.BurstIsPlainIff` | src/engine.rs:850-863 | a burst leaves a state of plain decoding exactly when it appends no more than `max_tokens` leaves |
| `Speculative.EveryDraftIsPlainIff` | src/engine.rs:850-863 | every draft does so exactly when the target's own next five tokens, cut at the first stop, fit what is left |
| `Speculative.EveryBurstIsPlainIff` | src/engine.rs:850-863 | without stop rules, every burst of every two models does so exactly when five tokens fit |
| `Speculative.OvershootsOtherwise` | src/scheduler/sequence.rs:60-73 | otherwise a draft as good as the target makes the burst append more than `max_tokens` leaves |
| `Speculative.BurstOvershoots` | src/scheduler/sequence.rs:60-73 | with one token left, a burst appends five |
| `EngineSteps.StepWithDraft` | src/engine.rs:1039-1109 | in one step the plain greedy, unconstrained decodes take bursts and all others the step they would take alone; what is emitted is, in order, each batch sequence's own next token and then each burst's tokens; everybody else is untouched and the pool stays sound |
| `StepOutcomes.StepWithDraftTakes` | src/engine.rs:1039-1109 | exactly the decodes with plain greedy settings and no constraint take such a burst, the other scheduled sequences one such token, the rest nothing |
| `EngineSteps.BurstIsAloneIff` | src/engine.rs:804-876 | with a greedy sampler, every draft's burst is some number of the sequence's own steps exactly when the target's next five tokens fit what is left |
| `EngineSteps.StepIsAlone` | src/engine.rs:1001-1109 | hence a step with any draft leaves every scheduled sequence after some number of its own steps |
| `EngineRuns.BurstTakes` | src/engine.rs:804-876 | whatever the draft, a burst takes a sequence one to five of its own steps on, or past its cap with the target's own next tokens |
| `EngineRuns.Run` | src/server/routes/engine_loop.rs:539-892 | over any rounds of evictions, refreshes, preemptions, picks and failures, with or without a draft, every sequence that no failed step aborted is where some number of steps alone would have taken it (one for each time it was picked, with a draft one to five), or finished by a burst past its cap; without failures that is every sequence; after three failed steps in a row none is left waiting or running |
| `Hadamard.WhtInPlace` | src/common/kv_quant.rs:108-123 | the in-place butterfly loops compute the recursive transform for every length that is a power of two |
| `Hadamard.WhtTwice` | src/common/kv_quant.rs:108-123 | applied twice, the transform multiplies the vector by its length |
| `Hadamard.WhtScalesSquares` | src/common/kv_quant.rs:108-123 | applied once, it multiplies the sum of squares by the length |
| `BitPacking.PackIndices` | src/common/kv_quant.rs:440-564 | for widths one to four, unpacking what was packed gives back every index |
| `BitPacking.UnpackIndices` | src/common/kv_quant.rs:450-564 | unpacking reads each field where packing of that width puts it |
| `BitPacking.FieldBits` | src/common/kv_quant.rs:450-564 | bit k of a field is bit b + k of the octets, lowest first, and a field of w bits holds the numbers below 2 to the w |
| `Quantizer.RotationsUndo` | src/common/kv_quant.rs:354-412 | rotation and its inverse undo each other in either order |
| `Quantizer.FindNearest` | src/common/kv_quant.rs:422-434 | the binary search over midpoints finds a nearest centroid |
| `Quantizer.QuantizerIsBest` | src/common/kv_quant.rs:339-383 | nearest centroids in the rotated space reconstruct the vector with the least squared error any choice has |
| `Quantizer.QuantizeMse` | src/common/kv_quant.rs:339-383 | the packed bytes decode to a choice no other choice beats; a vector of tiny norm is stored as zeros |
| `Quantizer.DequantizeMse` | src/common/kv_quant.rs:385-418 | reads the packed choice back as its centroids, rotated back and scaled |
| `IncrementalDecode.Stream` | src/common/incremental_decode.rs:166-201 | any growing run of pushes and the finish hand out the specified stream |
| `IncrementalDecode.StreamIsDecode` | src/common/incremental_decode.rs:77-121 | on octets that begin a valid text, the stream is the decode as long as no push gives up inside a character |
| `IncrementalDecode.StreamIsDecodeIff` | src/common/incremental_decode.rs:77-121 | on whole characters and tokens that are not empty, the stream is the decode exactly when no push gives up inside one |
| `IncrementalDecode.CanComeOutRightIff` | src/common/incremental_decode.rs:88-121 | whether the text so far is whole or breaks off inside a character, some continuation makes the stream the decode exactly when no push so far gave up inside one |
| `IncrementalDecode.AlignedTokensStreamRight` | src/common/incremental_decode.rs:77-121 | tokens that end where characters do always stream to their decode |
| `IncrementalDecode.StraddledTextIsWrong` | src/common/incremental_decode.rs:88-112 | eight characters in straddling tokens, fed in two pushes, do not |
| `IncrementalDecode.CharactersDecide` | src/common/incremental_decode.rs:166-201 | of two texts that break off inside a character, equal in the lengths of all tokens and characters and in their pushes, both with pushes that gave up, the one whose last two whole characters are the same comes out right and the other does not |
| `Utf8Characters.HeadIsACharacter` | src/common/incremental_decode.rs:68-77 | what the decoder takes for a character is the encoding of a Unicode scalar value, all of them and nothing else |
| `Utf8Characters.TextIsKept` | src/common/incremental_decode.rs:68-77 | characters one after the other decode to themselves |
| `Utf8Characters.BrokenIsReplaced` | src/common/incremental_decode.rs:68-77 | where no character starts, one U+FFFD stands for the longest beginning of one, or for a single octet |
| `ExpertStream.StreamedExperts.FetchMany` | src/common/expert_stream.rs:249-324 | returns the experts in the order of the ids; counts a hit for every id found and a miss for every distinct one that is not; evicts oldest first, none of the batch, and no more than the budget needs; ends over budget only when the cache is no larger than the batch; what is evicted waits in the graveyard until enough of it is let go at once; a failed read only marks what it hit |
| `Sampling.ApplyTopP` | src/sampling.rs:556-579 | the filter leaves a nucleus of the whole distribution, the fast path over the likeliest candidates included |
| `Sampling.FastPathIsFull` | src/sampling.rs:556-579 | once the candidates carry the mass, keeping from them alone is keeping from a full order |
| `Sampling.TiesDoNotMatter` | src/sampling.rs:524-554 | two full orders keep the same number and the same probabilities, and with distinct probabilities the same tokens |
| `Sampling.NucleusKeepsTheBest` | src/sampling.rs:524-579 | nothing kept is less likely than anything dropped |
| `SamplingLaws.NucleusSumsToOne` | src/sampling.rs:409-415 | what a nucleus keeps adds up to one, in the old proportions |
| `SamplingLaws.NucleusIsSmallest` | src/sampling.rs:524-554 | a nucleus carries `top_p` or everything, and without its least likely token it would fall short |
| `Sampling.ApplyTopK` | src/sampling.rs:439-512 | leaves the k likeliest tokens, fewer if fewer are possible, renormalized, whatever the shuffle does to ties |
| `SamplingLaws.TopKSumsToOne` | src/sampling.rs:439-512 | as many tokens stay possible as are wanted, or as were possible, and their probabilities add up to one |
| `Sampling.CategoricalSample` | src/sampling.rs:618-636 | picks the token whose stretch of the cumulative distribution holds the draw, never an impossible one |
| `Sampling.RepetitionPenaltyWithCounts` | src/sampling.rs:341-356 | one power per distinct token gives the logits that one division per occurrence gives |
| `Sampling.RepetitionPenalty` | src/sampling.rs:329-339 | a logit is penalized once per occurrence |
| `SamplingLaws.PenaltyLowers` | src/sampling.rs:329-356 | a penalty above one lowers the logit of every token that has occurred, unless it is zero, never across zero, by as many factors as it occurred, and leaves the others |
| `Gguf.Parse` | src/common/gguf_header.rs:184-267 | the cursor's loops read what the specification function parses, or fail when it does |
| `Gguf.RoundTrip` | src/common/gguf_header.rs:290-374 | parsing what the writer emits gives back every metadata value and tensor, for arrays nested up to the bound |
| `Gguf.AppendedDataIsIgnored` | src/common/gguf_header.rs:184-267 | a successful parse does not change when data follows |
| `Gguf.ShorterCutsFail` | src/common/gguf_header.rs:184-267 | the prefixes of a file that hold its header parse to it and all shorter ones fail |
| `Gguf.DataIsAligned` | src/common/gguf_header.rs:255-266 | the data starts at the least aligned position that is not inside the header |
| `Gguf.DataIsFound` | src/common/gguf_header.rs:290-374 | with the writer's alignment the data is found where it was put |
| `GgufOctets.NumbersByOctets` | src/common/gguf_header.rs:147-173 | which octets each numeric tag takes, in what order and sign, and that it fails past the end |
| `GgufOctets.TextsAndArrays` | src/common/gguf_header.rs:134-169 | lengths are four octets in version 1 and eight otherwise; arrays inside 64 others are refused |
| `GgufOctets.TakenFiles` | src/common/gguf_header.rs:184-199 | a file that parses begins with "GGUF" and version 1, 2 or 3 and has as many tensors as it says |
| `GgufOctets.AlignmentIs` | src/common/gguf_header.rs:245-253 | the alignment is 32 unless "general.alignment" is an integer of at most 32 bits that is not negative |
| `GgufOctets.NamedByLast` | src/common/gguf_header.rs:73-92 | the other reader's view has, for each name, the last tensor whose type it knows |
| `GgufOctets.DimensionsTurnAround` | src/common/gguf_header.rs:220-225 | a written tensor is listed with its dimensions in the opposite order |
| `GgufOctets.OffsetsFollow` | src/common/gguf_header.rs:340-374 | every tensor's data starts at the first multiple of 32 behind the data of the tensor before it |
| `Awq.Dequantize` | src/common/awq.rs:325-406 | succeeds exactly on the shapes it documents, and entry (o, i) is the weight the layout stands for |
| `AwqLayout.WeightByNibbles` | src/common/awq.rs:325-406 | weight (o, i) is the difference of two nibbles, its own and its group's zero point, times the group's scale; even columns of a word are in its first four nibbles and odd ones in the last |
| `AwqLayout.WordIsItsNibbles` | src/common/awq.rs:388-400 | a word is its eight nibbles, the lowest four bits first |
| `AwqLayout.ReadableIff` | src/common/awq.rs:325-370 | a layer can be dequantized exactly when all its parts have the shape of n inputs, outputs by the eight and equal groups of at least one input |
| `Awq.CompressedToAwq` | src/common/awq.rs:187-254 | the conversion succeeds exactly on matching shapes with some outputs and leaves the interleaved layout of the compressed nibbles |
| `AwqLayout.ConvertibleIff` | src/common/awq.rs:187-212 | what converts: at least one word of eight outputs, a row of scales for each, and equal groups |
| `Awq.ConversionKeepsWeights` | src/common/awq.rs:187-254 | dequantizing the conversion gives (nibble - 8) times scale at every (o, i); only a layer without inputs cannot be read back |
| `Awq.NoInputsConvertButCannotBeRead` | src/common/awq.rs:187-254 | eight outputs without inputs convert, and the result has groups of no inputs, which the dequantizer cannot read |
| `Awq.ConcatAlongOut` | src/common/awq.rs:256-323 | fuses exactly the parts that fit together |
| `Awq.ConcatStacks` | src/common/awq.rs:256-323 | dequantizing the fused layer stacks the dequantized parts |
| `Awq.RtnQuantize` | src/common/awq.rs:637-740 | succeeds exactly on whole groups of a layer with inputs; quantize, then dequantize: every weight lies within half a step of its group's scale, or within the bound the near-constant branch tests |
| `AwqLayout.QuantizableIff` | src/common/awq.rs:637-660 | what quantizes: outputs by the eight and at least one whole group of inputs |
| `AwqLayout.WithinAThirtieth` | src/common/awq.rs:670-715 | a weight comes back within a thirtieth of any range that holds zero and its group, or within 1e-12 |

## Left out

- Token masks of 64 bits are sets of property indices; the 128-bit word of the automaton's stack is one, the 16-bit node
  ids appear as the condition `Fits`, and 32- and 64-bit counters are unbounded.
- UTF-8 is not checked inside JSON strings, as in the code. Exactness against full JSON Schema is not claimed:
  `SchemaArena.Meaning` is the schema as the compiler reads it.
- `TokenByteTable::build`: the table of token bytes is given; tokens without bytes and stop tokens are modelled.
- `JsonComplete.AcceptsExactlyTheBoundedTexts`: says nothing about UTF-8 validity of string contents.
- Floats are reals. `exp`, `silu`, the softplus and inverse square root of `gdn.rs`, and the norms are parameters; `exp`
  is assumed to turn sums into products and zero into one. One batch entry and one value head at a time.
- The output projection and gated norm of the DeltaNet layer, attention, MoE and all GPU kernels.
- `BatchEngine.Step`: the contents of a sequence's working buffers are followed for one layer, while its blocks are
  followed in every layer; sliding windows, quantized pools (whose reads are approximate), staged writes and recurrent
  state in the pool are not modelled. The model is a function of a sequence's history.
- `EngineRuns.Run`: which sequences a round picks, preempts or evicts is arbitrary; the block counting by which
  `schedule` decides is not modelled, so nothing is said about fairness or about when preemption happens. Requests are
  all queued at the start, and none is cancelled by its client. That no prefixes are confusable is a premise, over the
  finitely many texts the run can reach.
- `ConfusablePrefixes.NarrowHashesConfuse`: `rustc_hash` is not part of this model, so no particular pair of prompts is
  named.
- `EngineSteps.StepWithDraft`: the draft's own block pool is not modelled, nor its forwards' failures.
- Logprobs, metrics, timing (elapsed times are inputs) and the requests' channels.
- Grammar-constrained sequences inside the engine: the constraint's step is a parameter.
- `IncrementalDecode.StreamIsDecodeIff`: necessity is proved for texts of whole characters, and for texts that break off
  as far as they can still go on (`IncrementalDecode.CanComeOutRightIff`). The tokenizer is byte-level, with the
  replacement of malformed octets that decoding uses.
- `Awq.CompressedToAwq`, `Awq.RtnQuantize`: a panic on a chunk size of zero is `None`, like an error.
- The residual sketch of quantized keys, and centroid tables.
- Reading experts from disk and building them; which reads fail is an input. The order in which parallel reads finish.
- `apply_min_p`, frequency and presence penalties, softmax and logprobs of the sampler, the hash that orders ties of
  equal rank (an arbitrary ranking takes its place), and the random generator (the draw is an input).
- Reading GGUF from a file; positions are unbounded, so 64-bit overflow of sizes is not modelled.
- GPTQ layouts, devices and tensor types of the quantized weights. `Awq.ConcatAlongOut` does not look at the outputs of
  the first part, as in the code.
