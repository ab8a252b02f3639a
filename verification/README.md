# Verified model of the generation loop, its caches, the DML fence managers and the JSON parser

This Dafny project models three parts of the repository and proves what they are for. `dafny verify dfyconfig.toml`
checks all of it.

**Search and caches.** `Sequences`, `BeamHypotheses`, `BeamSearchScorer`, `BeamSearch`, `GreedySearch`,
`PositionInputs`, `KvCache`, `DecoderState` and `Generator` follow the C++ classes of the same names: flat buffers written
in place, loops with invariants, each method proved against a function of the old state. On top of them stand value-level
state machines:

* `BeamRun` and `BeamInvariants`: a beam search as legal steps, and what every reachable state satisfies (batch isolation,
  path scores along recorded ancestors, sorted hypotheses); `BeamResults`: a run returns the best of everything that ended in
  it, each with the normalised score of its path; `BeamWindow`: exactly when a step's decision to end a batch entry is right,
  over all steps a search can take;
* `Generation` and `CacheCoherence`: the model inputs and key/value rows under any sequence of row moves. The model itself is
  an arbitrary causal function `cell` that computes one token's keys and values from the columns before it, the mask up to
  the token and its position; nothing else is assumed about it. The results say that the cached columns are those of
  recomputing the row from scratch;
* `TensorDecoder`: the same rows as they lie in the flat cache tensors, read as one column per token. Its `Run` keeps the
  contract of `DecoderState.Run`, which is all the generators use of it, and its outputs are the model's for what is read from
  the past tensors;
* `Generator`: the whole loop for a greedy search, model runs and token choices in turn. `Generate` returns what greedy
  decoding of the uncached model would, or, for a sampler, what drawing every token from the softmax of the uncached model's
  scores would; `UnpaddedRuns` says when a run of the sampler that does not pad stops;
* `BeamGenerator`: the same for a beam search. Its objects are always where a run of the state machine has got to, so all that
  holds in every reachable state holds of them.

`TopK` models the mergeable table of the device beam search; `Ranking` says, without any algorithm, what "the best k" means.

**DML resource managers.** `Device` is a fence whose value moves forward by itself, at any read, up to what was asked to be
signaled, so every interleaving with the device is covered. `CommandQueue`, `AllocatorRing`, `CommandRecorder` and
`ExecutionContext` prove program order, the meaning of completion events and the safety of allocator resets; `UploadHeap`
(on top of the context) and `DescriptorPool` prove that memory the device may still read is never handed out again, and
`OperatorDispatch` joins the pool to the recorder: descriptors are reused only after their dispatch has been executed.
`UpdateMaskKernel` proves the tiling of the device's attention-mask kernel and that running it once per token leaves a prefix
mask.

**JSON.** `Json` states the parser as functions on the text that is left and proves the cursor methods equal to them, errors
and rejected callbacks included; a number is the longest prefix that is one. `JsonTrees` has trees that keep every character
of a document, legal or merely read by the parser: a string that ends at a NUL, an escape that stands for itself, a character
that is skipped where no value starts. `JsonReading` and `JsonAccepted` prove that the parser takes a text exactly if such a
tree prints it, with the tree's callbacks. `JsonRoundTrip` proves the round trip for the legal trees of RFC 8259, sections 4,
5 and 7, with arbitrary whitespace and an arbitrary choice between raw characters and two-character escapes.

Scores are real numbers, `sum / pow(length, penalty)` is an arbitrary function `norm`, and `exp` an arbitrary increasing
positive function. Ties in the priority queue, the samplers' random numbers and the order of equal scores in the sorts are
arbitrary, and so is what an element of the JSON parser accepts, given the callbacks so far.

## Where the code falls short of what it is for

Each of these is a theorem with the exact condition.

* The improvement test of a beam step looks at a window that starts at `batch * num_beams`, while the entry's candidates
  start at `batch * 2 * num_beams` (src/beam_search_scorer.cpp:178). Over all legal steps of all runs an entry is kept too
  long unless stopping is early, it is entry 0 or there is nothing to decide (EOS outside the vocabulary, or no room for a
  step), and is ended too early unless, besides, it is entry 1: `BeamWindow.EndsLateIff`, `BeamWindow.EndsEarlyIff`. The
  counterexamples are first steps of a search.
* `Generate` returns the first `batch_size` rows of the sequences, which for a beam search are rows of beams
  (src/generators.cpp:205-214): `BeamInvariants.GeneratedRowIsOwnIff`.
* The debug assertion of the copy helper does not hold when a stored hypothesis is written to its output row
  (src/smartptrs.h:29): `BeamInvariants.CopyFitsIff`.
* `SampleTopK` does not pad entries that have seen EOS (src/search.cpp:156-169): `Greedy.UnpaddedStepSafeIff`. Its runs stop
  by the number of EOS tokens drawn, whichever entries they belong to: `UnpaddedRuns.UnpaddedStepCounts`. It also draws
  with the probabilities of the first k tokens of the vocabulary (src/search.cpp:165): `GreedySearchCpu.WeightsAreOwnIff`.
* `reduce_topk_op` also inserts the other table's empty slots, whose key -1 beats minus infinity:
  `TopKTable.MergeIsBestIff`.
* A JSON literal at the very end of a document is dropped silently, because `Skip` wants a character after the word
  (src/json.cpp:77): `JsonRoundTrip.RoundTripIff`. Any character that starts no value is skipped in the place of one
  (src/json.cpp:168-173), so that `[1,]]` is an array: `JsonAccepted.AcceptedIff` has exactly what is taken.
* Nothing compares `top_k` with the vocabulary, and what the samplers ask of their sort can be had exactly when
  `top_k <= vocab_size` (src/search.cpp:163,211): `GreedySearchCpu.SortsExistIff`.
* The overflow test of `FindOffsetForAllocation` gives up although the front of the chunk is free:
  `UploadHeap.FoundIffRoom` for one call, `UploadHeap.CompleteIff` for a capacity. (`Align` itself would wrap above
  2^64 - 512, which no offset in a chunk reaches.) This arises only for `Reserve` and `Push` under arbitrary fences. Uploads
  go through `BeginUploadToGpu`, which waits for its event before it records the allocation, so that in a run every recorded
  allocation is finished, the reclaim empties every chunk, and each upload is at the start of the first chunk that is large
  enough: `UploadHeap.DmlPooledUploadHeap.BeginUploadToGpu`. No run ever puts two allocations into the pool, and `Trim` drops
  every chunk.
* The device mask ignores padding in the prompt: `UpdateMaskKernel.DeviceRowIsCpuRowIff`.
* Without static buffers both tensors of the device mask are allocated anew at every update, but the kernel is recorded for
  those of the first two only (src/models/position_inputs.cpp:242-264). The first update is right whatever the new buffers
  hold, the later ones exactly when these happen to hold the ones: `UpdateMaskKernel.ReallocatedMask.Update`.

Two further observations: `BeamSearch_Cpu` never asks the scorer whether all batch entries are done, so its run ends only at
`max_length`; and `GenerateNextToken` clears the waiting logits before it rejects unsupported options, so
`Generator.GenerateNextToken` promises lockstep only when it succeeds.

## Model

| member | source | states |
|---|---|---|
| GreedyGeneration.Generate | src/generators.cpp:197-203 | for `!do_sample` or top_k 1, generation with the cache returns exactly what greedy decoding of the uncached model returns: every token up to EOS is the first arg-max of the model run from scratch on the row so far, then only padding; for any other options every token is drawn from the uncached model's scores of its row, by top-k-top-p when top_k > 1 and 0 < top_p < 1, by top-k when top_k > 1 and top_p is 0 or 1, else by top-p; with a sampler that pads, the loop stops exactly when every row has EOS or the rows are full, and with top-k when as many EOS tokens were drawn as there are rows; it fails exactly on parameters the constructor rejects or, when sampling, top_k < 0 or top_p outside [0, 1] |
| GreedyGeneration.ChooseIff | src/generators.cpp:168-190 | which options select arg-max, which of the three samplers they select, and which are rejected |
| GreedyGeneration.DrawnStep | src/search.cpp:156-227 | one step of draws extends rows drawn from the uncached model to such rows, after EOS by padding or, with top-k, by further draws |
| UnpaddedRuns.UnpaddedStepCounts | src/search.cpp:156-169 | every top-k step, whatever it draws, keeps: not_done_count is the batch size less the EOS tokens in all generated rows, and the run is done exactly when there are at least as many of these as entries, or the rows are full |
| UnpaddedRuns.TurnsCountAll | src/search.cpp:239-249 | every EOS counts down, an entry's second one too, and done is set as the counter reaches 0 |
| GreedyGeneration.Generator.constructor | src/generators.cpp:111-125 | search and decoder state start in step, on the prompts |
| GreedyGeneration.Generator.ComputeLogits | src/generators.cpp:127-143 | refused exactly when logits are already waiting; otherwise one model run leaves caches, mask and sequences at the same length and hands its outputs to the search |
| GreedyGeneration.Generator.GenerateNextToken | src/generators.cpp:152-191 | refused without logits or, when sampling, for top_k < 0 or top_p outside [0, 1]; otherwise one step of the search, padding unless top_k > 1 and top_p is 0 or 1: for `!do_sample` or top_k 1 every token is the uncached model's best for its row, and otherwise it is drawn by the sampler of the options from the softmax of the uncached model's scores for its row |
| GreedyGeneration.Generator.ScoresAreUncached | src/models/decoder_only.cpp:28-44 | in every state with computed logits the scores the search sees for a row are the model's output for that row recomputed without any cache |
| GreedyGeneration.GreedyStep | src/search.cpp:128-141 | one arg-max step extends rows that greedy decoding of the uncached model would produce to rows it would produce |
| GreedyGeneration.StopIsRight | src/generators.cpp:200-203 | a run that is done has rows of one length within bounds, padded after EOS, shorter than maxLength only if all have EOS, and was not over one token earlier |
| BeamGeneration.BeamGenerator.constructor | src/generators.cpp:111-125 | search and decoder state of a beam search start in step, at the start of a run |
| BeamGeneration.BeamGenerator.ComputeLogits | src/generators.cpp:127-143 | refused exactly when logits are already waiting; otherwise the model runs on the tokens and parent rows of the last beam step and everything is at the same length |
| BeamGeneration.BeamGenerator.GenerateNextToken | src/generators.cpp:152-191 | refused without logits or unless `!do_sample` or top_k is 1; otherwise the run of the beam-search machine is one legal step longer, fed with the waiting logits, and stays in step with the caches |
| BeamGeneration.BeamGenerator.ScoresAreUncached | src/models/decoder_only.cpp:28-44 | in every reachable state with computed logits, the scores the search sees for a row of an unfinished batch entry are the model's output for that row recomputed without any cache |
| BeamGeneration.BeamGenerator.MoveIs | src/search.cpp:52-58 | the token and index buffers the search hands over are the last step's parents and tokens |
| BeamGeneration.BeamGenerator.Finalize | src/search.cpp:271-273 | after any run, output row r of batch entry b is the entry's i-th final hypothesis (b * num_return_sequences + i == r), on the entry's own prompt and followed by pad tokens up to max_length, and its score is that hypothesis' score when scores are asked for |
| CacheCoherence.BeamCoherence | src/models/kv_cache.cpp:195-247 | in every reachable beam-search state and for every row, finished batch entries included, the present columns are those of a history whose tokens are exactly the row's, the past columns those of all tokens but the last, and the input id is the last token |
| CacheCoherence.BeamIncrementalIsFromScratch | src/models/decoder_only.cpp:28-44 | in every reachable state the cached columns of an unfinished batch entry's row equal running the model once on the whole row under the prompt's mask followed by ones |
| CacheCoherence.StepMoves | src/sequences.cpp:45-60 | the parent indices and tokens a beam step emits move the token rows exactly as they move the cache rows |
| CacheCoherence.UnfinishedKin | src/beam_search_scorer.cpp:158-165 | every row of an unfinished batch entry descends only from rows with that entry's own prompt mask |
| Generation.Coherent | src/models/kv_cache.cpp:195-215 | for any sequence of moves, reordering or not, each row's columns are the fold of a history whose tokens are the row's |
| Generation.PastIsAllButLast | src/models/input_ids.cpp:110-125 | before every later run the past row covers all tokens but the last and the input row is that last token |
| Generation.IncrementalIsFromScratch | src/models/decoder_only.cpp:28-44 | incremental decoding equals recomputing, for every row all of whose ancestors share its prompt mask |
| Generation.Lockstep | src/generators.cpp:127-155 | after any number of steps the token rows, the masks and the presents are equally long and the pasts one token shorter |
| Generation.ScratchIsFold | src/models/decoder_only.cpp:28-37 | feeding a row in one run computes the same columns as feeding its tokens one at a time |
| Decoder.InputIds.constructor | src/models/input_ids.cpp:8-40 | the input ids start as every prompt once for each of its beams |
| Decoder.InputIds.Update | src/models/input_ids.cpp:49-125 | the input ids become one column holding the next tokens, whatever their shape was |
| Decoder.DecoderState.constructor | src/models/decoder_only.cpp:16-26 | all inputs of the first run are those of the expanded prompts |
| Decoder.DecoderState.Run | src/models/decoder_only.cpp:28-37 | the first run leaves the inputs as they are; every later run is one step of the row-level machine: input ids, positions and mask, reordered caches, then the model |
| Decoder.DecoderState.UpdateInputsOutputs | src/models/decoder_only.cpp:39-44 | all inputs advance by one token together and the rows of presents become the pasts, reordered by the beam indices when there are any; `TensorDecoder` ties the rows to the flat tensors |
| KvCaches.PickPastState | src/models/kv_cache.cpp:218-247 | block j of the past is block beam_indices[j] of the present, for every j |
| KvCaches.PickPastStateCombined | src/models/kv_cache.cpp:68-106 | the same for the key plane and the value plane at once: plane c of beam j comes from plane c of beam beam_indices[j] |
| KvCaches.GatherIsPermutation | src/models/kv_cache.cpp:68-106 | such a gather moves exactly one axis: past[c,j,h,t,d] == present[c,beam_indices[j],h,t,d] for all shapes, all indices in bounds |
| KvCaches.CellHasRow | src/models/kv_cache.cpp:68-106 | every cell of a tensor lies in the block of some beam of some plane, so the copies write the whole target |
| KvCaches.OnePlane | src/models/kv_cache.cpp:218-247 | the four-dimensional layout is the one-plane case of that statement |
| KvCaches.KvCache.Update | src/models/kv_cache.cpp:195-215 | every layer's past holds its previous output, reordered when indices are given, and fresh outputs for the new length are allocated |
| KvCaches.KvCache.constructor | src/models/kv_cache.cpp:116-165 | pasts start empty and presents have the prompt's length |
| KvCaches.KvCacheCombined.Update | src/models/kv_cache.cpp:47-65 | the same for the combined layout: both planes of every past are reordered by the same indices |
| KvCaches.KvCacheCombined.constructor | src/models/kv_cache.cpp:7-33 | pasts start empty and presents have the prompt's length in both planes |
| TensorDecoding.TensorDecoder.Run | src/models/decoder_only.cpp:28-44 | after every model run the flat present tensors, read as one column per token, are exactly the rows of the row-level decoder, with shape_[2] equal to the number of tokens under the mask; on a later run the past tensors hold the old presents' rows reordered by the beam indices and the outputs are the model's for the inputs and what is read from them; all this by a step of `DecoderState` |
| TensorDecoding.TensorDecoder.UpdateCache | src/models/kv_cache.cpp:195-215 | KV_Cache::Update on tensors that hold some rows leaves pasts that hold these rows reordered |
| TensorDecoding.TensorDecoder.WriteOutputs | src/models/decoder_only.cpp:28-37 | writing all columns into the presents and reading them back gives the same rows |
| TensorDecoding.TensorDecoder.constructor | src/models/kv_cache.cpp:116-165 | caches and decoder start at the same length |
| TensorDecoding.GatherMovesRows | src/models/kv_cache.cpp:218-247 | reordering the beam blocks of all tensors reorders the rows of columns |
| TensorDecoding.CombinedMovesRows | src/models/kv_cache.cpp:68-106 | gathering both planes of the combined tensors by the same indices reorders the same rows of columns of keys and values |
| TensorDecoding.UpdateCombined | src/models/kv_cache.cpp:47-65 | KV_Cache_Combined::Update on combined tensors that hold some rows leaves pasts that hold these rows reordered |
| TensorDecoding.BlockReads | src/models/kv_cache.cpp:218-247 | reading the [head][time][dim] layout at one time inverts writing it, for all shapes |
| PositionTensors.InitializeTensors | src/models/position_inputs.cpp:324-352 | each prompt's mask marks its non-pad tokens, each position is the number of marked tokens before it (0 under the mask), and the next position is their total |
| PositionTensors.InitializeRow | src/models/position_inputs.cpp:334-346 | the running counter gives a row its mask, its positions and the count of its tokens |
| PositionTensors.PositionIsCount | src/models/position_inputs.cpp:334-346 | the mask is 0 exactly at padding, and the position of any other token is the number of tokens before it that are not padding |
| PositionTensors.ExpandInputs | src/models/model.cpp:503-554 | row i of the result is the row of prompt i / num_beams; with one beam the tensor itself is handed on |
| PositionTensors.PositionInputs.constructor | src/models/position_inputs.cpp:12-67 | mask and positions of all beams start in agreement |
| PositionTensors.PositionInputs.Update | src/models/position_inputs.cpp:78-85 | every mask row keeps its bits and gains a 1, and every position id is the number of ones in its row less one |
| PositionTensors.PositionInputs.UpdatePositionIds | src/models/position_inputs.cpp:101-106 | the first update takes the prompt's token counts, later ones increment in place; either way the positions of the newest tokens |
| PositionTensors.PositionInputs.UpdateAttentionMask | src/models/position_inputs.cpp:363-371 | the mask laid out one column wider keeps every old bit in its row |
| PositionTensors.NewestIs | src/models/position_inputs.cpp:354-361 | taking over the counts at the first update and adding one at each later one give the same numbers |
| TokenSequences.Sequences.constructor | src/sequences.cpp:9-34 | every prompt is the content of each of its beams' rows |
| TokenSequences.Sequences.GetSequence | src/sequences.cpp:36-39 | the row's tokens up to the current length |
| TokenSequences.Sequences.AppendNextTokenToSequences | src/sequences.cpp:45-60 | each row becomes its parent's old row and one token, with the two buffers exchanged |
| TokenSequences.Sequences.AppendNextTokens | src/sequences.cpp:62-74 | each row gains its token in place |
| FlatRows.CopySpan | src/smartptrs.h:27-31 | the copy helper: the target changes on the copied cells only |
| FlatRows.AppendCell | src/sequences.cpp:62-74 | writing the cell behind a row's content extends that row and no other |
| BeamScoring.AtMostOneEosPerBeam | src/search.cpp:97-114 | among the 2*num_beams best (beam, token) pairs at most num_beams are EOS, because the pairs are distinct |
| BeamScoring.PicksAreGood | src/beam_search_scorer.cpp:132-169 | an unfinished batch entry always fills exactly num_beams slots, each from one of its own beams |
| BeamScoring.SurvivorsAreBest | src/beam_search_scorer.cpp:132-169 | the slots hold the best num_beams non-EOS extensions of all num_beams * vocab_size pairs, in non-increasing score order |
| BeamWindow.EndsLateIff | src/beam_search_scorer.cpp:172-186 | over every legal step of every run: an unfinished batch entry that its own candidates would end is always ended if and only if stopping is early, or it is entry 0, or EOS is outside the vocabulary, or no step is ever taken |
| BeamWindow.EndsEarlyIff | src/beam_search_scorer.cpp:172-186 | and one that its own candidates would keep going is never ended if and only if, besides, it is entry 1: that entry's window reaches into its own block |
| BeamWindow.DoneDecisionIsOwnIff | src/beam_search_scorer.cpp:172-186 | so the decision is the entry's own in every legal step exactly under the first condition |
| BeamWindow.FirstCanBeTaken | src/search.cpp:64-113 | the counterexamples' step is the first step of a search: legal picks from the initial state, for every shape of batch, beams and vocabulary |
| BeamWindow.EndsLate | src/beam_search_scorer.cpp:178-180 | in that step all beams of the entry end their sentence with the same score and every other entry scores above it: the entry should end and does not |
| BeamWindow.EndsEarly | src/beam_search_scorer.cpp:178-180 | with the other entries scoring below, an entry after the second one ends although its own best candidate would displace a stored hypothesis |
| BeamScoring.PositionsComplete | src/beam_search_scorer.cpp:138-169 | every candidate of the wanted kind is among the collected positions |
| BeamSearchCpu.PopTop | src/search.cpp:97-114 | popping k times from the queue of all positions yields k distinct positions, none outside scoring above one inside, best first |
| BeamSearchCpu.AddAllBeamScores | src/search.cpp:69-77 | every extension's score becomes its token's score plus its beam's |
| BeamSearchCpu.RankAll | src/search.cpp:97-114 | the flat candidate buffers hold, for each batch entry, the candidates its top picks stand for |
| BeamSearchCpu.BeamSearch.constructor | src/search.cpp:36-40 | the initial state of the beam-search machine |
| BeamSearchCpu.BeamSearch.SelectTop | src/search.cpp:64-126 | one legal step of the beam-search machine, the clone buffer still within its bound, done only at maxLength |
| BeamSearchCpu.RoomForStep | src/beam_search_scorer.cpp:89-91 | the clones of one more step fit behind what earlier steps may have used |
| Scorer.PerBeamIsSum | src/beam_search_scorer.cpp:89-91 | the closed form (max*(max+1) - (s-1)*s)/2 is the sum of all lengths from s to maxLength |
| Scorer.CapacityIsProduct | src/beam_search_scorer.cpp:89-91 | the buffer's size is batch_size * num_beams times that closed form |
| Scorer.BeamSearchScorer.constructor | src/beam_search_scorer.cpp:68-103 | empty lists, nothing used, a buffer of that size, and beam scores of 0 for the first beam of each entry and -1e9 for the others |
| Scorer.BeamSearchScorer.Clone | src/beam_search_scorer.cpp:142-150 | the clone lies behind the used part and no stored hypothesis changes |
| Scorer.StoredUntouched | src/beam_search_scorer.cpp:142-154 | writing behind the used part leaves every stored clone readable as it was |
| Scorer.BeamSearchScorer.Process | src/beam_search_scorer.cpp:105-188 | every batch entry's step at once: hypotheses stored, beams filled or padded, entries marked done, notDoneCount the number of unfinished entries, the buffer's use bounded by num_beams rows for each entry |
| Scorer.BeamSearchScorer.ScanCandidates | src/beam_search_scorer.cpp:132-169 | the candidate loop takes the surviving positions and stores the finished ones, stopping when the beams are full |
| Scorer.BeamSearchScorer.IsFinished | src/beam_search_scorer.cpp:172-183 | full, and early stopping or no improvement possible by the scores in the window |
| Scorer.BeamSearchScorer.CheckDone | src/beam_search_scorer.cpp:172-186 | done is set and the count reduced together |
| Scorer.BeamSearchScorer.Finalize | src/beam_search_scorer.cpp:190-228 | output row r holds the r-th returned hypothesis followed by padding, and its score |
| Scorer.NextIsAt | src/beam_search_scorer.cpp:115-187 | a batch entry's step depends on its own candidates, rows and hypotheses alone, and on the scores in the window |
| Scorer.SlotsUnread | src/beam_search_scorer.cpp:126-187 | nor on its old next-beam cells |
| Hypotheses.AddAllIsStableBest | src/beam_search_scorer.cpp:19-39 | any sequence of Add calls leaves what appending all, stable-sorting by descending score and keeping the first num_beams would |
| Hypotheses.BeamHypotheses.Add | src/beam_search_scorer.cpp:19-39 | the list with the hypothesis behind everything that scores at least as high, cut to num_beams |
| Hypotheses.BeamHypotheses.Rotate | src/beam_search_scorer.cpp:28-36 | the elements that score less move one place back, the others stay |
| Hypotheses.BeamHypotheses.CanImprove | src/beam_search_scorer.cpp:41-44 | comparing with the last element tells whether any stored hypothesis would be displaced |
| Hypotheses.BeamHypotheses.Output | src/beam_search_scorer.cpp:46-66 | the best topK hypotheses are written over the starts of as many rows, the rest of each row untouched |
| Hypotheses.AddToDescending | src/beam_search_scorer.cpp:19-39 | the list stays sorted and holds nothing that was not added |
| BeamInvariants.StepKeepsInv | src/beam_search_scorer.cpp:105-188 | every step keeps: rows and hypotheses of an entry on its own prompt, lists sorted, done entries full; done entries stay done |
| BeamInvariants.BatchIsolation | src/beam_search_scorer.cpp:118-187 | in every reachable state each row of an unfinished batch entry and every stored hypothesis starts with that entry's own prompt, and a done entry has num_beams hypotheses |
| BeamInvariants.FinalsAreOwn | src/beam_search_scorer.cpp:190-213 | each entry returns num_beams hypotheses on its own prompt, in non-increasing score order |
| BeamResults.FinalsAreBestOfRun | src/beam_search_scorer.cpp:105-213 | after any run a batch entry returns the best num_beams by normalised score, the earlier first among equals, of all its beams that ended with EOS while it was open and, if it still is, of its rows |
| BeamResults.EndedScore | src/beam_search_scorer.cpp:138-154 | in any run, a beam that ended is its prompt and the tokens along a path of recorded parents, without the EOS token, and its score is the path's initial score plus the model's scores of all its tokens, EOS included, normalised by the length without EOS |
| BeamResults.StepAddsEndings | src/beam_search_scorer.cpp:132-169 | a step adds to an open entry's hypotheses exactly the beams whose EOS extension is among its num_beams best candidates, in the order of the candidates |
| BeamInvariants.FinishedRowsUnread | src/beam_search_scorer.cpp:194-213 | what is returned does not depend on the rows of finished batch entries |
| BeamInvariants.PathScore | src/search.cpp:69-77 | in every reachable state an unfinished entry's beam score is its ancestor's initial score plus the model's scores of the tokens along its path, where the path consists of the recorded parents and their tokens, and its row is the prompt and those tokens |
| BeamInvariants.BeamScoresDescend | src/beam_search_scorer.cpp:155-161 | after a step the beam scores of an entry are non-increasing |
| BeamInvariants.RunInv | src/search.cpp:64-126 | the invariant holds in every reachable state |
| BeamRun.ParentsInRange | src/beam_search_scorer.cpp:126-165 | emitted parent indices are rows |
| BeamRun.NextCell | src/beam_search_scorer.cpp:126-165 | an unfinished entry's cells point at its own rows; a finished one's pad and point at row 0 |
| BeamInvariants.RowStarts | src/beam_search_scorer.cpp:126-135 | in every reachable state a row starts with its own entry's prompt, or with the first entry's once its entry has finished |
| BeamInvariants.GeneratedRowIsOwnIff | src/generators.cpp:205-214 | in every reachable state of a search on different prompts, the row that Generate returns for batch entry i, which is row i of the beams, continues that entry's prompt if and only if i is 0 |
| BeamInvariants.StoredAreShorter | src/beam_search_scorer.cpp:142-154 | in every reachable state a stored hypothesis is shorter than the current rows |
| BeamInvariants.CopyFitsIff | src/smartptrs.h:27-31 | the debug assertion that both sides of a copy are equally long holds for a returned hypothesis if and only if the search is full and the hypothesis is a live row rather than a stored one |
| BeamRun.SurvivorIs | src/search.cpp:69-113 | a surviving beam's score is its parent's plus the model's score of its token, which is not EOS |
| TopKTable.TopK.constructor | src/beam_search_topk.h:51-56 | all slots empty |
| TopKTable.TopK.Insert | src/beam_search_topk.h:28-49 | one replacement and one bubbling pass over the table |
| TopKTable.InsertIsBoundedInsert | src/beam_search_topk.h:28-49 | on the table of the sorted best items, that pass leaves the table of the sorted best items with the new one |
| TopKTable.FillIsBest | src/beam_search_topk.h:28-57 | a table filled by insertions is the best max_k of everything inserted: value descending, smaller key on ties, empty slots last |
| TopKTable.Reduce | src/beam_search_topk.h:59-65 | a fresh table holding the first with all slots of the second inserted in order |
| TopKTable.MergeIsBestIff | src/beam_search_topk.h:59-65 | the reduction of two summaries is the summary of the union if and only if the second is full or both together have enough finite entries to fill the result |
| TopKTable.MergeIsBestIfFinite | src/beam_search_topk.h:59-65 | the step in terms of the result: the second is full or the best of the union are all finite |
| TopKTable.MergeLosesMinusInfinity | src/beam_search_topk.h:59-65 | two tables with minus-infinity items whose reduction is not the summary of the union |
| TopKTable.ReductionIsBest | src/beam_search_topk.h:59-65 | any reduction tree over any partition of finite items yields the table of their best max_k |
| TopKTable.ReductionShapeIrrelevant | src/beam_search_topk.h:59-65 | so two reduction trees over the same items yield the same table |
| Ranking.BestIsUnique | src/beam_search_topk.h:28-57 | there is only one sorted best list of a collection |
| Greedy.RunInv | src/search.cpp:229-259 | in every reachable state of a sampler that pads: EOS is followed by padding only, not_done_count is the number of entries without EOS, done holds exactly when all have EOS or the rows are full, and the length is within bounds |
| Greedy.PaddingStepKeepsInv | src/search.cpp:229-259 | one step keeps that invariant |
| Greedy.UnpaddedStepKeepsInvIff | src/search.cpp:156-169 | a top-k step keeps it if and only if every entry that has EOS draws the pad token and that is not EOS |
| Greedy.UnpaddedStepSafeIff | src/search.cpp:156-169 | a top-k step keeps it for every draw if and only if no entry has seen EOS |
| Greedy.UnpaddedStepStopsEarly | src/search.cpp:156-169 | a batch of two where an entry draws EOS again and the run is declared done with the other unfinished |
| Greedy.TurnsDone | src/search.cpp:239-249 | while the count is right, done is set exactly when the last entry sees EOS |
| GreedySearchCpu.GreedySearch.constructor | src/search.cpp:17-34 | the initial state |
| GreedySearchCpu.GreedySearch.SelectTop | src/search.cpp:128-141 | one step of the machine in which every entry without EOS takes the first of its largest scores |
| GreedySearchCpu.GreedySearch.SampleTopK | src/search.cpp:156-169 | one step without padding; every token is the one at the drawn place of the order, which is among the k most likely under the softmax of its own row, and above temperature 0 fewer than k tokens of the row score higher |
| GreedySearchCpu.GreedySearch.SampleTopP | src/search.cpp:171-198 | one step in which every entry without EOS takes the token at which the cumulative probability of its own row's softmax, most likely first, reaches the drawn threshold; so it is in the nucleus: those ranked before it have less than probability p between them; the loop always finds one |
| GreedySearchCpu.GreedySearch.SampleTopKTopP | src/search.cpp:200-227 | the same within the k most likely tokens of the row's softmax, the k-th one when they fall short of the threshold |
| GreedySearchCpu.SoftMaxIsDistribution | src/search.cpp:143-154 | the scaled scores are positive and add up to 1, at any temperature but 0 |
| GreedySearchCpu.SoftMaxRatio | src/search.cpp:143-154 | the probabilities of two tokens are to each other as exp((score - m) / temperature) of the tokens, where m is a largest score of the row |
| GreedySearchCpu.SoftMaxOrder | src/search.cpp:143-154 | above temperature 0 one token is more likely than another exactly when its score is higher |
| GreedySearchCpu.WholeMass | src/search.cpp:180-194 | the probabilities add up to 1 along any order of the tokens |
| GreedySearchCpu.TopIsLargest | src/search.cpp:162-163 | one of the k most likely tokens has fewer than k scores above its own |
| GreedySearchCpu.WeightsAreOwnIff | src/search.cpp:164-166 | the weights top-k draws its place with are those of the tokens at these places if and only if the first k tokens of the vocabulary are the k most likely, in order |
| GreedySearchCpu.SortsExistIff | src/search.cpp:160-163 | an order of the tokens with the k most likely first, for all rows of n tokens, exists if and only if k <= n |
| GreedySearchCpu.BestFirstByScore | src/search.cpp:143-154 | which above temperature 0 can be read off the scores |
| GreedySearchCpu.FirstToReach | src/search.cpp:186-194 | the loop stops at the first token whose cumulative probability reaches the threshold |
| GreedySearchCpu.MaxElement | src/search.cpp:136-137 | the first of the largest scores |
| GreedySearchCpu.GreedySearch.SetNextToken | src/search.cpp:239-249 | flag, count and done change together |
| GreedySearchCpu.GreedySearch.PadIfAlreadyEOS | src/search.cpp:229-237 | pads exactly the entries that have seen EOS |
| UploadHeap.AlignRoundsUpIff | src/dml/dml_pooled_upload_heap.cpp:15-18 | on 64-bit words alignment rounds up to the next multiple of 512 if and only if the offset is at most 2^64 - 512, which all offsets in a chunk are |
| UploadHeap.FoundFits | src/dml/dml_pooled_upload_heap.cpp:20-80 | a returned offset is aligned, inside the chunk, and leaves the allocations a ring of at most two ascending runs |
| UploadHeap.FoundIsNext | src/dml/dml_pooled_upload_heap.cpp:20-80 | the offset is the first multiple of 512 behind the newest allocation, or 0 when no multiple of 512 behind it leaves room in the chunk |
| UploadHeap.FoundIffRoom | src/dml/dml_pooled_upload_heap.cpp:20-80 | in any chunk and for any size, a place is found if and only if some aligned place would leave the ring a ring and the overflow test does not give up on the space behind the newest allocation while the front is free |
| UploadHeap.CompleteIff | src/dml/dml_pooled_upload_heap.cpp:20-80 | that nothing found means no room holds for all sound chunks of a capacity, whatever their fences, if and only if the capacity is at most 2^63 bytes |
| UploadHeap.MiddleGivesUp | src/dml/dml_pooled_upload_heap.cpp:40-43 | in every larger chunk one byte at 2^63 hides the free front from a request for 2^63 bytes |
| UploadHeap.FinishedReclaimed | src/dml/dml_pooled_upload_heap.cpp:119-130 | when the device has finished with every allocation of the pool, reclaiming empties every chunk |
| UploadHeap.ReservedInEmpty | src/dml/dml_pooled_upload_heap.cpp:98-117 | with every chunk empty, whatever the capacities, room is found at offset 0 of the first chunk of at least the size, and a new chunk is made only when there is none |
| UploadHeap.RingApart | src/dml/dml_pooled_upload_heap.cpp:229-243 | allocations of a ring never overlap |
| UploadHeap.LiveApart | src/dml/dml_pooled_upload_heap.cpp:119-130 | after any sequence of operations and any progress of the device, two allocations of one resource that the device may still read are disjoint and inside the chunk |
| UploadHeap.PlaceIsFree | src/dml/dml_pooled_upload_heap.cpp:142-154 | the reserved place touches no allocation the device may still read, at the time of the copy |
| UploadHeap.DmlPooledUploadHeap.constructor | src/dml/dml_pooled_upload_heap.cpp:11-13 | an empty pool, in which the device has finished with every allocation |
| UploadHeap.DmlPooledUploadHeap.ReclaimAllocations | src/dml/dml_pooled_upload_heap.cpp:119-130 | each chunk loses a prefix of signaled allocations, and keeps its first one only if that was unsignaled when the call began; all invariants kept; when every allocation was finished, every chunk is empty |
| UploadHeap.DmlPooledUploadHeap.Reserve | src/dml/dml_pooled_upload_heap.cpp:98-117 | the first chunk with room, or a new one at the end, whose capacity is the largest of the total so far, 1 MiB and the size; chunks stay sorted and the total their sum |
| UploadHeap.DmlPooledUploadHeap.Push | src/dml/dml_pooled_upload_heap.cpp:173-174 | the allocation goes behind all others of its chunk, in fence order |
| UploadHeap.DmlPooledUploadHeap.BeginUploadToGpu | src/dml/dml_pooled_upload_heap.cpp:132-177 | the upload is recorded as the newest allocation of its chunk, and the copy has been executed when the call returns; that every allocation is finished is kept, so in any run of uploads and trims each upload lies at the start of the first chunk large enough and is the only allocation in the pool |
| UploadHeap.DmlPooledUploadHeap.Trim | src/dml/dml_pooled_upload_heap.cpp:179-195 | exactly the chunks without allocations after a reclaim go; all invariants kept and the total recomputed; when every allocation was finished, every chunk goes |
| UploadHeap.TrimKeepsTrack | src/dml/dml_pooled_upload_heap.cpp:179-195 | no chunk with an allocation the device may still read is dropped |
| DescriptorPools.DmlDescriptorHeap.LiveApart | src/dml/dml_descriptor_pool.cpp:19-51 | two ranges of a heap whose events are both unsignaled never overlap, and both lie within its capacity |
| DescriptorPools.DmlDescriptorHeap.TryAllocDescriptors | src/dml/dml_descriptor_pool.cpp:19-51 | succeeds only with matching flags and room, right behind the ranges handed out before; starts over only when the newest event is signaled, and then succeeds exactly when the request fits the whole heap |
| DescriptorPools.DescriptorPool.AllocDescriptors | src/dml/dml_descriptor_pool.cpp:58-76 | always succeeds: in the first heap that can serve the request, else in a new one large enough; other heaps' ranges unchanged |
| DescriptorPools.DescriptorPool.Trim | src/dml/dml_descriptor_pool.cpp:78-86 | only heaps with no range still in use go, every kept heap waits for the device, and their order stays |
| DescriptorPools.DescriptorPool.constructor | src/dml/dml_descriptor_pool.cpp:53-56 | one heap of the initial capacity |
| OperatorDispatch.DmlOperatorContext.ReusedAfterExecution | src/dml/dml_command_recorder.cpp:223-276 | over any sequence of operators, submissions and device progress: when a later dispatch's descriptors overlap an earlier one's in the same heap, everything up to the earlier dispatch has been executed |
| OperatorDispatch.DmlOperatorContext.ExecuteOperator | src/dml/dml_command_recorder.cpp:223-276 | the dispatch finds the heap of its own range bound, and the range waits for an event that covers the dispatch |
| OperatorDispatch.DmlOperatorContext.TakeDescriptors | src/dml/dml_command_recorder.cpp:231-234 | the next submission's value is never earlier than the pool's last event, so the pool's demand on its callers is met |
| OperatorDispatch.DmlOperatorContext.constructor | src/dml/dml_command_recorder.cpp:17-26 | context and pool start on the same device |
| Device.Gpu.WaitForSignal | src/dml/dml_gpu_event.h:21-33 | waiting for a value that will be signaled ends with the fence at that value or beyond |
| CommandQueue.DmlCommandQueue.ExecuteCommandLists | src/dml/dml_command_queue.cpp:19-24 | the lists become one batch and the fence will reach the next value after it |
| CommandQueue.DmlCommandQueue.QueueReference | src/dml/dml_command_queue.cpp:41-59 | references stay in fence order |
| CommandQueue.DmlCommandQueue.ReleaseCompletedReferences | src/dml/dml_command_queue.cpp:71-76 | exactly the references whose value has been reached are dropped |
| CommandQueue.DmlCommandQueue.Close | src/dml/dml_command_queue.cpp:61-69 | everything submitted is complete and no reference is left |
| AllocatorRing.DmlCommandAllocatorRing.GetNextAllocator | src/dml/dml_command_allocator_ring.h:27-42 | the assertion inside always holds; the ring moves on exactly when the other allocator's work is complete, and an allocator is reset only when nothing recorded with it is open or unfinished |
| AllocatorRing.DmlCommandAllocatorRing.UpdateCurrentAllocatorCompletionEvent | src/dml/dml_command_allocator_ring.h:47-49 | the current allocator's event moves later and stays the later one |
| CommandRecorder.DmlCommandRecorder.Open | src/dml/dml_command_recorder.cpp:94-111 | the assertion inside always holds; the open list's allocator has the next submission's fence value |
| CommandRecorder.DmlCommandRecorder.CloseAndExecute | src/dml/dml_command_recorder.cpp:117-144 | one batch: what was recorded, if anything, then the given list, if any; no batch when there is neither; the recorder is empty again |
| CommandRecorder.DmlCommandRecorder.ExecuteCommandList | src/dml/dml_command_recorder.cpp:38-74 | one batch in either path, the given list after anything recorded; the returned value is that batch's, and the descriptor heap survives |
| CommandRecorder.DmlCommandRecorder.SetDescriptorHeap | src/dml/dml_command_recorder.cpp:146-153 | the heap is bound in the current list even when the call is skipped |
| CommandRecorder.DmlCommandRecorder.Dispatch | src/dml/dml_command_recorder.cpp:204-221 | the dispatch finds its own descriptor heap bound |
| CommandRecorder.DmlCommandRecorder.GetCommandList | src/dml/dml_command_recorder.cpp:76-80 | from then on the list counts as recorded and is shared with its holder |
| CommandRecorder.DmlCommandRecorder.HolderRecords | src/dml/dml_command_recorder.cpp:76-80 | whatever the holder records later, until the list is closed; the remembered descriptor heap stays the bound one if and only if none is remembered or the holder leaves that one bound |
| ExecutionContext.DmlExecutionContext.ProgramOrder | src/dml/dml_execution_context.cpp:99-130 | what the device has executed is a prefix of the operations in program order |
| ExecutionContext.DmlExecutionContext.EventSound | src/dml/dml_execution_context.cpp:150-163 | when an event is signaled, every operation given to the context before it was handed out has been executed |
| ExecutionContext.DmlExecutionContext.SetCommandRecorder | src/dml/dml_execution_context.cpp:99-112 | afterwards a list is open; nothing recorded is lost or submitted |
| ExecutionContext.DmlExecutionContext.Flush | src/dml/dml_execution_context.cpp:114-130 | everything recorded is submitted as one batch and the next list is open; without recorded work nothing happens; of the queued references a prefix goes, all of it with its fence reached |
| ExecutionContext.DmlExecutionContext.GetCurrentCompletionEvent | src/dml/dml_execution_context.cpp:150-163 | the last submission's value, or the next one's when work is unsubmitted; it covers everything given so far |
| ExecutionContext.DmlExecutionContext.QueueReference | src/dml/dml_execution_context.cpp:132-138 | the object is queued behind all others until the next submission when a list is open and else until the last one, which covers everything given so far |
| ExecutionContext.DmlExecutionContext.ReferenceKept | src/dml/dml_execution_context.cpp:132-138 | over any run of the context and any progress of the device: an object given to be kept is still queued, or every operation given before it has been executed |
| ExecutionContext.DmlExecutionContext.ExecuteCommandList | src/dml/dml_execution_context.cpp:65-73 | the list follows everything given before it, and the returned value covers it |
| ExecutionContext.DmlExecutionContext.CopyBufferRegion | src/dml/dml_execution_context.cpp:18-53 | the copy between its barriers, in program order |
| ExecutionContext.DmlExecutionContext.ResourceBarrier | src/dml/dml_execution_context.cpp:75-87 | the barrier in program order |
| ExecutionContext.DmlExecutionContext.InitializeOperator | src/dml/dml_execution_context.cpp:55-63 | the dispatch and its barrier in program order, its heap bound |
| ExecutionContext.DmlExecutionContext.GetCommandListForRecordingAndInvalidateState | src/dml/dml_execution_context.cpp:89-97 | an open list is handed out with nothing lost or submitted, and no descriptor heap is remembered |
| ExecutionContext.DmlExecutionContext.HolderRecords | src/dml/dml_execution_context.cpp:89-97 | what the caller records in it, then or later, takes its place in program order |
| ExecutionContext.DmlExecutionContext.Close | src/dml/dml_execution_context.cpp:140-148 | everything submitted has been executed and all references are gone |
| ExecutionContext.SubmitKeeps | src/dml/dml_execution_context.cpp:114-130 | a submission of everything recorded keeps every event handed out |
| UpdateMaskKernel.GetNextDispatchSize | src/dml/dml_helpers.cpp:294-320 | each dispatch leaves strictly fewer elements: all but a full dispatch's worth, or none |
| UpdateMaskKernel.PlanCoversOnce | src/dml/dml_update_mask_kernel.cpp:101-124 | every element index below the count is worked on by exactly one thread of one dispatch |
| UpdateMaskKernel.PlanNeverWraps | src/dml/dml_update_mask_kernel.cpp:101-124 | no thread's element number wraps around, for any 32-bit element count |
| UpdateMaskKernel.Execute | src/dml/dml_update_mask_kernel.cpp:98-140 | the dispatches fill the next mask with the kernel's value for every element, and the copy makes it the current one |
| UpdateMaskKernel.FirstUpdateIsPrefix | src/dml/generated_dml_shaders/update_mask_int32.h:78-87 | the first update leaves every row ones on [0, length) and zeros after, whatever the buffer held |
| UpdateMaskKernel.LaterUpdateExtends | src/dml/generated_dml_shaders/update_mask_int32.h:90-109 | a later update extends every row by one, judging by the first row alone |
| UpdateMaskKernel.DeviceMask.Update | src/models/position_inputs.cpp:216-264 | with static buffers, after each update every row is ones up to the current length and zeros after, through the first, second and cached kernels |
| UpdateMaskKernel.ReallocatedMask.Update | src/models/position_inputs.cpp:221-268 | without static buffers every row is ones up to the current length exactly at the first update, at the second if the new buffer's first row has a one at every position after the first or right before it, and later if the new buffer holds nothing but ones |
| UpdateMaskKernel.DeviceRowIsCpuRowIff | src/models/position_inputs.cpp:363-371 | the device's row equals the row kept on the CPU if and only if the prompt has no padding |
| JsonRoundTrip.RoundTripIff | src/json.cpp:138-179 | parsing a printed tree, with any of the four kinds of whitespace anywhere and any choice of two-character escapes, succeeds, reads everything and replays the depth-first callbacks if and only if the document does not end with a bare literal and the elements take every callback |
| JsonAccepted.AcceptedIff | src/json.cpp:138-201 | the parser takes a text, up to a rest and with given callbacks, if and only if a tree it can read prints to that text, walks to these callbacks and leaves that rest, and the elements take them: so exactly which separators, quotes, escapes, numbers and words it wants, and what it skips |
| JsonAccepted.ReadingsAgree | src/json.cpp:138-201 | no text has two readings with different callbacks or different rests |
| JsonRoundTrip.LegalIsRead | src/json.cpp:138-201 | every legal JSON tree is one the parser can read, in front of anything that may follow it in a document |
| JsonRoundTrip.LastLiteralIsLost | src/json.cpp:73-82 | a literal at the very end is dropped without callback or error |
| JsonReading.ValueReads | src/json.cpp:138-179 | any tree the parser can read, printed inside any document, reads back as the walk of the tree, leaving what follows it |
| JsonRoundTrip.NumberReads | src/json.cpp:203-220 | a printed decimal number is read whole, when no number character follows |
| JsonReading.TextReads | src/json.cpp:222-270 | a string reads back as the characters its pieces stand for, whether a quote or a NUL ends it |
| JsonGrammar.Value | src/json.cpp:138-179 | parsing ends on every input: every successful value reads at least one character |
| JsonParser.Parser.ParseValue | src/json.cpp:138-179 | the cursor, the callbacks and the outcome are the grammar's, errors included |
| JsonParser.Parser.ParseBare | src/json.cpp:140-173 | the same for the dispatch on the first character |
| JsonParser.Parser.ParseObject | src/json.cpp:102-136 | the same for objects |
| JsonParser.Parser.ParseMembers | src/json.cpp:109-135 | the same for the member loop |
| JsonParser.Parser.ParseArray | src/json.cpp:181-201 | the same for arrays |
| JsonParser.Parser.ParseItems | src/json.cpp:188-200 | the same for the item loop |
| JsonParser.Parser.ParseStringText | src/json.cpp:222-270 | the same for strings: NUL ends one, \u is always an error |
| JsonParser.Parser.ParseNumber | src/json.cpp:203-220 | what is consumed is the longest prefix of the text that is a number by the grammar of strtod in the C locale, infinities and NaNs included; an error exactly when no prefix is one |
| JsonGrammar.LongestIs | src/json.cpp:203-207 | one scan from the left finds that longest prefix, for every text |
| JsonGrammar.ValueStops | src/json.cpp:138-179 | a callback that an element rejects is the last one made, and the parse fails there |
| JsonParser.Parser.Call | src/json.cpp:138-179 | a callback is made, and an element that rejects it ends the parse |
| JsonParser.Parser.ParseWhitespace | src/json.cpp:92-100 | what is skipped consists of spaces, tabs, carriage returns and line feeds, and what follows starts with none of them |
| JsonParser.Parser.SkipWord | src/json.cpp:73-82 | the word is skipped only if a character follows it |
| JsonParser.Parser.SkipChar | src/json.cpp:64-71 | skips the character if it is next |
| JsonParser.Parser.GetChar | src/json.cpp:84-90 | the next character, an error at the end |
| JsonParser.Parse | src/json.cpp:44-62 | the callbacks of the document's value, and the line and column where an error stopped it |

## Left out

- GreedyGeneration.Generate: the loop is modelled for the greedy search, whose rows it returns; for a beam search the steps and `Finalize` are modelled (`BeamGenerator`), and what the rows it would return are is `BeamInvariants.GeneratedRowIsOwnIff`.
- Scorer.BeamSearchScorer.Process: the result of the misplaced window is modelled as the code computes it, so no claim is made that an entry ends when it should, except by the exact conditions above.
- Hypotheses.BeamHypotheses.Output: models a release build, which copies as many tokens as the hypothesis has.
- TensorDecoding.TensorDecoder.Run: the session is the model's columns for the inputs and the rows read from the past tensors, written back to the presents; no decoder is built on the combined layout, whose update moves the same rows (`TensorDecoding.UpdateCombined`).
- GreedySearchCpu.GreedySearch.SampleTopP: the probabilities do not overwrite the scores, which nothing reads before the next model run replaces them; temperature 0 is excluded: it divides zero by zero, and every probability is then not a number.
- GreedySearchCpu.GreedySearch.SampleTopK: temperature 0 is excluded for the same reason, and so is a `top_k` above the vocabulary size, for which there is no such sort (`GreedySearchCpu.SortsExistIff`).
- GreedySearchCpu.GreedySearch.SampleTopKTopP: the same two cases are excluded.
- GreedyGeneration.Generator.GenerateNextToken: the same two cases are excluded when the options select a sampler.
- UploadHeap.DmlPooledUploadHeap.Reserve: a device never holds more than 2^64 - 512 bytes of upload heaps, so sums of capacities do not wrap; a device that refuses a heap is an input.
- OperatorDispatch.DmlOperatorContext.ExecuteOperator: binding tables and temporary buffers are not modelled, and nothing trims the recorder's pool, as nothing does in the source.
- JsonParser.Parser.ParseNumber: the number is kept as its characters; conversion to double and the error for values out of its range are not modelled, nor is the variant with strtod.
- The texts of error messages.
- Arithmetic on 32-bit indices and sizes of host buffers does not wrap in the model, and floating point does not round.
- Minimum length and repetition penalty only change the logits, which are arbitrary in the model.
- The copy of the prompt lengths into `sequence_lengths`, models without a mask or without position ids, and the case of a one-token prompt whose 32-bit input tensor shares memory with the parameters.
- CUDA search, scorer and sequences, shared past/present buffers, captured graphs, whisper and multimodal models, tokenizers, language bindings: foreign calls, or the kernels are not in the repository.
- `DmlCommandQueue::Wait` and the readback heap, which no modelled code calls.
