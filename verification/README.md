# Verified model of the inference, serving and evaluation cores

A Dafny model of the parts of the repository that have indices, caches, queues and protocols to get right, and
proofs about them. Neural arithmetic is abstract: projections, norms, activations and attention over a given list
of (key, value) pairs are arbitrary total functions on vectors, and a masked key is one that is left out of the
list. What remains, and is proved, is which position, row, key, cache entry, text or request goes where.

| files | system |
|---|---|
| `NeedleSpec`, `NeedleRows`, `NeedleDecode`, `NeedleModel`, `Generate` | the needle transformer: rope tables that grow, kv caches that append or freeze, batched greedy decoding |
| `Tensors`, `Banded`, `GemmaText` | the text encoder: dense and block-banded sliding attention, length buckets, two batches in flight |
| `EmbedServer` | the embedding server's worker and its queue of futures |
| `Sorting`, `SetSizes`, `Packing`, `CausalEncoder` | the two budgeted packers and the last-token encoder |
| `LruCache`, `HotReload`, `HotRuns` | the vector cache, projection heads that reload when their file changes, and whole runs of the engine |
| `FormReader`, `FormSpans`, `FormCalls`, `FormRoundTrip`, `Decimal` | the Clojure form reader and call collector |
| `LineReader` | the incremental event-stream line reader (section 9.2.5 of the WHATWG HTML Living Standard) |
| `GraphReconcile` | the graph view: model validation and in-place reconciliation |
| `StratifiedDraw` | the frozen draw, exclusions and tiers |
| `CheckpointTree` | parameter trees: flatten, split scanned blocks, rebuild |
| `ScratchDisk`, `ScratchLease`, `SampleOverlap` | deleting a scratch root, the scratch-cluster lease, and the overlap measurement |

Code that updates state in place is a class or a method with loops, proved against a specification function; the
lemmas are about that function. Where a specification function is what the code mirrors, it is also proved equal to a
second form that is written out over positions and fields (`NeedleRows`, `GemmaText.EmbeddingAt`,
`CausalEncoder.VectorAt`, `LruCache.Retained`). `dafny verify dfyconfig.toml` checks everything.

Where the code does not do what its comments or names suggest, the model follows the code:

- An encoder limit below 2 is exceeded, because Python's slices take negative bounds (`Generate.FitsIff`).
- `max_batch` below 1 makes the batch sweep stand still (`GemmaText.SweepAdvances`).
- Asking the vector cache for no texts raises, since nothing can be stacked (`LruCache.VectorCache.Get`).
- A head file replaced between naming the generation and projecting the missing texts can give a reply of two
  weights (`HotReload.MixedReply`, and exactly when: `HotReload.OneWeightExactly`); the late vectors are stored under
  the old generation, which is never looked up again.
- The keyword `:true` is read as the name `True`, likewise `:false` and `:nil` (`FormRoundTrip.KeywordNames`).
- Reconciling never updates the direction of a kept edge, nor its label when the model has none
  (`GraphReconcile.FreshExactly`).
- A checkpoint is rebuilt with its scan blocks as lists, and nothing else changed, exactly if it is tidy: every block
  is all its parent holds and the names of no other dict are all numbers (`CheckpointTree.ListifyExactly`). A block with
  a sibling leaves numbers for keys (`CheckpointTree.ListExactly`), a dict of numbers becomes a list or is not rebuilt at
  all (`CheckpointTree.NumberedDict`). Beside a block, a second block or a number makes keys collide, and one array
  silently replaces another (`CheckpointTree.KeysCollide`).
- A weights file without a usable logit scale replaces the heads before its load fails, under the old generation and
  mtime. If the old file then comes back with its mtime it is not reloaded, and vectors of the failed file are returned
  and cached under the old namespace (`HotRuns.LateFailure`, and exactly when: `HotRuns.OwnRunsExactly`,
  `HotRuns.StaleExactly`).
- A query without a tool list is not dropped: its row is all padding and is decoded as such (`Generate.AllRowsReal`).
- If deleting the root fails after a failed preparation, the caller hears of the deletion only
  (`ScratchLease.StartCluster`).
- Two different rows whose ids print alike make the plain draw depend on the input order
  (`StratifiedDraw.PlainDrawOrder`), and the stratified draw if they share a stratum
  (`StratifiedDraw.StratifiedDrawOrder`).
- After a restart whose start command failed, release deletes the root without another stop, although that start may
  have left a process (`ScratchLease.FailedStartIsDeleted`, and exactly when: `ScratchLease.DeletedUnstopped`).
- When the config file of a new cluster cannot be written no start is attempted, yet the root is kept
  (`ScratchLease.RootGivenUp`).
- If the store cannot be measured at a sample's end, the sample stays active in the host's eyes
  (`SampleOverlap.StaleReport`), and no later report is wholly true (`SampleOverlap.ReportsTrue`).

## Model

| member | source | states |
|---|---|---|
| NeedleDecode.StepRefinesFull | src-needle/src/seon_needle/model.py:115-164 | One decode step on caches that hold exactly the roped keys and values of a prefix returns the last row of the causal pass over the extended prefix, and leaves exactly that prefix's caches: self caches appended, cross caches unchanged |
| NeedleDecode.StepLayer | src-needle/src/seon_needle/model.py:236-254 | One layer of a step: self attention over the extended cache and frozen cross attention give the causal pass's state at the new position |
| NeedleDecode.FullPrefix | src-needle/src/seon_needle/model.py:106-109 | In the causal pass the states of a prefix do not depend on what follows it |
| NeedleDecode.EncPadded | src-needle/src/seon_needle/model.py:216-228 | Encoder states of the real positions do not change when pad tokens are appended, given one real token |
| NeedleDecode.FullPadded | src-needle/src/seon_needle/model.py:230-257 | No decoder state depends on how far the encoder input is padded |
| NeedleDecode.AttendSame | src-needle/src/seon_needle/model.py:150-164 | A query with an admitted key depends only on its admitted keys, in position order |
| NeedleModel.RopeTables.Rope | src-needle/src/seon_needle/model.py:198-210 | Returns a table of at least the requested length, a power of two, whose rows are the position's rotations; a longer table replaces a shorter one and begins with it |
| NeedleModel.TableLengthBounds | src-needle/src/seon_needle/model.py:203 | The table length is a power of two, holds the request and is 512 or less than twice the request |
| NeedleModel.SlicedRows | src-needle/src/seon_needle/model.py:83-92 | A slice at an offset that lies inside the table holds the rotations of positions offset, offset+1, ... |
| NeedleModel.Attention | src-needle/src/seon_needle/model.py:115-164 | On a batch, every row's output is row-level attention over that row, and the kv dict afterwards holds the row's appended (or frozen) entries |
| NeedleModel.EncodeBatch | src-needle/src/seon_needle/model.py:216-228 | Every row of the batched encoder is the row-level encoder of that row, and the pass written out position by position (NeedleRows.EncodePoints) |
| NeedleModel.DecoderLayers | src-needle/src/seon_needle/model.py:230-257 | The layer loop, on dicts updated in place, leaves every row's states and every row's caches as the row-level decoder has them |
| NeedleModel.DecodeBatch | src-needle/src/seon_needle/model.py:259-265 | Every row of a batched decode call, with or without caches, is the row-level decode of that row, and the pass written out position by position (NeedleRows.DecodePoints); so are the caches it leaves |
| NeedleRows.EncodeIs | src-needle/src/seon_needle/model.py:216-228 | The encoder written out: at every position the heads attend, with queries and keys turned by their position over the scale, the keys and values of their group at the positions that are not padding, then output projection, gated residual and final norm |
| NeedleRows.DecodeIs | src-needle/src/seon_needle/model.py:230-265 | The decoder written out: self attention over the cached entries and the turned keys of the positions seen, gated residual, cross attention over the encoder's states or the frozen entries without any turning, gated residual, final norm and logits |
| NeedleRows.LayerCacheIs | src-needle/src/seon_needle/model.py:132-148 | A layer leaves in its caches exactly what its two attentions attended: old entries and new ones, and the encoder's entries |
| NeedleRows.SeenExactly | src-needle/src/seon_needle/model.py:100-109 | A query sees every position, those up to its own, or those that are not padding, in order |
| NeedleRows.GroupOf | src-needle/src/seon_needle/model.py:150-153 | Consecutive heads share a key-value head: head h uses the one numbered h / (heads / kvHeads) |
| Generate.EncoderInputShape | src-needle/src/seon_needle/generate.py:28-36 | For a limit of at least 2 the input fits, is a query prefix, <tools> and a tools prefix; the query is cut only to the limit less 2, and nothing of the tools is cut there was room for |
| Generate.FitsIff | src-needle/src/seon_needle/generate.py:32-36 | Every input fits the limit if and only if the limit is at least 2 (negative slice bounds overflow it otherwise) |
| Generate.KeepsTools | src-needle/src/seon_needle/generate.py:36 | Whatever the limit, <tools> survives, so the padding mask always admits a key |
| Generate.NextTokenIs | src-needle/src/seon_needle/generate.py:75-79 | The next token is the argmax of the last position of a causal pass, written out position by position, over <eos> and what was generated, whose cross attention reads the encoder states of the tokens that are not padding |
| Generate.GreedyMeaning | src-needle/src/seon_needle/generate.py:75-91 | The reference decode takes the most likely token each time, never emits EOS, keeps to the step limit and stops short only when EOS is next |
| Generate.StripToolCall | src-needle/src/seon_needle/generate.py:39-42 | A leading tool-call marker leaves, and nothing else does |
| Generate.RowStep | src-needle/src/seon_needle/generate.py:81-91 | What one row appends and is fed next keeps it on its own greedy path, also after it has finished and is fed padding |
| Generate.BatchStep | src-needle/src/seon_needle/generate.py:76-79 | One decode call gives every row the token that follows in its own whole-sequence decode and moves every row's caches on by one token |
| Generate.Advance | src-needle/src/seon_needle/generate.py:81-88 | Finished flags stick, only unfinished rows append their token, finished rows are fed padding |
| Generate.DecodeLoop | src-needle/src/seon_needle/generate.py:69-91 | Every row ends with the greedy decode of its own unpadded input, whatever the other rows are and however long they run |
| Generate.GenerateBatch | src-needle/src/seon_needle/generate.py:45-105 | Row i of the result is the greedy decode of input i alone, of at most max_gen_len-1 tokens, with its text; a query without a tool list gets the greedy decode of the padding its row is left with; a batch with nothing to encode fails |
| Generate.AllRowsReal | src-needle/src/seon_needle/generate.py:52-58 | No row's padding mask is empty if and only if there are at least as many tool lists as queries |
| Generate.GenerateOne | src-needle/src/seon_needle/generate.py:108-114 | A single text gives the same as any batch that contains it |
| Banded.HeadBlocksAt | script/embed/gemma_text.py:72-75 | After pad, reshape, stack and merge, block b of a head holds padded positions b*C to b*C+3C |
| Banded.BlocksAt | script/embed/gemma_text.py:72-75 | The same through the transposition to block rows |
| Banded.UnblockAt | script/embed/gemma_text.py:78 | Putting block outputs back takes row r, head h, position p from the right block query |
| Banded.BandSelects | script/embed/gemma_text.py:134-139 | The keys a block query selects through the padded mask and |i-j+C| <= W are the real keys within W of its position, in order |
| Banded.BandedIsDense | script/embed/gemma_text.py:69-78 | For a query with an admitted key the banded path gives what dense attention over |p-q| <= W gives, for every L that is a multiple of W |
| GemmaText.PadSelect | script/embed/gemma_text.py:131-142 | Masked padding keys are never selected, and a window that covers the whole row may be dropped |
| GemmaText.AttendIsAlone | script/embed/gemma_text.py:56-66 | Whichever of the three paths is taken (short, dense, banded), a real query of a padded batch gets what its text alone gets |
| GemmaText.AloneHeadIs | script/embed/gemma_text.py:56-66 | The attention of a text alone written out: the roped query of a head attends the roped keys and the values of its group, at the positions within the window, in order |
| GemmaText.EmbeddingIs | script/embed/gemma_text.py:127-149 | The embedding of a text alone written out from the layer's fields, and cut exactly when the requested dimension is positive and smaller |
| GemmaText.TextModel | script/embed/gemma_text.py:127-149 | Every row of a padded batch gets the embedding of its text alone, written out position by position, for every length and path |
| GemmaText.RoundLenBounds | script/embed/gemma_text.py:164-168 | A padded length is the next multiple of the step of its class (16, 64 or 512), at least 16, and above 1536 a multiple of 512 |
| GemmaText.RoundLenMonotone | script/embed/gemma_text.py:164-168 | A longer text never has a shorter padded length |
| GemmaText.SweepAdvances | script/embed/gemma_text.py:205-210 | The sweep moves on exactly when max_batch is at least 1 |
| GemmaText.BatchEnd | script/embed/gemma_text.py:207-209 | The inner loop stops exactly where the next text has another padded length or would break a limit |
| GemmaText.Batches | script/embed/gemma_text.py:202-210 | The batches list the sorted indices once each; every batch shares one padded length its texts fit, keeps max_batch, keeps the token budget if it has two texts, and ends because it had to |
| GemmaText.Forward | script/embed/gemma_text.py:212-215 | Zero-padded ids and masks give each text its own embedding |
| GemmaText.Scatter | script/embed/gemma_text.py:225 | Writing rows back changes the batch's places and no other |
| GemmaText.EmbedIds | script/embed/gemma_text.py:217-228 | With one batch always in flight, out[i] is the embedding of text i alone, written out position by position and cut to a smaller requested dimension, for every i |
| EmbedServer.StepKeeps | script/embed/server.py:30-45 | Every worker step and every arrival keeps: rounds are consecutive FIFO pieces of the arrivals, futures resolved are exactly those due, each with its own texts' vectors at its own dim or the failure of its dim in its round |
| EmbedServer.RunGood | script/embed/server.py:30-45 | The same over every interleaving, and a resolved future never changes |
| EmbedServer.AllAnswered | script/embed/server.py:30-45 | When the worker is idle with an empty queue every request ever made is answered: failed exactly if the embed of its dim in its round raised, and otherwise with row t the embedding of its text t at its dim, written out |
| EmbedServer.ArrivalsAre | script/embed/server.py:77 | The arrivals are the requests in the order they were made, each with the number of its tokens |
| EmbedServer.FailuresAre | script/embed/server.py:41-44 | The recorded failures are the embeds that raised, by round and dim, and as many as the errors counted |
| EmbedServer.AnswerKeeps | script/embed/server.py:36-44 | Answering one dim resolves that dim's futures of this round and no other; a failed embed reaches nobody else |
| EmbedServer.Worker.Put | script/embed/server.py:77 | A request joins the back of the queue and gets a fresh future |
| EmbedServer.Worker.GetMore | script/embed/server.py:32-35 | A queued request joins the round while the round is below the token limit |
| EmbedServer.Worker.GetFirst | script/embed/server.py:31 | An idle worker starts a round with the oldest request |
| EmbedServer.Worker.StopDraining | script/embed/server.py:32-36 | A round closes when it is full or the queue is empty, with all its dims to answer |
| EmbedServer.Worker.Answer | script/embed/server.py:36-44 | The merged embed of a dim and its slices leave the state the machine's step describes |
| EmbedServer.Worker.EndRound | script/embed/server.py:45 | A round ends when every dim has been answered, and its jobs enter the history |
| EmbedServer.SetResults | script/embed/server.py:40 | Slicing the merged vectors by an advancing offset gives each job its own texts' vectors |
| EmbedServer.SliceOfJob | script/embed/server.py:39-40 | The offset of a job is where the texts of the jobs before it end |
| Packing.PackBatches | src-needle/src/seon_needle/extend.py:74-89 | Every index once; a batch of two or more keeps size * longest <= budget; no packing under that rule has fewer batches |
| Packing.DescOptimal | src-needle/src/seon_needle/extend.py:80-88 | Any packing of a set of texts has at least as many batches as the longest-first sweep needs |
| Packing.AscOptimal | src-clm/src/seon_clm/encoder.py:70-77 | Any packing of a set of texts has at least as many batches as the shortest-first sweep needs |
| CausalEncoder.BucketBounds | src-clm/src/seon_clm/encoder.py:31-32 | The bucket holds the text, wastes less than 64 and is a multiple of 64 |
| CausalEncoder.StatesCut | src-clm/src/seon_clm/encoder.py:10-12 | Through every causal layer the states of a text do not depend on what is appended to it |
| CausalEncoder.LastStateIs | src-clm/src/seon_clm/encoder.py:54-63 | A text's state written out: in every layer a position attends the keys and values up to its own, and the last position is normed and read |
| CausalEncoder.ForwardRows | src-clm/src/seon_clm/encoder.py:54-63 | Each right-padded row is read at its own last token, and that state is the one the text has when it is encoded alone |
| CausalEncoder.Embed | src-clm/src/seon_clm/encoder.py:65-78 | Every text gets its own normalised vector, written out position by position, in its place, the token total is right, and the batches are as few as any packing of the bucketed lengths allows |
| LruCache.VectorCache.Get | src-clm/src/seon_clm/engine.py:40-53 | Counters move by the request and its distinct misses; each text gets its row, cached or computed, in order; afterwards a key has a row exactly if fewer than `capacity` distinct keys were requested since its own last request, there are as many rows as the capacity and the distinct keys allow, and the order is that of the last requests; asking for nothing and a failing computation raise and leave the rows alone |
| LruCache.RetainsExactly | src-clm/src/seon_clm/engine.py:49-52 | The last `capacity` of the recency list are just these keys, told from the history of requests |
| LruCache.MissingPrefix | src-clm/src/seon_clm/engine.py:42 | Missing texts are computed in the order in which they are first asked for |
| LruCache.BatchRecency | src-clm/src/seon_clm/engine.py:49-52 | A batch, with duplicates or larger than the capacity, leaves the last n of the longer history's recency list |
| LruCache.TouchAllShape | src-clm/src/seon_clm/engine.py:49-50 | Moving the requested keys to the end lists them by recency after all others |
| LruCache.StoredNew | src-clm/src/seon_clm/engine.py:46-48 | The i-th missing text is stored with the i-th computed vector |
| LruCache.StoredOld | src-clm/src/seon_clm/engine.py:46-48 | Storing computed vectors changes no other row |
| LruCache.VectorCache.Evict | src-clm/src/seon_clm/engine.py:51-52 | Eviction keeps the newest rows, as many as the capacity allows, and their vectors |
| HotReload.NamespaceInjective | src-clm/src/seon_clm/heads.py:90-91 | name@generation determines the name and the generation, whatever the name contains |
| HotReload.SpaceNameInjective | src-clm/src/seon_clm/engine.py:94-110 | No two of raw spaces and head generations share a cache namespace |
| HotReload.SidesAre | src-clm/src/seon_clm/engine.py:103-109 | Exactly the sides "state" and "action" are served, each in the namespace of its own name |
| HotReload.HeadPair.Ensure | src-clm/src/seon_clm/heads.py:57-79 | A changed mtime loads the file under the next generation; a load that fails early changes nothing, one that fails at the logit scale has replaced the heads and nothing else; a missing file raises |
| HotReload.StoreCoherent | src-clm/src/seon_clm/engine.py:46-48 | Storing sound vectors keeps every cached row sound |
| HotReload.ReloadCoherent | src-clm/src/seon_clm/heads.py:70 | A new generation starts with no row of its own, so old rows stay harmless |
| HotReload.Engine.Project | src-clm/src/seon_clm/engine.py:94-110 | Errors and replies exactly, the raw model included (no texts raise there too): cached texts get their rows, missing ones the vectors of the weights the heads have when they are projected. The heads and rows afterwards: a failed request changes no row, a served one leaves only old and projected ones |
| HotRuns.SteadyReply | src-clm/src/seon_clm/engine.py:94-110 | A call whose file is not replaced between its looks, and whose look is not stale, replies with the loaded weights' vectors, which are those the head has, whatever happened in earlier calls |
| HotRuns.OwnRunsExactly | src-clm/src/seon_clm/engine.py:94-110 | For every sequence of looks at the files, with none replaced inside a call: in all runs, whatever is asked for, every reply and every row is its own generation's, if and only if no look is stale |
| HotRuns.StaleExactly | src-clm/src/seon_clm/heads.py:68-79 | A look is stale exactly when it finds the last loaded mtime after a load that failed late, with other weights than those loaded last, and nothing has replaced the heads since |
| HotRuns.LateFailure | src-clm/src/seon_clm/heads.py:68-79 | A concrete run of three calls: the last reply has a cached vector of the loaded weights beside a vector of a file that failed to load, and no file is replaced inside a call |
| HotRuns.StepOwn | src-clm/src/seon_clm/engine.py:94-110 | A call whose file is not replaced and whose look is not stale replies with its generation's vectors and keeps every row its own generation's |
| HotRuns.RunsCoherent | src-clm/src/seon_clm/engine.py:94-110 | In every run without stale looks, whenever files are replaced, the rows of every present generation stay the vectors of its loaded weights |
| HotReload.OneWeightExactly | src-clm/src/seon_clm/engine.py:94-110 | A successful head call whose cached rows are those of the weights loaded for its generation answers with one weight for all texts, whatever the heads compute, if and only if the missing texts are projected with just these weights, or no requested text was cached, or none was missing |
| HotReload.MixedReply | src-clm/src/seon_clm/engine.py:94-110 | A concrete call whose reply mixes the vectors of two weights |
| HotReload.RowsStayOwn | src-clm/src/seon_clm/engine.py:46-48 | Rows of every generation, past ones included, stay the vectors of that generation's weights when the weights that project are those the namespace names |
| HotReload.Engine.Serve | src-clm/src/seon_clm/engine.py:94-110 | Any sequence of calls is a run of the machine the lemmas about runs speak of |
| FormReader.Read | evals/runs/2026-07-05-bfcl-ast-dev-form/bfcl_adapter_form.py:269-294 | Reading terminates by remaining length and strictly advances unless it stands at the end or a stray closer |
| FormReader.ReadStandsStill | evals/runs/2026-07-05-bfcl-ast-dev-form/bfcl_adapter_form.py:269-309 | Reading consumes nothing but blanks exactly at the end and at a stray closer, where it yields an empty symbol |
| FormReader.SkipWs | evals/runs/2026-07-05-bfcl-ast-dev-form/bfcl_adapter_form.py:204-215 | The blank-skipping loop stops where the recursive definition does |
| FormReader.ReadString | evals/runs/2026-07-05-bfcl-ast-dev-form/bfcl_adapter_form.py:218-237 | The string loop decodes escapes and ends as the recursive definition does, also for unterminated strings |
| FormReader.ReadAtom | evals/runs/2026-07-05-bfcl-ast-dev-form/bfcl_adapter_form.py:240-246 | The atom loop takes exactly the characters before a delimiter |
| FormReader.ReadAt | evals/runs/2026-07-05-bfcl-ast-dev-form/bfcl_adapter_form.py:269-294 | The index-based reader gives the datum and the index of the remaining text |
| FormReader.ReadSeqAt | evals/runs/2026-07-05-bfcl-ast-dev-form/bfcl_adapter_form.py:297-309 | The item loop reads the sequence up to any closer |
| FormReader.ReadAll | evals/runs/2026-07-05-bfcl-ast-dev-form/bfcl_adapter_form.py:442-455 | All forms of a span, or failure if one of them raises |
| FormReader.DictSetIs | evals/runs/2026-07-05-bfcl-ast-dev-form/bfcl_adapter_form.py:288-292 | A repeated key keeps its place and takes the later value, a new one comes last |
| FormReader.LastSegmentIs | evals/runs/2026-07-05-bfcl-ast-dev-form/bfcl_adapter_form.py:312-317 | A name is what follows the last slash |
| FormReader.AnyCloser | evals/runs/2026-07-05-bfcl-ast-dev-form/bfcl_adapter_form.py:297-309 | Any closer ends a sequence, whichever bracket opened it |
| FormReader.MacroReads | evals/runs/2026-07-05-bfcl-ast-dev-form/bfcl_adapter_form.py:274-275 | A reader macro's character is dropped |
| FormReader.OtherTokens | evals/runs/2026-07-05-bfcl-ast-dev-form/bfcl_adapter_form.py:249-266 | A token that is no literal and no integer is a float exactly if it has a digit, a point or an exponent, and float() takes it, else a symbol |
| FormSpans.SpansAreRight | evals/runs/2026-07-05-bfcl-ast-dev-form/bfcl_adapter_form.py:338-381 | The scan yields exactly the stretches whose bracket depth outside strings and comments is 0 before, positive inside and first 0 again at the end; they are ordered and disjoint |
| FormSpans.Spanned | evals/runs/2026-07-05-bfcl-ast-dev-form/bfcl_adapter_form.py:338-381 | The scanning loop returns the texts of those spans |
| FormSpans.DepthMoves | evals/runs/2026-07-05-bfcl-ast-dev-form/bfcl_adapter_form.py:338-381 | Only round and square brackets in code move the depth; braces do not, nor does a closer at depth 0 |
| FormCalls.CollectCalls | evals/runs/2026-07-05-bfcl-ast-dev-form/bfcl_adapter_form.py:384-401 | Collection appends the calls of a datum in order |
| FormCalls.KeptAre | evals/runs/2026-07-05-bfcl-ast-dev-form/bfcl_adapter_form.py:429-433 | With candidates just the calls that name one, up to '.' and '_', are kept, in order, or all where none does |
| FormCalls.CallsAre | evals/runs/2026-07-05-bfcl-ast-dev-form/bfcl_adapter_form.py:384-401 | A list headed by a symbol is one call with that name; other lists and vectors give the calls of their elements in order; other data, maps among them, give none |
| FormCalls.FirstDictIs | evals/runs/2026-07-05-bfcl-ast-dev-form/bfcl_adapter_form.py:391-396 | A call's arguments are its first map, or none |
| FormCalls.ParseCalls | evals/runs/2026-07-05-bfcl-ast-dev-form/bfcl_adapter_form.py:404-439 | The whole parser: spans read one by one, failing spans skipped, candidates preferred, all calls or the last |
| FormRoundTrip.ReadShow | evals/runs/2026-07-05-bfcl-ast-dev-form/bfcl_adapter_form.py:269-294 | A written form, in any layout with comments, is read as its meaning and leaves exactly what follows |
| FormRoundTrip.SpansOfDocument | evals/runs/2026-07-05-bfcl-ast-dev-form/bfcl_adapter_form.py:338-381 | In prose that opens no bracket outside strings and comments, the spans are exactly the written forms |
| FormRoundTrip.ParsedDocument | evals/runs/2026-07-05-bfcl-ast-dev-form/bfcl_adapter_form.py:404-455 | A reply of written forms parses to their calls, in order |
| FormRoundTrip.LaysMeans | evals/runs/2026-07-05-bfcl-ast-dev-form/bfcl_adapter_form.py:312-330 | A laid out native value, strings also as keywords or symbols and vectors also as lists, is read as itself and is a fixed point of making arguments native |
| FormRoundTrip.RoundTrip | evals/runs/2026-07-05-bfcl-ast-dev-form/bfcl_adapter_form.py:404-439 | Calls written in any layout between any quiet prose are parsed back, with names and arguments; the non-parallel answer is the last |
| FormRoundTrip.CandidateRoundTrip | evals/runs/2026-07-05-bfcl-ast-dev-form/bfcl_adapter_form.py:426-439 | For any candidates: of calls written in any layout between any quiet prose, those whose name equals a candidate's up to '.' and '_' are parsed back, in order, or all of them where none does; the non-parallel answer is the last of these |
| FormRoundTrip.PrintParse | evals/runs/2026-07-05-bfcl-ast-dev-form/bfcl_adapter_form.py:404-439 | Printing calls with comment lines between them and parsing the text gives the calls, integers included, with no assumption on how numerals are read other than Python's limit on their digits |
| FormRoundTrip.NumeralsRead | evals/runs/2026-07-05-bfcl-ast-dev-form/bfcl_adapter_form.py:249-266 | A printed integer of at most the accepted number of digits is read as itself |
| FormRoundTrip.QuoteIsBody | evals/runs/2026-07-05-bfcl-ast-dev-form/bfcl_adapter_form.py:218-237 | Every string has a literal that reads back as it |
| FormRoundTrip.KeywordNames | evals/runs/2026-07-05-bfcl-ast-dev-form/bfcl_adapter_form.py:269-317 | A slash-free keyword keeps its name exactly if it is not true, false or nil and not a number printed otherwise |
| FormRoundTrip.TrueKeyword | evals/runs/2026-07-05-bfcl-ast-dev-form/bfcl_adapter_form.py:278-280 | The keyword :true is read as the name True |
| LineReader.LineReader.Feed | resources/public/js/datastar.js:7-8 | After any chunk the lines given so far are the lines of all bytes so far, and what is kept is the unfinished line, its first colon and a pending CR |
| LineReader.ReadStream | resources/public/js/datastar.js:7-8 | Any chunking, empty chunks included, gives the lines and first colons of the concatenated bytes |
| LineReader.LineReader.LineEnd | resources/public/js/datastar.js:7 | The inner loop finds the next line end and the first colon |
| LineReader.PiecesJoin | resources/public/js/datastar.js:7 | The lines with their endings, and the unfinished tail, are the stream |
| LineReader.PiecesAreLines | resources/public/js/datastar.js:7 | The stream is cut at every CRLF, CR and LF and nowhere else, and never inside a CRLF |
| LineReader.LinesArePieces | resources/public/js/datastar.js:7 | The lines are the pieces' lines, each with its first colon |
| LineReader.LinesOneMore | resources/public/js/datastar.js:7 | What one more byte does to the lines and the tail, also after a CR |
| LineReader.ColonInIs | resources/public/js/datastar.js:7 | The colon position is that of the first colon, or -1 if there is none |
| GraphReconcile.ReadModel | resources/public/js/seon-graph.js:16-63 | A model is accepted exactly if its strings are present and non-empty, ids are unique, the selected id is a node and edges join nodes; every field of every node and edge is then the raw field of the same name, and the errors name real culprits |
| GraphReconcile.View.Reconcile | resources/public/js/seon-graph.js:169-217 | From any displayed graph, visited in any order, the result is the graph After(old, model) |
| GraphReconcile.Converges | resources/public/js/seon-graph.js:177-215 | That graph has exactly the model's nodes and edges, with its labels, hrefs, endpoints and attributes; an edge displayed with the same endpoints keeps its direction, and its label unless the model has one; selected is exactly what was selected and survives, or the model's selected node if nothing is |
| GraphReconcile.StaysWellFormed | resources/public/js/seon-graph.js:177-215 | Ids stay unique and every edge has its endpoints |
| GraphReconcile.Idempotent | resources/public/js/seon-graph.js:169-217 | A second run changes nothing |
| GraphReconcile.FreshExactly | resources/public/js/seon-graph.js:200-203 | The edges shown are those of a fresh view exactly if every kept edge already had the model's direction, and its label where the model gives none |
| GraphReconcile.StaleDirection | resources/public/js/seon-graph.js:200-203 | A concrete edge that keeps the direction of an older model |
| GraphReconcile.View.DropNodes | resources/public/js/seon-graph.js:184-186 | Removing nodes takes no edge that was kept |
| GraphReconcile.View.ShowEdge | resources/public/js/seon-graph.js:197-203 | An edge that is added finds both endpoints |
| StratifiedDraw.OrderedDraw | src-inspect-ai/src/seon_inspect/freeze.py:200-230 | The draw's loops compute the specified draw |
| StratifiedDraw.DrawKeeps | src-inspect-ai/src/seon_inspect/freeze.py:200-230 | The draw, plain or stratified, is a permutation of the rows |
| StratifiedDraw.PlainDrawAt | src-inspect-ai/src/seon_inspect/freeze.py:211-216 | Row i of a plain draw is the canonical row that the generator's permutation names |
| StratifiedDraw.StratifiedDrawAt | src-inspect-ai/src/seon_inspect/freeze.py:217-230 | The strata are the sorted ones shuffled, and the i-th drawn row of a stratum is the row of its group, in canonical order, that the generator's permutation names |
| StratifiedDraw.DrawRounds | src-inspect-ai/src/seon_inspect/freeze.py:225-230 | Rows of a stratified draw come by how many of their stratum are before them, and at equal numbers by the shuffled strata |
| StratifiedDraw.DrawIsFair | src-inspect-ai/src/seon_inspect/freeze.py:225-230 | In every prefix of a stratified draw, a stratum that is more than one behind another is exhausted |
| StratifiedDraw.DrawIgnoresOrder | src-inspect-ai/src/seon_inspect/freeze.py:211 | If no id string names two different rows (of one stratum, for the stratified draw), the draw does not depend on the input order |
| StratifiedDraw.PlainDrawOrder | src-inspect-ai/src/seon_inspect/freeze.py:211-216 | The plain draw is independent of the input order if and only if no id string names two different rows |
| StratifiedDraw.StratifiedDrawOrder | src-inspect-ai/src/seon_inspect/freeze.py:211-230 | The stratified draw is independent of the input order if and only if no id string names two different rows of one stratum |
| StratifiedDraw.CanonicalIs | src-inspect-ai/src/seon_inspect/freeze.py:211 | The canonical order is a permutation, sorted by id string |
| StratifiedDraw.KeyIs | src-inspect-ai/src/seon_inspect/freeze.py:211 | A text id sorts by itself, a number by its decimal numeral |
| StratifiedDraw.ApplyExclusions | src-inspect-ai/src/seon_inspect/freeze.py:290-300 | Unknown exclusions are refused, the known ones filtered |
| StratifiedDraw.SurvivingConcat | src-inspect-ai/src/seon_inspect/freeze.py:300 | Exclusion filters every part of the draw on its own, so survivors keep their order |
| StratifiedDraw.SurvivingAre | src-inspect-ai/src/seon_inspect/freeze.py:300 | Exactly the excluded rows leave |
| StratifiedDraw.SplitIds | src-inspect-ai/src/seon_inspect/freeze.py:233-247 | The three tiers concatenate to the draw, have the requested sizes and leave a nonempty test tier, or the draw is refused for being too short |
| StratifiedDraw.FreezeTiers | src-inspect-ai/src/seon_inspect/freeze.py:200-300 | From rows to tiers: together they are exactly the surviving draw, test nonempty |
| CheckpointTree.SplitJoin | src-needle/src/seon_needle/convert.py:58 | Joined keys of slash-free paths split back into their paths, so they never collide |
| CheckpointTree.FlattenTree | src-needle/src/seon_needle/convert.py:49-61 | The flat dict of a slash-free tree has exactly the joined paths of its leaves |
| CheckpointTree.SplitScanned | src-needle/src/seon_needle/convert.py:64-77 | Fails exactly if an array under a block has no leading axis; otherwise it has exactly the keys and arrays the input's keys give |
| CheckpointTree.SplitIsExpanded | src-needle/src/seon_needle/convert.py:64-77 | Splitting the flat dict of a tree gives the flat dict of the tree with each block replaced by its numbered layers |
| CheckpointTree.KeysCollide | src-needle/src/seon_needle/convert.py:66-76 | A block, a second block and a number beside it give the same key |
| CheckpointTree.Unflatten | src-needle/src/seon_needle/model.py:167-175 | Whatever the order of its keys, the flat dict of a tree without empty dicts gives that tree back |
| CheckpointTree.SameLeaves | src-needle/src/seon_needle/model.py:167-175 | A tree without empty dicts is determined by its leaves |
| CheckpointTree.LayersListify | src-needle/src/seon_needle/model.py:177-183 | The keys under a block are exactly 0 to n-1, and become the list of the block's slices |
| CheckpointTree.TidyListify | src-needle/src/seon_needle/model.py:177-183 | Every scan block's parent becomes that list and every other dict stays a dict |
| CheckpointTree.ListExactly | src-needle/src/seon_needle/model.py:177-183 | The parent becomes a list if and only if the block is all it holds |
| CheckpointTree.ListifyExactly | src-needle/src/seon_needle/model.py:177-183 | Listing the expanded tree gives every block as the list of its slices and leaves every other dict a dict, if and only if every block is all its parent holds and the names of no other dict are all numbers |
| CheckpointTree.NumberedDict | src-needle/src/seon_needle/model.py:180-182 | A concrete tree without any block that is not rebuilt, because the name 0 is missing |
| CheckpointTree.ConvertAndLoad | src-needle/src/seon_needle/convert.py:84 | Flatten, split, rebuild and listify give the tree with each scan block as the list of its slices if and only if it is tidy |
| ScratchDisk.Disk.DeleteTree | src-inspect-ai/src/seon_inspect/seon_cluster.py:201-217 | Paths are resolved through links. Terminates; nothing that is not at or below the place the root names is touched, whatever links stand there, and places whose removal is refused stay; success leaves nothing at or below it; a root that is no directory, a link for one, is left untouched; and it fails exactly if the root is no directory, a removal is refused, or the root's own path led through what was deleted |
| ScratchDisk.ReachLess | src-inspect-ai/src/seon_inspect/seon_cluster.py:201-217 | Removing entries never makes a path lead to another entry: it leads where it did, or nowhere |
| ScratchDisk.LinksLeadOut | src-inspect-ai/src/seon_inspect/seon_cluster.py:211-214 | The path of an entry found through a link names an entry wherever the link leads, so a deletion that entered links would delete there |
| ScratchLease.Lease.Restart | src-inspect-ai/src/seon_inspect/seon_cluster.py:323-335 | For every outcome of the operator calls: the calls made (stop, recovery, start, as far as it comes), the flags and the reply; a released lease makes none and refuses |
| ScratchLease.RestartSucceeds | src-inspect-ai/src/seon_inspect/seon_cluster.py:323-335 | A restart succeeds exactly if the lease is unreleased and every step does, readiness included, and otherwise fails with its first failing step |
| ScratchLease.RestartCalls | src-inspect-ai/src/seon_inspect/seon_cluster.py:323-335 | A restart starts only after it has stopped, starts at most once and deletes nothing |
| ScratchLease.Lease.Release | src-inspect-ai/src/seon_inspect/seon_cluster.py:337-345 | For every outcome: the calls made, the flags and the reply. A failed stop leaves the root, a failed deletion is retried without another stop, a second release does nothing |
| ScratchLease.ReleaseSucceeds | src-inspect-ai/src/seon_inspect/seon_cluster.py:337-345 | A release succeeds exactly if the lease is released already, or the stop, where one is due, and the deletion succeed |
| ScratchLease.StartCluster | src-inspect-ai/src/seon_inspect/seon_cluster.py:348-403 | For every outcome of its steps: the calls made, the failure the caller sees (that of the deletion where that fails too after a failed preparation), and the flag that tells whether the cluster is live; success hands out a lease that has not been stopped |
| ScratchLease.StartSucceeds | src-inspect-ai/src/seon_inspect/seon_cluster.py:348-403 | A start succeeds exactly if every step does, and the start command is given exactly if everything before it, the config file included, succeeded |
| ScratchLease.RootGivenUp | src-inspect-ai/src/seon_inspect/seon_cluster.py:374-403 | A start gives the root up if and only if the preparation failed, or the cluster started, did not become ready and could be stopped; it is kept when the config file cannot be written and when the start fails |
| ScratchLease.StepGood | src-inspect-ai/src/seon_inspect/seon_cluster.py:323-345 | Every restart and release keeps: the root is only deleted while no start has succeeded since the last successful stop, the stopped flag tells exactly that, and the root is gone exactly when the lease is released |
| ScratchLease.RunGood | src-inspect-ai/src/seon_inspect/seon_cluster.py:323-345 | The same over every sequence of restarts and releases with any outcomes |
| ScratchLease.Drive | src-inspect-ai/src/seon_inspect/seon_cluster.py:323-345 | The lease object goes through the states of that sequence, from a started cluster on |
| ScratchLease.DeletedUnstopped | src-inspect-ai/src/seon_inspect/seon_cluster.py:337-345 | In every run, release deletes the root without a stop while a started process may be alive if and only if the lease is unreleased and the last restart that got as far as starting failed there |
| ScratchLease.FailedStartIsDeleted | src-inspect-ai/src/seon_inspect/seon_cluster.py:323-345 | A concrete run: a restart whose start fails, then a release that deletes the root of a cluster that may be alive |
| SampleOverlap.CountsAddUp | src-inspect-ai/src/seon_inspect/host.py:214-241 | Completed, errored and active samples are always the number begun |
| SampleOverlap.CountsAre | src-inspect-ai/src/seon_inspect/host.py:236-237 | A sample whose end is recorded counts as completed if it succeeded and as errored if it did not |
| SampleOverlap.ReportedOnly | src-inspect-ai/src/seon_inspect/host.py:222-240 | Only a sample that succeeded and whose summary was written returns a report |
| SampleOverlap.ReportsExactly | src-inspect-ai/src/seon_inspect/host.py:217-239 | A sample reports exactly the samples the host took for active at its begin or at its end |
| SampleOverlap.ReportsTrue | src-inspect-ai/src/seon_inspect/host.py:217-239 | Everything a sample reports was running at the same time as it if and only if no end had raised before the sample began |
| SampleOverlap.ReportIsTrue | src-inspect-ai/src/seon_inspect/host.py:217-239 | A reported sample was running at the same time as the reporter if and only if it was not over when the reporter began |
| SampleOverlap.LaterReports | src-inspect-ai/src/seon_inspect/host.py:217-239 | Of two samples active together, the one that began later reports the other, which may still be running or have ended any way |
| SampleOverlap.MissesExactly | src-inspect-ai/src/seon_inspect/host.py:217-239 | A sample misses another, ended or still active, exactly if they never met in the host's eyes or the other ran wholly within it |
| SampleOverlap.StaleReport | src-inspect-ai/src/seon_inspect/host.py:230-239 | A concrete sample whose end raised and that is reported by one that began after it was over |
| SampleOverlap.SeonHost.BeginSample | src-inspect-ai/src/seon_inspect/host.py:217-220 | The first critical section, in place |
| SampleOverlap.SeonHost.EndSample | src-inspect-ai/src/seon_inspect/host.py:231-239 | The second critical section, in place; the report is returned exactly when the sample succeeded, the store could be measured and the summary was written, while a failing write still counts the sample and takes it off the active ones |

## Left out

- Floating point, dtype casts, quantization, Metal memory: vectors are abstract, and equality of results is equality
  of the abstract expressions.
- Softmax over masked scores is modelled as exclusion of the masked keys; with no admitted key it is a mean over all
  keys of the call, which happens in decoding only for a query without a tool list (`AllRowsReal`).
- The arithmetic of a rotation: only which table row rotates which position. A rope scale of zero is excluded.
- Tokenizers and SentencePiece are total functions; `max_tokens` truncation inside them is not modelled.
- NeedleModel.DecodeBatch: contrastive heads, teacher forcing and training are not modelled.
- Generate.GenerateBatch: takes a tokenizer whose `<tools>` and pad ids differ; timing figures are left out.
- GemmaText.EmbedIds: the sliding window is 512, as `round_len` and `forward` assume, and `max_batch` is at least 1 unless there are no texts;
  a dim above the embedding width, which would not fit the output rows, is not modelled, and the batch generator is taken as a list.
- Loading, prefixes per task and compiled forwards of the text encoder.
- EmbedServer.RunGood: futures are never cancelled, the warm-up embed and request validation are left out, and the
  linger deadline is the worker's free choice to stop once the queue is empty.
- CausalEncoder.Embed: every text has at least one token, as its tokenizer fallback provides; the GPU lock is left out.
- HotReload.Engine.Project: a file that vanishes between its mtime and its load is a failed load; token totals, logit
  scales and the per-call head lock are left out; calls are atomic, as the cache takes no lock. The engine's listing,
  scoring and head discovery are left out.
- FormReader.Read: `str.isdigit`, `int`, `float` and `repr` are parameters, `int` may raise; `AsciiLex` fixes the first
  two on ASCII digits. Python's recursion limit is not modelled.
- FormCalls.ParseCalls: prompt rendering and scoring around the parser.
- The rest of `datastar.js`: decoding, event fields, signals, morphing, retries.
- GraphReconcile.View.Reconcile: positions, pan, zoom, layout and styles; other data fields of an element.
- StratifiedDraw.OrderedDraw: the generator is an arbitrary permutation depending on the lengths shuffled before;
  queues are kept in a list parallel to the strata. Digests, canaries and lock files are left out.
- CheckpointTree.ConvertAndLoad: blocks whose leaves are stacked alike, and no number or second block beside one (what
  happens there is `KeysCollide`); `isdigit` on ASCII digits; dtype casts and the safetensors file between the two
  halves are identities; key order is arbitrary.
- ScratchLease.StartCluster: commands are outcomes; name checks, advertisement parsing and prepl evaluation are left
  out, and so are timeouts other than as failures. Making the root is one step: a half-made one is left behind.
- ScratchDisk.Disk.DeleteTree: only this process changes the tree while it is deleted; a failing scan of a directory,
  `..` in link targets, relative targets and mount points are not modelled.
- SampleOverlap.SeonHost.EndSample: the contents of snapshots and summaries, and the start and close flags of the host.
- HTTP handlers, sockets, subprocesses, git and Inspect AI plumbing, prose oracles, schema validators, training and
  data-generation scripts: not modelled.
