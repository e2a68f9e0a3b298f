# Verified model of MLXForge's serving core

MLXForge decodes many requests together: one worker thread keeps a left-padded key/value cache, admits
prompts by chunked prefill, seeds some of them from a pool of hashed prefix blocks with a disk tier, pads
the batch to bucket sizes with dummy rows, samples, and compacts the batch in place as rows finish. The
claim behind all of it is transparency: none of this may change what any one request receives. These Dafny
files model that machinery, with the index arithmetic and control flow the C++ has, and prove the claim
together with the properties of the parts around it.

What is taken as uninterpreted: the numerics of the transformer. A key or value cell is a function of a
hidden state and its position, attention a function of the cells a query may see, the sampler a function of
logits, parameters, key and history. Everything else (padding, masks, growth, merging, filtering, matching,
harvesting, queues) is the code's own logic.

The files, by subject:

- Serving runtime: `KvQuant`, `BatchKVCache`, `Transformer`, `ForwardPass`, `Prefill`, `Request`,
  `Scheduler`, `Rows`, `Ledger`, `Worker`. `Workers.Worker.Run` is the end result: whatever arrives, is
  cancelled and is admitted when, every accepted request is closed with exactly the tokens and log-prob
  records it would get alone, or a front part of them if the worker saw it cancelled.
- Prefix cache: `BlockPool`, `PrefixCache`, `PrefixSeed` (a warm start equals a cold one), and its disk tier:
  `BlockStore` (every interleaving of putters, getters and the writer thread), `BlockCodec` (the file format),
  `SpillPath` (both together, seen from the worker).
- Streaming: `TokenStream` (the two bounded queues of a request) and `Streaming` (from the worker's pushes to
  what each consumer has popped).
- Constrained decoding: `JsonGrammar` (the byte automaton), `JsonText` (derivations of RFC 8259, sections 2
  to 7), `JsonComplete`, `JsonSound`, `JsonMask`.
- Tokenizers: `AddedTokens`, `Pretokenizer` (a backtracking regular-expression semantics and the hand-written
  matcher), `BpeMerge`, `BpeTokenizer`, `SpmTokenizer`.
- Fast forms of arithmetic: `GatedDelta` (the hybrid model's recurrent layers), `SkinnyMatmul` (the few-row
  matrix kernels), both over exact arithmetic.

Classes stand where the source updates objects in place; their methods are specified by functions on the
abstract state, and the lemmas are about those functions. `dafny verify dfyconfig.toml` checks everything.

Findings, where the code does not do what one might expect:

- A schema key that holds a quote, a backslash or a control byte makes every state a dead end, and only such
  a key does (`JsonMask.NoDeadEnds`).
- Decoding undoes SentencePiece encoding exactly when every final symbol that carries the space marker is in
  the vocabulary; a marker that falls back to bytes comes back as U+2581, not as a space
  (`SpmTokenizer.RoundTripExactly`).
- Putting a block twice without asking `contains` first makes the store count its bytes twice
  (`BlockStores.UnguardedDrifts`); the worker's evict hook does ask.
- Merging pass by pass can differ from merging one pair at a time for merge tables in which a rule that uses
  a product does not rank after the merge that makes it (`BpeMerge.UnorderedDiffers`). That order is
  sufficient for the two to agree; it is not the exact condition.
- The block reader compares sizes modulo 2^64 and does not look at bytes after the last component, so
  `BlockCodec.Storable` says "of the size its shape says" in that arithmetic.

## Model

| member | source | states |
|---|---|---|
| KvQuant.UpdateKvComponents | src/cache/kv_quant.cpp:14-49 | growing a store by whole blocks and writing at the write position keeps every populated slot, puts the new cells at their positions, and returns exactly the populated slots |
| BatchCache.BatchKVCache.constructor | src/cache/batch_kv_cache.cpp:24-33 | a new cache holds one empty row for each padding, its offset the padding negated |
| BatchCache.BatchKVCache.Advance | src/cache/batch_kv_cache.cpp:123-127 | write index and every offset move together, so offset plus padding stays the write index |
| BatchCache.BatchKVCache.UpdateAndFetch | src/cache/batch_kv_cache.cpp:89-96 | one layer gets the new cells after its populated ones, no other layer changes, and what is fetched is slots 0 up to the new end |
| BatchCache.UpdatedExtends | src/cache/batch_kv_cache.cpp:89-96 | writing at the shared index extends each row, read from its padding on, by exactly its new real cells |
| BatchCache.BatchKVCache.FetchRowComponents | src/cache/batch_kv_cache.cpp:181-191 | one row's span of one layer, component by component |
| BatchCache.BatchKVCache.PadDummies | src/cache/batch_kv_cache.cpp:129-158 | as a list of rows, the cache gains empty rows at the end and the rows it had are unchanged |
| BatchCache.BatchKVCache.Filter | src/cache/batch_kv_cache.cpp:199-225 | the rows afterwards are exactly the kept ones in order, and shifting off the common padding changes none of them and leaves some row unpadded |
| BatchCache.BatchKVCache.Merge | src/cache/batch_kv_cache.cpp:227-299 | merging two caches written so far, of any paddings and capacities, concatenates their row lists; no populated slot is trimmed |
| BatchCache.PadSeqShifts | src/cache/batch_kv_cache.cpp:227-299 | right-justifying a store moves every populated slot by the padding added and loses none |
| ForwardPass.MaskExposesHistory | src/model/decoder_model.cpp:295-313 | the batch mask shows a real query exactly its own row's history up to itself: no padding, no later slot, no other row |
| ForwardPass.Forward | src/model/decoder_model.cpp:330-351 | a batched forward gives every row, whatever its padding and batch mates, the cells and logits of the one-row forward on its own history |
| Transformer.ForwardExtends | src/model/decoder_model.cpp:330-351 | running a chunk after a cached history gives the cells and hidden states of running the whole sequence at once |
| Prefill.ForwardChunk | src/runtime/batching.cpp:17-52 | one chunk over left-padded prompts advances every row to the same column, and on the last chunk the last column holds every prompt's next-token logits |
| Prefill.PrefillCold | src/runtime/batching.cpp:17-52 | prefilling left-padded prompts in chunks of any size leaves every row with exactly its prompt's cells and last logits |
| Prefill.PrefillWithPrefix | src/runtime/batching.cpp:54-79 | seeding from matched blocks and prefilling only the suffix ends in the very state a cold prefill ends in |
| Prefill.DecodeForward | src/runtime/worker.cpp:516-538 | one decode over the batch padded to its bucket gives each real row its own next logits and its own cells; dummy rows do not show |
| Prefill.DropDummies | src/runtime/worker.cpp:516-538 | filtering the dummy rows away leaves the real rows as they were |
| Prefill.NextBucket | src/runtime/batching.cpp:10-15 | the smallest bucket that holds the batch: a power of two up to 32, then multiples of 32 |
| PrefixSeed.FromPrefix | src/cache/batch_kv_cache.cpp:50-83 | the seeded cache holds the first `len` positions of the blocks' span in every layer and component |
| PrefixSeed.HarvestedIsNamed | src/cache/prefix_cache.cpp:35-82 | a block cut from a row that holds its tokens' cells is the block its key names |
| BlockPools.BlockPool.Get | src/cache/block_pool.cpp:31-36 | a hit returns the stored block and moves it to the front, changing no other order |
| BlockPools.BlockPool.Insert | src/cache/block_pool.cpp:38-47 | first write wins, an oversized block is refused, an admitted block is never its own victim, and what goes is the least recent tail the budget demands, offered to the disk tier first |
| BlockPools.BlockPool.EvictToBudget | src/cache/block_pool.cpp:49-59 | the list stays the most recent part, cut no shorter than the budget needs; map, list and byte count keep agreeing |
| PrefixCaches.PrefixCache.Lookup | src/cache/prefix_cache.cpp:12-33 | a block found is the one its key names and becomes the most recent; a pool hit never misses and changes no block; unless the disk tier fails, every available block is found and re-promoting it makes none unavailable |
| PrefixCaches.PrefixCache.Match | src/cache/prefix_cache.cpp:12-33 | the match is a run of blocks available at entry, the longest one unless the disk tier fails, although its own promotions evict pool blocks; without a disk tier the pool keeps its blocks and the matched ones become the most recent; what is reused is their span, cut to leave the last prompt token over |
| PrefixCaches.PrefixCache.Harvest | src/cache/prefix_cache.cpp:35-82 | with or without a disk tier, the pool afterwards is the most recent part of the new admissible blocks, newest first, followed by what it held, cut no shorter than its budget demands: everything when it is unbounded or all fits, and always the last block sealed; every stored block is the one its key names; over a lossless tier nothing available is lost and every block that fits becomes available |
| Requests.Consume | src/runtime/worker.cpp:45-58 | a token is emitted with its record right after it, EOS is not emitted, and the request finishes exactly at EOS or its budget |
| Requests.GreedyGenerate | src/runtime/single_stream.cpp:56-104 | the one-request greedy loop computes the reference generation the worker is compared with |
| Requests.GenerateExtends | src/runtime/single_stream.cpp:81-96 | whatever is generated later only extends what was emitted |
| Schedulers.Scheduler.Submit | src/scheduler/scheduler.cpp:7-21 | accepted exactly when the queue has room; an accepted request goes to the back |
| Schedulers.Scheduler.NextWaiting | src/scheduler/scheduler.cpp:23-30 | the front request, or none exactly when stopped and drained |
| Schedulers.Scheduler.TakeWaiting | src/scheduler/scheduler.cpp:32-40 | up to the given number of requests from the front, in order |
| Workers.Worker.constructor | src/runtime/worker.cpp:196-228 | an idle worker, over whatever blocks an earlier run left on disk |
| Workers.Worker.SampleRows | src/runtime/worker.cpp:448-486 | each row is drawn from its own logits, grammar, history and key, and only its own key moves on |
| Workers.Worker.AcceptToken | src/runtime/worker.cpp:434-446 | one drawn token moves a row's generation one reference step on, or settles the request; a request seen cancelled is finished as such with nothing more, and no other is |
| Workers.Worker.RegisterRows | src/runtime/worker.cpp:404-446 | new rows join all row vectors at the tail, aligned with their logits, and take their first token; those seen cancelled, and no others, are finished as cancelled with no token and no record |
| Workers.Worker.DecodeStep | src/runtime/worker.cpp:516-561 | with no finished row in the batch, every row takes in one token of its own generation; the rows seen cancelled, and no others, are finished as cancelled with tokens and records as they were; cache and row vectors stay aligned |
| Workers.Worker.HarvestFinished | src/runtime/worker.cpp:563-586 | harvesting keeps every pooled block the one its key names; every block of every finished row's prompt is then in an unbounded pool, and every one the pool admits is available over a lossless tier |
| Workers.Worker.EvictFinished | src/runtime/worker.cpp:588-649 | finished rows are closed with their output settled, and compacting in place keeps exactly the others in order |
| Workers.Worker.Compact | src/runtime/worker.cpp:628-649 | the in-place gather of all row vectors selects the kept rows |
| Workers.Worker.SplitPrefix | src/runtime/worker.cpp:282-296 | every request is warm or cold, in order, and a warm one carries blocks that match its prompt; unless the disk tier fails, exactly the prompts that can reuse something are warm, each with its longest available run |
| Workers.Worker.Admit | src/runtime/worker.cpp:298-334 | monolithic admission ends with every new row holding its prompt and drawing its own first token |
| Workers.Worker.EnqueueAdmissions | src/runtime/worker.cpp:336-373 | the queue gains one unit for each warm request, in order, then one for all the cold ones, each unit's columns being its prompts' |
| Workers.Worker.AdvanceChunkedPrefill | src/runtime/worker.cpp:375-402 | the front unit moves on by one chunk and no more and stays a prefill of its prompts; when it is done it leaves the queue and its rows join the batch at the tail |
| Workers.Worker.Iterate | src/runtime/worker.cpp:229-278 | one turn conserves requests (each is waiting, pending, active or closed, once), gives every active unfinished row one decode even while prefills are pending, and brings the work left down; a row of the batch leaves as cancelled, with nothing more, exactly if the decode step sees it cancelled, and a row that joins exactly if it is seen so at its first token, which it then does not get, or in the decode step |
| Workers.Worker.Run | src/runtime/worker.cpp:229-278 | over every run: accepted requests are all closed at the end, each exactly once, with exactly the reference's tokens and records, or a front part if the worker saw them cancelled, and none is served as cancelled that was not; after stop the loop drains and ends |
| TokenStreams.SpscQueue.Add | src/scheduler/request.h:35-41 | push appends and wakes the consumer, or sleeps exactly when full and open |
| TokenStreams.SpscQueue.Take | src/scheduler/request.h:54-62 | pop takes the front and wakes the producer, or sleeps exactly when empty and open |
| TokenStreams.StepInv | src/scheduler/request.h:29-71 | in every interleaving the queues carry the plan in order, the consumer is in step, and nobody sleeps on a condition that holds |
| TokenStreams.Lockstep | src/capi/mlxforge.cpp:448-471 | over all interleavings the i-th record popped is the i-th token's |
| TokenStreams.NoDeadlock | src/scheduler/request.h:29-71 | with room for one item a queue, some thread can always go on until everything is delivered |
| TokenStreams.StepNearer | src/scheduler/request.h:29-71 | every step brings the end nearer, so every run ends |
| TokenStreams.Delivered | src/capi/mlxforge.cpp:448-471 | a run that can go no further has delivered every token and record to its consumer |
| Streaming.ProgramIsPlan | src/runtime/worker.cpp:45-58 | the worker's pushes to one request, then its closes, are tokens in order each followed by its record |
| Streaming.ConsumersReceive | src/runtime/worker.cpp:616-617 | consumers of settled requests end up with what each would generate alone |
| BlockStores.StepInv | src/cache/block_store.cpp:184-295 | in every interleaving queued hashes are distinct and not indexed, the byte count is the index's sum, every index entry has its file, the writer's job is the queue's front |
| BlockStores.StepVisible | src/cache/block_store.cpp:217-224 | a step hides a visible block exactly when it evicts it or its write failed |
| BlockStores.StaysVisible | src/cache/block_store.cpp:236-281 | a put block stays visible through any run until it is evicted or its write fails |
| BlockStores.DrainedToDisk | src/cache/block_store.cpp:169-176 | when the writer leaves, everything not lost is on disk |
| BlockStores.GetExact | src/cache/block_store.cpp:193-215 | a get that finds an entry and opens its file any number of steps later reads a block put under that hash; it is empty only if the block was evicted meanwhile |
| BlockStores.GetReturnsPut | src/cache/block_store.cpp:193-215 | with one content per hash, get returns exactly the bytes put, or nothing |
| BlockStores.SparesNew | src/cache/block_store.cpp:283-295 | the block just written is never the victim |
| BlockStores.EvictionPass | src/cache/block_store.cpp:272-295 | a pass drops only the least recently used, spares the new block, and ends within the budget or with that block alone |
| BlockStores.WriterMoves | src/cache/block_store.cpp:236-281 | the writer is never stuck while there is work or the store is closing, and each of its steps brings it nearer the end |
| BlockStores.UnguardedDrifts | src/cache/block_store.cpp:184-191 | without the contains check two puts of one block are counted twice |
| BlockStores.AllRescanned | src/cache/block_store.cpp:138-167 | a rescan indexes exactly the files found, stalest first |
| BlockStores.BlockStore.constructor | src/cache/block_store.cpp:138-167 | the rescan loop ends with every file indexed in order of age |
| BlockStores.BlockStore.Contains | src/cache/block_store.cpp:217-224 | true exactly when the block is indexed or queued |
| BlockStores.BlockStore.Put | src/cache/block_store.cpp:184-191 | queues the block unless it is indexed |
| BlockStores.BlockStore.Lookup | src/cache/block_store.cpp:193-207 | an indexed block becomes the most recent; else the queue answers |
| BlockStores.BlockStore.EvictToBudget | src/cache/block_store.cpp:283-295 | the loop with its scan for the smallest stamp evicts oldest first until the budget or one entry |
| BlockStores.TurnRuns | src/cache/block_store.cpp:236-281 | a turn of the writer's loop is a run of the step relation |
| BlockCodec.DeserializeExact | src/cache/block_store.cpp:85-136 | the reader accepts exactly the byte strings that begin with a storable block's bytes under that salt, and returns that block |
| BlockCodec.RoundTrip | src/cache/block_store.cpp:55-136 | a block comes back from its own bytes exactly when it is storable |
| BlockCodec.TruncationRejected | src/cache/block_store.cpp:85-136 | every strict prefix of a block's bytes is rejected |
| BlockCodec.OtherSaltRejected | src/cache/block_store.cpp:85-92 | a block written under one salt is rejected under any other |
| BlockCodec.SerializeBlock | src/cache/block_store.cpp:55-83 | the two loops write the format |
| BlockCodec.HeaderLayout | src/cache/block_store.cpp:22-23 | a file begins with the bytes MLXFKVB1, then version, salt and the three counts, little-endian at fixed offsets |
| BlockCodec.CompLayout | src/cache/block_store.cpp:75-81 | a component is its dtype code, four dimensions and byte count at fixed offsets, then its bytes |
| BlockCodec.CompOkIs | src/cache/block_store.cpp:94-118 | the readable components: a known dtype, positive dimensions, and the byte count its shape gives in 64-bit arithmetic |
| BlockCodec.StorableIs | src/cache/block_store.cpp:92-136 | the storable blocks: up to 4096 layers of the same at most three readable K and V components |
| BlockCodec.LayersLayout | src/cache/block_store.cpp:58-64 | layers in order, a layer's K components before its V components |
| BlockCodec.Reader.TakeComp | src/cache/block_store.cpp:94-118 | the cursor reads one component exactly as the format has it, or fails |
| BlockCodec.DeserializeBlock | src/cache/block_store.cpp:85-136 | the cursor-driven reader is the format's parse |
| SpillPath.RevivesOrMisses | src/runtime/worker.cpp:211-223 | through both hooks, whatever other threads do, a lookup revives the block put under that hash or misses |
| JsonGrammars.JsonGrammar.Feed | src/sample/json_grammar.cpp:109-186 | the method's fields after a byte are the automaton's step |
| JsonGrammars.StepInv | src/sample/json_grammar.cpp:109-383 | accepted bytes keep the state sound: brackets, key index in bounds, pending type free below the top level |
| JsonGrammars.JsonGrammar.Probe | src/sample/json_grammar.cpp:78-83 | accepts exactly when the automaton runs through the bytes |
| JsonGrammars.JsonGrammar.Commit | src/sample/json_grammar.cpp:85-87 | advances by the bytes |
| JsonGrammars.JsonGrammar.IsComplete | src/sample/json_grammar.cpp:89-105 | true exactly in complete states |
| JsonComplete.LanguageAccepted | src/sample/json_grammar.cpp:109-383 | every text of the grammar, with whitespace or compact, free or conforming to the schema, is accepted and complete |
| JsonSound.AcceptedInLanguage | src/sample/json_grammar.cpp:109-383 | whatever is accepted and complete parses as a text of the grammar |
| JsonSound.LanguageIsJson | src/sample/json_grammar.cpp:78-383 | accepted-and-complete is exactly RFC 8259 JSON at byte level, the RFC's terminals written out on their own; in compact mode exactly without insignificant whitespace; under a schema exactly the objects with its keys in order and typed values |
| JsonMask.NoDeadEnds | src/sample/json_grammar.cpp:109-383 | every accepted beginning can be completed if and only if the schema's keys are plain |
| JsonMask.GrammarMask | src/runtime/worker.cpp:142-179 | the mask with its first-byte filter allows exactly the tokens the grammar does, and everything only when nothing is allowed |
| JsonMask.SomethingAllowed | src/runtime/worker.cpp:142-179 | with single-byte tokens and an EOS the all-masked fallback is never taken |
| JsonMask.DrawnOutput | src/runtime/worker.cpp:181-185 | tokens drawn from the mask are always accepted; an EOS ends a complete value |
| JsonMask.ConstrainedOutput | src/runtime/worker.cpp:142-185 | what has been emitted always begins a text of the language, and is one when generation stops by itself |
| Pretokenizer.MatchPiece | src/tokenizer/bpe.cpp:137-208 | the hand-written matcher returns the length the seven-alternative expression matches under ordered-choice backtracking |
| Pretokenizer.FoundEnd | src/tokenizer/bpe.cpp:126-208 | the expression matches at every position of every text, so the last-resort return is unreachable |
| Pretokenizer.FirstThrough | src/tokenizer/bpe.cpp:126-136 | of a sequence, backtracking finds the first end of its head that its tail can follow |
| BpeMerge.PassIsSteps | src/tokenizer/bpe.cpp:239-267 | merging every occurrence of the best pair is that many leftmost single merges |
| BpeMerge.PassesAreSteps | src/tokenizer/bpe.cpp:239-267 | for a table whose rules come after the merges they use, pass by pass gives the symbols of one pair at a time |
| BpeMerge.PassesConcat | src/tokenizer/bpe.cpp:239-267 | merging preserves the concatenation and ends with nothing left to merge |
| BpeMerge.UnorderedDiffers | src/tokenizer/bpe.cpp:239-267 | without that order they can differ |
| BpeTokenizer.BuildByteMap | src/tokenizer/bpe.cpp:81-110 | the byte alphabet: bytes 21 to 7E, A1 to AC and AE to FF stand for themselves, the 68 others for U+0100 onwards in order, each in UTF-8, and the reverse map leads back |
| BpeTokenizer.Utf8Form | src/tokenizer/bpe.cpp:21-36 | every codepoint is written in the form of the table of RFC 3629 |
| BpeTokenizer.Utf8Decodes | src/tokenizer/bpe.cpp:21-74 | every codepoint's UTF-8 form decodes to it, whatever follows |
| BpeTokenizer.ByteAlphabet | src/tokenizer/bpe.cpp:85-110 | the same of the mapping that encoding applies to every piece |
| BpeTokenizer.DecodeUtf8 | src/tokenizer/bpe.cpp:42-74 | the codepoints and where each begins, for any bytes |
| BpeTokenizer.BpePiece | src/tokenizer/bpe.cpp:214-276 | the loops give the piece's ids |
| BpeTokenizer.EncodePlain | src/tokenizer/bpe.cpp:278-294 | the pieces partition the text and each is mapped and merged |
| BpeTokenizer.PlainIsReference | src/tokenizer/bpe.cpp:214-294 | the ids are those of the expression's pieces, each merged one pair at a time |
| BpeTokenizer.Encode | src/tokenizer/bpe.cpp:296-320 | added tokens are cut out first match first; the first-byte filter changes nothing |
| AddedTokens.Prefilter | src/tokenizer/bpe.cpp:302-316 | where the first-byte filter skips, no added token stands |
| BpeTokenizer.Decode | src/tokenizer/bpe.cpp:322-343 | the concatenation of what each id stands for |
| BpeTokenizer.RoundTrip | src/tokenizer/bpe.cpp:214-343 | decode of encode is the identity on every byte string without added tokens |
| BpeTokenizer.FaithfulWithSpecial | src/tokenizer/bpe.cpp:396-417 | the round trip's assumptions are met by a vocabulary with an added special token in it |
| SpmTokenizer.RankMergeIsMergeAll | src/tokenizer/spm.cpp:98-113 | merging all pairs of the best rank is merging every occurrence of one pair |
| SpmTokenizer.MergeLoop | src/tokenizer/spm.cpp:86-115 | the loop gives what merging pass by pass gives |
| SpmTokenizer.SplitChars | src/tokenizer/spm.cpp:21-37 | the characters, by lead byte |
| SpmTokenizer.UnmarkNormalize | src/tokenizer/spm.cpp:69-83 | marking spaces and unmarking gives text without markers back |
| SpmTokenizer.NormalizeText | src/tokenizer/spm.cpp:69-83 | a space becomes U+2581 in UTF-8 and no other byte changes |
| SpmTokenizer.ByteNameIs | src/tokenizer/spm.cpp:39-48 | a byte token's name is the byte in two upper-case hexadecimal digits, as <0xNN> |
| SpmTokenizer.EncodePlain | src/tokenizer/spm.cpp:69-118 | the ids of the normalized, merged segment with byte fallback |
| SpmTokenizer.Encode | src/tokenizer/spm.cpp:120-144 | added tokens are cut out first match first |
| SpmTokenizer.Decode | src/tokenizer/spm.cpp:146-175 | holding byte tokens back until the next text token keeps every id's text in order |
| SpmTokenizer.RoundTripExactly | src/tokenizer/spm.cpp:52-175 | on UTF-8 text without U+2581 and without added tokens, decode of encode is the identity exactly when every final symbol that carries a marker is a token |
| SpmTokenizer.RoundTrip | src/tokenizer/spm.cpp:52-175 | so it is for every such text when the marker, and every merge product that carries it, is a token |
| SpmTokenizer.FaithfulWithSpecial | src/tokenizer/spm.cpp:189-268 | the assumptions are met by a vocabulary with an added special token in it |
| GatedDelta.ReadsBack | src/model/qwen3_5.cpp:119-133 | the delta rule: reading the new state with the key just written gives the value mixed with the decayed old reading by beta times the key's squared length |
| GatedDelta.RealPosition | src/model/qwen3_5.cpp:119-238 | one real position: the channels are the taps over carried and new inputs; along each head's key the state mixes the decayed old reading with the value by that head's beta, across the key it only decays, by that head's decay; what is emitted is read from the new state with the query |
| GatedDelta.PaddedPosition | src/model/qwen3_5.cpp:136-142 | a padded position freezes the recurrence, enters the convolution as zeros and reads zeros |
| GatedDelta.LinearAttention | src/model/qwen3_5.cpp:164-238 | convolving over carried and new inputs and then recurring equals taking the positions one at a time |
| GatedDelta.Recur | src/model/qwen3_5.cpp:106-145 | the recurrence loop, frozen at padded steps, is the one-position step repeated |
| GatedDelta.RunSplit | src/model/qwen3_5.cpp:188-200 | a chunk boundary changes neither outputs nor state |
| GatedDelta.RunPadded | src/model/qwen3_5.cpp:177-200 | left padding leaves no trace in a layer's real outputs or final state |
| GatedDelta.HybridRow.Forward | src/model/qwen3_5.cpp:284-325 | the layer loop over carried states computes the stack on the chunk, masked by absolute position |
| GatedDelta.PaddingAndChunksDoNotShow | src/model/qwen3_5.cpp:284-325 | a left-padded row cut into any chunks gives at real positions, and as final state, what the unpadded sequence gives in one call, through any stack of linear and attention layers |
| SkinnyMatmul.LanesCover | src/model/skinny_matmul.cpp:17-40 | the lane-strided partial sums cover each term exactly once |
| SkinnyMatmul.OneColumn | src/model/skinny_matmul.cpp:17-40 | a simdgroup writes its column of the product and nothing else |
| SkinnyMatmul.TwoColumns | src/model/skinny_matmul.cpp:46-80 | a simdgroup writes its two columns, or the odd last one, and nothing else |
| SkinnyMatmul.Stage | src/model/skinny_matmul.cpp:110-119 | the threads' strided copies stage the whole chunk, rows past M as zeros |
| SkinnyMatmul.TileNext | src/model/skinny_matmul.cpp:120-131 | one tile multiply-accumulate adds the next eight terms of each of its cells |
| SkinnyMatmul.StoreTiles | src/model/skinny_matmul.cpp:133-143 | the lanes' strided stores write every real cell of the tile and no other |
| SkinnyMatmul.Threadgroup | src/model/skinny_matmul.cpp:95-144 | a threadgroup writes the product in its eight tiles' columns, tail tiles overlapping with equal values |
| SkinnyMatmul.Covered | src/model/skinny_matmul.cpp:175-210 | some group of the grid stores every column |
| SkinnyMatmul.Multiply | src/model/skinny_matmul.cpp:161-210 | for every shape the dispatcher sends here, in whatever order the groups run, y is x times w-transpose in every cell |

## Left out

- Tensor numerics (half precision, softmax, RoPE, quantization error), Metal execution and MLX laziness: cells, attention, logits and sampling are uninterpreted functions.
- Hash collisions: a block's key is the token prefix it hashes.
- Embedding and image requests, M-RoPE, the HTTP and SSE servers, metrics and logging.
- Hybrid models in the batched worker: their linear states are proved insensitive to padding and chunking in `GatedDelta`, but merging, filtering and dummy-padding those states is not modelled, and in `GatedDelta` a full-attention layer is any causal function of the row's own positions.
- The batch dimension in `GatedDelta`: one row, since every operation there acts on rows separately.
- Exceptions inside the worker's loop: none is thrown.
- Workers.Worker.Run: a cancellation is seen in some set of requests at each step, arrivals come between iterations and between two reads of the waiting queue at most as the events say, and no request is submitted after stop.
- BatchCache.BatchKVCache.Merge: both caches must have been written or be empty of rows, since the code reads the capacity off layer 0.
- BlockPools.BlockPool.Insert: block sizes are counted in cells, not bytes.
- Workers.Worker.HarvestFinished: which blocks a bounded pool without a lossless disk tier ends with is stated row by row, by `Harvest`, and not for all finished rows at once.
- PrefixCaches.PrefixCache.Match: a failing disk tier (failed writes, disk evictions, unreadable files) may make it shorter; which blocks fail, and when, is arbitrary.
- The worker's disk tier is a map that may lose anything at any time when it is not lossless; `SpillPath` shows what the store and the file format give for one hash, and the two are joined by that description and not by one theorem.
- Requests.GreedyGenerate: the single-sequence cache is taken as the next-token logits of everything fed so far.
- Consumers that stop popping before the end: `TokenStreams` covers consumers that drain both queues.
- Spurious wake-ups of condition variables.
- Files in the store's directory with foreign names, or two names of one hash; fsync; a failing directory scan.
- Parsing a schema document into keys and types: `JsonGrammars` starts from the extracted list.
- The long s (U+017F) that a full Unicode case-insensitive match of the contraction "'s" would also accept: the matcher and the modelled expression fold ASCII letters only.
- An added token with empty text: encoding it would not end, so `AddedTokens.LiteralsOk` assumes there is none.
- Loading tokenizers from JSON or GGUF: what loading establishes is stated as predicates.
- BpeMerge.PassesAreSteps: the order on the merge table is sufficient, not necessary.
- BpeTokenizer.Decode: the dense table and the map from letters to bytes are one map.
- SkinnyMatmul.Threadgroup: staging and multiplying run one after the other, as the kernel's barriers make them; the barriers themselves, and interleavings of threads between two of them, are not modelled.
- SkinnyMatmul.Multiply: groups of the grid run one after the other in an arbitrary order; since every store writes the product's own value, finer interleavings would store the same.
