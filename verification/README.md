# nanoembed, modelled and proved

nanoembed is a C++ library that turns texts into embedding vectors with GGUF encoder
models. This project models its five cores in Dafny and proves what each is for.

- **Tokenizer.** BPE merging over an index-linked symbol list with a priority queue of
  candidates, some stale, leaves what the plain rule leaves: merge the leftmost pair of
  lowest rank until no pair has a rule. What a loaded tokenizer encodes decodes
  to the same text. (`NaiveBpe`, `SymbolList`, `SpmBpe`, `Tokenizer`, `Utf8Text`,
  `Lossless`)
- **Paged merge index.** The cache file the library writes is one it accepts, and lookups
  through fences, an eight-slot page cache and a page agree with a plain map, down to the
  bytes. (`Bytes`, `Crc32`, `Sorting`, `MergeFile`, `MergeRecords`, `CacheImage`,
  `CreateCache`, `OpenCache`, `DiskMergeIndex`, `MergeCache`)
- **SHA-256.** The incremental hasher against FIPS 180-4, whose constants are proved to be
  the roots they are drawn from and whose rounds give the standard’s digest of "abc".
  (`Sha256Spec`, `Sha256Constants`, `Sha256Abc`, `Sha256`)
- **Streaming runner.** Page range algebra, the lease protocol over a mapped file under
  any interleaving and any advice failures, and the small compiler that cuts a layer into
  groups exchanging values through a slot store. Put together: a streaming request gives
  each text the vector the eager embedder gives it, computes each group while its pages are
  leased and advised, and gives its leases back. (`Ranges`,
  `Ledger`, `Residency`, `Leases`, `Slots`, `SlotRuns`, `Partition`, `Architectures`,
  `StreamingStack`, `StreamingForward`, `StreamingModel`, `StreamingContext`, `StreamingRun`)
- **Batching.** Plans, padded and packed layouts, attention and pooling: every sentence
  gets the vector it gets alone; and exactly when sorting pads least. (`Batch`, `Padding`,
  `PaddingLimit`, `Attention`, `GqaAttention`, `SoftmaxLaws`, `Pooling`, `Encoder`, `Embedder`,
  `UnitLength`)

`dafny verify dfyconfig.toml` checks everything.

How the model is set up:

- Classes with fields (`Hasher`, `LookupScratch`, `Index`, `SpmBpeTokenizer`, `Coordinator`,
  `Lease`, `SlotStore`, `Context`) and in-place buffers are classes and arrays here; loops are loops.
  A vector local to a function that is only assigned element by element is a sequence that
  the loop reassigns.
- `std::priority_queue` is a multiset from which a member no other comes before is taken;
  `std::sort`, `std::stable_sort` and `std::unique` are functions; hash maps are maps.
- The coordinator’s mutex makes each of its methods one step. What the system answers to
  advice, which reads fail and what bytes are on disk by then, which steps of a request
  fail, and what other contexts do in between are arguments, universally quantified.
- Layers are arbitrary: per token a projection to query, key and value, a score of two
  placed tokens, a value per head and component, and one function for everything after
  attention. For the two families these are made of the operators their builders call,
  which may mean anything. Arithmetic is exact; `exp` is any
  positive function, applied after subtracting the row maximum; minus infinity has weight 0.
  Normalization is any function of the pooled vector; `UnitLength` says what L2 makes of it.
- Integer widths matter in `PairKey`, the hasher’s byte counter, the range sums, the batch
  sizes and the partition’s running sum; each is written out.
- `advised`, `takers`, `returned`, `peak` and `asked` are ghost: bytes advised and not given
  back, who took each lease, which came back, the largest union of common and leased pages
  so far, and the lookups an index has answered. A refused DONTNEED may or may not have
  dropped its pages; the model drops them.
- A context notes in `computes`, a ghost list, every graph it computes: what for, under which
  lease, and how the coordinator stands at that moment.
- A request has a number of its own, which its leases carry in `takers`; other contexts take
  leases under other numbers. Two steps of the world go with each phase and one with the
  end; at each a step may throw, the system answers, and others run.
- The comment in `spm_bpe.cpp` that skips absorbed symbols while emitting is never needed:
  linked symbols always have ids that are not negative, so `Tokenizer.Emit` has no such test.
- The comment at `streaming_execution.cpp:402` calls a failed acquisition rolled back. The
  code keeps the advice given so far, and so does the model: `Residency.StrandedPage` is an
  input that shows it, `Residency.RefusedTake` says exactly when the accounts survive.
- The sorted plan pads least exactly when the batch size divides the number of texts, or
  exceeds it: `PaddingLimit.AlwaysLeastExactly`.

## Model

| member | source | states |
|---|---|---|
| NaiveBpe.Naive | src/tokenizer/spm_bpe.cpp:232-237 | The promised rule set out as a loop: what it leaves has no adjacent pair with a rule |
| NaiveBpe.BestFrom | src/tokenizer/spm_bpe.cpp:232-237 | Finds the leftmost pair of lowest rank: every other pair with a rule has a higher rank, or the same rank further right; answers nothing only if no pair has a rule |
| NaiveBpe.NaiveStep | src/tokenizer/spm_bpe.cpp:232-237 | One step of the promised rule may be taken at any position shown to be the best one |
| NaiveBpe.KeysOrdered | src/tokenizer/spm_bpe.cpp:50-53 | Keys of id pairs are ordered as the pairs are, left id first |
| SymbolList.FreshIsAdjacent | src/tokenizer/spm_bpe.cpp:259-262 | A popped candidate that passes the three staleness tests names two neighbouring live symbols |
| SymbolList.ServedIsBest | src/tokenizer/spm_bpe.cpp:232-238 | The first fresh candidate the queue serves is the pair the promised rule would merge, with that rule’s rank and result |
| SymbolList.DropStale | src/tokenizer/spm_bpe.cpp:259-262 | Dropping a stale candidate loses no live pair: every adjacent pair with a rule stays queued with its current ids |
| SymbolList.AbsorbKeepsLinks | src/tokenizer/spm_bpe.cpp:264-267 | The in-place writes of a merge leave live links strictly increasing, consistent both ways, with the absorbed symbol dead |
| SymbolList.AbsorbMerges | src/tokenizer/spm_bpe.cpp:264-267 | Those writes change the live id sequence exactly as replacing the pair by the merged id does |
| SymbolList.AbsorbKeepsQueue | src/tokenizer/spm_bpe.cpp:264-270 | After a merge every live pair with a rule is still queued, except the two pairs around the merged symbol, which are to be offered next |
| SymbolList.TopExists | src/tokenizer/spm_bpe.cpp:255-257 | A queue that is not empty has a member no other member comes before |
| SpmBpe.MergeStep | src/tokenizer/spm_bpe.cpp:255-270 | One served fresh candidate takes the list from one state of the promised rule to the next, leaving one live symbol fewer |
| SpmBpe.Offer | src/tokenizer/spm_bpe.cpp:241-251 | Pushes a candidate exactly when both neighbours exist and the on-disk index has a rule for their current ids, with one call of the index; fails only if its read failed |
| SpmBpe.OfferAll | src/tokenizer/spm_bpe.cpp:253-253 | After the seeding loop every adjacent pair that has a rule is queued, for at most n-1 lookups counted by the index |
| SpmBpe.MergeLoop | src/tokenizer/spm_bpe.cpp:255-271 | The queue loop ends (queue size plus twice the live symbols shrinks) with the ids the promised rule leaves, having merged exactly as often as symbols left the list, with two lookups per merge at most |
| SpmBpe.MergeAll | src/tokenizer/spm_bpe.cpp:253-271 | For every table and every n seeds: the live ids are exactly those of the promised rule, the list one symbol shorter per merge counted; at most n-1 merges, as the index counts them at most 3(n-1) lookups, and no more page reads than lookups; it fails only if a read failed |
| SpmBpe.RulesNonNegative | src/tokenizer/disk_merge_index.cpp:801-806 | Merged ids are vocabulary entries, so no merge can mark a live symbol as absorbed |
| Tokenizer.BuildVocabulary | src/tokenizer/spm_bpe.cpp:113-180 | Fails exactly when one of the five special ids is out of range, or some byte has neither a fallback token nor an unknown token; otherwise every text can be seeded, and the wrapper is what flags and ids say |
| Tokenizer.FromGguf | src/tokenizer/spm_bpe.cpp:98-181 | The loader: refuses empty or oversized vocabularies, merge lists with no usable rule and unusable vocabularies, nothing else; with a newly written cache every rule yields the concatenation of its operands |
| Tokenizer.SeedsInVocabulary | src/tokenizer/spm_bpe.cpp:199-214 | Every seed id of every byte string is a vocabulary entry, never negative, and a text that is not empty has seeds |
| Utf8Text.LeadTells | src/tokenizer/spm_bpe.cpp:20-28 | For every code point, the length read off its first UTF-8 byte is its length |
| Utf8Text.CharacterFound | src/tokenizer/spm_bpe.cpp:112-122 | Every token that is the UTF-8 form of one code point is found as that character |
| Utf8Text.TextSeeded | src/tokenizer/spm_bpe.cpp:199-213 | Any text of code points is seeded character by character: the first token that is the character, or for each of its bytes the last token naming the byte, or the unknown token |
| Utf8Text.NormalizeMeans | src/tokenizer/spm_bpe.cpp:308-313 | On code points: every space becomes U+2581 and nothing else changes |
| Utf8Text.ByteTokenMeans | src/tokenizer/spm_bpe.cpp:34-48 | A piece names byte b exactly when it is <0x, the two hexadecimal digits of b in either case, > |
| Tokenizer.SeedIds | src/tokenizer/spm_bpe.cpp:199-213 | The scanning loop yields the seeds of the recursive definition for any bytes, valid UTF-8 or not |
| Tokenizer.LinkSymbols | src/tokenizer/spm_bpe.cpp:216-220 | The built list is linked in order and carries the seed ids |
| Tokenizer.Emit | src/tokenizer/spm_bpe.cpp:273-279 | Walking the links appends the first min(budget, live) ids in order |
| Tokenizer.Bpe | src/tokenizer/spm_bpe.cpp:185-281 | Appends the first `budget` ids of the full merge of the text, in at most 3(n-1) lookups of the index and no more page reads than lookups; a failure is a failed read |
| Tokenizer.SpmBpeTokenizer.Encode | src/tokenizer/spm_bpe.cpp:295-323 | Prefix, then the first ids of the full tokenization that fit, then suffix; never longer than the limit; refuses exactly the limits below the wrapper |
| Tokenizer.NaiveKeepsText | src/tokenizer/spm_bpe.cpp:253-271 | If each rule yields the concatenation of its operands, merging never changes the concatenated text |
| Tokenizer.CreatedRulesConcatenate | src/tokenizer/disk_merge_index.cpp:600-608 | Every rule of a created cache that two tokens can meet does yield their concatenation |
| Tokenizer.RoundTrip | src/tokenizer/spm_bpe.cpp:199-271 | Where every character is a token, the pieces of the ids spell exactly the text that was encoded |
| Tokenizer.ByteRoundTrip | src/tokenizer/spm_bpe.cpp:199-271 | With byte tokens decoded to their bytes, any text whose characters are tokens or spelled by byte tokens comes back, for rule tables that neither take nor make a byte token |
| Tokenizer.EveryTextRepresentable | src/tokenizer/spm_bpe.cpp:169-178 | With a token for every byte that is every text, valid UTF-8 or not |
| Lossless.CreatedRulesPlain | src/tokenizer/disk_merge_index.cpp:600-608 | When no usable merge line takes or makes a byte token, no rule of the cache written from the lines does |
| Lossless.NothingLost | src/tokenizer/spm_bpe.cpp:185-281 | With one id allowed per byte the budget cuts nothing, and the ids of a representable text decode to it |
| Lossless.EncodeLossless | src/tokenizer/spm_bpe.cpp:295-323 | A tokenizer loaded with a newly written cache, given a representable text and a limit large enough: unless a page read fails, what stands between prefix and suffix decodes to the normalized text |
| MergeFile.Scan | src/tokenizer/disk_merge_index.cpp:783-795 | A plain map’s answer: the first record of the key, nothing exactly when no record has it |
| DiskMergeIndex.LowerBound | src/tokenizer/disk_merge_index.cpp:783-792 | On a page of sorted keys the loop stops at the first record not below the key |
| DiskMergeIndex.SearchPage | src/tokenizer/disk_merge_index.cpp:783-795 | A hit is a record with that key; on a sorted page a miss means no record has it |
| DiskMergeIndex.Index.FencePage | src/tokenizer/disk_merge_index.cpp:740-743 | The page whose key range holds the key |
| DiskMergeIndex.Index.ReadPage | src/tokenizer/disk_merge_index.cpp:753-781 | A slot is named only once its bytes passed the structural checks; a slot that names a page holds that page, after failed reads too |
| DiskMergeIndex.Index.Find | src/tokenizer/disk_merge_index.cpp:738-808 | One lookup counted, at most one page read. Whatever the slots hold by now, a successful lookup equals a scan of all records, and it fails only when its own read failed; an id outside the vocabulary is never returned, even from bytes edited after load |
| DiskMergeIndex.FindEach | src/tokenizer/disk_merge_index.cpp:738-808 | Any sequence of lookups through one eight-slot cache, any of whose reads may fail: each answer given equals the scan |
| DiskMergeIndex.PagesOrdered | src/tokenizer/disk_merge_index.cpp:521-556 | In an accepted file an earlier page’s records lie below a later page’s first key |
| DiskMergeIndex.PageDecides | src/tokenizer/disk_merge_index.cpp:739-795 | The answer of the one page whose range holds the key is the answer of the whole file |
| OpenCache.CheckHeader | src/tokenizer/disk_merge_index.cpp:466-498 | The overflow-guarded tests accept exactly the headers whose magic, constants, digest, counts, offsets and file size agree |
| OpenCache.CheckRecords | src/tokenizer/disk_merge_index.cpp:537-553 | Passes exactly the pages whose keys increase from the previous page on, start at the fence key and name tokens of the vocabulary |
| OpenCache.OpenValidated | src/tokenizer/disk_merge_index.cpp:427-571 | Accepts a file if and only if it meets the whole format: header, checksum, fences, page CRCs, strict order, vocabulary range and record count |
| MergeRecords.CollectRecords | src/tokenizer/disk_merge_index.cpp:583-609 | The loop with its token map collects one record per line whose operands and concatenation are tokens |
| MergeRecords.ResolveMeans | src/tokenizer/disk_merge_index.cpp:591-604 | A line resolves to ids exactly when it is their two tokens with a space between, the left one without a space, the two put together are a token, and the ids are first ids |
| MergeRecords.SortKeeps | src/tokenizer/disk_merge_index.cpp:615-617 | Sorting by key and rank keeps the records and, for every key, the record a scan meets first |
| MergeRecords.UniqueScans | src/tokenizer/disk_merge_index.cpp:618-622 | Dropping repeated keys changes no answer |
| MergeRecords.UniqueSorts | src/tokenizer/disk_merge_index.cpp:618-622 | What is left has strictly increasing keys |
| MergeRecords.RawScans | src/tokenizer/disk_merge_index.cpp:591-609 | Scanning the collected list finds the lowest-index line that resolves to the pair, and nothing exactly when no line does |
| Bytes.UnleLe | src/tokenizer/disk_merge_index.cpp:60-85 | Reading back a little-endian integer that was written gives that integer |
| Bytes.ReadLe | src/tokenizer/disk_merge_index.cpp:60-71 | The byte loop computes the little-endian value of the slice |
| Bytes.WriteLe | src/tokenizer/disk_merge_index.cpp:73-85 | Overwrites exactly n bytes with the integer’s little-endian form |
| Bytes.LeDigits | src/tokenizer/disk_merge_index.cpp:60-85 | Byte i of a stored integer is its digit of weight 256 to the i |
| Crc32.CheckValue | src/tokenizer/disk_merge_index.cpp:99-117 | The CRC of the nine bytes 123456789 is the check value CBF43926 |
| CacheImage.PageDecodes | src/tokenizer/disk_merge_index.cpp:644-655 | A page image decodes to its count, first key, matching CRC and records |
| CacheImage.ImageAccepted | src/tokenizer/disk_merge_index.cpp:624-672 | A file laid out for sorted records is accepted, and its records are exactly those |
| CreateCache.WritePage | src/tokenizer/disk_merge_index.cpp:644-655 | The writes into the zeroed buffer leave exactly that page image at its place and nothing else changed |
| CreateCache.WritePayload | src/tokenizer/disk_merge_index.cpp:633-656 | The fence and page loops fill the whole payload |
| CreateCache.WriteHeader | src/tokenizer/disk_merge_index.cpp:659-672 | The header buffer holds every field at its offset |
| CreateCache.Create | src/tokenizer/disk_merge_index.cpp:573-672 | Fails exactly when no merge line is usable; otherwise the bytes are accepted and hold the sorted, deduplicated rules |
| MergeCache.CreatedAnswers | src/tokenizer/disk_merge_index.cpp:581-622 | For every key, present or absent, the created file answers the lowest-index merge line that resolves to it |
| MergeCache.AnswersBoth | src/tokenizer/disk_merge_index.cpp:591-622 | The same said without resolving: the first line about the two tokens decides, its number is the rank, and the token of the two put together is the result |
| MergeCache.LineAnswered | src/tokenizer/disk_merge_index.cpp:591-622 | Every line about two tokens has a rule for the pair, no later than the line, yielding the two put together |
| MergeCache.TagsSpell | src/tokenizer/disk_merge_index.cpp:171-172 | The tags and the file mark spell their names |
| MergeFile.FileSays | src/tokenizer/disk_merge_index.cpp:466-498 | An accepted file in numbers: its mark, version 1, pages of 4096 bytes, 255 records of 16 bytes to a page, where the fences and pages lie, and its length |
| MergeFile.RecordLies | src/tokenizer/disk_merge_index.cpp:783-796 | Where in the file record j of page i stands, and its three fields |
| MergeFile.Int32Means | src/tokenizer/disk_merge_index.cpp:797-798 | A rank or token is the signed 32-bit number congruent to the stored word |
| MergeCache.DigestInputInjective | src/tokenizer/disk_merge_index.cpp:163-193 | Different vocabularies or merge lists never feed the same bytes to the content hash |
| MergeCache.TokenizerDigest | src/tokenizer/disk_merge_index.cpp:169-193 | The digest is the FIPS 180-4 hash of those bytes |
| MergeCache.Load | src/tokenizer/disk_merge_index.cpp:695-736 | Sizes admitted, a cached file is reused if and only if it validates under the content digest; otherwise the created one validates and answers for every key what the lines themselves say; refused exactly for sizes, or when no line says anything |
| Sha256.Hasher.Transform | src/tokenizer/sha256.cpp:54-87 | The in-place schedule and rounds compute the compression of section 6.2.2 of FIPS 180-4 |
| Sha256.Hasher.Update | src/tokenizer/sha256.cpp:89-115 | Topping up, whole blocks straight from the input and the leftover together take in exactly the new bytes; refused after finish |
| Sha256.Hasher.Finish | src/tokenizer/sha256.cpp:117-139 | Returns the FIPS 180-4 hash of everything fed so far, once |
| Sha256.BigEndianWraps | src/tokenizer/sha256.cpp:41-46 | The 64-bit wrap of the byte counter loses nothing the length field keeps, at any message length |
| Sha256.HashChunks | src/tokenizer/sha256.cpp:89-139 | However a message is cut into updates, finish returns the hash of the whole |
| Sha256Constants.ConstantsAre | src/tokenizer/sha256.cpp:11-28 | Each of the 64 round constants is the first 32 bits of the fraction of the cube root of its prime, each initial word that of the square root |
| Sha256Constants.ChMeans | src/tokenizer/sha256.cpp:54-87 | Ch takes y where x has ones and z elsewhere |
| Sha256Constants.MajMeans | src/tokenizer/sha256.cpp:54-87 | Maj keeps what x and y agree on and takes z where they differ |
| Sha256Constants.RotrMeans | src/tokenizer/sha256.cpp:30-32 | Rotation moves the low n bits to the top and the others down |
| Sha256Abc.AbcHash | tests/unit/tokenizer_test.cpp:392-402 | The hash of abc is the digest the standard gives, worked out through all 64 rounds |
| Ranges.CanonicalUnique | src/streaming_execution.cpp:145-157 | A set of bytes has one sorted list of maximal runs |
| Ranges.PowersOfTwo | src/streaming_execution.cpp:117-119 | The page sizes accepted are exactly the powers of two |
| Ranges.HullIsPages | src/streaming_execution.cpp:124-136 | Masking down and padding up give exactly the bytes on the pages a range touches, clipped to the mapping |
| Ranges.PageAlignAndCoalesce | src/streaming_execution.cpp:113-159 | Accepts exactly the sane requests; the result is the sorted list of maximal page runs covering just the pages touched |
| Ranges.CoalescedUnique | src/streaming_execution.cpp:113-159 | The result depends only on which pages are touched |
| Ranges.CoalescedIdempotent | src/streaming_execution.cpp:113-159 | Aligning and coalescing the result again gives it back |
| Ranges.SubtractOne | src/streaming_execution.cpp:72-86 | The cursor loop leaves of one range exactly what sorted guards do not cover, in order |
| Ranges.SubtractRanges | src/streaming_execution.cpp:67-88 | Against sorted, separated guards: exact set difference, and again a list of maximal runs when the source was one |
| Ranges.TokenRowRanges | src/streaming_execution.cpp:161-191 | Accepts exactly the rows inside the table and the mapping; the result is the page hull of the requested rows, repeats or not |
| Ranges.RowsTile | src/streaming_execution.cpp:161-192 | Rows follow one another from the start of the tensor, one stride each |
| Ranges.CountIsSize | src/streaming_execution.cpp:59-65 | Summing lengths of separated runs counts the bytes they cover |
| Ledger.AcquiredOk | src/streaming_execution.cpp:403-407 | Recording a lease keeps every count equal to the leases held under its key, and each lease’s ranges among its key’s pending ones |
| Ledger.ReleasedOk | src/streaming_execution.cpp:433-446 | So does taking one off, and no key gives its pending ranges up before its last lease |
| Ledger.ReleasedOwes | src/streaming_execution.cpp:433-446 | A release stops owing only pages of the pending list it hands back |
| Ledger.LeaseOwed | src/streaming_execution.cpp:403-407 | Every page of an active lease is pending under a key with a live lease |
| Residency.Coordinator.CurrentAdvisedBytes | src/streaming_execution.cpp:322-332 | Coalesce, subtract common and sum: together with common, the size of the union of common and all leased pages |
| Residency.Coordinator.RetainCommon | src/streaming_execution.cpp:384-392 | Succeeds if and only if nothing is common yet and every advice call is granted; what was advised before a refusal stays advised; the invariant holds either way |
| Residency.Coordinator.Acquire | src/streaming_execution.cpp:394-420 | Succeeds if and only if there are ranges, the coordinator is not poisoned and every advice call is granted; books, counters and advised bytes are then, and after a refusal, exactly as stated; the invariant holds either way |
| Residency.Coordinator.Release | src/streaming_execution.cpp:422-466 | Gives back the unprotected pages of the last lease’s pending list, run by run until a call is refused; refuses and poisons when released early; a failure of advice is a refused call; every counter stated |
| Residency.GivesBackUnique | src/streaming_execution.cpp:443-460 | There is one list of runs a release can give back, so the step a release takes is determined |
| Residency.LeftIsReturnable | src/streaming_execution.cpp:443-456 | Pending pages less common and leased pages, as computed, are exactly the pages nobody protects |
| Residency.ReleasedLast | src/streaming_execution.cpp:443-465 | After the last lease of a key is given back, protected pages are still advised, also when a call fails half way; with no failure every other advised page is still pending somewhere |
| Residency.Run | src/streaming_execution.cpp:384-466 | Any operations in any order with any answers: pages of common and of active leases are advised at every moment, no release touches them, each lease comes back at most once and acquired is released plus active; as long as every call asked for is granted, every other advised page is pending under a live key and with no leases exactly common is advised; the byte high water is the largest union ever held |
| Residency.GrantedStep | src/streaming_execution.cpp:345-358 | An operation the system grants everything adds no failure and poisons nothing, unless it releases early |
| Residency.RefusedTake | src/streaming_execution.cpp:402-404 | After an acquisition refused at call k the accounts hold if and only if every page of the first k ranges was common or owed already |
| Residency.RefusedRetain | src/streaming_execution.cpp:387-388 | So for refused common ranges: what they left advised must be owed |
| Residency.StrandedPage | src/streaming_execution.cpp:402-404 | Two pages on a fresh coordinator, the second call refused: the first page stays advised and nobody owes it |
| Partition.PartitionRuns | src/streaming_execution.cpp:256-302 | Every preset: non-empty runs that cover the units, or the named error; budgets saturate as the C library does |
| Partition.DecimalReads | src/streaming_execution.cpp:277-285 | The number of a budget preset is the number its digits write |
| Partition.DecimalWrites | src/streaming_execution.cpp:277-285 | And a numeral without leading zeros is the only one of its number |
| Partition.StagePartition | src/streaming_execution.cpp:268-275 | Runs of equal stages that cannot be longer |
| Partition.StageRunsUnique | src/streaming_execution.cpp:268-275 | The stages of the units leave one such cut only |
| Partition.GreedyAhead | src/streaming_execution.cpp:284-298 | No other cut within budget uses fewer runs than the exact greedy rule, and one with as many opened its last run no later |
| Partition.BudgetKept | src/streaming_execution.cpp:286-297 | With 64-bit sums the runs keep the budget if and only if no sum the rule looks at passes 64 bits and comes back under it; then they are the exact rule’s runs |
| Partition.FewestRuns | src/streaming_execution.cpp:284-298 | Whenever sums do not come back under the budget: each run is a single unit or within budget, and no other such cut has fewer runs |
| Partition.WrapBreaksBudget | src/streaming_execution.cpp:290-292 | Two units of 2^63 bytes under a budget of one byte land in one run |
| Partition.SmallSumsKeep | src/streaming_execution.cpp:286-297 | Layers whose bytes together fit 64 bits never meet that case |
| Slots.Imports | src/streaming_execution.cpp:217-227 | Exactly the slots a run reads before it writes them, each once |
| Slots.Exports | src/streaming_execution.cpp:229-239 | Exactly the slots a run writes that a later run or the layer’s result needs, each once |
| Slots.ResolveGroupSlots | src/streaming_execution.cpp:204-254 | Succeeds exactly when the runs are non-empty, cover the units, and each writes something needed; then every group’s slots are what crosses its boundary |
| SlotRuns.Track | src/streaming_execution.cpp:745-780 | For units that compute anything: a view holding all a run imports behaves like the full environment, error included |
| SlotRuns.MissingImport | src/streaming_execution.cpp:579-583 | A group whose import was never produced fails, and so do its units run one by one |
| SlotRuns.GroupAgrees | src/streaming_execution.cpp:698-823 | Loading inputs, running members and storing outputs agrees with running the units one by one on every slot that still matters |
| SlotRuns.RunGroup | src/streaming_execution.cpp:698-823 | Stores nothing unless every member ran and every declared output exists |
| SlotRuns.RunNext | src/streaming_execution.cpp:1228-1242 | One group of a layer keeps the store in step with the units one by one, and fails exactly when they do |
| SlotRuns.RunLayer | src/streaming_execution.cpp:1226-1250 | For every cut that covers the layer, every slot contents and every meaning of the units: succeeds exactly when the units one by one do, with the same value in the output slot; a define-before-use layer never reads an unproduced slot |
| SlotRuns.DependsOnInput | src/streaming_execution.cpp:933-950 | A define-before-use layer’s result depends on its input slot alone, whatever earlier layers left in the others |
| SlotRuns.SlotStore.InvalidateAll | src/streaming_execution.cpp:558-563 | No slot keeps a readable value |
| Architectures.SameBuild | src/streaming_execution.cpp:1003-1012 | For any meaning of the operators, a unit builds in its group, given what its members’ flags ask for, what it builds in the one eager graph |
| Architectures.GemmaLayer | src/arch/gemma3_arch.cpp:263-289 | The Gemma 3 layer, one operator after another: gate before up |
| Architectures.BertLayer | src/arch/bert_arch.cpp:143-187 | The BERT layer, one operator after another |
| Architectures.GraphEnds | src/arch/gemma3_arch.cpp:297-316 | Gemma 3 ends with the final norm; BERT embeds positions and types and ends with its last layer |
| StreamingStack.BertBlock | src/arch/bert_arch.cpp:109-187 | For any meaning of the operators, the four BERT units in turn leave the block’s value in the residual slot |
| StreamingStack.GemmaBlock | src/arch/gemma3_arch.cpp:324-432 | For any meaning of the operators, the eight Gemma 3 units in turn leave the block’s value in the residual slot |
| StreamingStack.PlanDefines | src/arch/gemma3_arch.cpp:324-432 | Both plans write every slot before they read it |
| StreamingStack.PlanRunsUseful | src/streaming_execution.cpp:246-249 | However the plans are cut, no group is refused as useless |
| StreamingStack.StageCut | src/arch/gemma3_arch.cpp:324-432 | Cut by stage, a Gemma 3 layer is four units and four, and a BERT layer two and two |
| StreamingStack.StreamLayer | src/streaming_execution.cpp:1226-1250 | A layer cut any way that covers it puts the eager block’s value in the residual slot |
| StreamingStack.Stream | src/streaming_execution.cpp:1226-1250 | For BERT and Gemma 3, every layer count, known preset, weight size and meaning of the operators: the streamed stack gives the eager graph’s value; unknown presets are refused |
| StreamingStack.StreamGraph | src/streaming_execution.cpp:1226-1250 | With the operators read as graph nodes: the streamed stack builds the very graph the eager builder builds |
| Batch.MakePlan | src/batch.cpp:26-55 | Fails exactly when max_batch is not positive or a text has no tokens, naming the first failure; otherwise every text has exactly one place, shorter first, ties in caller order |
| Batch.PlanUnique | src/batch.cpp:45-48 | That order leaves only one plan |
| Batch.SubbatchBounds | src/batch.cpp:22-24 | Sub-batches are non-empty and tile the plan |
| Batch.LayOut | src/batch.cpp:73-158 | The nested loops fill the grid, masks, scales, indices and packed view as described cell by cell; valid plus padding is S times B; refused exactly when a size does not fit the machine’s integers |
| Batch.Materialize | src/batch.cpp:57-166 | The slice of the plan, laid out, or the named error |
| Batch.PadInVocabulary | src/batch.cpp:65-65 | The padding id is a vocabulary id, the given one when it can be |
| StreamingRun.GridInVocabulary | src/batch.cpp:65-90 | So every id whose row a sub-batch asks for is in the vocabulary when the texts’ ids are |
| Batch.PackedSlice | src/batch.cpp:101-125 | Slicing the packed tokens by consecutive offsets gives each unpadded row, with positions restarting at 0 |
| Batch.LastIndexHits | src/batch.cpp:142-148 | Each LAST index points at its sentence’s final real token |
| Padding.SortedIsBest | src/batch.cpp:45-48 | When the number of texts is a multiple of max_batch, no way of grouping them in groups of that size pads less than the sorted plan |
| Padding.GroupsHold | src/batch.cpp:67-80 | k groups of m texts hold at most m times k texts as long as the t they reach |
| Padding.SortedGroupsFew | src/batch.cpp:67-80 | In sorted order no length is reached by more groups than its texts fill |
| Padding.WasteIsPadding | src/batch.cpp:102-103 | The waste compared is the padding a laid-out sub-batch reports |
| PaddingLimit.AlwaysLeastExactly | src/batch.cpp:45-80 | For n texts in batches of m: no division into as many groups of at most m pads less than the sorted plan, whatever the lengths, if and only if m divides n or n is below m |
| PaddingLimit.Apart | src/batch.cpp:22-24 | Otherwise n mod m texts of one token and the others of two can be divided with no padding at all |
| Padding.NotWhenUneven | src/batch.cpp:22-24 | Lengths 1, 5, 5 in twos: the sorted plan pads four cells, another grouping none |
| Attention.SoftmaxTrailing | src/forward/gqa_attention.cpp:104-156 | Masked keys after the real ones change no weight, with the row maximum subtracted first and any positive exp |
| SoftmaxLaws.SoftmaxDistributes | src/forward/gqa_attention.cpp:104-156 | The weights of a row with a finite score are a distribution, 0 exactly at masked keys, in proportion to the exponentials of the scores less their greatest |
| SoftmaxLaws.SoftmaxOnly | src/forward/gqa_attention.cpp:104-156 | No other list has these properties |
| SoftmaxLaws.AttendMeans | src/forward/gqa_attention.cpp:104-156 | A token shares its attention over the keys it sees in just that way, and each component of a head is the values shared so |
| SoftmaxLaws.AttendBetween | src/forward/gqa_attention.cpp:104-156 | A component a token gets lies between the least and the greatest value it sees |
| Attention.WindowIsAlone | src/forward/gqa_attention.cpp:145-160 | A real token of a masked window attends to what it attends to in its sentence alone, causal or not |
| GqaAttention.PartsStart | src/forward/gqa_attention.cpp:118-144 | Each part starts where its sentence lies and together they fill the result: packed slices and re-padded windows tile the destination |
| GqaAttention.PerSentence | src/forward/gqa_attention.cpp:69-144 | Fails exactly on a length outside the window; otherwise every cell of the uninitialised destination is written, each with its sentence’s own attention |
| GqaAttention.PerSentenceHolds | src/forward/gqa_attention.cpp:69-144 | Padded or packed, each real token gets its sentence’s own attention |
| GqaAttention.WindowedHolds | src/forward/gqa_attention.cpp:145-160 | In the masked form padded cells never reach a real token |
| GqaAttention.Core | src/forward/gqa_attention.cpp:25-166 | Chooses the form as the lengths and offsets say; refuses rotation without positions |
| SoftmaxLaws.CoreBetween | src/forward/gqa_attention.cpp:25-166 | In every form, padded or packed, masked or per sentence, a component the core gives a token lies between the least and the greatest value of the keys shown to it |
| Pooling.MaskedMeanIsMean | src/forward/pool.cpp:35-45 | Masked mean with 1/length is the mean of the real tokens |
| Pooling.MeanOfEqual | src/forward/pool.cpp:10-45 | The mean of equal vectors is that vector |
| Pooling.MeanMoves | src/forward/pool.cpp:10-45 | Every vector counts the same: moving one component moves the mean by its share |
| Pooling.GridPoolIsAlone | src/forward/pool.cpp:109-124 | Mean, CLS and LAST over a grid are those of each sentence alone |
| Pooling.PackedPool | src/forward/pool.cpp:57-98 | Fails exactly on a slice out of range; otherwise pools each slice as a sentence alone |
| Encoder.LayerHolds | src/arch/gemma3_arch.cpp:263-289 | One layer keeps every real token equal to what its sentence alone gives it |
| Encoder.BuildGraph | src/arch/gemma3_arch.cpp:297-305 | So do any number of layers, between embedding and final phase |
| Embedder.GridDescribes | src/embedder.cpp:143-182 | The inputs chosen for a dense, padded or per-sentence batch describe its sentences and hide the padding |
| Embedder.PackedDescribes | src/embedder.cpp:116-140 | The inputs chosen for a packed batch describe its sentences |
| Embedder.RunBatch | src/embedder.cpp:102-192 | Whichever layout is chosen, each row is the sentence’s embedding alone |
| Embedder.EmbedOne | src/embedder.cpp:306-372 | A single text is embedded as a batch of one |
| UnitLength.EmbeddingUnit | src/forward/pool.cpp:126-128 | With normalization asked for, the embedding points where the pooled vector does, and has length one unless that was shorter than the least divisor; without, it is the pooled vector |
| UnitLength.Similarity | src/forward/pool.cpp:126-128 | The dot product of two normalized embeddings lies between -1 and 1 |
| Embedder.EmbedBatch | src/embedder.cpp:374-457 | Succeeds exactly when every text has tokens and every sub-batch fits; each caller row is then written once, with its own text’s embedding; rows not written, also when it fails, keep what they held, and those written are right |
| StreamingForward.BlockIsLayer | src/arch/gemma3_arch.cpp:263-289 | On activations, a block built from lifted per-token operators and the batch’s attention is one layer of the encoder, for both families |
| StreamingForward.GraphMatches | src/streaming_execution.cpp:1135-1141 | The layout a sub-batch is given is the one its groups’ inputs are resolved for |
| StreamingForward.ActivationNext | src/streaming_execution.cpp:1226-1250 | Layer after layer every sentence’s tokens hold what the layers so far make of it alone, whatever the layout |
| StreamingForward.FinalRows | src/streaming_execution.cpp:1252-1310 | Final norm, the pool chosen for the layout and normalization give each sentence its embedding alone |
| StreamingModel.PlanLayer | src/streaming_execution.cpp:980-1026 | A layer loads exactly under a known preset; every group then leases just the pages its units’ weights lie on, never none |
| StreamingModel.Load | src/streaming_execution.cpp:879-1053 | A loaded model has every layer cut, resolved and leasable, and a coordinator that has retained the common pages in coalesced form |
| Leases.Lease.Release | src/streaming_execution.cpp:503-508 | Gives the lease back once, as the coordinator states; a second call does nothing |
| Leases.Elsewhere | src/streaming_execution.cpp:384-466 | Whatever other contexts do in between, this request’s lease stays on the books, nothing is taken in its name, and what came back stays back |
| Leases.BeginPhase | src/streaming_execution.cpp:1157-1158 | A denied lease leaves everything this request took given back; a granted one is the only lease it holds; where nothing is refused it is denied only for having no pages or a poisoned coordinator |
| Leases.EndPhase | src/streaming_execution.cpp:1212-1219 | Whether the phase computed or threw, the lease is off the books, taken off once |
| StreamingContext.Context.RunEmbedding | src/streaming_execution.cpp:1160-1211 | The token lookup fills the residual slot, and the moment it is computed is noted |
| StreamingContext.Context.RunGroup | src/streaming_execution.cpp:698-823 | A group is run as the slot store states, and the moment it is computed is noted |
| StreamingContext.HeldCovers | src/streaming_execution.cpp:1232-1239 | What is computed while a lease is held finds every page of the lease, and of common, advised |
| StreamingContext.RanStill | src/streaming_execution.cpp:1117-1250 | Graphs computed in turn, each under its own lease, stay so when phases follow one another |
| StreamingContext.WeightsStay | src/streaming_execution.cpp:1226-1246 | At the moment a group is computed, every page its units’ weights lie on is advised |
| StreamingContext.RowsStay | src/streaming_execution.cpp:1150-1212 | At the moment tokens are looked up, every page of their rows is advised |
| StreamingRun.LeasedGroup | src/streaming_execution.cpp:1230-1246 | A group keeps the store in step, is computed once, at a moment when this request’s lease is active on exactly its pages and all of them are advised, and gives the lease back; it stops for a reason, and where nothing is refused only for a fault or an empty lease |
| StreamingRun.LeasedLayers | src/streaming_execution.cpp:1226-1250 | All groups of all layers, leases and other contexts in between, leave the activation of the whole stack |
| StreamingRun.RunSubbatch | src/streaming_execution.cpp:1117-1311 | Embedding, layers and final phase under leases give each sentence of a sub-batch the embedding it gets alone |
| StreamingRun.RunPlan | src/streaming_execution.cpp:1117-1320 | Stops at the first step that throws, with every lease back; goes through exactly when the plan is ready, where the system refuses nothing |
| StreamingRun.EmbedBatch | src/streaming_execution.cpp:1094-1327 | For every step that may fail, every preset and cut, and any interleaving: the graphs computed are those of the plan in turn, or a first part of them, each while this request’s lease is active on exactly the pages it reads and all are advised; each text’s row is the embedding the eager embedder gives it, or all rows are NaN, or untouched when planning failed; every lease taken in this request’s name came back exactly once and, undisturbed, the active leases are the old ones and acquired and released grew alike; a stop has its stated reason, and where nothing is refused success is exactly readiness; only a refused DONTNEED can have poisoned the coordinator |

## Left out

- Residency.Coordinator.Release: the key is the one the lease was acquired under, as every lease passes it; the accounting-underflow branch is then never taken.
- Residency.Coordinator.Acquire: ranges lie within the mapping, as the page planner returns them; class and token byte statistics and page counts are not kept.
- Residency.Coordinator.RetainCommon: ranges lie within the mapping, as the page planner returns them.
- Tokenizer.FromGguf: reading keys and arrays out of the GGUF file.
- Tokenizer.Bpe: bytes on disk stay those that were validated; for edited bytes `DiskMergeIndex.Index.Find` states what is left, ids within the vocabulary.
- MergeCache.Load: a reused file answers what it holds; that a valid file under the digest holds this vocabulary’s rules would need collision resistance. Racing creators are left out.
- StreamingRun.EmbedBatch: counters of copied bytes, and graph re-planning; a step that throws is a step, wherever in it the exception came from.
- StreamingModel.Load: group keys are given as a function of layer and units; tensor lookup and the check that every tensor is classified once are not modelled.
- Embedder.EmbedBatch: an architecture asks for positions when a layer rotates, takes the packed layout only without learned positions and types, and takes a mask or lengths or looks only back, as both families do.
- Embedder.RunBatch: failures of graph allocation and compute are left out here; the streaming request has them.
- Batch.MakePlan: a failing tokenizer is an encoder that answers nothing.
- Batch.Materialize: plans are as the planner builds them, sorted and with no empty item.
- Batch.LayOut: so are the items of a sub-batch; with an empty or overlong row the source’s unsigned differences wrap.
- GqaAttention.PerSentence: offsets tile the packed tokens, as every packed batch’s do.
- GqaAttention.Core: offsets tile the packed tokens and masks show each query its first key, as every batch the library lays out does.
- Slots.ResolveGroupSlots: the order of a group’s slots, which affects no value.
- SlotRuns.SlotStore.InvalidateAll: tensor shapes, the F32 check and retained buffer capacity.
- StreamingStack.Stream: slot names are already numbers; tensors classified twice or not at all are refused at load and not modelled.
- Ranges.PageAlignAndCoalesce: bit masks of power-of-two pages are written with remainders.
- Floating-point rounding and quantised kernels, ggml and GGUF internals, RoPE and RMSNorm numerics.
- File opening, mapping, durable writes, atomic renames, cache directories and environment variables.
- Allocation failure inside the library’s own bookkeeping, and lengths beyond what one process can address.
- WordPiece, the C API, metadata scanners, the mapped weight store, benchmarks and tools.
- Moving a lease to another owner, and the 64-bit wrap of lease ids.
- Texts longer than 2^31 bytes, whose symbol positions would not fit the source’s int.
