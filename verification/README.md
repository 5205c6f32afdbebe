# Verified model of the Scuffle libraries

This project models the parts of the repository that carry hard guarantees and proves those
guarantees for all inputs, runs and interleavings.

| module | what it models |
|---|---|
| `DataLoader`, `DataLoaderBatching`, `DataLoaderProgress`, `Batcher`, `BatcherFilling`, `BatcherProgress`, `BatchTimer`, `Semaphore` | request batching: the lock-guarded open batch, the timer loop, the semaphore, once-cells and reply channels |
| `Context`, `ContextProgress` | the shutdown protocol: active count, stopped flag, notifier, two-step drops |
| `Features`, `Permutations`, `PackageFeatures`, `PackageSets`, `PermutationExamples` | enumeration of feature sets: reachability, the pruned search, the whole of `test_package_features`, and two inputs on which the search misses sets |
| `Bits`, `Positions`, `BitReader`, `BitWriter`, `BitPrograms` | bit-level input and output |
| `ExpGolomb`, `Leb128` | variable-length codes |
| `Layouts`, `Hevc`, `Avc`, `Av1` | decoder configuration records |
| `Wire`, `HevcWire`, `AvcWire`, `Av1Wire` | their formats, bit by bit, for what is written and for what is read |
| `Amf0`, `Amf0Wire` | AMF0 values, encoder and decoder, and the format of every spelling |
| `Transmuxer`, `TransmuxerProgress` | the tag queue, the track clocks, the duration rule, and what each call must do |
| `Sps` | removal of emulation prevention bytes |

Concurrent code is a state machine over the steps between await points (or, for atomics, over
single operations); a run is any finite sequence of step requests, so a theorem about a run is a
theorem about every interleaving. Code that updates objects or buffers in place is a class or a
method with loops, proved against a pure function, and the guarantees are proved of that function.

Places where the code does less than its own words suggest:

- `Handler::wait` (crates/context/src/lib.rs:259-264) promises to return once all contexts are
  done even if the handler is not. The notifier only fires when `stopped` is set, so it can stay
  blocked for good: `Context.PlainWaitCanHang`, `Context.LostStaysLost`.
  `Context.SafeExactlyWhenStopped` gives the exact condition.
- A `shutdown` can return although a context was alive throughout (`Context.RevivalBreaksIt`);
  `Context.ReturnSeesZeroExactly` gives the exact condition.
- `find_permutations` with a size limit misses sets within the limit, and with self-dependent
  features it misses sets at the default limit: `PermutationExamples`. The results of
  `Permutations` say when it does not.
- `AV1CodecConfigurationRecord::mux` writes zeros where `demux` reads `hdr_wcg_idc`
  (crates/av1/src/config.rs:144): `Av1.RoundTripExactly` gives the exact condition.
- The loop at crates/h264/src/sps.rs:38 never looks at the last one to three bytes:
  `Sps.PayloadIsCutShort`.

In `Layouts`, `Hevc` and `Permutations` some predicates carry a quantifier over a dummy argument
(`Peek`). It only delays the unfolding of long definitions and means the same as its body.

## Model

| member | source | states |
|---|---|---|
| `DataLoader.Shared.constructor` | crates/batching/src/dataloader.rs:113-127 | an empty shared state; the batch size is at least one |
| `DataLoader.Shared.SubmitItem` | crates/batching/src/dataloader.rs:167-192 | one turn of the submit loop, in place: the new batches, open batch and waiters are those of the pure iteration |
| `DataLoader.Shared.Submit` | crates/batching/src/dataloader.rs:163-193 | the critical section of `load_many`, in place, equals the fold of the iteration over the items |
| `DataLoader.Shared.TimerBody` | crates/batching/src/dataloader.rs:219-231 | the timer body dispatches the open batch exactly when the timer rule says so and returns the next sleep |
| `DataLoader.ExecOk` | crates/batching/src/dataloader.rs:150-293 | the inductive invariant (batches, permits, loads, timer, once-cells) holds after every interleaving of submits, time, timer wakes, permit grants, fetch results, panics, ticket and guard drops, resumed and abandoned calls |
| `DataLoader.LoadManyCollects` | crates/batching/src/dataloader.rs:195-205 | for any fetcher and in every interleaving, a returned `load_many` is Ok exactly when all batches it joined have finished with an answer in their once-cell, its waiters cover exactly its own keys, and the Ok value is what its batches answered for them, later batches overriding earlier ones |
| `DataLoader.EachKeyFromItsOwnBatch` | crates/batching/src/dataloader.rs:196-202 | every key of an Ok result was asked for and has the value that the fetch of its own batch stored (the last such batch); a key that was asked for is missing only if no batch of it answered it |
| `DataLoader.LoadManyIsDirectLookup` | crates/batching/src/dataloader.rs:150-205 | if the batches that the call joined answered from one map on their keys (they may answer others too), an Ok `load_many` is that map restricted to exactly its own keys, duplicates and split batches included |
| `DataLoader.LoadIsDirectLookup` | crates/batching/src/dataloader.rs:140-142 | an Ok `load(key)` sees the value of `key`, or nothing exactly when the key is unknown |
| `DataLoader.Bounds` | crates/batching/src/dataloader.rs:113-126 | in every reachable state batches hold 1 to batch_size items, the open one fewer than batch_size, free permits and holders add up to max(1, concurrency), and an exhausted semaphore has a holder |
| `DataLoader.CellSetOnce` | crates/batching/src/dataloader.rs:280-293 | a once-cell is set at most once, by its own fetch and before its token is cancelled; the `unreachable!` branch never runs |
| `DataLoader.UnsetMeansPanic` | crates/batching/src/dataloader.rs:248-254 | a token cancelled over an empty cell means that this very fetch panicked |
| `DataLoader.DispatchedInTime` | crates/batching/src/dataloader.rs:215-232 | with wakes at most `slack` late an open batch is never older than delay + slack, and a wake takes the open batch exactly when that is at least `delay` old |
| `DataLoaderBatching.SubmitFillsBatches` | crates/batching/src/dataloader.rs:163-193 | the whole effect of the critical section in every reachable state: the keys are cut into consecutive chunks, one for each waiter; the first joins the open batch, the others open new batches in a row; a chunk ends exactly where its batch is full; nothing else changes |
| `DataLoaderBatching.DispatchedExactlyWhenFull` | crates/batching/src/dataloader.rs:189-191 | a submission takes a batch out of the open state, or creates it dispatched, exactly when the batch then holds batch_size keys |
| `DataLoaderBatching.KeysThatFitShareABatch` | crates/batching/src/dataloader.rs:167-187 | keys that fit into the open batch (or into a new one) all land in that one batch behind one waiter, and no other batch is touched or created |
| `DataLoaderProgress.SomethingMoves` | crates/batching/src/dataloader.rs:208-293 | while any batch is unfinished, some continuation (a permit grant, a fetch result, a drop, or two turns of the timer) does part of the work and disturbs no call |
| `DataLoaderProgress.EveryLoadCanReturn` | crates/batching/src/dataloader.rs:150-205 | no dead ends: after every run, and whatever the outstanding fetches answer, there is a continuation in which every pending `load_many` returns |
| `BatchTimer.Config.Capacity` | crates/batching/src/batch.rs:180-194 | the batch size, but at least one |
| `BatchTimer.Config.Permits` | crates/batching/src/batch.rs:180-194 | the concurrency, but at least one |
| `BatchTimer.WakeOnTime` | crates/batching/src/batch.rs:248-265 | a wake keeps the timing invariant, takes a batch exactly when it is at least `delay` old, and sleeps until the open batch is due or for `delay` if none is left open |
| `Batcher.Shared.SubmitItem` | crates/batching/src/batch.rs:216-229 | one turn of the submit loop, in place, with a new channel per item |
| `Batcher.Shared.Submit` | crates/batching/src/batch.rs:211-230 | the critical section of `execute_many`, in place; receiver i belongs to item i |
| `Batcher.Shared.TimerBody` | crates/batching/src/batch.rs:252-264 | the timer body dispatches the open batch exactly when the timer rule says so and returns the next sleep |
| `Batcher.ExecOk` | crates/batching/src/batch.rs:207-283 | the inductive invariant of all interleavings: conservation, bounds, permits, replies only after a start, timing |
| `Batcher.EachRequestInOnePlace` | crates/batching/src/batch.rs:207-238 | in every reachable state request k, with reply channel k, sits in exactly one position of exactly one batch, in submission order |
| `Batcher.ExecuteManyAnswersEachItem` | crates/batching/src/batch.rs:232-238 | a finished `execute_many` has one entry per input; entry i is the reply sent for item i, or None if its sender was dropped unsent |
| `Batcher.AnswersAreFinal` | crates/batching/src/batch.rs:20-22 | no step changes an answered channel: a sender is used once |
| `Batcher.Bounds` | crates/batching/src/batch.rs:180-194 | the same bounds on batch sizes and on running batches as for the data loader |
| `Batcher.DispatchedInTime` | crates/batching/src/batch.rs:248-265 | the timed guarantee for the batcher |
| `BatcherFilling.SubmitFillsBatches` | crates/batching/src/batch.rs:211-230 | the whole effect of the critical section in every reachable state: the batch that was open and the new ones hold, end to end, what was there and then the new requests; all but the last are full; a batch is dispatched exactly if it is full; nothing else changes |
| `BatcherFilling.DispatchedExactlyWhenFull` | crates/batching/src/batch.rs:226-228 | a submission takes a batch out of the open state, or creates it dispatched, exactly when it then holds batch_size requests |
| `BatcherFilling.RequestsThatFitShareABatch` | crates/batching/src/batch.rs:216-229 | requests that fit into the open batch (or into a new one) all land in that one batch, in order, and no other batch is touched or created |
| `BatcherProgress.SomethingMoves` | crates/batching/src/batch.rs:241-284 | while any batch has not been executed, some continuation does part of the work and disturbs no call |
| `BatcherProgress.EveryCallCanReturn` | crates/batching/src/batch.rs:207-238 | no dead ends: after every run, and whatever replies the executor has in store, there is a continuation in which every `execute_many` returns and every open channel carries the reply in store for it |
| `Context.Handler.constructor` | crates/context/src/lib.rs:74-80 | a handler with nothing stopped, counted, cancelled or waiting |
| `Context.Handler.Child` | crates/context/src/lib.rs:83-86 | the increment, in place, is the step of the protocol and yields a live tracker |
| `Context.Handler.FetchSub` | crates/context/src/lib.rs:55-55 | the decrement of a drop, in place, is its own step and says whether it was the last |
| `Context.Handler.LoadStopped` | crates/context/src/lib.rs:58-58 | reading `stopped` in a drop is a second step that decides whether to notify |
| `Context.Handler.NotifyWaiters` | crates/context/src/lib.rs:59-59 | the loop fires exactly the futures registered before |
| `Context.Handler.AdvanceCall` | crates/context/src/lib.rs:248-285 | each operation of `cancel`, `shutdown`, `done` and `wait`, in place, is one step of the protocol |
| `Context.Handler.Perform` | crates/context/src/lib.rs:53-104 | any single operation on the object is the step of the protocol |
| `Context.Execute` | crates/context/src/lib.rs:53-104 | running any interleaving of operations on the object ends in the state that the run theorems speak of, with no blocked `shutdown` left without somebody bound to wake it |
| `Context.RunOk` | crates/context/src/lib.rs:53-104 | the no-lost-wakeup invariant holds after every sequence of atomic steps of child, drop (decrement, check, notify), cancel, done, shutdown and wait |
| `Context.ShutdownIsNeverStranded` | crates/context/src/lib.rs:248-264 | in every reachable state a blocked `shutdown` (or `done` not cancelled through a parent) has been notified, or a context is alive, or a drop in flight will notify |
| `Context.ShutdownWakes` | crates/context/src/lib.rs:53-62 | once no context is left, finishing the drop in flight lets a blocked `shutdown` return within three steps |
| `Context.LostStaysLost` | crates/context/src/lib.rs:53-62 | a blocked call that was not notified, with every context dropped and no drop under way, stays blocked through every continuation, `cancel` included, that makes no new context |
| `Context.SafeExactlyWhenStopped` | crates/context/src/lib.rs:95-104 | for a waiter of any kind about to block: no continuation loses it for good, or even leaves it without somebody bound to wake it, if and only if `stopped` is set at that moment |
| `Context.PlainWaitCanHang` | crates/context/src/lib.rs:262-264 | a concrete run after which a plain `wait` is lost: whatever is done to the handler later, short of a new context, it stays blocked |
| `Context.ReturnSeesZeroExactly` | crates/context/src/lib.rs:53-62 | the exact condition: for a call that has registered, its return is certain to mean that at some instant of the call no context was alive if and only if no drop is in flight at that moment, whatever is made or dropped later |
| `Context.ReturnMeansNoneAlive` | crates/context/src/lib.rs:95-104 | in particular, if no context is made from the handler once its count has fallen to zero, a returned call lived through an instant without live contexts |
| `Context.RevivalBreaksIt` | crates/context/src/lib.rs:268-273 | a concrete run in which an old drop wakes a new `shutdown` although a context was alive all along |
| `ContextProgress.FlagsAreExact` | crates/context/src/lib.rs:282-290 | in every reachable state `stopped` is set if and only if some `cancel` or `shutdown` has passed its stop, and the token is cancelled if and only if a parent was or some `cancel` or `shutdown` has passed its token cancel; so a returned `cancel`, `shutdown` or `done` means `is_done()` |
| `ContextProgress.EveryShutdownCanReturn` | crates/context/src/lib.rs:248-264 | from every reachable state every `shutdown` can return without any new context or call: dropping the live contexts is enough |
| `Features.FlattenFeatures` | dev-tools/xtask/src/utils.rs:96-109 | terminates on every graph, cyclic ones included, and returns exactly the package features reachable from the given dependencies |
| `Features.FlattenedIsTransitive` | dev-tools/xtask/src/utils.rs:187-187 | the flattened dependency sets are transitively closed |
| `Permutations.PushSuccessors` | dev-tools/xtask/src/utils.rs:76-92 | the inner loop pushes exactly the entries of the pure search, in the order of the map |
| `Permutations.FindPermutations` | dev-tools/xtask/src/utils.rs:57-94 | terminates, computes the pure search, and: panics exactly when a start that is not viable is indexed; never yields a skipped set; from a sound start yields only independent sets within the size limit, none of which switches a start feature off (acyclic, transitively closed), and all independent sets that switch the start on, meet no skip set on the way and are affordable under the size limit; from the empty start with no more sets than the size limit, yields exactly the wanted sets if skip sets exclude all self-dependent features |
| `Permutations.LargeSizeIsExact` | dev-tools/xtask/src/utils.rs:204-210 | from the empty set, with a size of at least the number of viable features (the default is one more) and acyclic, transitively closed dependencies: exactly the independent sets that contain no skip set |
| `Permutations.SizeLimitIsExact` | dev-tools/xtask/src/utils.rs:64-91 | for every size limit: if no viable feature depends on a viable one, exactly the wanted sets of at most that size |
| `Permutations.StartIsExact` | dev-tools/xtask/src/utils.rs:204-210 | from always-included features, without skip sets and with a large size: exactly the independent sets that switch them on |
| `Permutations.CycleIsMissed` | dev-tools/xtask/src/utils.rs:71-85 | a feature that depends on itself is never enumerated although its singleton is independent |
| `Permutations.ExactlyWhenSelfSkipped` | dev-tools/xtask/src/utils.rs:57-94 | for every dependency map: if the size limit covers the number of sets found (2 to the number of viable features always does), the enumeration is exact if and only if skip sets exclude every self-dependent feature |
| `Permutations.DefaultSizeDecided` | dev-tools/xtask/src/utils.rs:204-210 | at the default size: exact without self-dependent features, not exact with one that no skip set excludes |
| `PermutationExamples.SmallLimitMissesASet` | dev-tools/xtask/src/utils.rs:67-69 | a size limit of 2 on three features misses an independent set of two, because both members are first recorded when nothing is left of the limit |
| `PermutationExamples.DefaultLimitMissesASet` | dev-tools/xtask/src/utils.rs:67-91 | at the default size, six features of which two depend on themselves and are excluded by skip sets: one of sixteen wanted sets is missed |
| `PermutationExamples.LoopedQualifies` | dev-tools/xtask/src/utils.rs:67-91 | that example is transitively closed and its self-dependent features are excluded, so a larger limit would be exact |
| `PackageFeatures.Classify` | dev-tools/xtask/src/utils.rs:174-194 | allow and deny lists choose the features, and each is stored with exactly what it leads to, as viable or additive |
| `PackageFeatures.Extend` | dev-tools/xtask/src/utils.rs:251-262 | the loop adds one additive feature after the other that is not yet on; the sets it yields are described by `PackageSets.ExtendedExactly` |
| `PackageFeatures.TestPackageFeatures` | dev-tools/xtask/src/utils.rs:167-280 | fails exactly when both lists are given, panics exactly when an always-included feature is not viable, and otherwise yields the enumeration from the always-included features, extended by additive features |
| `PackageSets.ReturnedExactly` | dev-tools/xtask/src/utils.rs:243-278 | the returned sets, member by member: an enumerated set after some prefix of the additive features, where a feature is on if it was there or was added and none added since depends on it, or the always-included features with one additive feature that they leave off |
| `PackageSets.ExtendedExactly` | dev-tools/xtask/src/utils.rs:251-262 | the extended sets are exactly the enumerated sets after each prefix of the additive features |
| `PackageSets.StageCovers` | dev-tools/xtask/src/utils.rs:251-262 | after any prefix each additive feature of it that was off is on, or one at the same place or later depends on it, and each member of the enumerated set is on, or one of them depends on it |
| `PackageSets.StageWithoutDependencies` | dev-tools/xtask/src/utils.rs:226-240 | additive features without dependencies: exactly the enumerated set joined with the off features of the prefix |
| `PackageSets.ExtensionKeeps` | dev-tools/xtask/src/utils.rs:243-278 | every enumerated set is returned, a returned set only gains additive features that were off, and every additive feature that is not always on is on in a set of its own |
| `PackageSets.ListsAreKept` | dev-tools/xtask/src/utils.rs:178-185 | every feature of a returned set exists, is on the allow list if there is one, and is not on the deny list |
| `PackageSets.ChosenExactly` | dev-tools/xtask/src/utils.rs:178-193 | every feature that the lists admit takes part, as viable or as additive |
| `PackageFeatures.PackageIsExact` | dev-tools/xtask/src/utils.rs:178-210 | lists included: with nothing always included and the default size the enumeration is exact if no viable feature leads back to itself, and is not if one does that no skip set excludes |
| `PackageFeatures.PackageStartIsExact` | dev-tools/xtask/src/utils.rs:197-210 | with always-included features, no skip sets and the default size: exactly the independent sets that switch them on |
| `Bits.SetBit` | crates/bytes-util/src/bit_write.rs:20-25 | setting or clearing bit 7 - pos with a mask changes exactly that bit of the byte |
| `Bits.TestBit` | crates/bytes-util/src/bit_read.rs:30-30 | shift and mask give the bit at that place of the most-significant-first bits |
| `BitReader.BitReader.ReadBit` | crates/bytes-util/src/bit_read.rs:25-42 | returns the bit at the logical position and advances by one; fails exactly at the end |
| `BitReader.BitReader.ReadBits` | crates/bytes-util/src/bit_read.rs:45-56 | returns the number spelled by the next min(count, 64) bits |
| `BitReader.BitReader.Align` | crates/bytes-util/src/bit_read.rs:60-65 | moves to the next byte boundary |
| `BitReader.BitReader.ReadExact` | crates/bytes-util/src/bit_read.rs:98-127 | the bytes read, aligned or not, spell the next bits of the stream |
| `BitReader.BitReader.BitStreamPosition` | crates/bytes-util/src/bit_read.rs:138-141 | the reported position is the logical one |
| `BitReader.BitReader.SeekBits` | crates/bytes-util/src/bit_read.rs:145-190 | lands at and returns exactly the old position plus the distance, for both signs, and says when it fails |
| `BitReader.BitReader.Seek` | crates/bytes-util/src/bit_read.rs:193-210 | byte seeks: relative ones keep the bit offset, and the returned position is rounded up to bytes |
| `BitReader.SeekArithmetic` | crates/bytes-util/src/bit_read.rs:151-179 | the truncating quotient and remainder of the code give the Euclidean byte and bit of the target |
| `BitWriter.BitWriter.WriteBit` | crates/bytes-util/src/bit_write.rs:20-36 | appends one bit to the flat output |
| `BitWriter.BitWriter.WriteBits` | crates/bytes-util/src/bit_write.rs:40-53 | appends the value most significant bit first, or rejects it and changes nothing |
| `BitWriter.BitWriter.Write` | crates/bytes-util/src/bit_write.rs:104-115 | appends the bits of whole bytes at any bit offset |
| `BitWriter.BitWriter.Align` | crates/bytes-util/src/bit_write.rs:63-69 | appends zeros up to the byte boundary |
| `BitWriter.BitWriter.Finish` | crates/bytes-util/src/bit_write.rs:57-60 | the bytes spell everything written, zero-padded to a byte |
| `BitPrograms.RunReader` | crates/bytes-util/src/bit_read.rs:25-190 | refinement: any sequence of bit reads, byte reads, aligns and seeks behaves as on a cursor over the flat bit sequence |
| `BitPrograms.RunWriter` | crates/bytes-util/src/bit_write.rs:20-115 | any sequence of writes appends the concatenated bits, rejected calls nothing |
| `BitPrograms.MirrorReads` | crates/bytes-util/src/bit_read.rs:25-127 | the mirrored reads recover every accepted value, whatever follows |
| `BitPrograms.WriteThenRead` | crates/bytes-util/src/bit_write.rs:20-69 | writing any mixed sequence and reading it back through the two classes gives every value |
| `ExpGolomb.WriteExpGolomb` | crates/expgolomb/src/lib.rs:107-122 | appends the code: floor(log2(v + 1)) zeros and then v + 1, 2 * floor(log2(v + 1)) + 1 bits |
| `ExpGolomb.ReadExpGolomb` | crates/expgolomb/src/lib.rs:69-82 | the loop with its wrapping 64-bit accumulator computes the decoded value and position |
| `ExpGolomb.CodeShape` | crates/expgolomb/src/lib.rs:107-122 | the code of v is z zeros, a one and the z low bits of v + 1, where 2^z is the largest power of two not above v + 1 |
| `ExpGolomb.LongCodesWrap` | crates/expgolomb/src/lib.rs:75-81 | with 64 leading zeros or more the last 64 suffix bits decide, and zero is the panic |
| `ExpGolomb.CodeIsDecoded` | crates/expgolomb/src/lib.rs:69-122 | a code below 2^64 - 1 is read back exactly, wherever it stands |
| `ExpGolomb.WriteThenReadAll` | crates/expgolomb/src/lib.rs:57-122 | any values below 2^64 - 1 written back to back are read back exactly |
| `ExpGolomb.SignedIsBijective` | crates/expgolomb/src/lib.rs:57-104 | k > 0 stands for 2k - 1 and -k for 2k, in both directions: a bijection between the i64 values above the minimum and the unsigned values that can be written |
| `ExpGolomb.WriteThenReadSigned` | crates/expgolomb/src/lib.rs:95-103 | every sequence of i64 values except the minimum is read back |
| `ExpGolomb.ReadUvlc` | crates/av1/src/obu/utils.rs:21-33 | the loop computes the decoded value and position of section 4.10.3 of the AV1 specification |
| `ExpGolomb.UvlcIsExpGolombBelow32` | crates/av1/src/obu/utils.rs:21-33 | `read_uvlc` and `read_exp_golomb` agree on value and bits consumed if and only if there are fewer than 32 leading zeros; with more `read_uvlc` yields 2^32 - 1 without reading a suffix, and fails above 255 |
| `Leb128.ReadLeb128` | crates/av1/src/obu/utils.rs:7-17 | the loop computes the decoded value and position |
| `Leb128.DecodedBound` | crates/av1/src/obu/utils.rs:7-17 | at most eight bytes are consumed and the value is below 2^56 |
| `Leb128.DecodedIsGroups` | crates/av1/src/obu/utils.rs:7-17 | for every byte string: the bytes up to the first below 128, or eight of them, are read, and their low seven bits add up with weights 128^i, the first byte lowest |
| `Leb128.CodeIsDecoded` | crates/av1/src/obu/utils.rs:7-17 | every code of every value below 2^56, minimal or padded to at most eight bytes, is read back (section 4.10.5 of the AV1 specification) |
| `Layouts.EncodeThenDecode` | crates/h265/src/config.rs:75-231 | fields that fit their width are read back over reserved bits, wherever they stand |
| `Layouts.WriteFields` | crates/h265/src/config.rs:181-210 | writes the fields in order and fails exactly when a value does not fit |
| `Layouts.ReadFields` | crates/h265/src/config.rs:76-108 | reads the fields in order and skips the reserved bits |
| `Layouts.ReadOctetFields` | crates/h264/src/config.rs:35-40 | reading one byte per field and masking it equals reading the field after its reserved bits |
| `Layouts.WriteBlobs` | crates/h264/src/config.rs:144-147 | writes each byte string behind its 16-bit length |
| `Layouts.ReadBlobs` | crates/h264/src/config.rs:43-47 | reads byte strings behind their 16-bit lengths |
| `Hevc.Mux` | crates/h265/src/config.rs:181-231 | succeeds exactly on records whose fields are in range, and then writes `size` bytes that spell the record |
| `Hevc.Demux` | crates/h265/src/config.rs:75-155 | computes the decoded record at the reader's position, failing exactly where it fails |
| `Hevc.SizeIsBytesWritten` | crates/h265/src/config.rs:157-179 | `size` is the number of bytes written, for every record |
| `Hevc.DecodedIsFaithful` | crates/h265/src/config.rs:113-135 | `demux` only produces canonical NAL types, counts and lengths that the wire can say |
| `Hevc.RoundTripExactlyWhenFaithful` | crates/h265/src/config.rs:75-231 | wherever it stands, a record that `mux` accepts is given back by `demux` if and only if its counts and lengths fit their fields and its NAL types are canonical |
| `HevcWire.WrittenIsOnWire` | crates/h265/src/config.rs:181-231 | every header field, every array and every NAL unit that `mux` writes stands at its bit offset in section 8.3.2.1 of ISO/IEC 14496-15, with ones in the reserved bits of the header and a zero in those of the arrays |
| `HevcWire.DecodedIsOnWire` | crates/h265/src/config.rs:75-155 | from any data that it accepts, `demux` takes every field, array and NAL unit from that place, and stops `size` bytes after the start |
| `Avc.Mux` | crates/h264/src/config.rs:133-174 | succeeds exactly on records whose fields and counts are in range, and then writes `size` bytes that spell the record |
| `Avc.Demux` | crates/h264/src/config.rs:34-100 | computes the decoded record with masked byte reads, failing exactly where it fails |
| `Avc.SizeIsBytesWritten` | crates/h264/src/config.rs:102-131 | `size` is the number of bytes written, for every record |
| `Avc.DecodedIsFaithful` | crates/h264/src/config.rs:59-87 | `demux` only produces 16-bit lengths, and no extended part for profiles 66, 77 and 88 |
| `Avc.RoundTripExactly` | crates/h264/src/config.rs:34-174 | an accepted record is given back if and only if its lengths fit 16 bits, profiles 66, 77 and 88 have no extended part, and any other profile without one stands at the end of the data |
| `AvcWire.WrittenIsOnWire` | crates/h264/src/config.rs:133-174 | every field and every parameter set that `mux` writes stands at its bit offset in section 5.3.2.1.2 of ISO/IEC 14496-15, with ones in the reserved bits |
| `AvcWire.DecodedIsOnWire` | crates/h264/src/config.rs:34-100 | from any data that it accepts, `demux` takes every field and parameter set from that place; there is an extended part if and only if the profile is not 66, 77 or 88 and data is left |
| `Av1.Mux` | crates/av1/src/config.rs:127-157 | succeeds exactly on records whose fields are in range, and then writes `size` bytes that spell the record |
| `Av1.Demux` | crates/av1/src/config.rs:58-117 | computes the decoded record; marker, version and alignment errors included |
| `Av1.SizeIsBytesWritten` | crates/av1/src/config.rs:119-125 | `size` is the number of bytes written |
| `Av1.WrittenIsReceived` | crates/av1/src/config.rs:58-157 | wherever an accepted record stands, `demux` gives it back with `hdr_wcg_idc` zeroed and all following bytes counted to the configuration OBUs |
| `Av1.RoundTripExactly` | crates/av1/src/config.rs:58-157 | the record itself comes back if and only if `hdr_wcg_idc` is zero and nothing follows |
| `Av1Wire.WrittenIsOnWire` | crates/av1/src/config.rs:127-157 | every field that `mux` writes stands at its bit offset, the two HDR bits, the reserved bit and an absent delay as zeros, and the configuration OBUs behind them |
| `Av1Wire.DecodedIsOnWire` | crates/av1/src/config.rs:58-117 | from any data that it accepts, `demux` takes every field from that place, and all whole bytes up to the end as configuration OBUs |
| `Amf0.Writer.EncodeValue` | crates/amf0/src/encode.rs:16-62 | appends exactly the encoding or returns exactly its error; an error leaves the earlier output as a prefix |
| `Amf0.Writer.EncodeObject` | crates/amf0/src/encode.rs:65-78 | the property loop appends the encoding of the object |
| `Amf0.EncodeSucceedsExactly` | crates/amf0/src/encode.rs:16-56 | `encode` succeeds exactly on values without long strings, end markers and strings over 65535 bytes, at any depth |
| `Amf0.Decoder.ReadString` | crates/amf0/src/decode.rs:87-92 | reads a length and that many bytes; over-long lengths and invalid text are failures |
| `Amf0.Decoder.IsReadObjectEof` | crates/amf0/src/decode.rs:94-105 | consumes the end marker and nothing else |
| `Amf0.Decoder.ReadObject` | crates/amf0/src/decode.rs:107-124 | the loop computes the properties up to the end marker, and terminates |
| `Amf0.Decoder.ReadEcmaArray` | crates/amf0/src/decode.rs:126-142 | the loop computes the counted properties and an end marker if there is one |
| `Amf0.Decoder.Decode` | crates/amf0/src/decode.rs:49-63 | the method computes the decoded value, the exact error, and the new position |
| `Amf0.Decoder.DecodeRest` | crates/amf0/src/decode.rs:38-46 | the loop decodes all values up to the end of the data |
| `Amf0.PropertyIsNotEndMarker` | crates/amf0/src/decode.rs:94-105 | an encoded property, empty keys included, never starts with the end marker |
| `Amf0.RoundTripExactly` | crates/amf0/src/encode.rs:16-78 | a value that `encode` accepts is read back, wherever it stands, if and only if all its keys at any depth have at most 65535 bytes |
| `Amf0.ListRoundTripExactly` | crates/amf0/src/decode.rs:38-46 | decoding the concatenated encodings of a list gives the list back if and only if every key has at most 65535 bytes |
| `Amf0.DecodedIsNormal` | crates/amf0/src/decode.rs:49-142 | decoded values have valid text and short keys, and are encodable if free of long strings |
| `Amf0.DecodedValueRoundTrips` | crates/amf0/src/decode.rs:49-142 | an accepted value without long strings, however spelled, can be encoded, and the encoding decodes to the same value |
| `Amf0.LongKeyHidesProperties` | crates/amf0/src/encode.rs:70-72 | a key of 65536 bytes that starts with byte 9 is written so that the object decodes as empty |
| `Amf0Wire.DecodesExactlyWhatStands` | crates/amf0/src/decode.rs:49-142 | for all data and positions: `decode` yields v and stops at q if and only if v stands there and ends at q, by an independent walk over v with the markers and big-endian lengths of the format; all spellings, ECMA arrays and long strings included |
| `Amf0Wire.EcmaArrayIsDecoded` | crates/amf0/src/decode.rs:126-142 | marker 8, the count of the properties in four big-endian digits and the encoded properties decode to the object, with the position after an end marker if there is one |
| `Amf0Wire.LongStringIsDecoded` | crates/amf0/src/decode.rs:144-150 | marker 12, a length in four big-endian digits and valid text decode to the long string |
| `Amf0Wire.BadMarkers` | crates/amf0/src/decode.rs:49-63 | which bytes are unsupported markers and which are none, and the failure at the end of the data |
| `Amf0Wire.BadStrings` | crates/amf0/src/decode.rs:87-92 | which failure a string is: no length, contents past the end, or no valid text |
| `Amf0Wire.EncodedSpelling` | crates/amf0/src/encode.rs:16-78 | the one spelling that the encoder chooses: booleans as 0 and 1, the object marker and the end marker, keys behind 16 bits of their length; and the errors of the values that it does not encode |
| `Transmuxer.Transmuxer.constructor` | crates/transmuxer/src/lib.rs:81-90 | the initial state: sequence number 1, clocks at zero, nothing queued |
| `Transmuxer.Transmuxer.AddTag` | crates/transmuxer/src/lib.rs:109-111 | appends the tag to the queue and changes nothing else |
| `Transmuxer.Transmuxer.FindTags` | crates/transmuxer/src/lib.rs:300-363 | the loop finds the last header of each kind up to the place where all three kinds have been seen |
| `Transmuxer.FindsHeadersExactly` | crates/transmuxer/src/lib.rs:300-363 | stopping early never hides a header: both headers are found exactly when both are queued |
| `Transmuxer.Transmuxer.InitSequence` | crates/transmuxer/src/lib.rs:118-139 | the init branch of `mux`, its two errors and the limit of 30 tags included |
| `Transmuxer.Transmuxer.Write` | crates/transmuxer/src/lib.rs:149-295 | one supported tag: its duration, sequence number, timestamp and the new clocks, or the failure of its sample |
| `Transmuxer.Transmuxer.Mux` | crates/transmuxer/src/lib.rs:115-297 | the whole call computes the pure step: new state and event |
| `Transmuxer.RunOk` | crates/transmuxer/src/lib.rs:109-297 | the inductive invariant of every run of `add_tag` and `mux`: the object's fields are determined by the history of events |
| `Transmuxer.InitOnceAndFirst` | crates/transmuxer/src/lib.rs:118-139 | at most one init segment is emitted, and it precedes all media |
| `Transmuxer.MediaAreNumbered` | crates/transmuxer/src/lib.rs:256-277 | the i-th media segment has sequence number i |
| `Transmuxer.TracksAreSeamless` | crates/transmuxer/src/lib.rs:234-295 | on each track a segment starts at the sum of the earlier durations, where the one before ends |
| `Transmuxer.QueueOrderIsKept` | crates/transmuxer/src/lib.rs:141-232 | the tags fed in are those taken and those queued, and the events report the supported tags among those taken, each once, in queue order |
| `Transmuxer.RunClock` | crates/transmuxer/src/lib.rs:149-170 | the video clock depends on the frame rate and the video timestamps alone, whatever audio is interleaved |
| `Transmuxer.EvenFramesAreExact` | crates/transmuxer/src/lib.rs:149-170 | for timestamps that round evenly spaced frame times, the clock after n frames is exactly 1000 n |
| `Transmuxer.FloorsAndRoundsAreRounded` | crates/transmuxer/src/lib.rs:154-163 | rounding down and rounding to nearest are both covered by the previous result |
| `Transmuxer.DriftIsBounded` | crates/transmuxer/src/lib.rs:149-170 | for ordered positive timestamps the clock after n frames is within (n - 1) max(fps, 1) ticks of 1000 + fps (t_n - t_1) |
| `TransmuxerProgress.MuxReportsFirstFrame` | crates/transmuxer/src/lib.rs:141-297 | with settings, a call reports on the first supported tag of the queue and leaves what follows it; the event is a media segment if and only if its sample can be built |
| `TransmuxerProgress.MuxIsNothingExactly` | crates/transmuxer/src/lib.rs:141-144 | with settings, a call returns nothing if and only if no supported tag is queued, and then the queue ends empty |
| `TransmuxerProgress.InitExactly` | crates/transmuxer/src/lib.rs:118-139 | without settings, both headers queued and accepted by the codecs give the init segment, rejected ones the failure; otherwise more than 30 tags are the error; the queue stays as it is |
| `TransmuxerProgress.FindsLastHeaders` | crates/transmuxer/src/lib.rs:300-363 | the headers used are the last of each kind in the shortest prefix of the queue that has all three, or in the whole queue |
| `TransmuxerProgress.EveryFrameIsReported` | crates/transmuxer/src/lib.rs:115-297 | after the init segment, as many calls as supported tags are queued report on one each; then every supported tag ever fed in has been reported exactly once, in order, and the next call returns nothing |
| `TransmuxerProgress.UntimedFramesLastOneFrame` | crates/transmuxer/src/lib.rs:149-153 | a video frame without a timestamp to compare with, or one that goes backwards, lasts 1000 ticks |
| `TransmuxerProgress.LongGapsSaturate` | crates/transmuxer/src/lib.rs:162-169 | a gap that is not near the frame time lasts its ticks rounded down, at most 2^32 - 1 and at least 0 |
| `Sps.RemoveEmulationPrevention` | crates/h264/src/sps.rs:32-47 | the loop terminates, stays in range, computes the pure scan, and fails on fewer than three bytes |
| `Sps.PayloadIsCutShort` | crates/h264/src/sps.rs:37-47 | for every payload escaped by section 7.4.1 of ITU-T H.264 the loop yields a prefix at least one and at most three bytes short |

## Left out

- Atomics in `Context` are sequentially consistent steps; the relaxed orderings of the source are assumed to behave so.
- Context.Handler.AdvanceCall: a call of the source is split at its atomic operations, since other calls may act between them; what a whole call does is what the runs of `Context.Run` say.
- Cancellation tokens, spawned futures and clocks: tokio and tokio-util internals are steps; a token tree is a flag for cancellation through a parent.
- Fairness: `ContextProgress.EveryShutdownCanReturn`, `DataLoaderProgress.EveryLoadCanReturn` and `BatcherProgress.EveryCallCanReturn` give the steps that lead on; that a scheduler takes them is not modelled.
- Permutations.FindPermutations: starts from an empty result set, as its only caller does; which sets beyond the affordable ones a small size limit still finds depends on the order of the map and is not characterised.
- PackageFeatures.TestPackageFeatures: begins at the choice of features; the early return for a package without features and the removal of implicit optional dependencies are not modelled.
- BitReader.BitReader.SeekBits: positions are unbounded, so overflow of the 64-bit position is not modelled.
- BitReader and BitWriter over arbitrary readers and writers: the underlying stream is an in-memory cursor or buffer, whose reads are never short.
- Record and AMF0 input and output: I/O errors and panics are one failure outcome in the records, and bytes written before a failure are only described for AMF0.
- Sequence numbers and clocks of `Transmuxer` are unbounded; wrap-around at 2^32 and 2^64 is not modelled.
- Transmuxer frame rates are exact reals instead of 64-bit floating point; box contents, composition times and the bytes of init segments are abstract.
- `Transmuxer::demux`: only pushes parsed FLV tags, as `add_tag` does.
- AMF0 text validity is a parameter, numbers are opaque bytes; `decode_with_type` and the iterator add nothing to `decode`.
- The field walks of the H.264 and H.265 sequence parameter sets after the escape loop: long one-way field lists.
- The AV1 video descriptor and OBU headers: a tag and length check in front of `demux`.
- crates/ffmpeg, crates/http, crates/h3-webtransport, crates/mp4, crates/flv, crates/aac and the process and telemetry crates: wrappers, formatting and one-way decoding.
- Builders, error display and conversions: easy members only.
