# Blake2Engine buffering and secure_memset, in Dafny

This project models two pieces of the BLAKE2-based pseudorandom number
generator engine used by OpenFHE:

- `Blake2Engine` (src/include/blake2engine.h). This is a PRNG engine that
  holds a seed and a counter, a fixed buffer of `PRNG_BUFFER_SIZE` words
  (`m_buffer`) and a 16-bit read index (`m_bufferIndex`). Each call of
  `operator()` does three things:
  - If the index equals the buffer size, it resets the index to 0.
  - If the index is then 0, it refills the whole buffer through the private
    `Generate()`.
  - It returns the buffered word at the index and moves the index on by one.
- `secure_memset` (src/include/memory.h). It writes one byte value into
  `len` consecutive bytes, one store at a time.

`blake2_engine.dfy` (module `Blake2`) has two layers.

- A value model:
  - `State` holds the engine's data.
  - `Step` is one `operator()` call.
  - `Run` is `n` consecutive calls. It records the words returned and the
    batches `Generate()` produced.
  - The reference stream is `Batches`, `CounterAfter` and `Stream`: the
    batches that repeated `Generate()` calls produce from a seed and a
    starting counter, end to end.
- The class `Blake2Engine` updates its fields in place, as the C++ class
  does. It has an `array` buffer and a `uint16` index. Two ghost logs record
  the words returned and the batches generated. The object invariant
  `Valid()` says the engine's state is exactly the value model's state after
  the calls made so far.

`Generate()` is declared on line 101 of blake2engine.h, is defined in
another file and hashes with BLAKE2. It is modelled as an opaque `Generator`: a total function from (seed, counter)
to a full batch and the next counter. The engine receives it at construction.
No policy for advancing the counter is assumed. `PRNG_BUFFER_SIZE`,
`MAX_SEED_GENS` and the word type come from prng.h, which is not part of this
model:

- `PRNG_BUFFER_SIZE` is an arbitrary constant with
  `0 < PRNG_BUFFER_SIZE <= 65535`. It has to fit the `uint16_t` index and
  the `uint16_t` cast on line 71.
- `MAX_SEED_GENS` is an arbitrary natural number.
- `Word` is a 32-bit unsigned integer. No proof depends on its width.

`secure_memory.dfy` (module `SecureMemory`) models `secure_memset` as a
`while` loop over an `array<bv8>`. The method is proved against the function
`Fill`.

Four facts about the code that the model keeps:

- The constructor starts the index at 0, not at the buffer length
  (blake2engine.h:65), and zero-fills the buffer. The first call still
  refills, because of the test on line 76.
- `operator()` (lines 70-83) never locks `mtx`.
- blake2engine.h has no destructor, and nothing in it scrubs the buffer.
- `operator()` has no error path. The opaque `Generator` is total.

## Model

| member | source | states |
|---|---|---|
| `SecureMemory.Fill` | src/include/memory.h:43-44 | The memory after the loop has the same length. Every byte at a position below `len` equals `c`. Every byte at or after `len` is unchanged. |
| `SecureMemory.SecureMemset` | src/include/memory.h:41-45 | Proves the byte loop correct. Afterwards the array is `Fill(old contents, c, len)`. It writes only the array it is given. The loop invariant says `[0, i)` holds `c` and `[i, len)` still holds its old bytes. |
| `SecureMemory.FillIdempotent` | src/include/memory.h:41-45 | Applying it twice with the same `c` and `len` leaves the same memory as applying it once. |
| `SecureMemory.FillNothing` | src/include/memory.h:43 | `len == 0` leaves the memory unchanged. |
| `Blake2.Init` | src/include/blake2engine.h:63-65 | The constructed state has the given seed and counter, index 0 and an all-zero buffer of full length. |
| `Blake2.Step` | src/include/blake2engine.h:70-83 | After one call the index is in `[1, N]`, and the word returned is the buffer word just before the new index. If the index on entry is 0 or N, exactly one batch is generated and it becomes the buffer, with index 1. Otherwise nothing is generated and the state is unchanged except that the index grows by one. The seed never changes. |
| `Blake2.Run` | src/include/blake2engine.h:70-83 | After `n` calls exactly `n` words have been returned and the seed is unchanged. The index bound holds, and after at least one call the index is at least 1. |
| `Blake2.BatchAt` | src/include/blake2engine.h:101 | Batch `j` of the reference stream is what `Generate()` makes from the seed and the counter reached after `j` refills. |
| `Blake2.StreamPrefix` | src/include/blake2engine.h:76-77 | The stream for `k` batches is a prefix of the stream for any `l >= k` batches, so later refills never revise earlier words. |
| `Blake2.RunFromBoundary` | src/include/blake2engine.h:71-82 | From index 0 or N, `m` calls (`1 <= m <= N`) generate exactly one batch from the current seed and counter. They return its first `m` words in order and leave the index at `m`. With `m = N`, a whole batch is returned and the index is back on the boundary. |
| `Blake2.RefillExplained` | src/include/blake2engine.h:71-79 | A call on a boundary appends the stream's next batch to the log and returns that batch's first word. It moves the counter to the one reached after one more refill. The words returned so far are still exactly the batches generated, end to end. |
| `Blake2.ReadExplained` | src/include/blake2engine.h:76-82 | A call off the boundary generates nothing. It moves one word from the unread rest of the buffer to the output, so output plus unread words still equal the batches generated, end to end. |
| `Blake2.RunExplained` | src/include/blake2engine.h:71-82 | For every `n`, the trace of `n` calls on a new engine matches the reference stream. The batches are the stream's first batches, the counter is the one reached after them, and the buffer holds the last batch. The words returned followed by the unread buffer words are the generated batches, end to end. |
| `Blake2.RunMatchesStream` | src/include/blake2engine.h:71-82 | After `n` calls, a new engine has returned the first `n` words of the stream, in order, with none skipped or repeated. It has generated the stream's first `k` batches, where `k` is the fewest that cover `n` words (`n <= k*N < n + N`). Its counter is the one reached after `k` refills. |
| `Blake2.Blake2Engine.constructor` | src/include/blake2engine.h:63-65 | The new engine's data is `Init(seed, counter)`: index 0 and a fresh zero-filled buffer. It has generated and returned nothing yet, and the invariant holds. |
| `Blake2.Blake2Engine.Copy` | src/include/blake2engine.h:85-86 | The copy has a fresh buffer array with the same words. It also has the same index, seed, counter and generator, and the same starting seed, starting counter and logs, so (by `Next`) its next call returns the same word as the original's and (by `OutputIsStream`) its output continues the original's stream. |
| `Blake2.Blake2Engine.Generate` | src/include/blake2engine.h:101 | The whole buffer is overwritten with the batch made from (seed, counter). The counter becomes the generator's next counter, and the batch is logged. |
| `Blake2.Blake2Engine.Next` | src/include/blake2engine.h:70-83 | Keeps the invariant, so the index stays in `[0, N]`. Afterwards the index is in `[1, N]` and the word is appended to the output log. If the index on entry was 0 or N: one batch is generated and logged, the buffer and counter are replaced, the result is the new batch's first word and the index becomes 1. Otherwise: nothing is generated, the buffer and counter are unchanged, the result is the old buffer word at the old index and the index grows by one. Ties the result and the new data to `Step`. |
| `Blake2.Blake2Engine.OutputIsStream` | src/include/blake2engine.h:70-83 | Everything a valid engine (or a copy of one) has returned is the beginning of the stream of its starting seed and counter, word for word. The batches it generated are the fewest stream batches that cover those words. |

## Left out

- The body of `Generate()` and the BLAKE2b/BLAKE2Xb hashing it calls are
  outside blake2engine.h. `Generate()` is an opaque function passed to the
  constructor. Its way of advancing the counter and any failure inside it
  are not modelled.
- `Blake2.Blake2Engine.Generate`: the model leaves the seed unchanged across
  a refill. The body of `Generate()` is not part of this model, so whether
  it changes the seed is not stated.
- The `std::mutex mtx` member (line 109) is not modelled.
  `operator()` never locks it, and concurrency is outside the model.
- `createEngineInstance` (lines 117-122) is not modelled. It is an
  `extern "C"` heap allocation whose ownership passes to the caller.
- The `PRNG` base class and prng.h are not part of this model. The seed and
  counter are plain fields, and the two constants and the word width are
  unspecified beyond the bounds above.
- The commented-out small-seed constructor and `operator=` (lines 53-57 and
  88-95) are not modelled. They are dead code.
- blake2engine.h has no destructor, so scrubbing on destruction is
  not modelled.
- `SecureMemory.SecureMemset`: the `volatile` accesses are not modelled.
  They stop the compiler from removing the stores, and Dafny has no notion
  of dead-store elimination. Only the effect on memory is stated. The raw
  pointer becomes an array, and the caller's duty to pass `len` writable
  bytes becomes `len <= mem.Length`.
- The copy's ghost logs are the original's, so the copy's invariant speaks
  about the history it shares with the original.
