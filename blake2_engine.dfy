/** Model of the buffered PRNG engine `Blake2Engine` (src/include/blake2engine.h).

    The engine keeps a fixed-size buffer of words and a read index. Each call
    of `operator()` returns the next buffered word and refills the whole buffer
    through the private `Generate()` when the index sits on a boundary (0, or
    the buffer length).

    `Generate()` hashes the seed and counter with BLAKE2; its body is not part
    of this model. It is an opaque `Generator`: a total function from
    (seed, counter) to a full batch of words and the counter to use next.
    Nothing is assumed about how the counter advances.

    The module has two layers:
    - a value model (`State`, `Step`, `Run`) of one call and of n calls, with
      the lemmas that relate the words returned to the batches generated;
    - the class `Blake2Engine`, whose fields are updated in place as in the
      C++ class, and whose invariant says its state is the value model's
      state after the calls made so far. */
module Blake2 {

  /** `PRNG::PRNG_BUFFER_SIZE`, from prng.h, which is not part of this model.
      The buffer index is a `uint16_t` and is compared with the size cast to
      `uint16_t`, so the size must fit in 16 bits; any such positive size is
      covered. */
  type BufferSize = n: nat | 0 < n <= 65535 witness 1
  const PRNG_BUFFER_SIZE: BufferSize

  /** `PRNG::MAX_SEED_GENS`, the number of words in a seed (prng.h). */
  const MAX_SEED_GENS: nat

  /** `PRNG::result_type`, an unsigned machine word. */
  newtype Word = x: int | 0 <= x < 0x1_0000_0000

  /** The buffer index `m_bufferIndex`, a `uint16_t`. */
  newtype uint16 = x: int | 0 <= x < 0x1_0000

  /** A seed: exactly `MAX_SEED_GENS` words (a `std::array`). */
  type Seed = s: seq<Word> | |s| == MAX_SEED_GENS witness seq(MAX_SEED_GENS, _ => 0)

  /** A full buffer's worth of words, as one `Generate()` produces it. */
  type Batch = s: seq<Word> | |s| == PRNG_BUFFER_SIZE witness seq(PRNG_BUFFER_SIZE, _ => 0)

  /** What one `Generate()` produces: the new buffer contents and the counter
      the engine holds afterwards. */
  datatype Refill = Refill(batch: Batch, counter: Word)

  /** The opaque refill step. */
  type Generator = (Seed, Word) -> Refill

  // ---------------------------------------------------------------------
  // The reference stream: the batches that repeated `Generate()` calls
  // produce, one after another, and their concatenation.
  // ---------------------------------------------------------------------

  /** The counter held after `k` refills starting from counter `c`. */
  function CounterAfter(g: Generator, seed: Seed, c: Word, k: nat): Word
  {
    if k == 0 then c else g(seed, CounterAfter(g, seed, c, k - 1)).counter
  }

  /** The first `k` batches produced from (seed, c), in order. */
  function Batches(g: Generator, seed: Seed, c: Word, k: nat): (bs: seq<Batch>)
    ensures |bs| == k
  {
    if k == 0 then [] else Batches(g, seed, c, k - 1) + [g(seed, CounterAfter(g, seed, c, k - 1)).batch]
  }

  /** Batch `j` is what `Generate()` makes from the counter reached after
      `j` refills, however many batches follow it. */
  lemma {:induction false} BatchAt(g: Generator, seed: Seed, c: Word, k: nat, j: nat)
    requires j < k
    ensures Batches(g, seed, c, k)[j] == g(seed, CounterAfter(g, seed, c, j)).batch
  {
    if j < k - 1 {
      BatchAt(g, seed, c, k - 1, j);
    }
  }

  /** The words of a list of batches, end to end. */
  function Flatten(bs: seq<Batch>): (ws: seq<Word>)
    ensures |ws| == |bs| * PRNG_BUFFER_SIZE
  {
    if bs == [] then [] else Flatten(bs[..|bs| - 1]) + bs[|bs| - 1]
  }

  /** Flattening one more batch appends its words. */
  lemma FlattenAppend(bs: seq<Batch>, b: Batch)
    ensures Flatten(bs + [b]) == Flatten(bs) + b
  {
  }

  /** The first `k` batches' worth of the stream defined by (seed, c). */
  function Stream(g: Generator, seed: Seed, c: Word, k: nat): (ws: seq<Word>)
    ensures |ws| == k * PRNG_BUFFER_SIZE
  {
    Flatten(Batches(g, seed, c, k))
  }

  /** Shorter streams are prefixes of longer ones: generating more batches
      never revises the words already generated. */
  lemma {:induction false} StreamPrefix(g: Generator, seed: Seed, c: Word, k: nat, l: nat)
    requires k <= l
    ensures Stream(g, seed, c, k) <= Stream(g, seed, c, l)
    decreases l - k
  {
    if k < l {
      StreamPrefix(g, seed, c, k, l - 1);
      FlattenAppend(Batches(g, seed, c, l - 1), g(seed, CounterAfter(g, seed, c, l - 1)).batch);
    }
  }

  // ---------------------------------------------------------------------
  // The value model of the engine.
  // ---------------------------------------------------------------------

  /** The engine's data: seed and counter (held by the `PRNG` base class),
      `m_buffer` and `m_bufferIndex`. */
  datatype State = State(seed: Seed, counter: Word, buffer: seq<Word>, index: nat)

  /** The buffer has its fixed length and the index never passes its end. */
  predicate WellFormed(s: State)
  {
    |s.buffer| == PRNG_BUFFER_SIZE && s.index <= PRNG_BUFFER_SIZE
  }

  /** The constructor's state: the given seed and counter, a zero-filled
      buffer and index 0. */
  function Init(seed: Seed, counter: Word): (s: State)
    ensures WellFormed(s) && s.index == 0 && s.seed == seed && s.counter == counter
    ensures forall i :: 0 <= i < |s.buffer| ==> s.buffer[i] == 0
  {
    State(seed, counter, seq(PRNG_BUFFER_SIZE, _ => 0), 0)
  }

  /** A refill is due exactly when the index is on a boundary. */
  predicate RefillDue(s: State)
  {
    s.index == 0 || s.index == PRNG_BUFFER_SIZE
  }

  /** The outcome of one `operator()` call: the word returned, the state
      afterwards, and the batches `Generate()` produced during the call. */
  datatype Call = Call(word: Word, next: State, generated: seq<Batch>)

  /** One `operator()` call. Afterwards the index is in [1, N] and the word
      returned is the buffer word just before it. A refill happens exactly
      when one is due, and then produces one batch, which becomes the buffer;
      otherwise only the index moves, by one. */
  function Step(g: Generator, s: State): (r: Call)
    requires WellFormed(s)
    ensures WellFormed(r.next) && 1 <= r.next.index
    ensures r.next.seed == s.seed
    ensures r.word == r.next.buffer[r.next.index - 1]
    ensures RefillDue(s) ==> r.generated == [r.next.buffer] && r.next.index == 1
    ensures !RefillDue(s) ==> r.generated == [] && r.next == s.(index := s.index + 1)
  {
    var i := if s.index == PRNG_BUFFER_SIZE then 0 else s.index;
    if i == 0 then
      var made := g(s.seed, s.counter);
      Call(made.batch[0], State(s.seed, made.counter, made.batch, 1), [made.batch])
    else
      Call(s.buffer[i], s.(index := i + 1), [])
  }

  /** What `n` consecutive calls return and generate, and the final state. */
  datatype Trace = Trace(words: seq<Word>, batches: seq<Batch>, final: State)

  /** `n` consecutive `operator()` calls starting in state `s`. */
  function Run(g: Generator, s: State, n: nat): (t: Trace)
    requires WellFormed(s)
    ensures WellFormed(t.final) && |t.words| == n
    ensures t.final.seed == s.seed
    ensures n > 0 ==> 1 <= t.final.index
  {
    if n == 0 then Trace([], [], s)
    else
      var t := Run(g, s, n - 1);
      var r := Step(g, t.final);
      Trace(t.words + [r.word], t.batches + r.generated, r.next)
  }

  /** From a boundary, `m` calls (1 <= m <= N) generate exactly one batch,
      from the current seed and counter, and return its first `m` words in
      order. With m = N the whole batch is returned and the engine is on a
      boundary again. */
  lemma {:induction false} RunFromBoundary(g: Generator, s: State, m: nat)
    requires WellFormed(s) && RefillDue(s) && 1 <= m <= PRNG_BUFFER_SIZE
    ensures var made := g(s.seed, s.counter);
            var t := Run(g, s, m);
            && t.words == made.batch[..m]
            && t.batches == [made.batch]
            && t.final == State(s.seed, made.counter, made.batch, m)
  {
    if m > 1 {
      RunFromBoundary(g, s, m - 1);
    }
  }

  /** How a trace from a freshly constructed engine with (seed, c) is
      explained by the reference stream: the batches generated are the
      stream's first batches and the counter is the one reached after them;
      before any call the engine is untouched; after a call the buffer holds
      the last batch, and the words returned followed by the unread rest of
      the buffer are exactly the batches end to end. */
  ghost predicate Explains(g: Generator, seed: Seed, c: Word, t: Trace)
  {
    var k := |t.batches|;
    && WellFormed(t.final)
    && t.batches == Batches(g, seed, c, k)
    && t.final.seed == seed
    && t.final.counter == CounterAfter(g, seed, c, k)
    && (k == 0 ==> t.words == [] && t.final.index == 0)
    && (k > 0 ==> 1 <= t.final.index && t.final.buffer == t.batches[k - 1]
                  && t.words + t.final.buffer[t.final.index..] == Flatten(t.batches))
  }

  /** A call that refills keeps a trace explained: the new batch is the
      stream's next one, and the words returned so far were exactly the
      earlier batches. */
  lemma RefillExplained(g: Generator, seed: Seed, c: Word, t: Trace)
    requires Explains(g, seed, c, t) && RefillDue(t.final)
    ensures var r := Step(g, t.final);
            Explains(g, seed, c, Trace(t.words + [r.word], t.batches + r.generated, r.next))
  {
  }

  /** A call that reads from the buffer keeps a trace explained: it moves
      one word from the unread rest of the buffer to the words returned. */
  lemma ReadExplained(g: Generator, seed: Seed, c: Word, t: Trace)
    requires Explains(g, seed, c, t) && !RefillDue(t.final)
    ensures var r := Step(g, t.final);
            Explains(g, seed, c, Trace(t.words + [r.word], t.batches + r.generated, r.next))
  {
  }

  /** Every run from a freshly constructed engine is explained by the
      reference stream. */
  lemma {:induction false} RunExplained(g: Generator, seed: Seed, c: Word, n: nat)
    ensures Explains(g, seed, c, Run(g, Init(seed, c), n))
  {
    if n > 0 {
      RunExplained(g, seed, c, n - 1);
      var t := Run(g, Init(seed, c), n - 1);
      if RefillDue(t.final) {
        RefillExplained(g, seed, c, t);
      } else {
        ReadExplained(g, seed, c, t);
      }
    }
  }

  /** Buffering is invisible in the output. After `n` calls of a freshly
      constructed engine with (seed, c), having generated `k` batches:
      - the words returned are the first `n` words of the stream, in order,
        none skipped and none repeated;
      - the batches generated are the stream's first `k`, and `k` is the
        fewest that cover `n` words (one refill per N calls, no more);
      - the counter is the one reached after `k` refills. */
  lemma RunMatchesStream(g: Generator, seed: Seed, c: Word, n: nat)
    ensures var t := Run(g, Init(seed, c), n);
            var k := |t.batches|;
            && t.batches == Batches(g, seed, c, k)
            && n <= k * PRNG_BUFFER_SIZE < n + PRNG_BUFFER_SIZE
            && t.words == Stream(g, seed, c, k)[..n]
            && t.final.counter == CounterAfter(g, seed, c, k)
  {
    RunExplained(g, seed, c, n);
    var t := Run(g, Init(seed, c), n);
    if |t.batches| > 0 {
      var rest := t.final.buffer[t.final.index..];
      assert (t.words + rest)[..n] == t.words;
    }
  }

  // ---------------------------------------------------------------------
  // The class.
  // ---------------------------------------------------------------------

  class Blake2Engine {
    /** The seed and counter of the `PRNG` base class. */
    var seed: Seed
    var counter: Word
    /** `m_buffer` and `m_bufferIndex`. */
    var buffer: array<Word>
    var index: uint16
    /** Stands for the body of the private `Generate()`. */
    const generate: Generator

    /** The seed and counter this engine's history started from, the words
        returned so far and the batches `Generate()` has produced so far. */
    ghost var startSeed: Seed
    ghost var startCounter: Word
    ghost var emitted: seq<Word>
    ghost var batches: seq<Batch>

    /** The engine's data as a value. */
    ghost function Data(): State
      reads this, buffer
    {
      State(seed, counter, buffer[..], index as nat)
    }

    /** The object invariant: the index stays within the buffer, and the
        engine is in exactly the state the value model reaches after the
        calls made so far, having returned `emitted` and generated
        `batches`. */
    ghost predicate Valid()
      reads this, buffer
    {
      && buffer.Length == PRNG_BUFFER_SIZE
      && index as nat <= PRNG_BUFFER_SIZE
      && Run(generate, Init(startSeed, startCounter), |emitted|) == Trace(emitted, batches, Data())
    }

    /** `Blake2Engine(seed, counter)`: index 0 and a zero-filled buffer, so
        the first call refills. */
    constructor (seed: Seed, counter: Word, generate: Generator)
      ensures Valid() && fresh(buffer)
      ensures Data() == Init(seed, counter)
      ensures this.generate == generate
      ensures emitted == [] && batches == []
    {
      this.seed := seed;
      this.counter := counter;
      this.generate := generate;
      buffer := new Word[PRNG_BUFFER_SIZE](_ => 0);
      index := 0;
      startSeed := seed;
      startCounter := counter;
      emitted := [];
      batches := [];
      new;
      assert buffer[..] == seq(PRNG_BUFFER_SIZE, _ => 0);
    }

    /** The copy constructor: a fresh buffer holding the same words, the same
        index, seed and counter (and the same history). */
    constructor Copy(other: Blake2Engine)
      requires other.Valid()
      ensures Valid() && fresh(buffer)
      ensures Data() == other.Data() && generate == other.generate
      ensures startSeed == other.startSeed && startCounter == other.startCounter
      ensures emitted == other.emitted && batches == other.batches
    {
      seed := other.seed;
      counter := other.counter;
      generate := other.generate;
      buffer := new Word[PRNG_BUFFER_SIZE](i requires 0 <= i < other.buffer.Length reads other, other.buffer => other.buffer[i]);
      index := other.index;
      startSeed := other.startSeed;
      startCounter := other.startCounter;
      emitted := other.emitted;
      batches := other.batches;
      new;
      assert buffer[..] == other.buffer[..];
    }

    /** The private `Generate()`: overwrites the whole buffer with a fresh
        batch made from the seed and counter, and moves to the next counter. */
    method Generate()
      requires buffer.Length == PRNG_BUFFER_SIZE
      modifies this`counter, this`batches, buffer
      ensures buffer[..] == old(generate(seed, counter)).batch
      ensures counter == old(generate(seed, counter)).counter
      ensures batches == old(batches) + [buffer[..]]
    {
      var made := generate(seed, counter);
      forall i | 0 <= i < PRNG_BUFFER_SIZE {
        buffer[i] := made.batch[i];
      }
      assert buffer[..] == made.batch;
      counter := made.counter;
      batches := batches + [made.batch];
    }

    /** `operator()`: the next word of the stream. */
    method Next() returns (r: Word)
      requires Valid()
      modifies this`counter, this`index, this`batches, this`emitted, buffer
      ensures Valid()
      ensures var call := Step(generate, old(Data()));
                r == call.word && Data() == call.next && batches == old(batches) + call.generated
      ensures emitted == old(emitted) + [r]
      ensures 1 <= index as nat <= PRNG_BUFFER_SIZE
      ensures old(index) == 0 || old(index) as nat == PRNG_BUFFER_SIZE ==>
                var made := old(generate(seed, counter));
                && batches == old(batches) + [made.batch]
                && buffer[..] == made.batch && counter == made.counter
                && r == made.batch[0] && index == 1
      ensures 0 < old(index) as nat < PRNG_BUFFER_SIZE ==>
                && batches == old(batches) && buffer[..] == old(buffer[..]) && counter == old(counter)
                && r == old(buffer[index]) && index == old(index) + 1
    {
      ghost var call := Step(generate, Data());
      ghost var after := Trace(emitted + [call.word], batches + call.generated, call.next);
      assert Run(generate, Init(startSeed, startCounter), |emitted| + 1) == after;
      if index == PRNG_BUFFER_SIZE as uint16 {
        index := 0;
      }
      if index == 0 {
        Generate();
        assert buffer[..] == call.next.buffer;
      }
      r := buffer[index];
      index := index + 1;
      emitted := emitted + [r];
      assert Data() == call.next;
      assert Trace(emitted, batches, Data()) == after;
    }

    /** Everything the engine has returned is the beginning of the stream of
        its starting seed and counter, word for word, and the batches it has
        generated are the fewest of that stream that cover those words. */
    lemma OutputIsStream()
      requires Valid()
      ensures batches == Batches(generate, startSeed, startCounter, |batches|)
      ensures |emitted| <= |batches| * PRNG_BUFFER_SIZE < |emitted| + PRNG_BUFFER_SIZE
      ensures emitted == Stream(generate, startSeed, startCounter, |batches|)[..|emitted|]
    {
      RunMatchesStream(generate, startSeed, startCounter, |emitted|);
    }
  }
}
