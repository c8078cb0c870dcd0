/** Context and batch sizes of a model server, `resolveContextParams`, and the size of its sliding-window cache. */
module ContextParams {
  import opened Options
  import opened Numbers

  const DEFAULT_CTX := 4096
  const DEFAULT_BATCH := 2048
  const DEFAULT_UBATCH := 512
  const DEFAULT_SEQ_MAX := 4

  // The arguments that matter here; None for one that is not given.
  datatype Args = Args(
    ctxSize: Option<int>,
    parallel: Option<int>,
    kvUnified: bool,
    batchSize: Option<int>,
    ubatchSize: Option<int>,
    causalAttention: bool,
    embeddingOrRerank: bool,
    swaFull: bool)

  datatype Params = Params(nCtx: int, nCtxSeq: int, nBatch: int, nUbatch: int, nSeqMax: int, kvUnified: bool,
      swaFull: bool)

  /** `pad(value, KV_PAD)`: `Math.ceil(value / 256) * 256`. */
  function Pad(value: int): int { -((-value) / 256) * 256 }

  function CtxRequested(args: Args, trained: Option<int>): int {
    if args.ctxSize.Some? && args.ctxSize.value > 0 then args.ctxSize.value else trained.GetOr(DEFAULT_CTX)
  }

  function SeqMax(args: Args): int {
    if args.parallel.Some? && args.parallel.value > 0 then args.parallel.value else DEFAULT_SEQ_MAX
  }

  function KvUnified(args: Args): bool {
    if args.parallel.None? || args.parallel.value < 0 then true else args.kvUnified
  }

  function Resolve(args: Args, trained: Option<int>): Params {
    var requested, nSeqMax, unified := CtxRequested(args, trained), SeqMax(args), KvUnified(args);
    var padded := Pad(requested);
    var nCtxSeq := if unified then padded else Pad(padded / nSeqMax);
    var nCtx := if unified then padded else nCtxSeq * nSeqMax;
    var configured := if args.batchSize.Some? && args.batchSize.value > 0 then args.batchSize.value else DEFAULT_BATCH;
    var nBatch := if args.causalAttention then Min(requested, configured) else configured;
    var ubatch :=
      if args.ubatchSize == Some(0) then nBatch
      else if args.ubatchSize.Some? && args.ubatchSize.value > 0 then args.ubatchSize.value
      else DEFAULT_UBATCH;
    var nUbatch := Min(nBatch, ubatch);
    var finalBatch := if args.embeddingOrRerank && nBatch > nUbatch then nUbatch else nBatch;
    Params(nCtx, nCtxSeq, finalBatch, nUbatch, nSeqMax, unified, args.swaFull)
  }

  function SwaSize(p: Params, window: Option<int>): int {
    if window.None? then 0
    else if p.swaFull then p.nCtxSeq
    else Pad(Min(p.nCtxSeq, window.value * (if p.kvUnified then p.nSeqMax else 1) + p.nUbatch))
  }

  /** Padding goes up to the next multiple and no further. */
  lemma PadShape(value: int)
    ensures Pad(value) % 256 == 0 && value <= Pad(value) < value + 256
    ensures value % 256 == 0 ==> Pad(value) == value
  {
  }

  lemma PadIsLeast(value: int, above: int)
    requires value <= above && above % 256 == 0
    ensures Pad(value) <= above
  {
  }

  /** Exactly when splitting the padded context over the sequences loses some of it. */
  predicate SplitFallsShort(padded: int, nSeqMax: int)
    requires nSeqMax > 0
  {
    (padded / nSeqMax) % 256 == 0 && padded % nSeqMax != 0
  }

  lemma Grow(a: int, b: int, n: int)
    requires a <= b && n > 0
    ensures a * n <= b * n
  {
  }

  lemma SplitPadding(padded: int, n: int)
    requires n > 0 && padded > 0
    ensures Pad(padded / n) * n < padded <==> SplitFallsShort(padded, n)
  {
    var q, r := padded / n, padded % n;
    assert padded == q * n + r && 0 <= r < n;
    PadShape(q);
    if q % 256 != 0 {
      Grow(q + 1, Pad(q), n);
      assert (q + 1) * n == q * n + n;
    }
  }

  /**
   The context is at least what was asked for, in both cache modes, exactly unless
   it is split over the sequences and the split falls short. All sizes are whole
   pads, except that a split context of n sequences is n times one.
   */
  lemma ContextBound(args: Args, trained: Option<int>)
    requires CtxRequested(args, trained) > 0
    ensures var p, requested := Resolve(args, trained), CtxRequested(args, trained);
            && p.nCtx % 256 == 0 && p.nCtxSeq % 256 == 0
            && (p.nCtx >= requested <==> p.kvUnified || !SplitFallsShort(Pad(requested), p.nSeqMax))
  {
    var p, requested := Resolve(args, trained), CtxRequested(args, trained);
    PadShape(requested);
    var padded := Pad(requested);
    if !p.kvUnified {
      PadShape(padded / p.nSeqMax);
      SplitPadding(padded, p.nSeqMax);
      var k := p.nCtxSeq / 256;
      assert p.nCtxSeq == 256 * k;
      Regroup(k, p.nSeqMax);
      if p.nCtx >= requested {
        PadIsLeast(requested, p.nCtx);
      }
    }
  }

  lemma Regroup(k: int, n: int)
    ensures 256 * k * n == 256 * (k * n) && (256 * (k * n)) % 256 == 0
  {
  }

  /** Up to 256 sequences the split never falls short. */
  lemma FewSequencesSuffice(padded: int, n: int)
    requires 1 <= n <= 256 && padded > 0 && padded % 256 == 0
    ensures !SplitFallsShort(padded, n)
  {
    var q, r := padded / n, padded % n;
    assert padded == q * n + r && 0 <= r < n;
    if q % 256 == 0 {
      var a, b := padded / 256, q / 256;
      assert q == 256 * b;
      Regroup(b, n);
      assert r == 256 * (a - b * n);
    }
  }

  lemma ContextIsEnough(args: Args, trained: Option<int>)
    requires CtxRequested(args, trained) > 0 && SeqMax(args) <= 256
    ensures Resolve(args, trained).nCtx >= CtxRequested(args, trained)
  {
    ContextBound(args, trained);
    PadShape(CtxRequested(args, trained));
    FewSequencesSuffice(Pad(CtxRequested(args, trained)), SeqMax(args));
  }

  /** With 257 sequences a context of 66048 falls short. */
  lemma ManySequencesFallShort(trained: Option<int>)
    ensures var args := Args(Some(66048), Some(257), false, None, None, true, false, false);
            Resolve(args, trained).nCtx == 65792
  {
    assert Pad(66048) == 66048;
    assert 66048 / 257 == 256;
    assert Pad(256) == 256;
  }

  /** A micro-batch is never larger than a batch, and a sliding-window cache never larger than a full one. */
  lemma BatchAndWindowBound(args: Args, trained: Option<int>, window: Option<int>)
    requires CtxRequested(args, trained) > 0
    ensures var p := Resolve(args, trained);
            && p.nUbatch <= p.nBatch
            && (window.Some? && window.value >= 0 ==> SwaSize(p, window) <= p.nCtxSeq)
            && SwaSize(p, window) % 256 == 0
  {
    ContextBound(args, trained);
    var p := Resolve(args, trained);
    if window.Some? && !p.swaFull {
      var wanted := window.value * (if p.kvUnified then p.nSeqMax else 1) + p.nUbatch;
      PadShape(Min(p.nCtxSeq, wanted));
      PadIsLeast(Min(p.nCtxSeq, wanted), p.nCtxSeq);
    }
  }

  // The sizes by what they are bounded by and reach.

  predicate IsLesser(x: int, a: int, b: int) { x <= a && x <= b && (x == a || x == b) }

  predicate IsPadded(x: int, value: int) { x % 256 == 0 && value <= x < value + 256 }

  /** A number given and above 0 counts, or else the default. */
  predicate Takes(x: int, value: Option<int>, fallback: int) {
    if value.Some? && value.value > 0 then x == value.value else x == fallback
  }

  /**
   The context of one sequence: of a unified cache the requested one, padded; of a
   split cache the least pads that hold each sequence's part of it, rounded down.
   */
  lemma ContextExactly(args: Args, trained: Option<int>, requested: int, padded: int)
    requires Takes(requested, args.ctxSize, trained.GetOr(4096)) && requested > 0 && IsPadded(padded, requested)
    ensures var p := Resolve(args, trained);
            && Takes(p.nSeqMax, args.parallel, 4)
            && (p.kvUnified <==> args.parallel.None? || args.parallel.value < 0 || args.kvUnified)
            && (p.kvUnified ==> p.nCtx == p.nCtxSeq == padded)
            && (!p.kvUnified ==>
                  && p.nCtx == p.nCtxSeq * p.nSeqMax && p.nCtxSeq % 256 == 0
                  && (p.nCtxSeq - 255) * p.nSeqMax <= padded < (p.nCtxSeq + 1) * p.nSeqMax)
            && p.swaFull == args.swaFull
  {
    var p := Resolve(args, trained);
    hide Pad;
    PadShape(requested);
    OnePad(padded, Pad(requested), requested);
    if !p.kvUnified { PartExactly(padded, p.nSeqMax); }
  }

  lemma OnePad(a: int, b: int, value: int)
    requires IsPadded(a, value) && IsPadded(b, value)
    ensures a == b
  {
  }

  lemma PartExactly(padded: int, n: int)
    requires n > 0
    ensures var part := Pad(padded / n);
            part % 256 == 0 && (part - 255) * n <= padded < (part + 1) * n
  {
    hide Pad;
    var q, r := padded / n, padded % n;
    Division(padded, n);
    PadShape(q);
    Grow(Pad(q) - 255, q, n);
    Grow(q + 1, Pad(q) + 1, n);
  }

  lemma Division(a: int, n: int)
    requires n > 0
    ensures a / n * n <= a < (a / n + 1) * n
  {
    assert a == a / n * n + a % n;
  }

  /**
   The batch is the configured one, within the context for causal attention; the micro-batch lies
   within the batch.
   */
  predicate IsBatch(args: Args, requested: int, configured: int, p: Params, batch: int) {
    && (if args.causalAttention then IsLesser(batch, requested, configured) else batch == configured)
    && (if args.ubatchSize == Some(0) then p.nUbatch == batch
        else if args.ubatchSize.Some? && args.ubatchSize.value > 0
        then IsLesser(p.nUbatch, batch, args.ubatchSize.value)
        else IsLesser(p.nUbatch, batch, 512))
    && p.nBatch == if args.embeddingOrRerank then p.nUbatch else batch
  }

  lemma BatchExactly(args: Args, trained: Option<int>, requested: int, configured: int)
    requires Takes(requested, args.ctxSize, trained.GetOr(4096)) && Takes(configured, args.batchSize, 2048)
    ensures exists batch :: IsBatch(args, requested, configured, Resolve(args, trained), batch)
  {
    hide Pad;
    var batch := if args.causalAttention then Min(requested, configured) else configured;
    assert IsBatch(args, requested, configured, Resolve(args, trained), batch);
  }

  /**
   The window cache: without a window nothing; else the window of every sequence
   that shares the cache and a micro-batch, padded, unless the full cache is smaller.
   */
  lemma WindowExactly(p: Params, window: Option<int>)
    requires p.nCtxSeq % 256 == 0
    ensures window.None? ==> SwaSize(p, window) == 0
    ensures window.Some? && p.swaFull ==> SwaSize(p, window) == p.nCtxSeq
    ensures window.Some? && !p.swaFull ==>
              var size, wanted := SwaSize(p, window), window.value * (if p.kvUnified then p.nSeqMax else 1) + p.nUbatch;
              && size % 256 == 0 && size <= p.nCtxSeq && size < wanted + 256
              && (size >= wanted || size == p.nCtxSeq)
  {
    if window.Some? && !p.swaFull {
      var wanted := window.value * (if p.kvUnified then p.nSeqMax else 1) + p.nUbatch;
      PadShape(Min(p.nCtxSeq, wanted));
      PadIsLeast(Min(p.nCtxSeq, wanted), p.nCtxSeq);
    }
  }
}
