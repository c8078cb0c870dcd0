/**
 Where the weights of a model go, told by how their names are printed and by the
 numbers of the split: each pool's bytes in `AccumulateWeights` are those of the
 tensors that belong there.
 */
module WeightPlacement {
  import opened Options
  import opened Decimals
  import opened MapSums
  import opened Numbers
  import opened TextSearch
  import opened GpuPlacement

  // A tensor of a layer, "blk.<layer>.<rest>" with any number of leading zeros, or one of the whole model.
  datatype Weight =
    | OfLayer(zeros: nat, layer: nat, rest: string, bytes: nat)
    | OfModel(name: string, bytes: nat)

  function Prefix(zeros: nat, layer: nat): string { "blk." + Zeros(zeros) + FromNat(layer) + "." }

  function NameOf(w: Weight): string {
    match w
    case OfLayer(zeros, layer, rest, _) => Prefix(zeros, layer) + rest
    case OfModel(name, _) => name
  }

  /** What is not printed as a layer's is the model's. */
  ghost predicate IsNamed(w: Weight) {
    w.OfModel? ==> forall zeros, layer :: !(Prefix(zeros, layer) <= w.name)
  }

  function TensorOf(w: Weight): Tensor { Tensor(NameOf(w), w.bytes) }

  function TensorsOf(ws: seq<Weight>): seq<Tensor> { seq(|ws|, i requires 0 <= i < |ws| => TensorOf(ws[i])) }

  // The parts of a name.

  predicate IsExpertPart(part: string) {
    || part == "ffn_up_exps" || part == "ffn_down_exps" || part == "ffn_gate_exps" || part == "ffn_gate_up_exps"
    || part == "ffn_up_chexps" || part == "ffn_down_chexps" || part == "ffn_gate_chexps" || part == "ffn_gate_up_chexps"
  }

  ghost predicate HasExpertPart(text: string) {
    exists head, part, tail :: IsExpertPart(part) && text == head + part + tail
  }

  function FirstWord(name: string): string {
    if name == "" || !IsWordChar(name[0]) then "" else [name[0]] + FirstWord(name[1..])
  }

  // The pools.

  predicate OnGpus(p: Placement) {
    |p.layers.split| > 0 && p.layers.nGpu > 0 && !(p.layers.splitModeNone && p.requestedMainGpu < 0)
  }

  /** The shares of the first k GPUs. */
  function Shares(split: seq<real>, k: nat): real
    requires k <= |split|
  {
    if k == 0 then 0.0 else Shares(split, k - 1) + split[k - 1]
  }

  /**
   The GPU whose part of the split holds position m of n, and the last one for what
   lies behind all positions.
   */
  predicate IsHolder(split: seq<real>, m: int, n: int, k: nat) {
    && k < |split|
    && if m >= n then k == |split| - 1
       else Shares(split, k) * n as real <= m as real * Shares(split, |split|) < Shares(split, k + 1) * n as real
  }

  /** The first layers stay on the host; the last nGpu are spread over the GPUs in the order of the split. */
  ghost predicate IsPoolOf(p: Placement, layer: int, pool: string) {
    var all, split := p.layers.layerAll, p.layers.split;
    if !OnGpus(p) || layer < all - p.layers.nGpu then pool == "host"
    else if p.layers.splitModeNone then pool == "gpu" + FromNat(p.layers.mainGpu)
    else
      var n := if p.layers.nGpu < all then p.layers.nGpu else all;
      var m := layer - (all - n);
      exists k :: IsHolder(split, m, n, k) && pool == "gpu" + FromNat(k)
  }

  ghost predicate GoesTo(p: Placement, w: Weight, pool: string) {
    match w
    case OfLayer(_, layer, rest, _) =>
      if HasExpertPart(rest) && layer < p.expertHostLayers then pool == "host" else IsPoolOf(p, layer, pool)
    case OfModel(name, _) =>
      if FirstWord(name) == "output" || FirstWord(name) == "output_norm"
      then IsPoolOf(p, p.layers.layerAll - 1, pool)
      else pool == "host"
  }

  ghost function BytesAt(p: Placement, ws: seq<Weight>, pool: string): nat {
    if ws == [] then 0
    else
      var w := ws[|ws| - 1];
      BytesAt(p, ws[..|ws| - 1], pool) + (if GoesTo(p, w, pool) then w.bytes else 0)
  }

  function AllBytes(ws: seq<Weight>): nat {
    if ws == [] then 0 else AllBytes(ws[..|ws| - 1]) + ws[|ws| - 1].bytes
  }

  predicate IsFirst(ws: seq<Weight>, name: string, i: nat) {
    i < |ws| && NameOf(ws[i]) == name && forall j | 0 <= j < i :: NameOf(ws[j]) != name
  }

  /** The token embedding is kept a second time for output on a GPU if the model has no output weights. */
  predicate IsTied(p: Placement, ws: seq<Weight>, extra: nat) {
    if OnGpus(p) && (forall w <- ws :: NameOf(w) != "output.weight")
       && exists w <- ws :: NameOf(w) == "token_embd.weight"
    then exists i | 0 <= i < |ws| :: IsFirst(ws, "token_embd.weight", i) && extra == ws[i].bytes
    else extra == 0
  }

  predicate IsModel(p: Placement) {
    && p.layers.layerAll > 0
    && (OnGpus(p) ==> IsSplit(p.layers.split, |p.layers.split|))
  }

  // Reading names.

  lemma {:induction false} DigitsLead(digits: string, more: string)
    requires IsDigits(digits) && (more == "" || !IsDigit(more[0]))
    ensures LeadingDigits(digits + more) == |digits|
    decreases |digits|
  {
    if digits == "" {
      assert digits + more == more;
    } else {
      DigitsLead(digits[1..], more);
      assert (digits + more)[1..] == digits[1..] + more;
    }
  }

  lemma LayerRead(zeros: nat, layer: nat, rest: string)
    ensures LayerIndex(Prefix(zeros, layer) + rest) == Some(layer)
  {
    var name, digits := Prefix(zeros, layer) + rest, Zeros(zeros) + FromNat(layer);
    assert IsDigits(digits);
    assert name == "blk." + (digits + ("." + rest));
    DigitsLead(digits, "." + rest);
    ReadPrinted(layer);
    ZerosCountNothing(zeros, FromNat(layer));
    assert name[4..] == digits + ("." + rest) && (digits + ("." + rest))[..|digits|] == digits;
  }

  lemma DigitsPrinted(digits: string)
    requires IsDigits(digits) && digits != ""
    ensures exists zeros :: Zeros(zeros) + FromNat(ToNat(digits)) == digits
  {
    PrintRead(digits);
    ZeroZeros(FromNat(ToNat(digits)));
    assert Zeros(|digits| - |FromNat(ToNat(digits))|) + FromNat(ToNat(digits)) == digits;
  }

  /** A name that reads as a layer's is printed as one. */
  lemma LayerPrinted(name: string)
    requires LayerIndex(name).Some?
    ensures exists zeros :: Prefix(zeros, LayerIndex(name).value) <= name
  {
    hide Zeros, FromNat, ToNat;
    var rest := name[4..];
    var digits := rest[..LeadingDigits(rest)];
    var layer := ToNat(digits);
    DigitsPrinted(digits);
    var zeros :| Zeros(zeros) + FromNat(layer) == digits;
    var prefix := "blk." + digits + ".";
    assert prefix == name[..|prefix|];
    assert Prefix(zeros, layer) == prefix by { PrefixIs(zeros, layer, digits); }
  }

  lemma PrefixIs(zeros: nat, layer: nat, digits: string)
    requires Zeros(zeros) + FromNat(layer) == digits
    ensures Prefix(zeros, layer) == "blk." + digits + "."
  {
    hide Zeros, FromNat;
    assert "blk." + Zeros(zeros) + FromNat(layer) == "blk." + (Zeros(zeros) + FromNat(layer));
  }

  lemma ZeroZeros(text: string)
    ensures Zeros(0) + text == text
  {
  }

  lemma WordRead(name: string, word: string)
    requires word != "" && forall c <- word :: IsWordChar(c)
    ensures StartsWithWord(name, word) <==> FirstWord(name) == word
    decreases |name|
  {
    FirstWordShape(name);
    if StartsWithWord(name, word) {
      assert forall i | 0 <= i < |word| :: name[i] == word[i] && word[i] in word;
      WordLength(name, |word|);
      assert FirstWord(name) == name[..|word|] == word;
    }
  }

  lemma {:induction false} WordLength(name: string, k: nat)
    requires k <= |name| && (forall i | 0 <= i < k :: IsWordChar(name[i])) && (k < |name| ==> !IsWordChar(name[k]))
    ensures |FirstWord(name)| == k
    decreases k
  {
    if k > 0 { WordLength(name[1..], k - 1); }
  }

  lemma {:induction false} FirstWordShape(name: string)
    ensures var first := FirstWord(name);
            && first <= name && (forall i | 0 <= i < |first| :: IsWordChar(first[i]))
            && (|first| < |name| ==> !IsWordChar(name[|first|]))
    decreases |name|
  {
    if name != "" && IsWordChar(name[0]) { FirstWordShape(name[1..]); }
  }

  lemma ExpertRead(text: string)
    ensures IsExpert(text) <==> HasExpertPart(text)
  {
    hide Occurs;
    if IsExpert(text) {
      var i :| 0 <= i < |EXPERT_PARTS| && Occurs(text, EXPERT_PARTS[i]);
      OccursExactly(text, EXPERT_PARTS[i]);
      assert IsExpertPart(EXPERT_PARTS[i]);
    }
    if HasExpertPart(text) {
      var head, part, tail :| IsExpertPart(part) && text == head + part + tail;
      OccursExactly(text, part);
      ExpertListed(part);
    }
  }

  lemma ExpertListed(part: string)
    requires IsExpertPart(part)
    ensures exists i | 0 <= i < |EXPERT_PARTS| :: EXPERT_PARTS[i] == part
    ensures part != "" && part[0] == 'f'
  {
    assert EXPERT_PARTS[0] == "ffn_up_exps" && EXPERT_PARTS[1] == "ffn_up_chexps" && EXPERT_PARTS[2] == "ffn_down_exps"
        && EXPERT_PARTS[3] == "ffn_down_chexps" && EXPERT_PARTS[4] == "ffn_gate_exps"
        && EXPERT_PARTS[5] == "ffn_gate_chexps" && EXPERT_PARTS[6] == "ffn_gate_up_exps"
        && EXPERT_PARTS[7] == "ffn_gate_up_chexps";
  }

  /** A part that begins with a letter that `before` lacks lies behind it. */
  lemma LiesBehind(before: string, rest: string, head: string, part: string, tail: string)
    requires part != "" && forall i | 0 <= i < |before| :: before[i] != part[0]
    requires before + rest == head + part + tail
    ensures |before| <= |head| && rest == head[|before|..] + part + tail
  {
    var name := head + part + tail;
    assert forall i | 0 <= i < |before| :: (before + rest)[i] == before[i];
    assert forall i | 0 <= i < |before| :: name[i] != part[0];
    assert name[|head|] == part[0];
    assert name[|before|..] == head[|before|..] + part + tail;
    assert (before + rest)[|before|..] == rest;
  }

  /** No expert part begins in what comes before the rest of a layer's name. */
  lemma ExpertInRest(before: string, rest: string)
    requires forall i | 0 <= i < |before| :: before[i] != 'f'
    ensures HasExpertPart(before + rest) <==> HasExpertPart(rest)
  {
    hide IsExpertPart;
    if HasExpertPart(before + rest) {
      var head, part, tail :| IsExpertPart(part) && before + rest == head + part + tail;
      ExpertListed(part);
      LiesBehind(before, rest, head, part, tail);
    }
    if HasExpertPart(rest) {
      var head, part, tail :| IsExpertPart(part) && rest == head + part + tail;
      assert before + rest == (before + head) + part + tail;
    }
  }

  lemma PrefixChars(zeros: nat, layer: nat)
    ensures forall i | 0 <= i < |Prefix(zeros, layer)| :: Prefix(zeros, layer)[i] != 'f'
  {
    var digits := Zeros(zeros) + FromNat(layer);
    assert Prefix(zeros, layer) == "blk." + digits + ".";
    forall i | 0 <= i < |digits| ensures digits[i] != 'f' {
      assert IsDigit(digits[i]);
    }
  }

  // Where a layer goes.

  lemma {:induction false} SharesAreSums(split: seq<real>, k: nat)
    requires k <= |split|
    ensures Shares(split, k) == SumOf(split, k)
  {
    if k > 0 { SharesAreSums(split, k - 1); }
  }

  lemma {:induction false} SharesGrow(split: seq<real>, j: nat, k: nat)
    requires j <= k <= |split| && forall i | 0 <= i < |split| :: split[i] >= 0.0
    ensures Shares(split, j) <= Shares(split, k)
    decreases k
  {
    if j < k { SharesGrow(split, j, k - 1); }
  }

  lemma ScaleDown(c: real, t: real, s: real, x: real, m: real, n: real)
    requires c * t == s && x * n == m && t > 0.0 && n > 0.0
    ensures c <= x <==> s * n <= m * t
    ensures x < c <==> m * t < s * n
  {
    assert s * n == c * (t * n) && m * t == x * (t * n);
    assert (c - x) * (t * n) == s * n - m * t;
    SignOfProduct(c - x, t * n);
  }

  lemma SignOfProduct(d: real, u: real)
    requires u > 0.0
    ensures d <= 0.0 <==> d * u <= 0.0
    ensures d > 0.0 <==> d * u > 0.0
  {
  }

  /** At most one GPU holds a position. */
  lemma OneHolder(split: seq<real>, m: int, n: int, j: nat, k: nat)
    requires IsHolder(split, m, n, j) && IsHolder(split, m, n, k) && n > 0
    requires forall i | 0 <= i < |split| :: split[i] >= 0.0
    ensures k <= j
  {
    if j < k {
      SharesGrow(split, j + 1, k);
      ScaledUp(Shares(split, j + 1), Shares(split, k), n as real);
    }
  }

  lemma ScaledUp(a: real, b: real, n: real)
    requires a <= b && n > 0.0
    ensures a * n <= b * n
  {
    assert (b - a) * n >= 0.0;
  }

  lemma HolderInRange(split: seq<real>, x: real, m: int, n: int)
    requires IsSplit(split, |split|) && |split| > 0 && 0 <= m < n && x * n as real == m as real && 0.0 <= x < 1.0
    ensures TotalOf(split) != 0.0 && IsHolder(split, m, n, GpuFor(x, split, 0))
  {
    hide TotalOf, SumOf, Shares, Cumulative, GpuFor, IsSplit;
    TotalPositive(split, |split|);
    assert Cumulative(split, 0) == 0.0 by { NoneBefore(split); }
    GpuForBounds(x, split, 0);
    var k := GpuFor(x, split, 0);
    HolderAt(split, x, m, n, k);
    HolderAt(split, x, m, n, k + 1);
    SharesAreSums(split, |split|);
  }

  lemma NoneBefore(split: seq<real>)
    requires TotalOf(split) != 0.0
    ensures Cumulative(split, 0) == 0.0
  {
  }

  lemma HolderFound(p: Layers, layer: int)
    requires IsSplit(p.split, |p.split|) && |p.split| > 0 && p.nGpu > 0 && p.layerAll > 0
    requires layer >= p.layerAll - p.nGpu && layer >= 0
    ensures TotalOf(p.split) != 0.0
    ensures var n := if p.nGpu < p.layerAll then p.nGpu else p.layerAll;
            IsHolder(p.split, layer - (p.layerAll - n), n, GpuFor(Ratio(p, layer), p.split, 0))
  {
    hide TotalOf, SumOf, Shares, Cumulative, GpuFor, IsSplit;
    var x := Ratio(p, layer);
    var n := if p.nGpu < p.layerAll then p.nGpu else p.layerAll;
    var m := layer - (p.layerAll - n);
    assert GpuStart(p) == p.layerAll - n && GpuLayerCount(p) == n;
    DividedBack(m as real, n as real);
    TotalPositive(p.split, |p.split|);
    if layer < p.layerAll {
      RatioGrows(p, layer, layer);
      HolderInRange(p.split, x, m, n);
    } else {
      AtLeastOne(x, m as real, n as real);
      BehindAll(x, p.split, 0);
    }
  }

  lemma DividedBack(m: real, n: real)
    requires n > 0.0
    ensures m / n * n == m
  {
  }

  lemma AtLeastOne(x: real, m: real, n: real)
    requires n > 0.0 && x * n == m && m >= n
    ensures x >= 1.0
  {
    assert (x - 1.0) * n == m - n;
    SignOfProduct(1.0 - x, n);
  }

  lemma HolderAt(split: seq<real>, x: real, m: int, n: int, k: nat)
    requires k <= |split| && n > 0 && x * n as real == m as real
    requires TotalOf(split) == SumOf(split, |split|) > 0.0
    ensures Cumulative(split, k) <= x <==> Shares(split, k) * n as real <= m as real * SumOf(split, |split|)
    ensures x < Cumulative(split, k) <==> m as real * SumOf(split, |split|) < Shares(split, k) * n as real
  {
    CumulativeIsSum(split, k);
    SharesAreSums(split, k);
    ScaleDown(Cumulative(split, k), TotalOf(split), SumOf(split, k), x, m as real, n as real);
  }

  lemma {:induction false} CumulativeBelow(split: seq<real>, k: nat)
    requires IsSplit(split, |split|) && k <= |split| && |split| > 0
    ensures TotalOf(split) != 0.0 && Cumulative(split, k) <= 1.0
    decreases |split| - k
  {
    TotalPositive(split, |split|);
    if k < |split| {
      CumulativeBelow(split, k + 1);
      QuotientNotNegative(split[k], TotalOf(split));
    }
  }

  lemma {:induction false} BehindAll(x: real, split: seq<real>, from: nat)
    requires IsSplit(split, |split|) && from < |split| && x >= 1.0
    ensures TotalOf(split) != 0.0 && GpuFor(x, split, from) == |split| - 1
    decreases |split| - from
  {
    CumulativeBelow(split, from + 1);
    if from < |split| - 1 { BehindAll(x, split, from + 1); }
  }

  lemma IdsDiffer(j: nat, k: nat)
    ensures "gpu" + FromNat(j) == "gpu" + FromNat(k) <==> j == k
    ensures "gpu" + FromNat(j) != "host"
  {
    ReadPrinted(j);
    ReadPrinted(k);
    assert ("gpu" + FromNat(j))[3..] == FromNat(j) && ("gpu" + FromNat(k))[3..] == FromNat(k);
    assert ("gpu" + FromNat(j))[0] == 'g';
  }

  /** A layer's device is its pool, and no other is. */
  lemma LayerGoes(p: Placement, layer: int, pool: string)
    requires IsModel(p) && layer >= 0
    ensures p.Valid()
    ensures IsPoolOf(p, layer, pool) <==> PoolId(p.DeviceOf(layer)) == pool
  {
    hide IsSplit, TotalOf, GpuFor, Ratio, FromNat, IsHolder;
    if OnGpus(p) {
      assert TotalOf(p.layers.split) != 0.0 by { TotalPositive(p.layers.split, |p.layers.split|); }
      if layer >= p.layers.layerAll - p.layers.nGpu && !p.layers.splitModeNone {
        HolderGoes(p, layer, pool);
      }
    }
  }

  lemma HolderGoes(p: Placement, layer: int, pool: string)
    requires IsModel(p) && layer >= 0 && OnGpus(p)
    requires layer >= p.layers.layerAll - p.layers.nGpu && !p.layers.splitModeNone
    ensures TotalOf(p.layers.split) != 0.0
    ensures IsPoolOf(p, layer, pool) <==> pool == "gpu" + FromNat(GpuFor(Ratio(p.layers, layer), p.layers.split, 0))
  {
    hide TotalOf, GpuFor, Ratio, FromNat, IsHolder;
    HolderFound(p.layers, layer);
    var all, split := p.layers.layerAll, p.layers.split;
    var n := if p.layers.nGpu < all then p.layers.nGpu else all;
    var m, found := layer - (all - n), GpuFor(Ratio(p.layers, layer), split, 0);
    forall k | IsHolder(split, m, n, k) ensures k == found {
      OneHolder(split, m, n, k, found);
      OneHolder(split, m, n, found, k);
    }
  }

  // Where a weight goes.

  lemma LayerWeightGoes(p: Placement, zeros: nat, layer: nat, rest: string, bytes: nat, pool: string)
    requires IsModel(p)
    ensures p.Valid()
    ensures var w := OfLayer(zeros, layer, rest, bytes);
            GoesTo(p, w, pool) <==> PoolId(p.DeviceForWeight(NameOf(w))) == pool
  {
    hide IsModel, IsPoolOf, Placement.DeviceOf, Prefix, FirstWord, LayerIndex, IsExpert, HasExpertPart, FromNat;
    LayerGoes(p, layer, pool);
    LayerRead(zeros, layer, rest);
    ExpertRead(Prefix(zeros, layer) + rest);
    PrefixChars(zeros, layer);
    ExpertInRest(Prefix(zeros, layer), rest);
    NoInput(zeros, layer, rest);
  }

  lemma NoInput(zeros: nat, layer: nat, rest: string)
    ensures !IsInput(Prefix(zeros, layer) + rest)
  {
    hide FromNat, Zeros;
    assert (Prefix(zeros, layer) + rest)[0] == 'b' && "token_embd"[0] == 't' && "per_layer_token_embd"[0] == 'p';
  }

  lemma ModelWeightGoes(p: Placement, name: string, bytes: nat, pool: string)
    requires IsModel(p) && IsNamed(OfModel(name, bytes))
    ensures p.Valid()
    ensures GoesTo(p, OfModel(name, bytes), pool) <==> PoolId(p.DeviceForWeight(name)) == pool
  {
    hide IsPoolOf, Placement.DeviceOf, Prefix, FirstWord, LayerIndex, IsExpert, HasExpertPart, FromNat, IsSplit,
         TotalOf, StartsWithWord;
    LayerGoes(p, p.layers.layerAll - 1, pool);
    if LayerIndex(name).Some? {
      LayerPrinted(name);
      assert false;
    }
    WordsRead(name);
  }

  lemma WordsRead(name: string)
    ensures IsInput(name) <==> FirstWord(name) == "token_embd" || FirstWord(name) == "per_layer_token_embd"
    ensures IsOutput(name) <==> FirstWord(name) == "output" || FirstWord(name) == "output_norm"
  {
    hide FirstWord, StartsWithWord;
    WordRead(name, "token_embd");
    WordRead(name, "per_layer_token_embd");
    WordRead(name, "output");
    WordRead(name, "output_norm");
  }

  lemma WeightGoes(p: Placement, w: Weight, pool: string)
    requires IsModel(p) && IsNamed(w)
    ensures p.Valid()
    ensures GoesTo(p, w, pool) <==> PoolId(p.DeviceForWeight(NameOf(w))) == pool
  {
    hide GoesTo, IsModel, Placement.DeviceForWeight, Placement.Valid, IsNamed;
    match w
    case OfLayer(zeros, layer, rest, bytes) => LayerWeightGoes(p, zeros, layer, rest, bytes, pool);
    case OfModel(name, bytes) => ModelWeightGoes(p, name, bytes, pool);
  }

  /** Every tensor name is printed in one of the two ways. */
  lemma EveryNamePrinted(name: string, bytes: nat)
    ensures exists w :: IsNamed(w) && TensorOf(w) == Tensor(name, bytes)
  {
    hide Prefix;
    var model := OfModel(name, bytes);
    if IsNamed(model) {
      assert TensorOf(model) == Tensor(name, bytes);
    } else {
      var zeros, layer :| Prefix(zeros, layer) <= name;
      var w := OfLayer(zeros, layer, name[|Prefix(zeros, layer)|..], bytes);
      assert IsNamed(w) && TensorOf(w) == Tensor(name, bytes);
    }
  }

  // All weights.

  lemma {:induction false} BytesShown(p: Placement, ws: seq<Weight>, pool: string)
    requires IsModel(p) && forall w <- ws :: IsNamed(w)
    ensures p.Valid() && BytesIn(p, TensorsOf(ws), pool) == BytesAt(p, ws, pool)
    decreases |ws|
  {
    hide IsModel, IsNamed, GoesTo, Placement.DeviceForWeight, Placement.Valid, NameOf;
    assert p.Valid() by { ModelValid(p); }
    if ws != [] {
      var init, w := ws[..|ws| - 1], ws[|ws| - 1];
      assert forall x <- init :: x in ws;
      BytesShown(p, init, pool);
      assert TensorsOf(ws)[..|ws| - 1] == TensorsOf(init);
      WeightGoes(p, w, pool);
    }
  }

  lemma ModelValid(p: Placement)
    requires IsModel(p)
    ensures p.Valid() && (p.UsesGpu() <==> OnGpus(p))
  {
    if OnGpus(p) { TotalPositive(p.layers.split, |p.layers.split|); }
  }

  lemma {:induction false} AllShown(ws: seq<Weight>)
    ensures BytesOf(TensorsOf(ws)) == AllBytes(ws)
    decreases |ws|
  {
    if ws != [] {
      AllShown(ws[..|ws| - 1]);
      assert TensorsOf(ws)[..|ws| - 1] == TensorsOf(ws[..|ws| - 1]);
    }
  }

  lemma {:induction false} FirstFound(ws: seq<Weight>, name: string)
    ensures var found := FindTensor(TensorsOf(ws), name);
            && (found.Some? <==> exists w <- ws :: NameOf(w) == name)
            && (found.Some? ==> exists i | 0 <= i < |ws| :: IsFirst(ws, name, i) && found.value.bytes == ws[i].bytes)
    decreases |ws|
  {
    hide NameOf;
    if ws != [] {
      FirstFound(ws[1..], name);
      assert TensorsOf(ws)[1..] == TensorsOf(ws[1..]);
      assert ws == [ws[0]] + ws[1..];
      if NameOf(ws[0]) == name {
        assert IsFirst(ws, name, 0);
      } else if i :| 0 <= i < |ws[1..]| && IsFirst(ws[1..], name, i)
                     && FindTensor(TensorsOf(ws), name).value.bytes == ws[1..][i].bytes {
        assert IsFirst(ws, name, i + 1);
      }
    }
  }

  lemma TiedShown(p: Placement, ws: seq<Weight>)
    requires IsModel(p)
    ensures IsTied(p, ws, TiedBytes(p, TensorsOf(ws)))
  {
    hide FindTensor, IsModel, NameOf, IsFirst;
    ModelValid(p);
    FirstFound(ws, "output.weight");
    FirstFound(ws, "token_embd.weight");
  }

  /** Each pool holds what belongs there, and the pool of the last layer the extra bytes. */
  ghost predicate AreWeighed(p: Placement, ws: seq<Weight>, weights: map<string, int>, extra: nat) {
    forall pool :: (if pool in weights then weights[pool] else 0)
      == BytesAt(p, ws, pool) + (if IsPoolOf(p, p.layers.layerAll - 1, pool) then extra else 0)
  }

  lemma PoolsWeighed(p: Placement, ws: seq<Weight>, weights: map<string, int>, extra: nat)
    requires IsModel(p) && p.Valid() && forall w <- ws :: IsNamed(w)
    requires forall pool :: At(weights, pool) == BytesIn(p, TensorsOf(ws), pool)
               + (if pool == PoolId(p.DeviceOf(p.layers.layerAll - 1)) then extra else 0)
    ensures AreWeighed(p, ws, weights, extra)
  {
    hide BytesAt, BytesIn, IsPoolOf, PoolId, Placement.DeviceOf, Placement.Valid, TensorsOf, IsNamed, IsSplit;
    forall pool ensures At(weights, pool)
        == BytesAt(p, ws, pool) + (if IsPoolOf(p, p.layers.layerAll - 1, pool) then extra else 0)
    {
      BytesShown(p, ws, pool);
      LayerGoes(p, p.layers.layerAll - 1, pool);
    }
  }

  /**
   The bytes of every pool: those of the tensors that belong there, and in the pool
   of the last layer the embedding that is kept a second time.
   */
  method WeighPools(p: Placement, ws: seq<Weight>) returns (weights: map<string, int>, total: int)
    requires IsModel(p) && forall w <- ws :: IsNamed(w)
    ensures exists extra: nat ::
        IsTied(p, ws, extra) && total == AllBytes(ws) + extra && AreWeighed(p, ws, weights, extra)
    ensures Sum(weights) == total
  {
    hide AreWeighed, BytesIn, IsTied, TiedBytes, PoolId, Placement.DeviceOf, Placement.Valid, TensorsOf, IsNamed,
         IsModel, AllBytes, BytesOf;
    ModelValid(p);
    weights, total := AccumulateWeights(p, TensorsOf(ws));
    AllShown(ws);
    TiedShown(p, ws);
    PoolsWeighed(p, ws, weights, TiedBytes(p, TensorsOf(ws)));
  }

  // The split as it is given.

  /** The places of the numbers that are not negative, in order. */
  predicate AreUsable(parts: seq<Option<real>>, at: seq<nat>) {
    && (forall m, n | 0 <= m < n < |at| :: at[m] < at[n])
    && (forall k <- at :: k < |parts| && parts[k].Some? && parts[k].value >= 0.0)
    && (forall k | 0 <= k < |parts| && parts[k].Some? && parts[k].value >= 0.0 :: k in at)
  }

  lemma AreUsableMore(parts: seq<Option<real>>, part: Option<real>, at: seq<nat>)
    requires AreUsable(parts, at)
    ensures AreUsable(parts + [part], if part.Some? && part.value >= 0.0 then at + [|parts|] else at)
  {
    assert forall m | 0 <= m < |at| :: at[m] in at;
  }

  lemma {:induction false} UsableFound(parts: seq<Option<real>>) returns (at: seq<nat>)
    ensures AreUsable(parts, at)
    ensures |at| == |Usable(parts)| && forall m | 0 <= m < |at| ::
        at[m] < |parts| && parts[at[m]] == Some(Usable(parts)[m])
    decreases |parts|
  {
    hide AreUsable;
    if parts == [] {
      at := [];
      assert AreUsable([], []) by { NoneUsable(); }
    } else {
      var init, last := parts[..|parts| - 1], parts[|parts| - 1];
      var before := UsableFound(init);
      AreUsableMore(init, last, before);
      assert parts == init + [last];
      at := if last.Some? && last.value >= 0.0 then before + [|init|] else before;
    }
  }

  lemma NoneUsable()
    ensures AreUsable([], [])
  {
  }

  /**
   Each GPU's share is the number given for it, 0 for those behind the last one; but
   if no GPU gets a positive share that way, all get the same.
   */
  lemma TensorSplitExactly(raw: Option<seq<Option<real>>>, gpuCount: nat) returns (at: seq<nat>)
    ensures AreUsable(raw.GetOr([]), at)
    ensures var parts, split := raw.GetOr([]), ParseTensorSplit(raw, gpuCount);
            && |split| == gpuCount
            && if exists m | 0 <= m < |at| :: m < gpuCount && at[m] < |parts| && parts[at[m]].GetOr(0.0) > 0.0
               then forall i | 0 <= i < gpuCount ::
                      if i < |at| then at[i] < |parts| && parts[at[i]] == Some(split[i]) else split[i] == 0.0
               else forall i | 0 <= i < gpuCount :: split[i] == 1.0
  {
    hide AreUsable;
    at := UsableFound(raw.GetOr([]));
    var parts, usable, split := raw.GetOr([]), Usable(raw.GetOr([])), ParseTensorSplit(raw, gpuCount);
    hide Usable;
    if m :| 0 <= m < |at| && m < gpuCount && at[m] < |parts| && parts[at[m]].GetOr(0.0) > 0.0 {
      assert usable[m] > 0.0;
      PaddedSplit(raw, gpuCount, m);
    } else {
      forall m | 0 <= m < gpuCount && m < |usable| ensures usable[m] <= 0.0 {
        assert parts[at[m]].GetOr(0.0) <= 0.0;
      }
    }
  }

  lemma PaddedSplit(raw: Option<seq<Option<real>>>, gpuCount: nat, m: nat)
    requires raw.Some? && m < |Usable(raw.value)| && m < gpuCount && Usable(raw.value)[m] > 0.0
    ensures var split, usable := ParseTensorSplit(raw, gpuCount), Usable(raw.value);
            |split| == gpuCount
            && forall i | 0 <= i < gpuCount :: split[i] == if i < |usable| then usable[i] else 0.0
  {
    var padded := Padded(Usable(raw.value), gpuCount);
    assert 0 <= m < |padded| && padded[m] > 0.0;
  }
}
