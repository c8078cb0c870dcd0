/** Where the layers and tensors of a model go: the layer split over GPUs, weights per pool and the expert cache. */
module GpuPlacement {
  import opened Options
  import opened TextSearch
  import opened Decimals
  import opened MapSums
  import opened Numbers

  // The tensor split.

  function SumOf(split: seq<real>, n: nat): real
    requires n <= |split|
  {
    if n == 0 then 0.0 else SumOf(split, n - 1) + split[n - 1]
  }

  function Ones(n: nat): seq<real> { seq(n, _ => 1.0) }

  /** The numbers of the argument that are finite and not negative. */
  function Usable(parts: seq<Option<real>>): seq<real> {
    if parts == [] then []
    else Usable(parts[..|parts| - 1])
         + (if parts[|parts| - 1].Some? && parts[|parts| - 1].value >= 0.0 then [parts[|parts| - 1].value] else [])
  }

  function Padded(parts: seq<real>, n: nat): seq<real> { seq(n, i => if 0 <= i < |parts| then parts[i] else 0.0) }

  predicate HasShare(split: seq<real>) { exists i | 0 <= i < |split| :: split[i] > 0.0 }

  /** `parseTensorSplit`; None for an argument that is not given. */
  function ParseTensorSplit(raw: Option<seq<Option<real>>>, gpuCount: nat): seq<real> {
    var parts := if raw.None? then [] else Usable(raw.value);
    if parts == [] then Ones(gpuCount)
    else
      var padded := Padded(parts, gpuCount);
      if HasShare(padded) then padded else Ones(gpuCount)
  }

  predicate IsSplit(split: seq<real>, gpuCount: nat) {
    && |split| == gpuCount
    && (forall i | 0 <= i < |split| :: split[i] >= 0.0)
    && (gpuCount > 0 ==> HasShare(split))
  }

  lemma {:induction false} UsableNotNegative(parts: seq<Option<real>>)
    ensures forall i | 0 <= i < |Usable(parts)| :: Usable(parts)[i] >= 0.0
    decreases |parts|
  {
    if parts != [] { UsableNotNegative(parts[..|parts| - 1]); }
  }

  lemma TensorSplitShape(raw: Option<seq<Option<real>>>, gpuCount: nat)
    ensures IsSplit(ParseTensorSplit(raw, gpuCount), gpuCount)
  {
    UsableNotNegative(if raw.None? then [] else raw.value);
    if gpuCount > 0 { assert Ones(gpuCount)[0] > 0.0; }
  }

  // The layer split.

  function TotalOf(split: seq<real>): real { if SumOf(split, |split|) == 0.0 then 1.0 else SumOf(split, |split|) }

  /** The share of the layers that the first k GPUs take. */
  function Cumulative(split: seq<real>, k: nat): real
    requires k <= |split| && TotalOf(split) != 0.0
  {
    if k == 0 then 0.0 else Cumulative(split, k - 1) + split[k - 1] / TotalOf(split)
  }

  /** The GPU for a position from 0 to 1, by its place in the sorted list: `gpuPoolForLayer`. */
  method GpuPoolForLayer(ratio: real, split: seq<real>) returns (index: nat)
    requires |split| > 0 && TotalOf(split) != 0.0
    ensures index == GpuFor(ratio, split, 0)
  {
    var total := TotalOf(split);
    var cumulative := 0.0;
    for i := 0 to |split|
      invariant cumulative == Cumulative(split, i)
      invariant i < |split| ==> GpuFor(ratio, split, i) == GpuFor(ratio, split, 0)
      invariant i < |split|
    {
      cumulative := cumulative + split[i] / total;
      if ratio < cumulative || i == |split| - 1 {
        return i;
      }
    }
    assert false;
  }

  function GpuFor(ratio: real, split: seq<real>, from: nat): (index: nat)
    requires from < |split| && TotalOf(split) != 0.0
    ensures from <= index < |split|
    decreases |split| - from
  {
    if ratio < Cumulative(split, from + 1) || from == |split| - 1 then from else GpuFor(ratio, split, from + 1)
  }

  lemma {:induction false} SumPositive(split: seq<real>, n: nat)
    requires n <= |split| && forall i | 0 <= i < |split| :: split[i] >= 0.0
    ensures SumOf(split, n) >= 0.0
    ensures forall i | 0 <= i < n :: split[i] <= SumOf(split, n)
  {
    if n > 0 { SumPositive(split, n - 1); }
  }

  lemma {:induction false} CumulativeIsSum(split: seq<real>, k: nat)
    requires k <= |split| && TotalOf(split) != 0.0
    ensures Cumulative(split, k) * TotalOf(split) == SumOf(split, k)
  {
    if k > 0 {
      CumulativeIsSum(split, k - 1);
      var t, c, x := TotalOf(split), Cumulative(split, k - 1), split[k - 1];
      assert x / t * t == x;
      assert (c + x / t) * t == c * t + x / t * t;
    }
  }

  lemma TotalPositive(split: seq<real>, gpuCount: nat)
    requires IsSplit(split, gpuCount) && gpuCount > 0
    ensures TotalOf(split) == SumOf(split, |split|) > 0.0
    ensures Cumulative(split, |split|) == 1.0
  {
    SumPositive(split, |split|);
    var i :| 0 <= i < |split| && split[i] > 0.0;
    assert SumOf(split, |split|) > 0.0;
    CumulativeIsSum(split, |split|);
    OneFromProduct(Cumulative(split, |split|), TotalOf(split), SumOf(split, |split|));
  }

  lemma OneFromProduct(c: real, t: real, s: real)
    requires t > 0.0 && c * t == s && s == t
    ensures c == 1.0
  {
    assert (c - 1.0) * t == 0.0;
  }

  lemma {:induction false} GpuForMonotone(a: real, b: real, split: seq<real>, from: nat)
    requires a <= b && from < |split| && TotalOf(split) != 0.0
    ensures GpuFor(a, split, from) <= GpuFor(b, split, from)
    decreases |split| - from
  {
    if !(a < Cumulative(split, from + 1) || from == |split| - 1) { GpuForMonotone(a, b, split, from + 1); }
  }

  lemma {:induction false} GpuForBounds(ratio: real, split: seq<real>, from: nat)
    requires from < |split| && TotalOf(split) != 0.0
    requires Cumulative(split, from) <= ratio < Cumulative(split, |split|)
    ensures var k := GpuFor(ratio, split, from);
            Cumulative(split, k) <= ratio < Cumulative(split, k + 1)
    decreases |split| - from
  {
    if !(ratio < Cumulative(split, from + 1)) && from < |split| - 1 { GpuForBounds(ratio, split, from + 1); }
  }

  // The placement of layers.

  datatype Layers = Layers(layerAll: nat, nGpu: int, splitModeNone: bool, mainGpu: nat, split: seq<real>)

  // A pool, by its place in the list of GPUs sorted by device index.
  datatype Pool = Host | Gpu(index: nat)

  function GpuStart(p: Layers): int { Max(p.layerAll - p.nGpu, 0) }

  function GpuLayerCount(p: Layers): int { Max(p.layerAll - GpuStart(p), 1) }

  function Ratio(p: Layers, layer: int): real { (layer - GpuStart(p)) as real / GpuLayerCount(p) as real }

  /** `layerDevice` of a placement that uses a GPU. */
  function LayerDevice(p: Layers, layer: int): Pool
    requires |p.split| > 0 && TotalOf(p.split) != 0.0
  {
    if layer < GpuStart(p) then Host
    else if p.splitModeNone then Gpu(p.mainGpu)
    else Gpu(GpuFor(Ratio(p, layer), p.split, 0))
  }

  function Place(pool: Pool): int { if pool.Host? then -1 else pool.index }

  lemma RatioGrows(p: Layers, a: int, b: int)
    requires a <= b
    ensures Ratio(p, a) <= Ratio(p, b)
    ensures GpuStart(p) <= a < p.layerAll ==> 0.0 <= Ratio(p, a) < 1.0
  {
    var n := GpuLayerCount(p) as real;
    DivideMonotone((a - GpuStart(p)) as real, (b - GpuStart(p)) as real, n);
    if GpuStart(p) <= a < p.layerAll {
      DivideBelowOne((a - GpuStart(p)) as real, n);
    }
  }

  lemma DivideMonotone(a: real, b: real, d: real)
    requires a <= b && d > 0.0
    ensures a / d <= b / d
  {
    assert b / d == a / d + (b - a) / d;
    QuotientNotNegative(b - a, d);
  }

  lemma QuotientNotNegative(a: real, d: real)
    requires a >= 0.0 && d > 0.0
    ensures a / d >= 0.0 && (a > 0.0 ==> a / d > 0.0)
  {
  }

  lemma BelowOne(x: real, a: real, d: real)
    requires a < d && d > 0.0 && x * d == a
    ensures x < 1.0
  {
    assert (1.0 - x) * d == d - a;
  }

  lemma DivideBelowOne(a: real, d: real)
    requires 0.0 <= a < d
    ensures 0.0 <= a / d < 1.0
  {
    QuotientNotNegative(a, d);
    BelowOne(a / d, a, d);
  }

  /** The host takes the first layers, and the GPU index never goes down as the layer goes up. */
  lemma LayersInOrder(p: Layers, a: int, b: int)
    requires |p.split| > 0 && TotalOf(p.split) != 0.0 && a <= b
    ensures Place(LayerDevice(p, a)) <= Place(LayerDevice(p, b))
  {
    RatioGrows(p, a, b);
    GpuForMonotone(Ratio(p, a), Ratio(p, b), p.split, 0);
  }

  /**
   A layer in range goes to the GPU whose part of the split holds its position, so never
   to one without a share; unsplit, all go to the main GPU.
   */
  lemma LayerWithinShare(p: Layers, layer: int)
    requires IsSplit(p.split, |p.split|) && |p.split| > 0
    requires GpuStart(p) <= layer < p.layerAll
    ensures TotalOf(p.split) != 0.0
    ensures p.splitModeNone ==> LayerDevice(p, layer) == Gpu(p.mainGpu)
    ensures var device := LayerDevice(p, layer);
            !p.splitModeNone ==>
            && device.Gpu? && device.index < |p.split|
            && Cumulative(p.split, device.index) <= Ratio(p, layer) < Cumulative(p.split, device.index + 1)
            && p.split[device.index] > 0.0
  {
    TotalPositive(p.split, |p.split|);
    RatioGrows(p, layer, layer);
    GpuForBounds(Ratio(p, layer), p.split, 0);
    var k := GpuFor(Ratio(p, layer), p.split, 0);
    assert Cumulative(p.split, k + 1) == Cumulative(p.split, k) + p.split[k] / TotalOf(p.split);
    assert p.split[k] / TotalOf(p.split) > 0.0;
    assert 0.0 / TotalOf(p.split) == 0.0;
  }

  // Tensors.

  datatype Tensor = Tensor(name: string, bytes: nat)

  /** `^(a|b)\b`: the name starts with the word. */
  predicate StartsWithWord(name: string, word: string) {
    word <= name && (|name| == |word| || !IsWordChar(name[|word|]))
  }

  predicate IsWordChar(c: char) { 'a' <= c <= 'z' || 'A' <= c <= 'Z' || '0' <= c <= '9' || c == '_' }

  function LeadingDigits(text: string): (n: nat)
    ensures n <= |text| && IsDigits(text[..n])
  {
    if text == "" || !IsDigit(text[0]) then 0
    else
      var n := LeadingDigits(text[1..]) + 1;
      assert text[..n] == [text[0]] + text[1..][..n - 1];
      n
  }

  /** `^blk\.(\d+)\.`. */
  function LayerIndex(name: string): Option<nat> {
    if !("blk." <= name) then None
    else
      var rest := name[4..];
      var n := LeadingDigits(rest);
      if n > 0 && n < |rest| && rest[n] == '.' then Some(ToNat(rest[..n])) else None
  }

  const EXPERT_PARTS := [
    "ffn_up_exps", "ffn_up_chexps", "ffn_down_exps", "ffn_down_chexps",
    "ffn_gate_exps", "ffn_gate_chexps", "ffn_gate_up_exps", "ffn_gate_up_chexps"]

  predicate IsExpert(name: string) { exists i | 0 <= i < |EXPERT_PARTS| :: Occurs(name, EXPERT_PARTS[i]) }

  predicate IsInput(name: string) { StartsWithWord(name, "token_embd") || StartsWithWord(name, "per_layer_token_embd") }

  predicate IsOutput(name: string) { StartsWithWord(name, "output") || StartsWithWord(name, "output_norm") }

  // A placement: the pools, and the device of each layer if the GPU is used.
  datatype Placement = Placement(layers: Layers, requestedMainGpu: int, expertHostLayers: int) {
    predicate AccelerationDisabled() { layers.splitModeNone && requestedMainGpu < 0 }

    predicate UsesGpu() { |layers.split| > 0 && layers.nGpu > 0 && !AccelerationDisabled() }

    predicate Valid() { UsesGpu() ==> TotalOf(layers.split) != 0.0 }

    function DeviceOf(layer: int): Pool
      requires Valid()
    {
      if UsesGpu() then LayerDevice(layers, layer) else Host
    }

    /** `deviceForWeightTensor`. */
    function DeviceForWeight(name: string): Pool
      requires Valid()
    {
      var layer := LayerIndex(name);
      if IsInput(name) then Host
      else if layer.Some? && IsExpert(name) && layer.value < expertHostLayers then Host
      else if layer.Some? then DeviceOf(layer.value)
      else if IsOutput(name) then DeviceOf(layers.layerAll - 1)
      else Host
    }
  }

  // The name of a pool in the accumulator.
  function PoolId(pool: Pool): string { if pool.Host? then "host" else "gpu" + FromNat(pool.index) }

  function BytesOf(tensors: seq<Tensor>): nat {
    if tensors == [] then 0 else BytesOf(tensors[..|tensors| - 1]) + tensors[|tensors| - 1].bytes
  }

  /** The bytes of the tensors that go to one pool. */
  function BytesIn(p: Placement, tensors: seq<Tensor>, pool: string): nat
    requires p.Valid()
  {
    if tensors == [] then 0
    else
      var last := tensors[|tensors| - 1];
      BytesIn(p, tensors[..|tensors| - 1], pool)
          + (if PoolId(p.DeviceForWeight(last.name)) == pool then last.bytes else 0)
  }

  function FindTensor(tensors: seq<Tensor>, name: string): Option<Tensor> {
    if tensors == [] then None else if tensors[0].name == name then Some(tensors[0]) else FindTensor(tensors[1..], name)
  }

  /** The token embedding that is kept twice: used as output weights on a GPU when there are none of its own. */
  function TiedBytes(p: Placement, tensors: seq<Tensor>): nat {
    var embedding := FindTensor(tensors, "token_embd.weight");
    if p.UsesGpu() && FindTensor(tensors, "output.weight").None? && embedding.Some? then embedding.value.bytes else 0
  }

  function AddTo(weights: map<string, int>, pool: string, bytes: int): map<string, int> {
    weights[pool := (if pool in weights then weights[pool] else 0) + bytes]
  }

  function At(weights: map<string, int>, pool: string): int { if pool in weights then weights[pool] else 0 }

  /**
   The weights of `accumulateModel`: each pool holds the tensors placed in it, the
   tied embedding is added where the output goes, and the pools together hold the
   bytes of all tensors plus that one duplicate.
   */
  method AccumulateWeights(p: Placement, tensors: seq<Tensor>) returns (weights: map<string, int>, weightsBytes: int)
    requires p.Valid()
    ensures weightsBytes == BytesOf(tensors) + TiedBytes(p, tensors)
    ensures Sum(weights) == weightsBytes
    ensures forall pool :: At(weights, pool) == BytesIn(p, tensors, pool)
              + (if pool == PoolId(p.DeviceOf(p.layers.layerAll - 1)) then TiedBytes(p, tensors) else 0)
  {
    hide LayerIndex, IsInput, IsExpert, IsOutput, PoolId, LayerDevice;
    weights, weightsBytes := map[], 0;
    for i := 0 to |tensors|
      invariant weightsBytes == BytesOf(tensors[..i]) && Sum(weights) == weightsBytes
      invariant forall pool :: At(weights, pool) == BytesIn(p, tensors[..i], pool)
    {
      assert tensors[..i + 1][..i] == tensors[..i];
      var pool := PoolId(p.DeviceForWeight(tensors[i].name));
      SumUpdate(weights, pool, At(weights, pool) + tensors[i].bytes);
      weights := AddTo(weights, pool, tensors[i].bytes);
      weightsBytes := weightsBytes + tensors[i].bytes;
    }
    assert tensors[..|tensors|] == tensors;
    var output := FindTensor(tensors, "output.weight");
    var embedding := FindTensor(tensors, "token_embd.weight");
    if p.UsesGpu() && output.None? && embedding.Some? {
      var pool := PoolId(p.DeviceOf(p.layers.layerAll - 1));
      SumUpdate(weights, pool, At(weights, pool) + embedding.value.bytes);
      weights := AddTo(weights, pool, embedding.value.bytes);
      weightsBytes := weightsBytes + embedding.value.bytes;
    }
  }

  // The expert cache.

  // A GPU with expert tensors kept on the host: its share of the split, and what it could use.
  datatype Device = Device(pool: string, share: real, wanted: nat)

  function ShareSum(devices: seq<Device>): real {
    if devices == [] then 0.0 else ShareSum(devices[..|devices| - 1]) + devices[|devices| - 1].share
  }

  function ShareOf(devices: seq<Device>, d: Device): real
    requires |devices| > 0
  {
    if ShareSum(devices) > 0.0 then d.share / ShareSum(devices) else 1.0 / |devices| as real
  }

  function CacheBytes(devices: seq<Device>, d: Device, budget: nat): int
    requires |devices| > 0
  {
    var offered := (budget as real * ShareOf(devices, d)).Floor;
    if offered < d.wanted then offered else d.wanted
  }

  predicate AreDevices(devices: seq<Device>) {
    && (forall i, j | 0 <= i < j < |devices| :: devices[i].pool != devices[j].pool)
    && (forall i | 0 <= i < |devices| :: devices[i].share >= 0.0)
  }

  function PartShares(devices: seq<Device>, n: nat): real
    requires n <= |devices| && |devices| > 0
  {
    if n == 0 then 0.0 else PartShares(devices, n - 1) + ShareOf(devices, devices[n - 1])
  }

  lemma {:induction false} PartSharesScale(devices: seq<Device>, n: nat)
    requires n <= |devices| && |devices| > 0
    ensures ShareSum(devices) > 0.0 ==> PartShares(devices, n) * ShareSum(devices) == ShareSum(devices[..n])
    ensures ShareSum(devices) <= 0.0 ==> PartShares(devices, n) * |devices| as real == n as real
  {
    if n > 0 {
      PartSharesScale(devices, n - 1);
      assert devices[..n][..n - 1] == devices[..n - 1];
      var t := if ShareSum(devices) > 0.0 then ShareSum(devices) else |devices| as real;
      var x := if ShareSum(devices) > 0.0 then devices[n - 1].share else 1.0;
      assert x / t * t == x;
      assert (PartShares(devices, n - 1) + x / t) * t == PartShares(devices, n - 1) * t + x / t * t;
    }
  }

  lemma SharesMakeOne(devices: seq<Device>)
    requires |devices| > 0
    ensures PartShares(devices, |devices|) == 1.0
  {
    PartSharesScale(devices, |devices|);
    assert devices[..|devices|] == devices;
    if ShareSum(devices) > 0.0 {
      OneFromProduct(PartShares(devices, |devices|), ShareSum(devices), ShareSum(devices));
    } else {
      OneFromProduct(PartShares(devices, |devices|), |devices| as real, |devices| as real);
    }
  }

  /** What the first n GPUs are offered of the budget. */
  function Offered(devices: seq<Device>, n: nat, budget: nat): real
    requires n <= |devices| && |devices| > 0
  {
    budget as real * PartShares(devices, n)
  }

  lemma OfferedEnds(devices: seq<Device>, budget: nat)
    requires |devices| > 0
    ensures Offered(devices, 0, budget) == 0.0 && Offered(devices, |devices|, budget) == budget as real
  {
    SharesMakeOne(devices);
  }

  lemma CacheWithinOffer(devices: seq<Device>, n: nat, budget: nat)
    requires n < |devices|
    ensures CacheBytes(devices, devices[n], budget) as real + Offered(devices, n, budget)
            <= Offered(devices, n + 1, budget)
  {
    Distributes(budget as real, PartShares(devices, n), ShareOf(devices, devices[n]));
  }

  lemma Distributes(b: real, x: real, y: real)
    ensures b * (x + y) == b * x + b * y
  {
  }

  function PoolsOf(devices: seq<Device>, n: nat): set<string>
    requires n <= |devices|
  {
    set i | 0 <= i < n :: devices[i].pool
  }

  lemma PoolsGrow(devices: seq<Device>, n: nat)
    requires n < |devices|
    ensures PoolsOf(devices, n + 1) == PoolsOf(devices, n) + {devices[n].pool}
    ensures AreDevices(devices) ==> devices[n].pool !in PoolsOf(devices, n)
  {
  }

  lemma NoPools(devices: seq<Device>)
    ensures PoolsOf(devices, 0) == {}
  {
  }

  function AllShares(devices: seq<Device>): real {
    if devices == [] then 0.0 else devices[0].share + AllShares(devices[1..])
  }

  /** The most whole bytes that are wanted and lie within the share of the budget. */
  predicate IsPart(budget: real, share: real, whole: real, wanted: nat, bytes: int) {
    && bytes <= wanted && bytes as real * whole <= budget * share
    && (bytes == wanted || budget * share < (bytes + 1) as real * whole)
  }

  /** A GPU's part of the budget by its share, or an equal part if no GPU has any. */
  predicate IsCache(devices: seq<Device>, d: Device, budget: nat, bytes: int) {
    var shared := AllShares(devices) > 0.0;
    var share, whole := if shared then d.share else 1.0, if shared then AllShares(devices) else |devices| as real;
    IsPart(budget as real, share, whole, d.wanted, bytes)
  }

  lemma {:induction false} AllSharesAppend(devices: seq<Device>, d: Device)
    ensures AllShares(devices + [d]) == AllShares(devices) + d.share
    decreases |devices|
  {
    if devices == [] {
      assert [d][1..] == [] && devices + [d] == [d];
    } else {
      assert (devices + [d])[1..] == devices[1..] + [d];
      AllSharesAppend(devices[1..], d);
    }
  }

  lemma {:induction false} SharesSum(devices: seq<Device>)
    ensures AllShares(devices) == ShareSum(devices)
    decreases |devices|
  {
    if devices != [] {
      var init, last := devices[..|devices| - 1], devices[|devices| - 1];
      assert devices == init + [last];
      SharesSum(init);
      AllSharesAppend(init, last);
    }
  }

  lemma FloorOfShare(budget: real, share: real, whole: real)
    requires whole > 0.0
    ensures var offered := (budget * (share / whole)).Floor;
            offered as real * whole <= budget * share < (offered + 1) as real * whole
  {
    var x := budget * (share / whole);
    assert x * whole == budget * share by {
      assert share / whole * whole == share;
      assert x * whole == budget * (share / whole * whole);
    }
    assert (x - x.Floor as real) * whole >= 0.0;
    assert ((x.Floor + 1) as real - x) * whole > 0.0;
  }

  lemma Scaled(a: int, b: int, whole: real)
    requires whole > 0.0 && a <= b
    ensures a as real * whole <= b as real * whole
  {
    assert (b - a) as real * whole >= 0.0;
  }

  lemma PartExactly(budget: real, share: real, whole: real, wanted: nat, bytes: int)
    requires whole > 0.0
    requires var offered := (budget * (share / whole)).Floor; bytes == if offered < wanted then offered else wanted
    ensures IsPart(budget, share, whole, wanted, bytes)
  {
    FloorOfShare(budget, share, whole);
    var offered := (budget * (share / whole)).Floor;
    if offered >= wanted { Scaled(wanted, offered, whole); }
  }

  lemma CacheExactly(devices: seq<Device>, d: Device, budget: nat)
    requires |devices| > 0
    ensures IsCache(devices, d, budget, CacheBytes(devices, d, budget))
  {
    hide IsPart, AllShares, ShareSum;
    SharesSum(devices);
    var shared := AllShares(devices) > 0.0;
    var share, whole := if shared then d.share else 1.0, if shared then AllShares(devices) else |devices| as real;
    assert ShareOf(devices, d) == share / whole;
    PartExactly(budget as real, share, whole, d.wanted, CacheBytes(devices, d, budget));
  }

  /**
   The cache of each GPU is its share of the budget as far as it can use it, and all together are at
   most the budget.
   */
  method DivideCache(devices: seq<Device>, budget: nat) returns (bytesByPool: map<string, int>)
    requires |devices| > 0 && AreDevices(devices)
    ensures bytesByPool.Keys == PoolsOf(devices, |devices|)
    ensures forall i | 0 <= i < |devices| ::
              devices[i].pool in bytesByPool && IsCache(devices, devices[i], budget, bytesByPool[devices[i].pool])
    ensures Sum(bytesByPool) <= budget
  {
    hide PartShares, CacheBytes, Offered, ShareSum, PoolsOf, IsCache;
    bytesByPool := map[];
    OfferedEnds(devices, budget);
    NoPools(devices);
    for n := 0 to |devices|
      invariant bytesByPool.Keys == PoolsOf(devices, n)
      invariant forall i | 0 <= i < n ::
                  devices[i].pool in bytesByPool
                      && bytesByPool[devices[i].pool] == CacheBytes(devices, devices[i], budget)
      invariant Sum(bytesByPool) as real <= Offered(devices, n, budget)
    {
      var d := devices[n];
      var bytes := CacheBytes(devices, d, budget);
      PoolsGrow(devices, n);
      SumUpdate(bytesByPool, d.pool, bytes);
      CacheWithinOffer(devices, n, budget);
      bytesByPool := bytesByPool[d.pool := bytes];
    }
    forall i | 0 <= i < |devices| ensures IsCache(devices, devices[i], budget,
        CacheBytes(devices, devices[i], budget)) {
      CacheExactly(devices, devices[i], budget);
    }
  }
}
