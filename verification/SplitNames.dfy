/** The names `splitShardNames` prints, and whether grouping puts them together again. */
module SplitNames {
  import opened Options
  import opened Decimals
  import opened GgufSplit

  lemma {:induction false} WiderIsLarger(a: nat, b: nat)
    requires a <= b
    ensures |FromNat(a)| <= |FromNat(b)|
    decreases b
  {
    if a >= 10 {
      WiderIsLarger(a / 10, b / 10);
    }
  }

  /** The index width is enough for every index, so that all shards are padded alike. */
  predicate IsWideEnough(split: Split) { |FromNat(split.count)| <= Widest(1, split.indexWidth) }

  predicate IsPrintable(split: Split) { IsPrefix(split.prefix) && split.count > 1 }

  lemma NameParses(split: Split, i: nat)
    requires IsPrintable(split) && i < split.count
    ensures ParseSplitInfo(ShardNames(split)[i])
            == Some(Split(split.prefix, i + 1, split.count,
                          Widest(|FromNat(i + 1)|, split.indexWidth), Widest(|FromNat(split.count)|, split.countWidth)))
    ensures HasLowerMarkers(ShardNames(split)[i]) && IndexOf(ShardNames(split)[i]) == i + 1
  {
    hide ParseSplitInfo, FromNat, HasLowerMarkers;
    var name := ShardNames(split)[i];
    ParsePrinted(split, i + 1, split.count);
    var parsed := ParseSplitInfo(name).value;
    PrintParsed(name);
    assert PadStart(FromNat(i + 1), split.indexWidth) == PadStart(FromNat(i + 1), parsed.indexWidth);
    assert PadStart(FromNat(split.count), split.countWidth) == PadStart(FromNat(split.count), parsed.countWidth);
  }

  /** The first and the last shard share a key exactly when the index width is enough, and then all do. */
  lemma OneKeyExactly(split: Split)
    requires IsPrintable(split)
    ensures var names := ShardNames(split);
            && (OneKey(names) <==> IsWideEnough(split))
            && (!IsWideEnough(split) ==> Key(names[split.count - 1]) != Key(names[0]))
  {
    hide ParseSplitInfo, Key, FromNat, HasLowerMarkers, IndexOf;
    var names := ShardNames(split);
    assert |names| == split.count;
    OneDigit();
    forall i | 0 <= i < |names|
      ensures Key(names[i]) == Key(names[0])
          <==> Widest(|FromNat(i + 1)|, split.indexWidth) == Widest(1, split.indexWidth)
      ensures |FromNat(i + 1)| <= |FromNat(split.count)|
    {
      NameParses(split, 0);
      NameParses(split, i);
      SameKey(names[0], names[i]);
      WiderIsLarger(i + 1, split.count);
    }
    var last := split.count - 1;
    assert Key(names[last]) == Key(names[0]) <==> IsWideEnough(split);
    if OneKey(names) {
      assert Key(names[last]) == Key(names[0]);
    }
  }

  lemma AllNamesOnce(split: Split)
    requires IsPrintable(split)
    ensures AllLower(ShardNames(split)) && AllShardsOnce(ShardNames(split), split.count)
  {
    hide ParseSplitInfo, HasLowerMarkers, IndexOf, ShardName;
    var names := ShardNames(split);
    forall i | 0 <= i < |names| ensures HasLowerMarkers(names[i]) && IndexOf(names[i]) == i + 1 {
      NameParses(split, i);
    }
    forall n | 1 <= n <= split.count ensures HasShard(names, n) {
      assert IndexOf(names[n - 1]) == n;
    }
  }

  lemma {:induction false} AllOrFewer(files: seq<string>, key: string)
    ensures |FilesWithKey(files, key)| <= |files|
    ensures (forall i | 0 <= i < |files| :: Key(files[i]) == key) ==> FilesWithKey(files, key) == files
    ensures |FilesWithKey(files, key)| == |files| ==> forall i | 0 <= i < |files| :: Key(files[i]) == key
    ensures (exists i | 0 <= i < |files| :: Key(files[i]) == key) ==> FilesWithKey(files, key) != []
    decreases |files|
  {
    hide Key;
    if files != [] {
      AllOrFewer(files[..|files| - 1], key);
      assert files == files[..|files| - 1] + [files[|files| - 1]];
    }
  }

  /**
   Grouping the shard names of a split reports the group of its first shard complete
   exactly when the index width holds the highest index. Otherwise the shards with
   more digits fall into groups of their own.
   */
  lemma ShardsAreGrouped(split: Split)
    requires IsPrintable(split)
    ensures var group := FilesWithKey(ShardNames(split), Key(ShardNames(split)[0]));
            group != [] && (IsComplete(group) <==> IsWideEnough(split))
  {
    hide ParseSplitInfo, Key, FromNat, ShardName, HasLowerMarkers, AllShardsOnce, AllLower, IndexOf, IsWideEnough,
        FilesWithKey;
    var names := ShardNames(split);
    var key := Key(names[0]);
    var group := FilesWithKey(names, key);
    OneKeyExactly(split);
    NameParses(split, 0);
    AllOrFewer(names, key);
    if IsWideEnough(split) {
      assert group == names;
      AllNamesOnce(split);
      CompleteExactly(names);
    } else {
      FilesShareKey(names, key);
      SameKey(names[0], group[0]);
      assert |group| < split.count;
    }
  }
}
