/**
 The order of deltas on which streaming and not streaming agree, told by positions
 alone: `Agreeable` of `EmitterAgreement` follows the emitter from chunk to chunk,
 this says which chunks may follow which.
 */
module EmitterOrder {
  import opened Options
  import opened JsonValues
  import opened EmitterModel
  import opened EmitterProtocol
  import opened EmitterAgreement

  predicate BringsReasoning(chunk: Json) { ReasoningOf(chunk) != "" }

  predicate BringsText(chunk: Json) { TextOf(chunk) != "" }

  predicate BringsCall(chunk: Json) { HasToolCall(ToolCallsOf(chunk)) }

  predicate Ends(chunk: Json) { ReasonOf(chunk) != "" }

  // Between two reasonings, neither a tool call nor a finish reason; the first chunk counts, the second does not.
  predicate ReasoningUnbroken(chunks: seq<Json>) {
    forall i, j | 0 <= i <= j < |chunks| && BringsReasoning(chunks[i]) :: !BringsCall(chunks[j]) && !Ends(chunks[j])
  }

  // Between two texts, no finish reason.
  predicate TextUnbroken(chunks: seq<Json>) {
    forall i, j | 0 <= i <= j < |chunks| && BringsText(chunks[i]) :: !Ends(chunks[j])
  }

  predicate NoText(chunks: seq<Json>) { forall i | 0 <= i < |chunks| :: !BringsText(chunks[i]) }

  predicate NoReasoning(chunks: seq<Json>) { forall i | 0 <= i < |chunks| :: !BringsReasoning(chunks[i]) }

  predicate NoCall(chunks: seq<Json>) { forall i | 0 <= i < |chunks| :: !BringsCall(chunks[i]) }

  /**
   No reasoning after text and no text in or after a chunk with a tool call; no tool
   call or finish reason between two reasonings, and no finish reason between two texts.
   */
  predicate Placed(past: seq<Json>, chunk: Json) {
    && (BringsReasoning(chunk) ==> NoText(past) && ReasoningUnbroken(past))
    && (BringsText(chunk) ==> NoCall(past) && !BringsCall(chunk) && TextUnbroken(past))
  }

  lemma {:induction false} Parts(chunks: seq<Json>)
    ensures TextIn(chunks) == "" <==> NoText(chunks)
    ensures ReasoningIn(chunks) == "" <==> NoReasoning(chunks)
    ensures HasToolCall(CallsIn(chunks)) <==> !NoCall(chunks)
    decreases |chunks|
  {
    hide ReasoningOf, TextOf, ToolCallsOf, HasToolCall;
    if chunks != [] {
      var past, chunk := chunks[..|chunks| - 1], chunks[|chunks| - 1];
      assert chunks == past + [chunk];
      Parts(past);
      CallsJoin(CallsIn(past), ToolCallsOf(chunk));
      NoneOf(past, chunk);
    } else {
      assert !HasToolCall([]) by { NoCalls(); }
    }
  }

  lemma NoCalls()
    ensures !HasToolCall([])
  {
  }

  lemma NoneOf(past: seq<Json>, chunk: Json)
    ensures NoText(past + [chunk]) <==> NoText(past) && !BringsText(chunk)
    ensures NoReasoning(past + [chunk]) <==> NoReasoning(past) && !BringsReasoning(chunk)
    ensures NoCall(past + [chunk]) <==> NoCall(past) && !BringsCall(chunk)
  {
    hide BringsText, BringsReasoning, BringsCall;
    var all := past + [chunk];
    assert all[|past|] == chunk && forall i | 0 <= i < |past| :: all[i] == past[i];
    if NoText(all) { assert forall i | 0 <= i < |past| :: past[i] == all[i]; }
    if NoReasoning(all) { assert forall i | 0 <= i < |past| :: past[i] == all[i]; }
    if NoCall(all) { assert forall i | 0 <= i < |past| :: past[i] == all[i]; }
  }

  lemma UnbrokenAppend(past: seq<Json>, chunk: Json)
    ensures ReasoningUnbroken(past + [chunk])
            <==> ReasoningUnbroken(past)
                 && (NoReasoning(past + [chunk]) || (!BringsCall(chunk) && !Ends(chunk)))
    ensures TextUnbroken(past + [chunk]) <==> TextUnbroken(past) && (NoText(past + [chunk]) || !Ends(chunk))
  {
    hide BringsText, BringsReasoning, BringsCall, Ends;
    var all := past + [chunk];
    assert all[|past|] == chunk && forall i | 0 <= i < |past| :: all[i] == past[i];
    if ReasoningUnbroken(all) {
      forall i, j | 0 <= i <= j < |past| && BringsReasoning(past[i]) ensures !BringsCall(past[j]) && !Ends(past[j]) {
        assert all[i] == past[i] && all[j] == past[j];
      }
    }
    if TextUnbroken(all) {
      forall i, j | 0 <= i <= j < |past| && BringsText(past[i]) ensures !Ends(past[j]) {
        assert all[i] == past[i] && all[j] == past[j];
      }
    }
  }

  /** After reasoning and no text, the thinking block is open exactly when nothing has broken it. */
  lemma {:induction false} ThinkingOpen(chunks: seq<Json>)
    requires Agreeable(chunks) && NoText(chunks) && !NoReasoning(chunks)
    ensures BlockAfter(chunks) == Some(OpenThinking) <==> ReasoningUnbroken(chunks)
    decreases |chunks|
  {
    hide ReasoningOf, TextOf, ToolCallsOf, ReasonOf, HasToolCall, CallsIn, ReasoningIn, TextIn, NoCall, NoText,
         ReasoningUnbroken, TextUnbroken, Agreeable;
    var past, chunk := chunks[..|chunks| - 1], chunks[|chunks| - 1];
    assert chunks == past + [chunk];
    AgreeableAppend(past, chunk);
    UnbrokenAppend(past, chunk);
    NoneOf(past, chunk);
    Parts(past);
    if NoReasoning(past) {
      NothingToBreak(past);
    } else {
      ThinkingOpen(past);
    }
  }

  lemma NothingToBreak(chunks: seq<Json>)
    ensures NoReasoning(chunks) ==> ReasoningUnbroken(chunks)
    ensures NoText(chunks) ==> TextUnbroken(chunks)
  {
    hide BringsReasoning, BringsText, BringsCall, Ends;
  }

  /** After text and no tool call, the text block is open exactly when nothing has broken it. */
  lemma {:induction false} TextOpen(chunks: seq<Json>)
    requires Agreeable(chunks) && NoCall(chunks) && !NoText(chunks)
    ensures BlockAfter(chunks) == Some(OpenText) <==> TextUnbroken(chunks)
    decreases |chunks|
  {
    assert chunks != [];
    hide ReasoningOf, TextOf, ToolCallsOf, ReasonOf, HasToolCall, CallsIn, ReasoningIn, TextIn, NoCall, NoReasoning,
        NoText,
         ReasoningUnbroken, TextUnbroken, Agreeable;
    var past, chunk := chunks[..|chunks| - 1], chunks[|chunks| - 1];
    assert chunks == past + [chunk];
    AgreeableAppend(past, chunk);
    UnbrokenAppend(past, chunk);
    NoneOf(past, chunk);
    Parts(past);
    if NoText(past) {
      NothingToBreak(past);
    } else {
      TextOpen(past);
    }
  }

  lemma FitsIsPlaced(past: seq<Json>, chunk: Json)
    requires Agreeable(past)
    ensures Fits(past, chunk) <==> Placed(past, chunk)
  {
    hide ReasoningOf, TextOf, ToolCallsOf, ReasonOf, HasToolCall, CallsIn, ReasoningIn, TextIn, NoCall, NoReasoning,
        NoText,
         ReasoningUnbroken, TextUnbroken, Agreeable, BlockAfter;
    Parts(past);
    CallsJoin(CallsIn(past), ToolCallsOf(chunk));
    NothingToBreak(past);
    if NoText(past) && !NoReasoning(past) { ThinkingOpen(past); }
    if NoCall(past) && !NoText(past) { TextOpen(past); }
  }

  /** Agreeable deltas are those in which every chunk is in its place. */
  lemma {:induction false} AgreeableByPosition(chunks: seq<Json>)
    ensures Agreeable(chunks) <==> forall k | 0 <= k < |chunks| :: Placed(chunks[..k], chunks[k])
    decreases |chunks|
  {
    hide Fits, Placed, Agreeable;
    if chunks == [] {
      assert Agreeable(chunks) by { NothingToFit(); }
    } else {
      var past, chunk := chunks[..|chunks| - 1], chunks[|chunks| - 1];
      assert chunks == past + [chunk];
      AgreeableAppend(past, chunk);
      AgreeableByPosition(past);
      assert forall k | 0 <= k < |past| :: chunks[..k] == past[..k] && chunks[k] == past[k];
      if Agreeable(past) { FitsIsPlaced(past, chunk); }
      assert chunks[..|past|] == past;
      if forall k | 0 <= k < |chunks| :: Placed(chunks[..k], chunks[k]) {
        forall k | 0 <= k < |past| ensures Placed(past[..k], past[k]) { assert Placed(chunks[..k], chunks[k]); }
        assert Placed(chunks[..|past|], chunks[|past|]);
      }
    }
  }

  lemma NothingToFit()
    ensures Agreeable([])
  {
  }
}
