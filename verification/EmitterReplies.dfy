/**
 The stream in the upstream's own terms. A reply is what one chunk says: reasoning,
 text, tool deltas with their indices, a finish reason, token counts. Replies are
 written as JSON chunks, run through the emitter, and the events folded back; what
 comes out is said of the replies alone.
 */
module EmitterReplies {
  import opened Options
  import opened JsonValues
  import opened AnthropicEvents
  import opened SortedSets
  import opened Numbers
  import Decimals
  import opened EmitterModel
  import opened EmitterContent
  import opened EmitterProtocol
  import opened ResponseTranslation
  import opened EmitterAgreement
  import opened EmitterOrder
  import EmitterUsage

  // An index, id, name or fragment that is absent is left out of the chunk; no index means 0.
  datatype ToolDelta = ToolDelta(
    index: Option<int>,
    id: Option<string>,
    name: Option<string>,
    arguments: Option<string>)

  datatype TokenReport = TokenReport(prompt: Option<int>, completion: Option<int>, cached: Option<int>)

  datatype PromptProgress = PromptProgress(total: int, processed: int, cache: Option<int>)

  // Upstreams name the reasoning "reasoning_content" or, if `short`, "reasoning".
  datatype Reply = Reply(
    id: Option<string>,
    model: Option<string>,
    short: bool,
    reasoning: string,
    text: string,
    tools: seq<ToolDelta>,
    reason: string,
    usage: Option<TokenReport>,
    progress: Option<PromptProgress>)

  // Writing.

  function StrField(key: string, value: Option<string>): map<string, Json> {
    if value.Some? then map[key := Str(value.value)] else map[]
  }

  function NumField(key: string, value: Option<int>): map<string, Json> {
    if value.Some? then map[key := Number(value.value)] else map[]
  }

  function FunctionJson(t: ToolDelta): Json { Obj(StrField("name", t.name) + StrField("arguments", t.arguments)) }

  function ToolDeltaJson(t: ToolDelta): Json {
    Obj(NumField("index", t.index) + StrField("id", t.id) + map["function" := FunctionJson(t)])
  }

  function ToolDeltaJsons(ts: seq<ToolDelta>): seq<Json> {
    seq(|ts|, i requires 0 <= i < |ts| => ToolDeltaJson(ts[i]))
  }

  function DeltaJson(d: Reply): Json {
    Obj(map[(if d.short then "reasoning" else "reasoning_content") := Str(d.reasoning)]
        + map["content" := Str(d.text), "tool_calls" := Arr(ToolDeltaJsons(d.tools))])
  }

  function ChoiceJson(d: Reply): Json { Obj(map["delta" := DeltaJson(d), "finish_reason" := Str(d.reason)]) }

  function UsageJson(u: TokenReport): Json {
    Obj(NumField("prompt_tokens", u.prompt) + NumField("completion_tokens", u.completion)
        + map["prompt_tokens_details" := Obj(NumField("cached_tokens", u.cached))])
  }

  function ProgressJson(p: PromptProgress): Json {
    Obj(map["total" := Number(p.total), "processed" := Number(p.processed)] + NumField("cache", p.cache))
  }

  function ReportFields(d: Reply): map<string, Json> {
    (if d.usage.Some? then map["usage" := UsageJson(d.usage.value)] else map[])
    + (if d.progress.Some? then map["prompt_progress" := ProgressJson(d.progress.value)] else map[])
  }

  function ChunkJson(d: Reply): Json {
    Obj(StrField("id", d.id) + StrField("model", d.model)
        + map["choices" := Arr([ChoiceJson(d)])] + ReportFields(d))
  }

  function ChunkJsons(ds: seq<Reply>): seq<Json> {
    seq(|ds|, i requires 0 <= i < |ds| => ChunkJson(ds[i]))
  }

  /** The replies pushed one by one, and the finish. */
  function CallsOf(ds: seq<Reply>): seq<Call> {
    seq(|ds|, i requires 0 <= i < |ds| => PushValue(ChunkJson(ds[i]))) + [Finish]
  }

  // The message the replies make up.

  function AllReasoning(ds: seq<Reply>): string {
    if ds == [] then "" else AllReasoning(ds[..|ds| - 1]) + ds[|ds| - 1].reasoning
  }

  function AllText(ds: seq<Reply>): string {
    if ds == [] then "" else AllText(ds[..|ds| - 1]) + ds[|ds| - 1].text
  }

  function AllTools(ds: seq<Reply>): seq<ToolDelta> {
    if ds == [] then [] else AllTools(ds[..|ds| - 1]) + ds[|ds| - 1].tools
  }

  function LastReason(ds: seq<Reply>): string {
    if ds == [] then ""
    else if ds[|ds| - 1].reason != "" then ds[|ds| - 1].reason else LastReason(ds[..|ds| - 1])
  }

  function IndexOf(t: ToolDelta): int { t.index.GetOr(0) }

  function Indices(ts: seq<ToolDelta>): set<int> { set t | t in ts :: IndexOf(t) }

  /** The last id and name given for the tool with this index, and all its fragments. */
  function IdFor(ts: seq<ToolDelta>, index: int): string {
    if ts == [] then ""
    else
      var last := ts[|ts| - 1];
      if IndexOf(last) == index && last.id.Some? then last.id.value else IdFor(ts[..|ts| - 1], index)
  }

  function NameFor(ts: seq<ToolDelta>, index: int): string {
    if ts == [] then ""
    else
      var last := ts[|ts| - 1];
      if IndexOf(last) == index && last.name.Some? then last.name.value else NameFor(ts[..|ts| - 1], index)
  }

  function ArgumentsFor(ts: seq<ToolDelta>, index: int): string {
    if ts == [] then ""
    else
      ArgumentsFor(ts[..|ts| - 1], index)
      + (if IndexOf(ts[|ts| - 1]) == index then ts[|ts| - 1].arguments.GetOr("") else "")
  }

  function ToolUseOf(ts: seq<ToolDelta>, index: int): Part {
    var given := IdFor(ts, index);
    var id := if given == "" then "toolu_" + Decimals.FromInt(index) else given;
    Part.ToolUse(id, NameFor(ts, index), ArgumentsFor(ts, index))
  }

  function ToolUses(ts: seq<ToolDelta>): seq<Part> {
    var order := SortedKeys(Indices(ts));
    seq(|order|, i requires 0 <= i < |order| => ToolUseOf(ts, order[i]))
  }

  function AssembledId(id: Option<string>, prefix: string): string {
    if id.GetOr("") == "" then prefix + "unknown" else if prefix <= id.value then id.value else prefix + id.value
  }

  function AssembledStop(reason: string, hasTools: bool): string {
    if reason == "length" then "max_tokens"
    else if reason == "content_filter" then "refusal"
    else if reason == "tool_calls" || hasTools then "tool_use"
    else "end_turn"
  }

  function Assembled(ds: seq<Reply>, prefix: string): Message
    requires ds != []
  {
    Message(
      AssembledId(ds[0].id, prefix),
      ds[0].model.GetOr("unknown"),
      (if AllReasoning(ds) == "" then [] else [Part.Thinking(AllReasoning(ds))])
      + (if AllText(ds) == "" then [] else [Part.Text(AllText(ds))])
      + ToolUses(AllTools(ds)),
      AssembledStop(LastReason(ds), AllTools(ds) != []))
  }

  // Reading what was written.

  lemma ToolDeltaReads(t: ToolDelta)
    ensures var call := ToolDeltaJson(t);
            && call.Obj? && ToolIndexOf(call) == IndexOf(t)
            && ToolId(call) == t.id && ToolName(call) == t.name && ToolArguments(call) == t.arguments
  {
    var call := ToolDeltaJson(t);
    assert Field(Some(call), "function") == Some(FunctionJson(t));
    assert Field(Some(call), "index") == if t.index.Some? then Some(Number(t.index.value)) else None;
    assert Field(Some(call), "id") == if t.id.Some? then Some(Str(t.id.value)) else None;
    FunctionReads(t);
  }

  lemma FunctionReads(t: ToolDelta)
    ensures Field(Some(FunctionJson(t)), "name") == if t.name.Some? then Some(Str(t.name.value)) else None
    ensures Field(Some(FunctionJson(t)), "arguments")
            == if t.arguments.Some? then Some(Str(t.arguments.value)) else None
  {
  }

  lemma DeltaReads(d: Reply)
    ensures Field(Some(DeltaJson(d)), "content") == Some(Str(d.text))
    ensures Field(Some(DeltaJson(d)), "tool_calls") == Some(Arr(ToolDeltaJsons(d.tools)))
    ensures d.short ==> Field(Some(DeltaJson(d)), "reasoning_content") == None
                        && Field(Some(DeltaJson(d)), "reasoning") == Some(Str(d.reasoning))
    ensures !d.short ==> Field(Some(DeltaJson(d)), "reasoning_content") == Some(Str(d.reasoning))
  {
    hide ToolDeltaJsons;
  }

  lemma NamedFields(d: Reply)
    ensures var named := StrField("id", d.id) + StrField("model", d.model);
            && Field(Some(Obj(named)), "id") == (if d.id.Some? then Some(Str(d.id.value)) else None)
            && Field(Some(Obj(named)), "model") == (if d.model.Some? then Some(Str(d.model.value)) else None)
            && named.Keys <= {"id", "model"}
  {
  }

  lemma ReportedFields(d: Reply)
    ensures Field(Some(Obj(ReportFields(d))), "usage") == if d.usage.Some? then Some(UsageJson(d.usage.value)) else None
    ensures Field(Some(Obj(ReportFields(d))), "prompt_progress")
            == if d.progress.Some? then Some(ProgressJson(d.progress.value)) else None
    ensures ReportFields(d).Keys <= {"usage", "prompt_progress"}
  {
    hide UsageJson, ProgressJson;
  }

  lemma ChunkFields(d: Reply)
    ensures IsAccepted(ChunkJson(d)) && ChoiceOf(ChunkJson(d)) == Some(ChoiceJson(d))
    ensures AsString(Field(Some(ChunkJson(d)), "id")) == d.id && AsString(Field(Some(ChunkJson(d)), "model")) == d.model
    ensures Field(Some(ChunkJson(d)), "id") == if d.id.Some? then Some(Str(d.id.value)) else None
    ensures Field(Some(ChunkJson(d)), "model") == if d.model.Some? then Some(Str(d.model.value)) else None
    ensures Field(Some(ChunkJson(d)), "timings") == None
    ensures UsageOf(ChunkJson(d)) == if d.usage.Some? then Some(UsageJson(d.usage.value)) else None
    ensures ProgressOf(ChunkJson(d)) == if d.progress.Some? then Some(ProgressJson(d.progress.value)) else None
  {
    hide DeltaJson, UsageJson, ProgressJson, ReportFields, StrField;
    NamedFields(d);
    ReportedFields(d);
    ReportsAreObjects(d);
    var named, reports := StrField("id", d.id) + StrField("model", d.model), ReportFields(d);
    assert ChunkJson(d) == Obj(named + map["choices" := Arr([ChoiceJson(d)])] + reports);
    assert "error" !in named && "error" !in reports && "choices" !in reports;
    assert Field(Some(ChunkJson(d)), "choices") == Some(Arr([ChoiceJson(d)]));
  }

  lemma ReportsAreObjects(d: Reply)
    ensures d.usage.Some? ==> UsageJson(d.usage.value).Obj?
    ensures d.progress.Some? ==> ProgressJson(d.progress.value).Obj?
  {
  }

  lemma ChunkReads(d: Reply)
    ensures var chunk := ChunkJson(d);
            && ReasoningOf(chunk) == d.reasoning && TextOf(chunk) == d.text && ReasonOf(chunk) == d.reason
            && ToolCallsOf(chunk) == ToolDeltaJsons(d.tools)
  {
    hide ChunkJson, DeltaJson, ToolDeltaJsons, ChoiceOf;
    ChunkFields(d);
    DeltaReads(d);
    assert DeltaJson(d).Obj? by { DeltaIsObject(d); }
    assert Field(Some(ChoiceJson(d)), "delta") == Some(DeltaJson(d));
    assert Field(Some(ChoiceJson(d)), "finish_reason") == Some(Str(d.reason));
  }

  lemma DeltaIsObject(d: Reply)
    ensures DeltaJson(d).Obj?
  {
  }

  // The assembled parts, chunk by chunk.

  lemma {:induction false} RepliesRead(ds: seq<Reply>)
    ensures var chunks := ChunkJsons(ds);
            && ReasoningIn(chunks) == AllReasoning(ds) && TextIn(chunks) == AllText(ds)
            && CallsIn(chunks) == ToolDeltaJsons(AllTools(ds)) && ReasonIn(chunks) == LastReason(ds)
    decreases |ds|
  {
    hide ReasoningOf, TextOf, ToolCallsOf, ReasonOf, ChunkJson;
    var chunks := ChunkJsons(ds);
    if ds == [] {
      assert ToolDeltaJsons([]) == [];
    } else {
      var init, last := ds[..|ds| - 1], ds[|ds| - 1];
      RepliesRead(init);
      assert chunks[..|chunks| - 1] == ChunkJsons(init) && chunks[|chunks| - 1] == ChunkJson(last);
      ChunkReads(last);
      assert ToolDeltaJsons(AllTools(init) + last.tools) == ToolDeltaJsons(AllTools(init)) + ToolDeltaJsons(last.tools);
    }
  }

  lemma {:induction false} ToolReads(ts: seq<ToolDelta>, index: int)
    ensures WholeTool(ToolDeltaJsons(ts), index)
        == BufferedTool(IdFor(ts, index), NameFor(ts, index), ArgumentsFor(ts, index))
    ensures CarriedByCalls(ToolDeltaJsons(ts), index) == ArgumentsFor(ts, index)
    decreases |ts|
  {
    hide ToolIndexOf, ToolId, ToolName, ToolArguments, ToolDeltaJson;
    var calls := ToolDeltaJsons(ts);
    if ts != [] {
      var init, last := ts[..|ts| - 1], ts[|ts| - 1];
      ToolReads(init, index);
      assert calls[..|calls| - 1] == ToolDeltaJsons(init) && calls[|calls| - 1] == ToolDeltaJson(last);
      ToolDeltaReads(last);
      WholeToolArguments(ToolDeltaJsons(init), index);
    }
  }

  lemma IndicesRead(ts: seq<ToolDelta>)
    ensures IndicesIn(ToolDeltaJsons(ts)) == Indices(ts)
    ensures HasToolCall(ToolDeltaJsons(ts)) <==> ts != []
  {
    hide ToolIndexOf, ToolDeltaJson;
    var calls := ToolDeltaJsons(ts);
    forall i | 0 <= i < |ts| ensures calls[i].Obj? && ToolIndexOf(calls[i]) == IndexOf(ts[i]) {
      ToolDeltaReads(ts[i]);
    }
    forall index ensures index in IndicesIn(calls) <==> index in Indices(ts) {
      if index in IndicesIn(calls) {
        var call :| call in calls && call.Obj? && ToolIndexOf(call) == index;
        var i :| 0 <= i < |calls| && calls[i] == call;
        assert ts[i] in ts;
      }
      if index in Indices(ts) {
        var t :| t in ts && IndexOf(t) == index;
        var i :| 0 <= i < |ts| && ts[i] == t;
        assert calls[i] in calls;
      }
    }
    if ts != [] { assert calls[0] in calls; }
  }

  lemma IndicesNone(ts: seq<ToolDelta>)
    ensures Indices(ts) == {} <==> ts == []
  {
    if ts != [] { assert IndexOf(ts[0]) in Indices(ts); }
  }

  lemma StopReads(reason: string, hasTools: bool)
    ensures MapFinishReason(Some(reason), hasTools) == AssembledStop(reason, hasTools)
  {
  }

  lemma IdReads(d: Reply, prefix: string)
    ensures MessageId(Field(Some(ChunkJson(d)), "id"), prefix) == AssembledId(d.id, prefix)
  {
    ChunkFields(d);
  }

  lemma ToolUsesRead(ts: seq<ToolDelta>)
    ensures WholeToolParts(ToolDeltaJsons(ts)) == ToolUses(ts)
  {
    hide WholeTool, ToolDeltaJsons, IdFor, NameFor, ArgumentsFor;
    IndicesRead(ts);
    var order := SortedKeys(Indices(ts));
    forall i | 0 <= i < |order|
      ensures ToolPart(order[i], WholeTool(ToolDeltaJsons(ts), order[i])) == ToolUseOf(ts, order[i])
    {
      ToolReads(ts, order[i]);
    }
  }

  lemma StreamedReads(ds: seq<Reply>, prefix: string)
    requires ds != []
    ensures Streamed(ChunkJsons(ds), prefix) == Assembled(ds, prefix)
  {
    hide ChunkJson, MessageId, MapFinishReason, AssembledId, AssembledStop, WholeToolParts, ToolUses, IndicesIn,
         Indices, ToolDeltaJsons, AllReasoning, AllText, AllTools, LastReason, ReasoningIn, TextIn, CallsIn,
         ReasonIn;
    RepliesRead(ds);
    ToolUsesRead(AllTools(ds));
    IndicesRead(AllTools(ds));
    IndicesNone(AllTools(ds));
    StopReads(LastReason(ds), AllTools(ds) != []);
    IdReads(ds[0], prefix);
    ChunkFields(ds[0]);
    assert ChunkJsons(ds)[0] == ChunkJson(ds[0]);
  }

  lemma {:induction false} HeardReplies(ds: seq<Reply>)
    ensures Received(CallsOf(ds)) == ChunkJsons(ds)
    decreases |ds|
  {
    hide ChunkJson, IsAccepted;
    var calls := CallsOf(ds);
    if ds == [] {
      assert calls == [Finish];
    } else {
      assert calls[0] == PushValue(ChunkJson(ds[0])) && calls[1..] == CallsOf(ds[1..]);
      ChunkFields(ds[0]);
      HeardReplies(ds[1..]);
      assert ChunkJsons(ds) == [ChunkJson(ds[0])] + ChunkJsons(ds[1..]);
    }
  }

  // The order of the replies.

  /** May reply k stand where it does: told by what the replies before it bring. */
  predicate InPlace(ds: seq<Reply>, k: nat)
    requires k < |ds|
  {
    && (ds[k].reasoning != "" ==>
          && (forall j | 0 <= j < k :: ds[j].text == "")
          && (forall i, j | 0 <= i <= j < k && ds[i].reasoning != "" :: ds[j].tools == [] && ds[j].reason == ""))
    && (ds[k].text != "" ==>
          && (forall j | 0 <= j <= k :: ds[j].tools == [])
          && (forall i, j | 0 <= i <= j < k && ds[i].text != "" :: ds[j].reason == ""))
  }

  predicate Orderly(ds: seq<Reply>) { forall k | 0 <= k < |ds| :: InPlace(ds, k) }

  lemma BringsReads(d: Reply)
    ensures BringsReasoning(ChunkJson(d)) <==> d.reasoning != ""
    ensures BringsText(ChunkJson(d)) <==> d.text != ""
    ensures BringsCall(ChunkJson(d)) <==> d.tools != []
    ensures Ends(ChunkJson(d)) <==> d.reason != ""
  {
    hide ReasoningOf, TextOf, ToolCallsOf, ReasonOf, ChunkJson, HasToolCall, ToolDeltaJsons;
    ChunkReads(d);
    IndicesRead(d.tools);
  }

  lemma PlacedReads(ds: seq<Reply>, k: nat)
    requires k < |ds|
    ensures Placed(ChunkJsons(ds)[..k], ChunkJsons(ds)[k]) <==> InPlace(ds, k)
  {
    hide BringsReasoning, BringsText, BringsCall, Ends, ChunkJson;
    var past := ChunkJsons(ds)[..k];
    forall i | 0 <= i < |ds|
      ensures BringsReasoning(ChunkJson(ds[i])) <==> ds[i].reasoning != ""
      ensures BringsText(ChunkJson(ds[i])) <==> ds[i].text != ""
      ensures BringsCall(ChunkJson(ds[i])) <==> ds[i].tools != []
      ensures Ends(ChunkJson(ds[i])) <==> ds[i].reason != ""
    {
      BringsReads(ds[i]);
    }
    assert forall i | 0 <= i < k :: past[i] == ChunkJson(ds[i]);
    NoneReads(ds, past);
    UnbrokenReads(ds, past);
  }

  lemma NoneReads(ds: seq<Reply>, past: seq<Json>)
    requires |past| <= |ds|
    requires forall i | 0 <= i < |past| :: BringsText(past[i]) <==> ds[i].text != ""
    requires forall i | 0 <= i < |past| :: BringsCall(past[i]) <==> ds[i].tools != []
    ensures NoText(past) <==> forall j | 0 <= j < |past| :: ds[j].text == ""
    ensures NoCall(past) <==> forall j | 0 <= j < |past| :: ds[j].tools == []
  {
    hide BringsText, BringsCall;
    if NoText(past) { forall j | 0 <= j < |past| ensures ds[j].text == "" { assert !BringsText(past[j]); } }
    if NoCall(past) { forall j | 0 <= j < |past| ensures ds[j].tools == [] { assert !BringsCall(past[j]); } }
  }

  lemma UnbrokenReads(ds: seq<Reply>, past: seq<Json>)
    requires |past| <= |ds|
    requires forall i | 0 <= i < |past| :: BringsReasoning(past[i]) <==> ds[i].reasoning != ""
    requires forall i | 0 <= i < |past| :: BringsText(past[i]) <==> ds[i].text != ""
    requires forall i | 0 <= i < |past| :: BringsCall(past[i]) <==> ds[i].tools != []
    requires forall i | 0 <= i < |past| :: Ends(past[i]) <==> ds[i].reason != ""
    ensures ReasoningUnbroken(past)
            <==> forall i, j | 0 <= i <= j < |past| && ds[i].reasoning != "" :: ds[j].tools == [] && ds[j].reason == ""
    ensures TextUnbroken(past) <==> forall i, j | 0 <= i <= j < |past| && ds[i].text != "" :: ds[j].reason == ""
  {
    hide BringsReasoning, BringsText, BringsCall, Ends;
    if ReasoningUnbroken(past) {
      forall i, j | 0 <= i <= j < |past| && ds[i].reasoning != "" ensures ds[j].tools == [] && ds[j].reason == "" {
        assert BringsReasoning(past[i]) && !BringsCall(past[j]) && !Ends(past[j]);
      }
    }
    if TextUnbroken(past) {
      forall i, j | 0 <= i <= j < |past| && ds[i].text != "" ensures ds[j].reason == "" {
        assert BringsText(past[i]) && !Ends(past[j]);
      }
    }
  }

  lemma OrderlyReads(ds: seq<Reply>)
    ensures Agreeable(ChunkJsons(ds)) <==> Orderly(ds)
  {
    hide Agreeable, Placed, InPlace, ChunkJson;
    AgreeableByPosition(ChunkJsons(ds));
    forall k | 0 <= k < |ds| ensures Placed(ChunkJsons(ds)[..k], ChunkJsons(ds)[k]) <==> InPlace(ds, k) {
      PlacedReads(ds, k);
    }
    if forall k | 0 <= k < |ChunkJsons(ds)| :: Placed(ChunkJsons(ds)[..k], ChunkJsons(ds)[k]) {
      forall k | 0 <= k < |ds| ensures InPlace(ds, k) { assert Placed(ChunkJsons(ds)[..k], ChunkJsons(ds)[k]); }
    }
  }

  lemma AssembledInOrder(ds: seq<Reply>, prefix: string)
    requires ds != []
    ensures !Misordered(Assembled(ds, prefix).content)
  {
    hide AllReasoning, AllText, AllTools, AssembledStop, AssembledId, LastReason, IdFor, NameFor, ArgumentsFor;
    var parts := Assembled(ds, prefix).content;
    forall i, j ensures !OutOfPlace(parts, i, j) {
    }
  }

  /**
   The stream of any replies folds to the message they make up, tools told apart by
   their indices and in index order, exactly when the replies are orderly.
   */
  lemma StreamOfReplies(ds: seq<Reply>, prefix: string)
    requires ds != []
    ensures Fold(Run(INITIAL, CallsOf(ds), prefix).events) == Assembled(ds, prefix) <==> Orderly(ds)
  {
    hide Run, Fold, Streamed, Assembled, Misordered, Orderly, Agreeable, Received;
    var calls := CallsOf(ds);
    var chunks := ChunkJsons(ds);
    HeardReplies(ds);
    assert [] + chunks == chunks && calls[|ds|] == Finish && calls[|ds|] in calls;
    TracksInitially(prefix);
    assert Agreeable([]) by { NothingToFit(); }
    RunFolds(INITIAL, [], calls, prefix);
    StreamedReads(ds, prefix);
    OrderlyReads(ds);
    AssembledInOrder(ds, prefix);
  }

  /** In any order: nothing is lost, and each tool index gets its own fragments. */
  lemma ContentOfReplies(ds: seq<Reply>, prefix: string, index: int)
    ensures var s := Run(INITIAL, CallsOf(ds), prefix);
            ContentIn(s.events, s.owners, index)
            == Content(AllText(ds), AllReasoning(ds), ArgumentsFor(AllTools(ds), index))
  {
    hide Run, ContentIn, Received;
    var calls := CallsOf(ds);
    HeardReplies(ds);
    assert IsFinish(calls[|ds|]) && calls[|ds|] in calls;
    ContentConserved(calls, prefix, index);
    CarriedReads(ds, index);
  }

  lemma {:induction false} CarriedReads(ds: seq<Reply>, index: int)
    ensures Carried(ChunkJsons(ds), index) == Content(AllText(ds), AllReasoning(ds), ArgumentsFor(AllTools(ds), index))
    decreases |ds|
  {
    hide ReasoningOf, TextOf, ToolCallsOf, ChunkJson, CarriedByCalls, ToolDeltaJsons;
    if ds == [] {
      assert ChunkJsons(ds) == [];
    } else {
      var init, last := ds[..|ds| - 1], ds[|ds| - 1];
      CarriedReads(init, index);
      assert ChunkJsons(ds) == ChunkJsons(init) + [ChunkJson(last)];
      CarriedConcat(ChunkJsons(init), [ChunkJson(last)], index);
      ChunkReads(last);
      ToolReads(last.tools, index);
      ArgumentsConcat(AllTools(init), last.tools, index);
      NothingIsUnit(CarriedBy(ChunkJson(last), index));
      CarriedOne(ChunkJson(last), index);
    }
  }

  lemma CarriedOne(chunk: Json, index: int)
    ensures Carried([chunk], index) == CarriedBy(chunk, index)
  {
    assert [chunk][1..] == [];
    NothingIsUnit(CarriedBy(chunk, index));
  }

  lemma {:induction false} ArgumentsConcat(a: seq<ToolDelta>, b: seq<ToolDelta>, index: int)
    ensures ArgumentsFor(a + b, index) == ArgumentsFor(a, index) + ArgumentsFor(b, index)
    decreases |b|
  {
    if b == [] {
      assert a + b == a;
    } else {
      var init := b[..|b| - 1];
      ArgumentsConcat(a, init, index);
      assert (a + b)[..|a + b| - 1] == a + init;
    }
  }

  // Against the response that is not streamed.

  function ToolCallJson(ts: seq<ToolDelta>, index: int): Json {
    Obj(map["id" := Str(IdFor(ts, index)),
            "function" := Obj(map["name" := Str(NameFor(ts, index)), "arguments" := Str(ArgumentsFor(ts, index))])])
  }

  /** The same message as one response: its tool calls in index order. */
  function ResponseJson(ds: seq<Reply>): Json
    requires ds != []
  {
    var ts := AllTools(ds);
    var order := SortedKeys(Indices(ts));
    var message := Obj(map[
      "reasoning_content" := Str(AllReasoning(ds)),
      "content" := Str(AllText(ds)),
      "tool_calls" := Arr(seq(|order|, i requires 0 <= i < |order| => ToolCallJson(ts, order[i])))]);
    Obj(map["choices" := Arr([Obj(map["message" := message, "finish_reason" := Str(LastReason(ds))])])]
        + StrField("id", ds[0].id) + StrField("model", ds[0].model))
  }

  lemma ResponseReads(ds: seq<Reply>)
    requires ds != []
    ensures ResponseJson(ds) == WholeBody(ChunkJsons(ds))
  {
    hide ChunkJson, AllReasoning, AllText, AllTools, LastReason, ReasoningIn, TextIn, CallsIn, ReasonIn, IdFor,
         NameFor, ArgumentsFor, WholeTool, ToolDeltaJsons, Indices, IndicesIn;
    RepliesRead(ds);
    var ts := AllTools(ds);
    IndicesRead(ts);
    var order := SortedKeys(Indices(ts));
    forall i | 0 <= i < |order| ensures ToolCallJson(ts, order[i])
        == ToolJson(WholeTool(ToolDeltaJsons(ts), order[i])) {
      ToolReads(ts, order[i]);
    }
    assert seq(|order|, i requires 0 <= i < |order| => ToolCallJson(ts, order[i]))
        == ToolJsons(ToolDeltaJsons(ts), |order|);
    ChunkFields(ds[0]);
    assert ChunkJsons(ds)[0] == ChunkJson(ds[0]);
  }

  /** Something is said, and every tool has an id and a name. */
  predicate IsComplete(ds: seq<Reply>) {
    var ts := AllTools(ds);
    && (AllReasoning(ds) != "" || AllText(ds) != "" || ts != [])
    && forall t <- ts :: IdFor(ts, IndexOf(t)) != "" && NameFor(ts, IndexOf(t)) != ""
  }

  lemma CompleteReads(ds: seq<Reply>)
    ensures Complete(ChunkJsons(ds)) <==> IsComplete(ds)
  {
    hide ChunkJson, AllReasoning, AllText, AllTools, ReasoningIn, TextIn, CallsIn, IdFor, NameFor, ArgumentsFor,
         WholeTool, ToolDeltaJsons, IndicesIn;
    RepliesRead(ds);
    var ts := AllTools(ds);
    IndicesRead(ts);
    IndicesNone(ts);
    forall index ensures WholeTool(ToolDeltaJsons(ts), index).id == IdFor(ts, index)
                         && WholeTool(ToolDeltaJsons(ts), index).name == NameFor(ts, index)
    {
      ToolReads(ts, index);
    }
    if Complete(ChunkJsons(ds)) {
      forall t | t in ts ensures IdFor(ts, IndexOf(t)) != "" && NameFor(ts, IndexOf(t)) != "" {
        assert IndexOf(t) in Indices(ts);
      }
    }
  }

  /** The stream agrees with the translation of that response exactly for complete and orderly replies. */
  lemma RepliesAgreeWithResponse(ds: seq<Reply>, prefix: string)
    requires ds != []
    ensures Fold(Run(INITIAL, CallsOf(ds), prefix).events) == Translated(ResponseJson(ds), prefix)
            <==> IsComplete(ds) && Orderly(ds)
  {
    hide Run, Fold, Translated, ResponseJson, Orderly, Agreeable, Received, Complete, IsComplete, WholeBody;
    HeardReplies(ds);
    var calls := CallsOf(ds);
    assert IsFinish(calls[|ds|]) && calls[|ds|] in calls;
    StreamAgreesWithResponse(calls, prefix);
    ResponseReads(ds);
    CompleteReads(ds);
    OrderlyReads(ds);
  }

  // The token counts.

  function LastPrompt(ds: seq<Reply>): Option<int> {
    if ds == [] then None
    else
      var usage := ds[|ds| - 1].usage;
      if usage.Some? && usage.value.prompt.Some? then usage.value.prompt else LastPrompt(ds[..|ds| - 1])
  }

  function LastCompletion(ds: seq<Reply>): Option<int> {
    if ds == [] then None
    else
      var usage := ds[|ds| - 1].usage;
      if usage.Some? && usage.value.completion.Some? then usage.value.completion else LastCompletion(ds[..|ds| - 1])
  }

  function LastCached(ds: seq<Reply>): Option<int> {
    if ds == [] then None
    else
      var usage := ds[|ds| - 1].usage;
      if usage.Some? && usage.value.cached.Some? then usage.value.cached else LastCached(ds[..|ds| - 1])
  }

  function LastProgress(ds: seq<Reply>): Option<PromptProgress> {
    if ds == [] then None
    else if ds[|ds| - 1].progress.Some? then ds[|ds| - 1].progress else LastProgress(ds[..|ds| - 1])
  }

  function NotNegative(n: int): int { if n < 0 then 0 else n }

  /** What a client is left with: the usage reported, and the progress where it reports nothing. */
  function FinalReport(ds: seq<Reply>): EmitterUsage.Counts {
    var progress := LastProgress(ds);
    EmitterUsage.Counts(
      if LastPrompt(ds).Some? then NotNegative(LastPrompt(ds).value - LastCached(ds).GetOr(0))
      else if progress.Some? then NotNegative(progress.value.total - progress.value.cache.GetOr(0))
      else 0,
      LastCompletion(ds).GetOr(0),
      if LastCached(ds).Some? then LastCached(ds)
      else if progress.Some? then Some(progress.value.cache.GetOr(0)) else None)
  }

  lemma ReportReads(u: TokenReport, p: PromptProgress)
    ensures var usage := UsageJson(u);
            && NumberOrNull(Field(Some(usage), "prompt_tokens")) == u.prompt
            && NumberOrNull(Field(Some(usage), "completion_tokens")) == u.completion
            && NumberOrNull(Field(AsObject(Field(Some(usage), "prompt_tokens_details")), "cached_tokens")) == u.cached
    ensures KnownProgress(Some(ProgressJson(p))) == Some(Progress(p.total, p.processed, p.cache.GetOr(0)))
  {
    var details := Obj(NumField("cached_tokens", u.cached));
    assert Field(Some(UsageJson(u)), "prompt_tokens_details") == Some(details);
    assert Field(Some(details), "cached_tokens") == if u.cached.Some? then Some(Number(u.cached.value)) else None;
  }

  lemma CountsRead(d: Reply)
    ensures var chunk := ChunkJson(d);
            && EmitterUsage.PromptOf(chunk) == (if d.usage.Some? then d.usage.value.prompt else None)
            && EmitterUsage.CompletionOf(chunk) == (if d.usage.Some? then d.usage.value.completion else None)
            && EmitterUsage.CachedOf(chunk) == (if d.usage.Some? then d.usage.value.cached else None)
            && EmitterUsage.TotalOf(chunk) == (if d.progress.Some? then Some(d.progress.value.total) else None)
            && EmitterUsage.ProgressCacheOf(chunk)
               == (if d.progress.Some? then Some(d.progress.value.cache.GetOr(0)) else None)
  {
    hide ChunkJson, UsageOf, ProgressOf, UsageJson, ProgressJson;
    ChunkFields(d);
    var u, p := d.usage.GetOr(TokenReport(None, None, None)), d.progress.GetOr(PromptProgress(0, 0, None));
    ReportReads(u, p);
    assert KnownProgress(None) == None;
  }

  lemma {:induction false} ReportsRead(ds: seq<Reply>)
    ensures var progress := LastProgress(ds);
            EmitterUsage.UsageIn(ChunkJsons(ds))
            == Usage(LastPrompt(ds), LastCached(ds), LastCompletion(ds),
                     if progress.Some? then Some(progress.value.total) else None,
                     if progress.Some? then Some(progress.value.cache.GetOr(0)) else None)
    decreases |ds|
  {
    hide ChunkJson, EmitterUsage.PromptOf, EmitterUsage.CompletionOf, EmitterUsage.CachedOf, EmitterUsage.TotalOf,
         EmitterUsage.ProgressCacheOf;
    if ds != [] {
      var init, last := ds[..|ds| - 1], ds[|ds| - 1];
      var chunks := ChunkJsons(ds);
      ReportsRead(init);
      assert chunks[..|chunks| - 1] == ChunkJsons(init) && chunks[|chunks| - 1] == ChunkJson(last);
      CountsRead(last);
    }
  }

  /** In any order, the counts a client is left with are those of the last reports. */
  lemma CountsOfReplies(ds: seq<Reply>, prefix: string)
    requires ds != []
    ensures EmitterUsage.FoldCounts(Run(INITIAL, CallsOf(ds), prefix).events) == FinalReport(ds)
  {
    hide Run, EmitterUsage.FoldCounts, Received, EmitterUsage.UsageIn, LastPrompt, LastCached, LastCompletion,
         LastProgress;
    var calls := CallsOf(ds);
    HeardReplies(ds);
    assert IsFinish(calls[|ds|]) && calls[|ds|] in calls && [] + ChunkJsons(ds) == ChunkJsons(ds);
    assert EmitterUsage.Keeps(INITIAL, []) by { EmitterUsage.InitialKeeps(); }
    EmitterUsage.RunCounts(INITIAL, [], calls, prefix);
    ReportsRead(ds);
  }

  // What a call hands back beside the events, and what an error comes out as.

  /** The extensions name the progress and the usage of the reply. */
  lemma ExtensionsOfReply(d: Reply)
    ensures var x := ExtensionsOf(ChunkJson(d));
            && x.progress == (if d.progress.None? then None
                              else Some(Progress(d.progress.value.total, d.progress.value.processed,
                                                 d.progress.value.cache.GetOr(0))))
            && x.usage == (if d.usage.None? then None else Some(UsageJson(d.usage.value)))
            && x.timings == None
  {
    hide UsageJson, ProgressJson, UsageOf, ProgressOf, ChunkJson;
    ChunkFields(d);
    ReportReads(TokenReport(None, None, None), d.progress.GetOr(PromptProgress(0, 0, None)));
    assert KnownProgress(None) == None;
  }

  /** An error comes out as one event with its message, a text as itself, anything else under a general message. */
  lemma ErrorsComeOut(s: State, error: Json, prefix: string)
    requires !s.finished
    ensures var t := PushValueStep(s, Obj(map["error" := error]), prefix);
            var expected :=
              if error.Obj? && "message" in error.fields && error.fields["message"].Str? then error.fields["message"].s
              else if error.Str? then error.s else "Upstream stream error.";
            t == s.(events := s.events + [Error(expected)])
  {
  }

  // Pings.

  /** What t has emitted beyond s is no ping. */
  predicate AddsNoPing(s: State, t: State) {
    && |s.events| <= |t.events| && t.events[..|s.events|] == s.events
    && forall k | |s.events| <= k < |t.events| :: !t.events[k].Ping?
  }

  lemma BlocksAddNoPing(s: State, kind: ContentBlock, delta: Delta)
    ensures AddsNoPing(s, CloseBlock(s))
    ensures AddsNoPing(s, StartBlock(s, kind, None))
    ensures AddsNoPing(s, PushDelta(s, delta))
  {
  }

  lemma ToolAddsNoPing(s: State, index: int, tool: BufferedTool)
    ensures AddsNoPing(s, FlushTool(s, index, tool))
  {
    hide ToolBlock;
    var begun := StartBlock(s, ToolBlock(index, tool), Some(index));
    var filled := if tool.arguments == "" then begun else PushDelta(begun, InputJsonDelta(tool.arguments));
    assert begun.events == s.events + [BlockStart(s.nextIndex, ToolBlock(index, tool))];
    assert AddsNoPing(s, begun) && AddsNoPing(begun, filled) && AddsNoPing(filled, FlushTool(s, index, tool));
    NoPingJoins(s, begun, filled);
    NoPingJoins(s, filled, FlushTool(s, index, tool));
  }

  lemma NoPingJoins(s: State, t: State, u: State)
    requires AddsNoPing(s, t) && AddsNoPing(t, u)
    ensures AddsNoPing(s, u)
  {
  }

  /** Only the events count. */
  lemma SameEvents(s: State, t: State, u: State)
    requires AddsNoPing(s, t) && u.events == t.events
    ensures AddsNoPing(s, u)
  {
  }

  lemma {:induction false} FlushAddsNoPing(s: State, tools: map<int, BufferedTool>, order: seq<int>, n: nat)
    requires n <= |order|
    ensures AddsNoPing(s, FlushFirst(s, tools, order, n))
  {
    if n == 0 {
      assert AddsNoPing(s, s);
    } else {
      hide AddsNoPing, FlushTool, BufferedAt;
      var before := FlushFirst(s, tools, order, n - 1);
      FlushAddsNoPing(s, tools, order, n - 1);
      ToolAddsNoPing(before, order[n - 1], BufferedAt(tools, order[n - 1]));
      NoPingJoins(s, before, FlushFirst(s, tools, order, n));
    }
  }

  lemma ReadyAddsNoPing(s: State, kind: ContentBlock, block: OpenBlock, delta: Delta)
    ensures var ready :=
              if s.block == Some(block) then s else StartBlock(CloseBlock(s), kind, None).(block := Some(block));
            AddsNoPing(s, PushDelta(ready, delta)) && |PushDelta(ready, delta).events| > |s.events|
  {
    var closed := CloseBlock(s);
    BlocksAddNoPing(s, kind, delta);
    BlocksAddNoPing(closed, kind, delta);
    var ready := if s.block == Some(block) then s else StartBlock(closed, kind, None).(block := Some(block));
    BlocksAddNoPing(ready, kind, delta);
    NoPingJoins(s, closed, StartBlock(closed, kind, None));
    SamePing(s);
    SameEvents(s, if s.block == Some(block) then s else StartBlock(closed, kind, None), ready);
    NoPingJoins(s, ready, PushDelta(ready, delta));
  }

  lemma PartsAddNoPing(s: State, reasoning: string, text: string, reason: string)
    ensures AddsNoPing(s, ReasoningStep(s, reasoning))
    ensures AddsNoPing(s, TextStep(s, text))
    ensures AddsNoPing(s, ReasonStep(s, reason))
    ensures reasoning != "" ==> |ReasoningStep(s, reasoning).events| > |s.events|
    ensures text != "" ==> |TextStep(s, text).events| > |s.events|
  {
    assert AddsNoPing(s, s) by { SamePing(s); }
    ReasonAddsNoPing(s, reason);
    hide FlushFirst, CloseBlock, StartBlock, PushDelta, AddsNoPing;
    ReadyAddsNoPing(s, ThinkingBlock, OpenThinking, ThinkingDelta(reasoning));
    var order := SortedKeys(s.tools.Keys);
    FlushAddsNoPing(s, s.tools, order, |order|);
    SameEvents(s, FlushFirst(s, s.tools, order, |order|), FlushTools(s));
    ReadyAddsNoPing(FlushTools(s), TextBlock, OpenText, TextDelta(text));
    if text != "" { NoPingJoins(s, FlushTools(s), TextStep(s, text)); }
    Longer(s, FlushTools(s));
  }

  lemma SamePing(s: State)
    ensures AddsNoPing(s, s)
  {
  }

  lemma ReasonAddsNoPing(s: State, reason: string)
    ensures AddsNoPing(s, ReasonStep(s, reason))
  {
  }

  lemma {:induction false} CallsAddNoPing(s: State, calls: seq<Json>)
    ensures AddsNoPing(s, ToolsStep(s, calls))
    decreases |calls|
  {
    if calls == [] {
      SamePing(s);
    } else {
      hide AddsNoPing, ToolStep;
      var before, call := ToolsStep(s, calls[..|calls| - 1]), calls[|calls| - 1];
      CallsAddNoPing(s, calls[..|calls| - 1]);
      CallAddsNoPing(before, call);
      NoPingJoins(s, before, ToolStep(before, call));
    }
  }

  lemma CallAddsNoPing(s: State, call: Json)
    ensures AddsNoPing(s, ToolStep(s, call))
  {
    hide AddsNoPing, CloseBlock, ToolIndexOf, ToolId, ToolName, ToolArguments, BufferedAt;
    SamePing(s);
    BlocksAddNoPing(s, TextBlock, SignatureDelta);
    SameEvents(s, CloseBlock(s), if call.Obj? then ToolStep(s, call) else CloseBlock(s));
  }

  predicate IsQuiet(chunk: Json) {
    ReasoningOf(chunk) == "" && TextOf(chunk) == "" && ReasonOf(chunk) == "" && ToolCallsOf(chunk) == []
  }

  lemma ChunkAddsNoPing(s: State, chunk: Json, prefix: string)
    ensures AddsNoPing(s, ReadChunk(s, chunk, prefix))
    ensures ReasoningOf(chunk) != "" || TextOf(chunk) != "" ==> |ReadChunk(s, chunk, prefix).events| > |s.events|
    ensures s.started && IsQuiet(chunk) ==> ReadChunk(s, chunk, prefix).events == s.events
  {
    hide ReasoningStep, ToolsStep, TextStep, ReasonStep, ReasoningOf, TextOf, ToolCallsOf, ReasonOf, AddsNoPing,
         IsQuiet;
    var begun := Begin(s, chunk, prefix);
    assert AddsNoPing(s, begun) && |begun.events| >= |s.events| by { BeginAddsNoPing(s, chunk, prefix); }
    var reasoned := ReasoningStep(begun, ReasoningOf(chunk));
    var buffered := ToolsStep(reasoned, ToolCallsOf(chunk));
    var said := TextStep(buffered, TextOf(chunk));
    var read := ReasonStep(said, ReasonOf(chunk));
    PartsAddNoPing(begun, ReasoningOf(chunk), "", "");
    CallsAddNoPing(reasoned, ToolCallsOf(chunk));
    PartsAddNoPing(buffered, "", TextOf(chunk), "");
    PartsAddNoPing(said, "", "", ReasonOf(chunk));
    NoPingJoins(s, begun, reasoned);
    NoPingJoins(s, reasoned, buffered);
    NoPingJoins(s, buffered, said);
    NoPingJoins(s, said, read);
    Longer(begun, reasoned);
    Longer(reasoned, buffered);
    Longer(buffered, said);
    Longer(said, read);
    NothingRead(s, chunk, prefix);
  }

  lemma Longer(s: State, t: State)
    requires AddsNoPing(s, t)
    ensures |s.events| <= |t.events|
  {
  }

  lemma BeginAddsNoPing(s: State, chunk: Json, prefix: string)
    ensures AddsNoPing(s, Begin(s, chunk, prefix)) && |Begin(s, chunk, prefix).events| >= |s.events|
  {
    hide Absorb;
  }

  lemma NothingRead(s: State, chunk: Json, prefix: string)
    ensures s.started && IsQuiet(chunk) ==> ReadChunk(s, chunk, prefix).events == s.events
  {
    hide ReasoningOf, TextOf, ToolCallsOf, ReasonOf, Absorb;
  }

  /**
   A ping is all that a call emits, or there is none: it comes once the message has
   begun, for a reply that reports progress and emits nothing else.
   */
  lemma PingExactly(s: State, d: Reply, prefix: string)
    requires !s.finished
    ensures var t := PushValueStep(s, ChunkJson(d), prefix);
            && |s.events| <= |t.events| && t.events[..|s.events|] == s.events
            && var emitted := t.events[|s.events|..];
               && (Ping in emitted ==> emitted == [Ping] && s.started && d.progress.Some?)
               && (Ping in emitted ==> d.reasoning == d.text == "")
               && (s.started && d.progress.Some? ==> emitted != [])
               && (s.started && d.progress.None? && d.reasoning == d.text == d.reason == "" && d.tools == [] ==>
                     emitted == [])
  {
    hide ReadChunk, ChunkJson, ReasoningOf, TextOf, ToolCallsOf, ReasonOf;
    ChunkFields(d);
    ChunkReads(d);
    ChunkAddsNoPing(s, ChunkJson(d), prefix);
    var read := ReadChunk(s, ChunkJson(d), prefix);
    assert d.progress.Some? <==> ProgressOf(ChunkJson(d)).Some?;
    assert forall k | 0 <= k < |read.events| - |s.events| :: !read.events[|s.events|..][k].Ping?;
    if d.tools == [] { assert ToolDeltaJsons(d.tools) == []; }
  }
}
