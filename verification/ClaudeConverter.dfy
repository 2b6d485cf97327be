/** The history converter for Claude: agent messages to Claude messages and back, over JSON values. */
module ClaudeConverter {
  import opened Prelude

  datatype Json = Null | Bool(b: bool) | Num(n: int) | Str(s: string) | Arr(items: seq<Json>) | Obj(fields: Fields)

  type Fields = map<string, Json>

  /** A missing key, or a value of the wrong kind. */
  datatype Error = KeyError(key: string) | ValueError

  /** How a value that is not a string is written as one; any way will do. */
  type Show = Json -> string

  const CLAUDE := "claude"
  const MARKER := "context_compaction_marker"

  predicate Truthy(j: Json) {
    match j
    case Null => false
    case Bool(b) => b
    case Num(n) => n != 0
    case Str(s) => s != ""
    case Arr(items) => items != []
    case Obj(fields) => fields != map[]
  }

  /** The value, unless it is missing or counts as false. */
  function Or(d: Fields, key: string, default: Json): Json {
    if key in d && Truthy(d[key]) then d[key] else default
  }

  function Get(d: Fields, key: string, default: Json): Json { if key in d then d[key] else default }

  function Text(show: Show, j: Json): Json { if j.Str? then j else Str(show(j)) }

  function CopyMapping(j: Json): Fields { if j.Obj? then j.fields else map[] }

  function TextBlock(text: Json): Fields { map["type" := Str("text"), "text" := text] }

  function RefusalText(d: Fields): Json {
    if "refusal" in d && d["refusal"].Str? then d["refusal"] else Str("")
  }

  function Metadata(kind: string, data: Fields): Json {
    Obj(map["name" := Str(CLAUDE), "type" := Str(kind), "data" := Obj(data)])
  }

  function ProviderData(block: Fields): Option<Fields> {
    var metadata := Get(block, "provider", Null);
    if !metadata.Obj? || Get(metadata.fields, "name", Null) != Str(CLAUDE) then None
    else
      var data := Get(metadata.fields, "data", Null);
      if data.Obj? then Some(data.fields) else None
  }

  function ToolUseToClaude(block: Fields): Result<Option<Fields>, Error> {
    var data := ProviderData(block);
    var base := if data.Some? then data.value else map["type" := Str("tool_use")];
    if "id" !in block then Err(KeyError("id"))
    else if "name" !in block then Err(KeyError("name"))
    else
      Ok(Some(base["type" := Str("tool_use")]["id" := block["id"]]["name" := block["name"]]
                  ["input" := Obj(CopyMapping(Get(block, "input", Obj(map[]))))]))
  }

  function ToolResultToClaude(block: Fields): Result<Option<Fields>, Error> {
    var data := ProviderData(block);
    var base := if data.Some? then data.value else map["type" := Str("tool_result")];
    if "tool_use_id" !in block then Err(KeyError("tool_use_id"))
    else
      Ok(Some(base["type" := Str("tool_result")]["tool_use_id" := block["tool_use_id"]]
                  ["content" := Get(block, "content", Str(""))]
                  ["is_error" := Bool(Truthy(Get(block, "is_error", Bool(false))))]))
  }

  /** A block that Claude has no use for becomes None. `markerText` is what a marker says. */
  function BlockToClaude(show: Show, markerText: string, block: Fields): Result<Option<Fields>, Error> {
    var kind := Get(block, "type", Null);
    if kind == Str("text") then Ok(Some(TextBlock(Text(show, Or(block, "text", Str(""))))))
    else if kind == Str(MARKER) then Ok(Some(TextBlock(Text(show, Or(block, "text", Str(markerText))))))
    else if kind == Str("tool_use") then ToolUseToClaude(block)
    else if kind == Str("tool_result") then ToolResultToClaude(block)
    else if kind == Str("provider") && Get(block, "provider", Null) == Str(CLAUDE) then
      var data := Get(block, "data", Null);
      Ok(if data.Obj? then Some(data.fields) else None)
    else if kind == Str("refusal") then Ok(Some(TextBlock(RefusalText(block))))
    else Ok(None)
  }

  function ToolUseToAgent(d: Fields): Result<Fields, Error> {
    if "id" !in d then Err(KeyError("id"))
    else if "name" !in d then Err(KeyError("name"))
    else
      Ok(map["type" := Str("tool_use"), "id" := d["id"], "name" := d["name"],
             "input" := Obj(CopyMapping(Get(d, "input", Obj(map[])))), "provider" := Metadata("tool_use", d)])
  }

  function ToolResultToAgent(d: Fields): Fields {
    map["type" := Str("tool_result"), "tool_use_id" := Get(d, "tool_use_id", Null),
        "content" := Get(d, "content", Str("")), "is_error" := Bool(Truthy(Get(d, "is_error", Bool(false)))),
        "provider" := Metadata("tool_result", d)]
  }

  function ProviderBlock(kind: Json, data: Fields): Fields {
    map["type" := Str("provider"), "provider" := Str(CLAUDE), "provider_type" := kind, "data" := Obj(data)]
  }

  function BlockToAgent(show: Show, d: Fields): Result<Fields, Error> {
    var kind := Get(d, "type", Null);
    if kind == Str("text") then Ok(TextBlock(Text(show, Or(d, "text", Str("")))))
    else if kind == Str("tool_use") then ToolUseToAgent(d)
    else if kind == Str("tool_result") then Ok(ToolResultToAgent(d))
    else if kind == Str("refusal") then Ok(TextBlock(RefusalText(d)))
    else Ok(ProviderBlock(Text(show, Or(d, "type", Str("unknown"))), d))
  }

  /** One block there and back; None when it is dropped. */
  function Pass(show: Show, markerText: string, block: Fields): Result<Option<Fields>, Error> {
    match BlockToClaude(show, markerText, block)
    case Err(e) => Err(e)
    case Ok(None) => Ok(None)
    case Ok(Some(c)) =>
      match BlockToAgent(show, c)
      case Err(e) => Err(e)
      case Ok(b) => Ok(Some(b))
  }

  /** A Claude tool block with everything a conversion would fill in. */
  predicate FilledIn(d: Fields) {
    (Get(d, "type", Null) == Str("tool_use") ==> "id" in d && "name" in d && "input" in d && d["input"].Obj?) &&
    (Get(d, "type", Null) == Str("tool_result") ==>
      "tool_use_id" in d && "content" in d && "is_error" in d && d["is_error"].Bool?)
  }

  /** A provider block may hold any Claude block, a tool block with gaps among them. */
  predicate HidesGaps(block: Fields) {
    Get(block, "type", Null) == Str("provider") && Get(block, "provider", Null) == Str(CLAUDE) && "data" in block &&
    block["data"].Obj? && !FilledIn(block["data"].fields)
  }

  /** The Claude blocks that conversion can reproduce. */
  predicate Canonical(d: Fields) {
    FilledIn(d) && Get(d, "type", Null) != Str("refusal") &&
    (Get(d, "type", Null) == Str("text") ==> d.Keys == {"type", "text"} && d["text"].Str?)
  }

  lemma TextSettles(show: Show, d: Fields, default: string)
    ensures var t := Text(show, Or(d, "text", Str(default)));
            t.Str? && (default == "" ==> Text(show, Or(TextBlock(t), "text", Str(""))) == t)
  {
  }

  lemma FilledToolUseReturns(d: Fields)
    requires Get(d, "type", Null) == Str("tool_use") && "id" in d && "name" in d
    ensures ToolUseToAgent(d).Ok?
    ensures var c := ToolUseToClaude(ToolUseToAgent(d).value);
            c.Ok? && c.value.Some? && (c.value.value == d <==> FilledIn(d)) && FilledIn(c.value.value) &&
            Get(c.value.value, "type", Null) == Str("tool_use")
  {
    var b := ToolUseToAgent(d).value;
    assert ProviderData(b) == Some(d);
    var c := ToolUseToClaude(b).value.value;
    if FilledIn(d) { assert c == d; }
  }

  lemma FilledToolResultReturns(d: Fields)
    requires Get(d, "type", Null) == Str("tool_result")
    ensures var c := ToolResultToClaude(ToolResultToAgent(d));
            c.Ok? && c.value.Some? && (c.value.value == d <==> FilledIn(d)) && FilledIn(c.value.value) &&
            Get(c.value.value, "type", Null) == Str("tool_result")
  {
    var b := ToolResultToAgent(d);
    assert ProviderData(b) == Some(d);
    var c := ToolResultToClaude(b).value.value;
    if FilledIn(d) { assert c == d; }
  }

  /** Main result: a Claude block comes back from the agent form as it was exactly when it is canonical. */
  lemma ClaudeBlockRoundTrip(show: Show, markerText: string, d: Fields)
    requires BlockToAgent(show, d).Ok?
    ensures BlockToClaude(show, markerText, BlockToAgent(show, d).value) == Ok(Some(d)) <==> Canonical(d)
  {
    var kind := Get(d, "type", Null);
    if kind == Str("tool_use") {
      FilledToolUseReturns(d);
    } else if kind == Str("tool_result") {
      FilledToolResultReturns(d);
    } else if kind == Str("text") {
      TextSettles(show, d, "");
      if Canonical(d) { assert d == TextBlock(d["text"]); }
    }
  }

  lemma SecondPassOfToolUse(show: Show, markerText: string, d: Fields)
    requires Get(d, "type", Null) == Str("tool_use") && "id" in d && "name" in d
    ensures var b := ToolUseToAgent(d).value; var again := Pass(show, markerText, b);
            again.Ok? && again.value.Some? && (again.value.value == b <==> FilledIn(d))
  {
    FilledToolUseReturns(d);
    var b := ToolUseToAgent(d).value;
    var c := ToolUseToClaude(b).value.value;
    assert BlockToClaude(show, markerText, b) == Ok(Some(c));
    var again := ToolUseToAgent(c).value;
    assert again["provider"] == Metadata("tool_use", c) && b["provider"] == Metadata("tool_use", d);
    assert c != d ==> Metadata("tool_use", c).fields["data"] != Metadata("tool_use", d).fields["data"];
  }

  lemma SecondPassOfToolResult(show: Show, markerText: string, d: Fields)
    requires Get(d, "type", Null) == Str("tool_result")
    ensures var b := ToolResultToAgent(d); var again := Pass(show, markerText, b);
            again.Ok? && again.value.Some? && (again.value.value == b <==> FilledIn(d))
  {
    FilledToolResultReturns(d);
    var b := ToolResultToAgent(d);
    var c := ToolResultToClaude(b).value.value;
    assert BlockToClaude(show, markerText, b) == Ok(Some(c));
    var again := ToolResultToAgent(c);
    assert again["provider"] == Metadata("tool_result", c) && b["provider"] == Metadata("tool_result", d);
    assert c != d ==> Metadata("tool_result", c).fields["data"] != Metadata("tool_result", d).fields["data"];
  }

  lemma SecondPassOfText(show: Show, markerText: string, t: Json)
    requires t.Str?
    ensures Pass(show, markerText, TextBlock(t)) == Ok(Some(TextBlock(t)))
  {
  }

  lemma SecondPassOfOther(show: Show, markerText: string, d: Fields, shown: Json)
    requires Get(d, "type", Null) !in {Str("text"), Str("tool_use"), Str("tool_result"), Str("refusal")}
    requires BlockToAgent(show, d) == Ok(ProviderBlock(shown, d))
    ensures Pass(show, markerText, ProviderBlock(shown, d)) == Ok(Some(ProviderBlock(shown, d)))
  {
    assert BlockToClaude(show, markerText, ProviderBlock(shown, d)) == Ok(Some(d));
  }

  /** A pass changes nothing about what another pass made, unless a provider block hid a tool block
      with gaps: the first pass unwraps it as it is, the second fills it in. */
  lemma SecondPass(show: Show, markerText: string, block: Fields, b: Fields)
    requires Pass(show, markerText, block) == Ok(Some(b))
    ensures "type" in b && b["type"].Str?
    ensures var again := Pass(show, markerText, b);
            again.Ok? && again.value.Some? && (again.value.value == b <==> !HidesGaps(block))
  {
    var d := BlockToClaude(show, markerText, block).value.value;
    FilledUnlessGaps(show, markerText, block);
    AgentSide(show, markerText, d, b);
  }

  lemma AgentSide(show: Show, markerText: string, d: Fields, b: Fields)
    requires BlockToAgent(show, d) == Ok(b)
    ensures "type" in b && b["type"].Str?
    ensures var again := Pass(show, markerText, b);
            again.Ok? && again.value.Some? && (again.value.value == b <==> FilledIn(d))
  {
    hide Pass;
    var kind := Get(d, "type", Null);
    if kind == Str("tool_use") {
      SecondPassOfToolUse(show, markerText, d);
    } else if kind == Str("tool_result") {
      SecondPassOfToolResult(show, markerText, d);
    } else if kind == Str("text") || kind == Str("refusal") {
      SecondPassOfText(show, markerText, b["text"]);
    } else {
      SecondPassOfOther(show, markerText, d, b["provider_type"]);
    }
  }

  lemma FilledUnlessGaps(show: Show, markerText: string, block: Fields)
    requires BlockToClaude(show, markerText, block).Ok? && BlockToClaude(show, markerText, block).value.Some?
    ensures FilledIn(BlockToClaude(show, markerText, block).value.value) <==> !HidesGaps(block)
  {
  }

  /** What the agent form of a Claude block says: a tool call or result its ids, name, input, content and
      error mark, together with the whole block; a text its text; any other block itself. */
  lemma AgentFormSays(show: Show, d: Fields)
    requires BlockToAgent(show, d).Ok?
    ensures var b, kind := BlockToAgent(show, d).value, Get(d, "type", Null);
            (kind == Str("tool_use") ==>
               "id" in d && "name" in d && "id" in b && "name" in b && "input" in b && Get(b, "type", Null) == Str("tool_use") &&
               b["id"] == d["id"] && b["name"] == d["name"] &&
               b["input"] == (if "input" in d && d["input"].Obj? then d["input"] else Obj(map[])) && ProviderData(b) == Some(d)) &&
            (kind == Str("tool_result") ==>
               "tool_use_id" in b && "content" in b && "is_error" in b && Get(b, "type", Null) == Str("tool_result") &&
               b["tool_use_id"] == Get(d, "tool_use_id", Null) && b["content"] == Get(d, "content", Str("")) &&
               b["is_error"] == Bool("is_error" in d && Truthy(d["is_error"])) && ProviderData(b) == Some(d)) &&
            (kind == Str("text") && "text" in d && d["text"].Str? ==> b == map["type" := Str("text"), "text" := d["text"]]) &&
            (kind !in {Str("tool_use"), Str("tool_result"), Str("text"), Str("refusal")} ==>
               Get(b, "type", Null) == Str("provider") && Get(b, "provider", Null) == Str("claude") && Get(b, "data", Null) == Obj(d))
  {
  }

  /** What an agent block becomes for Claude: a tool call or result of its own keeps what it says, a text
      its text, a marker its text or else the given one; any block of another provider is dropped. */
  lemma ClaudeFormSays(show: Show, markerText: string, block: Fields)
    requires BlockToClaude(show, markerText, block).Ok?
    ensures var c, kind := BlockToClaude(show, markerText, block).value, Get(block, "type", Null);
            (kind == Str("tool_use") ==>
               c.Some? && Get(c.value, "type", Null) == Str("tool_use") && "id" in block && "name" in block &&
               Get(c.value, "id", Null) == block["id"] && Get(c.value, "name", Null) == block["name"] &&
               Get(c.value, "input", Null) == (if "input" in block && block["input"].Obj? then block["input"] else Obj(map[]))) &&
            (kind == Str("tool_result") ==>
               c.Some? && Get(c.value, "type", Null) == Str("tool_result") && "tool_use_id" in block &&
               Get(c.value, "tool_use_id", Null) == block["tool_use_id"] &&
               Get(c.value, "content", Null) == Get(block, "content", Str("")) &&
               Get(c.value, "is_error", Null) == Bool("is_error" in block && Truthy(block["is_error"]))) &&
            (kind == Str("text") && "text" in block && block["text"].Str? ==>
               c == Some(map["type" := Str("text"), "text" := block["text"]])) &&
            (kind == Str(MARKER) && ("text" !in block || !Truthy(block["text"])) ==>
               c == Some(map["type" := Str("text"), "text" := Str(markerText)])) &&
            (kind == Str("provider") && Get(block, "provider", Null) != Str("claude") ==> c.None?)
  {
  }

  /** What a Claude block refers to. */
  function ClaudeRef(d: Fields): seq<(string, Json)> {
    if Get(d, "type", Null) == Str("tool_use") then [("tool_use", Get(d, "id", Null))]
    else if Get(d, "type", Null) == Str("tool_result") then [("tool_result", Get(d, "tool_use_id", Null))]
    else []
  }

  /** The calls and results a block refers to; a wrapped Claude tool block counts as itself. */
  function RefOf(block: Fields): seq<(string, Json)> {
    if Get(block, "type", Null) == Str("provider") && Get(block, "provider", Null) == Str(CLAUDE)
    then ClaudeRef(CopyMapping(Get(block, "data", Null)))
    else ClaudeRef(block)
  }

  lemma ToClaudeKeepsRef(show: Show, markerText: string, block: Fields)
    requires BlockToClaude(show, markerText, block).Ok?
    ensures var c := BlockToClaude(show, markerText, block).value; RefOf(block) == if c.None? then [] else ClaudeRef(c.value)
  {
  }

  lemma ToAgentKeepsRef(show: Show, d: Fields)
    requires BlockToAgent(show, d).Ok?
    ensures RefOf(BlockToAgent(show, d).value) == ClaudeRef(d)
  {
  }

  lemma PassKeepsRefs(show: Show, markerText: string, block: Fields)
    requires Pass(show, markerText, block).Ok?
    ensures var b := Pass(show, markerText, block).value; RefOf(block) == if b.None? then [] else RefOf(b.value)
  {
    hide BlockToClaude;
    hide BlockToAgent;
    hide RefOf;
    hide ClaudeRef;
    ToClaudeKeepsRef(show, markerText, block);
    var c := BlockToClaude(show, markerText, block).value;
    if c.Some? { ToAgentKeepsRef(show, c.value); }
  }

  datatype Message = Message(role: Json, content: Json)

  predicate RoleOk(m: Message) { m.role == Str("user") || m.role == Str("assistant") }

  predicate BlockOk(j: Json) { j.Obj? && "type" in j.fields && j.fields["type"].Str? }

  predicate BlocksOk(items: seq<Json>) { forall i :: 0 <= i < |items| ==> BlockOk(items[i]) }

  function BlocksToClaude(show: Show, markerText: string, items: seq<Json>): Result<seq<Json>, Error> {
    if items == [] then Ok([])
    else
      match BlockToClaude(show, markerText, CopyMapping(items[0]))
      case Err(e) => Err(e)
      case Ok(block) =>
        match BlocksToClaude(show, markerText, items[1..])
        case Err(e) => Err(e)
        case Ok(more) => Ok(if block.Some? then [Obj(block.value)] + more else more)
  }

  function BlocksToAgent(show: Show, items: seq<Json>): Result<seq<Json>, Error> {
    if items == [] then Ok([])
    else
      match BlockToAgent(show, CopyMapping(items[0]))
      case Err(e) => Err(e)
      case Ok(block) =>
        match BlocksToAgent(show, items[1..])
        case Err(e) => Err(e)
        case Ok(more) => Ok([Obj(block)] + more)
  }

  function ToClaude(show: Show, markerText: string, m: Message): Result<Message, Error> {
    if !RoleOk(m) then Err(ValueError)
    else if m.content.Str? then Ok(m)
    else if !m.content.Arr? || !BlocksOk(m.content.items) then Err(ValueError)
    else
      match BlocksToClaude(show, markerText, m.content.items)
      case Err(e) => Err(e)
      case Ok(items) => Ok(m.(content := Arr(items)))
  }

  function ToAgent(show: Show, m: Message): Result<Message, Error> {
    if !RoleOk(m) then Err(ValueError)
    else if m.content.Str? then Ok(m)
    else if !m.content.Arr? then Err(ValueError)
    else
      match BlocksToAgent(show, m.content.items)
      case Err(e) => Err(e)
      case Ok(items) => Ok(m.(content := Arr(items)))
  }

  /** Which blocks can be converted: all but tool calls and results without their ids or names. */
  lemma BlockConvertsIff(show: Show, markerText: string, block: Fields)
    ensures var kind := Get(block, "type", Null);
            (BlockToClaude(show, markerText, block).Ok? <==>
               (kind == Str("tool_use") ==> "id" in block && "name" in block) &&
               (kind == Str("tool_result") ==> "tool_use_id" in block)) &&
            (BlockToAgent(show, block).Ok? <==> (kind == Str("tool_use") ==> "id" in block && "name" in block))
  {
  }

  /** The blocks of a Claude message are converted one by one, none lost and none moved, if all can be. */
  lemma {:induction false} EachBlockToAgent(show: Show, items: seq<Json>)
    ensures BlocksToAgent(show, items).Ok? <==>
              forall i :: 0 <= i < |items| ==> BlockToAgent(show, CopyMapping(items[i])).Ok?
    ensures BlocksToAgent(show, items).Ok? ==>
              |BlocksToAgent(show, items).value| == |items| &&
              forall i :: 0 <= i < |items| ==>
                BlocksToAgent(show, items).value[i] == Obj(BlockToAgent(show, CopyMapping(items[i])).value)
  {
    hide BlockToAgent;
    if items != [] {
      EachBlockToAgent(show, items[1..]);
      assert forall i :: 0 < i < |items| ==> items[i] == items[1..][i - 1];
    }
  }

  /** The Claude blocks of a list, in order, of those that have any. */
  function ClaudeBlocks(show: Show, markerText: string, items: seq<Json>, n: nat): seq<Json>
    requires n <= |items| && forall i :: 0 <= i < |items| ==> BlockToClaude(show, markerText, CopyMapping(items[i])).Ok?
  {
    if n == 0 then []
    else
      var c := BlockToClaude(show, markerText, CopyMapping(items[n - 1])).value;
      ClaudeBlocks(show, markerText, items, n - 1) + if c.Some? then [Obj(c.value)] else []
  }

  lemma {:induction false} LaterClaudeBlocks(show: Show, markerText: string, items: seq<Json>, n: nat)
    requires 0 < n <= |items| && forall i :: 0 <= i < |items| ==> BlockToClaude(show, markerText, CopyMapping(items[i])).Ok?
    ensures ClaudeBlocks(show, markerText, items, n) ==
            ClaudeBlocks(show, markerText, items[..1], 1) + ClaudeBlocks(show, markerText, items[1..], n - 1)
  {
    hide BlockToClaude;
    if n > 1 {
      LaterClaudeBlocks(show, markerText, items, n - 1);
      assert items[1..][n - 2] == items[n - 1];
    }
  }

  lemma {:induction false} AllBlocksConvertIff(show: Show, markerText: string, items: seq<Json>)
    ensures BlocksToClaude(show, markerText, items).Ok? <==>
              forall i :: 0 <= i < |items| ==> BlockToClaude(show, markerText, CopyMapping(items[i])).Ok?
  {
    hide BlockToClaude;
    if items != [] {
      AllBlocksConvertIff(show, markerText, items[1..]);
      assert forall i :: 0 < i < |items| ==> items[i] == items[1..][i - 1];
    }
  }

  /** The blocks of an agent message are converted one by one, in order, and those without a Claude form
      are left out. */
  lemma {:induction false} EachBlockToClaude(show: Show, markerText: string, items: seq<Json>)
    requires forall i :: 0 <= i < |items| ==> BlockToClaude(show, markerText, CopyMapping(items[i])).Ok?
    ensures BlocksToClaude(show, markerText, items) == Ok(ClaudeBlocks(show, markerText, items, |items|))
  {
    hide BlockToClaude;
    hide CopyMapping;
    if items != [] {
      assert forall i :: 0 < i < |items| ==> items[i] == items[1..][i - 1];
      EachBlockToClaude(show, markerText, items[1..]);
      LaterClaudeBlocks(show, markerText, items, |items|);
      assert items[..1][0] == items[0];
      FirstClaudeBlock(show, markerText, items[..1]);
      FirstConverted(show, markerText, items);
      hide BlocksToClaude;
      hide ClaudeBlocks;
    }
  }

  lemma FirstConverted(show: Show, markerText: string, items: seq<Json>)
    requires items != [] && BlockToClaude(show, markerText, CopyMapping(items[0])).Ok?
    requires BlocksToClaude(show, markerText, items[1..]).Ok?
    ensures var c := BlockToClaude(show, markerText, CopyMapping(items[0])).value;
            BlocksToClaude(show, markerText, items) ==
            Ok((if c.Some? then [Obj(c.value)] else []) + BlocksToClaude(show, markerText, items[1..]).value)
  {
    hide BlockToClaude;
    hide CopyMapping;
    var more := BlocksToClaude(show, markerText, items[1..]).value;
    assert [] + more == more;
  }

  lemma FirstClaudeBlock(show: Show, markerText: string, items: seq<Json>)
    requires |items| == 1 && BlockToClaude(show, markerText, CopyMapping(items[0])).Ok?
    ensures var c := BlockToClaude(show, markerText, CopyMapping(items[0])).value;
            ClaudeBlocks(show, markerText, items, 1) == if c.Some? then [Obj(c.value)] else []
  {
    hide BlockToClaude;
    assert ClaudeBlocks(show, markerText, items, 0) == [];
  }

  /** Which messages can be converted: those of a known role, with text or blocks that can be. */
  lemma ConvertsIff(show: Show, markerText: string, m: Message)
    ensures ToClaude(show, markerText, m).Ok? <==>
              RoleOk(m) && (m.content.Str? || (m.content.Arr? && BlocksOk(m.content.items) &&
                forall i :: 0 <= i < |m.content.items| ==>
                  BlockToClaude(show, markerText, CopyMapping(m.content.items[i])).Ok?))
    ensures ToAgent(show, m).Ok? <==>
              RoleOk(m) && (m.content.Str? || (m.content.Arr? &&
                forall i :: 0 <= i < |m.content.items| ==> BlockToAgent(show, CopyMapping(m.content.items[i])).Ok?))
  {
    hide BlockToClaude;
    hide BlockToAgent;
    if m.content.Arr? {
      AllBlocksConvertIff(show, markerText, m.content.items);
      EachBlockToAgent(show, m.content.items);
    }
  }

  /** What a provider call does to a stored message when no guard changes it. */
  function Normal(show: Show, markerText: string, m: Message): Result<Message, Error> {
    match ToClaude(show, markerText, m)
    case Err(e) => Err(e)
    case Ok(c) => ToAgent(show, c)
  }

  predicate AnyHidesGaps(items: seq<Json>) { exists i :: 0 <= i < |items| && HidesGaps(CopyMapping(items[i])) }

  function Refs(items: seq<Json>): seq<(string, Json)> {
    if items == [] then [] else RefOf(CopyMapping(items[0])) + Refs(items[1..])
  }

  /** The blocks of a message, each there and back. */
  function PassAll(show: Show, markerText: string, items: seq<Json>): Result<seq<Json>, Error> {
    if items == [] then Ok([])
    else
      match Pass(show, markerText, CopyMapping(items[0]))
      case Err(e) => Err(e)
      case Ok(block) =>
        match PassAll(show, markerText, items[1..])
        case Err(e) => Err(e)
        case Ok(more) => Ok(if block.Some? then [Obj(block.value)] + more else more)
  }

  /** All there and then all back comes to the same, errors apart. */
  lemma {:induction false} StagesArePasses(show: Show, markerText: string, items: seq<Json>)
    ensures var there := BlocksToClaude(show, markerText, items); var all := PassAll(show, markerText, items);
            if there.Ok? && BlocksToAgent(show, there.value).Ok? then all == BlocksToAgent(show, there.value) else all.Err?
  {
    hide BlockToClaude;
    hide BlockToAgent;
    if items != [] {
      StagesArePasses(show, markerText, items[1..]);
      var head := BlockToClaude(show, markerText, CopyMapping(items[0]));
      var there := BlocksToClaude(show, markerText, items[1..]);
      if head.Ok? && head.value.Some? && there.Ok? {
        var c := head.value.value;
        assert ([Obj(c)] + there.value)[1..] == there.value && CopyMapping(Obj(c)) == c;
      }
    }
  }

  lemma DroppedHidesNothing(show: Show, markerText: string, block: Fields)
    requires Pass(show, markerText, block) == Ok(None)
    ensures !HidesGaps(block)
  {
  }

  lemma {:induction false} PassAllTwice(show: Show, markerText: string, items: seq<Json>, bs: seq<Json>)
    requires PassAll(show, markerText, items) == Ok(bs)
    ensures BlocksOk(bs) && |bs| <= |items| && Refs(bs) == Refs(items)
    ensures var again := PassAll(show, markerText, bs);
            again.Ok? && |again.value| == |bs| && (again.value == bs <==> !AnyHidesGaps(items))
  {
    hide Pass;
    hide RefOf;
    hide HidesGaps;
    if items != [] {
      var head, rest := CopyMapping(items[0]), items[1..];
      var block := Pass(show, markerText, head).value;
      AnyOfFirst(items);
      PassKeepsRefs(show, markerText, head);
      var more := PassAll(show, markerText, rest).value;
      PassAllTwice(show, markerText, rest, more);
      if block.None? {
        DroppedHidesNothing(show, markerText, head);
      } else {
        SecondPass(show, markerText, head, block.value);
        assert bs[1..] == more && CopyMapping(bs[0]) == block.value;
      }
    }
  }

  lemma AnyOfFirst(items: seq<Json>)
    requires items != []
    ensures AnyHidesGaps(items) <==> HidesGaps(CopyMapping(items[0])) || AnyHidesGaps(items[1..])
  {
    if AnyHidesGaps(items[1..]) {
      var i :| 0 <= i < |items| - 1 && HidesGaps(CopyMapping(items[1..][i]));
      assert items[i + 1] == items[1..][i];
    }
    if i :| 1 <= i < |items| && HidesGaps(CopyMapping(items[i])) {
      assert items[i] == items[1..][i - 1];
    }
  }

  function ItemsOf(m: Message): seq<Json> { if m.content.Arr? then m.content.items else [] }

  /** Main result: a provider call that no guard changes brings a stored message into a normal form: it
      keeps the role, the calls and results and their order, and a second call can always be made and
      changes nothing more, exactly when no provider block of the original hid a tool block with gaps. */
  lemma NormalForm(show: Show, markerText: string, m: Message, n: Message)
    requires Normal(show, markerText, m) == Ok(n)
    ensures n.role == m.role && Refs(ItemsOf(n)) == Refs(ItemsOf(m)) && (m.content.Str? ==> n == m)
    ensures Normal(show, markerText, n).Ok?
    ensures Normal(show, markerText, n) == Ok(n) <==> !AnyHidesGaps(ItemsOf(m))
  {
    if m.content.Arr? {
      var bs := n.content.items;
      StagesArePasses(show, markerText, m.content.items);
      PassAllTwice(show, markerText, m.content.items, bs);
      StagesArePasses(show, markerText, bs);
    }
  }

  function NormalAll(show: Show, markerText: string, history: seq<Message>): Result<seq<Message>, Error> {
    if history == [] then Ok([])
    else
      match Normal(show, markerText, history[0])
      case Err(e) => Err(e)
      case Ok(m) =>
        match NormalAll(show, markerText, history[1..])
        case Err(e) => Err(e)
        case Ok(more) => Ok([m] + more)
  }

  lemma {:induction false} NormalAllConcat(show: Show, markerText: string, a: seq<Message>, b: seq<Message>)
    requires NormalAll(show, markerText, a).Ok? && NormalAll(show, markerText, b).Ok?
    ensures NormalAll(show, markerText, a + b) ==
            Ok(NormalAll(show, markerText, a).value + NormalAll(show, markerText, b).value)
  {
    hide Normal;
    if a == [] {
      assert a + b == b;
      assert NormalAll(show, markerText, a).value + NormalAll(show, markerText, b).value == NormalAll(show, markerText, b).value;
    } else {
      assert (a + b)[1..] == a[1..] + b;
      NormalAllConcat(show, markerText, a[1..], b);
      var m, more := Normal(show, markerText, a[0]).value, NormalAll(show, markerText, a[1..]).value;
      var rest := NormalAll(show, markerText, b).value;
      assert [m] + more + rest == [m] + (more + rest);
    }
  }

  /** No provider block anywhere in a history hides a tool block with gaps. */
  predicate NoneHideGaps(history: seq<Message>) {
    forall i :: 0 <= i < |history| ==> !AnyHidesGaps(ItemsOf(history[i]))
  }

  lemma {:induction false} NormalAllTwice(show: Show, markerText: string, history: seq<Message>)
    requires NormalAll(show, markerText, history).Ok?
    ensures var once := NormalAll(show, markerText, history).value;
            |once| == |history| && (forall i :: 0 <= i < |once| ==> once[i].role == history[i].role) &&
            NormalAll(show, markerText, once).Ok? &&
            (NormalAll(show, markerText, once).value == once <==> NoneHideGaps(history))
  {
    hide Normal;
    hide AnyHidesGaps;
    hide Refs;
    if history != [] {
      var n := Normal(show, markerText, history[0]).value;
      NormalForm(show, markerText, history[0], n);
      NormalAllTwice(show, markerText, history[1..]);
      var more := NormalAll(show, markerText, history[1..]).value;
      assert ([n] + more)[1..] == more;
      assert NoneHideGaps(history) <==> !AnyHidesGaps(ItemsOf(history[0])) && NoneHideGaps(history[1..]);
    }
  }

  /** Main result: provider calls do not make a stored history drift. What one call stored, the next call
      stores again, message by message, followed by what was added in between. */
  lemma StoredHistoryDoesNotDrift(show: Show, markerText: string, history: seq<Message>, added: seq<Message>)
    requires NormalAll(show, markerText, history).Ok? && NormalAll(show, markerText, added).Ok? && NoneHideGaps(history)
    ensures var stored := NormalAll(show, markerText, history).value;
            NormalAll(show, markerText, stored + added) == Ok(stored + NormalAll(show, markerText, added).value)
  {
    NormalAllTwice(show, markerText, history);
    NormalAllConcat(show, markerText, NormalAll(show, markerText, history).value, added);
  }

  /** Such a block exists: a bare tool result inside a provider block. */
  lemma HiddenGapDrifts(show: Show, markerText: string, kind: Json)
    ensures var block := ProviderBlock(kind, map["type" := Str("tool_result")]);
            HidesGaps(block) &&
            var once := Pass(show, markerText, block);
            once.Ok? && once.value.Some? && Pass(show, markerText, once.value.value) != once
  {
    var d: Fields := map["type" := Str("tool_result")];
    assert BlockToClaude(show, markerText, ProviderBlock(kind, d)) == Ok(Some(d));
    SecondPass(show, markerText, ProviderBlock(kind, d), ToolResultToAgent(d));
  }
}
