/** Agent messages, their content blocks, and what it means for tool exchanges to be complete. */
module Messages {
  import opened Prelude

  datatype Role = User | Assistant

  /** Content of a tool result: text, a JSON list (known by its encoded length), or neither. */
  datatype ResultContent = Chars(chars: string) | Structured(jsonChars: nat) | Absent

  /** One content block. An id or a text is None when the stored value is not a string. */
  datatype Block =
    | Text(text: Option<string>)
    | ToolUse(id: Option<string>, name: string, input: string)
    | ToolResult(useId: Option<string>, content: ResultContent, isError: bool)
    | Marker(dropped: nat)
    | Opaque(kind: string, data: string)

  datatype Content = Str(str: string) | Blocks(blocks: seq<Block>)

  datatype Message = Message(role: Role, content: Content)

  function BlocksOf(m: Message): seq<Block> {
    match m.content
    case Str(_) => []
    case Blocks(bs) => bs
  }

  function UseIds(m: Message): set<string> {
    set b | b in BlocksOf(m) && b.ToolUse? && b.id.Some? :: b.id.value
  }

  function ResultIds(m: Message): set<string> {
    set b | b in BlocksOf(m) && b.ToolResult? && b.useId.Some? :: b.useId.value
  }

  predicate HasResult(m: Message) { exists b :: b in BlocksOf(m) && b.ToolResult? }

  predicate HasMarker(m: Message) { exists b :: b in BlocksOf(m) && b.Marker? }

  /** Results for every tool call of `use` are present in `results`. */
  predicate Answers(results: Message, use: Message) {
    UseIds(use) <= ResultIds(results)
  }

  /** No message both calls tools and carries tool results. */
  predicate Unmixed(m: Message) { UseIds(m) == {} || !HasResult(m) }

  predicate AllUnmixed(ms: seq<Message>) { forall i :: 0 <= i < |ms| ==> Unmixed(ms[i]) }

  /** A message that takes no part in a tool exchange and is no compaction marker. */
  predicate Plain(m: Message) { UseIds(m) == {} && !HasResult(m) && !HasMarker(m) }

  predicate CallAnswered(ms: seq<Message>, i: int)
    requires 0 <= i < |ms|
  {
    UseIds(ms[i]) != {} ==> i + 1 < |ms| && Answers(ms[i + 1], ms[i])
  }

  predicate ResultCalled(ms: seq<Message>, i: int)
    requires 0 <= i < |ms|
  {
    HasResult(ms[i]) ==> i > 0 && UseIds(ms[i - 1]) != {} && Answers(ms[i], ms[i - 1])
  }

  /** The rule a provider enforces: each tool-call message is directly followed by results for all
      its ids, and each tool-result message directly follows such a message. */
  predicate WellPaired(ms: seq<Message>) {
    forall i :: 0 <= i < |ms| ==> CallAnswered(ms, i) && ResultCalled(ms, i)
  }

  /** Same role and same part in tool exchanges; only the wording of content may differ. */
  predicate SameShape(a: Message, b: Message) {
    a.role == b.role && UseIds(a) == UseIds(b) && ResultIds(a) == ResultIds(b) &&
    HasResult(a) == HasResult(b) && HasMarker(a) == HasMarker(b)
  }

  predicate SameShapes(a: seq<Message>, b: seq<Message>) {
    |a| == |b| && forall i :: 0 <= i < |a| ==> SameShape(a[i], b[i])
  }

  lemma ShapesKeepPairing(a: seq<Message>, b: seq<Message>)
    requires SameShapes(a, b) && WellPaired(a)
    ensures WellPaired(b)
  {
    forall i | 0 <= i < |b| ensures CallAnswered(b, i) && ResultCalled(b, i) {
      assert SameShape(a[i], b[i]) && CallAnswered(a, i) && ResultCalled(a, i);
      if i > 0 { assert SameShape(a[i - 1], b[i - 1]); }
      if i + 1 < |b| { assert SameShape(a[i + 1], b[i + 1]); }
    }
  }

  /** A history splits into complete exchanges at a place no exchange straddles. */
  lemma PairedConcat(a: seq<Message>, b: seq<Message>)
    requires WellPaired(a) && WellPaired(b)
    ensures WellPaired(a + b)
  {
    var c := a + b;
    forall i | 0 <= i < |c| ensures CallAnswered(c, i) && ResultCalled(c, i) {
      if i < |a| {
        assert CallAnswered(a, i) && ResultCalled(a, i);
      } else {
        assert CallAnswered(b, i - |a|) && ResultCalled(b, i - |a|);
      }
    }
  }

  lemma ResultIdsNeedResult(m: Message)
    requires ResultIds(m) != {}
    ensures HasResult(m)
  {
    var id :| id in ResultIds(m);
  }

  /** The suffix of a well-paired history is well-paired unless it begins inside an exchange. */
  lemma PairedSuffix(ms: seq<Message>, k: nat)
    requires WellPaired(ms) && k <= |ms| && (k < |ms| ==> !HasResult(ms[k]))
    ensures WellPaired(ms[k..])
  {
    var s := ms[k..];
    forall i | 0 <= i < |s| ensures CallAnswered(s, i) && ResultCalled(s, i) {
      assert CallAnswered(ms, k + i) && ResultCalled(ms, k + i);
    }
  }
}
