/** Repairing tool exchanges broken by a cut, and grouping the messages of one exchange. */
module ExchangeRepair {
  import opened Prelude
  import opened Messages

  function DropToolUse(bs: seq<Block>): seq<Block> {
    if bs == [] then []
    else (if bs[0].ToolUse? then [] else [bs[0]]) + DropToolUse(bs[1..])
  }

  lemma {:induction false} DropToolUseMembers(bs: seq<Block>)
    ensures forall b :: b in DropToolUse(bs) <==> b in bs && !b.ToolUse?
  {
    if bs != [] { DropToolUseMembers(bs[1..]); }
  }

  /** The message without its tool calls; nothing when only tool calls were there. */
  function WithoutToolUse(m: Message): Option<Message> {
    match m.content
    case Str(_) => Some(m)
    case Blocks(bs) =>
      var kept := DropToolUse(bs);
      if kept == [] then None else Some(Message(m.role, Blocks(kept)))
  }

  function Kept(m: Option<Message>): seq<Message> {
    if m.Some? then [m.value] else []
  }

  /** Whether an exchange is complete at the front of the list. */
  predicate AnsweredAtFront(ms: seq<Message>)
    requires ms != []
  {
    |ms| >= 2 && Answers(ms[1], ms[0])
  }

  /** Complete exchanges stay; unanswered calls lose their tool-use blocks; stray results go. */
  function Repair(ms: seq<Message>): seq<Message> {
    if ms == [] then []
    else if UseIds(ms[0]) != {} then
      if AnsweredAtFront(ms) then [ms[0], ms[1]] + Repair(ms[2..])
      else Kept(WithoutToolUse(ms[0])) + Repair(ms[1..])
    else if HasResult(ms[0]) then Repair(ms[1..])
    else [ms[0]] + Repair(ms[1..])
  }

  /** What one step of the repair at position i keeps, and where it goes on. */
  function RepairStep(ms: seq<Message>, i: nat): (step: (seq<Message>, nat))
    requires i < |ms|
    ensures i < step.1 <= |ms|
  {
    if UseIds(ms[i]) != {} then
      if i + 1 < |ms| && Answers(ms[i + 1], ms[i]) then ([ms[i], ms[i + 1]], i + 2)
      else (Kept(WithoutToolUse(ms[i])), i + 1)
    else if HasResult(ms[i]) then ([], i + 1)
    else ([ms[i]], i + 1)
  }

  lemma RepairAt(done: seq<Message>, ms: seq<Message>, i: nat)
    requires i < |ms|
    ensures done + Repair(ms[i..]) == (done + RepairStep(ms, i).0) + Repair(ms[RepairStep(ms, i).1..])
  {
    RepairUnfolds(ms, i);
    var step := RepairStep(ms, i);
    hide Repair;
    hide RepairStep;
    assert done + (step.0 + Repair(ms[step.1..])) == (done + step.0) + Repair(ms[step.1..]);
  }

  lemma RepairUnfolds(ms: seq<Message>, i: nat)
    requires i < |ms|
    ensures Repair(ms[i..]) == RepairStep(ms, i).0 + Repair(ms[RepairStep(ms, i).1..])
  {
    hide Answers;
    hide UseIds;
    hide HasResult;
    hide WithoutToolUse;
    hide Kept;
    var rest := ms[i..];
    assert rest[0] == ms[i] && rest[1..] == ms[i + 1..];
    if i + 1 < |ms| { assert rest[1] == ms[i + 1] && rest[2..] == ms[i + 2..]; }
  }

  method DropIncompleteToolExchanges(messages: seq<Message>) returns (selected: seq<Message>)
    ensures selected == Repair(messages)
  {
    selected := [];
    var index := 0;
    while index < |messages|
      invariant 0 <= index <= |messages|
      invariant selected + Repair(messages[index..]) == Repair(messages)
    {
      var message := messages[index];
      RepairAt(selected, messages, index);
      ghost var before, step := selected, RepairStep(messages, index);
      if UseIds(message) != {} {
        if index + 1 < |messages| && Answers(messages[index + 1], message) {
          selected := selected + [message];
          selected := selected + [messages[index + 1]];
          index := index + 2;
        } else {
          var textOnly := WithoutToolUse(message);
          if textOnly.Some? {
            selected := selected + [textOnly.value];
          }
          index := index + 1;
        }
      } else {
        if !HasResult(message) {
          selected := selected + [message];
        }
        index := index + 1;
      }
      assert selected == before + step.0 && index == step.1;
    }
  }

  lemma TextOnlyIsPaired(m: Message)
    requires Unmixed(m) && UseIds(m) != {}
    ensures WellPaired(Kept(WithoutToolUse(m))) && AllUnmixed(Kept(WithoutToolUse(m)))
  {
    var k := WithoutToolUse(m);
    DropToolUseMembers(BlocksOf(m));
    if k.Some? {
      assert forall b :: b in BlocksOf(k.value) <==> b in BlocksOf(m) && !b.ToolUse?;
      assert UseIds(k.value) == {};
      assert !HasResult(k.value);
    }
  }

  lemma ExchangeIsPaired(use: Message, results: Message)
    requires Unmixed(use) && Unmixed(results) && UseIds(use) != {} && Answers(results, use)
    ensures WellPaired([use, results])
  {
    ResultIdsNeedResult(results);
  }

  /** Whatever was cut, the repaired list obeys the pairing rule. */
  lemma {:induction false} RepairPairs(ms: seq<Message>)
    requires AllUnmixed(ms)
    ensures WellPaired(Repair(ms)) && AllUnmixed(Repair(ms))
  {
    if ms != [] {
      if UseIds(ms[0]) != {} {
        if AnsweredAtFront(ms) {
          RepairPairs(ms[2..]);
          ExchangeIsPaired(ms[0], ms[1]);
          PairedConcat([ms[0], ms[1]], Repair(ms[2..]));
        } else {
          RepairPairs(ms[1..]);
          TextOnlyIsPaired(ms[0]);
          PairedConcat(Kept(WithoutToolUse(ms[0])), Repair(ms[1..]));
        }
      } else {
        RepairPairs(ms[1..]);
        if !HasResult(ms[0]) {
          PairedConcat([ms[0]], Repair(ms[1..]));
        }
      }
    }
  }

  lemma SplitAt<T>(a: seq<T>, n: nat, r: seq<T>)
    requires n <= |a|
    ensures a[..n] + (a[n..] + r) == a + r && (a + r)[n..] == a[n..] + r
  {
  }

  /** Complete exchanges at the front are untouched, whatever follows them. */
  lemma {:induction false} RepairKeepsPairedPrefix(a: seq<Message>, b: seq<Message>)
    requires WellPaired(a) && AllUnmixed(a)
    ensures Repair(a + b) == a + Repair(b)
  {
    if a == [] {
      assert a + b == b;
    } else {
      var n := FirstGroupLength(a);
      RepairFirstGroup(a, b, n);
      RepairKeepsPairedPrefix(a[n..], b);
      SplitAt(a, n, b);
      SplitAt(a, n, Repair(b));
    }
  }

  /** Length of the first complete exchange or lone message of a well-paired history. */
  function FirstGroupLength(ms: seq<Message>): (n: nat)
    requires ms != [] && WellPaired(ms) && AllUnmixed(ms)
    ensures 1 <= n <= |ms| && WellPaired(ms[n..]) && AllUnmixed(ms[n..])
  {
    assert CallAnswered(ms, 0) && ResultCalled(ms, 0);
    if UseIds(ms[0]) != {} then
      ResultIdsNeedResult(ms[1]);
      assert 2 < |ms| ==> ResultCalled(ms, 2);
      PairedSuffix(ms, 2);
      2
    else
      assert 1 < |ms| ==> ResultCalled(ms, 1);
      PairedSuffix(ms, 1);
      1
  }

  lemma RepairFirstGroup(a: seq<Message>, b: seq<Message>, n: nat)
    requires a != [] && WellPaired(a) && AllUnmixed(a) && n == FirstGroupLength(a)
    ensures Repair(a + b) == a[..n] + Repair((a + b)[n..])
  {
    assert CallAnswered(a, 0) && ResultCalled(a, 0);
    var c := a + b;
    assert c[0] == a[0];
    if UseIds(a[0]) != {} {
      assert c[1] == a[1] && a[..2] == [a[0], a[1]];
    } else {
      assert a[..1] == [a[0]];
    }
  }

  /** Repair changes nothing exactly when there is nothing to repair. */
  lemma RepairIsIdentityIffPaired(ms: seq<Message>)
    requires AllUnmixed(ms)
    ensures Repair(ms) == ms <==> WellPaired(ms)
  {
    RepairPairs(ms);
    if WellPaired(ms) {
      RepairKeepsPairedPrefix(ms, []);
      assert ms + [] == ms;
    }
  }

  lemma {:induction false} MixedAlone(m: Message)
    requires !Unmixed(m)
    ensures !WellPaired(Repair([m]))
  {
    DropToolUseMembers(BlocksOf(m));
    var b :| b in BlocksOf(m) && b.ToolResult?;
    var kept := WithoutToolUse(m).value;
    assert b in BlocksOf(kept) && HasResult(kept);
    assert [m][1..] == [] && Repair([m]) == [kept];
    assert !ResultCalled([kept], 0);
  }

  ghost predicate From(allowed: iset<Message>, ms: seq<Message>) {
    forall i :: 0 <= i < |ms| ==> ms[i] in allowed
  }

  /** What is left of the i-th message, seen from its neighbours: a call that the next message answers and
      a result that answers the message before are whole, an unanswered call keeps its text, a stray
      result nothing, and any other message is whole. */
  function Share(ms: seq<Message>, i: nat): seq<Message>
    requires i < |ms|
  {
    if UseIds(ms[i]) != {} then
      if i + 1 < |ms| && UseIds(ms[i]) <= ResultIds(ms[i + 1]) then [ms[i]] else Kept(WithoutToolUse(ms[i]))
    else if HasResult(ms[i]) then
      if i > 0 && UseIds(ms[i - 1]) != {} && UseIds(ms[i - 1]) <= ResultIds(ms[i]) then [ms[i]] else []
    else [ms[i]]
  }

  function Shares(ms: seq<Message>, i: nat): seq<Message>
    requires i <= |ms|
    decreases |ms| - i
  {
    if i == |ms| then [] else Share(ms, i) + Shares(ms, i + 1)
  }

  /** The message at i is not the answer to a call just before it. */
  predicate StartsAfresh(ms: seq<Message>, i: nat)
    requires i <= |ms|
  {
    i == 0 || i == |ms| || UseIds(ms[i - 1]) == {} || !(UseIds(ms[i - 1]) <= ResultIds(ms[i]))
  }

  /** A step of the repair takes one share, or those of an exchange. */
  lemma StepIsShares(ms: seq<Message>, i: nat)
    requires AllUnmixed(ms) && i < |ms| && StartsAfresh(ms, i)
    ensures var step := RepairStep(ms, i);
            StartsAfresh(ms, step.1) &&
            (step == (Share(ms, i), i + 1) || (i + 1 < |ms| && step == (Share(ms, i) + Share(ms, i + 1), i + 2)))
  {
    hide WithoutToolUse;
    hide Kept;
    assert Unmixed(ms[i]);
    if i + 1 < |ms| { assert Unmixed(ms[i + 1]); }
    if i + 1 < |ms| && ResultIds(ms[i + 1]) != {} { ResultIdsNeedResult(ms[i + 1]); }
    hide UseIds;
    hide ResultIds;
    hide HasResult;
    hide AllUnmixed;
    if UseIds(ms[i]) != {} && i + 1 < |ms| && Answers(ms[i + 1], ms[i]) {
      assert Share(ms, i) == [ms[i]] && Share(ms, i + 1) == [ms[i + 1]];
      assert [ms[i]] + [ms[i + 1]] == [ms[i], ms[i + 1]];
    }
  }

  lemma {:induction false} RepairFromIsShares(ms: seq<Message>, i: nat)
    requires AllUnmixed(ms) && i <= |ms| && StartsAfresh(ms, i)
    ensures Repair(ms[i..]) == Shares(ms, i)
    decreases |ms| - i
  {
    hide RepairStep;
    hide Share;
    hide StartsAfresh;
    hide AllUnmixed;
    if i < |ms| {
      RepairUnfolds(ms, i);
      hide Repair;
      StepIsShares(ms, i);
      RepairFromIsShares(ms, RepairStep(ms, i).1);
      SharesUnfold(ms, i);
    }
  }

  lemma SharesUnfold(ms: seq<Message>, i: nat)
    requires i < |ms|
    ensures Shares(ms, i) == Share(ms, i) + Shares(ms, i + 1)
    ensures i + 1 < |ms| ==> Shares(ms, i) == (Share(ms, i) + Share(ms, i + 1)) + Shares(ms, i + 2)
  {
    hide Share;
    if i + 1 < |ms| {
      assert Share(ms, i) + (Share(ms, i + 1) + Shares(ms, i + 2)) == (Share(ms, i) + Share(ms, i + 1)) + Shares(ms, i + 2);
    }
  }

  /** Main result: repair takes away no more than it must: it leaves of every message of an unmixed
      history what its neighbours allow, in order. */
  lemma RepairKeepsShares(ms: seq<Message>)
    requires AllUnmixed(ms)
    ensures Repair(ms) == Shares(ms, 0)
  {
    RepairFromIsShares(ms, 0);
    assert ms[0..] == ms;
  }

  /** The text of an unanswered call is its blocks other than tool calls, in order. */
  lemma {:induction false} DropToolUseSplits(a: seq<Block>, b: seq<Block>)
    ensures DropToolUse(a + b) == DropToolUse(a) + DropToolUse(b)
  {
    if a == [] {
      assert a + b == b && DropToolUse(a) == [];
    } else {
      DropToolUseSplits(a[1..], b);
      DropFirst(a);
      DropFirst(a + b);
      hide DropToolUse;
      var first, rest := a[0], a[1..] + b;
      assert (a + b)[1..] == rest && (a + b)[0] == first;
      Associate(first, DropToolUse(a[1..]), DropToolUse(b));
    }
  }

  lemma Associate(first: Block, x: seq<Block>, y: seq<Block>)
    ensures [first] + (x + y) == ([first] + x) + y
  {
  }

  /** It stays the same speaker's. */
  lemma TextOnlyKeepsRole(m: Message)
    ensures m.content.Str? ==> WithoutToolUse(m) == Some(m)
    ensures m.content.Blocks? ==>
              var bs := DropToolUse(m.content.blocks);
              WithoutToolUse(m) == if bs == [] then None else Some(Message(m.role, Blocks(bs)))
  {
  }

  lemma DropFirst(bs: seq<Block>)
    requires bs != []
    ensures DropToolUse(bs) == if bs[0].ToolUse? then DropToolUse(bs[1..]) else [bs[0]] + DropToolUse(bs[1..])
  {
  }

  /** Groups are as small as they can be: a lone message, or a call and the message that answers it. */
  lemma {:induction false} GroupsAreSmall(ms: seq<Message>)
    ensures forall g :: g in Groups(ms) ==>
              |g| == 1 || (|g| == 2 && UseIds(g[0]) != {} && UseIds(g[0]) <= ResultIds(g[1]))
  {
    hide UseIds;
    hide ResultIds;
    if ms != [] {
      GroupsAreSmall(ms[1..]);
      if |ms| >= 2 { GroupsAreSmall(ms[2..]); }
    }
  }

  /** Which histories repair can be trusted with: every history made of the allowed messages comes out
      paired exactly when none of these messages mixes calls and results. */
  lemma RepairPairsIffUnmixed(allowed: iset<Message>)
    ensures (forall ms: seq<Message> :: From(allowed, ms) ==> WellPaired(Repair(ms))) <==>
            (forall m: Message :: m in allowed ==> Unmixed(m))
  {
    if forall m: Message :: m in allowed ==> Unmixed(m) {
      forall ms: seq<Message> | From(allowed, ms) ensures WellPaired(Repair(ms)) { RepairPairs(ms); }
    } else {
      var m: Message :| m in allowed && !Unmixed(m);
      MixedAlone(m);
      assert From(allowed, [m]);
    }
  }

  /** A call, a message that answers it and calls again, and the answer to that. */
  function MixedHistory(): seq<Message> {
    [Message(Assistant, Blocks([ToolUse(Some("a"), "t", "{}")])),
     Message(User, Blocks([ToolResult(Some("a"), Chars(""), false), ToolUse(Some("b"), "t", "{}")])),
     Message(User, Blocks([ToolResult(Some("b"), Chars(""), false)]))]
  }

  /** A mixed message in the middle is not mended even though every call is answered. */
  lemma MixedHistoryStaysBroken()
    ensures var ms := MixedHistory();
            !Unmixed(ms[1]) && Answers(ms[1], ms[0]) && Answers(ms[2], ms[1]) && !WellPaired(Repair(ms))
  {
    var ms := MixedHistory();
    var m0, m1, m2 := ms[0], ms[1], ms[2];
    var call, answer := BlocksOf(m0)[0], BlocksOf(m1)[0];
    var next, last := BlocksOf(m1)[1], BlocksOf(m2)[0];
    assert call in BlocksOf(m0) && UseIds(m0) == {"a"};
    assert answer in BlocksOf(m1) && "a" in ResultIds(m1);
    assert next in BlocksOf(m1) && UseIds(m1) == {"b"};
    assert last in BlocksOf(m2) && "b" in ResultIds(m2) && UseIds(m2) == {};
    assert HasResult(m1) && HasResult(m2);
    assert ms[2..] == [m2];
    assert Repair([m2]) == [];
    assert Repair(ms) == [m0, m1];
    assert !CallAnswered([m0, m1], 1);
  }

  /** A call and its results form one group; any other message is a group of its own. */
  function Groups(ms: seq<Message>): seq<seq<Message>> {
    if ms == [] then []
    else if UseIds(ms[0]) != {} && AnsweredAtFront(ms) then [[ms[0], ms[1]]] + Groups(ms[2..])
    else [[ms[0]]] + Groups(ms[1..])
  }

  function Flatten(groups: seq<seq<Message>>): seq<Message> {
    if groups == [] then [] else groups[0] + Flatten(groups[1..])
  }

  /** One step of the grouping at position i. */
  lemma GroupsAt(done: seq<seq<Message>>, ms: seq<Message>, i: nat)
    requires i < |ms|
    ensures UseIds(ms[i]) != {} && i + 1 < |ms| && Answers(ms[i + 1], ms[i]) ==>
              done + Groups(ms[i..]) == done + [[ms[i], ms[i + 1]]] + Groups(ms[i + 2..])
    ensures !(UseIds(ms[i]) != {} && i + 1 < |ms| && Answers(ms[i + 1], ms[i])) ==>
              done + Groups(ms[i..]) == done + [[ms[i]]] + Groups(ms[i + 1..])
  {
    var rest := ms[i..];
    assert rest[0] == ms[i] && rest[1..] == ms[i + 1..];
    if i + 1 < |ms| { assert rest[1] == ms[i + 1] && rest[2..] == ms[i + 2..]; }
  }

  method MessageGroups(messages: seq<Message>) returns (groups: seq<seq<Message>>)
    ensures groups == Groups(messages)
  {
    groups := [];
    var index := 0;
    while index < |messages|
      invariant 0 <= index <= |messages|
      invariant groups + Groups(messages[index..]) == Groups(messages)
    {
      var message := messages[index];
      GroupsAt(groups, messages, index);
      if UseIds(message) != {} && index + 1 < |messages| {
        var next := messages[index + 1];
        if Answers(next, message) {
          groups := groups + [[message, next]];
          index := index + 2;
          continue;
        }
      }
      groups := groups + [[message]];
      index := index + 1;
    }
  }

  lemma {:induction false} FlattenGroups(ms: seq<Message>)
    ensures Flatten(Groups(ms)) == ms
  {
    if ms != [] {
      if UseIds(ms[0]) != {} && AnsweredAtFront(ms) {
        FlattenGroups(ms[2..]);
      } else {
        FlattenGroups(ms[1..]);
      }
    }
  }

  lemma {:induction false} FlattenConcat(a: seq<seq<Message>>, b: seq<seq<Message>>)
    ensures Flatten(a + b) == Flatten(a) + Flatten(b)
  {
    if a == [] {
      assert a + b == b;
    } else {
      assert (a + b)[0] == a[0] && (a + b)[1..] == a[1..] + b;
      FlattenConcat(a[1..], b);
      assert Flatten(a + b) == a[0] + (Flatten(a[1..]) + Flatten(b));
    }
  }

  predicate WholeExchanges(groups: seq<seq<Message>>) {
    forall i :: 0 <= i < |groups| ==> groups[i] != [] && WellPaired(groups[i]) && AllUnmixed(groups[i])
  }

  /** In a well-paired history no group cuts an exchange. */
  lemma {:induction false} GroupsAreWhole(ms: seq<Message>)
    requires WellPaired(ms) && AllUnmixed(ms)
    ensures WholeExchanges(Groups(ms))
  {
    if ms != [] {
      var n := FirstGroupLength(ms);
      GroupsAreWhole(ms[n..]);
      assert CallAnswered(ms, 0) && ResultCalled(ms, 0);
      if UseIds(ms[0]) != {} {
        ExchangeIsPaired(ms[0], ms[1]);
      }
    }
  }

  /** Any selection of whole groups, in order, is well-paired. */
  lemma {:induction false} WholeGroupsPair(groups: seq<seq<Message>>)
    requires WholeExchanges(groups)
    ensures WellPaired(Flatten(groups)) && AllUnmixed(Flatten(groups))
    ensures |Flatten(groups)| >= |groups|
  {
    if groups != [] {
      assert WholeExchanges(groups[1..]);
      WholeGroupsPair(groups[1..]);
      assert groups[0] != [] && WellPaired(groups[0]);
      PairedConcat(groups[0], Flatten(groups[1..]));
    }
  }
}
