/** What the truncation loops keep: every turn in plain arithmetic, and what is left of each text. */
module TruncationTurns {
  import opened Prelude
  import opened Messages
  import opened ContextBudget
  import opened ContentTruncation
  import opened ExchangeRepair
  import opened ContextWindow

  /** Of a text of this length, all but what the list is over the budget, and 500 characters, is kept. */
  predicate Keeps(b: Budget, listChars: nat, length: nat, kept: nat)
    requires b.Valid()
  {
    var over := Ceil(listChars as real / b.charsPerToken) - b.InputTokens();
    var given := Ceil(over as real * b.charsPerToken) + 500;
    over > 0 && kept == if length > given then length - given else 0
  }

  /** What stands in for a text of which the first characters are kept. */
  function StandIn(e: Encoding, t: Target, x: string, kept: nat): string
    requires kept <= |x|
  {
    match t
    case Results => e.wrappedResult(x, kept)
    case Texts => TruncatedText(x, 0) + x[..kept]
  }

  /** A turn: the first of the longest texts makes way for its stand-in, which is shorter. */
  ghost predicate TurnAt(e: Encoding, b: Budget, t: Target, ms: seq<Message>, s: Slot, kept: nat, next: seq<Message>)
    requires b.Valid()
  {
    FirstLongest(ms, t, s) && Keeps(b, ListChars(e, ms), |s.text|, kept) && kept <= |s.text| &&
    |StandIn(e, t, s.text, kept)| < |s.text| && next == SetSlot(ms, t, s, StandIn(e, t, s.text, kept))
  }

  ghost predicate Turn(e: Encoding, b: Budget, t: Target, ms: seq<Message>, next: seq<Message>)
    requires b.Valid()
  {
    exists s, kept :: TurnAt(e, b, t, ms, s, kept, next)
  }

  /** The list fits, or has no such text, or the stand-in for the first of its longest is no shorter. */
  ghost predicate Ended(e: Encoding, b: Budget, t: Target, ms: seq<Message>)
    requires b.Valid()
  {
    Fits(e, ms, b) || (forall s: Slot :: !IsSlot(ms, t, s)) ||
    exists s: Slot, kept: nat ::
      FirstLongest(ms, t, s) && Keeps(b, ListChars(e, ms), |s.text|, kept) && kept <= |s.text| &&
      |StandIn(e, t, s.text, kept)| >= |s.text|
  }

  ghost predicate Turns(e: Encoding, b: Budget, t: Target, states: seq<seq<Message>>)
    requires b.Valid()
  {
    states != [] && forall i :: 0 <= i < |states| - 1 ==> Turn(e, b, t, states[i], states[i + 1])
  }

  lemma PreviewIs(length: nat, excess: int)
    requires excess >= 1
    ensures PreviewChars(length, excess) == if length > excess + 500 then length - (excess + 500) else 0
  {
  }

  lemma AttemptKeeps(e: Encoding, ms: seq<Message>, b: Budget, t: Target, s: Slot) returns (kept: nat)
    requires b.Valid() && !Fits(e, ms, b)
    ensures kept <= |s.text| && Keeps(b, ListChars(e, ms), |s.text|, kept)
    ensures Attempt(e, ms, b, t, s) == StandIn(e, t, s.text, kept)
  {
    hide ListChars;
    hide PreviewChars;
    hide TruncatedText;
    var length, over := |s.text|, Tokens(ListChars(e, ms), b.charsPerToken) - b.InputTokens();
    ExcessIsPositive(e, ms, b);
    kept := PreviewChars(length, ExcessChars(e, ms, b));
    PreviewIs(length, ExcessChars(e, ms, b));
    hide Ceil;
    if t.Texts? { StandInIsNotice(s.text, kept); }
  }

  lemma StandInIsNotice(x: string, kept: nat)
    requires kept <= |x|
    ensures TruncatedText(x, kept) == TruncatedText(x, 0) + x[..kept]
  {
  }

  /** Main result: both loops are a run of such turns, and go on until they can end. */
  lemma {:induction false} TruncateTakesTurns(e: Encoding, ms: seq<Message>, b: Budget, t: Target)
    returns (states: seq<seq<Message>>)
    requires b.Valid()
    ensures Turns(e, b, t, states) && states[0] == ms && states[|states| - 1] == Truncate(e, ms, b, t)
    ensures Ended(e, b, t, Truncate(e, ms, b, t))
    decreases Total(ms, t)
  {
    hide Keeps;
    hide StandIn;
    hide Attempt;
    hide Fits;
    hide Largest;
    LargestIsLargest(ms, t);
    states := [ms];
    if !Fits(e, ms, b) && Largest(ms, t).Some? {
      var s := Largest(ms, t).value;
      var text := Attempt(e, ms, b, t, s);
      var kept := AttemptKeeps(e, ms, b, t, s);
      if |text| < |s.text| {
        TruncateTurn(e, ms, b, t, s, text);
        var next := SetSlot(ms, t, s, text);
        assert TurnAt(e, b, t, ms, s, kept, next);
        var rest := TruncateTakesTurns(e, next, b, t);
        states := [ms] + rest;
      }
    }
  }

  lemma OtherSlotsStay(ms: seq<Message>, t: Target, s: Slot, text: string, o: Slot)
    requires IsSlot(ms, t, s) && IsSlot(SetSlot(ms, t, s, text), t, o)
    ensures if o.message == s.message && o.block == s.block then o.text == text else IsSlot(ms, t, o)
  {
  }

  /** The text is what turn k put in its place. */
  ghost predicate PutThere(e: Encoding, b: Budget, t: Target, states: seq<seq<Message>>, k: nat, o: Slot)
    requires b.Valid()
  {
    k + 1 < |states| &&
    exists s, kept ::
      TurnAt(e, b, t, states[k], s, kept, states[k + 1]) && s.message == o.message && s.block == o.block &&
      o.text == StandIn(e, t, s.text, kept)
  }

  /** Main result: what a text ends as is what it was, or what one of the turns put there: the notice and
      all but what that turn needed of the text that stood there before. */
  lemma {:induction false} FinalTexts(e: Encoding, b: Budget, t: Target, states: seq<seq<Message>>, o: Slot)
    requires b.Valid() && Turns(e, b, t, states) && IsSlot(states[|states| - 1], t, o)
    ensures IsSlot(states[0], t, o) || exists k: nat :: PutThere(e, b, t, states, k, o)
  {
    hide Keeps;
    hide StandIn;
    if |states| > 1 {
      var n := |states| - 2;
      var ms, next := states[n], states[n + 1];
      assert Turn(e, b, t, ms, next);
      var s, kept :| TurnAt(e, b, t, ms, s, kept, next);
      OtherSlotsStay(ms, t, s, StandIn(e, t, s.text, kept), o);
      if o.message == s.message && o.block == s.block {
        assert PutThere(e, b, t, states, n, o);
      } else {
        var before := states[..n + 1];
        FinalTexts(e, b, t, before, o);
        if !IsSlot(states[0], t, o) {
          var k: nat :| PutThere(e, b, t, before, k, o);
          assert before[k] == states[k] && before[k + 1] == states[k + 1];
          assert PutThere(e, b, t, states, k, o);
        }
      }
    }
  }

  /** Main result: fitting a list drops its oldest groups but for the longest suffix that fits, then
      shortens results, and then texts only if that was not enough; what comes out fits the budget
      unless neither a result nor a text can be shortened further. */
  lemma FitTakesTurns(e: Encoding, ms: seq<Message>, b: Budget, preserveFirst: bool)
    returns (k: nat, results: seq<seq<Message>>, texts: seq<seq<Message>>)
    requires b.Valid()
    ensures var groups, n := Groups(ms), PrefixLength(ms, preserveFirst);
            LongestFitting(e, groups, n, k, b) && Turns(e, b, Results, results) && Turns(e, b, Texts, texts) &&
            results[0] == Flatten(groups[..n] + groups[k..]) && texts[0] == results[|results| - 1] &&
            Fit(e, ms, b, preserveFirst) == texts[|texts| - 1]
    ensures Fits(e, texts[0], b) ==> |texts| == 1
    ensures Ended(e, b, Results, texts[0])
    ensures Fits(e, Fit(e, ms, b, preserveFirst), b) || Ended(e, b, Texts, Fit(e, ms, b, preserveFirst))
  {
    hide Turns;
    hide Ended;
    hide Truncate;
    hide Shed;
    ShedKeepsLongestSuffix(e, ms, b, preserveFirst);
    var groups, n := Groups(ms), PrefixLength(ms, preserveFirst);
    var j: nat :| LongestFitting(e, groups, n, j, b) &&
                  Shed(e, ms, b, preserveFirst) == Flatten(groups[..n] + groups[j..]);
    k := j;
    var shed := Shed(e, ms, b, preserveFirst);
    results := TruncateTakesTurns(e, shed, b, Results);
    var shortened := Truncate(e, shed, b, Results);
    if Fits(e, shortened, b) {
      texts := [shortened];
      NoTurns(e, b, Texts, shortened);
    } else {
      texts := TruncateTakesTurns(e, shortened, b, Texts);
    }
  }

  lemma NoTurns(e: Encoding, b: Budget, t: Target, ms: seq<Message>)
    requires b.Valid()
    ensures Turns(e, b, t, [ms])
  {
  }
}
