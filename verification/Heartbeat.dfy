/** Heartbeats of an activity: manual ones when the tool makes progress, and a timer's in between. */
module Heartbeat {
  import opened Prelude

  function MaxReal(a: real, b: real): real { if a >= b then a else b }

  function MinReal(a: real, b: real): real { if a <= b then a else b }

  /** Seconds between the timer's looks, for a heartbeat timeout in seconds; no timer without one. */
  function AutoInterval(timeout: real): Option<real> {
    if timeout <= 0.0 then None else Some(MaxReal(1.0, MinReal(30.0, timeout / 2.0)))
  }

  /** Manual heartbeats closer together than this are dropped. */
  function ManualMinInterval(timeout: Option<real>): real {
    if timeout.None? || timeout.value <= 0.0 then 0.0 else MaxReal(1.0, MinReal(5.0, timeout.value / 2.0))
  }

  /** Time since the activity started, the timer's next look, and all heartbeats so far. */
  datatype Beats = Beats(now: real, next: real, sent: seq<real>)

  function Last(sent: seq<real>): Option<real> { if sent == [] then None else Some(sent[|sent| - 1]) }

  datatype Event = Manual(at: real, force: bool) | Look

  predicate TooSoon(sent: seq<real>, now: real, interval: real) {
    sent != [] && now - sent[|sent| - 1] < interval
  }

  /** Timers are ideal: the looks come exactly one interval apart, and nothing happens out of order. */
  function Step(interval: real, minimum: real, b: Beats, e: Event): Beats {
    match e
    case Manual(at, force) =>
      if at < b.now || at > b.next then b
      else if !force && TooSoon(b.sent, at, minimum) then b.(now := at)
      else b.(now := at, sent := b.sent + [at])
    case Look =>
      Beats(b.next, b.next + interval, if TooSoon(b.sent, b.next, interval) then b.sent else b.sent + [b.next])
  }

  function Run(interval: real, minimum: real, b: Beats, events: seq<Event>): Beats
    decreases |events|
  {
    if events == [] then b else Run(interval, minimum, Step(interval, minimum, b, events[0]), events[1..])
  }

  function RunFor(timeout: real, events: seq<Event>): Beats
    requires timeout > 0.0
  {
    var interval := AutoInterval(timeout).value;
    Run(interval, ManualMinInterval(Some(timeout)), Beats(0.0, interval, []), events)
  }

  /** The start of the activity counts as the moment before the first heartbeat. */
  function Before(sent: seq<real>, i: nat): real
    requires i <= |sent|
  {
    if i == 0 then 0.0 else sent[i - 1]
  }

  /** No heartbeat came as late as the timeout, and none is that late now. */
  predicate Timely(timeout: real, b: Beats) {
    (forall i :: 0 <= i < |b.sent| ==> b.sent[i] - Before(b.sent, i) < timeout) &&
    b.now - Before(b.sent, |b.sent|) < timeout
  }

  /** The next look comes less than two intervals after the last heartbeat. */
  predicate NextIsNear(interval: real, b: Beats) {
    b.now <= b.next && Before(b.sent, |b.sent|) <= b.now && b.next - Before(b.sent, |b.sent|) < 2.0 * interval
  }

  lemma BeatKeepsTimely(timeout: real, b: Beats, at: real, next: real)
    requires Timely(timeout, b) && at - Before(b.sent, |b.sent|) < timeout && timeout > 0.0
    ensures Timely(timeout, Beats(at, next, b.sent + [at]))
  {
    var sent := b.sent + [at];
    forall i | 0 <= i < |sent| ensures sent[i] - Before(sent, i) < timeout {
      if i < |b.sent| { assert Before(sent, i) == Before(b.sent, i); }
    }
  }

  lemma StepKeepsTimely(timeout: real, interval: real, minimum: real, b: Beats, e: Event)
    requires timeout > 0.0 && interval > 0.0 && 2.0 * interval <= timeout && Timely(timeout, b) && NextIsNear(interval, b)
    ensures var c := Step(interval, minimum, b, e); Timely(timeout, c) && NextIsNear(interval, c)
  {
    match e
    case Manual(at, force) => if b.now <= at <= b.next { BeatKeepsTimely(timeout, b, at, b.next); }
    case Look => BeatKeepsTimely(timeout, b, b.next, b.next + interval);
  }

  lemma {:induction false} RunKeepsTimely(timeout: real, interval: real, minimum: real, b: Beats, events: seq<Event>)
    requires timeout > 0.0 && interval > 0.0 && 2.0 * interval <= timeout && Timely(timeout, b) && NextIsNear(interval, b)
    ensures Timely(timeout, Run(interval, minimum, b, events))
    decreases |events|
  {
    if events != [] {
      StepKeepsTimely(timeout, interval, minimum, b, events[0]);
      RunKeepsTimely(timeout, interval, minimum, Step(interval, minimum, b, events[0]), events[1..]);
    }
  }

  /** A manual heartbeat shortly before the first look makes the timer skip it. */
  function SkippedLook(timeout: real): seq<Event> { [Manual((2.0 - timeout) / 2.0, false), Look, Look] }

  lemma ShortTimeoutIsMissed(timeout: real)
    requires 0.0 < timeout < 2.0
    ensures !Timely(timeout, RunFor(timeout, SkippedLook(timeout)))
  {
    var interval, minimum := AutoInterval(timeout).value, ManualMinInterval(Some(timeout));
    var at := (2.0 - timeout) / 2.0;
    assert interval == 1.0;
    var b0 := Beats(0.0, interval, []);
    var b1 := Step(interval, minimum, b0, Manual(at, false));
    assert b1 == Beats(at, 1.0, [at]);
    var b2 := Step(interval, minimum, b1, Look);
    assert b2 == Beats(1.0, 2.0, [at]);
    var b3 := Step(interval, minimum, b2, Look);
    assert b3 == Beats(2.0, 3.0, [at, 2.0]);
    var events := SkippedLook(timeout);
    assert events[1..] == [Look, Look] && events[1..][1..] == [Look] && events[1..][1..][1..] == [];
    assert Run(interval, minimum, b3, []) == b3;
    assert Run(interval, minimum, b2, [Look]) == b3;
    assert Run(interval, minimum, b1, [Look, Look]) == b3;
    assert RunFor(timeout, events) == b3;
    assert b3.sent[1] - Before(b3.sent, 1) >= timeout;
  }

  /** Main result: under every pattern of manual heartbeats the first heartbeat and every gap come in
      under the timeout, exactly when the timeout is at least two seconds. */
  lemma TimelyIffTwoSeconds(timeout: real)
    requires timeout > 0.0
    ensures (forall events: seq<Event> :: Timely(timeout, RunFor(timeout, events))) <==> timeout >= 2.0
  {
    if timeout >= 2.0 {
      var interval := AutoInterval(timeout).value;
      forall events: seq<Event> ensures Timely(timeout, RunFor(timeout, events)) {
        RunKeepsTimely(timeout, interval, ManualMinInterval(Some(timeout)), Beats(0.0, interval, []), events);
      }
    } else {
      ShortTimeoutIsMissed(timeout);
    }
  }

  /** The intervals in plain numbers: half the timeout, but between 1 and 30 seconds for the timer, and
      between 1 and 5 for manual heartbeats; without a timeout no timer, and no lower limit. */
  lemma IntervalNumbers(timeout: real)
    ensures timeout <= 0.0 ==> AutoInterval(timeout).None? && ManualMinInterval(Some(timeout)) == 0.0
    ensures 0.0 < timeout <= 2.0 ==> AutoInterval(timeout) == Some(1.0) && ManualMinInterval(Some(timeout)) == 1.0
    ensures 2.0 <= timeout <= 60.0 ==> AutoInterval(timeout) == Some(timeout / 2.0)
    ensures 2.0 <= timeout <= 10.0 ==> ManualMinInterval(Some(timeout)) == timeout / 2.0
    ensures timeout > 60.0 ==> AutoInterval(timeout) == Some(30.0)
    ensures timeout > 10.0 ==> ManualMinInterval(Some(timeout)) == 5.0
    ensures ManualMinInterval(None) == 0.0
  {
  }

  /** Consecutive heartbeats are at least this far apart, and none is in the future. */
  predicate Spaced(gap: real, b: Beats) {
    b.now <= b.next && (b.sent != [] ==> b.sent[|b.sent| - 1] <= b.now) &&
    forall i :: 0 < i < |b.sent| ==> b.sent[i] - b.sent[i - 1] >= gap
  }

  lemma {:induction false} RunKeepsSpaced(interval: real, minimum: real, gap: real, b: Beats, events: seq<Event>)
    requires 0.0 < interval && gap <= interval && gap <= minimum && Spaced(gap, b)
    requires forall i :: 0 <= i < |events| && events[i].Manual? ==> !events[i].force
    ensures Spaced(gap, Run(interval, minimum, b, events))
    decreases |events|
  {
    if events != [] {
      RunKeepsSpaced(interval, minimum, gap, Step(interval, minimum, b, events[0]), events[1..]);
    }
  }

  /** Main result: unless some are forced, heartbeats never crowd: under every pattern of manual ones they
      stay half the timeout apart, but for the limits of 1 and 5 seconds. */
  lemma HeartbeatsNeverCrowd(timeout: real, events: seq<Event>)
    requires timeout > 0.0 && forall i :: 0 <= i < |events| && events[i].Manual? ==> !events[i].force
    ensures Spaced(if timeout <= 2.0 then 1.0 else if timeout <= 10.0 then timeout / 2.0 else 5.0, RunFor(timeout, events))
  {
    IntervalNumbers(timeout);
    var interval := AutoInterval(timeout).value;
    var gap := if timeout <= 2.0 then 1.0 else if timeout <= 10.0 then timeout / 2.0 else 5.0;
    RunKeepsSpaced(interval, ManualMinInterval(Some(timeout)), gap, Beats(0.0, interval, []), events);
  }

  /** A manual heartbeat in its time goes out exactly if it is forced, the first, or not too soon; the timer
      looks again one interval later, and sends exactly if the last heartbeat is an interval ago. */
  lemma GoesOutIff(interval: real, minimum: real, b: Beats, at: real, force: bool)
    requires b.now <= at <= b.next
    ensures var c := Step(interval, minimum, b, Manual(at, force));
            c.now == at && c.next == b.next &&
            c.sent == if force || b.sent == [] || at - b.sent[|b.sent| - 1] >= minimum then b.sent + [at] else b.sent
    ensures var c := Step(interval, minimum, b, Look);
            c.now == b.next && c.next == b.next + interval &&
            c.sent == if b.sent == [] || b.next - b.sent[|b.sent| - 1] >= interval then b.sent + [b.next] else b.sent
  {
  }

  /** The activity's side of it: one object that both the tool and the timer send through. */
  class RoutedActivityContext {
    const heartbeatTimeout: Option<real>
    const manualMinInterval: real
    var lastSentAt: Option<real>
    var latestDetails: string
    ghost var sent: seq<real>

    ghost predicate Valid()
      reads this
    {
      lastSentAt == Last(sent) && manualMinInterval == ManualMinInterval(heartbeatTimeout)
    }

    constructor (timeout: Option<real>)
      ensures Valid() && sent == [] && heartbeatTimeout == timeout
    {
      heartbeatTimeout, manualMinInterval := timeout, ManualMinInterval(timeout);
      lastSentAt, latestDetails, sent := None, "", [];
    }

    method Send(now: real)
      requires Valid()
      modifies this
      ensures Valid() && sent == old(sent) + [now] && latestDetails == old(latestDetails)
    {
      lastSentAt := Some(now);
      sent := sent + [now];
    }

    /** A tool's progress report; true when a heartbeat went out. */
    method Heartbeat(details: string, force: bool, now: real) returns (sending: bool)
      requires Valid()
      modifies this
      ensures Valid() && latestDetails == details && sent == if sending then old(sent) + [now] else old(sent)
      ensures heartbeatTimeout.None? ==> !sending
      ensures forall b: Beats :: b.sent == old(sent) && b.now <= now <= b.next && heartbeatTimeout.Some? ==>
                Step(0.0, manualMinInterval, b, Manual(now, force)).sent == sent
    {
      latestDetails := details;
      if heartbeatTimeout.None? { return false; }
      if !force && lastSentAt.Some? && now - lastSentAt.value < manualMinInterval { return false; }
      Send(now);
      return true;
    }

    /** What the timer does each time it wakes. */
    method TimerLook(interval: real, now: real)
      requires Valid()
      modifies this
      ensures Valid() && latestDetails == old(latestDetails)
      ensures forall b: Beats :: b.sent == old(sent) && b.next == now ==> Step(interval, manualMinInterval, b, Look).sent == sent
    {
      if lastSentAt.Some? && now - lastSentAt.value < interval { return; }
      Send(now);
    }
  }
}
