/**
 * The browser side of the dynamic page: a session whose "load more" control
 * is polled and clicked until it goes away or a click fails.
 *
 * The control's behaviour is an input: a script with one `Poll` per test of
 * the loop condition, giving whether the control is displayed and enabled at
 * that moment and what clicking it would then do. What the page source looks
 * like after a number of accepted clicks is an input too (`pageAfter`).
 */
module Driver {
  import opened Extract

  datatype ClickOutcome = Accepted | Intercepted | NotInteractable

  datatype Poll = Poll(displayed: bool, enabled: bool, outcome: ClickOutcome)

  /** Why the click loop ended: the control went away, or one of the two caught click exceptions. */
  datatype StopReason = Exhausted | Obstructed | Rejected

  /** The loop condition: displayed and enabled. */
  predicate Clickable(p: Poll) {
    p.displayed && p.enabled
  }

  /** The loop ends at this poll: its condition is false, or the click it makes raises. */
  predicate Halts(p: Poll) {
    !Clickable(p) || p.outcome != Accepted
  }

  /** The control does not stay clickable for ever. */
  predicate Terminates(script: seq<Poll>) {
    exists k :: 0 <= k < |script| && Halts(script[k])
  }

  /** The poll at which the loop ends. */
  function FirstHalt(script: seq<Poll>): (k: nat)
    requires Terminates(script)
    ensures k < |script| && Halts(script[k])
    ensures forall j :: 0 <= j < k ==> !Halts(script[j])
  {
    if Halts(script[0]) then 0
    else
      assert Terminates(script[1..]) by {
        var k :| 0 <= k < |script| && Halts(script[k]);
        assert script[1..][k - 1] == script[k];
      }
      1 + FirstHalt(script[1..])
  }

  function StopReasonAt(p: Poll): StopReason
    requires Halts(p)
  {
    if !Clickable(p) then Exhausted
    else if p.outcome == Intercepted then Obstructed
    else Rejected
  }

  /** What is printed when the loop stops: nothing on exhaustion, a message naming the page otherwise. */
  function Diagnostics(url: string, reason: StopReason): seq<string> {
    match reason
    case Exhausted => []
    case Obstructed => ["Element click intercepted on page " + url]
    case Rejected => ["Element not interactable on page " + url]
  }

  /** The net effect of the click loop on a script: clicks made, clicks accepted, lines printed, why it ended. */
  datatype LoopResult = LoopResult(clicks: nat, accepted: nat, log: seq<string>, reason: StopReason)

  function LoopOutcome(script: seq<Poll>, url: string): LoopResult
    requires Terminates(script)
  {
    var k := FirstHalt(script);
    var reason := StopReasonAt(script[k]);
    LoopResult(if reason == Exhausted then k else k + 1, k, Diagnostics(url, reason), reason)
  }

  // ---------------------------------------------------------------------------
  // Properties of the loop

  /** Every click made was made at a poll where the control was displayed and enabled. */
  lemma ClicksOnlyWhileClickable(script: seq<Poll>, url: string)
    requires Terminates(script)
    ensures var o := LoopOutcome(script, url);
      forall j :: 0 <= j < o.clicks ==> Clickable(script[j])
  {
  }

  /** The clicks made never go beyond the first click that fails. */
  lemma ClicksStopAtFailure(script: seq<Poll>, url: string, f: nat)
    requires Terminates(script)
    requires f < |script| && Clickable(script[f]) && script[f].outcome != Accepted
    ensures LoopOutcome(script, url).clicks <= f + 1
  {
  }

  /** The loop ends normally exactly when the control stopped being displayed and enabled. */
  lemma ExhaustedIffNotClickable(script: seq<Poll>, url: string)
    requires Terminates(script)
    ensures var o := LoopOutcome(script, url);
      (o.reason == Exhausted <==> !Clickable(script[o.accepted]))
      && (o.reason == Exhausted ==> o.clicks == o.accepted)
      && (o.reason != Exhausted ==> o.clicks == o.accepted + 1)
  {
  }

  /**
   * One diagnostic at most: exactly one, naming the page at its end, when a
   * click failed; none when the control went away.
   */
  lemma AtMostOneDiagnostic(script: seq<Poll>, url: string)
    requires Terminates(script)
    ensures var o := LoopOutcome(script, url);
      |o.log| <= 1 && (|o.log| == 1 <==> o.reason != Exhausted)
      && (o.log != [] ==> |url| <= |o.log[0]| && o.log[0][|o.log[0]| - |url|..] == url)
  {
  }

  /** A control that takes three clicks and then disappears: three clicks, a normal end, nothing printed. */
  lemma ThreeClicksThenHidden(url: string)
    ensures Terminates([Poll(true, true, Accepted), Poll(true, true, Accepted), Poll(true, true, Accepted), Poll(false, true, Accepted)])
    ensures var ok := Poll(true, true, Accepted);
      var o := LoopOutcome([ok, ok, ok, Poll(false, true, Accepted)], url);
      o.clicks == 3 && o.reason == Exhausted && o.log == []
  {
    var ok := Poll(true, true, Accepted);
    var script := [ok, ok, ok, Poll(false, true, Accepted)];
    assert Halts(script[3]);
    assert script[1..][1..][1..] == [Poll(false, true, Accepted)];
  }

  /** A click intercepted on the second click: two clicks made, one diagnostic. */
  lemma InterceptedOnSecondClick(url: string)
    ensures Terminates([Poll(true, true, Accepted), Poll(true, true, Intercepted)])
    ensures var o := LoopOutcome([Poll(true, true, Accepted), Poll(true, true, Intercepted)], url);
      o.clicks == 2 && o.accepted == 1 && o.reason == Obstructed
      && o.log == ["Element click intercepted on page " + url]
  {
    var script := [Poll(true, true, Accepted), Poll(true, true, Intercepted)];
    assert Halts(script[1]);
    assert script[1..] == [Poll(true, true, Intercepted)];
  }

  /** The loop ends normally at poll `n` when the control is not clickable there and every earlier click was accepted. */
  lemma OutcomeWhenExhausted(script: seq<Poll>, url: string, n: nat)
    requires Terminates(script) && n <= FirstHalt(script) && n < |script| && !Clickable(script[n])
    ensures LoopOutcome(script, url) == LoopResult(n, n, [], Exhausted)
  {
  }

  /** The loop ends at the click of poll `n` when that click fails and every earlier click was accepted. */
  lemma OutcomeWhenClickFails(script: seq<Poll>, url: string, n: nat)
    requires Terminates(script) && n <= FirstHalt(script) && n < |script|
    requires Clickable(script[n]) && script[n].outcome != Accepted
    ensures var reason := if script[n].outcome == Intercepted then Obstructed else Rejected;
      LoopOutcome(script, url) == LoopResult(n + 1, n, Diagnostics(url, reason), reason)
  {
  }

  // ---------------------------------------------------------------------------
  // The loop as a state machine, one transition at a time

  datatype Phase = Polling | Clicking | Stopped(reason: StopReason)

  /** The machine's state: its phase, the poll it is at, the clicks made and the lines printed. */
  datatype Machine = Machine(phase: Phase, pos: nat, clicks: nat, log: seq<string>)

  ghost predicate Running(m: Machine, script: seq<Poll>) {
    m.pos < |script| && (m.phase.Clicking? ==> Clickable(script[m.pos]))
    && exists k :: m.pos <= k < |script| && Halts(script[k])
  }

  function Step(m: Machine, script: seq<Poll>, url: string): Machine
    requires m.pos < |script| && !m.phase.Stopped?
  {
    var p := script[m.pos];
    match m.phase
    case Polling =>
      if Clickable(p) then m.(phase := Clicking) else m.(phase := Stopped(Exhausted))
    case Clicking =>
      match p.outcome
      case Accepted => Machine(Polling, m.pos + 1, m.clicks + 1, m.log)
      case Intercepted => Machine(Stopped(Obstructed), m.pos, m.clicks + 1, m.log + Diagnostics(url, Obstructed))
      case NotInteractable => Machine(Stopped(Rejected), m.pos, m.clicks + 1, m.log + Diagnostics(url, Rejected))
  }

  ghost function Run(m: Machine, script: seq<Poll>, url: string): Machine
    requires Running(m, script)
    decreases |script| - m.pos, match m.phase case Polling => 2 case Clicking => 1 case Stopped(_) => 0
  {
    if m.phase.Stopped? then m
    else
      var next := Step(m, script, url);
      assert Running(next, script) by {
        var k :| m.pos <= k < |script| && Halts(script[k]);
        if next.pos != m.pos {
          assert !Halts(script[m.pos]) && k != m.pos;
        }
      }
      Run(next, script, url)
  }

  lemma {:induction false} RunFrom(script: seq<Poll>, url: string, pos: nat, log: seq<string>)
    requires Terminates(script) && pos <= FirstHalt(script)
    ensures Running(Machine(Polling, pos, pos, log), script)
    ensures var o := LoopOutcome(script, url);
      Run(Machine(Polling, pos, pos, log), script, url) == Machine(Stopped(o.reason), o.accepted, o.clicks, log + o.log)
    decreases FirstHalt(script) - pos
  {
    var k := FirstHalt(script);
    var m := Machine(Polling, pos, pos, log);
    assert Running(m, script);
    var p := script[pos];
    if !Clickable(p) {
      assert pos == k;
      assert Step(m, script, url) == Machine(Stopped(Exhausted), pos, pos, log);
      assert log + [] == log;
    } else {
      var clicking := Machine(Clicking, pos, pos, log);
      assert Step(m, script, url) == clicking;
      assert Running(clicking, script);
      if p.outcome == Accepted {
        assert pos < k;
        RunFrom(script, url, pos + 1, log);
      } else {
        assert pos == k;
        var reason := StopReasonAt(p);
        var stopped := Machine(Stopped(reason), pos, pos + 1, log + Diagnostics(url, reason));
        assert Step(clicking, script, url) == stopped;
        assert Running(stopped, script);
        assert Run(clicking, script, url) == stopped;
      }
    }
  }

  /** The step-by-step machine, started at the first poll, ends exactly where `LoopOutcome` says. */
  lemma MachineAgreesWithOutcome(script: seq<Poll>, url: string)
    requires Terminates(script)
    ensures Running(Machine(Polling, 0, 0, []), script)
    ensures var o := LoopOutcome(script, url);
      Run(Machine(Polling, 0, 0, []), script, url) == Machine(Stopped(o.reason), o.accepted, o.clicks, o.log)
  {
    RunFrom(script, url, 0, []);
  }

  // ---------------------------------------------------------------------------
  // The browser session and the console

  /**
   * A browser session and its load-more control. `polls` is the index of the
   * poll the control currently answers; each click moves on to the next one.
   */
  class Browser {
    const script: seq<Poll>
    const pageAfter: nat -> Document
    var launched: bool
    var url: string
    var polls: nat
    var clicks: nat
    var accepted: nat
    var quits: nat

    /** No session has been started with this browser yet. */
    predicate Idle()
      reads this
    {
      !launched && polls == 0 && clicks == 0 && accepted == 0 && quits == 0
    }

    constructor (script: seq<Poll>, pageAfter: nat -> Document)
      ensures this.script == script && this.pageAfter == pageAfter
      ensures Idle()
    {
      this.script := script;
      this.pageAfter := pageAfter;
      launched, url := false, "";
      polls, clicks, accepted, quits := 0, 0, 0, 0;
    }

    /** `webdriver.Chrome()`. */
    method Launch()
      modifies this`launched
      ensures launched
    {
      launched := true;
    }

    /** `driver.get(url)`. */
    method Get(url: string)
      requires launched
      modifies this`url
      ensures this.url == url
    {
      this.url := url;
    }

    method IsDisplayed() returns (b: bool)
      requires polls < |script|
      ensures b == script[polls].displayed
    {
      b := script[polls].displayed;
    }

    method IsEnabled() returns (b: bool)
      requires polls < |script|
      ensures b == script[polls].enabled
    {
      b := script[polls].enabled;
    }

    /** `button.click()`: its outcome is the current poll's; the control moves on to the next poll. */
    method Click() returns (o: ClickOutcome)
      requires polls < |script|
      modifies this`polls, this`clicks, this`accepted
      ensures o == script[old(polls)].outcome
      ensures polls == old(polls) + 1 && clicks == old(clicks) + 1
      ensures accepted == old(accepted) + (if o == Accepted then 1 else 0)
    {
      o := script[polls].outcome;
      polls, clicks := polls + 1, clicks + 1;
      if o == Accepted {
        accepted := accepted + 1;
      }
    }

    /** `driver.page_source`: the page as the accepted clicks so far have revealed it. */
    method PageSource() returns (doc: Document)
      ensures doc == pageAfter(accepted)
    {
      doc := pageAfter(accepted);
    }

    /** `driver.quit()`. */
    method Quit()
      modifies this`launched, this`quits
      ensures !launched && quits == old(quits) + 1
    {
      launched, quits := false, quits + 1;
    }
  }

  /** Standard output, as the lines printed so far. */
  class Console {
    var lines: seq<string>

    constructor ()
      ensures lines == []
    {
      lines := [];
    }

    method Print(line: string)
      modifies this
      ensures lines == old(lines) + [line]
    {
      lines := lines + [line];
    }
  }
}
