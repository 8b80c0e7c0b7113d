/** The Remote Associates Test (class RATGame): ten items, each a 10-second think
    countdown, a reveal that waits for one Y/N key, and a 15-second rest.

    `RatState` holds the game's attributes; `NextItem`, `ShowThink`, `ThinkTick`,
    `RevealAnswer`, `Respond`, `StartRest`, `RestTick`, `FinishRest` and `Force` state what
    each method does to them and which markers it sends. The class `RATGame` keeps the same
    fields and its methods are proved equal to those functions. */
module Rat {
  import opened Markers

  const Prompts: seq<string> := [
    "cottage / swiss / cake", "cream / skate / water", "rocking / wheel / high",
    "show / life / row", "fountain / baking / pop", "duck / fold / dollar",
    "sleeping / bean / trash", "dew / comb / bee", "night / wrist / stop",
    "loser / throat / spot"]

  const Answers: seq<string> := [
    "cheese", "ice", "chair", "boat", "soda", "bill", "bag", "honey", "watch", "sore"]

  /** The number of items is the length of the prompt list. */
  const ItemCount: nat := |Prompts|
  const ThinkSeconds: nat := 10
  const RestSeconds: nat := 15

  /** `Unstarted` is the attribute's None before the first item. */
  datatype Phase = Unstarted | Think | Reveal | Rest | Done

  datatype RatState = RatState(
    index: nat,
    phase: Phase,
    awaiting: bool,
    thinkLeft: nat,
    restLeft: nat,
    thinkTimer: bool,
    restTimer: bool)

  /** The new state, the labels sent, and whether `on_complete` was called. */
  datatype RatStep = RatStep(state: RatState, labels: seq<Label>, completes: bool)

  /** __init__ before start_next_item: item 0, no phase, no pending countdown. */
  const Initial: RatState := RatState(0, Unstarted, false, 0, 0, false, false)

  // ---------------------------------------------------------------- the methods, as functions

  /** start_next_item: cancel both countdowns; after the last item enter done and call on_complete. */
  function NextItem(s: RatState): RatStep {
    var c := s.(thinkTimer := false, restTimer := false);
    if c.index >= ItemCount then RatStep(c.(phase := Done), [], true)
    else ShowThink(c)
  }

  /** show_think_phase: think phase, Y/N not awaited, RAT<n>_Start, then the first tick. */
  function ShowThink(s: RatState): RatStep {
    var t := s.(thinkTimer := false, restTimer := false, phase := Think, awaiting := false, thinkLeft := ThinkSeconds);
    var a := ThinkTick(t);
    RatStep(a.state, [RatStart(s.index + 1)] + a.labels, a.completes)
  }

  /** _tick_think: nothing outside the think phase; count down; reveal on 0. */
  function ThinkTick(s: RatState): RatStep {
    if s.phase != Think then RatStep(s, [], false)
    else if s.thinkLeft > 0 then RatStep(s.(thinkLeft := s.thinkLeft - 1, thinkTimer := true), [], false)
    else RevealAnswer(s)
  }

  /** reveal_phase: cancel the think countdown; unless already resting or done, wait for Y/N. */
  function RevealAnswer(s: RatState): RatStep {
    var c := s.(thinkTimer := false);
    if c.phase == Rest || c.phase == Done then RatStep(c, [], false)
    else RatStep(c.(phase := Reveal, awaiting := true), [], false)
  }

  /** _on_yes (knew) and _on_no (!knew): only in the reveal phase while Y/N is awaited. */
  function Respond(s: RatState, knew: bool): RatStep {
    if !(s.phase == Reveal && s.awaiting) then RatStep(s, [], false)
    else
      var a := StartRest(s.(awaiting := false));
      RatStep(a.state, [RatResponse(s.index + 1, knew), RatEnd(s.index + 1)] + a.labels, a.completes)
  }

  /** start_rest_phase: cancel the think countdown, rest phase, RAT<n>_Rest_Start, first tick. */
  function StartRest(s: RatState): RatStep {
    var t := s.(thinkTimer := false, phase := Rest, restLeft := RestSeconds);
    var a := RestTick(t);
    RatStep(a.state, [RatRestStart(s.index + 1)] + a.labels, a.completes)
  }

  /** _tick_rest: nothing outside the rest phase; count down; on 0 finish the rest. */
  function RestTick(s: RatState): RatStep {
    if s.phase != Rest then RatStep(s, [], false)
    else if s.restLeft > 0 then RatStep(s.(restLeft := s.restLeft - 1, restTimer := true), [], false)
    else FinishRest(s)
  }

  /** The end of a rest, on its last tick or on a skip: cancel the countdown,
      RAT<n>_Rest_End, next index, start_next_item. */
  function FinishRest(s: RatState): RatStep {
    var a := NextItem(s.(restTimer := false, index := s.index + 1));
    RatStep(a.state, [RatRestEnd(s.index + 1)] + a.labels, a.completes)
  }

  /** force_advance (the master skip): think reveals, reveal answers N once, rest finishes,
      anything else is left alone. */
  function Force(s: RatState): RatStep {
    match s.phase
    case Think => RevealAnswer(s.(thinkTimer := false))
    case Reveal => if s.awaiting then Respond(s, false) else RatStep(s, [], false)
    case Rest => FinishRest(s)
    case _ => RatStep(s, [], false)
  }

  // ---------------------------------------------------------------- invariant and marker protocol

  /** Between events: an item is in progress or the game is done; done exactly after the
      last item; Y/N is awaited exactly in the reveal phase; a countdown is pending exactly
      in its own phase and has already ticked once. */
  predicate RatInv(s: RatState) {
    && s.phase != Unstarted
    && s.index <= ItemCount
    && (s.phase == Done <==> s.index == ItemCount)
    && (s.awaiting <==> s.phase == Reveal)
    && (s.thinkTimer <==> s.phase == Think)
    && (s.restTimer <==> s.phase == Rest)
    && (s.phase == Think ==> s.thinkLeft < ThinkSeconds)
    && (s.phase == Rest ==> s.restLeft < RestSeconds)
  }

  /** Position in the per-item marker sequence
      Start, Response_Y|N, End, Rest_Start, Rest_End (steps 0..4) of item `item`. */
  datatype Cursor = Cursor(item: nat, step: nat)

  predicate Expected(c: Cursor, l: Label) {
    match c.step
    case 0 => l == RatStart(c.item)
    case 1 => l.RatResponse? && l.item == c.item
    case 2 => l == RatEnd(c.item)
    case 3 => l == RatRestStart(c.item)
    case _ => l == RatRestEnd(c.item)
  }

  function Advance(c: Cursor): Cursor {
    if c.step >= 4 then Cursor(c.item + 1, 0) else Cursor(c.item, c.step + 1)
  }

  /** Reads the labels from cursor c; None when one is out of order. */
  function Follow(c: Cursor, ls: seq<Label>): Option<Cursor>
    decreases |ls|
  {
    if ls == [] then Some(c)
    else if Expected(c, ls[0]) then Follow(Advance(c), ls[1..])
    else None
  }

  lemma {:induction false} FollowConcat(c: Cursor, a: seq<Label>, b: seq<Label>)
    requires Follow(c, a).Some?
    ensures Follow(c, a + b) == Follow(Follow(c, a).value, b)
    decreases |a|
  {
    if a == [] {
      assert a + b == b;
    } else {
      assert (a + b)[0] == a[0] && (a + b)[1..] == a[1..] + b;
      FollowConcat(Advance(c), a[1..], b);
    }
  }

  /** Where the marker sequence stands in a given state. */
  function Where(s: RatState): Cursor {
    Cursor(s.index + 1, match s.phase
      case Think => 1
      case Reveal => 1
      case Rest => 4
      case _ => 0)
  }

  /** What can happen while the RAT runs: a pending countdown fires, a key, or the master skip. */
  datatype RatEvent = ThinkSecond | RestSecond | KeyY | KeyN | Skip

  function Handle(s: RatState, e: RatEvent): RatStep {
    match e
    case ThinkSecond => ThinkTick(s)
    case RestSecond => RestTick(s)
    case KeyY => Respond(s, true)
    case KeyN => Respond(s, false)
    case Skip => Force(s)
  }

  /** Starting an item from a state between items. */
  lemma StartNextItemSteps(s: RatState)
    requires s.index <= ItemCount && s.phase != Think && s.phase != Reveal && !s.awaiting
    ensures var a := NextItem(s);
      && RatInv(a.state) && a.state.index == s.index
      && Follow(Cursor(s.index + 1, 0), a.labels) == Some(Where(a.state))
      && (a.completes <==> s.index == ItemCount)
  {
    var a := NextItem(s);
    if s.index < ItemCount {
      assert a.labels == [RatStart(s.index + 1)];
      assert Follow(Cursor(s.index + 1, 1), a.labels[1..]) == Some(Cursor(s.index + 1, 1));
    }
  }

  lemma FinishRestSteps(s: RatState)
    requires RatInv(s) && s.phase == Rest
    ensures var a := FinishRest(s);
      && RatInv(a.state) && a.state.index == s.index + 1
      && Follow(Where(s), a.labels) == Some(Where(a.state))
      && (a.completes <==> a.state.phase == Done)
  {
    var n := s.(restTimer := false, index := s.index + 1);
    StartNextItemSteps(n);
    var b := NextItem(n);
    var a := FinishRest(s);
    assert a.labels == [RatRestEnd(s.index + 1)] + b.labels;
    assert Advance(Where(s)) == Cursor(n.index + 1, 0);
  }

  lemma RespondSteps(s: RatState, knew: bool)
    requires RatInv(s) && s.phase == Reveal
    ensures var a := Respond(s, knew);
      && RatInv(a.state) && a.state.index == s.index && a.state.phase == Rest
      && a.state.restLeft == RestSeconds - 1
      && Follow(Where(s), a.labels) == Some(Where(a.state))
      && a.labels[0] == RatResponse(s.index + 1, knew)
      && !a.completes
  {
    var a := Respond(s, knew);
    var i := s.index + 1;
    assert a.labels == [RatResponse(i, knew), RatEnd(i), RatRestStart(i)];
    assert Follow(Cursor(i, 4), []) == Some(Cursor(i, 4));
    assert Follow(Cursor(i, 3), [RatRestStart(i)]) == Some(Cursor(i, 4));
    assert Follow(Cursor(i, 2), [RatEnd(i), RatRestStart(i)]) == Some(Cursor(i, 4));
  }

  /** Each event keeps the invariant, sends markers exactly in protocol order, raises the
      index by at most one and only across a Rest_End, and reports `on_complete` exactly
      when the game becomes done. */
  lemma HandleSteps(s: RatState, e: RatEvent)
    requires RatInv(s)
    ensures var a := Handle(s, e);
      && RatInv(a.state)
      && Follow(Where(s), a.labels) == Some(Where(a.state))
      && (a.state.index == s.index || (a.state.index == s.index + 1 && RatRestEnd(s.index + 1) in a.labels))
      && (a.completes <==> s.phase != Done && a.state.phase == Done)
  {
    var a := Handle(s, e);
    match e {
      case ThinkSecond =>
      case RestSecond =>
        if s.phase == Rest && s.restLeft == 0 {
          FinishRestSteps(s);
          assert a.labels[0] == RatRestEnd(s.index + 1);
        }
      case KeyY =>
        if s.phase == Reveal { RespondSteps(s, true); }
      case KeyN =>
        if s.phase == Reveal { RespondSteps(s, false); }
      case Skip =>
        if s.phase == Reveal {
          RespondSteps(s, false);
        } else if s.phase == Rest {
          FinishRestSteps(s);
          assert a.labels[0] == RatRestEnd(s.index + 1);
        }
    }
  }

  /** A run of events from a state between events. */
  function Run(s: RatState, evs: seq<RatEvent>): RatStep
    decreases |evs|
  {
    if evs == [] then RatStep(s, [], false)
    else
      var a := Handle(s, evs[0]);
      var b := Run(a.state, evs[1..]);
      RatStep(b.state, a.labels + b.labels, a.completes || b.completes)
  }

  /** Any run keeps the invariant, never goes back an item, sends its markers in protocol
      order, and calls `on_complete` at most once: exactly when it ends in done having
      started before done. */
  lemma {:induction false} RunSteps(s: RatState, evs: seq<RatEvent>)
    requires RatInv(s)
    ensures var r := Run(s, evs);
      && RatInv(r.state)
      && s.index <= r.state.index
      && Follow(Where(s), r.labels) == Some(Where(r.state))
      && (r.completes <==> s.phase != Done && r.state.phase == Done)
    decreases |evs|
  {
    if evs != [] {
      var a := Handle(s, evs[0]);
      HandleSteps(s, evs[0]);
      RunSteps(a.state, evs[1..]);
      var b := Run(a.state, evs[1..]);
      FollowConcat(Where(s), a.labels, b.labels);
      if a.state.phase == Done {
        assert Run(a.state, evs[1..]).state.phase == Done by { DoneStaysDone(a.state, evs[1..]); }
      }
    }
  }

  /** Once done, no event changes anything or sends anything. */
  lemma {:induction false} DoneStaysDone(s: RatState, evs: seq<RatEvent>)
    requires RatInv(s) && s.phase == Done
    ensures Run(s, evs) == RatStep(s, [], false)
    decreases |evs|
  {
    if evs != [] {
      DoneStaysDone(s, evs[1..]);
    }
  }

  /** The constructor's first item: RAT1_Start, think phase. */
  lemma BeginSteps()
    ensures var a := NextItem(Initial);
      && RatInv(a.state) && a.state.phase == Think && a.state.index == 0
      && a.labels == [RatStart(1)] && !a.completes
      && Follow(Cursor(1, 0), a.labels) == Some(Where(a.state))
  {
    StartNextItemSteps(Initial);
  }

  /** The same event n times. */
  function Repeat(s: RatState, e: RatEvent, n: nat): RatStep
    decreases n
  {
    if n == 0 then RatStep(s, [], false)
    else
      var a := Handle(s, e);
      var b := Repeat(a.state, e, n - 1);
      RatStep(b.state, a.labels + b.labels, a.completes || b.completes)
  }

  lemma {:induction false} ThinkCountDown(s: RatState, n: nat)
    requires s.phase == Think && n <= s.thinkLeft
    ensures Repeat(s, ThinkSecond, n) == RatStep(s.(thinkLeft := s.thinkLeft - n, thinkTimer := n > 0 || s.thinkTimer), [], false)
    decreases n
  {
    if n > 0 {
      ThinkCountDown(s.(thinkLeft := s.thinkLeft - 1, thinkTimer := true), n - 1);
    }
  }

  /** A think countdown with k seconds left reveals the answer on tick k + 1. */
  lemma {:induction false} ThinkRunsOut(s: RatState)
    requires s.phase == Think
    ensures Repeat(s, ThinkSecond, s.thinkLeft + 1).state.phase == Reveal
    decreases s.thinkLeft
  {
    if s.thinkLeft > 0 {
      ThinkRunsOut(ThinkTick(s).state);
    }
  }

  /** The think countdown lasts 10 ticks: after an item is shown, 9 ticks keep the think
      phase and the 10th reveals the answer. */
  lemma ThinkLastsTenTicks(s: RatState, n: nat)
    requires s.index < ItemCount && n < ThinkSeconds
    ensures var t := NextItem(s).state;
      && t.phase == Think && t.thinkLeft == ThinkSeconds - 1
      && Repeat(t, ThinkSecond, n).state.phase == Think
      && Repeat(t, ThinkSecond, ThinkSeconds).state.phase == Reveal
  {
    var t := NextItem(s).state;
    ThinkCountDown(t, n);
    ThinkRunsOut(t);
  }

  lemma {:induction false} RestCountDown(s: RatState, n: nat)
    requires s.phase == Rest && n <= s.restLeft
    ensures Repeat(s, RestSecond, n) == RatStep(s.(restLeft := s.restLeft - n, restTimer := n > 0 || s.restTimer), [], false)
    decreases n
  {
    if n > 0 {
      RestCountDown(s.(restLeft := s.restLeft - 1, restTimer := true), n - 1);
    }
  }

  /** A rest countdown with k seconds left ends on tick k + 1 with Rest_End and the next item. */
  lemma {:induction false} RestRunsOut(s: RatState)
    requires s.phase == Rest
    ensures Repeat(s, RestSecond, s.restLeft + 1).state.index == s.index + 1
    ensures RatRestEnd(s.index + 1) in Repeat(s, RestSecond, s.restLeft + 1).labels
    decreases s.restLeft
  {
    var a := RestTick(s);
    var r := Repeat(a.state, RestSecond, s.restLeft);
    if s.restLeft == 0 {
      assert a.labels[0] == RatRestEnd(s.index + 1);
      assert (a.labels + r.labels)[0] == RatRestEnd(s.index + 1);
    } else {
      RestRunsOut(a.state);
      assert a.labels + r.labels == r.labels;
    }
  }

  /** The rest countdown lasts 15 ticks: after a Y/N answer, 14 ticks keep the rest phase
      and the 15th sends Rest_End and moves to the next item. */
  lemma RestLastsFifteenTicks(s: RatState, knew: bool, n: nat)
    requires RatInv(s) && s.phase == Reveal && n < RestSeconds
    ensures var t := Respond(s, knew).state;
      && t.phase == Rest && t.restLeft == RestSeconds - 1
      && Repeat(t, RestSecond, n).state.phase == Rest
      && Repeat(t, RestSecond, RestSeconds).state.index == s.index + 1
      && RatRestEnd(s.index + 1) in Repeat(t, RestSecond, RestSeconds).labels
  {
    RespondSteps(s, knew);
    var t := Respond(s, knew).state;
    RestCountDown(t, n);
    RestRunsOut(t);
  }

  /** A Y/N key is taken once per item: a second key, Y or N, sends nothing. */
  lemma SingleAnswer(s: RatState, first: bool, second: bool)
    requires RatInv(s) && s.phase == Reveal
    ensures Respond(Respond(s, first).state, second) == RatStep(Respond(s, first).state, [], false)
  {
    RespondSteps(s, first);
  }

  // ---------------------------------------------------------------- the object

  class RATGame {
    const stream: MarkerStream
    var index: nat
    var phase: Phase
    var awaitingYesNo: bool
    var thinkRemaining: nat
    var restRemaining: nat
    var thinkTimer: bool
    var restTimer: bool

    function State(): RatState
      reads this
    {
      RatState(index, phase, awaitingYesNo, thinkRemaining, restRemaining, thinkTimer, restTimer)
    }

    predicate Valid()
      reads this
    {
      RatInv(State())
    }

    /** __init__: item 0, then start_next_item, which shows RAT1. */
    constructor (stream: MarkerStream)
      modifies stream
      ensures this.stream == stream && Valid()
      ensures State() == NextItem(Initial).state && phase == Think
      ensures stream.playerId == old(stream.playerId)
      ensures stream.log == old(stream.log) + [Marker(stream.playerId, RatStart(1))]
    {
      this.stream := stream;
      index := 0;
      phase := Unstarted;
      awaitingYesNo := false;
      thinkRemaining := 0;
      restRemaining := 0;
      thinkTimer := false;
      restTimer := false;
      new;
      BeginSteps();
      var finished := StartNextItem();
    }

    method StartNextItem() returns (finished: bool)
      modifies this, stream
      ensures State() == NextItem(old(State())).state
      ensures finished == NextItem(old(State())).completes
      ensures stream.playerId == old(stream.playerId)
      ensures stream.log == old(stream.log) + MarkerLines(stream.playerId, NextItem(old(State())).labels)
    {
      thinkTimer := false;
      restTimer := false;
      if index >= ItemCount {
        phase := Done;
        finished := true;
        return;
      }
      ShowThinkPhase();
      finished := false;
    }

    method ShowThinkPhase()
      modifies this, stream
      ensures State() == ShowThink(old(State())).state
      ensures !ShowThink(old(State())).completes
      ensures stream.playerId == old(stream.playerId)
      ensures stream.log == old(stream.log) + MarkerLines(stream.playerId, ShowThink(old(State())).labels)
    {
      thinkTimer := false;
      restTimer := false;
      phase := Think;
      awaitingYesNo := false;
      thinkRemaining := ThinkSeconds;
      stream.Send(RatStart(index + 1));
      TickThink();
    }

    method TickThink()
      modifies this
      ensures State() == ThinkTick(old(State())).state
      ensures ThinkTick(old(State())).labels == [] && !ThinkTick(old(State())).completes
    {
      if phase != Think {
        return;
      }
      if thinkRemaining > 0 {
        thinkRemaining := thinkRemaining - 1;
        thinkTimer := true;
      } else {
        RevealPhase();
      }
    }

    method RevealPhase()
      modifies this
      ensures State() == RevealAnswer(old(State())).state
      ensures RevealAnswer(old(State())).labels == [] && !RevealAnswer(old(State())).completes
    {
      thinkTimer := false;
      if phase == Rest || phase == Done {
        return;
      }
      phase := Reveal;
      awaitingYesNo := true;
    }

    /** _on_yes (knew) and _on_no (!knew). */
    method Answer(knew: bool) returns (finished: bool)
      modifies this, stream
      ensures State() == Respond(old(State()), knew).state
      ensures finished == Respond(old(State()), knew).completes
      ensures stream.playerId == old(stream.playerId)
      ensures stream.log == old(stream.log) + MarkerLines(stream.playerId, Respond(old(State()), knew).labels)
    {
      finished := false;
      if !(phase == Reveal && awaitingYesNo) {
        return;
      }
      awaitingYesNo := false;
      ghost var waiting := State();
      stream.Send(RatResponse(index + 1, knew));
      stream.Send(RatEnd(index + 1));
      finished := StartRestPhase();
      ghost var rest := StartRest(waiting);
      ghost var answered := [RatResponse(waiting.index + 1, knew), RatEnd(waiting.index + 1)];
      assert Respond(old(State()), knew) == RatStep(rest.state, answered + rest.labels, rest.completes);
      MarkerLinesAppend(stream.playerId, answered, rest.labels);
    }

    method StartRestPhase() returns (finished: bool)
      modifies this, stream
      ensures State() == StartRest(old(State())).state
      ensures finished == StartRest(old(State())).completes
      ensures stream.playerId == old(stream.playerId)
      ensures stream.log == old(stream.log) + MarkerLines(stream.playerId, StartRest(old(State())).labels)
    {
      thinkTimer := false;
      phase := Rest;
      restRemaining := RestSeconds;
      stream.Send(RatRestStart(index + 1));
      finished := TickRest();
    }

    method TickRest() returns (finished: bool)
      modifies this, stream
      ensures State() == RestTick(old(State())).state
      ensures finished == RestTick(old(State())).completes
      ensures stream.playerId == old(stream.playerId)
      ensures stream.log == old(stream.log) + MarkerLines(stream.playerId, RestTick(old(State())).labels)
    {
      finished := false;
      if phase != Rest {
        return;
      }
      if restRemaining > 0 {
        restRemaining := restRemaining - 1;
        restTimer := true;
      } else {
        finished := EndRest();
      }
    }

    /** The shared end of a rest (last tick, or skip). */
    method EndRest() returns (finished: bool)
      modifies this, stream
      ensures State() == FinishRest(old(State())).state
      ensures finished == FinishRest(old(State())).completes
      ensures stream.playerId == old(stream.playerId)
      ensures stream.log == old(stream.log) + MarkerLines(stream.playerId, FinishRest(old(State())).labels)
    {
      restTimer := false;
      stream.Send(RatRestEnd(index + 1));
      index := index + 1;
      finished := StartNextItem();
    }

    method ForceAdvance() returns (finished: bool)
      modifies this, stream
      ensures State() == Force(old(State())).state
      ensures finished == Force(old(State())).completes
      ensures stream.playerId == old(stream.playerId)
      ensures stream.log == old(stream.log) + MarkerLines(stream.playerId, Force(old(State())).labels)
    {
      finished := false;
      if phase == Think {
        thinkTimer := false;
        RevealPhase();
      } else if phase == Reveal {
        if awaitingYesNo {
          finished := Answer(false);
        }
      } else if phase == Rest {
        finished := EndRest();
      }
    }
  }
}
