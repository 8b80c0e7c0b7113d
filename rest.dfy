/** The 15-second rest with a 1..5 spontaneity rating that follows every Connections
    puzzle. The fields live on the app object (the `_conn_rest_*` attributes,
    `connections_puzzles_completed`, `connections_spontaneity`); this module states what
    each of the app's rest handlers does to them, as functions on a `RestState`. */
module ConnectionsRest {
  import opened Markers

  /** Seconds on the rest countdown. */
  const RestSeconds: nat := 15
  /** The stage ends after this many completed puzzles (the instructions say 10). */
  const PuzzleCount: nat := 15
  const MinRating: nat := 1
  const MaxRating: nat := 5

  /** `forPuzzle` is 0 until the first rest starts (the attribute is None then). */
  datatype RestState = RestState(
    active: bool,
    remaining: nat,
    choice: Option<nat>,
    forPuzzle: nat,
    timer: bool,
    completed: nat,
    ratings: seq<Option<nat>>)

  /** What the app does after a rest ends: the next puzzle, or the RAT instructions. */
  datatype Next = Stay | NextPuzzle(index: nat) | RatInstructions

  datatype RestStep = RestStep(state: RestState, labels: seq<Label>, next: Next)

  predicate IsRating(v: nat) {
    MinRating <= v <= MaxRating
  }

  /** _end_connections_rest: cancel the tick, NoResponse when no rating was chosen,
      record the choice, deactivate, Rest_End, then decide what comes next. */
  function End(s: RestState): (r: RestStep)
    ensures r.state.ratings == s.ratings + [s.choice]
    ensures !r.state.active && !r.state.timer
    ensures r.labels == (if s.choice.None? then [ConnRating(s.forPuzzle, None)] else []) + [ConnRestEnd(s.forPuzzle)]
    ensures r.next == if s.completed < PuzzleCount then NextPuzzle(s.completed + 1) else RatInstructions
    ensures r.state.choice == s.choice && r.state.forPuzzle == s.forPuzzle && r.state.completed == s.completed
  {
    var noResponse := if s.choice.None? then [ConnRating(s.forPuzzle, None)] else [];
    RestStep(
      s.(timer := false, ratings := s.ratings + [s.choice], active := false),
      noResponse + [ConnRestEnd(s.forPuzzle)],
      if s.completed < PuzzleCount then NextPuzzle(s.completed + 1) else RatInstructions)
  }

  /** _tick_connections_rest: nothing when inactive, count down while time remains,
      end the rest on the tick that finds 0. */
  function Tick(s: RestState): RestStep {
    if !s.active then RestStep(s, [], Stay)
    else if s.remaining > 0 then RestStep(s.(remaining := s.remaining - 1, timer := true), [], Stay)
    else End(s)
  }

  /** _start_connections_rest(k): fresh countdown, no choice, Rest_Start, then the first tick. */
  function StartRest(s: RestState, k: nat): RestStep {
    var begun := s.(active := true, remaining := RestSeconds, choice := None, forPuzzle := k);
    var t := Tick(begun);
    RestStep(t.state, [ConnRestStart(k)] + t.labels, t.next)
  }

  /** on_connections_puzzle_complete: one more puzzle completed, then its rest. */
  function PuzzleComplete(s: RestState): (r: RestStep)
    ensures r.state.completed == s.completed + 1 && r.state.forPuzzle == s.completed + 1
    ensures r.labels == [ConnRestStart(s.completed + 1)]
    ensures r.state.active && r.state.choice == None && r.state.ratings == s.ratings
    ensures r.state.remaining == RestSeconds - 1 && r.state.timer && r.next == Stay
  {
    StartRest(s.(completed := s.completed + 1), s.completed + 1)
  }

  /** _conn_select_rating(v): the first click of an active rest binds v and sends its marker. */
  function Select(s: RestState, v: nat): RestStep {
    if !s.active || s.choice.Some? then RestStep(s, [], Stay)
    else RestStep(s.(choice := Some(v)), [ConnRating(s.forPuzzle, Some(v))], Stay)
  }

  /** The rating is write-once: after one click binds v, no later click changes the state
      or sends anything; a click on an inactive rest does nothing. */
  lemma SelectIsWriteOnce(s: RestState, v: nat, w: nat)
    ensures s.active && s.choice.None? ==>
      Select(s, v) == RestStep(s.(choice := Some(v)), [ConnRating(s.forPuzzle, Some(v))], Stay)
    ensures Select(Select(s, v).state, w).state == Select(s, v).state
    ensures Select(Select(s, v).state, w).labels == []
    ensures !s.active ==> Select(s, v) == RestStep(s, [], Stay)
  {
  }

  /** A tick changes nothing outside an active rest, counts down by exactly one while time
      remains, and ends the rest on 0. */
  lemma TickSteps(s: RestState)
    ensures !s.active ==> Tick(s) == RestStep(s, [], Stay)
    ensures s.active && s.remaining > 0 ==>
      Tick(s).state.remaining == s.remaining - 1 && Tick(s).state.active && Tick(s).labels == []
    ensures s.active && s.remaining == 0 ==> Tick(s) == End(s)
  {
  }

  /** n consecutive ticks. */
  function Ticks(s: RestState, n: nat): RestStep
    decreases n
  {
    if n == 0 then RestStep(s, [], Stay)
    else
      var a := Tick(s);
      var b := Ticks(a.state, n - 1);
      RestStep(b.state, a.labels + b.labels, if a.next != Stay then a.next else b.next)
  }

  lemma {:induction false} CountDown(s: RestState, n: nat)
    requires s.active && s.timer && n <= s.remaining
    ensures Ticks(s, n) == RestStep(s.(remaining := s.remaining - n), [], Stay)
    decreases n
  {
    if n > 0 {
      CountDown(s.(remaining := s.remaining - 1), n - 1);
    }
  }

  /** The countdown lasts 15 ticks: after the rest starts, 14 further ticks leave it running
      and the 15th ends it. Each tick is one scheduled countdown callback; the spacing between
      ticks is not modelled. */
  lemma {:induction false} RestLastsFifteenTicks(s: RestState, k: nat, n: nat)
    requires n < RestSeconds
    ensures StartRest(s, k).state.remaining == RestSeconds - 1
    ensures Ticks(StartRest(s, k).state, n).state.active
    ensures Ticks(StartRest(s, k).state, n).labels == []
    ensures !Ticks(StartRest(s, k).state, RestSeconds).state.active
  {
    var st := StartRest(s, k).state;
    assert st.active && st.timer && st.remaining == RestSeconds - 1;
    CountDown(st, n);
    CountDown(st, RestSeconds - 1);
    var last := st.(remaining := 0);
    TicksSplit(st, 1, RestSeconds - 1);
    assert Ticks(last, 1).state == End(last).state;
  }

  lemma {:induction false} TicksSplit(s: RestState, n: nat, m: nat)
    ensures Ticks(s, m + n).state == Ticks(Ticks(s, m).state, n).state
    decreases m
  {
    if m > 0 {
      TicksSplit(Tick(s).state, n, m - 1);
      assert m + n - 1 == (m - 1) + n;
    }
  }

  /** n ticks starting from an active countdown with r seconds left: r silent ticks, and
      the next one ends the rest. */
  lemma {:induction false} TicksToEnd(s: RestState)
    requires s.active && s.timer
    ensures Ticks(s, s.remaining + 1) == End(s.(remaining := 0))
    decreases s.remaining
  {
    if s.remaining == 0 {
      assert s.(remaining := 0) == s;
      assert End(s).labels + [] == End(s).labels;
    } else {
      var t := s.(remaining := s.remaining - 1);
      TicksToEnd(t);
      assert t.(remaining := 0) == s.(remaining := 0);
      assert [] + Ticks(t, t.remaining + 1).labels == Ticks(t, t.remaining + 1).labels;
    }
  }

  /** What can happen during a rest: a tick, a rating click (buttons 1..5), the master skip
      while a rest is active (the `_conn_rest_active` branch), or the '.' callback the rest
      stored, which runs `_end_connections_rest` whether or not the rest is still active.
      The rest never clears that callback when it ends on its own, so a '.' after the end
      runs it again. `LateComplete` is a puzzle-complete callback scheduled 2500 ms after a
      correct group: nothing cancels it, so it can fire during a rest and start the next
      rest over it. */
  datatype RestEvent = Second | Rate(value: nat) | SkipRest | StoredEnd | LateComplete

  function Handle(s: RestState, e: RestEvent): RestStep {
    match e
    case Second => Tick(s)
    case Rate(v) => Select(s, v)
    case SkipRest => if s.active then End(s) else RestStep(s, [], Stay)
    case StoredEnd => End(s)
    case LateComplete => PuzzleComplete(s)
  }

  predicate RatesInRange(evs: seq<RestEvent>) {
    forall i :: 0 <= i < |evs| && evs[i].Rate? ==> IsRating(evs[i].value)
  }

  predicate NoStoredEnd(evs: seq<RestEvent>) {
    forall i :: 0 <= i < |evs| ==> !evs[i].StoredEnd?
  }

  predicate NoLateComplete(evs: seq<RestEvent>) {
    forall i :: 0 <= i < |evs| ==> !evs[i].LateComplete?
  }

  function Run(s: RestState, evs: seq<RestEvent>): RestStep
    decreases |evs|
  {
    if evs == [] then RestStep(s, [], Stay)
    else
      var a := Handle(s, evs[0]);
      var b := Run(a.state, evs[1..]);
      RestStep(b.state, a.labels + b.labels, if b.next != Stay then b.next else a.next)
  }

  /** The markers n ends of the rest for puzzle k send with the choice c: each one
      NoResponse (only when nothing was chosen) and then Rest_End. */
  function Ends(k: nat, c: Option<nat>, n: nat): seq<Label>
    decreases n
  {
    if n == 0 then [] else Ends(k, c, n - 1) + (if c.None? then [ConnRating(k, None)] else []) + [ConnRestEnd(k)]
  }

  /** The rating marker sent by a click, when one was chosen. */
  function Chosen(k: nat, c: Option<nat>): seq<Label> {
    if c.None? then [] else [ConnRating(k, c)]
  }

  /** Where a rest for puzzle k, entered with ratings R and completed count C, can be after
      `ends` runs of `_end_connections_rest`: running (no end yet, at most the rating
      marker sent), or ended, with the rating marker when one was chosen and then, per end,
      NoResponse when none was chosen and Rest_End; one ratings entry per end; and the next
      step decided by the 15-puzzle bound. */
  predicate Consistent(st: RestState, labels: seq<Label>, next: Next, k: nat, R: seq<Option<nat>>, C: nat, ends: nat) {
    && st.forPuzzle == k && st.completed == C && st.timer == st.active
    && (st.choice.Some? ==> IsRating(st.choice.value))
    && (st.active ==>
          && ends == 0 && st.remaining < RestSeconds && st.ratings == R && next == Stay
          && labels == Chosen(k, st.choice))
    && (!st.active ==>
          && ends > 0
          && st.ratings == R + seq(ends, _ => st.choice)
          && labels == Chosen(k, st.choice) + Ends(k, st.choice, ends)
          && next == if C < PuzzleCount then NextPuzzle(C + 1) else RatInstructions)
  }

  /** Consistent after some number n of ends, no fewer than `ends`; when `once` holds (no
      stored '.' callback ran), n is at most 1 or still `ends`. */
  ghost predicate ConsistentAfter(st: RestState, labels: seq<Label>, next: Next, k: nat, R: seq<Option<nat>>, C: nat, ends: nat, once: bool) {
    exists n :: Consistent(st, labels, next, k, R, C, n) && ends <= n && (once ==> n <= 1 || n == ends)
  }

  /** One end more: the markers and the ratings entry it adds. */
  lemma OneMoreEnd(st: RestState, labels: seq<Label>, next: Next, k: nat, R: seq<Option<nat>>, C: nat, ends: nat)
    requires Consistent(st, labels, next, k, R, C, ends) && (st.active ==> st.timer)
    ensures var a := End(st);
      Consistent(a.state, labels + a.labels, a.next, k, R, C, ends + 1)
  {
    var a := End(st);
    var c := st.choice;
    assert a.labels == (if c.None? then [ConnRating(k, None)] else []) + [ConnRestEnd(k)];
    assert Ends(k, c, ends + 1) == Ends(k, c, ends) + a.labels;
    assert Chosen(k, c) + Ends(k, c, ends) + a.labels == Chosen(k, c) + Ends(k, c, ends + 1);
    assert R + seq(ends, _ => c) + [c] == R + seq(ends + 1, _ => c);
  }

  /** Every event but a late puzzle-complete callback keeps the protocol; only the stored
      '.' callback can end a rest that has already ended, so without it the rest ends at
      most once. A late puzzle-complete callback abandons the rest (`RestAbandoned`). */
  lemma HandleKeepsConsistent(st: RestState, labels: seq<Label>, next: Next, k: nat, R: seq<Option<nat>>, C: nat, ends: nat, e: RestEvent)
    requires Consistent(st, labels, next, k, R, C, ends)
    requires e.Rate? ==> IsRating(e.value)
    ensures var a := Handle(st, e);
      !e.LateComplete? ==>
        ConsistentAfter(a.state, labels + a.labels, if a.next != Stay then a.next else next, k, R, C, ends, !e.StoredEnd?)
  {
    var a := Handle(st, e);
    if e.LateComplete? {
    } else if a == End(st) && (st.active || e.StoredEnd?) {
      OneMoreEnd(st, labels, next, k, R, C, ends);
      assert Consistent(a.state, labels + a.labels, a.next, k, R, C, ends + 1);
    } else if !st.active {
      assert a == RestStep(st, [], Stay);
      assert labels + [] == labels;
      assert Consistent(a.state, labels + a.labels, next, k, R, C, ends);
    } else if a.state.active {
      if a.labels == [] { assert labels + [] == labels; }
      assert Consistent(a.state, labels + a.labels, next, k, R, C, ends);
    } else {
      assert false;
    }
  }

  /** What holds of a run of events holds of its tail. */
  lemma TailEvents(evs: seq<RestEvent>)
    requires evs != [] && RatesInRange(evs)
    ensures RatesInRange(evs[1..])
    ensures NoStoredEnd(evs) ==> NoStoredEnd(evs[1..]) && !evs[0].StoredEnd?
    ensures NoLateComplete(evs) ==> NoLateComplete(evs[1..]) && !evs[0].LateComplete?
  {
    forall i | 0 <= i < |evs[1..]|
      ensures evs[1..][i] == evs[i + 1]
    {
    }
  }

  /** Joins the ends counted before an event and after the rest of the run. */
  lemma JoinEnds(st: RestState, labels: seq<Label>, la: seq<Label>, lb: seq<Label>, next: Next, k: nat, R: seq<Option<nat>>, C: nat,
                 ends: nat, m: nat, headOnce: bool, tailOnce: bool)
    requires ConsistentAfter(st, labels + la + lb, next, k, R, C, m, tailOnce)
    requires ends <= m && (headOnce ==> m <= 1 || m == ends)
    ensures ConsistentAfter(st, labels + (la + lb), next, k, R, C, ends, headOnce && tailOnce)
  {
    SeqAssoc(labels, la, lb);
    var n :| Consistent(st, labels + la + lb, next, k, R, C, n) && m <= n && (tailOnce ==> n <= 1 || n == m);
    assert Consistent(st, labels + (la + lb), next, k, R, C, n);
  }

  lemma {:induction false} RunKeepsConsistent(st: RestState, labels: seq<Label>, next: Next, k: nat, R: seq<Option<nat>>, C: nat, ends: nat, evs: seq<RestEvent>)
    requires Consistent(st, labels, next, k, R, C, ends) && RatesInRange(evs)
    ensures var r := Run(st, evs);
      NoLateComplete(evs) ==>
        ConsistentAfter(r.state, labels + r.labels, if r.next != Stay then r.next else next, k, R, C, ends, NoStoredEnd(evs))
    decreases |evs|
  {
    if !NoLateComplete(evs) {
    } else if evs == [] {
      assert labels + [] == labels;
      assert Consistent(st, labels + [], next, k, R, C, ends);
    } else {
      var a := Handle(st, evs[0]);
      HandleKeepsConsistent(st, labels, next, k, R, C, ends, evs[0]);
      var next' := if a.next != Stay then a.next else next;
      var m :| Consistent(a.state, labels + a.labels, next', k, R, C, m)
        && ends <= m && (!evs[0].StoredEnd? ==> m <= 1 || m == ends);
      TailEvents(evs);
      RunKeepsConsistent(a.state, labels + a.labels, next', k, R, C, m, evs[1..]);
      var b := Run(a.state, evs[1..]);
      JoinEnds(b.state, labels, a.labels, b.labels, if b.next != Stay then b.next else next', k, R, C,
               ends, m, !evs[0].StoredEnd?, NoStoredEnd(evs[1..]));
    }
  }

  /** Every rest, whatever ticks, clicks, skips and '.' presses arrive: Rest_Start for
      puzzle k first; while it runs, at most the one rating marker; after its n-th end the
      rating marker once (when one was chosen), then NoResponse (when none was) and Rest_End
      for each end, one ratings entry per end, and the next puzzle chosen by the bound.
      Without the stored '.' callback it ends at most once. This holds until a late
      puzzle-complete callback starts another rest over it (`RestAbandoned`). */
  lemma RestProtocol(s: RestState, k: nat, evs: seq<RestEvent>)
    requires RatesInRange(evs)
    ensures var start := StartRest(s, k);
      var r := Run(start.state, evs);
      && start.labels == [ConnRestStart(k)]
      && (NoLateComplete(evs) ==> ConsistentAfter(r.state, r.labels, r.next, k, s.ratings, s.completed, 0, NoStoredEnd(evs)))
  {
    var start := StartRest(s, k);
    assert Consistent(start.state, [], Stay, k, s.ratings, s.completed, 0);
    RunKeepsConsistent(start.state, [], Stay, k, s.ratings, s.completed, 0, evs);
    var r := Run(start.state, evs);
    assert [] + r.labels == r.labels;
  }

  /** A rest that ends on its last tick leaves the '.' callback stored; running it then ends
      the rest a second time: NoResponse and Rest_End again, and a second ratings entry. */
  lemma StoredEndRepeats(s: RestState, k: nat)
    ensures var ended := Ticks(StartRest(s, k).state, RestSeconds);
      var again := Handle(ended.state, StoredEnd);
      && !ended.state.active
      && ended.labels == [ConnRating(k, None), ConnRestEnd(k)]
      && ended.state.ratings == s.ratings + [None]
      && again.labels == [ConnRating(k, None), ConnRestEnd(k)]
      && again.state.ratings == s.ratings + [None, None]
      && again.next == ended.next
  {
    var st := StartRest(s, k).state;
    assert st.active && st.timer && st.remaining == RestSeconds - 1 && st.choice == None && st.forPuzzle == k;
    TicksToEnd(st);
  }

  /** A puzzle-complete callback that fires during the rest for puzzle k (after a rating v
      was clicked) starts the rest for k + 1 over it: rest k gets neither NoResponse nor
      Rest_End, no ratings entry, and its rating is lost. */
  lemma RestAbandoned(s: RestState, v: nat)
    requires IsRating(v)
    ensures var k := s.completed + 1;
      var begun := PuzzleComplete(s);
      var r := Run(begun.state, [Rate(v), LateComplete]);
      && begun.state.active && begun.state.forPuzzle == k
      && r.labels == [ConnRating(k, Some(v)), ConnRestStart(k + 1)]
      && r.state.ratings == s.ratings
      && r.state.active && r.state.forPuzzle == k + 1 && r.state.choice == None
      && r.next == Stay
  {
    var begun := PuzzleComplete(s);
    var evs := [Rate(v), LateComplete];
    var a := Handle(begun.state, evs[0]);
    assert a.state.completed == s.completed + 1 && a.state.ratings == s.ratings;
    var c := PuzzleComplete(a.state);
    assert Run(c.state, []) == RestStep(c.state, [], Stay);
    assert evs[1..] == [LateComplete];
    assert Run(a.state, evs[1..]) == RestStep(c.state, c.labels + [], c.next);
  }
}
