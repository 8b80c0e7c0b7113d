/** The experiment's orchestrator (class ExperimentApp): the ID screen, the message
    screens and their Enter/Return and master-skip callbacks, the Connections stage with
    its rests, the RAT, and the questionnaire.

    A callback stored by a message screen is an `Action`; `lastOnNext` is the one the
    master skip '.' runs, `returnAction` the one bound to Enter/Return. The random choices
    of each new puzzle come from `draws`, one `Draw` per puzzle in creation order. */
module Experiment {
  import opened Markers
  import C = Connections
  import R = ConnectionsRest
  import T = Rat
  import S = Survey

  /** The callbacks the app stores for Enter/Return and for the master skip. */
  datatype Action =
    | SubmitId
    | ShowConnectionsInstructions
    | StartConnectionsGame
    | StartRatTask
    | ShowPostQuestions
    | EndConnectionsRest
    | SkipQuestion
    | CloseWindow

  /** The branch of _master_skip that runs. */
  datatype Route = RunStoredAction | EndRest | CompletePuzzle | AdvanceRat | SkipSurveyQuestion | NoRoute

  /** The choices random.sample and random.shuffle make for one new puzzle. */
  datatype Draw = Draw(picks: seq<nat>, perm: seq<nat>)

  predicate ValidDraw(d: Draw, groupCount: nat) {
    C.IsSample(d.picks, groupCount) && C.IsPermutation(d.perm, C.TileCount)
  }

  /** _master_skip's branch: the first of stored callback, active rest, existing puzzle
      game, existing RAT, existing questionnaire. */
  function SkipRoute(stored: bool, restActive: bool, hasConn: bool, hasRat: bool, hasPostq: bool): (r: Route)
    ensures r == RunStoredAction <==> stored
    ensures r == EndRest <==> !stored && restActive
    ensures r == CompletePuzzle <==> !stored && !restActive && hasConn
    ensures r == AdvanceRat <==> !stored && !restActive && !hasConn && hasRat
    ensures r == SkipSurveyQuestion <==> !stored && !restActive && !hasConn && !hasRat && hasPostq
  {
    if stored then RunStoredAction
    else if restActive then EndRest
    else if hasConn then CompletePuzzle
    else if hasRat then AdvanceRat
    else if hasPostq then SkipSurveyQuestion
    else NoRoute
  }

  /** Since a RAT is only ever created after a puzzle game (and a questionnaire only after a
      RAT), and the puzzle game is never dropped, the master skip never reaches the RAT or
      questionnaire branches: with nothing stored and no rest, it completes a puzzle. */
  lemma SkipNeverReachesRatOrSurvey(stored: bool, restActive: bool, hasConn: bool, hasRat: bool, hasPostq: bool)
    requires hasRat ==> hasConn
    requires hasPostq ==> hasRat
    ensures SkipRoute(stored, restActive, hasConn, hasRat, hasPostq) != AdvanceRat
    ensures SkipRoute(stored, restActive, hasConn, hasRat, hasPostq) != SkipSurveyQuestion
    ensures hasRat && !stored && !restActive ==> SkipRoute(stored, restActive, hasConn, hasRat, hasPostq) == CompletePuzzle
  {
  }

  /** The labels a finished rest adds when it opens the next puzzle. */
  function NextLabels(n: R.Next): seq<Label> {
    if n.NextPuzzle? then [ConnStart(n.index)] else []
  }

  /** The markers the end of a rest sends, written out: NoResponse when nothing was
      chosen, Rest_End, and the next puzzle's start when there is one. */
  lemma EndMarkers(pid: Option<string>, s: R.RestState)
    ensures MarkerLines(pid, R.End(s).labels) ==
      (if s.choice.None? then [Marker(pid, ConnRating(s.forPuzzle, None))] else []) + [Marker(pid, ConnRestEnd(s.forPuzzle))]
    ensures MarkerLines(pid, NextLabels(R.End(s).next)) ==
      if s.completed < R.PuzzleCount then [Marker(pid, ConnStart(s.completed + 1))] else []
  {
  }

  /** The rest state after a completed puzzle and after the end of a rest, field by field. */
  lemma RestStates(s: R.RestState)
    ensures R.PuzzleComplete(s).state == s.(completed := s.completed + 1, forPuzzle := s.completed + 1,
      active := true, remaining := R.RestSeconds - 1, timer := true, choice := None)
    ensures R.End(s).state == s.(timer := false, active := false, ratings := s.ratings + [s.choice])
  {
  }

  class ExperimentApp {
    const stream: MarkerStream
    const allGroups: seq<C.Group>
    const draws: nat -> Draw
    var drawCount: nat

    var lastOnNext: Option<Action>
    var returnAction: Option<Action>

    /** The Connections rest attributes, the completed-puzzle count and the ratings so far. */
    var rest: R.RestState

    var conn: C.ConnectionsGame?
    var rat: T.RATGame?
    var postq: S.PostQuestionnaire?
    /** on_connections_puzzle_complete callbacks scheduled 2500 ms after a correct group. */
    var pendingCompletes: nat
    var closed: bool

    /** The puzzle file and the random choices are usable. */
    ghost predicate Config() {
      C.FourMembers(allGroups) && forall i :: ValidDraw(draws(i), |allGroups|)
    }

    /** What a stored callback needs from the state it runs in. */
    predicate Enabled(a: Action)
      reads this
    {
      match a
      case StartRatTask => conn != null
      case EndConnectionsRest => rest.forPuzzle > 0 && conn != null
      case ShowPostQuestions => rat != null
      case SkipQuestion => postq != null
      case _ => true
    }

    /** A sub-object that exists writes to the app's stream and keeps its own invariant. */
    static ghost predicate ConnOk(c: C.ConnectionsGame?, st: MarkerStream)
      reads c
    {
      c != null ==> c.stream == st && c.Valid()
    }

    static ghost predicate RatOk(r: T.RATGame?, st: MarkerStream)
      reads r
    {
      r != null ==> r.stream == st && r.Valid()
    }

    static ghost predicate PostqOk(q: S.PostQuestionnaire?, st: MarkerStream)
      reads q
    {
      q != null ==> q.stream == st && q.Valid()
    }

    ghost predicate Valid()
      reads this, conn, rat, postq
    {
      && Config()
      && ConnOk(conn, stream) && RatOk(rat, stream) && PostqOk(postq, stream)
      && (conn == null ==> rat == null && rest.forPuzzle == 0 && pendingCompletes == 0)
      && (rat == null ==> postq == null)
      && (rest.forPuzzle == 0 ==> !rest.active)
      && rest.timer == rest.active
      && (rest.active ==> rest.remaining < R.RestSeconds)
      && (rest.choice.Some? ==> R.IsRating(rest.choice.value))
      && (lastOnNext.Some? ==> Enabled(lastOnNext.value))
      && (returnAction.Some? ==> Enabled(returnAction.value))
    }

    /** __init__ and show_player_id_screen: nothing recorded, the ID entry waiting. */
    constructor (allGroups: seq<C.Group>, draws: nat -> Draw)
      requires C.FourMembers(allGroups) && forall i :: ValidDraw(draws(i), |allGroups|)
      ensures Valid() && fresh(stream)
      ensures stream.log == [] && stream.playerId == None
      ensures lastOnNext == Some(SubmitId) && returnAction == Some(SubmitId)
      ensures rest.completed == 0 && rest.ratings == [] && !rest.active
      ensures conn == null && rat == null && postq == null
    {
      stream := new MarkerStream();
      this.allGroups := allGroups;
      this.draws := draws;
      drawCount := 0;
      rest := R.RestState(false, 0, None, 0, false, 0, []);
      conn := null;
      rat := null;
      postq := null;
      pendingCompletes := 0;
      closed := false;
      lastOnNext := Some(SubmitId);
      returnAction := Some(SubmitId);
    }

    /** center_message_screen: store the screen's callback for '.' and Enter/Return. */
    method CenterMessage(a: Action)
      modifies this
      ensures lastOnNext == Some(a) && returnAction == Some(a)
      ensures rest == old(rest) && drawCount == old(drawCount)
      ensures conn == old(conn) && rat == old(rat) && postq == old(postq)
      ensures pendingCompletes == old(pendingCompletes) && closed == old(closed)
    {
      lastOnNext := Some(a);
      returnAction := Some(a);
    }

    /** The ID screen's submit: a blank ID (after strip) is ignored; otherwise record the
        ID, send Session_Start and show the intro. */
    method Submit(entry: string)
      requires Valid()
      modifies this, stream
      ensures Valid()
      ensures AcceptedId(entry).None? ==>
        stream.log == old(stream.log) && stream.playerId == old(stream.playerId)
          && lastOnNext == old(lastOnNext) && returnAction == old(returnAction)
      ensures AcceptedId(entry).Some? ==>
        && stream.playerId == AcceptedId(entry)
        && stream.log == old(stream.log) + [Marker(stream.playerId, SessionStart)]
        && lastOnNext == Some(ShowConnectionsInstructions) && returnAction == Some(ShowConnectionsInstructions)
      ensures rest == old(rest)
      ensures conn == old(conn) && rat == old(rat) && postq == old(postq)
    {
      var pid := AcceptedId(entry);
      if pid.None? {
        return;
      }
      stream.playerId := pid;
      stream.Send(SessionStart);
      CenterMessage(ShowConnectionsInstructions);
    }

    /** A new ConnectionsGame for puzzle k, built from the next draw. */
    method NewPuzzle(k: nat)
      requires Config()
      modifies this, stream
      ensures fresh(conn) && conn.Valid() && conn.stream == stream && conn.puzzleIndex == k
      ensures drawCount == old(drawCount) + 1
      ensures rest == old(rest)
      ensures lastOnNext == old(lastOnNext) && returnAction == old(returnAction)
      ensures rat == old(rat) && postq == old(postq)
      ensures pendingCompletes == old(pendingCompletes) && closed == old(closed)
      ensures stream.playerId == old(stream.playerId)
      ensures stream.log == old(stream.log) + [Marker(stream.playerId, ConnStart(k))]
    {
      var d := draws(drawCount);
      drawCount := drawCount + 1;
      conn := new C.ConnectionsGame(k, allGroups, d.picks, d.perm, stream);
    }

    /** Runs a stored callback (from '.' or Enter/Return). */
    method Invoke(a: Action, entry: string)
      requires Valid() && Enabled(a) && !closed
      modifies this, stream, conn, rat, postq
      ensures Valid()
      ensures old(stream.log) <= stream.log
      ensures a != SubmitId ==> stream.playerId == old(stream.playerId)
      ensures a == SubmitId ==>
        (AcceptedId(entry).None? ==> stream.log == old(stream.log) && stream.playerId == old(stream.playerId))
      ensures a == SubmitId && AcceptedId(entry).Some? ==>
        && stream.playerId == AcceptedId(entry)
        && stream.log == old(stream.log) + [Marker(stream.playerId, SessionStart)]
        && lastOnNext == Some(ShowConnectionsInstructions) && returnAction == Some(ShowConnectionsInstructions)
      ensures a == ShowConnectionsInstructions ==>
        lastOnNext == Some(StartConnectionsGame) && returnAction == Some(StartConnectionsGame) && stream.log == old(stream.log)
      ensures a == StartConnectionsGame ==>
        && rest.completed == 0 && lastOnNext == None && returnAction == None
        && fresh(conn) && conn.puzzleIndex == 1
        && stream.log == old(stream.log) + [Marker(stream.playerId, ConnStart(1))]
      ensures a == StartRatTask ==>
        && lastOnNext == None && returnAction == None && fresh(rat)
        && stream.log == old(stream.log) + [Marker(stream.playerId, RatStart(1))]
      ensures a == ShowPostQuestions ==>
        && fresh(postq) && postq.index == 0 && lastOnNext == Some(SkipQuestion)
        && returnAction == old(returnAction)
        && stream.log == old(stream.log) + [Marker(stream.playerId, SurveyStart)]
      ensures a == EndConnectionsRest ==>
        && rest == R.End(old(rest)).state
        && stream.log == old(stream.log)
          + MarkerLines(stream.playerId, R.End(old(rest)).labels + NextLabels(R.End(old(rest)).next))
      ensures a == EndConnectionsRest && R.End(old(rest)).next.NextPuzzle? ==>
        && fresh(conn) && conn.puzzleIndex == old(rest.completed) + 1
        && lastOnNext == old(lastOnNext) && returnAction == old(returnAction)
      ensures a == EndConnectionsRest && R.End(old(rest)).next == R.RatInstructions ==>
        lastOnNext == Some(StartRatTask) && returnAction == Some(StartRatTask)
      ensures a == SkipQuestion ==>
        && postq == old(postq) && postq.index == S.Skip(old(postq.index)).index
        && stream.log == old(stream.log)
          + MarkerLines(stream.playerId, S.Skip(old(postq.index)).labels
              + if S.Skip(old(postq.index)).completes then [SurveyEnd] else [])
      ensures a == CloseWindow ==> closed && stream.log == old(stream.log)
    {
      match a
      case SubmitId =>
        Submit(entry);
      case ShowConnectionsInstructions =>
        CenterMessage(StartConnectionsGame);
      case StartConnectionsGame =>
        StartConnectionsStage();
      case StartRatTask =>
        StartRatStage();
      case ShowPostQuestions =>
        StartQuestionnaire();
      case EndConnectionsRest =>
        EndConnectionsRestNow();
      case SkipQuestion =>
        SkipCurrentQuestion();
      case CloseWindow =>
        closed := true;
    }

    /** start_connections_game: unbind the keys, reset the count, puzzle 1. */
    method StartConnectionsStage()
      requires Valid()
      modifies this, stream
      ensures Valid()
      ensures rest == old(rest).(completed := 0) && lastOnNext == None && returnAction == None
      ensures fresh(conn) && conn.puzzleIndex == 1 && drawCount == old(drawCount) + 1
      ensures rat == old(rat) && postq == old(postq)
      ensures pendingCompletes == old(pendingCompletes) && closed == old(closed)
      ensures stream.playerId == old(stream.playerId)
      ensures stream.log == old(stream.log) + [Marker(stream.playerId, ConnStart(1))]
    {
      returnAction := None;
      lastOnNext := None;
      rest := rest.(completed := 0);
      NewPuzzle(1);
    }

    /** start_rat_task: unbind the keys and start the RAT, which sends RAT_Start for item 1. */
    method StartRatStage()
      requires Valid() && conn != null
      modifies this, stream
      ensures Valid()
      ensures lastOnNext == None && returnAction == None && fresh(rat)
      ensures rest == old(rest) && conn == old(conn) && postq == old(postq) && drawCount == old(drawCount)
      ensures pendingCompletes == old(pendingCompletes) && closed == old(closed)
      ensures stream.playerId == old(stream.playerId)
      ensures stream.log == old(stream.log) + [Marker(stream.playerId, RatStart(1))]
    {
      returnAction := None;
      lastOnNext := None;
      rat := new T.RATGame(stream);
    }

    /** show_post_questions: PostQ_Start, then the first question with '.' bound to skip it.
        Enter/Return is not unbound, so it runs show_post_questions again. */
    method StartQuestionnaire()
      requires Valid() && rat != null
      modifies this, stream
      ensures Valid()
      ensures fresh(postq) && postq.index == 0 && lastOnNext == Some(SkipQuestion)
      ensures returnAction == old(returnAction)
      ensures rest == old(rest) && conn == old(conn) && rat == old(rat) && drawCount == old(drawCount)
      ensures pendingCompletes == old(pendingCompletes) && closed == old(closed)
      ensures stream.playerId == old(stream.playerId)
      ensures stream.log == old(stream.log) + [Marker(stream.playerId, SurveyStart)]
    {
      stream.Send(SurveyStart);
      postq := new S.PostQuestionnaire(stream);
      lastOnNext := Some(SkipQuestion);
    }

    /** _master_skip: exactly one branch, in priority order; a stored callback is cleared
        before it runs. */
    method MasterSkip(entry: string) returns (route: Route)
      requires Valid() && !closed
      modifies this, stream, conn, rat, postq
      ensures Valid()
      ensures route == SkipRoute(old(lastOnNext).Some?, old(rest.active), old(conn) != null, old(rat) != null, old(postq) != null)
      ensures route != AdvanceRat && route != SkipSurveyQuestion
      ensures old(stream.log) <= stream.log
      ensures old(lastOnNext) != Some(SubmitId) ==> stream.playerId == old(stream.playerId)
      ensures route == EndRest && R.End(old(rest)).next.NextPuzzle? ==>
        lastOnNext == None && returnAction == old(returnAction)
      ensures route == EndRest && R.End(old(rest)).next == R.RatInstructions ==>
        lastOnNext == Some(StartRatTask) && returnAction == Some(StartRatTask)
      ensures route == CompletePuzzle ==>
        && lastOnNext == Some(EndConnectionsRest) && returnAction == old(returnAction)
        && conn == old(conn) && drawCount == old(drawCount)
      ensures route == EndRest || route == CompletePuzzle ==>
        && rat == old(rat) && postq == old(postq)
        && pendingCompletes == old(pendingCompletes) && closed == old(closed)
      ensures route == EndRest ==>
        && rest == R.End(old(rest)).state
        && stream.log == old(stream.log)
          + MarkerLines(stream.playerId, R.End(old(rest)).labels + NextLabels(R.End(old(rest)).next))
      ensures route == RunStoredAction && old(lastOnNext) == Some(EndConnectionsRest) ==>
        && rest == R.End(old(rest)).state
        && stream.log == old(stream.log)
          + MarkerLines(stream.playerId, R.End(old(rest)).labels + NextLabels(R.End(old(rest)).next))
      ensures route == CompletePuzzle ==>
        && rest == R.PuzzleComplete(old(rest)).state
        && stream.log == old(stream.log) + MarkerLines(stream.playerId, R.PuzzleComplete(old(rest)).labels)
    {
      route := SkipRoute(lastOnNext.Some?, rest.active, conn != null, rat != null, postq != null);
      if lastOnNext.Some? {
        var a := lastOnNext.value;
        lastOnNext := None;
        Invoke(a, entry);
      } else if rest.active {
        EndConnectionsRestNow();
      } else if conn != null {
        PuzzleComplete();
      } else if rat != null {
        // A RAT exists only once a puzzle game does: this branch cannot run.
        assert false;
      } else if postq != null {
        // A questionnaire exists only once a RAT does: this branch cannot run.
        assert false;
      }
    }

    /** Enter/Return: the bound callback, if any (the binding is not cleared). */
    method PressReturn(entry: string)
      requires Valid() && !closed
      modifies this, stream, conn, rat, postq
      ensures Valid()
      ensures old(stream.log) <= stream.log
      ensures old(returnAction) != Some(SubmitId) ==> stream.playerId == old(stream.playerId)
      ensures old(returnAction).None? ==>
        && stream.log == old(stream.log) && rest == old(rest)
        && lastOnNext == old(lastOnNext) && returnAction == old(returnAction)
        && conn == old(conn) && rat == old(rat) && postq == old(postq)
        && drawCount == old(drawCount) && pendingCompletes == old(pendingCompletes) && closed == old(closed)
      ensures old(returnAction) == Some(ShowPostQuestions) ==>
        && fresh(postq) && postq.index == 0 && returnAction == Some(ShowPostQuestions)
        && stream.log == old(stream.log) + [Marker(stream.playerId, SurveyStart)]
    {
      if returnAction.Some? {
        Invoke(returnAction.value, entry);
      }
    }

    // ------------------------------------------------------------ Connections stage

    /** A click on tile idx of the current puzzle. */
    method ClickTile(idx: nat)
      requires Valid() && !closed && conn != null && idx < |conn.tiles|
      modifies this, conn, stream
      ensures Valid() && conn == old(conn)
      ensures conn.State() == C.Toggle(old(conn.State()), conn.puzzleIndex, idx).board
      ensures pendingCompletes == old(pendingCompletes) + (if C.Toggle(old(conn.State()), conn.puzzleIndex, idx).completes then 1 else 0)
      ensures stream.playerId == old(stream.playerId)
      ensures stream.log == old(stream.log) + MarkerLines(stream.playerId, C.Toggle(old(conn.State()), conn.puzzleIndex, idx).labels)
      ensures rest == old(rest) && rat == old(rat) && postq == old(postq)
      ensures lastOnNext == old(lastOnNext) && returnAction == old(returnAction)
      ensures drawCount == old(drawCount) && closed == old(closed)
    {
      var completes := conn.ToggleTile(idx);
      if completes {
        ScheduleComplete();
      }
    }

    /** root.after(2500, on_complete): one more pending on_connections_puzzle_complete. */
    method ScheduleComplete()
      requires Valid() && conn != null
      modifies this
      ensures Valid() && pendingCompletes == old(pendingCompletes) + 1
      ensures rest == old(rest) && conn == old(conn) && rat == old(rat) && postq == old(postq)
      ensures lastOnNext == old(lastOnNext) && returnAction == old(returnAction)
      ensures drawCount == old(drawCount) && closed == old(closed)
    {
      pendingCompletes := pendingCompletes + 1;
    }

    /** The Deselect All button of the current puzzle. */
    method DeselectAll()
      requires Valid() && !closed && conn != null
      modifies conn
      ensures Valid() && conn.State() == old(conn.State()).(selected := [])
    {
      conn.DeselectAll();
    }

    /** A scheduled on_connections_puzzle_complete fires, 2500 ms after a correct group. */
    method FirePuzzleComplete()
      requires Valid() && !closed && pendingCompletes > 0
      modifies this, stream
      ensures Valid()
      ensures pendingCompletes == old(pendingCompletes) - 1
      ensures rest == R.PuzzleComplete(old(rest)).state
      ensures lastOnNext == Some(EndConnectionsRest) && returnAction == old(returnAction)
      ensures conn == old(conn) && rat == old(rat) && postq == old(postq)
      ensures drawCount == old(drawCount) && closed == old(closed)
      ensures stream.playerId == old(stream.playerId)
      ensures stream.log == old(stream.log) + MarkerLines(stream.playerId, R.PuzzleComplete(old(rest)).labels)
    {
      pendingCompletes := pendingCompletes - 1;
      PuzzleComplete();
    }

    /** on_connections_puzzle_complete: count the puzzle, start its rest. */
    method PuzzleComplete()
      requires Valid() && conn != null
      modifies this, stream
      ensures Valid()
      ensures rest == R.PuzzleComplete(old(rest)).state
      ensures stream.playerId == old(stream.playerId)
      ensures stream.log == old(stream.log) + [Marker(stream.playerId, ConnRestStart(rest.completed))]
      ensures lastOnNext == Some(EndConnectionsRest) && returnAction == old(returnAction)
      ensures conn == old(conn) && rat == old(rat) && postq == old(postq) && pendingCompletes == old(pendingCompletes)
      ensures drawCount == old(drawCount) && closed == old(closed)
    {
      stream.Send(ConnRestStart(rest.completed + 1));
      BeginRest();
    }

    /** The state changes of on_connections_puzzle_complete and _start_connections_rest. */
    method BeginRest()
      requires Valid() && conn != null
      modifies this
      ensures Valid()
      ensures rest == R.PuzzleComplete(old(rest)).state
      ensures lastOnNext == Some(EndConnectionsRest) && returnAction == old(returnAction)
      ensures conn == old(conn) && rat == old(rat) && postq == old(postq) && pendingCompletes == old(pendingCompletes)
      ensures drawCount == old(drawCount) && closed == old(closed)
    {
      RestStates(rest);
      // The rest starts at 15 seconds and its first tick, run at once, counts down to 14.
      rest := rest.(completed := rest.completed + 1, forPuzzle := rest.completed + 1,
        active := true, remaining := R.RestSeconds - 1, timer := true, choice := None);
      lastOnNext := Some(EndConnectionsRest);
    }

    /** _tick_connections_rest fires. */
    method TickRest()
      requires Valid() && !closed
      modifies this, stream
      ensures Valid()
      ensures rest == R.Tick(old(rest)).state
      ensures stream.playerId == old(stream.playerId)
      ensures stream.log == old(stream.log)
        + MarkerLines(stream.playerId, R.Tick(old(rest)).labels + NextLabels(R.Tick(old(rest)).next))
      ensures R.Tick(old(rest)).next != R.RatInstructions ==>
        lastOnNext == old(lastOnNext) && returnAction == old(returnAction)
      ensures R.Tick(old(rest)).next == R.RatInstructions ==>
        lastOnNext == Some(StartRatTask) && returnAction == Some(StartRatTask)
    {
      if !rest.active {
        assert R.Tick(rest).labels == [] && R.Tick(rest).next == R.Stay;
        return;
      }
      if rest.remaining > 0 {
        rest := rest.(remaining := rest.remaining - 1, timer := true);
      } else {
        EndConnectionsRestNow();
      }
    }

    /** _conn_select_rating(v), from the rating buttons 1..5. */
    method SelectRating(v: nat)
      requires Valid() && !closed && R.IsRating(v)
      modifies this, stream
      ensures Valid()
      ensures rest == R.Select(old(rest), v).state
      ensures stream.playerId == old(stream.playerId)
      ensures stream.log == old(stream.log) + MarkerLines(stream.playerId, R.Select(old(rest), v).labels)
      ensures lastOnNext == old(lastOnNext) && returnAction == old(returnAction)
      ensures conn == old(conn) && rat == old(rat) && postq == old(postq)
      ensures drawCount == old(drawCount) && pendingCompletes == old(pendingCompletes) && closed == old(closed)
    {
      if !rest.active || rest.choice.Some? {
        return;
      }
      rest := rest.(choice := Some(v));
      stream.Send(ConnRating(rest.forPuzzle, Some(v)));
    }

    /** _end_connections_rest: also reachable through a stale stored callback after the
        rest already ended on its own. */
    method EndConnectionsRestNow()
      requires Valid() && rest.forPuzzle > 0
      modifies this, stream
      ensures Valid()
      ensures rest == R.End(old(rest)).state
      ensures stream.playerId == old(stream.playerId)
      ensures stream.log == old(stream.log)
        + MarkerLines(stream.playerId, R.End(old(rest)).labels + NextLabels(R.End(old(rest)).next))
      ensures R.End(old(rest)).next.NextPuzzle? ==>
        && fresh(conn) && conn.puzzleIndex == old(rest.completed) + 1
        && lastOnNext == old(lastOnNext) && returnAction == old(returnAction)
      ensures R.End(old(rest)).next == R.RatInstructions ==>
        lastOnNext == Some(StartRatTask) && returnAction == Some(StartRatTask) && conn == old(conn)
      ensures rat == old(rat) && postq == old(postq)
      ensures pendingCompletes == old(pendingCompletes) && closed == old(closed)
    {
      ghost var step := R.End(rest);
      MarkerLinesAppend(stream.playerId, step.labels, NextLabels(step.next));
      EndMarkers(stream.playerId, rest);
      CloseRest();
      if rest.completed < R.PuzzleCount {
        NewPuzzle(rest.completed + 1);
      } else {
        CenterMessage(StartRatTask);
      }
    }

    /** The first half of end_connections_rest: NoResponse when nothing was chosen, the
        choice recorded, the tick cancelled, Rest_End. */
    method CloseRest()
      modifies this, stream
      ensures rest == R.End(old(rest)).state
      ensures stream.playerId == old(stream.playerId)
      ensures stream.log == old(stream.log) + MarkerLines(stream.playerId, R.End(old(rest)).labels)
      ensures conn == old(conn) && rat == old(rat) && postq == old(postq)
      ensures lastOnNext == old(lastOnNext) && returnAction == old(returnAction)
      ensures drawCount == old(drawCount) && pendingCompletes == old(pendingCompletes) && closed == old(closed)
    {
      EndMarkers(stream.playerId, rest);
      if rest.choice.None? {
        stream.Send(ConnRating(rest.forPuzzle, None));
      }
      rest := rest.(timer := false, ratings := rest.ratings + [rest.choice], active := false);
      stream.Send(ConnRestEnd(rest.forPuzzle));
    }

    // ------------------------------------------------------------ RAT stage

    /** show_congratulations, the RAT's on_complete. */
    method Congratulate()
      requires rat != null
      modifies this
      ensures lastOnNext == Some(ShowPostQuestions) && returnAction == Some(ShowPostQuestions)
      ensures rest == old(rest)
      ensures conn == old(conn) && rat == old(rat) && postq == old(postq)
      ensures drawCount == old(drawCount) && pendingCompletes == old(pendingCompletes) && closed == old(closed)
    {
      CenterMessage(ShowPostQuestions);
    }

    /** The RAT's think countdown fires. */
    method RatThinkTick()
      requires Valid() && !closed && rat != null
      modifies rat
      ensures Valid() && rat.State() == T.ThinkTick(old(rat.State())).state
    {
      rat.TickThink();
    }

    /** The RAT's rest countdown fires. */
    method RatRestTick()
      requires Valid() && !closed && rat != null
      modifies this, rat, stream
      ensures Valid() && rat == old(rat)
      ensures rat.State() == T.RestTick(old(rat.State())).state
      ensures stream.log == old(stream.log) + MarkerLines(stream.playerId, T.RestTick(old(rat.State())).labels)
      ensures stream.playerId == old(stream.playerId)
      ensures T.RestTick(old(rat.State())).completes ==>
        lastOnNext == Some(ShowPostQuestions) && returnAction == Some(ShowPostQuestions)
      ensures !T.RestTick(old(rat.State())).completes ==>
        lastOnNext == old(lastOnNext) && returnAction == old(returnAction)
      ensures rest == old(rest) && conn == old(conn) && postq == old(postq)
      ensures drawCount == old(drawCount) && pendingCompletes == old(pendingCompletes) && closed == old(closed)
    {
      var finished := rat.TickRest();
      if finished {
        Congratulate();
      }
    }

    /** Y (knew) or N (!knew) during the RAT. */
    method RatKey(knew: bool)
      requires Valid() && !closed && rat != null
      modifies rat, stream
      ensures Valid()
      ensures rat.State() == T.Respond(old(rat.State()), knew).state
      ensures stream.playerId == old(stream.playerId)
      ensures stream.log == old(stream.log) + MarkerLines(stream.playerId, T.Respond(old(rat.State()), knew).labels)
      ensures !T.Respond(old(rat.State()), knew).completes
    {
      // An answer starts a fresh 15-second rest, so the RAT never completes here.
      var finished := rat.Answer(knew);
    }

    // ------------------------------------------------------------ questionnaire

    /** final_thanks_and_exit, the questionnaire's on_complete. */
    method FinalThanks()
      requires Valid() && postq != null
      modifies this, stream
      ensures Valid()
      ensures lastOnNext == Some(CloseWindow) && returnAction == Some(CloseWindow)
      ensures conn == old(conn) && rat == old(rat) && postq == old(postq)
      ensures rest == old(rest) && stream.playerId == old(stream.playerId)
      ensures stream.log == old(stream.log) + [Marker(stream.playerId, SurveyEnd)]
      ensures drawCount == old(drawCount) && pendingCompletes == old(pendingCompletes) && closed == old(closed)
    {
      stream.Send(SurveyEnd);
      CenterMessage(CloseWindow);
    }

    /** skip_current, run through the stored callback. */
    method SkipCurrentQuestion()
      requires Valid() && postq != null
      modifies this, stream, postq
      ensures Valid() && postq == old(postq)
      ensures postq.index == S.Skip(old(postq.index)).index
      ensures stream.playerId == old(stream.playerId)
      ensures stream.log == old(stream.log)
        + MarkerLines(stream.playerId, S.Skip(old(postq.index)).labels
            + if S.Skip(old(postq.index)).completes then [SurveyEnd] else [])
      ensures old(postq.index) < S.QuestionCount && !S.Skip(old(postq.index)).completes ==>
        lastOnNext == Some(SkipQuestion) && returnAction == old(returnAction)
      ensures S.Skip(old(postq.index)).completes ==>
        lastOnNext == Some(CloseWindow) && returnAction == Some(CloseWindow)
      ensures old(postq.index) >= S.QuestionCount ==>
        lastOnNext == old(lastOnNext) && returnAction == old(returnAction)
      ensures rest == old(rest) && conn == old(conn) && rat == old(rat)
      ensures drawCount == old(drawCount) && pendingCompletes == old(pendingCompletes) && closed == old(closed)
    {
      if postq.index < S.QuestionCount {
        var finished := postq.SkipCurrent();
        ghost var mid := stream.log;
        if finished {
          FinalThanks();
        } else {
          lastOnNext := Some(SkipQuestion);
        }
        MarkerLinesAppend(stream.playerId, S.Skip(old(postq.index)).labels,
          if S.Skip(old(postq.index)).completes then [SurveyEnd] else []);
      }
    }

    /** A rating button 1..5 of the shown question. */
    method AnswerQuestion(v: nat)
      requires Valid() && !closed && postq != null && postq.index < S.QuestionCount
      modifies this, stream, postq
      ensures Valid() && postq == old(postq)
      ensures postq.index == S.Record(old(postq.index), v).index
      ensures stream.log == old(stream.log)
        + MarkerLines(stream.playerId, S.Record(old(postq.index), v).labels
            + if S.Record(old(postq.index), v).completes then [SurveyEnd] else [])
      ensures stream.playerId == old(stream.playerId)
      ensures !S.Record(old(postq.index), v).completes ==>
        lastOnNext == Some(SkipQuestion) && returnAction == old(returnAction)
      ensures S.Record(old(postq.index), v).completes ==>
        lastOnNext == Some(CloseWindow) && returnAction == Some(CloseWindow)
      ensures rest == old(rest) && conn == old(conn) && rat == old(rat)
      ensures drawCount == old(drawCount) && pendingCompletes == old(pendingCompletes) && closed == old(closed)
    {
      var finished := postq.RecordResponse(v);
      if finished {
        FinalThanks();
      } else {
        lastOnNext := Some(SkipQuestion);
      }
      MarkerLinesAppend(stream.playerId, S.Record(old(postq.index), v).labels,
        if S.Record(old(postq.index), v).completes then [SurveyEnd] else []);
    }
  }
}
