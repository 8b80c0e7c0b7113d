/** One Connections puzzle (class ConnectionsGame): 16 tiles from 4 groups, a
    selection of at most 4 tiles, and the check that runs when the 4th is picked.

    The value-level `Board` and the functions `NewBoard`, `Toggle`, `Evaluate`
    and `Play` state what the puzzle does; the class keeps the same fields and
    its methods change them step by step, each proved equal to those functions. */
module Connections {
  import opened Markers

  datatype Tile = Tile(text: string, group: string, matched: bool)

  /** An entry of the puzzle file: a category label and its member words. */
  datatype Group = Group(category: string, members: seq<string>)

  /** The puzzle's mutable state: tiles, selected tile indices (in click order), guesses so far. */
  datatype Board = Board(tiles: seq<Tile>, selected: seq<nat>, guessCount: nat)

  /** What one input does: the new board, the labels sent, and whether a correct
      group scheduled the 2500 ms `on_complete` callback. */
  datatype Outcome = Outcome(board: Board, labels: seq<Label>, completes: bool)

  const GroupsPerPuzzle: nat := 4
  const GroupSize: nat := 4
  const TileCount: nat := 16
  const SelectionSize: nat := 4

  // ---------------------------------------------------------------- building a puzzle

  /** The puzzle file lists four members per group. */
  predicate FourMembers(all: seq<Group>) {
    forall i :: 0 <= i < |all| ==> |all[i].members| == GroupSize
  }

  /** What random.sample(all_groups, 4) may return: 4 distinct positions. */
  predicate IsSample(picks: seq<nat>, n: nat) {
    && |picks| == GroupsPerPuzzle
    && (forall i :: 0 <= i < |picks| ==> picks[i] < n)
    && (forall i, j :: 0 <= i < j < |picks| ==> picks[i] != picks[j])
  }

  function Sample(all: seq<Group>, picks: seq<nat>): seq<Group>
    requires forall i :: 0 <= i < |picks| ==> picks[i] < |all|
  {
    seq(|picks|, i requires 0 <= i < |picks| => all[picks[i]])
  }

  /** A reordering of 0..n-1, as random.shuffle applies one. */
  predicate IsPermutation(perm: seq<nat>, n: nat) {
    && |perm| == n
    && (forall i :: 0 <= i < n ==> perm[i] < n)
    && (forall i, j :: 0 <= i < j < n ==> perm[i] != perm[j])
    && (forall v :: 0 <= v < n ==> v in perm)
  }

  /** Position i of the result holds element perm[i] of s. */
  function Shuffle<T>(s: seq<T>, perm: seq<nat>): seq<T>
    requires IsPermutation(perm, |s|)
  {
    seq(|perm|, i requires 0 <= i < |perm| => s[perm[i]])
  }

  function GroupTiles(g: Group): seq<Tile> {
    seq(|g.members|, j requires 0 <= j < |g.members| => Tile(g.members[j], g.category, false))
  }

  /** The list comprehension over groups and members: one unmatched tile per member. */
  function Layout(groups: seq<Group>): seq<Tile> {
    if groups == [] then [] else GroupTiles(groups[0]) + Layout(groups[1..])
  }

  lemma {:induction false} LayoutSize(groups: seq<Group>)
    requires FourMembers(groups)
    ensures |Layout(groups)| == GroupSize * |groups|
  {
    if groups != [] {
      LayoutSize(groups[1..]);
    }
  }

  /** Tile k is member k % 4 of group k / 4, unmatched. */
  lemma {:induction false} LayoutAt(groups: seq<Group>, k: nat)
    requires FourMembers(groups)
    requires k < GroupSize * |groups|
    ensures |Layout(groups)| == GroupSize * |groups|
    ensures Layout(groups)[k] == Tile(groups[k / 4].members[k % 4], groups[k / 4].category, false)
  {
    LayoutSize(groups);
    if k >= GroupSize {
      LayoutAt(groups[1..], k - GroupSize);
      assert groups[1..][(k - GroupSize) / 4] == groups[k / 4];
    }
  }

  lemma RemoveAt<T>(s: seq<T>, k: nat)
    requires k < |s|
    ensures multiset(s) == multiset(s[..k] + s[k + 1..]) + multiset{s[k]}
  {
    assert s == s[..k] + [s[k]] + s[k + 1..];
  }

  /** Dropping the position that holds the largest value leaves a permutation of 0..n-2. */
  lemma DropLargest(perm: seq<nat>, n: nat, k: nat)
    requires n > 0 && IsPermutation(perm, n) && k < n && perm[k] == n - 1
    ensures IsPermutation(perm[..k] + perm[k + 1..], n - 1)
  {
    var perm' := perm[..k] + perm[k + 1..];
    assert forall i :: 0 <= i < n - 1 ==> perm'[i] == (if i < k then perm[i] else perm[i + 1]);
    forall v | 0 <= v < n - 1 ensures v in perm' {
      assert v in perm;
      var i :| 0 <= i < n && perm[i] == v;
      if i < k { assert perm'[i] == v; } else { assert perm'[i - 1] == v; }
    }
  }

  lemma ShuffleDrop<T>(s: seq<T>, perm: seq<nat>, k: nat)
    requires |s| > 0 && IsPermutation(perm, |s|) && k < |s| && perm[k] == |s| - 1
    requires IsPermutation(perm[..k] + perm[k + 1..], |s| - 1)
    ensures Shuffle(s[..|s| - 1], perm[..k] + perm[k + 1..]) == Shuffle(s, perm)[..k] + Shuffle(s, perm)[k + 1..]
  {
    var perm' := perm[..k] + perm[k + 1..];
    assert forall i :: 0 <= i < |s| - 1 ==> perm'[i] == (if i < k then perm[i] else perm[i + 1]);
  }

  /** Shuffling by a permutation keeps exactly the same elements. */
  lemma {:induction false} ShuffleKeepsElements<T>(s: seq<T>, perm: seq<nat>)
    requires IsPermutation(perm, |s|)
    ensures multiset(Shuffle(s, perm)) == multiset(s)
    decreases |s|
  {
    var n := |s|;
    if n > 0 {
      assert n - 1 in perm;
      var k :| 0 <= k < n && perm[k] == n - 1;
      DropLargest(perm, n, k);
      var perm' := perm[..k] + perm[k + 1..];
      ShuffleKeepsElements(s[..n - 1], perm');
      ShuffleDrop(s, perm, k);
      var sh := Shuffle(s, perm);
      RemoveAt(sh, k);
      assert sh[k] == s[n - 1];
      assert s == s[..n - 1] + [s[n - 1]];
    }
  }

  /** start_new_puzzle: the 4 sampled groups laid out as tiles and shuffled; nothing selected. */
  function NewBoard(all: seq<Group>, picks: seq<nat>, perm: seq<nat>): (b: Board)
    requires FourMembers(all) && IsSample(picks, |all|) && IsPermutation(perm, TileCount)
    ensures |b.tiles| == TileCount && b.selected == [] && b.guessCount == 0
    ensures multiset(b.tiles) == multiset(Layout(Sample(all, picks)))
    ensures forall k :: 0 <= k < |b.tiles| ==> !b.tiles[k].matched
  {
    var groups := Sample(all, picks);
    LayoutSize(groups);
    var tiles := Layout(groups);
    ShuffleKeepsElements(tiles, perm);
    var b := Board(Shuffle(tiles, perm), [], 0);
    assert forall k :: 0 <= k < |b.tiles| ==> !b.tiles[k].matched by {
      forall k | 0 <= k < |b.tiles| ensures !b.tiles[k].matched {
        LayoutAt(groups, perm[k]);
      }
    }
    b
  }

  // ---------------------------------------------------------------- selection and checking

  predicate InRange(b: Board) {
    forall k :: 0 <= k < |b.selected| ==> b.selected[k] < |b.tiles|
  }

  /** What holds between inputs: fewer than 4 selected, no index twice, none of them matched. */
  predicate Inv(b: Board) {
    && InRange(b)
    && |b.selected| < SelectionSize
    && (forall i, j :: 0 <= i < j < |b.selected| ==> b.selected[i] != b.selected[j])
    && (forall k :: 0 <= k < |b.selected| ==> !b.tiles[b.selected[k]].matched)
  }

  /** Position of the first occurrence of x. */
  function IndexOf(s: seq<nat>, x: nat): (k: nat)
    requires x in s
    ensures k < |s| && s[k] == x && x !in s[..k]
  {
    if s[0] == x then 0 else 1 + IndexOf(s[1..], x)
  }

  /** Python's list.remove(x): drop the first occurrence. */
  function RemoveFirst(s: seq<nat>, x: nat): (r: seq<nat>)
    requires x in s
    ensures multiset(r) == multiset(s) - multiset{x}
  {
    var k := IndexOf(s, x);
    RemoveAt(s, k);
    s[..k] + s[k + 1..]
  }

  /** Python's all(g == first for g in gs). */
  function AllMatch(gs: seq<string>, first: string): bool {
    gs == [] || (gs[0] == first && AllMatch(gs[1..], first))
  }

  lemma {:induction false} AllMatchMeansEveryOne(gs: seq<string>, first: string)
    ensures AllMatch(gs, first) <==> forall k :: 0 <= k < |gs| ==> gs[k] == first
  {
    if gs != [] {
      AllMatchMeansEveryOne(gs[1..], first);
      assert forall k :: 1 <= k < |gs| ==> gs[k] == gs[1..][k - 1];
    }
  }

  /** The group labels of the selected tiles, in selection order. */
  function SelectedGroups(b: Board): seq<string>
    requires InRange(b)
  {
    seq(|b.selected|, k requires 0 <= k < |b.selected| => b.tiles[b.selected[k]].group)
  }

  /** The guess is correct: every selected tile has the first selected tile's group. */
  predicate SameGroup(b: Board)
    requires InRange(b) && |b.selected| > 0
  {
    forall k :: 0 <= k < |b.selected| ==> b.tiles[b.selected[k]].group == b.tiles[b.selected[0]].group
  }

  /** The tiles after `for idx in selected: tiles[idx]["matched"] = True`. */
  function MarkMatched(tiles: seq<Tile>, sel: seq<nat>): seq<Tile> {
    seq(|tiles|, k requires 0 <= k < |tiles| => if k in sel then tiles[k].(matched := true) else tiles[k])
  }

  lemma SelectedGroupsAgree(b: Board)
    requires InRange(b) && |b.selected| > 0
    ensures AllMatch(SelectedGroups(b), SelectedGroups(b)[0]) <==> SameGroup(b)
  {
    var gs := SelectedGroups(b);
    AllMatchMeansEveryOne(gs, gs[0]);
    assert forall k :: 0 <= k < |gs| ==> gs[k] == b.tiles[b.selected[k]].group;
  }

  /** check_selection on a full selection of 4. */
  function Evaluate(b: Board, puzzle: nat): (o: Outcome)
    requires InRange(b) && |b.selected| == SelectionSize
    ensures o.board.guessCount == b.guessCount + 1
    ensures o.board.selected == [] && |o.board.tiles| == |b.tiles|
    ensures o.completes <==> SameGroup(b)
    ensures o.completes ==> o.labels == [ConnGuess(puzzle, o.board.guessCount, true), ConnEnd(puzzle)]
    ensures o.completes ==> o.board.tiles == MarkMatched(b.tiles, b.selected)
    ensures !o.completes ==> o.labels == [ConnGuess(puzzle, o.board.guessCount, false)] && o.board.tiles == b.tiles
  {
    var g := b.guessCount + 1;
    var groups := SelectedGroups(b);
    SelectedGroupsAgree(b);
    if AllMatch(groups, groups[0]) then
      Outcome(Board(MarkMatched(b.tiles, b.selected), [], g), [ConnGuess(puzzle, g, true), ConnEnd(puzzle)], true)
    else
      Outcome(Board(b.tiles, [], g), [ConnGuess(puzzle, g, false)], false)
  }

  /** A correct group marks exactly the selected tiles as matched and changes nothing else. */
  lemma MarkMatchedMarksSelection(tiles: seq<Tile>, sel: seq<nat>)
    ensures |MarkMatched(tiles, sel)| == |tiles|
    ensures forall k :: 0 <= k < |tiles| ==>
      && MarkMatched(tiles, sel)[k].matched == (tiles[k].matched || k in sel)
      && MarkMatched(tiles, sel)[k].text == tiles[k].text
      && MarkMatched(tiles, sel)[k].group == tiles[k].group
  {
  }

  lemma RemoveKeepsInv(b: Board, idx: nat)
    requires Inv(b) && idx in b.selected
    ensures Inv(b.(selected := RemoveFirst(b.selected, idx)))
  {
    var k := IndexOf(b.selected, idx);
    var sel := b.selected[..k] + b.selected[k + 1..];
    assert RemoveFirst(b.selected, idx) == sel;
    forall i | 0 <= i < |sel| ensures sel[i] == b.selected[if i < k then i else i + 1] {
      if i < k {
        assert sel[i] == b.selected[..k][i];
      } else {
        assert sel[i] == b.selected[k + 1..][i - k];
      }
    }
    forall i, j | 0 <= i < j < |sel| ensures sel[i] != sel[j] {
      assert b.selected[if i < k then i else i + 1] != b.selected[if j < k then j else j + 1];
    }
  }

  /** toggle_tile(idx) on a board that keeps the between-inputs invariant. The source's
      branch "already 4 selected, not among them" cannot occur, since 4 are never kept. */
  function Toggle(b: Board, puzzle: nat, idx: nat): (o: Outcome)
    requires Inv(b) && idx < |b.tiles|
    ensures Inv(o.board) && |o.board.tiles| == |b.tiles|
    ensures b.tiles[idx].matched ==> o == Outcome(b, [], false)
    ensures !b.tiles[idx].matched && idx in b.selected ==>
      o.board.tiles == b.tiles && o.board.guessCount == b.guessCount && o.labels == [] && !o.completes
        && multiset(o.board.selected) == multiset(b.selected) - multiset{idx}
    ensures !b.tiles[idx].matched && idx !in b.selected && |b.selected| + 1 < SelectionSize ==>
      o == Outcome(b.(selected := b.selected + [idx]), [], false)
    ensures !b.tiles[idx].matched && idx !in b.selected && |b.selected| + 1 == SelectionSize ==>
      InRange(b.(selected := b.selected + [idx])) && o == Evaluate(b.(selected := b.selected + [idx]), puzzle)
  {
    if b.tiles[idx].matched then Outcome(b, [], false)
    else if idx in b.selected then
      RemoveKeepsInv(b, idx);
      Outcome(b.(selected := RemoveFirst(b.selected, idx)), [], false)
    else if |b.selected| + 1 < SelectionSize then
      Outcome(b.(selected := b.selected + [idx]), [], false)
    else
      Evaluate(b.(selected := b.selected + [idx]), puzzle)
  }

  /** The participant's inputs on the puzzle screen. */
  datatype Input = Click(idx: nat) | ClearSelection

  /** One input, with what it adds to the marker stream. */
  function Apply(b: Board, puzzle: nat, e: Input): (o: Outcome)
    requires Inv(b) && (e.Click? ==> e.idx < |b.tiles|)
    ensures Inv(o.board) && |o.board.tiles| == |b.tiles|
    ensures b.guessCount <= o.board.guessCount
    ensures CountGuesses(o.labels) == o.board.guessCount - b.guessCount
    ensures Numbered(o.labels, b.guessCount)
    ensures EndsFollowCorrect(o.labels, puzzle)
    ensures o.completes <==> ConnEnd(puzzle) in o.labels
  {
    match e
    case Click(idx) =>
      GuessLabels(puzzle, b.guessCount);
      Toggle(b, puzzle, idx)
    case ClearSelection => Outcome(b.(selected := []), [], false)
  }

  /** The labels of one checked guess hold one Guess marker, numbered one past `from`. */
  lemma GuessLabels(puzzle: nat, from: nat)
    ensures CountGuesses([ConnGuess(puzzle, from + 1, false)]) == 1
    ensures Numbered([ConnGuess(puzzle, from + 1, false)], from)
    ensures CountGuesses([ConnGuess(puzzle, from + 1, true), ConnEnd(puzzle)]) == 1
    ensures Numbered([ConnGuess(puzzle, from + 1, true), ConnEnd(puzzle)], from)
  {
    assert [ConnGuess(puzzle, from + 1, true), ConnEnd(puzzle)][1..] == [ConnEnd(puzzle)];
    assert [ConnEnd(puzzle)][1..] == [];
    assert [ConnGuess(puzzle, from + 1, false)][1..] == [];
  }

  predicate ClicksInRange(ins: seq<Input>, n: nat) {
    forall i :: 0 <= i < |ins| && ins[i].Click? ==> ins[i].idx < n
  }

  /** Number of Guess markers among ls. */
  function CountGuesses(ls: seq<Label>): nat {
    if ls == [] then 0 else (if ls[0].ConnGuess? then 1 else 0) + CountGuesses(ls[1..])
  }

  /** The Guess markers in ls carry the numbers from+1, from+2, … in order. */
  predicate Numbered(ls: seq<Label>, from: nat) {
    ls == [] || (if ls[0].ConnGuess? then ls[0].guess == from + 1 && Numbered(ls[1..], from + 1)
                 else Numbered(ls[1..], from))
  }

  /** Every End marker of this puzzle comes right after a correct Guess marker of this puzzle,
      and only this puzzle's markers occur. */
  predicate EndsFollowCorrect(ls: seq<Label>, puzzle: nat) {
    && (forall k :: 0 <= k < |ls| ==> ls[k] == ConnEnd(puzzle) || (ls[k].ConnGuess? && ls[k].puzzle == puzzle))
    && (forall k :: 0 <= k < |ls| && ls[k].ConnEnd? ==> 0 < k && ls[k - 1].ConnGuess? && ls[k - 1].correct)
  }

  lemma {:induction false} LabelsAppend(a: seq<Label>, b: seq<Label>, from: nat)
    ensures CountGuesses(a + b) == CountGuesses(a) + CountGuesses(b)
    ensures Numbered(a + b, from) <==> Numbered(a, from) && Numbered(b, from + CountGuesses(a))
  {
    if a == [] {
      assert a + b == b;
    } else {
      assert (a + b)[0] == a[0];
      assert (a + b)[1..] == a[1..] + b;
      LabelsAppend(a[1..], b, if a[0].ConnGuess? then from + 1 else from);
    }
  }

  lemma EndsAppend(a: seq<Label>, b: seq<Label>, puzzle: nat)
    requires EndsFollowCorrect(a, puzzle) && EndsFollowCorrect(b, puzzle)
    ensures EndsFollowCorrect(a + b, puzzle)
  {
    var ab := a + b;
    assert forall k :: |a| <= k < |ab| ==> ab[k] == b[k - |a|];
    assert forall k :: 0 <= k < |a| ==> ab[k] == a[k];
  }

  /** The labels of consecutive inputs, numbered from g0 then from g1, join into one
      run numbered from g0. */
  lemma JoinLabels(a: seq<Label>, b: seq<Label>, puzzle: nat, g0: nat, g1: nat, g2: nat)
    requires g0 <= g1 <= g2
    requires CountGuesses(a) == g1 - g0 && Numbered(a, g0) && EndsFollowCorrect(a, puzzle)
    requires CountGuesses(b) == g2 - g1 && Numbered(b, g1) && EndsFollowCorrect(b, puzzle)
    ensures CountGuesses(a + b) == g2 - g0 && Numbered(a + b, g0) && EndsFollowCorrect(a + b, puzzle)
    ensures ConnEnd(puzzle) in a + b <==> ConnEnd(puzzle) in a || ConnEnd(puzzle) in b
  {
    LabelsAppend(a, b, g0);
    EndsAppend(a, b, puzzle);
  }

  /** A run of inputs on one puzzle: final board, every label sent, and whether any
      correct group scheduled `on_complete`. */
  function Play(b: Board, puzzle: nat, ins: seq<Input>): (o: Outcome)
    requires Inv(b) && ClicksInRange(ins, |b.tiles|)
    ensures Inv(o.board) && |o.board.tiles| == |b.tiles|
    ensures b.guessCount <= o.board.guessCount
    ensures CountGuesses(o.labels) == o.board.guessCount - b.guessCount
    ensures Numbered(o.labels, b.guessCount)
    ensures EndsFollowCorrect(o.labels, puzzle)
    ensures o.completes <==> ConnEnd(puzzle) in o.labels
    decreases |ins|
  {
    if ins == [] then Outcome(b, [], false)
    else
      var first := Apply(b, puzzle, ins[0]);
      assert ClicksInRange(ins[1..], |first.board.tiles|) by {
        forall i | 0 <= i < |ins[1..]| && ins[1..][i].Click? ensures ins[1..][i].idx < |b.tiles| {
          assert ins[1..][i] == ins[i + 1];
        }
      }
      var rest := Play(first.board, puzzle, ins[1..]);
      JoinLabels(first.labels, rest.labels, puzzle, b.guessCount, first.board.guessCount, rest.board.guessCount);
      Outcome(rest.board, first.labels + rest.labels, first.completes || rest.completes)
  }

  // ---------------------------------------------------------------- the object

  /** class ConnectionsGame: one puzzle instance. `stream` is the app's send_marker. */
  class ConnectionsGame {
    const puzzleIndex: nat
    const stream: MarkerStream
    var tiles: seq<Tile>
    var selected: seq<nat>
    var guessCount: nat

    function State(): Board
      reads this
    {
      Board(tiles, selected, guessCount)
    }

    predicate Valid()
      reads this
    {
      Inv(State()) && |tiles| == TileCount
    }

    /** __init__: empty selection, no guesses, then start_new_puzzle. */
    constructor (puzzleIndex: nat, all: seq<Group>, picks: seq<nat>, perm: seq<nat>, stream: MarkerStream)
      requires FourMembers(all) && IsSample(picks, |all|) && IsPermutation(perm, TileCount)
      modifies stream
      ensures Valid() && this.puzzleIndex == puzzleIndex && this.stream == stream
      ensures State() == NewBoard(all, picks, perm)
      ensures stream.playerId == old(stream.playerId)
      ensures stream.log == old(stream.log) + [Marker(stream.playerId, ConnStart(puzzleIndex))]
    {
      this.puzzleIndex := puzzleIndex;
      this.stream := stream;
      selected := [];
      guessCount := 0;
      tiles := [];
      new;
      StartNewPuzzle(all, picks, perm);
    }

    /** start_new_puzzle: sample, lay out, shuffle, announce. */
    method StartNewPuzzle(all: seq<Group>, picks: seq<nat>, perm: seq<nat>)
      requires FourMembers(all) && IsSample(picks, |all|) && IsPermutation(perm, TileCount)
      modifies this, stream
      ensures Valid() && State() == NewBoard(all, picks, perm).(guessCount := old(guessCount))
      ensures stream.playerId == old(stream.playerId)
      ensures stream.log == old(stream.log) + [Marker(stream.playerId, ConnStart(puzzleIndex))]
    {
      selected := [];
      var groups := Sample(all, picks);
      LayoutSize(groups);
      tiles := Layout(groups);
      tiles := Shuffle(tiles, perm);
      stream.Send(ConnStart(puzzleIndex));
    }

    /** toggle_tile(idx): a click on tile idx. Returns whether on_complete was scheduled. */
    method ToggleTile(idx: nat) returns (completes: bool)
      requires Valid() && idx < |tiles|
      modifies this, stream
      ensures Valid()
      ensures State() == Toggle(old(State()), puzzleIndex, idx).board
      ensures completes == Toggle(old(State()), puzzleIndex, idx).completes
      ensures stream.playerId == old(stream.playerId)
      ensures stream.log == old(stream.log) + MarkerLines(stream.playerId, Toggle(old(State()), puzzleIndex, idx).labels)
    {
      completes := false;
      if tiles[idx].matched {
        return;
      }
      if idx in selected {
        RemoveKeepsInv(State(), idx);
        selected := RemoveFirst(selected, idx);
      } else if |selected| < SelectionSize {
        selected := selected + [idx];
      }
      if |selected| == SelectionSize {
        completes := CheckSelection();
      }
    }

    /** deselect_all. */
    method DeselectAll()
      requires Valid()
      modifies this
      ensures Valid()
      ensures State() == old(State()).(selected := [])
    {
      selected := [];
    }

    /** The loop of check_selection that flags every selected tile as matched. */
    method MarkSelected()
      requires InRange(State())
      modifies this
      ensures tiles == MarkMatched(old(tiles), selected)
      ensures selected == old(selected) && guessCount == old(guessCount)
    {
      ghost var before := tiles;
      var i := 0;
      while i < |selected|
        invariant 0 <= i <= |selected| && |tiles| == |before|
        invariant selected == old(selected) && guessCount == old(guessCount)
        invariant InRange(State())
        invariant forall k :: 0 <= k < |tiles| ==>
          tiles[k] == if k in selected[..i] then before[k].(matched := true) else before[k]
      {
        var idx := selected[i];
        assert selected[..i + 1] == selected[..i] + [idx];
        tiles := tiles[idx := tiles[idx].(matched := true)];
        i := i + 1;
      }
      assert selected[..i] == selected;
    }

    /** check_selection: count the guess, mark a correct group, send the markers, clear the selection. */
    method CheckSelection() returns (completes: bool)
      requires InRange(State()) && |selected| == SelectionSize
      modifies this, stream
      ensures State() == Evaluate(old(State()), puzzleIndex).board
      ensures completes == Evaluate(old(State()), puzzleIndex).completes
      ensures stream.playerId == old(stream.playerId)
      ensures stream.log == old(stream.log) + MarkerLines(stream.playerId, Evaluate(old(State()), puzzleIndex).labels)
    {
      ghost var o := Evaluate(State(), puzzleIndex);
      SelectedGroupsAgree(State());
      guessCount := guessCount + 1;
      var groups := SelectedGroups(State());
      completes := AllMatch(groups, groups[0]);
      if completes {
        MarkSelected();
        stream.Send(ConnGuess(puzzleIndex, guessCount, true));
        stream.Send(ConnEnd(puzzleIndex));
        assert o.labels == [ConnGuess(puzzleIndex, guessCount, true), ConnEnd(puzzleIndex)];
        assert MarkerLines(stream.playerId, o.labels[1..][1..]) == [];
      } else {
        stream.Send(ConnGuess(puzzleIndex, guessCount, false));
        assert MarkerLines(stream.playerId, o.labels[1..]) == [];
      }
      selected := [];
    }
  }
}
