/** The marker vocabulary of the experiment and ExperimentApp.send_marker.

    Every event the experiment announces is a `Label`; `LabelText` writes it the
    way the program's f-strings do, and `Marker` adds the `Player<ID>_` prefix.
    `ParseLabel` and `ReadMarker` read the text back, so the round-trip lemmas
    show that no two events share a marker string. The stream that receives the
    markers (an LSL outlet plus the console in the program) is `MarkerStream`. */
module Markers {

  datatype Option<T> = None | Some(value: T)

  /** One constructor per marker shape; numbers are the 1-based indices the program prints.
      A rating of `None` is written `NoResponse`. */
  datatype Label =
    | SessionStart
    | ConnStart(puzzle: nat)
    | ConnGuess(puzzle: nat, guess: nat, correct: bool)
    | ConnEnd(puzzle: nat)
    | ConnRestStart(puzzle: nat)
    | ConnRestEnd(puzzle: nat)
    | ConnRating(puzzle: nat, rating: Option<nat>)
    | RatStart(item: nat)
    | RatResponse(item: nat, knew: bool)
    | RatEnd(item: nat)
    | RatRestStart(item: nat)
    | RatRestEnd(item: nat)
    | SurveyStart
    | SurveyEnd
    | PostRating(question: nat, rating: Option<nat>)

  // ---------------------------------------------------------------- numbers

  predicate IsDigit(c: char) {
    '0' <= c <= '9'
  }

  function DigitChar(d: nat): (c: char)
    requires d < 10
  {
    (d + '0' as int) as char
  }

  function DigitValue(c: char): nat
    requires IsDigit(c)
  {
    c as int - '0' as int
  }

  predicate AllDigits(s: string) {
    forall i :: 0 <= i < |s| ==> IsDigit(s[i])
  }

  /** Decimal text of a non-negative number, as Python's str() writes it. */
  function NatToString(n: nat): (s: string)
    ensures |s| >= 1 && AllDigits(s)
    ensures |s| > 1 ==> s[0] != '0'
  {
    if n < 10 then [DigitChar(n)]
    else NatToString(n / 10) + [DigitChar(n % 10)]
  }

  /** The number a string of decimal digits denotes. */
  function DigitsValue(s: string): nat
    requires AllDigits(s)
  {
    if s == [] then 0 else DigitsValue(s[..|s| - 1]) * 10 + DigitValue(s[|s| - 1])
  }

  lemma {:induction false} DigitsValueOfNatToString(n: nat)
    ensures DigitsValue(NatToString(n)) == n
  {
    if n >= 10 {
      var s := NatToString(n);
      assert s[..|s| - 1] == NatToString(n / 10);
      DigitsValueOfNatToString(n / 10);
    }
  }

  /** Length of the longest prefix of s whose characters all satisfy p. */
  function Span(s: string, p: char -> bool): (k: nat)
    ensures k <= |s|
    ensures forall i :: 0 <= i < k ==> p(s[i])
    ensures k < |s| ==> !p(s[k])
  {
    if s != [] && p(s[0]) then 1 + Span(s[1..], p) else 0
  }

  /** Reads the decimal number at the front of s: its value and the text after it. */
  function ReadNat(s: string): (r: Option<(nat, string)>)
    ensures r.Some? ==> |r.value.1| < |s| && r.value.1 == s[|s| - |r.value.1|..]
    ensures r.None? <==> (s == [] || !IsDigit(s[0]))
  {
    var k := Span(s, IsDigit);
    if k == 0 then None else Some((DigitsValue(s[..k]), s[k..]))
  }

  lemma ReadNatOfNatToString(n: nat, rest: string)
    requires rest == [] || !IsDigit(rest[0])
    ensures ReadNat(NatToString(n) + rest) == Some((n, rest))
  {
    var d := NatToString(n);
    var s := d + rest;
    var k := Span(s, IsDigit);
    if |d| < |s| {
      assert s[|d|] == rest[0];
    }
    assert k == |d|;
    assert s[..k] == d && s[k..] == rest;
    DigitsValueOfNatToString(n);
  }

  // ---------------------------------------------------------------- label text

  function RatingText(r: Option<nat>): string {
    match r
    case None => "NoResponse"
    case Some(v) => NatToString(v)
  }

  /** The stage prefix a label's text starts with. */
  function StagePrefix(l: Label): string {
    match l
    case SessionStart => "Session_Start"
    case ConnRating(_, _) => "ConnectionQ"
    case ConnStart(_) | ConnGuess(_, _, _) | ConnEnd(_) | ConnRestStart(_) | ConnRestEnd(_) => "Connections"
    case RatStart(_) | RatResponse(_, _) | RatEnd(_) | RatRestStart(_) | RatRestEnd(_) => "RAT"
    case SurveyStart | SurveyEnd => "PostSurvey_"
    case PostRating(_, _) => "PostQ"
  }

  /** What follows the stage prefix in a label's text. */
  function StageTail(l: Label): string {
    match l
    case SessionStart => ""
    case ConnStart(p) => NatToString(p) + "_Start"
    case ConnGuess(p, g, ok) => NatToString(p) + "_Guess" + NatToString(g) + (if ok then "_Correct" else "_Incorrect")
    case ConnEnd(p) => NatToString(p) + "_End"
    case ConnRestStart(p) => NatToString(p) + "_Rest_Start"
    case ConnRestEnd(p) => NatToString(p) + "_Rest_End"
    case ConnRating(p, r) => NatToString(p) + "_" + RatingText(r)
    case RatStart(i) => NatToString(i) + "_Start"
    case RatResponse(i, knew) => NatToString(i) + (if knew then "_Response_Y" else "_Response_N")
    case RatEnd(i) => NatToString(i) + "_End"
    case RatRestStart(i) => NatToString(i) + "_Rest_Start"
    case RatRestEnd(i) => NatToString(i) + "_Rest_End"
    case SurveyStart => "Start"
    case SurveyEnd => "End"
    case PostRating(q, r) => NatToString(q) + "_" + RatingText(r)
  }

  /** The label part of a marker, exactly as the program's f-strings build it. */
  function LabelText(l: Label): string {
    StagePrefix(l) + StageTail(l)
  }

  /** Each stage has its own prefix, so the first letters alone tell which stage sent a
      marker. */
  lemma LabelPrefixes(l: Label)
    ensures var t := LabelText(l);
      && ("Connections" <= t <==> l.ConnStart? || l.ConnGuess? || l.ConnEnd? || l.ConnRestStart? || l.ConnRestEnd?)
      && ("ConnectionQ" <= t <==> l.ConnRating?)
      && ("RAT" <= t <==> l.RatStart? || l.RatResponse? || l.RatEnd? || l.RatRestStart? || l.RatRestEnd?)
      && ("PostSurvey_" <= t <==> l.SurveyStart? || l.SurveyEnd?)
      && ("PostQ" <= t <==> l.PostRating?)
      && (t == "Session_Start" <==> l.SessionStart?)
  {
    var p := StagePrefix(l);
    var t := LabelText(l);
    // Letters 0, 4 and 10 tell the six prefixes apart.
    assert t[0] == p[0] && (|p| > 4 ==> t[4] == p[4]) && (|p| > 10 ==> t[10] == p[10]);
    assert l.SessionStart? <==> p == "Session_Start";
  }

  // ---------------------------------------------------------------- reading labels back

  /** The text after the prefix p, when s starts with p. */
  function After(p: string, s: string): (r: Option<string>)
    ensures r.Some? <==> p <= s
    ensures r.Some? ==> s == p + r.value
  {
    if p <= s then Some(s[|p|..]) else None
  }

  lemma AfterOwnPrefix(p: string, t: string)
    ensures After(p, p + t) == Some(t)
  {
    assert (p + t)[..|p|] == p;
    assert (p + t)[|p|..] == t;
  }

  lemma AfterMismatch(p: string, s: string, i: nat)
    requires i < |p| && i < |s| && p[i] != s[i]
    ensures After(p, s) == None
  {
  }

  function ParseRating(t: string): Option<Option<nat>> {
    if t == "NoResponse" then Some(None)
    else match ReadNat(t)
      case Some((v, rest)) => if rest == [] then Some(Some(v)) else None
      case None => None
  }

  /** Reads `_<rating>` after a question number. */
  function ParseAnswer(rest: string): Option<Option<nat>> {
    match After("_", rest)
    case Some(t) => ParseRating(t)
    case None => None
  }

  /** Reads `<g>_Correct` or `<g>_Incorrect` after `_Guess`. */
  function ParseGuess(p: nat, t: string): Option<Label> {
    match ReadNat(t)
    case None => None
    case Some((g, tail)) =>
      if tail == "_Correct" then Some(ConnGuess(p, g, true))
      else if tail == "_Incorrect" then Some(ConnGuess(p, g, false))
      else None
  }

  /** Reads `<n>_<rating>`: a question number and its answer. */
  function ParseQuestion(t: string): Option<(nat, Option<nat>)> {
    match ReadNat(t)
    case None => None
    case Some((n, rest)) =>
      match ParseAnswer(rest)
      case None => None
      case Some(r) => Some((n, r))
  }

  /** Reads what follows the puzzle number in a `Connections` marker. */
  function ConnectionsSuffix(p: nat, rest: string): Option<Label> {
    if rest == "_Start" then Some(ConnStart(p))
    else if rest == "_End" then Some(ConnEnd(p))
    else if rest == "_Rest_Start" then Some(ConnRestStart(p))
    else if rest == "_Rest_End" then Some(ConnRestEnd(p))
    else match After("_Guess", rest)
      case Some(g) => ParseGuess(p, g)
      case None => None
  }

  /** Reads what follows `Connections`. */
  function ParseConnections(t: string): Option<Label> {
    match ReadNat(t)
    case None => None
    case Some((p, rest)) => ConnectionsSuffix(p, rest)
  }

  /** Reads what follows the item number in a `RAT` marker. */
  function RatSuffix(i: nat, rest: string): Option<Label> {
    if rest == "_Start" then Some(RatStart(i))
    else if rest == "_Response_Y" then Some(RatResponse(i, true))
    else if rest == "_Response_N" then Some(RatResponse(i, false))
    else if rest == "_End" then Some(RatEnd(i))
    else if rest == "_Rest_Start" then Some(RatRestStart(i))
    else if rest == "_Rest_End" then Some(RatRestEnd(i))
    else None
  }

  /** Reads what follows `RAT`. */
  function ParseRat(t: string): Option<Label> {
    match ReadNat(t)
    case None => None
    case Some((i, rest)) => RatSuffix(i, rest)
  }

  /** Reads a label back from its text; `None` for text no event produces. */
  function ParseLabel(s: string): Option<Label> {
    if s == "Session_Start" then Some(SessionStart)
    else if s == "PostSurvey_Start" then Some(SurveyStart)
    else if s == "PostSurvey_End" then Some(SurveyEnd)
    else if After("Connections", s).Some? then ParseConnections(After("Connections", s).value)
    else if After("ConnectionQ", s).Some? then
      match ParseQuestion(After("ConnectionQ", s).value)
      case None => None
      case Some((p, r)) => Some(ConnRating(p, r))
    else if After("RAT", s).Some? then ParseRat(After("RAT", s).value)
    else if After("PostQ", s).Some? then
      match ParseQuestion(After("PostQ", s).value)
      case None => None
      case Some((q, r)) => Some(PostRating(q, r))
    else None
  }

  lemma RatingRoundTrip(r: Option<nat>)
    ensures ParseAnswer("_" + RatingText(r)) == Some(r)
  {
    AfterOwnPrefix("_", RatingText(r));
    if r.Some? {
      var d := NatToString(r.value);
      assert d[0] != 'N';
      assert d != "NoResponse";
      ReadNatOfNatToString(r.value, []);
      assert d + [] == d;
    }
  }

  lemma ParseAfterConnections(t: string)
    ensures ParseLabel("Connections" + t) == ParseConnections(t)
  {
    var s := "Connections" + t;
    assert s[0] == 'C';
    AfterOwnPrefix("Connections", t);
  }

  lemma ParseAfterRat(t: string)
    ensures ParseLabel("RAT" + t) == ParseRat(t)
  {
    var s := "RAT" + t;
    assert s[0] == 'R';
    AfterMismatch("Connections", s, 0);
    AfterMismatch("ConnectionQ", s, 0);
    AfterOwnPrefix("RAT", t);
  }

  lemma ParseAfterConnectionQ(t: string)
    requires ParseQuestion(t).Some?
    ensures ParseLabel("ConnectionQ" + t) == Some(ConnRating(ParseQuestion(t).value.0, ParseQuestion(t).value.1))
  {
    var s := "ConnectionQ" + t;
    assert s[0] == 'C' && s[10] == 'Q';
    AfterMismatch("Connections", s, 10);
    AfterOwnPrefix("ConnectionQ", t);
  }

  lemma ParseAfterPostQ(t: string)
    requires ParseQuestion(t).Some?
    ensures ParseLabel("PostQ" + t) == Some(PostRating(ParseQuestion(t).value.0, ParseQuestion(t).value.1))
  {
    var s := "PostQ" + t;
    assert s[0] == 'P' && s[4] == 'Q';
    assert s != "PostSurvey_Start" && s != "PostSurvey_End";
    AfterMismatch("Connections", s, 0);
    AfterMismatch("ConnectionQ", s, 0);
    AfterMismatch("RAT", s, 0);
    AfterOwnPrefix("PostQ", t);
  }

  lemma SeqAssoc<T>(a: seq<T>, b: seq<T>, c: seq<T>)
    ensures a + b + c == a + (b + c)
  {
  }

  /** The text after the number in the puzzle markers without a guess. */
  function ConnectionsTail(l: Label): (t: string)
    requires l.ConnStart? || l.ConnEnd? || l.ConnRestStart? || l.ConnRestEnd?
    ensures t != [] && t[0] == '_'
  {
    if l.ConnStart? then "_Start" else if l.ConnEnd? then "_End"
    else if l.ConnRestStart? then "_Rest_Start" else "_Rest_End"
  }

  /** The text after the number in a RAT marker. */
  function RatTail(l: Label): (t: string)
    requires l.RatStart? || l.RatResponse? || l.RatEnd? || l.RatRestStart? || l.RatRestEnd?
    ensures t != [] && t[0] == '_'
  {
    if l.RatStart? then "_Start" else if l.RatEnd? then "_End"
    else if l.RatRestStart? then "_Rest_Start" else if l.RatRestEnd? then "_Rest_End"
    else if l.knew then "_Response_Y" else "_Response_N"
  }

  lemma ConnectionsText(l: Label)
    requires l.ConnStart? || l.ConnEnd? || l.ConnRestStart? || l.ConnRestEnd?
    ensures LabelText(l) == "Connections" + (NatToString(l.puzzle) + ConnectionsTail(l))
  {
  }

  lemma RatText(l: Label)
    requires l.RatStart? || l.RatResponse? || l.RatEnd? || l.RatRestStart? || l.RatRestEnd?
    ensures LabelText(l) == "RAT" + (NatToString(l.item) + RatTail(l))
  {
  }

  lemma GuessText(p: nat, g: nat, ok: bool)
    ensures LabelText(ConnGuess(p, g, ok)) ==
      "Connections" + (NatToString(p) + ("_Guess" + (NatToString(g) + (if ok then "_Correct" else "_Incorrect"))))
  {
    var num := NatToString(p);
    var tail := if ok then "_Correct" else "_Incorrect";
    assert StageTail(ConnGuess(p, g, ok)) == num + "_Guess" + NatToString(g) + tail;
    SeqAssoc(num + "_Guess", NatToString(g), tail);
    SeqAssoc(num, "_Guess", NatToString(g) + tail);
  }

  lemma ConnectionsSuffixes(l: Label)
    requires l.ConnStart? || l.ConnEnd? || l.ConnRestStart? || l.ConnRestEnd?
    ensures ConnectionsSuffix(l.puzzle, ConnectionsTail(l)) == Some(l)
  {
  }

  lemma RatSuffixes(l: Label)
    requires l.RatStart? || l.RatResponse? || l.RatEnd? || l.RatRestStart? || l.RatRestEnd?
    ensures RatSuffix(l.item, RatTail(l)) == Some(l)
  {
  }

  lemma GuessSuffix(p: nat, g: nat, ok: bool)
    ensures ConnectionsSuffix(p, "_Guess" + (NatToString(g) + (if ok then "_Correct" else "_Incorrect"))) == Some(ConnGuess(p, g, ok))
  {
    var tail := if ok then "_Correct" else "_Incorrect";
    var rest := "_Guess" + (NatToString(g) + tail);
    assert |rest| > |"_Rest_Start"|;
    AfterOwnPrefix("_Guess", NatToString(g) + tail);
    ReadNatOfNatToString(g, tail);
  }

  /** Reading the number back, then the text after it. */
  lemma ReadConnections(p: nat, rest: string)
    requires rest != [] && rest[0] == '_'
    ensures ParseConnections(NatToString(p) + rest) == ConnectionsSuffix(p, rest)
  {
    ReadNatOfNatToString(p, rest);
  }

  lemma ReadRat(i: nat, rest: string)
    requires rest != [] && rest[0] == '_'
    ensures ParseRat(NatToString(i) + rest) == RatSuffix(i, rest)
  {
    ReadNatOfNatToString(i, rest);
  }

  lemma GuessRoundTrip(p: nat, g: nat, ok: bool)
    ensures ParseLabel(LabelText(ConnGuess(p, g, ok))) == Some(ConnGuess(p, g, ok))
  {
    var rest := "_Guess" + (NatToString(g) + (if ok then "_Correct" else "_Incorrect"));
    GuessText(p, g, ok);
    ParseAfterConnections(NatToString(p) + rest);
    ReadConnections(p, rest);
    GuessSuffix(p, g, ok);
  }

  lemma ConnectionsRoundTrip(l: Label)
    requires l.ConnStart? || l.ConnEnd? || l.ConnRestStart? || l.ConnRestEnd?
    ensures ParseLabel(LabelText(l)) == Some(l)
  {
    ConnectionsText(l);
    ParseAfterConnections(NatToString(l.puzzle) + ConnectionsTail(l));
    ReadConnections(l.puzzle, ConnectionsTail(l));
    ConnectionsSuffixes(l);
  }

  lemma RatRoundTrip(l: Label)
    requires l.RatStart? || l.RatResponse? || l.RatEnd? || l.RatRestStart? || l.RatRestEnd?
    ensures ParseLabel(LabelText(l)) == Some(l)
  {
    RatText(l);
    ParseAfterRat(NatToString(l.item) + RatTail(l));
    ReadRat(l.item, RatTail(l));
    RatSuffixes(l);
  }

  lemma ReadQuestion(n: nat, r: Option<nat>)
    ensures ParseQuestion(NatToString(n) + ("_" + RatingText(r))) == Some((n, r))
  {
    ReadNatOfNatToString(n, "_" + RatingText(r));
    RatingRoundTrip(r);
  }

  lemma ConnRatingText(p: nat, r: Option<nat>)
    ensures LabelText(ConnRating(p, r)) == "ConnectionQ" + (NatToString(p) + ("_" + RatingText(r)))
  {
    SeqAssoc("ConnectionQ" + NatToString(p), "_", RatingText(r));
    SeqAssoc("ConnectionQ", NatToString(p), "_" + RatingText(r));
  }

  lemma PostRatingText(q: nat, r: Option<nat>)
    ensures LabelText(PostRating(q, r)) == "PostQ" + (NatToString(q) + ("_" + RatingText(r)))
  {
    SeqAssoc("PostQ" + NatToString(q), "_", RatingText(r));
    SeqAssoc("PostQ", NatToString(q), "_" + RatingText(r));
  }

  lemma ConnRatingRoundTrip(p: nat, r: Option<nat>)
    ensures ParseLabel(LabelText(ConnRating(p, r))) == Some(ConnRating(p, r))
  {
    ConnRatingText(p, r);
    ReadQuestion(p, r);
    ParseAfterConnectionQ(NatToString(p) + ("_" + RatingText(r)));
  }

  lemma PostRatingRoundTrip(q: nat, r: Option<nat>)
    ensures ParseLabel(LabelText(PostRating(q, r))) == Some(PostRating(q, r))
  {
    PostRatingText(q, r);
    ReadQuestion(q, r);
    ParseAfterPostQ(NatToString(q) + ("_" + RatingText(r)));
  }

  /** Every label is read back as itself: the marker vocabulary is unambiguous. */
  lemma {:induction false} LabelRoundTrip(l: Label)
    ensures ParseLabel(LabelText(l)) == Some(l)
  {
    match l
    case SessionStart =>
    case SurveyStart =>
    case SurveyEnd =>
    case ConnRating(p, r) => ConnRatingRoundTrip(p, r);
    case PostRating(q, r) => PostRatingRoundTrip(q, r);
    case RatStart(_) => RatRoundTrip(l);
    case RatResponse(_, _) => RatRoundTrip(l);
    case RatEnd(_) => RatRoundTrip(l);
    case RatRestStart(_) => RatRoundTrip(l);
    case RatRestEnd(_) => RatRoundTrip(l);
    case ConnStart(_) => ConnectionsRoundTrip(l);
    case ConnGuess(p, g, ok) => GuessRoundTrip(p, g, ok);
    case ConnEnd(_) => ConnectionsRoundTrip(l);
    case ConnRestStart(_) => ConnectionsRoundTrip(l);
    case ConnRestEnd(_) => ConnectionsRoundTrip(l);
  }

  // ---------------------------------------------------------------- the Player prefix

  /** The ID printed in a marker: `NA` when no ID is set or the ID is empty. */
  function PlayerText(pid: Option<string>): (t: string)
    ensures t != []
    ensures pid.Some? && pid.value != [] ==> t == pid.value
    ensures pid.None? || pid.value == [] ==> t == "NA"
  {
    match pid
    case None => "NA"
    case Some(p) => if p == "" then "NA" else p
  }

  /** send_marker's message: `Player<pid>_<label>`. */
  function Marker(pid: Option<string>, l: Label): string {
    "Player" + PlayerText(pid) + "_" + LabelText(l)
  }

  /** A marker carries the player's ID when one is set and non-empty, and `NA` otherwise. */
  lemma MarkerFormat(pid: Option<string>, l: Label)
    ensures pid.Some? && pid.value != [] ==> Marker(pid, l) == "Player" + pid.value + "_" + LabelText(l)
    ensures pid.None? || pid.value == [] ==> Marker(pid, l) == "PlayerNA_" + LabelText(l)
  {
  }

  /** Reads the label back from a marker sent under the given player ID. */
  function ReadMarker(pid: Option<string>, m: string): Option<Label> {
    match After("Player" + PlayerText(pid) + "_", m)
    case Some(t) => ParseLabel(t)
    case None => None
  }

  lemma MarkerRoundTrip(pid: Option<string>, l: Label)
    ensures ReadMarker(pid, Marker(pid, l)) == Some(l)
  {
    AfterOwnPrefix("Player" + PlayerText(pid) + "_", LabelText(l));
    LabelRoundTrip(l);
  }

  /** Under one player ID, different events never produce the same marker. */
  lemma MarkerInjective(pid: Option<string>, a: Label, b: Label)
    requires Marker(pid, a) == Marker(pid, b)
    ensures a == b
  {
    MarkerRoundTrip(pid, a);
    MarkerRoundTrip(pid, b);
  }

  /** The markers a sequence of labels produces, in order. */
  function MarkerLines(pid: Option<string>, ls: seq<Label>): (ms: seq<string>)
    ensures |ms| == |ls|
  {
    if ls == [] then [] else [Marker(pid, ls[0])] + MarkerLines(pid, ls[1..])
  }

  lemma {:induction false} MarkerLinesAppend(pid: Option<string>, a: seq<Label>, b: seq<Label>)
    ensures MarkerLines(pid, a + b) == MarkerLines(pid, a) + MarkerLines(pid, b)
  {
    if a == [] {
      assert a + b == b;
    } else {
      assert (a + b)[0] == a[0] && (a + b)[1..] == a[1..] + b;
      MarkerLinesAppend(pid, a[1..], b);
      var m := [Marker(pid, a[0])];
      calc {
        MarkerLines(pid, a + b);
        m + MarkerLines(pid, a[1..] + b);
        m + (MarkerLines(pid, a[1..]) + MarkerLines(pid, b));
        { SeqAssoc(m, MarkerLines(pid, a[1..]), MarkerLines(pid, b)); }
        m + MarkerLines(pid, a[1..]) + MarkerLines(pid, b);
      }
    }
  }

  // ---------------------------------------------------------------- the ID entry

  /** Python's str.isspace for one character. */
  predicate IsSpace(c: char) {
    c == ' ' || ('\U{9}' <= c <= '\U{D}') || ('\U{1C}' <= c <= '\U{1F}')
    || c == '\U{85}' || c == '\U{A0}' || c == '\U{1680}' || ('\U{2000}' <= c <= '\U{200A}')
    || c == '\U{2028}' || c == '\U{2029}' || c == '\U{202F}' || c == '\U{205F}' || c == '\U{3000}'
  }

  /** Number of whitespace characters at the end of s. */
  function TrailingSpaces(s: string): (k: nat)
    ensures k <= |s|
    ensures forall i :: |s| - k <= i < |s| ==> IsSpace(s[i])
    ensures k < |s| ==> !IsSpace(s[|s| - k - 1])
  {
    if s != [] && IsSpace(s[|s| - 1]) then 1 + TrailingSpaces(s[..|s| - 1]) else 0
  }

  /** Python's str.strip(): s without leading and trailing whitespace. */
  function Strip(s: string): (r: string)
    ensures r == [] <==> forall i :: 0 <= i < |s| ==> IsSpace(s[i])
    ensures r != [] ==> !IsSpace(r[0]) && !IsSpace(r[|r| - 1])
    ensures exists a, b ::
      && 0 <= a <= b <= |s| && r == s[a..b]
      && (forall i :: 0 <= i < a ==> IsSpace(s[i]))
      && (forall i :: b <= i < |s| ==> IsSpace(s[i]))
  {
    var a := Span(s, IsSpace);
    var t := s[a..];
    var b := TrailingSpaces(t);
    var r := t[..|t| - b];
    assert r == s[a..a + |r|];
    assert 0 <= a <= a + |r| <= |s|;
    assert a < |s| ==> t[0] == s[a];
    assert forall i :: a + |r| <= i < |s| ==> s[i] == t[i - a];
    r
  }

  /** The entry text the ID screen accepts: stripped, and rejected when blank. */
  function AcceptedId(entry: string): (id: Option<string>)
    ensures id.None? <==> forall i :: 0 <= i < |entry| ==> IsSpace(entry[i])
    ensures id.Some? ==> id.value == Strip(entry) && id.value != []
  {
    var pid := Strip(entry);
    if pid == "" then None else Some(pid)
  }

  // ---------------------------------------------------------------- the stream

  /** The app's marker output: the player ID that send_marker reads at each call,
      and every marker pushed so far, oldest first. */
  class MarkerStream {
    var playerId: Option<string>
    var log: seq<string>

    constructor ()
      ensures playerId == None && log == []
    {
      playerId := None;
      log := [];
    }

    /** ExperimentApp.send_marker: format with the current ID and append. */
    method Send(l: Label)
      modifies this
      ensures playerId == old(playerId)
      ensures log == old(log) + [Marker(playerId, l)]
    {
      log := log + [Marker(playerId, l)];
    }
  }
}
