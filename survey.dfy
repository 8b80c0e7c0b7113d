/** The post-experiment questionnaire (class PostQuestionnaire): five placeholder
    questions shown one at a time, each answered with a 1..5 button or skipped with
    NoResponse by the master skip. */
module Survey {
  import opened Markers

  const Questions: seq<string> := ["test 1", "test 2", "test 3", "test 4", "test 5"]
  const QuestionCount: nat := |Questions|

  /** The new index, the labels sent, and whether `on_complete` was called. */
  datatype SurveyStep = SurveyStep(index: nat, labels: seq<Label>, completes: bool)

  /** show_current: past the last question it calls on_complete; otherwise it shows the
      question (and hooks the master skip to skip_current, which the app records). */
  function ShowCurrent(index: nat): SurveyStep {
    SurveyStep(index, [], index >= QuestionCount)
  }

  /** record_response(v): PostQ<n>_<v>, next question. */
  function Record(index: nat, v: nat): SurveyStep {
    var shown := ShowCurrent(index + 1);
    SurveyStep(shown.index, [PostRating(index + 1, Some(v))] + shown.labels, shown.completes)
  }

  /** skip_current: PostQ<n>_NoResponse and the next question, only while one is left. */
  function Skip(index: nat): SurveyStep {
    if index < QuestionCount then
      var shown := ShowCurrent(index + 1);
      SurveyStep(shown.index, [PostRating(index + 1, None)] + shown.labels, shown.completes)
    else SurveyStep(index, [], false)
  }

  /** Each answer or skip of a shown question sends exactly one PostQ marker for that
      question and advances by one; `on_complete` runs exactly when the fifth is passed;
      a skip after the last question does nothing. */
  lemma StepOnce(index: nat, v: nat)
    ensures index < QuestionCount ==>
      && Record(index, v) == SurveyStep(index + 1, [PostRating(index + 1, Some(v))], index + 1 == QuestionCount)
      && Skip(index) == SurveyStep(index + 1, [PostRating(index + 1, None)], index + 1 == QuestionCount)
    ensures index >= QuestionCount ==> Skip(index) == SurveyStep(index, [], false)
  {
  }

  /** A button press (its value) or the master skip. Buttons exist only while a question
      is shown, so a press after the last question is no event at all. */
  datatype SurveyEvent = Press(value: nat) | SkipQuestion

  function Handle(index: nat, e: SurveyEvent): SurveyStep {
    match e
    case Press(v) => if index < QuestionCount then Record(index, v) else SurveyStep(index, [], false)
    case SkipQuestion => Skip(index)
  }

  function Run(index: nat, evs: seq<SurveyEvent>): SurveyStep
    decreases |evs|
  {
    if evs == [] then SurveyStep(index, [], false)
    else
      var a := Handle(index, evs[0]);
      var b := Run(a.index, evs[1..]);
      SurveyStep(b.index, a.labels + b.labels, a.completes || b.completes)
  }

  /** The k-th marker of the questionnaire is about question start + k + 1. */
  predicate Consecutive(labels: seq<Label>, start: nat) {
    forall k :: 0 <= k < |labels| ==> labels[k].PostRating? && labels[k].question == start + k + 1
  }

  /** Whatever the participant does: the index never passes 5, one marker per question in
      question order with nothing skipped or repeated, and `on_complete` at most once,
      exactly when the run reaches the end from before it. */
  lemma {:induction false} SurveyRun(index: nat, evs: seq<SurveyEvent>)
    requires index <= QuestionCount
    ensures var r := Run(index, evs);
      && index <= r.index <= QuestionCount
      && |r.labels| == r.index - index
      && Consecutive(r.labels, index)
      && (r.completes <==> index < QuestionCount && r.index == QuestionCount)
    decreases |evs|
  {
    if evs != [] {
      var a := Handle(index, evs[0]);
      SurveyRun(a.index, evs[1..]);
      var b := Run(a.index, evs[1..]);
      var ls := a.labels + b.labels;
      assert forall k :: |a.labels| <= k < |ls| ==> ls[k] == b.labels[k - |a.labels|];
    }
  }

  class PostQuestionnaire {
    const stream: MarkerStream
    var index: nat

    predicate Valid()
      reads this
    {
      index <= QuestionCount
    }

    /** __init__: first question, then show_current. */
    constructor (stream: MarkerStream)
      ensures this.stream == stream && index == 0 && Valid()
    {
      this.stream := stream;
      index := 0;
      new;
      var finished := ShowCurrentQuestion();
    }

    method ShowCurrentQuestion() returns (finished: bool)
      ensures finished == ShowCurrent(index).completes
    {
      finished := index >= QuestionCount;
    }

    /** record_response(v), from one of the 1..5 buttons of the shown question. */
    method RecordResponse(v: nat) returns (finished: bool)
      requires Valid() && index < QuestionCount
      modifies this, stream
      ensures Valid()
      ensures index == Record(old(index), v).index && finished == Record(old(index), v).completes
      ensures stream.playerId == old(stream.playerId)
      ensures stream.log == old(stream.log) + MarkerLines(stream.playerId, Record(old(index), v).labels)
    {
      stream.Send(PostRating(index + 1, Some(v)));
      index := index + 1;
      finished := ShowCurrentQuestion();
    }

    /** skip_current. */
    method SkipCurrent() returns (finished: bool)
      requires Valid()
      modifies this, stream
      ensures Valid()
      ensures index == Skip(old(index)).index && finished == Skip(old(index)).completes
      ensures stream.playerId == old(stream.playerId)
      ensures stream.log == old(stream.log) + MarkerLines(stream.playerId, Skip(old(index)).labels)
    {
      finished := false;
      if index < QuestionCount {
        stream.Send(PostRating(index + 1, None));
        index := index + 1;
        finished := ShowCurrentQuestion();
      }
    }
  }
}
