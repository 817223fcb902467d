/** Checking a user's answers against the stored questions
    (interactionAnswers in internal/node/control_session.go). Strings are byte strings. */
module InteractionAnswers {
  import opened Prelude

  type Text = seq<bv8>

  datatype Question = Question(id: Text, isOther: bool, options: seq<Text>)
  datatype Answer = Answer(questionID: Text, answers: seq<Text>)

  /** The three ways a payload carries answers: a list (or a value that is not one), a
      single answer (empty when absent), or selected options (each a string, or not). */
  datatype Payload = Payload(answers: Option<Option<seq<Answer>>>, answer: Text, selectedOptionIds: Option<seq<Option<Text>>>)

  const MAX_VALUES: nat := 32
  const MAX_VALUE_BYTES: nat := 65536

  function Texts(values: seq<Option<Text>>): Option<seq<Text>> {
    if values == [] then Some([])
    else if values[0].None? || values[0].value == [] then None
    else
      var rest := Texts(values[1..]);
      if rest.None? then None else Some([values[0].value] + rest.value)
  }

  /** The answers a payload stands for, if it has a readable form. */
  function Proposed(payload: Payload, questions: seq<Question>): Option<seq<Answer>> {
    if payload.answers.Some? then payload.answers.value
    else if payload.answer != [] && |questions| == 1 then Some([Answer(questions[0].id, [payload.answer])])
    else if payload.selectedOptionIds.Some? && |questions| == 1 then
      var values := Texts(payload.selectedOptionIds.value);
      if values.None? then None else Some([Answer(questions[0].id, values.value)])
    else None
  }

  // --- What a correct set of answers is ---------------------------------------------

  ghost predicate Acceptable(q: Question, value: Text) {
    value != [] && |value| <= 65536 && (q.options == [] || q.isOther || value in q.options)
  }

  ghost predicate Answers(q: Question, a: Answer) {
    a.questionID == q.id && 1 <= |a.answers| <= 32 && forall i :: 0 <= i < |a.answers| ==> Acceptable(q, a.answers[i])
  }

  ghost predicate DistinctQuestions(questions: seq<Question>) {
    forall i, j :: 0 <= i < j < |questions| ==> questions[i].id != questions[j].id
  }

  ghost predicate DistinctAnswers(answers: seq<Answer>) {
    forall i, j :: 0 <= i < j < |answers| ==> answers[i].questionID != answers[j].questionID
  }

  ghost predicate AnswersOne(questions: seq<Question>, a: Answer) {
    exists j :: 0 <= j < |questions| && Answers(questions[j], a)
  }

  ghost predicate IsAnswered(q: Question, answers: seq<Answer>) {
    exists i :: 0 <= i < |answers| && Answers(q, answers[i])
  }

  /** The question IDs are pairwise distinct and the answers are a bijection onto them,
      each answer acceptable to its own question. */
  ghost predicate Complete(questions: seq<Question>, answers: seq<Answer>) {
    && |answers| == |questions|
    && DistinctQuestions(questions) && DistinctAnswers(answers)
    && (forall i :: 0 <= i < |answers| ==> AnswersOne(questions, answers[i]))
    && (forall j :: 0 <= j < |questions| ==> IsAnswered(questions[j], answers))
  }

  // --- Counting ----------------------------------------------------------------------

  function QuestionIDs(questions: seq<Question>): set<Text> {
    set j | 0 <= j < |questions| :: questions[j].id
  }

  function AnswerIDs(answers: seq<Answer>): set<Text> {
    set i | 0 <= i < |answers| :: answers[i].questionID
  }

  lemma {:induction false} DistinctAnswersCount(answers: seq<Answer>)
    requires DistinctAnswers(answers)
    ensures |AnswerIDs(answers)| == |answers|
    decreases |answers|
  {
    if answers != [] {
      var last := |answers| - 1;
      var front := answers[..last];
      DistinctAnswersCount(front);
      assert AnswerIDs(answers) == AnswerIDs(front) + {answers[last].questionID};
      assert answers[last].questionID !in AnswerIDs(front);
    } else {
      assert AnswerIDs(answers) == {};
    }
  }

  /** As many IDs as questions means no ID repeats. */
  lemma {:induction false} FullCountIsDistinct(questions: seq<Question>)
    ensures |QuestionIDs(questions)| <= |questions|
    ensures |QuestionIDs(questions)| == |questions| ==> DistinctQuestions(questions)
    decreases |questions|
  {
    if questions != [] {
      var last := |questions| - 1;
      var front := questions[..last];
      FullCountIsDistinct(front);
      assert QuestionIDs(questions) == QuestionIDs(front) + {questions[last].id};
      if |QuestionIDs(questions)| == |questions| {
        assert questions[last].id !in QuestionIDs(front);
      }
    } else {
      assert QuestionIDs(questions) == {};
    }
  }

  lemma SubsetOfEqualSize(a: set<Text>, b: set<Text>)
    requires a <= b && |a| >= |b|
    ensures a == b
  {
    if a != b {
      var x :| x in b && x !in a;
      assert a <= b - {x};
      SubsetSize(a, b - {x});
    }
  }

  lemma {:induction false} SubsetSize(a: set<Text>, b: set<Text>)
    requires a <= b
    ensures |a| <= |b|
    decreases a
  {
    if a != {} {
      var x :| x in a;
      SubsetSize(a - {x}, b - {x});
    }
  }

  /** The pigeonhole step: distinct answers, each to some question, as many as there are
      questions, leave no question unanswered and no question ID repeated. */
  lemma Pigeonhole(questions: seq<Question>, answers: seq<Answer>)
    requires |answers| == |questions| && DistinctAnswers(answers) && AnswerIDs(answers) <= QuestionIDs(questions)
    ensures DistinctQuestions(questions) && AnswerIDs(answers) == QuestionIDs(questions)
  {
    DistinctAnswersCount(answers);
    FullCountIsDistinct(questions);
    SubsetSize(AnswerIDs(answers), QuestionIDs(questions));
    SubsetOfEqualSize(AnswerIDs(answers), QuestionIDs(questions));
  }

  // --- The check as the source runs it --------------------------------------------------

  /** What the map of known questions holds for an ID; a repeated ID keeps the last question. */
  datatype Known = Known(other: bool, options: set<Text>)

  ghost predicate LastWith(questions: seq<Question>, j: nat, n: nat) {
    j < n <= |questions| && forall k :: j < k < n ==> questions[k].id != questions[j].id
  }

  ghost predicate KnowsUpTo(known: map<Text, Known>, questions: seq<Question>, n: nat)
    requires n <= |questions|
  {
    && known.Keys == (set j | 0 <= j < n :: questions[j].id)
    && forall j :: 0 <= j < n && LastWith(questions, j, n) ==>
         known[questions[j].id] == Known(questions[j].isOther, set o | o in questions[j].options)
  }

  method Index(questions: seq<Question>) returns (known: map<Text, Known>)
    ensures KnowsUpTo(known, questions, |questions|)
  {
    known := map[];
    var n := 0;
    while n < |questions|
      invariant n <= |questions|
      invariant KnowsUpTo(known, questions, n)
    {
      var options := set o | o in questions[n].options;
      known := known[questions[n].id := Known(questions[n].isOther, options)];
      n := n + 1;
    }
  }

  method CheckValues(entry: Known, values: seq<Text>) returns (ok: bool)
    ensures ok <==> forall i :: 0 <= i < |values| ==>
      values[i] != [] && |values[i]| <= 65536 && (entry.options == {} || entry.other || values[i] in entry.options)
  {
    for i := 0 to |values|
      invariant forall k :: 0 <= k < i ==>
        values[k] != [] && |values[k]| <= MAX_VALUE_BYTES && (entry.options == {} || entry.other || values[k] in entry.options)
    {
      var value := values[i];
      if value == [] || |value| > MAX_VALUE_BYTES { return false; }
      if entry.options != {} && value !in entry.options && !entry.other { return false; }
    }
    return true;
  }

  /** A known answer: the entry its ID leads to accepts its values. */
  ghost predicate Passes(known: map<Text, Known>, a: Answer) {
    && a.questionID in known && 1 <= |a.answers| <= MAX_VALUES
    && forall i :: 0 <= i < |a.answers| ==>
         var entry := known[a.questionID];
         a.answers[i] != [] && |a.answers[i]| <= MAX_VALUE_BYTES && (entry.options == {} || entry.other || a.answers[i] in entry.options)
  }

  method CheckAnswers(known: map<Text, Known>, answers: seq<Answer>) returns (ok: bool)
    ensures ok <==> DistinctAnswers(answers) && forall i :: 0 <= i < |answers| ==> Passes(known, answers[i])
  {
    var seen: set<Text> := {};
    var n := 0;
    while n < |answers|
      invariant n <= |answers|
      invariant seen == AnswerIDs(answers[..n])
      invariant DistinctAnswers(answers[..n])
      invariant forall i :: 0 <= i < n ==> Passes(known, answers[i])
    {
      var a := answers[n];
      if a.questionID !in known || |a.answers| == 0 || |a.answers| > MAX_VALUES { return false; }
      var good := CheckValues(known[a.questionID], a.answers);
      if !good { return false; }
      if a.questionID in seen {
        var i :| 0 <= i < n && answers[i].questionID == a.questionID;
        return false;
      }
      seen := seen + {a.questionID};
      assert answers[..n + 1] == answers[..n] + [a];
      n := n + 1;
    }
    assert answers[..n] == answers;
    return true;
  }

  /** With distinct IDs, passing the index is answering the question itself. */
  lemma PassesIsAnswers(questions: seq<Question>, known: map<Text, Known>, a: Answer, j: nat)
    requires KnowsUpTo(known, questions, |questions|) && DistinctQuestions(questions)
    requires j < |questions| && questions[j].id == a.questionID
    ensures Passes(known, a) <==> Answers(questions[j], a)
  {
    assert LastWith(questions, j, |questions|);
    var q, entry := questions[j], known[a.questionID];
    assert entry.options == {} <==> q.options == [] by {
      if q.options != [] { assert q.options[0] in entry.options; }
    }
  }

  lemma PassingAllIsComplete(questions: seq<Question>, known: map<Text, Known>, answers: seq<Answer>)
    requires KnowsUpTo(known, questions, |questions|) && |answers| == |questions| && DistinctAnswers(answers)
    requires forall i :: 0 <= i < |answers| ==> Passes(known, answers[i])
    ensures Complete(questions, answers)
  {
    assert AnswerIDs(answers) <= QuestionIDs(questions);
    Pigeonhole(questions, answers);
    forall i | 0 <= i < |answers| ensures AnswersOne(questions, answers[i]) {
      assert answers[i].questionID in QuestionIDs(questions);
      var j :| 0 <= j < |questions| && questions[j].id == answers[i].questionID;
      PassesIsAnswers(questions, known, answers[i], j);
    }
    forall j | 0 <= j < |questions| ensures IsAnswered(questions[j], answers) {
      assert questions[j].id in AnswerIDs(answers);
      var i :| 0 <= i < |answers| && answers[i].questionID == questions[j].id;
      PassesIsAnswers(questions, known, answers[i], j);
    }
  }

  lemma CompletePassesAll(questions: seq<Question>, known: map<Text, Known>, answers: seq<Answer>, i: nat)
    requires KnowsUpTo(known, questions, |questions|) && Complete(questions, answers) && i < |answers|
    ensures Passes(known, answers[i])
  {
    assert AnswersOne(questions, answers[i]);
    var j :| 0 <= j < |questions| && Answers(questions[j], answers[i]);
    PassesIsAnswers(questions, known, answers[i], j);
  }

  ghost function Prefixed(front: seq<Text>, rest: Option<seq<Text>>): Option<seq<Text>> {
    if rest.None? then None else Some(front + rest.value)
  }

  lemma PrefixedTwice(a: seq<Text>, b: seq<Text>, rest: Option<seq<Text>>)
    ensures Prefixed(a, Prefixed(b, rest)) == Prefixed(a + b, rest)
    ensures Prefixed([], rest) == rest
  {
    if rest.Some? { assert [] + rest.value == rest.value; }
    if rest.Some? { assert a + (b + rest.value) == (a + b) + rest.value; }
  }

  method CollectTexts(raw: seq<Option<Text>>) returns (values: Option<seq<Text>>)
    ensures values == Texts(raw)
  {
    var collected: seq<Text> := [];
    var n := 0;
    assert raw[0..] == raw;
    PrefixedTwice([], [], Texts(raw));
    while n < |raw|
      invariant n <= |raw|
      invariant Texts(raw) == Prefixed(collected, Texts(raw[n..]))
    {
      assert raw[n..][1..] == raw[n + 1..];
      if raw[n].None? || raw[n].value == [] { return None; }
      PrefixedTwice(collected, [raw[n].value], Texts(raw[n + 1..]));
      collected := collected + [raw[n].value];
      n := n + 1;
    }
    assert raw[n..] == [] && collected + [] == collected;
    return Some(collected);
  }

  /** The payload submits these answers: as a list, or for a single question as one answer, or
      as selected options, all of them in order and none empty. A list takes precedence over
      an answer, and a non-empty answer over selected options. */
  ghost predicate Submits(payload: Payload, questions: seq<Question>, answers: seq<Answer>) {
    if payload.answers.Some? then payload.answers.value == Some(answers)
    else
      && |questions| == 1 && |answers| == 1 && answers[0].questionID == questions[0].id
      && if payload.answer != [] then answers[0].answers == [payload.answer]
         else
           && payload.selectedOptionIds.Some?
           && var selected, texts := payload.selectedOptionIds.value, answers[0].answers;
              |texts| == |selected| && forall i :: 0 <= i < |selected| ==> selected[i] == Some(texts[i]) && texts[i] != []
  }

  lemma SubmittedExactly(payload: Payload, questions: seq<Question>, answers: seq<Answer>)
    ensures Proposed(payload, questions) == Some(answers) <==> Submits(payload, questions, answers)
  {
    if payload.answers.None? && payload.answer == [] && payload.selectedOptionIds.Some? && |questions| == 1 && |answers| == 1 {
      TextsAreAllInOrder(payload.selectedOptionIds.value, answers[0].answers);
      assert answers[0].questionID == questions[0].id ==> answers == [Answer(questions[0].id, answers[0].answers)];
    }
    if payload.answers.None? && payload.answer != [] && |questions| == 1 && |answers| == 1 && answers[0].questionID == questions[0].id && answers[0].answers == [payload.answer] {
      assert answers == [Answer(questions[0].id, [payload.answer])];
    }
  }

  /** The selected options are all of them, in order, and none is empty. */
  lemma {:induction false} TextsAreAllInOrder(values: seq<Option<Text>>, texts: seq<Text>)
    ensures Texts(values) == Some(texts) <==> |texts| == |values| && forall i :: 0 <= i < |values| ==> values[i] == Some(texts[i]) && texts[i] != []
    decreases |values|
  {
    if values != [] {
      if texts != [] {
        TextsAreAllInOrder(values[1..], texts[1..]);
        assert texts == [texts[0]] + texts[1..];
        if forall i :: 0 <= i < |values[1..]| && i < |texts[1..]| ==> values[1..][i] == Some(texts[1..][i]) && texts[1..][i] != [] {
          assert forall i :: 1 <= i < |values| && i < |texts| ==> values[i] == values[1..][i - 1] && texts[i] == texts[1..][i - 1];
        }
      }
    }
  }

  /** Succeeds exactly when there are questions and the payload's answers are complete
      for them, and then returns those answers. `stored` is `None` when it cannot be decoded. */
  method Resolve(payload: Payload, stored: Option<seq<Question>>) returns (result: Option<seq<Answer>>)
    ensures result.Some? <==> stored.Some? && stored.value != [] && Proposed(payload, stored.value).Some? && Complete(stored.value, Proposed(payload, stored.value).value)
    ensures result.Some? ==> result == Proposed(payload, stored.value)
    ensures forall answers :: result == Some(answers) <==>
      stored.Some? && stored.value != [] && Submits(payload, stored.value, answers) && Complete(stored.value, answers)
  {
    if stored.None? || |stored.value| == 0 { return None; }
    var questions := stored.value;
    forall answers ensures Proposed(payload, questions) == Some(answers) <==> Submits(payload, questions, answers) {
      SubmittedExactly(payload, questions, answers);
    }
    var known := Index(questions);
    var answers: seq<Answer>;
    if payload.answers.Some? {
      if payload.answers.value.None? { return None; }
      answers := payload.answers.value.value;
    } else if payload.answer != [] && |questions| == 1 {
      answers := [Answer(questions[0].id, [payload.answer])];
    } else if payload.selectedOptionIds.Some? && |questions| == 1 {
      var values := CollectTexts(payload.selectedOptionIds.value);
      if values.None? { return None; }
      answers := [Answer(questions[0].id, values.value)];
    } else {
      return None;
    }
    if |answers| != |questions| { return None; }
    var ok := CheckAnswers(known, answers);
    if !ok {
      if Complete(questions, answers) {
        forall i | 0 <= i < |answers| ensures Passes(known, answers[i]) { CompletePassesAll(questions, known, answers, i); }
      }
      return None;
    }
    PassingAllIsComplete(questions, known, answers);
    return Some(answers);
  }
}
