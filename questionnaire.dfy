/** The client-side Prakriti questionnaire (PrakritiAssessment.tsx): the
    fixed ten-question catalog, the response array written at the cursor,
    the Next/Previous cursor moves with the Next-enabled guard, and the
    progress bar value. */
module Questionnaire {
  import opened Common
  import Scoring

  /** An answer option; `dosha` is the option's `type`. */
  datatype Choice = Choice(text: string, dosha: string, score: nat)

  datatype Question = Question(id: nat, category: string, question: string, options: seq<Choice>)

  function Q(id: nat, category: string, question: string, v: string, p: string, k: string): Question {
    Question(id, category, question, [Choice(v, "vata", 3), Choice(p, "pitta", 3), Choice(k, "kapha", 3)])
  }

  const Count := 10

  /** Category, question and the vata, pitta and kapha option texts of
      each question, in catalog order. */
  const Catalog: seq<(string, string, string, string, string)> := [
    ("Physical", "How would you describe your body build?",
      "Thin, light frame, prominent joints", "Medium build, well-proportioned", "Large frame, heavy build, rounded features"),
    ("Physical", "What is your skin type?",
      "Dry, rough, cool to touch", "Warm, oily, prone to redness/irritation", "Oily, smooth, cool, thick"),
    ("Physical", "How is your hair naturally?",
      "Dry, brittle, frizzy", "Fine, straight, early graying/balding", "Thick, oily, wavy, lustrous"),
    ("Physical", "How is your appetite generally?",
      "Variable, sometimes forget to eat", "Strong, regular, get irritable if hungry", "Low but steady, can skip meals easily"),
    ("Physical", "How is your digestion?",
      "Irregular, gas, bloating", "Strong, quick, rarely have problems", "Slow, heavy feeling after meals"),
    ("Mental", "How would you describe your thinking pattern?",
      "Quick, creative, restless mind", "Sharp, focused, analytical", "Slow, steady, methodical"),
    ("Mental", "How do you handle stress?",
      "Become anxious, worried, scattered", "Become irritated, angry, impatient", "Become withdrawn, sluggish, depressed"),
    ("Mental", "How is your memory?",
      "Quick to learn, quick to forget", "Sharp memory, good retention", "Slow to learn but excellent long-term memory"),
    ("Behavioral", "How do you prefer to spend your free time?",
      "Active, traveling, new experiences", "Competitive activities, leadership roles", "Relaxing, reading, spending time with family"),
    ("Behavioral", "How do you typically sleep?",
      "Light sleeper, wake up easily, restless", "Moderate sleep, wake up refreshed", "Deep sleeper, hard to wake up, need lots of sleep")]

  /** Question i of the catalog, whose id is i + 1. */
  function QuestionAt(i: nat): (q: Question)
    requires i < Count
    ensures q.id == i + 1 && ThreeWay(q)
  {
    var e := Catalog[i];
    QShape(i + 1, e.0, e.1, e.2, e.3, e.4);
    Q(i + 1, e.0, e.1, e.2, e.3, e.4)
  }

  /** The first n questions of the catalog, in order. */
  function QuestionsUpTo(n: nat): (qs: seq<Question>)
    requires n <= Count
    ensures |qs| == n && forall i :: 0 <= i < n ==> qs[i] == QuestionAt(i)
  {
    if n == 0 then [] else QuestionsUpTo(n - 1) + [QuestionAt(n - 1)]
  }

  /** The component's `questions` array. */
  function Questions(): seq<Question> {
    QuestionsUpTo(Count)
  }

  /** One vata, one pitta and one kapha option, in that order, each worth 3. */
  predicate ThreeWay(q: Question) {
    && |q.options| == 3
    && q.options[0].dosha == "vata" && q.options[1].dosha == "pitta" && q.options[2].dosha == "kapha"
    && forall c :: c in q.options ==> c.score == 3
  }

  /** Ten questions with ids 1..10 in order, each offering exactly one
      vata, one pitta and one kapha option, every option worth 3. */
  predicate WellShaped(qs: seq<Question>) {
    |qs| == Count && forall i :: 0 <= i < Count ==> qs[i].id == i + 1 && ThreeWay(qs[i])
  }

  lemma CatalogShape()
    ensures WellShaped(Questions())
  {
    var qs := Questions();
    assert forall i :: 0 <= i < Count ==> qs[i] == QuestionAt(i);
  }

  lemma QShape(id: nat, category: string, question: string, v: string, p: string, k: string)
    ensures Q(id, category, question, v, p, k).id == id && ThreeWay(Q(id, category, question, v, p, k))
  {
  }

  // ---------------------------------------------------------------------
  // Totals of one choice per question

  /** The points the chosen options give one dosha. */
  function TypeTotal(chosen: seq<Choice>, dosha: string): nat {
    if chosen == [] then 0
    else TypeTotal(chosen[..|chosen| - 1], dosha) + (if chosen[|chosen| - 1].dosha == dosha then chosen[|chosen| - 1].score else 0)
  }

  /** The i-th choice is an option of the i-th question. */
  predicate FromQuestions(qs: seq<Question>, chosen: seq<Choice>) {
    |chosen| <= |qs| && forall i :: 0 <= i < |chosen| ==> chosen[i] in qs[i].options
  }

  lemma {:induction false} TypeTotalsSplit(qs: seq<Question>, chosen: seq<Choice>)
    requires WellShaped(qs) && FromQuestions(qs, chosen)
    ensures TypeTotal(chosen, "vata") + TypeTotal(chosen, "pitta") + TypeTotal(chosen, "kapha") == 3 * |chosen|
    ensures TypeTotal(chosen, "vata") <= 3 * |chosen|
    ensures TypeTotal(chosen, "pitta") <= 3 * |chosen|
    ensures TypeTotal(chosen, "kapha") <= 3 * |chosen|
  {
    if chosen != [] {
      var n := |chosen| - 1;
      var init := chosen[..n];
      assert FromQuestions(qs, init) by {
        forall i | 0 <= i < |init| ensures init[i] in qs[i].options {
          assert init[i] == chosen[i];
        }
      }
      TypeTotalsSplit(qs, init);
      var c := chosen[n];
      assert ThreeWay(qs[n]);
      assert c == qs[n].options[0] || c == qs[n].options[1] || c == qs[n].options[2];
    }
  }

  /** One option per question: every dosha total is at most 30, which the
      result cards' `/ 30` scaling assumes, and the three totals make 30. */
  lemma CompleteTotals(qs: seq<Question>, chosen: seq<Choice>)
    requires WellShaped(qs) && |chosen| == Count && FromQuestions(qs, chosen)
    ensures TypeTotal(chosen, "vata") + TypeTotal(chosen, "pitta") + TypeTotal(chosen, "kapha") == 30
    ensures TypeTotal(chosen, "vata") <= 30 && TypeTotal(chosen, "pitta") <= 30 && TypeTotal(chosen, "kapha") <= 30
  {
    TypeTotalsSplit(qs, chosen);
  }

  // ---------------------------------------------------------------------
  // Responses

  datatype Response = Response(questionId: nat, selected: Choice, score: nat)

  /** `copy[i] = v` on a copy of a JavaScript array: past the end the array
      grows, with holes (None) between the old end and `i`. */
  function SetAt<T>(s: seq<Option<T>>, i: nat, v: T): (r: seq<Option<T>>)
    ensures |r| == if i < |s| then |s| else i + 1
    ensures r[i] == Some(v)
    ensures forall j :: 0 <= j < |r| && j != i ==> r[j] == if j < |s| then s[j] else None
  {
    if i < |s| then s[i := Some(v)] else s + seq(i - |s|, _ => None) + [Some(v)]
  }

  /** The response recorded for `responses[i]` holds an option of question i. */
  predicate Answers(qs: seq<Question>, i: nat, r: Response) {
    i < |qs| && r.questionId == qs[i].id && r.selected in qs[i].options && r.score == r.selected.score
  }

  function Chosen(responses: seq<Option<Response>>): seq<Choice> {
    seq(|responses|, i requires 0 <= i < |responses| => if responses[i].Some? then responses[i].value.selected else Choice("", "", 0))
  }

  /** The submitted body `{answers: responses}`: the responses carry no
      `dosha` field, only the score. */
  function Payload(responses: seq<Option<Response>>): seq<Scoring.Answer> {
    seq(|responses|, i requires 0 <= i < |responses| =>
      if responses[i].Some? then Scoring.Answer(None, Some(responses[i].value.score)) else Scoring.Answer(None, None))
  }

  /** What the server computes for a submitted questionnaire: no answer
      names a dosha, so the total is 0, every percentage is NaN and the
      dominant dosha is kapha, whatever was chosen. Only complete
      responses are submitted: a hole would reach the server as `null`. */
  lemma SubmittedAssessmentIsKapha(responses: seq<Option<Response>>)
    requires forall i :: 0 <= i < |responses| ==> responses[i].Some?
    ensures Scoring.ScoresOf(Payload(responses)).Total() == 0
    ensures Scoring.DominantDosha(Scoring.ScoresOf(Payload(responses))) == "kapha"
  {
    Scoring.UnnamedAnswersGiveKapha(Payload(responses));
  }

  /** The progress bar, `(currentQuestion + 1) / questions.length * 100`. */
  function ProgressValue(currentQuestion: nat): (v: real)
    requires currentQuestion < Count
    ensures 0.0 < v <= 100.0
    ensures v == 100.0 <==> currentQuestion == Count - 1
  {
    (currentQuestion + 1) as real / Count as real * 100.0
  }

  class AssessmentSession {
    const questions: seq<Question>
    var currentQuestion: nat
    var responses: seq<Option<Response>>

    /** The questions are the catalog's, the cursor stays on a question,
      every question before it is answered, and every recorded response
      answers its own question. */
    ghost predicate Valid()
      reads this
    {
      SessionInvariant(questions, currentQuestion, responses)
    }

    constructor ()
      ensures Valid() && questions == Questions() && currentQuestion == 0 && responses == []
    {
      CatalogShape();
      var qs := Questions();
      questions := qs;
      currentQuestion := 0;
      responses := [];
    }

    /** The Next button's `disabled={!responses[currentQuestion] || loading}`
      while no request is in flight. */
    predicate NextEnabled()
      reads this
    {
      currentQuestion < |responses| && responses[currentQuestion].Some?
    }

    /** handleAnswerSelect: writes the response at the cursor only. */
    method AnswerSelect(questionId: nat, option: Choice)
      modifies this
      ensures currentQuestion == old(currentQuestion)
      ensures responses == SetAt(old(responses), currentQuestion, Response(questionId, option, option.score))
    {
      responses := SetAt(responses, currentQuestion, Response(questionId, option, option.score));
    }

    /** The radio group's onValueChange: the option of the current question
      whose text is `value`, if any, is selected. */
    method SelectOption(value: string)
      requires Valid()
      modifies this
      ensures Valid()
      ensures currentQuestion == old(currentQuestion)
      ensures var q := questions[currentQuestion];
        var found := Find(q.options, (c: Choice) => c.text == value);
        responses == if found.Some? then SetAt(old(responses), currentQuestion, Response(q.id, found.value, found.value.score))
                     else old(responses)
    {
      var q := questions[currentQuestion];
      var option := Find(q.options, (c: Choice) => c.text == value);
      if option.Some? {
        RecordKeepsInvariant(questions, currentQuestion, responses, Response(q.id, option.value, option.value.score));
        AnswerSelect(q.id, option.value);
      }
    }

    /** The Next button: when enabled, move to the next question, or on the
      last question submit the responses without moving. A disabled button
      does nothing. */
    method PressNext() returns (submitted: Option<seq<Option<Response>>>)
      requires Valid()
      modifies this
      ensures Valid()
      ensures responses == old(responses)
      ensures !old(NextEnabled()) ==> currentQuestion == old(currentQuestion) && submitted == None
      ensures old(NextEnabled()) && old(currentQuestion) < Count - 1 ==>
        currentQuestion == old(currentQuestion) + 1 && submitted == None
      ensures old(NextEnabled()) && old(currentQuestion) == Count - 1 ==>
        currentQuestion == old(currentQuestion) && submitted == Some(responses)
      ensures submitted.Some? ==> Complete(questions, submitted.value)
    {
      submitted := None;
      if NextEnabled() {
        if currentQuestion < Count - 1 {
          MoveKeepsInvariant(questions, currentQuestion, currentQuestion + 1, responses);
          currentQuestion := currentQuestion + 1;
        } else {
          submitted := Some(responses);
        }
      }
    }

    /** The Previous button: back one question, never before the first. */
    method PrevQuestion()
      requires Valid()
      modifies this
      ensures Valid()
      ensures responses == old(responses)
      ensures currentQuestion == if old(currentQuestion) > 0 then old(currentQuestion) - 1 else 0
    {
      if currentQuestion > 0 {
        MoveKeepsInvariant(questions, currentQuestion, currentQuestion - 1, responses);
        currentQuestion := currentQuestion - 1;
      }
    }
  }

  /** The session's invariant: the questions are well shaped, the cursor
      stays on a question, every question before it is answered, and every
      recorded response answers its own question. */
  ghost predicate SessionInvariant(qs: seq<Question>, cursor: nat, responses: seq<Option<Response>>) {
    && WellShaped(qs)
    && cursor < Count
    && |responses| <= Count
    && cursor <= |responses|
    && (forall i :: 0 <= i < cursor ==> responses[i].Some?)
    && (forall i :: 0 <= i < |responses| && responses[i].Some? ==> Answers(qs, i, responses[i].value))
  }

  /** Recording an answer to the current question keeps the invariant. */
  lemma RecordKeepsInvariant(qs: seq<Question>, cursor: nat, responses: seq<Option<Response>>, r: Response)
    requires SessionInvariant(qs, cursor, responses) && Answers(qs, cursor, r)
    ensures SessionInvariant(qs, cursor, SetAt(responses, cursor, r))
  {
    var s := SetAt(responses, cursor, r);
    forall i | 0 <= i < |s| && s[i].Some?
      ensures Answers(qs, i, s[i].value)
    {
      if i != cursor {
        assert i < |responses| && s[i] == responses[i];
      }
    }
  }

  /** Moving the cursor back, or forward past an answered question, keeps
      the invariant. */
  lemma MoveKeepsInvariant(qs: seq<Question>, cursor: nat, next: nat, responses: seq<Option<Response>>)
    requires SessionInvariant(qs, cursor, responses) && next < Count
    requires next <= cursor || (next == cursor + 1 && cursor < |responses| && responses[cursor].Some?)
    ensures SessionInvariant(qs, next, responses)
  {
  }

  /** Ten responses, each answering its own question. */
  ghost predicate Complete(qs: seq<Question>, responses: seq<Option<Response>>) {
    |responses| == Count && forall i :: 0 <= i < Count ==> responses[i].Some? && Answers(qs, i, responses[i].value)
  }

  /** A submitted questionnaire has one option per question, so its dosha
      totals make 30. */
  lemma {:induction false} SubmittedTotals(qs: seq<Question>, responses: seq<Option<Response>>)
    requires WellShaped(qs) && Complete(qs, responses)
    ensures var c := Chosen(responses);
      TypeTotal(c, "vata") + TypeTotal(c, "pitta") + TypeTotal(c, "kapha") == 30
  {
    var c := Chosen(responses);
    assert FromQuestions(qs, c) by {
      forall i | 0 <= i < |c| ensures c[i] in qs[i].options {
        assert Answers(qs, i, responses[i].value);
      }
    }
    CompleteTotals(qs, c);
  }
}
