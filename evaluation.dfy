/**
 * Scoring of submitted answers (ai_app_backend/evaluation.py): a fixed answer key
 * for the multiple-choice questions, a language-model scorer for the free-text
 * ones, and the loop that evaluates a whole submission in order.
 *
 * The language model is an oracle: `llm(question, answer)` is the raw text the
 * model replies with, and `parse(content)` is what decoding that text as a JSON
 * object yields (`None` when decoding, field access or the float conversion raises).
 */
module Evaluation {
  import opened Wrappers
  import Text

  /** One entry of a submission, as the request schema receives it. */
  datatype AnswerIn = AnswerIn(kind: string, id: int, question: string,
                               selected: Option<string>, answer: Option<string>)

  /** The `{'score': …, 'feedback': …}` record produced for one answer. */
  datatype Verdict = Verdict(score: real, feedback: string)

  /** The two fields read from a decoded model reply; absent fields are `None`. */
  datatype ReplyFields = ReplyFields(score: Option<real>, feedback: Option<string>)

  /** The chat model handle `get_chat_model` builds. */
  datatype ChatModel = ChatModel(modelName: string, temperature: real)

  /** Correct option letter of each multiple-choice question, by question id. */
  const McAnswerKeys: map<int, string> := map[
    1 := "B", 2 := "B", 3 := "B", 4 := "B", 5 := "B",
    6 := "B", 7 := "A", 8 := "B", 9 := "A", 10 := "B",
    11 := "A", 12 := "B", 13 := "C", 14 := "A", 15 := "B",
    16 := "B", 17 := "B", 18 := "A", 19 := "A", 20 := "A"]

  const NoEvaluation := "No evaluation available"
  const CorrectFeedback := "Câu trả lời chính xác"
  const WrongFeedbackPrefix := "Đáp án đúng là "
  const UnknownType := "Unknown question type"
  const MissingApiKey := "OPENAI_API_KEY environment variable is not set. Please set your OpenAI API key."

  /** The answer key covers exactly the ids 1..20, and every key is one of A, B, C. */
  lemma AnswerKeyShape()
    ensures forall qid :: qid in McAnswerKeys <==> 1 <= qid <= 20
    ensures forall qid :: qid in McAnswerKeys ==> McAnswerKeys[qid] in {"A", "B", "C"}
  {
    forall qid | 1 <= qid <= 20 ensures qid in McAnswerKeys {
      assert qid in {1, 2, 3, 4, 5, 6, 7, 8, 9, 10, 11, 12, 13, 14, 15, 16, 17, 18, 19, 20};
    }
  }

  /** `evaluate_multiple_choice`: a lookup in the key; a missing or empty key is neutral. */
  function EvaluateMultipleChoice(qid: int, selected: string): (v: Verdict)
    ensures v.score == 0.0 || v.score == 1.0
    ensures v.score == 1.0 <==> qid in McAnswerKeys && McAnswerKeys[qid] != "" && selected == McAnswerKeys[qid]
  {
    var correct := if qid in McAnswerKeys then McAnswerKeys[qid] else "";
    if correct == "" then Verdict(0.0, NoEvaluation)
    else if selected == correct then Verdict(1.0, CorrectFeedback)
    else Verdict(0.0, WrongFeedbackPrefix + correct)
  }

  /** The three outcomes of `evaluate_multiple_choice` and their fixed feedback texts. */
  lemma MultipleChoiceOutcomes(qid: int, selected: string)
    ensures qid !in McAnswerKeys ==> EvaluateMultipleChoice(qid, selected) == Verdict(0.0, NoEvaluation)
    ensures qid in McAnswerKeys && selected == McAnswerKeys[qid] ==>
      EvaluateMultipleChoice(qid, selected) == Verdict(1.0, CorrectFeedback)
    ensures qid in McAnswerKeys && selected != McAnswerKeys[qid] ==>
      EvaluateMultipleChoice(qid, selected) == Verdict(0.0, WrongFeedbackPrefix + McAnswerKeys[qid])
  {
    AnswerKeyShape();
  }

  /** An unanswered question (`selected` empty) never scores, whatever its id. */
  lemma UnansweredScoresZero(qid: int)
    ensures EvaluateMultipleChoice(qid, "").score == 0.0
  {
    AnswerKeyShape();
  }

  /** `get_chat_model`: fails when `OPENAI_API_KEY` is unset or empty. */
  function GetChatModel(apiKey: Option<string>): (r: Result<ChatModel, string>)
    ensures r.Failure? <==> !HasApiKey(apiKey)
    ensures r.Failure? ==> r.error == MissingApiKey
  {
    if !HasApiKey(apiKey) then Failure(MissingApiKey)
    else Success(ChatModel("gpt-3.5-turbo", 0.0))
  }

  /** `if not api_key`: the variable is set and not empty. */
  predicate HasApiKey(apiKey: Option<string>) {
    apiKey.Some? && apiKey.value != ""
  }

  /**
   * `evaluate_short_answer(question, answer, chat)`: the model's reply, stripped, is
   * decoded as a JSON object (a missing score counts 0, a missing feedback is empty);
   * a reply that does not decode scores 0 with the whole stripped reply as feedback.
   */
  function EvaluateShortAnswer(question: string, answer: string,
                               llm: (string, string) -> string,
                               parse: string -> Option<ReplyFields>): (v: Verdict)
    ensures var content := Text.PyStrip(llm(question, answer));
      && (parse(content).Some? ==> v.score == parse(content).value.score.GetOr(0.0)
                                   && v.feedback == parse(content).value.feedback.GetOr(""))
      && (parse(content).None? ==> v == Verdict(0.0, content))
  {
    var content := Text.PyStrip(llm(question, answer));
    match parse(content)
    case Some(fields) => Verdict(fields.score.GetOr(0.0), fields.feedback.GetOr(""))
    case None => Verdict(0.0, content)
  }

  /**
   * A reply that does not decode scores 0.0, and its feedback is the reply without its
   * leading and trailing whitespace, never longer than the reply.
   */
  lemma UndecodableReply(question: string, answer: string,
                         llm: (string, string) -> string, parse: string -> Option<ReplyFields>)
    requires parse(Text.PyStrip(llm(question, answer))).None?
    ensures EvaluateShortAnswer(question, answer, llm, parse).score == 0.0
    ensures EvaluateShortAnswer(question, answer, llm, parse).feedback == Text.PyStrip(llm(question, answer))
    ensures |EvaluateShortAnswer(question, answer, llm, parse).feedback| <= |llm(question, answer)|
  {
    Text.StripShape(llm(question, answer), Text.IsPySpace);
  }

  /**
   * The verdict for one answer, once a chat model is available if it needs one: the
   * answer's `type` picks the evaluator, and any other type scores 0.
   */
  function EvaluateAnswer(ans: AnswerIn, llm: (string, string) -> string,
                          parse: string -> Option<ReplyFields>): (v: Verdict)
    ensures ans.kind == "mc" ==> v == EvaluateMultipleChoice(ans.id, ans.selected.GetOr(""))
    ensures ans.kind == "mc" ==>
      (v.score == 1.0 <==> ans.id in McAnswerKeys && McAnswerKeys[ans.id] != ""
                           && ans.selected == Some(McAnswerKeys[ans.id]))
    ensures ans.kind == "text" ==> v == EvaluateShortAnswer(ans.question, ans.answer.GetOr(""), llm, parse)
    ensures ans.kind != "mc" && ans.kind != "text" ==> v == Verdict(0.0, UnknownType)
  {
    if ans.kind == "mc" then EvaluateMultipleChoice(ans.id, ans.selected.GetOr(""))
    else if ans.kind == "text" then EvaluateShortAnswer(ans.question, ans.answer.GetOr(""), llm, parse)
    else Verdict(0.0, UnknownType)
  }

  /** `ans.get('selected') or ''`: a missing and an empty selection are the same. */
  lemma MissingSelectionIsEmpty(qid: int, question: string, answer: Option<string>,
                                llm: (string, string) -> string, parse: string -> Option<ReplyFields>)
    ensures EvaluateAnswer(AnswerIn("mc", qid, question, None, answer), llm, parse)
         == EvaluateAnswer(AnswerIn("mc", qid, question, Some(""), answer), llm, parse)
    ensures EvaluateAnswer(AnswerIn("mc", qid, question, None, answer), llm, parse).score == 0.0
  {
    UnansweredScoresZero(qid);
  }

  /** Some answer of the submission is free text, so the chat model is needed. */
  ghost predicate NeedsChatModel(answers: seq<AnswerIn>) {
    exists i :: 0 <= i < |answers| && answers[i].kind == "text"
  }

  /** The verdict of every answer, in order: what the evaluation loop collects. */
  function Verdicts(answers: seq<AnswerIn>, llm: (string, string) -> string,
                    parse: string -> Option<ReplyFields>): (vs: seq<Verdict>)
    ensures |vs| == |answers|
    decreases |answers|
  {
    if answers == [] then []
    else Verdicts(answers[..|answers| - 1], llm, parse) + [EvaluateAnswer(answers[|answers| - 1], llm, parse)]
  }

  /** Verdict `i` is the verdict of answer `i`. */
  lemma {:induction false} VerdictsAt(answers: seq<AnswerIn>, llm: (string, string) -> string,
                                      parse: string -> Option<ReplyFields>)
    ensures forall i :: 0 <= i < |answers| ==> Verdicts(answers, llm, parse)[i] == EvaluateAnswer(answers[i], llm, parse)
    decreases |answers|
  {
    if answers != [] {
      var init := answers[..|answers| - 1];
      var last := EvaluateAnswer(answers[|answers| - 1], llm, parse);
      var vs := Verdicts(answers, llm, parse);
      assert vs == Verdicts(init, llm, parse) + [last];
      VerdictsAt(init, llm, parse);
      forall i | 0 <= i < |answers| ensures vs[i] == EvaluateAnswer(answers[i], llm, parse) {
        if i < |init| {
          assert init[i] == answers[i];
        }
      }
    }
  }

  /**
   * Some answer of `answers` is free text, checked from the last answer back. This is
   * `NeedsChatModel` again in recursive form: the loop invariant uses it because an
   * existential over the prefix is far more work for the solver.
   */
  predicate HasTextAnswer(answers: seq<AnswerIn>)
    decreases |answers|
  {
    answers != [] && (answers[|answers| - 1].kind == "text" || HasTextAnswer(answers[..|answers| - 1]))
  }

  /** The recursive check agrees with `NeedsChatModel`. */
  lemma {:induction false} HasTextAnswerIff(answers: seq<AnswerIn>)
    ensures HasTextAnswer(answers) <==> NeedsChatModel(answers)
    decreases |answers|
  {
    if answers != [] {
      var init := answers[..|answers| - 1];
      HasTextAnswerIff(init);
      if NeedsChatModel(init) {
        var k :| 0 <= k < |init| && init[k].kind == "text";
        assert answers[k] == init[k];
      }
      if NeedsChatModel(answers) && answers[|answers| - 1].kind != "text" {
        var k :| 0 <= k < |answers| && answers[k].kind == "text";
        assert init[k] == answers[k];
      }
    }
  }

  /**
   * `evaluate_candidate_answers`: one verdict per answer, in order. The chat model is
   * requested lazily, at the first free-text answer, and at most once (`modelRequests`
   * counts the calls to `get_chat_model`); without an API key that call raises and
   * the whole evaluation fails.
   */
  method EvaluateCandidateAnswers(answers: seq<AnswerIn>, apiKey: Option<string>,
                                  llm: (string, string) -> string,
                                  parse: string -> Option<ReplyFields>)
    returns (r: Result<seq<Verdict>, string>, modelRequests: nat)
    ensures modelRequests <= 1
    ensures modelRequests == 1 <==> NeedsChatModel(answers)
    ensures r.Failure? <==> NeedsChatModel(answers) && !HasApiKey(apiKey)
    ensures r.Failure? ==> r.error == MissingApiKey
    ensures r.Success? ==> |r.value| == |answers|
    ensures r.Success? ==> forall i :: 0 <= i < |answers| ==> r.value[i] == EvaluateAnswer(answers[i], llm, parse)
  {
    var results: seq<Verdict> := [];
    var chatModel: Option<ChatModel> := None;
    modelRequests := 0;
    for i := 0 to |answers|
      invariant results == Verdicts(answers[..i], llm, parse)
      invariant chatModel.Some? <==> HasTextAnswer(answers[..i])
      invariant modelRequests == if chatModel.Some? then 1 else 0
      invariant chatModel.Some? ==> HasApiKey(apiKey)
    {
      var ans := answers[i];
      assert answers[..i + 1][..i] == answers[..i];
      var verdict;
      if ans.kind == "mc" {
        var selected := ans.selected.GetOr("");
        verdict := EvaluateMultipleChoice(ans.id, selected);
      } else if ans.kind == "text" {
        if chatModel.None? {
          modelRequests := modelRequests + 1;
          var created := GetChatModel(apiKey);
          if created.Failure? {
            return Failure(created.error), modelRequests;
          }
          chatModel := Some(created.value);
        }
        var answerText := ans.answer.GetOr("");
        verdict := EvaluateShortAnswer(ans.question, answerText, llm, parse);
      } else {
        verdict := Verdict(0.0, UnknownType);
      }
      assert verdict == EvaluateAnswer(ans, llm, parse);
      results := results + [verdict];
    }
    assert answers[..|answers|] == answers;
    HasTextAnswerIff(answers);
    VerdictsAt(answers, llm, parse);
    r := Success(results);
  }
}
