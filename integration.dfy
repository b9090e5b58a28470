/**
 * How the parts meet: the form's payload as the backend's request schema reads
 * it, the answer key against the letters the form offers, and the stored
 * verdicts as the dashboard adds them up.
 */
module Integration {
  import opened Wrappers
  import CandidateForm
  import Evaluation
  import Backend
  import Ranking

  /** A payload entry once serialised to JSON and validated into `AnswerCreate`. */
  function ToAnswerIn(a: CandidateForm.PayloadAnswer): (r: Evaluation.AnswerIn)
    ensures r.id == CandidateForm.AnswerId(a)
    ensures r.kind == "mc" <==> a.Mc?
    ensures r.kind == "text" <==> a.TextAnswer?
  {
    match a
    case Mc(id, q, selected) => Evaluation.AnswerIn("mc", id, q, Some(selected), None)
    case TextAnswer(id, q, answer) => Evaluation.AnswerIn("text", id, q, None, Some(answer))
  }

  function ToAnswersIn(answers: seq<CandidateForm.PayloadAnswer>): (r: seq<Evaluation.AnswerIn>)
    ensures |r| == |answers| && forall k :: 0 <= k < |r| ==> r[k] == ToAnswerIn(answers[k])
  {
    seq(|answers|, k requires 0 <= k < |answers| => ToAnswerIn(answers[k]))
  }

  /**
   * Each key letter is one a four-option question offers, so for every question
   * of the answer key the correct answer can be picked on the form.
   */
  lemma KeyLettersAreOffered(q: CandidateForm.ChoiceQuestion)
    requires q.id in Evaluation.McAnswerKeys && |q.options| == 4
    ensures Evaluation.McAnswerKeys[q.id] in CandidateForm.OfferedLetters(q)
    ensures Evaluation.EvaluateMultipleChoice(q.id, Evaluation.McAnswerKeys[q.id]).score == 1.0
  {
    Evaluation.AnswerKeyShape();
    CandidateForm.FourOptionsOfferAToD(q);
    assert Evaluation.McAnswerKeys[q.id] in {"A", "B", "C"};
  }

  /**
   * The verdicts the backend computes for a submitted form: the multiple-choice
   * entries are scored against the key with the letter picked (empty when
   * unanswered), the free-text entries by the model.
   */
  lemma FormPayloadVerdicts(name: string, phone: string,
                            mcBank: seq<CandidateForm.ChoiceQuestion>, mc: seq<string>,
                            saBank: seq<CandidateForm.TextQuestion>, sa: seq<string>,
                            llm: (string, string) -> string,
                            parse: string -> Option<Evaluation.ReplyFields>)
    requires |mc| == |mcBank| && |sa| == |saBank|
    ensures var answers := ToAnswersIn(CandidateForm.BuildPayload(name, phone, mcBank, mc, saBank, sa).answers);
      && |answers| == |mcBank| + |saBank|
      && (forall k :: 0 <= k < |mcBank| ==>
            Evaluation.EvaluateAnswer(answers[k], llm, parse)
            == Evaluation.EvaluateMultipleChoice(mcBank[k].id, mc[k]))
      && (forall k :: 0 <= k < |saBank| ==>
            Evaluation.EvaluateAnswer(answers[|mcBank| + k], llm, parse)
            == Evaluation.EvaluateShortAnswer(saBank[k].text, sa[k], llm, parse))
  {
  }

  /** A submission needs the chat model exactly when the free-text bank is not empty. */
  lemma FormNeedsModelIffTextQuestions(name: string, phone: string,
                                       mcBank: seq<CandidateForm.ChoiceQuestion>, mc: seq<string>,
                                       saBank: seq<CandidateForm.TextQuestion>, sa: seq<string>)
    requires |mc| == |mcBank| && |sa| == |saBank|
    ensures Evaluation.NeedsChatModel(ToAnswersIn(CandidateForm.BuildPayload(name, phone, mcBank, mc, saBank, sa).answers))
            <==> saBank != []
  {
    var answers := ToAnswersIn(CandidateForm.BuildPayload(name, phone, mcBank, mc, saBank, sa).answers);
    if saBank != [] {
      assert answers[|mcBank|].kind == "text";
    }
  }

  /** A stored answer as the candidate list returns it. */
  function ToAnswerOut(row: Backend.StoredAnswer): Ranking.AnswerOut {
    Ranking.AnswerOut(row.question, row.kind, row.selected, row.answerText, Some(row.score), Some(row.feedback))
  }

  function ToAnswersOut(rows: seq<Backend.StoredAnswer>): (r: seq<Ranking.AnswerOut>)
    ensures |r| == |rows| && forall k :: 0 <= k < |r| ==> r[k] == ToAnswerOut(rows[k])
  {
    seq(|rows|, k requires 0 <= k < |rows| => ToAnswerOut(rows[k]))
  }

  /**
   * Sum of the verdict scores stored for a candidate, on the backend's rows; the
   * dashboard's `Ranking.ScoreOf` sums the same scores on the list it fetches, and
   * `StoredScoreOf` shows the two agree.
   */
  function StoredScore(rows: seq<Backend.StoredAnswer>): real {
    if rows == [] then 0.0 else rows[0].score + StoredScore(rows[1..])
  }

  lemma {:induction false} StoredScoreOf(rows: seq<Backend.StoredAnswer>)
    ensures Ranking.ScoreOf(ToAnswersOut(rows)) == StoredScore(rows)
  {
    if rows != [] {
      assert ToAnswersOut(rows)[1..] == ToAnswersOut(rows[1..]);
      StoredScoreOf(rows[1..]);
    }
  }

  /**
   * A candidate stored by `create_candidate` with at least one answer shows a
   * card total, and it and the sort key are the sum of the stored verdict scores.
   */
  lemma StoredCandidateTotal(c: Backend.CreatedCandidate)
    ensures var rec := Ranking.CandidateRecord(c.id, c.name, c.phone, ToAnswersOut(c.answers));
      && Ranking.TotalScore(rec) == StoredScore(c.answers)
      && (c.answers != [] ==> Ranking.CardTotal(rec) == Some(StoredScore(c.answers)))
  {
    var rec := Ranking.CandidateRecord(c.id, c.name, c.phone, ToAnswersOut(c.answers));
    StoredScoreOf(c.answers);
    if c.answers != [] {
      assert rec.answers[0].score.Some?;
    }
  }
}
