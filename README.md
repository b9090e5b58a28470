# Recruiting questionnaire: a Dafny model

This project models the logic that a small recruiting app for a jewellery shop
actually runs. The app has a React front end and a FastAPI backend. The model covers:

- **The candidate form** (`CandidateForm.js`). It holds the form state: name, phone,
  one answer per multiple-choice question, one answer per free-text question, and the
  `submitting` / `submitted` / `error` flags. Each edit installs a fresh copy of an
  answer array. A submit trims name and phone to validate them, builds the payload in
  question-bank order, and then either resets the form or keeps it.
- **The employer dashboard** (`EmployerDashboard.js`). A candidate's total is the sum
  of the numeric scores of their answers. The card shows that total, or nothing when no
  answer is scored. The fetched list is sorted in place, stably, from high to low. The
  view checks for a stored token when it opens, has a success and a failure path for
  loading, and has a logout action.
- **Answer evaluation** (`evaluation.py`). Multiple-choice answers are scored against
  a fixed answer key. Free-text answers go to a language model, which the model treats
  as an oracle. A loop produces one verdict per answer and creates the chat model
  lazily.
- **Backend authorisation and storage** (`main.py`). Login checks the credentials.
  `GET /candidates` checks the `Bearer` header. `POST /candidates` pairs each answer
  with its verdict by position.

Modules: `Wrappers` (Option/Result), `Text` (JavaScript `trim`, Python `strip`,
`startswith`, `split(" ", 1)`), `Api`, `CandidateForm`, `Ranking`, `Dashboard`,
`Evaluation`, `Backend`, `Integration`.

Parameters stand in for the parts of the environment the model does not include:

- The question banks are constructor parameters of the form.
- The backend call's outcome is a `success: bool` argument.
- The language model's reply is a function `llm(question, answer)`. Decoding that reply
  as JSON is a function `parse(content)`.
- `OPENAI_API_KEY` is an `Option<string>` argument. The environment of `main.py` is a
  map. The generated UUID and the database-assigned candidate id are arguments.
- `localStorage` and the router are small classes (`LocalStorage`, `Router`). The
  router records the paths it was sent to.

Scores are `real`, so sums are exact.

The submit handler awaits a network call. The model splits it at that point:
`BeginSubmit` runs up to the call and `FinishSubmit(success)` runs the continuation.
`HandleSubmit` is the two in sequence.

Two points about the code:

- No form calls the evaluation-status endpoint, so nothing polls and the form keeps no
  submission id.
- "Gửi đơn khác" (`CandidateForm.js:220`) only sets `submitted` to false. A successful
  submit has already put the fields back to their defaults.

## Model

| member | source | states |
|---|---|---|
| Text.IsJsBlank | ai_app_frontend/src/components/CandidateForm.js:173 | the submit guard's blankness test holds exactly when every character is JavaScript whitespace |
| Text.JsTrimEmptyIff | ai_app_frontend/src/components/CandidateForm.js:173 | `!s.trim()` holds exactly when the guard's blankness test does, so the guard is the source's |
| Text.StripEmptyIff | ai_app_frontend/src/components/CandidateForm.js:173 | trimming leaves the empty string iff the input is all whitespace |
| Text.StripShape | ai_app_backend/evaluation.py:92 | `strip()` keeps the slice between the leading and trailing blank runs; it starts and ends with a non-blank character |
| Text.SplitOnce | ai_app_backend/main.py:131 | `split(" ", 1)` yields one or two parts |
| Text.SplitOnceJoin | ai_app_backend/main.py:131 | one part: the whole string, which has no separator; two parts: first + separator + second is the input, and the first part has no separator |
| Api.BearerHeader | ai_app_frontend/src/api.js:81 | the header is `Bearer ` followed by the token, 7 characters longer |
| Evaluation.AnswerKeyShape | ai_app_backend/evaluation.py:24-45 | the answer key covers exactly ids 1..20, and each value is A, B or C |
| Evaluation.EvaluateMultipleChoice | ai_app_backend/evaluation.py:48-56 | the score is 0 or 1, and it is 1 iff the id has a non-empty key equal to the selection |
| Evaluation.MultipleChoiceOutcomes | ai_app_backend/evaluation.py:50-56 | unknown id gives (0, "No evaluation available"); a match gives (1, "Câu trả lời chính xác"); otherwise (0, "Đáp án đúng là " + key) |
| Evaluation.UnansweredScoresZero | ai_app_backend/evaluation.py:50-56 | an empty selection scores 0 for every id |
| Evaluation.MissingSelectionIsEmpty | ai_app_backend/evaluation.py:125-127 | a missing `selected` is evaluated as `''` and scores 0 |
| Evaluation.GetChatModel | ai_app_backend/evaluation.py:59-68 | fails, with the fixed message, exactly when the API key is unset or empty |
| Evaluation.EvaluateShortAnswer | ai_app_backend/evaluation.py:91-104 | the model's reply is stripped and decoded: a decoded score is used and a missing one counts 0, a missing feedback is empty; an undecodable reply gives (0, the stripped reply) |
| Evaluation.UndecodableReply | ai_app_backend/evaluation.py:92-104 | a reply that does not decode scores 0.0; its feedback is the whole stripped reply, never longer than the reply |
| Evaluation.EvaluateAnswer | ai_app_backend/evaluation.py:124-135 | type `mc`: the multiple-choice verdict of `selected or ''`, scoring 1 iff a non-empty key exists and the selection is it; type `text`: the short-answer verdict of `answer or ''`; any other type: (0, "Unknown question type") |
| Evaluation.EvaluateCandidateAnswers | ai_app_backend/evaluation.py:107-137 | on success, one verdict per answer, verdict i for answer i; the chat model is requested at most once, and only when some answer is free text; with a model call that always returns, the evaluation fails iff the model is needed and no key is set |
| Backend.LoadConfig | ai_app_backend/main.py:48-50 | absent variables give `admin` / `password` / the fresh UUID; present ones are used as given |
| Backend.EmployerLogin | ai_app_backend/main.py:99-112 | returns the configured token iff username and password both match, otherwise 401 "Invalid credentials" |
| Backend.ExtractToken | ai_app_backend/main.py:131 | given the `Bearer ` prefix, `split(" ", 1)[1]` is the header minus its first 7 characters |
| Backend.Authorize | ai_app_backend/main.py:126-133 | a missing or unprefixed header gives 401 "Missing or invalid authorization header" whatever the token; a wrong token gives 401 "Invalid token"; access is allowed iff the prefixed token equals the configured one |
| Backend.ListCandidates | ai_app_backend/main.py:115-135 | the stored list comes back iff the header is authorised; otherwise the guard's error does |
| Backend.BearerRoundTrip | ai_app_backend/main.py:126-133 | the header the frontend builds from `t` is accepted iff `t` is the configured token, else "Invalid token" |
| Backend.LoginThenList | ai_app_backend/main.py:108-133 | the token a successful login returns, sent as a bearer header, is accepted |
| Backend.Store | ai_app_backend/main.py:83-92 | the stored row carries the candidate id, the answer's id, question, type, selection and text as submitted, and the verdict's score and feedback |
| Backend.Pair | ai_app_backend/main.py:83-94 | the zip has the length of the shorter list, and row i holds answer i's fields with verdict i's score and feedback |
| Backend.CreateCandidate | ai_app_backend/main.py:62-96 | fails iff the evaluation fails; on success, every submitted answer is stored, in order, with its own verdict |
| Ranking.NumericScores | ai_app_frontend/src/components/EmployerDashboard.js:82-84 | the filter keeps at most one score per answer, and is empty iff no answer has a numeric score |
| Ranking.TotalScore | ai_app_frontend/src/components/EmployerDashboard.js:81-86 | `getTotalScore` equals the per-answer sum `ScoreOf` of the scores (null counts 0), and is 0 when no score is numeric |
| Ranking.CardTotal | ai_app_frontend/src/components/EmployerDashboard.js:14-19 | the card total is null iff no answer is scored; otherwise it equals the sort key |
| Ranking.TotalScoreBounds | ai_app_frontend/src/components/EmployerDashboard.js:21 | when each score lies between 0 and its type's points (1 for multiple choice, 2 for free text), the total lies between 0 and the sum of those points |
| Ranking.Insert | ai_app_frontend/src/components/EmployerDashboard.js:80-92 | one insertion step of the stable sort adds exactly one entry (its place is pinned by `InsertAt`, its effect by `InsertPermutes`, `InsertDescending`, `InsertWithKey`) |
| Ranking.SortDescending | ai_app_frontend/src/components/EmployerDashboard.js:80-92 | the sort keeps the length; order, permutation, stability and uniqueness are the lemmas below |
| Ranking.SortedByScore | ai_app_frontend/src/components/EmployerDashboard.js:80-92 | the ranked list is descending by `getTotalScore`, a permutation of the fetched list, and keeps candidates with equal totals in their fetched order |
| Ranking.SortIsDescending | ai_app_frontend/src/components/EmployerDashboard.js:80-92 | the sorted list does not increase in key, and has the input's length |
| Ranking.SortPermutes | ai_app_frontend/src/components/EmployerDashboard.js:80-94 | the sorted list is a permutation of the fetched one |
| Ranking.SortIsStable | ai_app_frontend/src/components/EmployerDashboard.js:80-92 | for every key value, the elements with that key keep their input order |
| Ranking.StableSortUnique | ai_app_frontend/src/components/EmployerDashboard.js:80-92 | any descending arrangement that keeps equal keys in input order equals the model's sort, so any stable sort gives the same result |
| Ranking.InsertInPlace | ai_app_frontend/src/components/EmployerDashboard.js:80-92 | one insertion step moves a[i] into the sorted prefix as `Insert` says, and leaves the suffix alone |
| Ranking.SortInPlace | ai_app_frontend/src/components/EmployerDashboard.js:80-92 | in-place insertion sort leaves the functional stable sort of the old contents |
| Ranking.SortByScore | ai_app_frontend/src/components/EmployerDashboard.js:80-92 | `data.sort` with comparator `scoreB - scoreA` leaves the array descending by total, a permutation of the input, and stable |
| Ranking.TwoCandidateRanking | ai_app_frontend/src/components/EmployerDashboard.js:80-92 | candidates with totals 5 (one null score) and 6 are ranked 6 first |
| Dashboard.LocalStorage.GetItem | ai_app_frontend/src/components/EmployerDashboard.js:70 | gives the stored value, or null when the key is absent |
| Dashboard.LocalStorage.RemoveItem | ai_app_frontend/src/components/EmployerDashboard.js:105 | removes exactly that key |
| Dashboard.Router.Navigate | ai_app_frontend/src/components/EmployerDashboard.js:72 | records the path |
| Dashboard.EmployerDashboard.constructor | ai_app_frontend/src/components/EmployerDashboard.js:65-67 | the view starts with no candidates, loading, and no error |
| Dashboard.EmployerDashboard.Open | ai_app_frontend/src/components/EmployerDashboard.js:69-77 | a missing or empty token navigates to `/employer` and requests nothing; otherwise the request uses the stored token and there is no navigation |
| Dashboard.EmployerDashboard.LoadSucceeded | ai_app_frontend/src/components/EmployerDashboard.js:77-98 | the fetched array is sorted in place by score and becomes the list; it is a permutation, descending and stable; loading ends |
| Dashboard.EmployerDashboard.LoadFailed | ai_app_frontend/src/components/EmployerDashboard.js:95-99 | the error is the fixed message, the list is unchanged and loading ends |
| Dashboard.EmployerDashboard.Logout | ai_app_frontend/src/components/EmployerDashboard.js:104-107 | `authToken` is removed (nothing else is) and the view navigates to `/employer` |
| Dashboard.FailedLoadShowsNothing | ai_app_frontend/src/components/EmployerDashboard.js:65-99 | a freshly opened view whose load fails shows an empty list, the fixed message, and is not loading |
| CandidateForm.OptionLetter | ai_app_frontend/src/components/CandidateForm.js:262 | option k's letter is the single character with code 65 + k |
| CandidateForm.OfferedLetters | ai_app_frontend/src/components/CandidateForm.js:261-262 | one letter per option, the k-th being `OptionLetter(k)` |
| CandidateForm.FourOptionsOfferAToD | ai_app_frontend/src/components/CandidateForm.js:261-262 | a four-option question offers exactly A, B, C, D |
| CandidateForm.ChoiceEntries | ai_app_frontend/src/components/CandidateForm.js:185-190 | one `mc` entry per question, in bank order, carrying the id, the question text and the selected letter |
| CandidateForm.TextEntries | ai_app_frontend/src/components/CandidateForm.js:192-197 | one `text` entry per question, in bank order, carrying the id, the question text and the answer |
| CandidateForm.BuildPayload | ai_app_frontend/src/components/CandidateForm.js:180-199 | name and phone exactly as typed; \|MC\| + \|SA\| entries, multiple-choice first, each entry matching its question |
| CandidateForm.PayloadIdsFollowBanks | ai_app_frontend/src/components/CandidateForm.js:183-198 | the payload's ids are the multiple-choice ids followed by the free-text ids, in bank order |
| CandidateForm.SmallBankPayload | ai_app_frontend/src/components/CandidateForm.js:180-199 | with 2 MC + 1 free-text question and answers "A", "", "hello", the payload is mc 1 "A", mc 2 "", text 3 "hello" |
| CandidateForm.CopyWithSlot | ai_app_frontend/src/components/CandidateForm.js:156-157 | the copy is a fresh array equal to the source with slot i replaced |
| CandidateForm.EmptyAnswers | ai_app_frontend/src/components/CandidateForm.js:143-149 | a fresh array of n empty answers |
| CandidateForm.Form.constructor | ai_app_frontend/src/components/CandidateForm.js:140-152 | empty name and phone; answer arrays of the bank lengths, all empty; not submitting, not submitted, no error |
| CandidateForm.Form.SetName | ai_app_frontend/src/components/CandidateForm.js:240 | sets the name; nothing else changes |
| CandidateForm.Form.SetPhone | ai_app_frontend/src/components/CandidateForm.js:251 | sets the phone; nothing else changes |
| CandidateForm.Form.HandleMcChange | ai_app_frontend/src/components/CandidateForm.js:155-159 | installs a fresh array of the same length with slot i set to v and the rest unchanged; the old array is not written; nothing else changes |
| CandidateForm.Form.HandleSaChange | ai_app_frontend/src/components/CandidateForm.js:162-166 | the same, for the free-text answers |
| CandidateForm.Form.BeginSubmit | ai_app_frontend/src/components/CandidateForm.js:169-199 | sends nothing iff name or phone is all whitespace; then the error is the validation message and `submitting` is untouched. Otherwise the error is cleared, `submitting` is set, and the payload of the current values is sent. Fields are unchanged |
| CandidateForm.Form.FinishSubmit | ai_app_frontend/src/components/CandidateForm.js:200-212 | on success: `submitted`, every field back at its default. On failure: the fixed error message, and every field kept. Either way `submitting` ends |
| CandidateForm.Form.HandleSubmit | ai_app_frontend/src/components/CandidateForm.js:169-213 | the whole handler: validation failure changes no field; otherwise the untrimmed pre-submit values are sent, then reset (success) or kept with the error (failure) |
| CandidateForm.Form.SubmitAnother | ai_app_frontend/src/components/CandidateForm.js:220 | `submitted` becomes false and nothing else changes |
| Integration.ToAnswerIn | ai_app_backend/schemas.py:12-19 | a payload entry keeps its id, and its `type` is `mc` or `text` according to its kind |
| Integration.KeyLettersAreOffered | ai_app_backend/evaluation.py:24-45 | every key letter is offered by a four-option question, and picking it scores 1 |
| Integration.FormPayloadVerdicts | ai_app_backend/evaluation.py:122-136 | the form's multiple-choice entries are scored by the key with the picked letter; its free-text entries are scored by the model on the question text and answer |
| Integration.FormNeedsModelIffTextQuestions | ai_app_backend/evaluation.py:128-131 | a form submission needs the chat model iff the free-text bank is non-empty |
| Integration.StoredCandidateTotal | ai_app_backend/main.py:83-94 | for a stored candidate, the dashboard's sort key is the sum of the stored verdict scores, and a candidate with at least one answer shows that sum as its card total |

## Left out

- Network and storage plumbing: the `fetch` wrappers in `api.js` (only the header line
  is modelled), the database engine and sessions, `db.add` / `db.commit` / `query`, and
  the background evaluation thread in `background_tasks.py`.
- Evaluation status polling: `getEvaluationStatus` exists, but no form in this code
  calls it.
- The language-model call and JSON decoding. `llm` and `parse` are oracle parameters.
  The prompt texts and the `float(...)`
  conversion of the reply's score are not modelled; a failed conversion falls under
  `parse` returning `None`.
- Evaluation.EvaluateShortAnswer: a JSON `null` or non-string `feedback` is not modelled.
  `data.get('feedback', '')` (`evaluation.py:96`) returns such a value as it is, and
  `create_candidate` stores it (a NULL `evaluation_feedback` for `null`). In the model,
  `parse` reports the feedback as absent (which becomes `""`) or as a string.
- Evaluation.EvaluateCandidateAnswers: the model call `llm` is assumed always to return. In
  the source, `chat.invoke` (`evaluation.py:91`) is outside the `try`, so a network error
  or a rejected key raises and the whole evaluation fails. `create_candidate` then fails
  after the candidate row is committed. The model's failure condition covers only the
  missing key.
- Evaluation.EvaluateCandidateAnswers: short-answer scores are not shown to lie in
  0..2. The scale is only requested in the prompt, and the oracle's reply is unconstrained.
- Backend.EmployerLogin: the request body is taken as a map of strings. A non-string
  value can never equal the configured credentials, so the outcome is the same.
- Backend.CreateCandidate: the candidate row is committed before evaluation runs. When
  evaluation fails, that row stays in the database without answers. The model returns
  only the error.
- Request-schema validation errors (HTTP 422) raised by FastAPI before a handler runs.
- HTML constraint validation: the `required` attributes on the name and phone inputs, the
  radio groups and the textareas (`CandidateForm.js:241`, `:252`, `:271`, `:291`) stop the
  browser firing `submit` while any of them is empty. The model guards only where
  `handleSubmit` does. So an unanswered multiple-choice entry, as in `SmallBankPayload` or
  `Integration.FormPayloadVerdicts`, is something the handler accepts but the page cannot send.
- CandidateForm.Form.BeginSubmit: has no guard against a call while `submitting` is
  already true. On the page, `disabled={submitting}` on the submit button
  (`CandidateForm.js:296`) blocks a second submit while one is pending. That attribute is
  outside the model.
- CandidateForm.Form.HandleSubmit: assumes no field is edited while the call is
  pending. `BeginSubmit` and `FinishSubmit` cover interleaved edits.
- CandidateForm.OptionLetter: requires the code to stay below the surrogate range
  (Dafny characters are Unicode scalar values). The 16-bit truncation of
  `String.fromCharCode` is not modelled.
- `toFixed(1)` formatting, floating-point rounding, JSX rendering, CSS, the card's
  expand/collapse toggle, `console.error`, `e.preventDefault()`, routing (`App.js`,
  `Welcome.js`, `index.js`) and the login page (`EmployerLogin.js`). The login page
  only stores the returned token and navigates.
- Static content: the question texts in `questionBank.js` (10 multiple-choice
  questions) and in the form (20), and `ideal_answers.py`. The form's banks are
  parameters. The card's displayed maximum of 22 assumes 10 multiple-choice + 6 free-text
  questions. The form asks 20 + 15, so the attainable maximum is 50. The 22 is a
  display constant and is not modelled.
