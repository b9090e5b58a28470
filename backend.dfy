/**
 * The request handlers of the FastAPI backend (ai_app_backend/main.py) with their
 * database calls left out: employer login, the bearer-token check guarding the
 * candidate list, and the storing of a submission with its verdicts.
 */
module Backend {
  import opened Wrappers
  import Text
  import Api
  import Evaluation

  /** An `HTTPException`. */
  datatype HttpError = HttpError(status: int, detail: string)

  /** The employer credentials and token read at start-up. */
  datatype Config = Config(username: string, password: string, token: string)

  const Unauthorized := 401
  const InvalidCredentials := "Invalid credentials"
  const BadHeader := "Missing or invalid authorization header"
  const InvalidToken := "Invalid token"
  const BearerPrefix := "Bearer "

  /** `os.getenv(key, default)`: the default only when the variable is absent. */
  function Getenv(env: map<string, string>, key: string, default: string): string {
    if key in env then env[key] else default
  }

  /** The module-level configuration; `freshUuid` stands for `str(uuid.uuid4())`. */
  function LoadConfig(env: map<string, string>, freshUuid: string): (cfg: Config)
    ensures "EMPLOYER_USERNAME" !in env ==> cfg.username == "admin"
    ensures "EMPLOYER_PASSWORD" !in env ==> cfg.password == "password"
    ensures "EMPLOYER_TOKEN" !in env ==> cfg.token == freshUuid
    ensures "EMPLOYER_USERNAME" in env ==> cfg.username == env["EMPLOYER_USERNAME"]
    ensures "EMPLOYER_PASSWORD" in env ==> cfg.password == env["EMPLOYER_PASSWORD"]
    ensures "EMPLOYER_TOKEN" in env ==> cfg.token == env["EMPLOYER_TOKEN"]
  {
    Config(Getenv(env, "EMPLOYER_USERNAME", "admin"),
           Getenv(env, "EMPLOYER_PASSWORD", "password"),
           Getenv(env, "EMPLOYER_TOKEN", freshUuid))
  }

  /**
   * `employer_login`: the configured token exactly when both credentials match.
   * The request body is a JSON object; entries that are missing (or not strings)
   * never equal the configured strings, so a map of strings carries everything.
   */
  function EmployerLogin(cfg: Config, credentials: map<string, string>): (r: Result<string, HttpError>)
    ensures r.Success? <==> ("username" in credentials && credentials["username"] == cfg.username
                             && "password" in credentials && credentials["password"] == cfg.password)
    ensures r.Success? ==> r.value == cfg.token
    ensures r.Failure? ==> r.error == HttpError(Unauthorized, InvalidCredentials)
  {
    var username := if "username" in credentials then Some(credentials["username"]) else None;
    var password := if "password" in credentials then Some(credentials["password"]) else None;
    if username == Some(cfg.username) && password == Some(cfg.password) then Success(cfg.token)
    else Failure(HttpError(Unauthorized, InvalidCredentials))
  }

  /** `authorization.split(" ", 1)[1]` once the header is known to start with the prefix. */
  function ExtractToken(header: string): (token: string)
    requires Text.StartsWith(header, BearerPrefix)
    ensures token == header[7..]
  {
    var k := Text.IndexOf(header, ' ');
    assert header[6] == ' ';
    assert forall j :: 0 <= j < 6 ==> header[j] == BearerPrefix[j] && header[j] != ' ';
    assert k == 6;
    Text.SplitOnce(header, ' ')[1]
  }

  /**
   * The guard of `list_candidates`: a missing header, or one without the
   * `Bearer ` prefix, is refused before any token is looked at; a token other
   * than the configured one is refused next; otherwise the list is returned.
   */
  function Authorize(cfg: Config, authorization: Option<string>): (r: Result<(), HttpError>)
    ensures r.Success? <==> authorization.Some? && Text.StartsWith(authorization.value, BearerPrefix)
                            && authorization.value[7..] == cfg.token
    ensures (authorization.None? || !Text.StartsWith(authorization.value, BearerPrefix))
            ==> r == Failure(HttpError(Unauthorized, BadHeader))
    ensures (authorization.Some? && Text.StartsWith(authorization.value, BearerPrefix)
             && authorization.value[7..] != cfg.token) ==> r == Failure(HttpError(Unauthorized, InvalidToken))
  {
    if authorization.None? || authorization.value == "" || !Text.StartsWith(authorization.value, BearerPrefix) then
      Failure(HttpError(Unauthorized, BadHeader))
    else if ExtractToken(authorization.value) != cfg.token then
      Failure(HttpError(Unauthorized, InvalidToken))
    else
      Success(())
  }

  /** `list_candidates`: the stored candidates, behind `Authorize`. */
  function ListCandidates<T>(cfg: Config, authorization: Option<string>, stored: seq<T>): (r: Result<seq<T>, HttpError>)
    ensures r.Success? <==> Authorize(cfg, authorization).Success?
    ensures r.Success? ==> r.value == stored
    ensures r.Failure? ==> r.error == Authorize(cfg, authorization).error
  {
    match Authorize(cfg, authorization)
    case Success(_) => Success(stored)
    case Failure(e) => Failure(e)
  }

  /** The header the frontend builds is accepted exactly when it carries the configured token. */
  lemma BearerRoundTrip(cfg: Config, token: string)
    ensures Authorize(cfg, Some(Api.BearerHeader(token))).Success? <==> token == cfg.token
    ensures token != cfg.token ==>
      Authorize(cfg, Some(Api.BearerHeader(token))) == Failure(HttpError(Unauthorized, InvalidToken))
  {
    var h := Api.BearerHeader(token);
    assert Text.StartsWith(h, BearerPrefix);
  }

  /** Logging in and presenting the returned token as a bearer header is accepted. */
  lemma LoginThenList(cfg: Config, credentials: map<string, string>)
    requires EmployerLogin(cfg, credentials).Success?
    ensures Authorize(cfg, Some(Api.BearerHeader(EmployerLogin(cfg, credentials).value))).Success?
  {
    BearerRoundTrip(cfg, cfg.token);
  }

  /** One row of the answers table. */
  datatype StoredAnswer = StoredAnswer(candidateId: int, questionId: int, question: string, kind: string,
                                       selected: Option<string>, answerText: Option<string>,
                                       score: real, feedback: string)

  /** The record built for one answer and its verdict: the answer as submitted, the verdict as computed. */
  function Store(candidateId: int, ans: Evaluation.AnswerIn, v: Evaluation.Verdict): (row: StoredAnswer)
    ensures row.candidateId == candidateId && row.questionId == ans.id && row.question == ans.question
    ensures row.kind == ans.kind && row.selected == ans.selected && row.answerText == ans.answer
    ensures row.score == v.score && row.feedback == v.feedback
  {
    StoredAnswer(candidateId, ans.id, ans.question, ans.kind, ans.selected, ans.answer, v.score, v.feedback)
  }

  /** `zip(candidate.answers, evaluation_results)`: pairs by position, stopping at the shorter list. */
  function Pair(candidateId: int, answers: seq<Evaluation.AnswerIn>, verdicts: seq<Evaluation.Verdict>): (rows: seq<StoredAnswer>)
    ensures |rows| == if |answers| <= |verdicts| then |answers| else |verdicts|
    ensures forall i :: 0 <= i < |rows| ==> rows[i] == Store(candidateId, answers[i], verdicts[i])
  {
    if answers == [] || verdicts == [] then []
    else [Store(candidateId, answers[0], verdicts[0])] + Pair(candidateId, answers[1..], verdicts[1..])
  }

  /** The body of a `POST /candidates` request. */
  datatype CandidateCreate = CandidateCreate(name: string, phone: string, answers: seq<Evaluation.AnswerIn>)

  /** What `create_candidate` leaves in the database when evaluation succeeds. */
  datatype CreatedCandidate = CreatedCandidate(id: int, name: string, phone: string, answers: seq<StoredAnswer>)

  /**
   * `create_candidate`. `candidateId` is the id the database assigns to the new row.
   * Every submitted answer is stored with its own verdict; an evaluation failure
   * propagates as an error.
   */
  method CreateCandidate(candidateId: int, candidate: CandidateCreate, apiKey: Option<string>,
                         llm: (string, string) -> string,
                         parse: string -> Option<Evaluation.ReplyFields>)
    returns (r: Result<CreatedCandidate, string>)
    ensures r.Failure? <==> Evaluation.NeedsChatModel(candidate.answers) && !Evaluation.HasApiKey(apiKey)
    ensures r.Success? ==> r.value.id == candidateId && r.value.name == candidate.name
                           && r.value.phone == candidate.phone
    ensures r.Success? ==> |r.value.answers| == |candidate.answers|
    ensures r.Success? ==> forall i :: 0 <= i < |candidate.answers| ==>
      r.value.answers[i] == Store(candidateId, candidate.answers[i],
                                  Evaluation.EvaluateAnswer(candidate.answers[i], llm, parse))
  {
    var evaluated, _ := Evaluation.EvaluateCandidateAnswers(candidate.answers, apiKey, llm, parse);
    if evaluated.Failure? {
      return Failure(evaluated.error);
    }
    var rows := Pair(candidateId, candidate.answers, evaluated.value);
    r := Success(CreatedCandidate(candidateId, candidate.name, candidate.phone, rows));
  }
}
