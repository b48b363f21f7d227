/**
 * The batch handler (app/api/evaluate/route.ts): validates the request,
 * then runs parse -> judge -> aggregate for every uploaded file and answers
 * with one result per file, in input order. Any file's failure turns the
 * whole answer into a 500 carrying that failure's message; there are no
 * partial results.
 *
 * The `p-limit` gate only bounds how many files are in flight at once; the
 * model runs the files one after another and keeps the configured limit as
 * a value (`ConcurrencyLimit`).
 */
module EvaluateRoute {
  import opened Common
  import opened Llm
  import Scoring
  import Parse

  /** One file as the upload handler stored it. */
  datatype UploadedFileInfo = UploadedFileInfo(id: string, filename: string, path: string)

  /**
   * The JSON body. `criteria` and `files` are `None` when the field is
   * missing or is not an array.
   */
  datatype RequestBody = RequestBody(
    sessionId: string,
    criteria: Option<seq<Criterion>>,
    files: Option<seq<UploadedFileInfo>>,
    apiKey: Option<string>)

  /** The result for one file. */
  datatype EvaluationResult = EvaluationResult(file: string, scores: seq<LLMScore>, total: real, notes: seq<string>)

  datatype ResponseBody = Results(results: seq<EvaluationResult>) | Error(error: string)

  datatype HttpResponse = HttpResponse(status: int, body: ResponseBody)

  /** Everything the handler reaches outside itself. */
  datatype Services = Services(
    io: Parse.FileIo,
    env: Env,
    judge: JudgeServices,
    toNumber: string -> JsNumber)  // `Number(string)`

  const NoFilesMessage := "No files to evaluate"
  const NoCriteriaMessage := "No criteria provided"
  const DefaultConcurrency: real := 3.0

  /**
   * `Number(process.env.LLM_MAX_CONCURRENCY ?? '3')`, replaced by 3 when not
   * finite. `Number('3')` is written out as 3.
   */
  function ConcurrencyLimit(setting: Option<string>, toNumber: string -> JsNumber): (limit: real)
    ensures setting.None? ==> limit == DefaultConcurrency
    ensures setting.Some? && toNumber(setting.value).Finite? ==> limit == toNumber(setting.value).value
    ensures setting.Some? && !toNumber(setting.value).Finite? ==> limit == DefaultConcurrency
  {
    var n := if setting.Some? then toNumber(setting.value) else Finite(3.0);
    if IsFinite(n) then n.value else DefaultConcurrency
  }

  /** The unit of work for one file: parse, judge, then aggregate against the full criteria. */
  function EvaluateFile(file: UploadedFileInfo, criteria: seq<Criterion>, apiKey: Option<string>,
                        services: Services): (r: Result<EvaluationResult>)
    ensures r.Ok? ==> r.value.file == file.filename
    ensures r.Ok? ==> r.value.total == Scoring.CalculateWeightedScore(criteria, r.value.scores)
    ensures Parse.ParseResume(file.path, services.io).Err? ==> r == Err(Parse.ParseResume(file.path, services.io).message)
    ensures Parse.ParseResume(file.path, services.io).Ok? ==>
              var judged := EvaluateWithLLM(Parse.ParseResume(file.path, services.io).value, criteria, apiKey,
                                            services.env, services.judge);
              && (r.Ok? <==> judged.Ok?)
              && (r.Ok? ==> r.value.scores == judged.value.scores && r.value.notes == judged.value.notes)
              && (r.Err? ==> r == Err(judged.message))
  {
    var resumeText :- Parse.ParseResume(file.path, services.io);
    var evaluation :- EvaluateWithLLM(resumeText, criteria, apiKey, services.env, services.judge);
    var total := Scoring.CalculateWeightedScore(criteria, evaluation.scores);
    Ok(EvaluationResult(file.filename, evaluation.scores, total, evaluation.notes))
  }

  /**
   * `Promise.all(items.map(task))`: every task's result, in input order, or
   * the error of a failing task. When several fail, which error `Promise.all`
   * reports depends on timing; this model reports the first in input order.
   */
  function All<T, U>(items: seq<T>, task: T -> Result<U>): (r: Result<seq<U>>)
    ensures r.Ok? <==> forall i :: 0 <= i < |items| ==> task(items[i]).Ok?
    ensures r.Ok? ==> |r.value| == |items|
    ensures r.Ok? ==> forall i :: 0 <= i < |items| ==> task(items[i]) == Ok(r.value[i])
    ensures r.Err? ==> exists i :: 0 <= i < |items| && task(items[i]) == Err(r.message)
  {
    if items == [] then Ok([])
    else
      var head :- task(items[0]);
      var rest :- All(items[1..], task);
      assert forall i :: 1 <= i < |items| ==> items[i] == items[1..][i - 1];
      Ok([head] + rest)
  }

  /** The per-file tasks of the batch, joined by `Promise.all`. */
  function EvaluateAll(files: seq<UploadedFileInfo>, criteria: seq<Criterion>, apiKey: Option<string>,
                       services: Services): (r: Result<seq<EvaluationResult>>)
    ensures r.Ok? <==> forall i :: 0 <= i < |files| ==> EvaluateFile(files[i], criteria, apiKey, services).Ok?
    ensures r.Ok? ==> |r.value| == |files|
    ensures r.Ok? ==> forall i :: 0 <= i < |files| ==> EvaluateFile(files[i], criteria, apiKey, services) == Ok(r.value[i])
    ensures r.Err? ==> exists i :: 0 <= i < |files| && EvaluateFile(files[i], criteria, apiKey, services) == Err(r.message)
  {
    All(files, file => EvaluateFile(file, criteria, apiKey, services))
  }

  /** `POST /api/evaluate`. A body that is not JSON throws inside the `try`, giving a 500. */
  function Post(body: Result<RequestBody>, services: Services): (response: HttpResponse)
    ensures body.Err? ==> response == HttpResponse(500, Error(body.message))
  {
    match body
    case Err(message) => HttpResponse(500, Error(message))
    case Ok(request) =>
      if request.files.None? || |request.files.value| == 0 then
        HttpResponse(400, Error(NoFilesMessage))
      else if request.criteria.None? || |request.criteria.value| == 0 then
        HttpResponse(400, Error(NoCriteriaMessage))
      else
        match EvaluateAll(request.files.value, request.criteria.value, request.apiKey, services)
        case Ok(results) => HttpResponse(200, Results(results))
        case Err(message) => HttpResponse(500, Error(message))
  }

  /** A request whose `files` and `criteria` are both non-empty arrays. */
  predicate Admissible(request: RequestBody) {
    request.files.Some? && |request.files.value| > 0 && request.criteria.Some? && |request.criteria.value| > 0
  }

  /**
   * The files are checked before the criteria, and both checks answer 400
   * without touching any file, the judge or the environment.
   */
  lemma GuardsComeFirst(request: RequestBody, s1: Services, s2: Services)
    ensures request.files.None? || request.files.value == [] ==>
              Post(Ok(request), s1) == HttpResponse(400, Error(NoFilesMessage))
    ensures request.files.Some? && request.files.value != [] && (request.criteria.None? || request.criteria.value == []) ==>
              Post(Ok(request), s1) == HttpResponse(400, Error(NoCriteriaMessage))
    ensures !Admissible(request) ==> Post(Ok(request), s1) == Post(Ok(request), s2)
  {
  }

  /**
   * On success there is one result per file, result i belongs to file i,
   * and each total is the weighted score of that result's scores against
   * the full submitted criteria.
   */
  lemma SuccessIsIndexAligned(request: RequestBody, services: Services)
    ensures Post(Ok(request), services).status == 200 ==>
              && Admissible(request)
              && Post(Ok(request), services).body.Results?
              && var results := Post(Ok(request), services).body.results;
                 && |results| == |request.files.value|
                 && forall i :: 0 <= i < |results| ==>
                      && results[i].file == request.files.value[i].filename
                      && results[i].total == Scoring.CalculateWeightedScore(request.criteria.value, results[i].scores)
  {
    if Post(Ok(request), services).status == 200 {
      var results := Post(Ok(request), services).body.results;
      forall i | 0 <= i < |results|
        ensures results[i].file == request.files.value[i].filename
        ensures results[i].total == Scoring.CalculateWeightedScore(request.criteria.value, results[i].scores)
      {
        assert EvaluateFile(request.files.value[i], request.criteria.value, request.apiKey, services) == Ok(results[i]);
      }
    }
  }

  /**
   * All or nothing: an admissible request answers 200 exactly when every
   * file succeeds; if any file fails, the answer is a 500 with a failing
   * file's message and no results at all.
   */
  lemma OneFailureFailsTheBatch(request: RequestBody, services: Services, k: nat)
    requires Admissible(request)
    requires k < |request.files.value|
    requires EvaluateFile(request.files.value[k], request.criteria.value, request.apiKey, services).Err?
    ensures Post(Ok(request), services).status == 500
    ensures Post(Ok(request), services).body.Error?
    ensures exists i :: 0 <= i < |request.files.value|
              && EvaluateFile(request.files.value[i], request.criteria.value, request.apiKey, services)
                 == Err(Post(Ok(request), services).body.error)
  {
  }

  /** The answer to an admissible request is 200 exactly when every file succeeds. */
  lemma SuccessIffEveryFileSucceeds(request: RequestBody, services: Services)
    requires Admissible(request)
    ensures Post(Ok(request), services).status == 200 <==>
            forall i :: 0 <= i < |request.files.value| ==>
              EvaluateFile(request.files.value[i], request.criteria.value, request.apiKey, services).Ok?
    ensures Post(Ok(request), services).status in {200, 500}
  {
    var all := EvaluateAll(request.files.value, request.criteria.value, request.apiKey, services);
    assert Post(Ok(request), services).status == if all.Ok? then 200 else 500;
  }

  /**
   * No bulkhead: when the second of three files has an unsupported
   * extension, the answer is a 500 and the first and third files' results
   * are not returned.
   */
  lemma UnsupportedMiddleFileFailsAll(request: RequestBody, services: Services)
    requires Admissible(request) && |request.files.value| == 3
    requires Parse.DecoderFor(request.files.value[1].path).Unsupported?
    ensures Post(Ok(request), services).status == 500
    ensures Post(Ok(request), services).body.Error?
  {
    var file := request.files.value[1];
    assert Parse.ParseResume(file.path, services.io).Err?;
    OneFailureFailsTheBatch(request, services, 1);
  }
}
