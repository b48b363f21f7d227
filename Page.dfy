/**
 * The criteria editor and the start button of the home page (app/page.tsx).
 * `HomePage` holds the page's state and its methods are the event
 * handlers; the list operations they apply (`filter`, `map`, `trim`) are
 * pure functions over sequences. Rendering is not modelled; the two `fetch`
 * calls are parameters whose replies the start handler interprets.
 */
module Page {
  import opened Common
  import opened Llm
  import EvaluateRoute

  /** The editor's criterion has the judge client's shape. */
  type CriterionInput = Criterion

  /** A file the user picked (its content never matters here). */
  datatype SelectedFile = SelectedFile(name: string)

  /** The `key` argument of `handleCriteriaChange`: a field of `CriterionInput`. */
  datatype Field = Id | Name | Description | Weight

  /** What `POST /api/upload` answered. */
  datatype UploadReply =
    | Uploaded(sessionId: string, files: seq<EvaluateRoute.UploadedFileInfo>)
    | UploadRejected                 // `!uploadResponse.ok`
    | UploadThrew(message: string)   // the fetch or the JSON read threw

  /** What `POST /api/evaluate` answered. */
  datatype EvaluateReply =
    | Evaluated(results: seq<EvaluateRoute.EvaluationResult>)
    | EvaluateRejected(error: Option<string>)  // `!ok`, with the body's `error` field
    | EvaluateThrew(message: string)

  const MaxCriteria := 10
  const DefaultWeight: real := 0.5
  const NoFilesError := "Завантаж файли резюме."
  const NoCriteriaError := "Додай хоча б один критерій з описом."
  const UploadFailedError := "Не вдалося завантажити файли"
  const EvaluateFailedError := "Не вдалося оцінити резюме"

  /** `emptyCriterion`, with the fresh `randomUUID` given as `id`. */
  function EmptyCriterion(id: string): (c: CriterionInput)
    ensures c.id == id && c.name == "" && c.description == "" && c.weight == 0.5
    ensures !IsFilled(c)
  {
    Criterion(id, "", "", DefaultWeight)
  }

  /** The characters `String.prototype.trim` removes. */
  predicate IsWhitespace(c: char) {
    || c in {'\t', '\n', '\U{000B}', '\U{000C}', '\r', ' ', '\U{00A0}', '\U{1680}'}
    || ('\U{2000}' <= c <= '\U{200A}')
    || c in {'\U{2028}', '\U{2029}', '\U{202F}', '\U{205F}', '\U{3000}', '\U{FEFF}'}
  }

  /** A string made only of whitespace (the empty string included). */
  predicate IsBlank(s: string) {
    forall i :: 0 <= i < |s| ==> IsWhitespace(s[i])
  }

  /** `trim`'s left half: the input with its leading whitespace dropped. */
  function TrimStart(s: string): (r: string)
    ensures |r| <= |s|
    ensures r != [] ==> !IsWhitespace(r[0])
  {
    if s != [] && IsWhitespace(s[0]) then TrimStart(s[1..]) else s
  }

  /** `trim`'s right half: the input with its trailing whitespace dropped. */
  function TrimEnd(s: string): (r: string)
    ensures |r| <= |s|
    ensures r != [] ==> !IsWhitespace(r[|r| - 1])
  {
    if s != [] && IsWhitespace(s[|s| - 1]) then TrimEnd(s[..|s| - 1]) else s
  }

  /** `trim`. */
  function Trim(s: string): (r: string)
    ensures |r| <= |s|
    ensures s == "" ==> r == ""
  {
    TrimEnd(TrimStart(s))
  }

  /** `filter`: the elements that pass `keep`, in their order. */
  function Filter<T>(s: seq<T>, keep: T -> bool): (r: seq<T>)
    ensures |r| <= |s|
    ensures forall i :: 0 <= i < |r| ==> keep(r[i])
  {
    if s == [] then [] else (if keep(s[0]) then [s[0]] else []) + Filter(s[1..], keep)
  }

  /** The filter predicate of `filledCriteria`: trimmed name and description both non-empty. */
  predicate IsFilled(c: CriterionInput): (filled: bool)
    ensures filled <==> !IsBlank(c.name) && !IsBlank(c.description)
  {
    TrimEmptyIffBlank(c.name);
    TrimEmptyIffBlank(c.description);
    Trim(c.name) != "" && Trim(c.description) != ""
  }

  /** `filledCriteria`. */
  function FilledCriteria(criteria: seq<CriterionInput>): (filled: seq<CriterionInput>)
    ensures |filled| <= |criteria|
    ensures forall c :: c in filled <==> c in criteria && IsFilled(c)
  {
    FilterMembers(criteria, IsFilled);
    Filter(criteria, IsFilled)
  }

  /** The list after `handleRemoveCriterion(id)`. */
  function RemoveById(criteria: seq<CriterionInput>, id: string): (rest: seq<CriterionInput>)
    ensures |rest| <= |criteria|
    ensures forall c :: c in rest <==> c in criteria && c.id != id
  {
    FilterMembers(criteria, (c: CriterionInput) => c.id != id);
    Filter(criteria, (c: CriterionInput) => c.id != id)
  }

  /** `Number(value.toFixed(2))` on a value in [0, 1]: round half up to two decimals. */
  function Round2(v: real): real {
    ((v * 100.0 + 0.5).Floor as real) / 100.0
  }

  /** `clampWeight`. */
  function ClampWeight(x: JsNumber): (w: real)
    ensures 0.0 <= w <= 1.0
    ensures x.NaN? || x.NegativeInfinity? || (x.Finite? && x.value < 0.0) ==> w == 0.0
    ensures x.PositiveInfinity? || (x.Finite? && x.value > 1.0) ==> w == 1.0
    ensures x.Finite? && 0.0 <= x.value <= 1.0 ==> -0.005 < w - x.value <= 0.005
  {
    match x
    case NaN => 0.0
    case NegativeInfinity => 0.0
    case PositiveInfinity => 1.0
    case Finite(v) =>
      if v < 0.0 then 0.0
      else if v > 1.0 then 1.0
      else
        var n := (v * 100.0 + 0.5).Floor;
        assert 0 <= n <= 100;
        Round2(v)
  }

  /** The object spread of `handleCriteriaChange` for one criterion. */
  function SetField(c: CriterionInput, key: Field, value: string, toNumber: string -> JsNumber): (d: CriterionInput)
    ensures key == Weight ==> 0.0 <= d.weight <= 1.0 && d.weight == ClampWeight(toNumber(value))
    ensures key != Weight ==> d.weight == c.weight
  {
    match key
    case Id => c.(id := value)
    case Name => c.(name := value)
    case Description => c.(description := value)
    case Weight => c.(weight := ClampWeight(toNumber(value)))
  }

  /** The list after `handleCriteriaChange(id, key, value)`. */
  function ChangeById(criteria: seq<CriterionInput>, id: string, key: Field, value: string,
                      toNumber: string -> JsNumber): (r: seq<CriterionInput>)
    ensures |r| == |criteria|
    ensures forall i :: 0 <= i < |criteria| && criteria[i].id != id ==> r[i] == criteria[i]
    ensures forall i :: 0 <= i < |criteria| && criteria[i].id == id ==> r[i] == SetField(criteria[i], key, value, toNumber)
  {
    seq(|criteria|, i requires 0 <= i < |criteria| =>
      if criteria[i].id == id then SetField(criteria[i], key, value, toNumber) else criteria[i])
  }

  /** The first guard of `handleStartEvaluation` that fails, if any. */
  function StartGuard(files: seq<SelectedFile>, criteria: seq<CriterionInput>): (message: Option<string>)
    ensures message.None? <==> |files| > 0 && exists c :: c in criteria && IsFilled(c)
  {
    var filled := FilledCriteria(criteria);
    assert filled != [] ==> filled[0] in filled;
    if |files| == 0 then Some(NoFilesError)
    else if |FilledCriteria(criteria)| == 0 then Some(NoCriteriaError)
    else None
  }

  /** `apiKey.trim() || undefined`. */
  function SubmittedApiKey(apiKey: string): (key: Option<string>)
    ensures key.Some? ==> key.value != "" && key.value == Trim(apiKey)
  {
    var trimmed := Trim(apiKey);
    if trimmed == "" then None else Some(trimmed)
  }

  /** The body the page posts to the evaluate route. */
  function SubmittedRequest(sessionId: string, stored: seq<EvaluateRoute.UploadedFileInfo>,
                            criteria: seq<CriterionInput>, apiKey: string): (body: EvaluateRoute.RequestBody)
    ensures body.sessionId == sessionId && body.files == Some(stored)
    ensures body.criteria == Some(FilledCriteria(criteria))
    ensures body.apiKey == SubmittedApiKey(apiKey)
  {
    EvaluateRoute.RequestBody(sessionId, Some(FilledCriteria(criteria)), Some(stored), SubmittedApiKey(apiKey))
  }

  /** `message.error || 'Не вдалося оцінити резюме'`. */
  function RejectionMessage(error: Option<string>): (m: string)
    ensures error.Some? && error.value != "" ==> m == error.value
    ensures error.None? || error.value == "" ==> m == EvaluateFailedError
    ensures m != ""
  {
    if error.None? || error.value == "" then EvaluateFailedError else error.value
  }

  // ---------------------------------------------------------------------
  // Properties of the pure operations
  // ---------------------------------------------------------------------

  /** The filter keeps exactly the elements that pass, and no others. */
  lemma {:induction false} FilterMembers<T>(s: seq<T>, keep: T -> bool)
    ensures forall x :: x in Filter(s, keep) <==> x in s && keep(x)
    ensures |Filter(s, keep)| <= |s|
  {
    if s != [] {
      FilterMembers(s[1..], keep);
      assert s == [s[0]] + s[1..];
    }
  }

  /** The filter keeps order: filtering a concatenation concatenates the filtered parts. */
  lemma {:induction false} FilterConcat<T>(a: seq<T>, b: seq<T>, keep: T -> bool)
    ensures Filter(a + b, keep) == Filter(a, keep) + Filter(b, keep)
  {
    if a == [] {
      assert a + b == b;
    } else {
      assert (a + b)[0] == a[0];
      assert (a + b)[1..] == a[1..] + b;
      FilterConcat(a[1..], b, keep);
      var front := if keep(a[0]) then [a[0]] else [];
      calc {
        Filter(a + b, keep);
        front + Filter(a[1..] + b, keep);
        front + (Filter(a[1..], keep) + Filter(b, keep));
        (front + Filter(a[1..], keep)) + Filter(b, keep);
      }
    }
  }

  /** Filtering changes nothing exactly when every element passes. */
  lemma {:induction false} FilterKeepsAllIff<T>(s: seq<T>, keep: T -> bool)
    ensures Filter(s, keep) == s <==> forall i :: 0 <= i < |s| ==> keep(s[i])
  {
    FilterMembers(s, keep);
    if s != [] {
      FilterKeepsAllIff(s[1..], keep);
      if !keep(s[0]) {
        assert |Filter(s, keep)| < |s| by {
          FilterMembers(s[1..], keep);
        }
      }
    }
  }

  /** `filledCriteria` is the in-order subsequence of the criteria that are filled in. */
  lemma FilledCriteriaIsTheFilledSubsequence(criteria: seq<CriterionInput>, more: seq<CriterionInput>, c: CriterionInput)
    ensures c in FilledCriteria(criteria) <==> c in criteria && IsFilled(c)
    ensures FilledCriteria(criteria + more) == FilledCriteria(criteria) + FilledCriteria(more)
    ensures FilledCriteria([c]) == if IsFilled(c) then [c] else []
  {
    FilterMembers(criteria, IsFilled);
    FilterConcat(criteria, more, IsFilled);
    assert [c][1..] == [];
    assert Filter([c][1..], IsFilled) == [];
    assert Filter([c], IsFilled) == (if IsFilled(c) then [c] else []) + [];
  }

  /** Removing by id drops every criterion with that id and keeps the others in order. */
  lemma RemoveDropsExactlyThatId(criteria: seq<CriterionInput>, more: seq<CriterionInput>, id: string, c: CriterionInput)
    ensures c in RemoveById(criteria, id) <==> c in criteria && c.id != id
    ensures RemoveById(criteria + more, id) == RemoveById(criteria, id) + RemoveById(more, id)
    ensures RemoveById(criteria, id) == criteria <==> forall i :: 0 <= i < |criteria| ==> criteria[i].id != id
  {
    FilterMembers(criteria, (c: CriterionInput) => c.id != id);
    FilterConcat(criteria, more, (c: CriterionInput) => c.id != id);
    FilterKeepsAllIff(criteria, (c: CriterionInput) => c.id != id);
  }

  /** A change touches only the named field; a weight change always leaves a weight in [0, 1]. */
  lemma ChangeTouchesOnlyThatField(c: CriterionInput, key: Field, value: string, toNumber: string -> JsNumber)
    ensures var d := SetField(c, key, value, toNumber);
            && (key != Id ==> d.id == c.id)
            && (key != Name ==> d.name == c.name)
            && (key != Description ==> d.description == c.description)
            && (key != Weight ==> d.weight == c.weight)
            && (key == Weight ==> 0.0 <= d.weight <= 1.0)
            && (key == Id ==> d.id == value)
            && (key == Name ==> d.name == value)
            && (key == Description ==> d.description == value)
  {
  }

  /** `TrimStart` removes exactly the leading whitespace. */
  lemma {:induction false} TrimStartBlank(s: string)
    ensures TrimStart(s) == [] <==> IsBlank(s)
    ensures TrimStart(s) != [] ==> !IsWhitespace(TrimStart(s)[0])
  {
    if s != [] && IsWhitespace(s[0]) {
      TrimStartBlank(s[1..]);
      assert IsBlank(s) <==> IsBlank(s[1..]) by {
        if IsBlank(s[1..]) {
          forall i | 0 <= i < |s| ensures IsWhitespace(s[i]) {
            if i > 0 { assert s[i] == s[1..][i - 1]; }
          }
        }
      }
    }
  }

  /** `TrimEnd` of a string that does not start with whitespace is empty only when the string is. */
  lemma {:induction false} TrimEndKeepsNonBlank(s: string)
    requires s != [] && !IsWhitespace(s[0])
    ensures TrimEnd(s) != []
    ensures !IsWhitespace(TrimEnd(s)[|TrimEnd(s)| - 1])
  {
    if IsWhitespace(s[|s| - 1]) {
      TrimEndKeepsNonBlank(s[..|s| - 1]);
    }
  }

  /** A string trims to the empty string exactly when it is blank; otherwise its ends are not whitespace. */
  lemma TrimEmptyIffBlank(s: string)
    ensures Trim(s) == "" <==> IsBlank(s)
    ensures Trim(s) != "" ==> !IsWhitespace(Trim(s)[0]) && !IsWhitespace(Trim(s)[|Trim(s)| - 1])
  {
    TrimStartBlank(s);
    var t := TrimStart(s);
    if t != [] {
      TrimEndKeepsNonBlank(t);
      TrimEndKeepsFirst(t);
    }
  }

  /** `TrimStart` drops a blank prefix. */
  lemma {:induction false} TrimStartIsBlankPrefixDropped(s: string) returns (i: nat)
    ensures i <= |s| && TrimStart(s) == s[i..] && IsBlank(s[..i])
  {
    if s != [] && IsWhitespace(s[0]) {
      var k := TrimStartIsBlankPrefixDropped(s[1..]);
      i := k + 1;
      assert s[1..][k..] == s[i..];
      forall j | 0 <= j < i ensures IsWhitespace(s[..i][j]) {
        if j > 0 { assert s[..i][j] == s[1..][..k][j - 1]; }
      }
    } else {
      i := 0;
    }
  }

  /** `TrimEnd` drops a blank suffix. */
  lemma {:induction false} TrimEndIsBlankSuffixDropped(s: string) returns (j: nat)
    ensures j <= |s| && TrimEnd(s) == s[..j] && IsBlank(s[j..])
  {
    if s != [] && IsWhitespace(s[|s| - 1]) {
      var init := s[..|s| - 1];
      j := TrimEndIsBlankSuffixDropped(init);
      assert init[..j] == s[..j];
      forall k | 0 <= k < |s| - j ensures IsWhitespace(s[j..][k]) {
        if k < |init| - j { assert s[j..][k] == init[j..][k]; }
      }
    } else {
      j := |s|;
    }
  }

  /**
   * `trim` removes exactly a blank prefix and a blank suffix: the input is
   * blank text, the trimmed string, then blank text.
   */
  lemma TrimIsBlankInfix(s: string) returns (i: nat, j: nat)
    ensures i <= j <= |s|
    ensures Trim(s) == s[i..j]
    ensures IsBlank(s[..i]) && IsBlank(s[j..])
    ensures s == s[..i] + Trim(s) + s[j..]
  {
    i := TrimStartIsBlankPrefixDropped(s);
    var m := TrimEndIsBlankSuffixDropped(s[i..]);
    j := i + m;
    SlicesOfSuffix(s, i, m);
  }

  /** Cutting a suffix of `s` at `m` cuts `s` at `i + m`, and the three pieces make up `s`. */
  lemma SlicesOfSuffix(s: string, i: nat, m: nat)
    requires i + m <= |s|
    ensures s[i..][..m] == s[i..i + m] && s[i..][m..] == s[i + m..]
    ensures s == s[..i] + s[i..i + m] + s[i + m..]
  {
    assert s == s[..i] + s[i..i + m] + s[i + m..];
  }

  /** `TrimEnd` keeps the first character of a string that does not start with whitespace. */
  lemma {:induction false} TrimEndKeepsFirst(s: string)
    requires s != [] && !IsWhitespace(s[0])
    ensures TrimEnd(s) != [] && TrimEnd(s)[0] == s[0]
  {
    if IsWhitespace(s[|s| - 1]) {
      TrimEndKeepsFirst(s[..|s| - 1]);
    }
  }

  /** The key is omitted exactly when it is blank; otherwise the trimmed key is sent. */
  lemma SubmittedKeyOmittedIffBlank(apiKey: string)
    ensures SubmittedApiKey(apiKey).None? <==> IsBlank(apiKey)
  {
    TrimEmptyIffBlank(apiKey);
  }

  /**
   * The page never sends an explicit empty key: a non-blank input is the
   * credential the judge client uses, and a blank one falls back to the
   * server's environment key.
   */
  lemma SubmittedKeyResolution(apiKey: string, envKey: Option<string>)
    ensures !IsBlank(apiKey) ==> ResolveKey(SubmittedApiKey(apiKey), envKey) == Ok(Trim(apiKey))
    ensures IsBlank(apiKey) ==> ResolveKey(SubmittedApiKey(apiKey), envKey) == ResolveKey(None, envKey)
  {
    SubmittedKeyOmittedIffBlank(apiKey);
  }

  /** Evaluation starts exactly when files were picked and some criterion is filled in. */
  lemma StartGuardPassesIff(files: seq<SelectedFile>, criteria: seq<CriterionInput>)
    ensures StartGuard(files, criteria).None? <==> |files| > 0 && exists c :: c in criteria && IsFilled(c)
    ensures |files| == 0 ==> StartGuard(files, criteria) == Some(NoFilesError)
    ensures |files| > 0 && FilledCriteria(criteria) == [] ==> StartGuard(files, criteria) == Some(NoCriteriaError)
  {
    FilterMembers(criteria, IsFilled);
    var filled := FilledCriteria(criteria);
    if exists c :: c in criteria && IsFilled(c) {
      var c :| c in criteria && IsFilled(c);
      assert c in filled;
    }
    if filled != [] {
      assert filled[0] in filled;
    }
  }

  /**
   * A request the page sends after a successful upload of at least one file
   * passes both guards of the evaluate route.
   */
  lemma SubmittedRequestIsAdmissible(files: seq<SelectedFile>, criteria: seq<CriterionInput>, apiKey: string,
                                     sessionId: string, stored: seq<EvaluateRoute.UploadedFileInfo>)
    requires StartGuard(files, criteria).None?
    requires stored != []
    ensures EvaluateRoute.Admissible(SubmittedRequest(sessionId, stored, criteria, apiKey))
  {
  }

  /** Rounding keeps a weight in [0, 1] within half a hundredth of itself. */
  lemma Round2Bounds(v: real)
    requires 0.0 <= v <= 1.0
    ensures 0.0 <= Round2(v) <= 1.0
    ensures -0.005 < Round2(v) - v <= 0.005
  {
  }

  // ---------------------------------------------------------------------
  // The page's state and its handlers
  // ---------------------------------------------------------------------

  class HomePage {
    var criteria: seq<CriterionInput>
    var files: seq<SelectedFile>
    var apiKey: string
    var loading: bool
    var error: Option<string>
    var results: seq<EvaluateRoute.EvaluationResult>

    /** The add button never takes the list past its limit. */
    ghost predicate Valid()
      reads this
    {
      |criteria| <= MaxCriteria
    }

    /** The initial state: one empty criterion, nothing else. */
    constructor (firstId: string)
      ensures Valid()
      ensures criteria == [EmptyCriterion(firstId)]
      ensures criteria[0].name == "" && criteria[0].description == "" && criteria[0].weight == 0.5
      ensures files == [] && apiKey == "" && !loading && error.None? && results == []
    {
      criteria := [EmptyCriterion(firstId)];
      files := [];
      apiKey := "";
      loading := false;
      error := None;
      results := [];
    }

    /** `handleAddCriterion`, with the new criterion's `randomUUID` given as `freshId`. */
    method AddCriterion(freshId: string)
      requires Valid()
      modifies this`criteria
      ensures Valid()
      ensures |old(criteria)| < MaxCriteria ==> criteria == old(criteria) + [EmptyCriterion(freshId)]
      ensures |old(criteria)| >= MaxCriteria ==> criteria == old(criteria)
    {
      if |criteria| < MaxCriteria {
        criteria := criteria + [EmptyCriterion(freshId)];
      }
    }

    /** `handleRemoveCriterion`. */
    method RemoveCriterion(id: string)
      requires Valid()
      modifies this`criteria
      ensures Valid()
      ensures criteria == RemoveById(old(criteria), id)
      ensures forall c :: c in criteria <==> c in old(criteria) && c.id != id
    {
      RemoveDropsExactlyThatId(criteria, [], id, EmptyCriterion(id));
      FilterMembers(criteria, (c: CriterionInput) => c.id != id);
      criteria := RemoveById(criteria, id);
    }

    /** `handleCriteriaChange`, with `Number(string)` given as `toNumber`. */
    method CriteriaChange(id: string, key: Field, value: string, toNumber: string -> JsNumber)
      requires Valid()
      modifies this`criteria
      ensures Valid()
      ensures criteria == ChangeById(old(criteria), id, key, value, toNumber)
      ensures |criteria| == |old(criteria)|
    {
      criteria := ChangeById(criteria, id, key, value, toNumber);
    }

    /** `handleFileChange`: a selection replaces the files; no selection leaves them. */
    method FileChange(selected: Option<seq<SelectedFile>>)
      modifies this`files
      ensures files == if selected.Some? then selected.value else old(files)
    {
      if selected.Some? {
        files := selected.value;
      }
    }

    /** The API key input's `onChange`. */
    method ApiKeyChange(value: string)
      modifies this`apiKey
      ensures apiKey == value
    {
      apiKey := value;
    }

    /**
     * `handleStartEvaluation`. `upload` and `evaluate` stand for the two
     * `fetch` round trips. Returns whether the upload was attempted and the
     * body posted to the evaluate route, if one was.
     */
    method StartEvaluation(upload: seq<SelectedFile> -> UploadReply,
                           evaluate: EvaluateRoute.RequestBody -> EvaluateReply)
      returns (uploadSent: bool, sent: Option<EvaluateRoute.RequestBody>)
      modifies this`loading, this`error, this`results
      ensures !loading
      ensures uploadSent <==> StartGuard(files, criteria).None?
      ensures !uploadSent ==> error == StartGuard(files, criteria) && results == [] && sent.None?
      ensures uploadSent && upload(files).UploadRejected? ==> error == Some(UploadFailedError) && results == []
      ensures uploadSent && upload(files).UploadThrew? ==> error == Some(upload(files).message) && results == []
      ensures sent.Some? <==> uploadSent && upload(files).Uploaded?
      ensures sent.Some? ==>
                sent.value == SubmittedRequest(upload(files).sessionId, upload(files).files, criteria, apiKey)
      ensures sent.Some? && evaluate(sent.value).Evaluated? ==>
                error.None? && results == evaluate(sent.value).results
      ensures sent.Some? && evaluate(sent.value).EvaluateRejected? ==>
                error == Some(RejectionMessage(evaluate(sent.value).error)) && results == []
      ensures sent.Some? && evaluate(sent.value).EvaluateThrew? ==>
                error == Some(evaluate(sent.value).message) && results == []
    {
      loading := true;
      error := None;
      results := [];
      uploadSent, sent := false, None;

      var guard := StartGuard(files, criteria);
      if guard.Some? {
        error := guard;
        loading := false;
        return;
      }

      uploadSent := true;
      match upload(files) {
        case UploadRejected =>
          error := Some(UploadFailedError);
        case UploadThrew(message) =>
          error := Some(message);
        case Uploaded(sessionId, stored) =>
          var request := SubmittedRequest(sessionId, stored, criteria, apiKey);
          sent := Some(request);
          match evaluate(request) {
            case Evaluated(rs) =>
              results := rs;
            case EvaluateRejected(e) =>
              error := Some(RejectionMessage(e));
            case EvaluateThrew(message) =>
              error := Some(message);
          }
      }
      loading := false;
    }
  }
}
