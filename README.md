# cv-analyzer in Dafny

cv-analyzer scores résumés against a rubric. A recruiter fills in up to ten
criteria (name, description, weight in [0, 1]) on the home page, picks résumé
files and starts an evaluation. The page uploads the files, then posts the
filled-in criteria and the stored files to the evaluate route. For every file
the route extracts the text (PDF, DOCX or plain text), asks an LLM judge for a
score per criterion and aggregates those scores into a weighted total. It
answers with one result per file, in upload order, or with one error for the
whole batch.

This project models that core as Dafny datatypes, functions and one class:

| file | module | models |
|---|---|---|
| `Common.dfy` | `Common` | `Option`, `Result` (fail-fast with `:-`) and JavaScript numbers (finite, NaN, ±Infinity) |
| `Llm.dfy` | `Llm` | `lib/llm.ts`: credential resolution, request building, response text selection, payload normalisation |
| `Scoring.dfy` | `Scoring` | `lib/scoring.ts`: the weighted aggregator |
| `Parse.dfy` | `Parse` | `lib/parse.ts`: extension detection (Node's `path.extname`, `toLowerCase`) and decoder choice |
| `EvaluateRoute.dfy` | `EvaluateRoute` | `app/api/evaluate/route.ts`: request guards, per-file pipeline, all-or-nothing batch |
| `Page.dfy` | `Page` | `app/page.tsx`: the criteria editor (`filter`, `map`, `trim`, `clampWeight`) and the class `HomePage` whose methods are the page's event handlers |

Foreign code is passed in as function values, so every result is a function of
its inputs. This covers the PDF and DOCX decoders, the file reads, the OpenAI
client, `JSON.parse`, `JSON.stringify`, `Number(string)` and the two `fetch`
round trips of the page. A thrown exception is an `Err` carrying its message.
"Issues no request" is stated as independence: the outcome is the same whatever
the foreign functions would have answered.

Two behaviours of the code are worth stating up front:

- Per-file failures are not isolated: `Promise.all` inside one `try` turns any
  failing file into a 500 with no results at all
  (`EvaluateRoute.OneFailureFailsTheBatch`, `EvaluateRoute.UnsupportedMiddleFileFailsAll`).
- An explicit API key, even an empty one, hides the environment's key, because
  `??` only falls back on `undefined` or `null`. An empty explicit key is then
  refused as missing (`Llm.ResolveKey`). The page never sends an empty key
  (`Page.SubmittedKeyResolution`).

## Model

| member | source | states |
|---|---|---|
| Llm.ResolveKey | lib/llm.ts:21-25 | an explicit key is used even when empty, so an empty one is refused; without one the environment key is used; an absent or empty key fails with "Missing OpenAI API key"; a resolved key is never empty |
| Llm.ModelName | lib/llm.ts:36 | `LLM_MODEL` when set (even to ""), else `gpt-4.1-mini` |
| Llm.BuildPrompt | lib/llm.ts:37-43 | the prompt is the fixed instructions, then the serialised criteria, then the `\nРезюме: ` label, then the résumé text at the end, and nothing else |
| Llm.NewRequest | lib/llm.ts:34-49 | a request exists exactly when the key resolves; it carries the resolved (non-empty) key, the configured model, the prompt for these criteria and résumé, and the `json_object` format |
| Llm.FirstContent | lib/llm.ts:51 | no item when `output` is missing or empty, or when its first entry's `content` is missing or empty; otherwise the first content item of the first output |
| Llm.SelectText | lib/llm.ts:51-55 | the first output's first content item's `text` is preferred when that item has one, otherwise `output_text`; an absent or empty text fails with "LLM did not return any text" |
| Llm.Normalise | lib/llm.ts:57-61 | present `scores`/`notes` pass through unchanged, missing ones become empty lists |
| Llm.EvaluateWithLLM | lib/llm.ts:29-62 | each step's failure is the evaluation's error: the missing-key error, the provider's error, "LLM did not return any text" for a response without text, the parser's error; on success the provider got the request `NewRequest` builds, with the serialised criteria and the résumé where `BuildPrompt` puts them, and the answer is the parsed payload normalised |
| Llm.MissingKeyIssuesNoRequest | lib/llm.ts:21-35 | with no usable key the evaluation fails with the missing-key error, whatever the provider and the parser would have done |
| Scoring.Weights | lib/scoring.ts:4 | the map's keys are exactly the criteria's ids |
| Scoring.CalculateWeightedScore | lib/scoring.ts:3-9 | no scores give a total of 0 |
| Scoring.WeightOf | lib/scoring.ts:6 | an id in the map gets its mapped weight; any other id gets 0 |
| Scoring.WeightsAreDeclared | lib/scoring.ts:4 | every weight in the map is the weight of some submitted criterion |
| Scoring.LastDeclaredWeightWins | lib/scoring.ts:4 | for a duplicated id the map keeps the weight of the last criterion declaring it |
| Scoring.DeclaredWeightAt | lib/scoring.ts:4 | the front-to-back reading of an id's weight is the weight of its last declaration |
| Scoring.UndeclaredWeightIsZero | lib/scoring.ts:6 | an id no criterion declares has weight 0 in the front-to-back reading |
| Scoring.WeightOfIsDeclaredWeight | lib/scoring.ts:4-6 | the lookup with its `?? 0` fallback agrees with the front-to-back reading for every id |
| Scoring.AppendAddsOneContribution | lib/scoring.ts:5-8 | appending a score adds exactly its score times its id's weight |
| Scoring.Fold | lib/scoring.ts:5-8 | the reduce starts from 0, so no scores total 0 (its full value is stated by `FoldIsContributionSum`) |
| Scoring.FoldConcat | lib/scoring.ts:5-8 | the total of two lists one after the other is the sum of their totals |
| Scoring.FoldSingleton | lib/scoring.ts:5-8 | one step of the reduce adds that entry's score times the weight looked up for its id |
| Scoring.FoldIsContributionSum | lib/scoring.ts:5-8 | folding the scores equals the front-to-back sum of score × declared weight |
| Scoring.WeightedScoreIsSumOfContributions | lib/scoring.ts:3-9 | the total is the plain sum of score × weight, with 0 for undeclared ids and the last weight for duplicates |
| Scoring.UnknownIdContributesNothing | lib/scoring.ts:6-7 | a score for an undeclared id, anywhere in the list, does not change the total whatever its value |
| Scoring.NoNormalisationByWeightSum | lib/scoring.ts:3-9 | weights 0.9 and 0.9 with scores 9 and 9 give 16.2: nothing is divided by the weight sum |
| Scoring.DuplicateIdUsesLastWeight | lib/scoring.ts:4 | with id `a` declared at weights 0.2 then 0.7, a score of 10 totals 7.0 |
| Scoring.NonNegativeInputsGiveNonNegativeTotal | lib/scoring.ts:3-9 | non-negative weights and scores give a non-negative total |
| Parse.StripTrailingSlashesIsPrefix | lib/parse.ts:9 | stripping trailing slashes leaves a prefix of the path that does not end in `/` |
| Parse.BasenameIsSuffix | lib/parse.ts:9 | the base name is a suffix of the path without any `/` |
| Parse.LastDotIsLast | lib/parse.ts:9 | the dot found is a `.` with none after it, and none is found exactly when there is no `.` |
| Parse.Extname | lib/parse.ts:9 | an extension is empty or a `.` with no later `.` |
| Parse.ExtnameShape | lib/parse.ts:9 | an extension is empty or a `.` followed by neither `/` nor `.`, and it ends the path once trailing slashes are removed |
| Parse.SegmentExtensionShape | lib/parse.ts:9 | a segment's extension is empty or a `.` with no later `.`, drawn from the segment and ending it |
| Parse.Classify | lib/parse.ts:10-25 | `.pdf` selects PDF, `.docx` DOCX, `.txt`/`.md`/no extension a UTF-8 read, each exactly; every other extension is unsupported and keeps the extension for the message |
| Parse.DecoderFor | lib/parse.ts:9-25 | the lower-cased extension `.pdf` selects PDF, `.docx` DOCX, `.txt`/`.md`/none a UTF-8 read, each exactly; an unsupported decoder carries the lower-cased extension |
| Parse.Decode | lib/parse.ts:10-25 | each decoder returns its reader's result for the path; an unsupported one fails with "Unsupported file type: " and its extension |
| Parse.ParseResume | lib/parse.ts:8-26 | by the lower-cased extension: `.pdf` gives the PDF decoder's text, `.docx` the DOCX extractor's, `.txt`/`.md`/none the UTF-8 read, each with its failure; any other extension fails with "Unsupported file type: " and that extension |
| Parse.Lower | lib/parse.ts:9 | lower-casing keeps the length |
| Parse.LowerAt | lib/parse.ts:9 | each character of the lower-cased string is that character lower-cased |
| Parse.LowerIsIdempotent | lib/parse.ts:9 | lower-casing twice equals lower-casing once |
| Parse.LowerKeepsLowerCase | lib/parse.ts:9 | a string without upper-case letters is unchanged by lower-casing |
| Parse.DecoderIgnoresCase | lib/parse.ts:9 | two paths whose extensions differ only in letter case select the same decoder |
| Parse.ExtnameOfStoredFile | lib/parse.ts:9 | the extension of `dir/name.ext` is `.ext`, whatever the directory |
| Parse.StoredFileDecoder | lib/parse.ts:9-25 | the decoder of `dir/name.ext` depends on `.ext` lower-cased alone |
| Parse.UpperCasePdfIsPdf | lib/parse.ts:9-14 | a `.PDF` file goes to the PDF decoder |
| Parse.TextFilesAreReadVerbatim | lib/parse.ts:21-23 | `.txt`, `.md` and extension-less files yield exactly the UTF-8 read of the file |
| Parse.UnsupportedExtensionFails | lib/parse.ts:25 | any other extension fails with "Unsupported file type: " and the lower-cased extension, without reading the file |
| Parse.ExecutableIsRefused | lib/parse.ts:25 | `dir/name.exe` fails with "Unsupported file type: .exe" |
| Parse.PlainTextExample | lib/parse.ts:21-23 | a `.txt` file holding "Experienced engineer" extracts to exactly that string |
| EvaluateRoute.ConcurrencyLimit | app/api/evaluate/route.ts:33-34 | unset gives 3; a setting that converts to a finite number gives that number; NaN or ±Infinity gives 3 |
| EvaluateRoute.EvaluateFile | app/api/evaluate/route.ts:38-52 | a result names the file's original filename and its scores and notes are the judge's answer for the extracted text, given the full submitted criteria and the request's key; its total is the weighted score of those scores against the full criteria; a parse failure, or else a judge failure, is the file's error |
| EvaluateRoute.All | app/api/evaluate/route.ts:36-54 | `Promise.all` over the tasks succeeds exactly when every task does, then with task i's value at position i and one value per task; a failure carries some failing task's error |
| EvaluateRoute.EvaluateAll | app/api/evaluate/route.ts:36-54 | succeeds exactly when every file succeeds, then with one result per file and result i being file i's; a failure carries some failing file's error |
| EvaluateRoute.Post | app/api/evaluate/route.ts:15-61 | a body that does not parse answers 500 with the parse error |
| EvaluateRoute.GuardsComeFirst | app/api/evaluate/route.ts:25-31 | missing or empty files answer 400 "No files to evaluate" before the criteria are looked at; then missing or empty criteria answer 400 "No criteria provided"; neither touches any file, the judge or the environment |
| EvaluateRoute.SuccessIsIndexAligned | app/api/evaluate/route.ts:36-56 | a 200 comes from an admissible request and has one result per file, in file order, each with the weighted total of its scores |
| EvaluateRoute.OneFailureFailsTheBatch | app/api/evaluate/route.ts:36-60 | if any file fails, the answer is a 500 with a failing file's message and no results |
| EvaluateRoute.SuccessIffEveryFileSucceeds | app/api/evaluate/route.ts:36-60 | an admissible request answers 200 exactly when every file succeeds, and 500 otherwise |
| EvaluateRoute.UnsupportedMiddleFileFailsAll | app/api/evaluate/route.ts:36-60 | with three files whose second has an unsupported extension, the answer is a 500 error and the other two results are lost |
| Page.EmptyCriterion | app/page.tsx:19-24 | a new criterion has the given id, an empty name and description, and weight 0.5, so it is never counted as filled |
| Page.ClampWeight | app/page.tsx:250-255 | the weight is always in [0, 1]: NaN and negatives give 0, values above 1 give 1, values in range are rounded to within half a hundredth |
| Page.Round2Bounds | app/page.tsx:254 | rounding to two decimals keeps a value in [0, 1] within (−0.005, 0.005] of itself |
| Page.ChangeById | app/page.tsx:40-51 | the list keeps its length; criteria with other ids are unchanged; each criterion with the id gets the new field value |
| Page.SetField | app/page.tsx:44-46 | a weight change stores the clamped number, in [0, 1]; any other field leaves the weight |
| Page.ChangeTouchesOnlyThatField | app/page.tsx:44-46 | a change sets the named field and leaves the other three; a weight change always lands in [0, 1] |
| Page.SubmittedRequest | app/page.tsx:102-107 | the posted body carries the upload's session id, the stored files, the filled criteria and the submitted key |
| Page.SubmittedApiKey | app/page.tsx:106 | a key that is sent is the trimmed input and never empty |
| Page.SubmittedKeyOmittedIffBlank | app/page.tsx:106 | the key is omitted exactly when the input is only whitespace |
| Page.SubmittedKeyResolution | app/page.tsx:106 | a non-blank input becomes the judge's credential, trimmed; a blank one falls back to the server's key |
| Page.RejectionMessage | app/page.tsx:110-113 | the shown message is the route's `error` when it is non-empty, otherwise "Не вдалося оцінити резюме"; never empty |
| Page.Filter | app/page.tsx:36 | the filter is no longer than its input and every element it keeps passes |
| Page.FilterMembers | app/page.tsx:36 | the filter keeps exactly the elements that pass and is no longer than its input |
| Page.FilterConcat | app/page.tsx:36 | filtering keeps order: filtering a concatenation concatenates the filtered parts |
| Page.FilterKeepsAllIff | app/page.tsx:67 | filtering changes nothing exactly when every element passes |
| Page.IsFilled | app/page.tsx:36 | a criterion is filled exactly when neither its name nor its description is only whitespace |
| Page.FilledCriteria | app/page.tsx:35-38 | a criterion is kept exactly when it is in the list and filled in; the result is no longer than the list |
| Page.FilledCriteriaIsTheFilledSubsequence | app/page.tsx:35-38 | the filled criteria are the in-order subsequence of criteria whose trimmed name and description are non-empty |
| Page.RemoveById | app/page.tsx:66-68 | a criterion remains exactly when it was in the list and has a different id; the list does not grow |
| Page.RemoveDropsExactlyThatId | app/page.tsx:66-68 | removing drops every criterion with the id, keeps the others in order, and changes nothing when no criterion has the id |
| Page.Trim | app/page.tsx:36 | trimming never lengthens a string and leaves "" as "" |
| Page.TrimStart | app/page.tsx:36 | removing leading whitespace never lengthens the string and leaves one that is empty or does not start with whitespace |
| Page.TrimEnd | app/page.tsx:36 | removing trailing whitespace never lengthens the string and leaves one that is empty or does not end with whitespace |
| Page.TrimStartBlank | app/page.tsx:36 | removing leading whitespace leaves nothing exactly for a blank string, and otherwise a string not starting with whitespace |
| Page.TrimStartIsBlankPrefixDropped | app/page.tsx:36 | removing leading whitespace drops a blank prefix and keeps the rest |
| Page.TrimEndIsBlankSuffixDropped | app/page.tsx:36 | removing trailing whitespace drops a blank suffix and keeps the rest |
| Page.TrimIsBlankInfix | app/page.tsx:36 | the input is a blank prefix, the trimmed string, then a blank suffix |
| Page.TrimEmptyIffBlank | app/page.tsx:36 | a string trims to "" exactly when it is only whitespace; otherwise the trimmed string neither starts nor ends with whitespace |
| Page.StartGuard | app/page.tsx:76-84 | no message exactly when files were picked and some criterion is filled in |
| Page.StartGuardPassesIff | app/page.tsx:76-84 | evaluation proceeds exactly when files were picked and some criterion is filled in; with no files the message is "Завантаж файли резюме."; with files but no filled criterion it is "Додай хоча б один критерій з описом." |
| Page.SubmittedRequestIsAdmissible | app/page.tsx:99-108 | a request the page sends after the guards pass and a non-empty upload passes both of the evaluate route's 400 guards |
| Page.HomePage.constructor | app/page.tsx:27-32 | the page starts with one empty criterion of weight 0.5, no files, an empty key, not loading, no error, no results, and at most ten criteria |
| Page.HomePage.AddCriterion | app/page.tsx:60-64 | below ten criteria a fresh empty criterion is appended; at ten nothing changes; the limit of ten is kept |
| Page.HomePage.RemoveCriterion | app/page.tsx:66-68 | the new list is the old one without the criteria of that id, everything else kept |
| Page.HomePage.CriteriaChange | app/page.tsx:40-51 | the new list is the old one with that id's field changed, same length |
| Page.HomePage.FileChange | app/page.tsx:53-58 | a selection replaces the files; no selection leaves them |
| Page.HomePage.ApiKeyChange | app/page.tsx:178 | the key field holds the typed value |
| Page.HomePage.StartEvaluation | app/page.tsx:70-122 | the guards set their message and upload nothing; otherwise the upload is attempted, a failed upload shows its message, a successful one posts the filled criteria, the stored files and the trimmed key; results are set only on a successful evaluation, otherwise the route's error or the fallback is shown; loading always ends false |

## Left out

- PDF and DOCX decoding, file reads, the OpenAI client, `JSON.parse`, `JSON.stringify`, `Number(string)`, `crypto.randomUUID` and `fetch` are foreign or I/O; they are parameters of the model.
- The upload route, the layout, the build configuration and all JSX rendering are not part of this model.
- The `p-limit` gate only bounds how many files are in flight; the model runs files one after another and keeps the limit as a value.
- EvaluateRoute.Post: does not model `p-limit` refusing a limit that is not an integer of at least 1 (such a setting makes every admissible request a 500), because the library's validation is foreign code.
- EvaluateRoute.EvaluateAll: when several files fail, `Promise.all` reports whichever rejects first in time; the model reports the first in input order, and its contract promises only some failing file's error.
- Numbers are mathematical reals; floating-point rounding in the weighted sum and in `toFixed` is not modelled.
- Page.ClampWeight: rounds the exact real value half up to two decimals, so ties decided differently by the double representation are not captured.
- Parse.Lower: lower-cases ASCII letters only; other Unicode case mappings are not modelled (they cannot turn an extension into one of the four supported ones).
- The judge's JSON payload is not validated by the source either; the model carries it as already-typed scores and notes.
- Page.HomePage.StartEvaluation: only the final state is modelled; the intermediate renders while `loading` is true and the asynchronous interleaving of other handlers are not.
- The page's `fetch` replies are reduced to success, a non-OK status and a thrown error; a reply whose JSON lacks the expected fields is not modelled.
- The route's `console.error` logging of a failure is output only and is not modelled.
- Request entries are typed records; an entry without `path` (where `path.extname` throws and the answer is a 500) or other malformed entries of `files` and `criteria` are not modelled.
- Determinism of the batch for fixed inputs holds by construction (every member is a function of its inputs) and has no lemma of its own.
