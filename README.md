# ai-code-review backend core, in Dafny

This project models the Python backend of ai-code-review. It covers four parts:

- **Finding normaliser** (`build_vpoints`). It turns raw pylint, bandit and radon
  output into one flat list of findings ("vpoints"). Each finding has tool, path,
  line, endLine, col, endCol, severity, code and message. Two severity mappings
  feed it, and a rank filter keeps radon cyclomatic-complexity entries of rank C
  or worse.
- **Prompt compaction** (`_summarize_for_prompt`) and the reply fallback of
  `generate_review`. The digest keeps the first 30 pylint items, the first 30
  bandit issues, the radon MI value of every file, and the first 50 rows of the
  flattened radon CC data.
- **Job lifecycle and handlers** of `main.py`, over a document store holding the
  `projects` and `jobs` collections. `create_job` writes a pending job.
  `process_job` merges `running`, then `done` with results or `error` with a
  message. `get_job` answers 404 or 403. Uploads are checked for a zip content
  type. `current_user` checks the bearer token.
- **Authenticated clone URL** (`_auth_url`). It puts `token@` right after
  the `https://` prefix.

Layout:

- `wrappers.dfy`: `Option`, `Field` and `Outcome`. `Field` is Absent, Null or
  Present; it separates a missing JSON key from an explicit null, since
  `dict.get(k, {})` returns None for a null. `Outcome` is a value or a raised
  exception with its message.
- `seqs.dfy`: `Map` and `Filter` on sequences, with lemmas for concatenation,
  appending one element and membership.
- `text.dfy`: ASCII `lower()`/`upper()`, Python's string `<`, `str()` of an
  integer, and `str.replace(old, new, 1)`.
- `tool_results.dfy`: the shapes of the raw tool output. Radon's per-file data
  is a list of (path, value) pairs in dict order. This file also defines the
  file-by-file flattening `Pairs`.
- `vpoints.dfy`: `backend/app/analysis/vpoints.py`. `BuildVPoints` is a method
  with the source's three append loops. It is proved equal to the
  specification function `VPointsOf`, and the lemmas are stated about
  `VPointsOf`.
- `ai_review.dfy`: `backend/app/analysis/ai_review.py`. `SummarizeForPrompt`
  fills the digest and flattens the CC data with a nested loop. It is proved
  equal to `Summary`.
- `api.dfy`: `backend/app/main.py`. The class `Backend` holds the `projects`
  and `jobs` collections and the uploaded trees as map fields. A ghost log
  records every job state written. A merge-write is a shallow map union.
- `git.dfy`: `backend/app/utils/git.py`.

Things the model gets from outside are parameters:

- the uuid4 ids;
- the identity provider (`verify_id_token`), as a function that may reject;
- the analysis run (`project_path` + `run_all`), as an `Outcome`;
- building the OpenAI client and the chat call, as the exception each may raise and the reply content;
- `json.loads`, as a function that may reject.

The code does not do the following, and the model does not add it:

- findings are neither deduplicated nor sorted;
- `create_job` does not check that the project exists;
- no guard keeps a terminal job from changing (`ReprocessedKeepsStaleResults`);
- `project_path` has no path-traversal check;
- `process_job` stores the raw `run_all` output; it calls neither
  `build_vpoints` nor `generate_review`;
- there is no file-reading or job-listing endpoint.

## Model

| member | source | states |
|---|---|---|
| VPoints.SevFromBanditCases | backend/app/analysis/vpoints.py:16-20 | bandit severity is high iff the level is "high" in any case; medium iff it is "medium" or "med" in any case; a missing level is low |
| VPoints.SevFromPylintCases | backend/app/analysis/vpoints.py:22-27 | pylint severity is high iff the type is fatal/error in any case; medium iff it is warning/refactor in any case; a missing type is low |
| VPoints.PylintPoint | backend/app/analysis/vpoints.py:33-44 | tool pylint; a missing or zero line becomes 1; endLine falls back to line, then 1; col = column + 1 with a missing column read as 0; code is message-id, or symbol when that is missing or empty; path, message and endCol are copied |
| VPoints.BanditPoint | backend/app/analysis/vpoints.py:47-59 | tool bandit; line = endLine = line_number, or 1 when missing or zero; col 1 and no endCol; code is test_id; severity from the issue severity |
| VPoints.NoteworthyIff | backend/app/analysis/vpoints.py:65-66 | the filter `rank >= "C"` keeps an entry iff its rank is missing or empty or its upper-cased first letter is at least C |
| VPoints.RadonPointFacts | backend/app/analysis/vpoints.py:65-77 | a radon finding has the file's path, col 1 and no endCol; line = lineno when set and non-zero, else 1; endLine = endline when set and non-zero, else line; severity is medium iff the rank is C or D, otherwise high, never low; code is "CC-" + rank; message is "High cyclomatic complexity (<complexity>) rank <rank>" |
| VPoints.BuildVPoints | backend/app/analysis/vpoints.py:29-79 | the three append loops give exactly `VPointsOf`: pylint findings, then bandit findings, then radon findings; on the modelled result shapes it raises only on null cc data |
| VPoints.AppendRadonPoints | backend/app/analysis/vpoints.py:62-77 | the outer radon loop appends the findings of every kept entry, file by file, in order |
| VPoints.AppendFilePoints | backend/app/analysis/vpoints.py:63-77 | the inner radon loop appends one finding per kept entry of one file, in order |
| VPoints.VPointsLayout | backend/app/analysis/vpoints.py:29-79 | output length = #pylint items + #bandit issues + #kept radon entries; finding i is the point of pylint item i; finding #pylint + i is that of bandit issue i; the radon findings follow |
| VPoints.VPointsFailsOnlyOnNullCC | backend/app/analysis/vpoints.py:62 | the builder raises iff radon's cc data is an explicit null; missing or null sections read as empty |
| VPoints.RadonPointSource | backend/app/analysis/vpoints.py:62-77 | every radon finding comes from a (path, entry) of the cc data that passes the rank filter |
| VPoints.RadonPointComplete | backend/app/analysis/vpoints.py:62-77 | every entry that passes the rank filter gives its finding |
| VPoints.RankAOrBDropped | backend/app/analysis/vpoints.py:64-66 | an entry ranked A or B, in either case, gives no finding |
| AiReview.Take | backend/app/analysis/ai_review.py:13 | `s[:n]` is a prefix of s of length min(n, \|s\|) |
| AiReview.SummarizeForPrompt | backend/app/analysis/ai_review.py:7-44 | filling the payload key by key gives exactly `Summary`, or raises what `Summary` says |
| AiReview.FlattenCC | backend/app/analysis/ai_review.py:37-41 | the nested loop gives one row per function, file by file and function by function; it raises iff some file's function list is null |
| AiReview.AppendRows | backend/app/analysis/ai_review.py:39-41 | the inner loop appends one row per function of the file, in order |
| AiReview.SummaryPylint | backend/app/analysis/ai_review.py:12-18 | the pylint digest is the first min(30, n) items, in order, cut to path/msg/symbol/line; the score is there iff pylint reported one, and then equals it |
| AiReview.SummaryBandit | backend/app/analysis/ai_review.py:21-29 | the bandit digest is the first min(30, n) issues, in order, cut to their six fields |
| AiReview.SummaryRadonMi | backend/app/analysis/ai_review.py:33-35 | radon_mi has the same length and keys as the MI data, and entry k maps file k to its "mi" value |
| AiReview.SummaryRadonCc | backend/app/analysis/ai_review.py:37-42 | function j of file i is row EntryCount(files before i) + j of radon_cc when that is below 50 |
| AiReview.SummaryRadonCcLength | backend/app/analysis/ai_review.py:34-42 | radon_cc is a prefix of the flattened cc data with min(50, total) rows; missing or null cc data reads as empty |
| AiReview.SummaryFailsOnlyOnNull | backend/app/analysis/ai_review.py:12-41 | the digest is built iff no lookup meets a null: a section, pylint's items, bandit's report, radon's mi or cc, the mi data, or a file's function list; a null bandit results list or cc data reads as empty |
| AiReview.SummaryAbsentParts | backend/app/analysis/ai_review.py:12-42 | a missing section or missing key gives an empty digest for that part (pylint items and score, bandit issues, radon_mi, radon_cc) |
| AiReview.SummaryBounded | backend/app/analysis/ai_review.py:13-42 | the digest has at most 30 pylint items, 30 bandit issues and 50 CC rows, however large the input |
| AiReview.GenerateReview | backend/app/analysis/ai_review.py:46-87 | the review fails iff building the client, the digest or the chat call fails, and with the first of these errors in that order; a reply whose content is not JSON, or is None, gives {summary: content, checklist: [], top_wins: []}; otherwise the decoded reply |
| ToolResults.Pairs | backend/app/analysis/vpoints.py:62-63 | the file-by-file flattening has one pair per entry over all files; a null entry list counts as empty |
| ToolResults.PairsAt | backend/app/analysis/ai_review.py:37-41 | entry j of file i is pair EntryCount(files before i) + j of the flattening |
| Text.LowerEquals | backend/app/analysis/vpoints.py:17-19 | `s.lower() == w` for a lower-case ASCII word w iff s is w with any letters upper-cased |
| Text.AtLeastLetter | backend/app/analysis/vpoints.py:66 | for a non-empty string, Python's `s >= c` for one letter c iff its first character is at least c |
| Text.ReplaceFirstAt | backend/app/utils/git.py:8 | `s.replace(pat, rep, 1)` with the first occurrence at k is s[..k] + rep + s[k+\|pat\|..] |
| Text.ReplaceFirstAbsent | backend/app/utils/git.py:8 | `s.replace(pat, rep, 1)` leaves s unchanged when pat does not occur |
| Git.AuthUrl | backend/app/utils/git.py:4-9 | with no token, an empty token or a URL not starting with https:// the URL is unchanged; otherwise the result is "https://" + token + "@" + url[8..] |
| Git.AuthUrlShape | backend/app/utils/git.py:8 | the rewritten URL starts with https://; its length is len(url) + len(token) + 1; the token and "@" follow the prefix; the rest is the rest of the original URL, so a later "https://" stays |
| Git.AuthUrlStrip | backend/app/utils/git.py:8 | taking "token@" out of the rewritten URL gives the original URL back |
| Api.CurrentUser | backend/app/main.py:38-45 | a missing or empty token gives 401 "Missing token"; a rejected token gives 401 "Invalid token"; otherwise the decoded claims |
| Api.JoinPath | backend/app/utils/fs.py:8 | an absolute second part replaces the first; otherwise the result starts with the first part and ends with the second, with one '/' between them unless the first part is empty or ends in '/' |
| Api.Backend.ProjectPath | backend/app/utils/fs.py:7-10 | an id that is not absolute gives a path that starts with storageDir and ends with the id; an absolute id is the whole path; nothing keeps the path inside storageDir |
| Api.Merge | backend/app/main.py:105-120 | a merge-write sets the patch's fields and keeps every other field of the document |
| Api.ProcessedStatus | backend/app/main.py:107-120 | after processing, a successful run gives status done with results = the run's output; a failed run gives status error with error = the exception message |
| Api.ProcessedKeepsFields | backend/app/main.py:105-120 | processing keeps every field it does not write, such as id, projectId, uid and createdAt |
| Api.CreatedThenProcessed | backend/app/main.py:77-120 | a created and then processed job keeps its creation fields and is done or error; it has results iff done and error iff error |
| Api.ReprocessedKeepsStaleResults | backend/app/main.py:116-120 | the writes do not guard terminal states: a job that has results and is processed again with a failure becomes error and keeps its old results |
| Api.Backend.CreateProject | backend/app/main.py:60-71 | stores {id, uid, name, source, createdAt} under the new id, replacing any document there; returns id, name and source; jobs and trees are unchanged |
| Api.Backend.CreateJob | backend/app/main.py:73-87 | stores a pending job with the id, the given projectId and the caller's uid, without checking the project; returns {id, status: "pending"} |
| Api.Backend.GetJob | backend/app/main.py:89-98 | an unknown id gives 404 "job not found"; a job whose uid is missing or differs from the caller's gives 403 "forbidden"; otherwise the stored document unchanged, which is a logged state with one of the four statuses |
| Api.Backend.MergeJob | backend/app/main.py:105 | `set(patch, merge=True)` on the job document, empty if missing; the write is logged; the status invariant is kept |
| Api.Backend.ProcessJob | backend/app/main.py:100-120 | writes running first, then done with results or error with the message, both as merges; the job becomes `Processed(before)`; projects and trees are unchanged |
| Api.Backend.UploadProjectCode | backend/app/main.py:122-129 | a content type other than the three zip/octet-stream types, or none, gives 400 "Upload a .zip of your project." and nothing is written; otherwise the archive replaces the tree at storageDir/projectId and the reply carries that path |
| Api.JobLifecycle | backend/app/main.py:73-120 | create then process then poll: the log shows pending, running, then the terminal state; the owner reads the terminal document; another user gets 403 |

## Left out

- Tool runs (`run_pylint`, `run_bandit`, `run_radon`, `run_all` in backend/app/analysis/static_tools.py) are subprocesses with timeouts. Their result is a parameter.
- The pylint score is parsed with `float`. It is modelled as an optional `real`.
- backend/app/utils/fs.py (`run_cmd`, `parse_json_safe`, directory creation and zip extraction) does file and process I/O. An upload stores the archive bytes as the tree's contents.
- Api.Backend.UploadProjectCode: a corrupt archive is not modelled. The source raises after the old tree is removed, so the model's "the tree is the archive" holds only for archives that extract. Trees are also independent map entries, so an id whose joined path contains other trees ("." or "..") is not modelled either. The source does not normalise the path (backend/app/utils/fs.py:8), so it removes storageDir or its parent, with every uploaded tree (backend/app/utils/fs.py:14-15), and the request then fails; the model keeps the other trees and replies.
- `shallow_clone` and `get_head_sha` only spawn git processes.
- backend/app/deps/firebase.py (SDK set-up, `verify_id_token`) is not part of this model. Token checking is the `verify` parameter.
- The OpenAI client and chat call are a network API. They are parameters: the exception building the client, and the call's outcome with the reply content. `json.dumps` is a serialiser; the digest is modelled as a record.
- FastAPI routing, request-body validation, CORS and `BackgroundTasks` are left out. Processing runs right after creation, in one thread, so concurrent interleavings are not covered.
- `SERVER_TIMESTAMP` is a sentinel value; clock values are left out.
- The `/health` and `/me` endpoints and the `users` collection are left out as framework glue.
- Tool output that is not modelled: a value the tools produce where the model expects a list, a null or a missing key. These are the `{"raw": text}` object that `parse_json_safe` (backend/app/utils/fs.py:36-40) returns for output that is not JSON, which static_tools.py stores as pylint's items and radon's cc and mi data, and the `{"error": message}` object that radon gives as a file's cc value when it cannot parse that file. A file's cc value is modelled as a list of entries or null only.
- VPoints.BuildVPoints: the failures on those shapes are not modelled, so "raises only on null cc data" holds only for the modelled shapes. The source raises on `{"raw": ...}` pylint items (a key string has no `get`, backend/app/analysis/vpoints.py:36), on `{"raw": "<non-empty>"}` cc data (a character has no `get`, backend/app/analysis/vpoints.py:65), and on a file whose cc value is `{"error": ...}` (the key "error" has no `get`, backend/app/analysis/vpoints.py:65).
- AiReview.SummarizeForPrompt: the failures on those shapes are not modelled either. The source raises on `{"raw": ...}` pylint items (slicing a dict, backend/app/analysis/ai_review.py:13), on `{"raw": ...}` mi data (a string has no `get`, backend/app/analysis/ai_review.py:35), on `{"raw": "<non-empty>"}` cc data (a character has no `get`, backend/app/analysis/ai_review.py:40), and on a file whose cc value is `{"error": ...}` (backend/app/analysis/ai_review.py:40).
- Store writes never fail in the model. In the source a failing done-write (backend/app/main.py:110-114) is caught and recorded as error, and a failing running-write (backend/app/main.py:105) leaves the job pending.
- Api.Merge: a merge-write is a shallow map union. The store merges nested maps field by field, which differs only when a job that already holds results is processed again.
- Text.LowerEquals: case mapping is ASCII-only. The one non-ASCII character that lower-cases to an ASCII letter (the Kelvin sign, to "k") cannot matter, because none of the compared words contains a "k".
- VPoints.RadonPointFacts: the rank is upper-cased ASCII-only, so a rank with a letter whose `upper()` is longer than one character ("ß") is not modelled.
- Error messages of the exceptions raised on null sections are the texts CPython gives for those operations.
