/** The HTTP handlers and the background worker, over a document store that
    holds the `projects` and `jobs` collections. A document is a map from
    field names to values; `set(..., merge=True)` is map union, a plain `set`
    replaces the document. Ids from uuid4, the identity provider and the
    analysis run are parameters. */
module Api {
  import opened Wrappers
  import opened ToolResults

  /** The decoded identity token; the core reads only the uid. */
  datatype Claims = Claims(uid: string)

  datatype Response<T> = Reply(body: T) | HttpError(status: int, detail: string)

  /** `current_user`: token is the bearer credential (None without an
      Authorization header), verify stands for the identity provider and
      yields None when it rejects the token. */
  function CurrentUser(token: Option<string>, verify: string -> Option<Claims>): (r: Response<Claims>)
    ensures token.None? || token == Some("") ==> r == HttpError(401, "Missing token")
    ensures token.Some? && token.value != "" && verify(token.value).None? ==> r == HttpError(401, "Invalid token")
    ensures r.Reply? <==> token.Some? && token.value != "" && verify(token.value).Some?
    ensures r.Reply? ==> r.body == verify(token.value).value
  {
    if token.None? || token.value == "" then HttpError(401, "Missing token")
    else
      match verify(token.value)
      case None => HttpError(401, "Invalid token")
      case Some(claims) => Reply(claims)
  }

  /** A field value of a stored document. SERVER_TIMESTAMP is the sentinel the
      store replaces by its clock. */
  datatype Value = Str(s: string) | ServerTimestamp | Results(results: AnalysisResults)

  type Doc = map<string, Value>

  const StatusValues: set<Value> := {Str("pending"), Str("running"), Str("done"), Str("error")}

  /** `document.set(patch, merge=True)` on a document (empty when missing):
      the patch's fields are written, every other field is kept. */
  function Merge(doc: Doc, patch: Doc): (r: Doc)
    ensures r.Keys == doc.Keys + patch.Keys
    ensures forall k :: k in patch ==> r[k] == patch[k]
    ensures forall k :: k in doc && k !in patch ==> r[k] == doc[k]
  {
    doc + patch
  }

  /** The job document that `create_job` writes. */
  function PendingJob(jobId: string, projectId: string, uid: string): Doc {
    map["id" := Str(jobId), "projectId" := Str(projectId), "uid" := Str(uid),
        "status" := Str("pending"), "createdAt" := ServerTimestamp, "updatedAt" := ServerTimestamp]
  }

  /** The first write of `process_job`. */
  const RunningPatch: Doc := map["status" := Str("running"), "updatedAt" := ServerTimestamp]

  /** The last write of `process_job`: results on success, the exception's
      message on failure. */
  function TerminalPatch(analysis: Outcome<AnalysisResults>): Doc {
    match analysis
    case Ok(res) => map["status" := Str("done"), "results" := Results(res), "updatedAt" := ServerTimestamp]
    case Raised(msg) => map["status" := Str("error"), "error" := Str(msg), "updatedAt" := ServerTimestamp]
  }

  /** A job document after `process_job` has run on it. */
  function Processed(before: Doc, analysis: Outcome<AnalysisResults>): Doc {
    Merge(Merge(before, RunningPatch), TerminalPatch(analysis))
  }

  /** After processing the job is done with the run's results, or error with
      the exception's message. */
  lemma ProcessedStatus(before: Doc, analysis: Outcome<AnalysisResults>)
    ensures var after := Processed(before, analysis);
      && "status" in after && "updatedAt" in after
      && (analysis.Ok? ==> after["status"] == Str("done") && "results" in after && after["results"] == Results(analysis.value))
      && (analysis.Raised? ==> after["status"] == Str("error") && "error" in after && after["error"] == Str(analysis.error))
  {
  }

  /** The merges keep every field they do not write: id, projectId, uid and
      createdAt are what the job was created with. */
  lemma ProcessedKeepsFields(before: Doc, analysis: Outcome<AnalysisResults>, k: string)
    requires k in before && k !in {"status", "updatedAt", "results", "error"}
    ensures k in Processed(before, analysis) && Processed(before, analysis)[k] == before[k]
  {
  }

  /** A job created by create_job and then processed once holds its creation
      fields, a terminal status, and exactly one of results and error. */
  lemma CreatedThenProcessed(jobId: string, projectId: string, uid: string, analysis: Outcome<AnalysisResults>)
    ensures var after := Processed(PendingJob(jobId, projectId, uid), analysis);
      && after["id"] == Str(jobId) && after["projectId"] == Str(projectId)
      && after["uid"] == Str(uid) && after["createdAt"] == ServerTimestamp
      && after["status"] in {Str("done"), Str("error")}
      && ("results" in after <==> after["status"] == Str("done"))
      && ("error" in after <==> after["status"] == Str("error"))
  {
    var before := PendingJob(jobId, projectId, uid);
    ProcessedStatus(before, analysis);
    ProcessedKeepsFields(before, analysis, "id");
    ProcessedKeepsFields(before, analysis, "projectId");
    ProcessedKeepsFields(before, analysis, "uid");
    ProcessedKeepsFields(before, analysis, "createdAt");
  }

  /** The writes are merges with no guard on the current status: a finished
      job processed again with a failing run turns to error yet keeps its old
      results next to the new message. */
  lemma ReprocessedKeepsStaleResults(before: Doc, msg: string)
    requires "results" in before
    ensures var after := Processed(before, Raised(msg));
      && after["status"] == Str("error") && after["error"] == Str(msg)
      && "results" in after && after["results"] == before["results"]
  {
    ProcessedStatus(before, Raised(msg));
  }

  /** The content types an upload may have. */
  const ZipContentTypes := {"application/zip", "application/x-zip-compressed", "application/octet-stream"}

  /** `os.path.join(a, b)` on POSIX for two components: an absolute b
      replaces a; otherwise b follows a, with one '/' between them unless a
      is empty or already ends in one. */
  function JoinPath(a: string, b: string): (r: string)
    ensures |b| > 0 && b[0] == '/' ==> r == b
    ensures !(|b| > 0 && b[0] == '/') ==> a <= r && |r| >= |b| && r[|r| - |b|..] == b
    ensures !(|b| > 0 && b[0] == '/') && a != [] && a[|a| - 1] != '/' ==> |r| == |a| + 1 + |b| && r[|a|] == '/'
    ensures !(|b| > 0 && b[0] == '/') && (a == [] || a[|a| - 1] == '/') ==> |r| == |a| + |b|
  {
    if |b| > 0 && b[0] == '/' then b
    else if a == [] || a[|a| - 1] == '/' then a + b
    else a + "/" + b
  }

  datatype ProjectCreated = ProjectCreated(id: string, name: string, source: string)

  datatype JobCreated = JobCreated(id: string, status: string)

  datatype UploadAccepted = UploadAccepted(ok: bool, projectId: string, path: string)

  class Backend {
    /** Where project trees are extracted. */
    const storageDir: string
    /** The `projects` collection. */
    var projects: map<string, Doc>
    /** The `jobs` collection. */
    var jobs: map<string, Doc>
    /** Extracted uploads by directory; the archive stands for its contents. */
    var trees: map<string, seq<bv8>>
    /** Every job document state written, in order: what a poller can see. */
    ghost var jobWrites: seq<(string, Doc)>

    /** Every job has one of the four statuses, and its current state is one
        that was written. */
    ghost predicate Valid()
      reads this
    {
      forall id :: id in jobs ==>
        && "status" in jobs[id] && jobs[id]["status"] in StatusValues
        && (id, jobs[id]) in jobWrites
    }

    constructor (storageDir: string)
      ensures Valid() && this.storageDir == storageDir
      ensures projects == map[] && jobs == map[] && trees == map[] && jobWrites == []
    {
      this.storageDir := storageDir;
      projects, jobs, trees := map[], map[], map[];
      jobWrites := [];
    }

    /** `project_path`: an id that is not absolute lands under storageDir and
        ends the path; an absolute id is the whole path. There is no check that
        the result stays inside storageDir. */
    function ProjectPath(projectId: string): (r: string)
      ensures |projectId| > 0 && projectId[0] == '/' ==> r == projectId
      ensures !(|projectId| > 0 && projectId[0] == '/') ==>
        storageDir <= r && |r| >= |projectId| && r[|r| - |projectId|..] == projectId
    {
      JoinPath(storageDir, projectId)
    }

    /** `POST /projects`: writes the project under projectId (a fresh uuid4). */
    method CreateProject(name: string, source: string, user: Claims, projectId: string) returns (reply: ProjectCreated)
      requires Valid()
      modifies this
      ensures Valid()
      ensures projects == old(projects)[projectId := map["id" := Str(projectId), "uid" := Str(user.uid),
        "name" := Str(name), "source" := Str(source), "createdAt" := ServerTimestamp]]
      ensures jobs == old(jobs) && trees == old(trees) && jobWrites == old(jobWrites)
      ensures reply == ProjectCreated(projectId, name, source)
    {
      projects := projects[projectId := map["id" := Str(projectId), "uid" := Str(user.uid),
        "name" := Str(name), "source" := Str(source), "createdAt" := ServerTimestamp]];
      reply := ProjectCreated(projectId, name, source);
    }

    /** `POST /jobs`: writes a pending job under jobId (a fresh uuid4) whatever
        projectId is; the worker is scheduled separately. */
    method CreateJob(projectId: string, user: Claims, jobId: string) returns (reply: JobCreated)
      requires Valid()
      modifies this
      ensures Valid()
      ensures jobs == old(jobs)[jobId := PendingJob(jobId, projectId, user.uid)]
      ensures jobWrites == old(jobWrites) + [(jobId, PendingJob(jobId, projectId, user.uid))]
      ensures projects == old(projects) && trees == old(trees)
      ensures reply == JobCreated(jobId, "pending")
    {
      jobs := jobs[jobId := PendingJob(jobId, projectId, user.uid)];
      jobWrites := jobWrites + [(jobId, jobs[jobId])];
      reply := JobCreated(jobId, "pending");
    }

    /** `GET /jobs/{id}`: 404 for an unknown id, 403 unless the caller owns
        the job, otherwise the stored document as it is. */
    method GetJob(jobId: string, user: Claims) returns (r: Response<Doc>)
      requires Valid()
      ensures jobId !in jobs ==> r == HttpError(404, "job not found")
      ensures jobId in jobs && ("uid" !in jobs[jobId] || jobs[jobId]["uid"] != Str(user.uid)) ==>
        r == HttpError(403, "forbidden")
      ensures r.Reply? <==> jobId in jobs && "uid" in jobs[jobId] && jobs[jobId]["uid"] == Str(user.uid)
      ensures r.Reply? ==> r.body == jobs[jobId] && (jobId, r.body) in jobWrites
      ensures r.Reply? ==> "status" in r.body && r.body["status"] in StatusValues
    {
      if jobId !in jobs {
        return HttpError(404, "job not found");
      }
      var j := jobs[jobId];
      if "uid" !in j || j["uid"] != Str(user.uid) {
        return HttpError(403, "forbidden");
      }
      r := Reply(j);
    }

    /** `jobs.document(jobId).set(patch, merge=True)` */
    method MergeJob(jobId: string, patch: Doc)
      requires Valid()
      requires "status" in patch && patch["status"] in StatusValues
      modifies this
      ensures Valid()
      ensures jobs == old(jobs)[jobId := Merge(if jobId in old(jobs) then old(jobs)[jobId] else map[], patch)]
      ensures jobWrites == old(jobWrites) + [(jobId, jobs[jobId])]
      ensures projects == old(projects) && trees == old(trees)
    {
      var before := if jobId in jobs then jobs[jobId] else map[];
      jobs := jobs[jobId := Merge(before, patch)];
      jobWrites := jobWrites + [(jobId, jobs[jobId])];
    }

    /** `process_job`: marks the job running, then records the outcome of the
        analysis run (`run_all` on the project's tree), done with results or
        error with the exception's message, both as merges. */
    method ProcessJob(jobId: string, projectId: string, uid: string, analysis: Outcome<AnalysisResults>)
      requires Valid()
      modifies this
      ensures Valid()
      ensures var before := if jobId in old(jobs) then old(jobs)[jobId] else map[];
        && jobs == old(jobs)[jobId := Processed(before, analysis)]
        && jobWrites == old(jobWrites) + [(jobId, Merge(before, RunningPatch)), (jobId, Processed(before, analysis))]
      ensures projects == old(projects) && trees == old(trees)
    {
      MergeJob(jobId, RunningPatch);
      MergeJob(jobId, TerminalPatch(analysis));
    }

    /** `POST /projects/{id}/upload`: anything but a zip content type is
        refused before anything is written; otherwise the archive replaces
        the project's tree. */
    method UploadProjectCode(projectId: string, contentType: Option<string>, data: seq<bv8>, user: Claims)
      returns (r: Response<UploadAccepted>)
      requires Valid()
      modifies this
      ensures Valid()
      ensures contentType.None? || contentType.value !in ZipContentTypes ==>
        r == HttpError(400, "Upload a .zip of your project.") && trees == old(trees)
      ensures contentType.Some? && contentType.value in ZipContentTypes ==>
        trees == old(trees)[ProjectPath(projectId) := data]
        && r == Reply(UploadAccepted(true, projectId, ProjectPath(projectId)))
      ensures projects == old(projects) && jobs == old(jobs) && jobWrites == old(jobWrites)
    {
      if contentType.None? || contentType.value !in ZipContentTypes {
        return HttpError(400, "Upload a .zip of your project.");
      }
      var dest := ProjectPath(projectId);
      trees := trees[dest := data];
      r := Reply(UploadAccepted(true, projectId, dest));
    }
  }

  /** `create_job` followed by the background task it schedules, then a poll
      by the owner and by another user: the owner sees the terminal document,
      the other user is refused. */
  method JobLifecycle(b: Backend, projectId: string, owner: Claims, other: Claims, jobId: string,
                      analysis: Outcome<AnalysisResults>)
    returns (created: JobCreated, polled: Response<Doc>, foreign: Response<Doc>)
    requires b.Valid() && other.uid != owner.uid
    modifies b
    ensures b.Valid()
    ensures created == JobCreated(jobId, "pending")
    ensures polled.Reply? && polled.body == Processed(PendingJob(jobId, projectId, owner.uid), analysis)
    ensures foreign == HttpError(403, "forbidden")
    ensures b.jobWrites == old(b.jobWrites) + [
      (jobId, PendingJob(jobId, projectId, owner.uid)),
      (jobId, Merge(PendingJob(jobId, projectId, owner.uid), RunningPatch)),
      (jobId, Processed(PendingJob(jobId, projectId, owner.uid), analysis))]
  {
    created := b.CreateJob(projectId, owner, jobId);
    b.ProcessJob(jobId, projectId, owner.uid, analysis);
    CreatedThenProcessed(jobId, projectId, owner.uid, analysis);
    polled := b.GetJob(jobId, owner);
    foreign := b.GetJob(jobId, other);
  }
}
