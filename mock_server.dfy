/** The mock generation server: a table of jobs, each of which moves one row
    down a fixed status table every time its status is queried, and which on
    reaching COMPLETED is given canned video or image results. */
module MockServer {
  import opened Common
  import opened Forms

  const MockVideoUrl: string :=
    "https://commondatastorage.googleapis.com/gtv-videos-bucket/sample/BigBuckBunny.mp4"

  const ImagePlaceholders: seq<string> := [
    "https://images.unsplash.com/photo-1472214103451-9374bd1c798e",
    "https://images.unsplash.com/photo-1500530855697-b586d89ba3ee",
    "https://images.unsplash.com/photo-1500534314209-a25ddb2bd429"
  ]

  /** The (status, progress) rows a mock job walks through, in order. */
  const StatusFlow: seq<(string, string)> := [
    ("QUEUED", "Awaiting generation..."),
    ("ANALYZING_SCRIPT", "Parsing script and splitting into scenes."),
    ("GENERATING_PROMPTS", "Authoring Gemini prompts from each scene."),
    ("INVOKING_BEDROCK", "Sending prompts to Nova Reel."),
    ("POLLING_CLIPS", "Waiting for rendered clips to finish."),
    ("COMPLETED", "Assembly complete. 3/3 clips successful.")
  ]

  /** Index of the last row of StatusFlow, the absorbing COMPLETED row. */
  const LastStep: nat := |StatusFlow| - 1

  /** Form fields that are not copied into a job's metadata. */
  const ReservedFields: set<string> := {"prompt", "tool", "model"}

  datatype Variation = Variation(id: string, url: string)

  /** The keyword payload handed to `_create_job`; a missing key is None. */
  datatype Payload = Payload(
    prompt: Option<string>,
    model: Option<string>,
    tool: Option<string>,
    attachments: Option<seq<Attachment>>,
    metadata: Option<map<string, string>>)

  /** One record of the global `jobs` table. */
  datatype Job = Job(
    step: nat,
    status: string,
    progress: string,
    videoUrl: Option<string>,
    imageUrls: Option<seq<string>>,
    variations: Option<seq<Variation>>,
    prompt: string,
    model: Option<string>,
    tool: string,
    attachments: seq<Attachment>,
    metadata: map<string, string>,
    jobNumber: nat)

  /** What a status query returns for a job. */
  datatype StatusResponse = StatusResponse(
    status: string,
    progress: string,
    videoUrl: Option<string>,
    imageUrls: Option<seq<string>>,
    variations: Option<seq<Variation>>,
    prompt: string,
    model: Option<string>,
    tool: string,
    attachments: seq<Attachment>,
    metadata: map<string, string>)

  /** What the two submission routes return. */
  datatype EnqueueResponse = EnqueueResponse(
    jobId: string,
    status: string,
    progress: string,
    prompt: string,
    model: string,
    tool: string,
    attachments: seq<Attachment>,
    metadata: map<string, string>)

  /** The parts of a job that describe the request and never change after creation. */
  predicate SameRequest(a: Job, b: Job) {
    && a.prompt == b.prompt && a.model == b.model && a.tool == b.tool
    && a.attachments == b.attachments && a.metadata == b.metadata
    && a.jobNumber == b.jobNumber
  }

  /** The results a job carries once it has reached COMPLETED. */
  predicate HasResults(j: Job) {
    if j.tool == "video" then
      j.videoUrl == Some(MockVideoUrl) && j.imageUrls == None && j.variations == None
    else
      && j.videoUrl == None
      && j.imageUrls.Some? && |j.imageUrls.value| == 2
      && j.variations.Some? && |j.variations.value| == 2
  }

  /** The invariant every record of the table keeps: it sits on a row of
      StatusFlow and carries results exactly when that row is the last. */
  predicate WellFormed(j: Job) {
    && j.step <= LastStep
    && (j.status, j.progress) == StatusFlow[j.step]
    && (j.step < LastStep ==> j.videoUrl == None && j.imageUrls == None && j.variations == None)
    && (j.step == LastStep ==> HasResults(j))
  }

  function OptionOr<V>(o: Option<V>, default: V): V {
    if o.Some? then o.value else default
  }

  /** The record `_create_job` stores, numbered `number`. */
  function NewJob(payload: Payload, number: nat): (j: Job)
    ensures WellFormed(j) && j.step == 0
    ensures j.status == "QUEUED" && j.progress == "Awaiting generation..."
    ensures j.videoUrl == None && j.imageUrls == None && j.variations == None
    ensures j.prompt == OptionOr(payload.prompt, "") && j.model == payload.model
    ensures j.tool == OptionOr(payload.tool, "video")
    ensures j.attachments == OptionOr(payload.attachments, []) && j.metadata == OptionOr(payload.metadata, map[])
    ensures payload.tool == None ==> j.tool == "video"
    ensures payload.prompt == None ==> j.prompt == ""
    ensures j.jobNumber == number
  {
    Job(0, StatusFlow[0].0, StatusFlow[0].1, None, None, None,
        OptionOr(payload.prompt, ""), payload.model, OptionOr(payload.tool, "video"),
        OptionOr(payload.attachments, []), OptionOr(payload.metadata, map[]), number)
  }

  /** Attaches the canned results of the COMPLETED row; `base` is the chosen
      placeholder image and `seed` the six-character variation seed. */
  function Complete(j: Job, base: string, seed: string): (r: Job)
    ensures SameRequest(j, r) && r.step == j.step && r.status == j.status && r.progress == j.progress
    ensures j.videoUrl == None && j.imageUrls == None && j.variations == None ==> HasResults(r)
  {
    if j.tool == "video" then
      j.(videoUrl := Some(MockVideoUrl))
    else
      j.(imageUrls := Some([base + "?auto=format&seed=" + seed + "&frame=0",
                            base + "?auto=format&seed=" + seed + "&frame=1"]),
         variations := Some([Variation(seed + "-a", base + "?auto=format&fit=crop&w=1024&var=a"),
                             Variation(seed + "-b", base + "?auto=format&fit=crop&w=1024&var=b")]))
  }

  /** `_advance_job`: one row forward, results attached on entering COMPLETED,
      and nothing at all on the last row. `pick` is the index `random.choice`
      chose among the placeholders. */
  function Advance(j: Job, pick: nat, seed: string): (r: Job)
    requires pick < |ImagePlaceholders|
    ensures SameRequest(j, r)
    ensures j.step < LastStep ==> r.step == j.step + 1 && (r.status, r.progress) == StatusFlow[r.step]
    ensures j.step >= LastStep ==> r == j
    ensures WellFormed(j) ==> WellFormed(r)
    ensures j.step + 1 < LastStep ==>
      r.videoUrl == j.videoUrl && r.imageUrls == j.imageUrls && r.variations == j.variations
    ensures j.step + 1 == LastStep && j.tool == "video" ==>
      && r.status == "COMPLETED" && r.videoUrl == Some(MockVideoUrl)
      && r.imageUrls == j.imageUrls && r.variations == j.variations
    ensures j.step + 1 == LastStep && j.tool != "video" ==>
      var base := ImagePlaceholders[pick];
      && r.status == "COMPLETED" && r.videoUrl == j.videoUrl
      && r.imageUrls == Some([base + "?auto=format&seed=" + seed + "&frame=0",
                              base + "?auto=format&seed=" + seed + "&frame=1"])
      && r.variations.Some? && |r.variations.value| == 2
      && r.variations.value[0].id == seed + "-a" && r.variations.value[1].id == seed + "-b"
      && r.variations.value[0].url == base + "?auto=format&fit=crop&w=1024&var=a"
      && r.variations.value[1].url == base + "?auto=format&fit=crop&w=1024&var=b"
  {
    if j.step < LastStep then
      var step := j.step + 1;
      var moved := j.(step := step, status := StatusFlow[step].0, progress := StatusFlow[step].1);
      if StatusFlow[step].0 == "COMPLETED" then Complete(moved, ImagePlaceholders[pick], seed) else moved
    else
      j
  }

  /** The randomness consumed by one status query. */
  datatype Choice = Choice(pick: nat, seed: string)

  predicate ValidChoices(cs: seq<Choice>) {
    forall i :: 0 <= i < |cs| ==> cs[i].pick < |ImagePlaceholders|
  }

  /** The records successive status queries of `j` leave behind, one per query. */
  function Replay(j: Job, cs: seq<Choice>): (r: seq<Job>)
    requires ValidChoices(cs)
    ensures |r| == |cs|
    ensures |r| > 0 ==> r[0] == Advance(j, cs[0].pick, cs[0].seed)
    ensures forall i :: 0 < i < |r| ==> r[i] == Advance(r[i - 1], cs[i].pick, cs[i].seed)
    decreases cs
  {
    if cs == [] then []
    else
      var next := Advance(j, cs[0].pick, cs[0].seed);
      [next] + Replay(next, cs[1..])
  }

  function Min(a: nat, b: nat): nat {
    if a <= b then a else b
  }

  /** After the i-th query (counting from 0) a job that started on row `s` is on
      row min(s + i + 1, LastStep), and keeps its invariant and its request. */
  lemma {:induction false} ReplaySteps(j: Job, cs: seq<Choice>)
    requires WellFormed(j) && ValidChoices(cs)
    ensures forall i :: 0 <= i < |cs| ==>
      && Replay(j, cs)[i].step == Min(j.step + i + 1, LastStep)
      && WellFormed(Replay(j, cs)[i])
      && SameRequest(j, Replay(j, cs)[i])
    decreases cs
  {
    if cs != [] {
      var next := Advance(j, cs[0].pick, cs[0].seed);
      assert ValidChoices(cs[1..]) by {
        forall i | 0 <= i < |cs[1..]| ensures cs[1..][i].pick < |ImagePlaceholders| {
          assert cs[1..][i] == cs[i + 1];
        }
      }
      ReplaySteps(next, cs[1..]);
      forall i | 0 <= i < |cs|
        ensures Replay(j, cs)[i].step == Min(j.step + i + 1, LastStep)
        ensures WellFormed(Replay(j, cs)[i]) && SameRequest(j, Replay(j, cs)[i])
      {
        if i > 0 {
          assert Replay(j, cs)[i] == Replay(next, cs[1..])[i - 1];
        }
      }
    }
  }

  /** From creation, the status queries report ANALYZING_SCRIPT,
      GENERATING_PROMPTS, INVOKING_BEDROCK, POLLING_CLIPS and then COMPLETED for
      ever, and the job's request never changes. */
  lemma {:induction false} ReportedStatuses(payload: Payload, number: nat, cs: seq<Choice>)
    requires ValidChoices(cs)
    ensures var trace := Replay(NewJob(payload, number), cs);
      && (|cs| > 0 ==> trace[0].status == "ANALYZING_SCRIPT")
      && (|cs| > 1 ==> trace[1].status == "GENERATING_PROMPTS")
      && (|cs| > 2 ==> trace[2].status == "INVOKING_BEDROCK")
      && (|cs| > 3 ==> trace[3].status == "POLLING_CLIPS")
      && (forall i :: 4 <= i < |cs| ==> trace[i].status == "COMPLETED")
      && (forall i :: 0 <= i < |cs| ==> trace[i].jobNumber == number)
  {
    var j := NewJob(payload, number);
    ReplaySteps(j, cs);
    var trace := Replay(j, cs);
    forall i | 0 <= i < |cs| ensures trace[i].status == StatusFlow[Min(i + 1, LastStep)].0 {
      assert WellFormed(trace[i]);
    }
  }

  /** Once a job has reached COMPLETED, every further query returns it unchanged. */
  lemma {:induction false} CompletedIsAbsorbing(j: Job, cs: seq<Choice>)
    requires WellFormed(j) && j.status == "COMPLETED" && ValidChoices(cs)
    ensures forall i :: 0 <= i < |cs| ==> Replay(j, cs)[i] == j
  {
    if cs != [] {
      assert ValidChoices(cs[1..]) by {
        forall i | 0 <= i < |cs[1..]| ensures cs[1..][i].pick < |ImagePlaceholders| {
          assert cs[1..][i] == cs[i + 1];
        }
      }
      CompletedIsAbsorbing(j, cs[1..]);
      forall i | 0 < i < |cs| ensures Replay(j, cs)[i] == j {
        assert Replay(j, cs)[i] == Replay(j, cs[1..])[i - 1];
      }
    }
  }

  /** The metadata kept for a submission: every form field but the reserved ones. */
  function FilterMetadata(fields: map<string, string>): (m: map<string, string>)
    ensures m.Keys == fields.Keys - ReservedFields
    ensures forall k :: k in m ==> m[k] == fields[k]
  {
    map k | k in fields && k !in ReservedFields :: fields[k]
  }

  /** The response a status query builds from a record. */
  function ResponseOf(j: Job): (r: StatusResponse)
    ensures (r.status, r.progress) == (j.status, j.progress)
    ensures (r.videoUrl, r.imageUrls, r.variations) == (j.videoUrl, j.imageUrls, j.variations)
    ensures (r.prompt, r.model, r.tool, r.attachments, r.metadata) == (j.prompt, j.model, j.tool, j.attachments, j.metadata)
  {
    StatusResponse(j.status, j.progress, j.videoUrl, j.imageUrls, j.variations,
                   j.prompt, j.model, j.tool, j.attachments, j.metadata)
  }

  /** The global `jobs` table together with the `job_counter` that numbers jobs. */
  class Server {
    var jobs: map<string, Job>
    var nextNumber: nat

    /** Every record is well formed, numbered below the counter, and no two
        records share a number. */
    ghost predicate Valid()
      reads this
    {
      && nextNumber >= 1
      && (forall id :: id in jobs ==> WellFormed(jobs[id]) && 1 <= jobs[id].jobNumber < nextNumber)
      && (forall a, b :: a in jobs && b in jobs && a != b ==> jobs[a].jobNumber != jobs[b].jobNumber)
    }

    constructor ()
      ensures Valid()
      ensures jobs == map[] && nextNumber == 1
    {
      jobs := map[];
      nextNumber := 1;
    }

    /** `_create_job`: stores a fresh record under `id` (the generated uuid),
        numbered by the counter, which then moves on. */
    method CreateJob(payload: Payload, id: string) returns (jobId: string)
      requires Valid()
      modifies this
      ensures Valid()
      ensures jobId == id
      ensures jobs == old(jobs)[id := NewJob(payload, old(nextNumber))]
      ensures nextNumber == old(nextNumber) + 1
      ensures forall k :: k in old(jobs) && k != id ==> old(jobs)[k].jobNumber < jobs[id].jobNumber
    {
      jobs := jobs[id := NewJob(payload, nextNumber)];
      nextNumber := nextNumber + 1;
      jobId := id;
    }

    /** The two submission routes: `defaultTool` is "video" for `enqueue_video`
        and "image" for `generate_image`; `id` is the generated uuid. */
    method Submit(slug: string, fields: map<string, string>, uploads: seq<Upload>,
                  defaultTool: string, id: string) returns (resp: EnqueueResponse)
      requires Valid()
      modifies this
      ensures Valid()
      ensures nextNumber == old(nextNumber) + 1
      ensures id in jobs && jobs == old(jobs)[id := jobs[id]]
      ensures var j := jobs[id];
        && j == NewJob(Payload(Some(resp.prompt), Some(resp.model), Some(resp.tool),
                               Some(resp.attachments), Some(resp.metadata)), old(nextNumber))
        && resp.jobId == id && resp.status == j.status && resp.progress == j.progress
      ensures resp.prompt == GetOr(fields, "prompt", "")
      ensures resp.tool == GetOr(fields, "tool", defaultTool)
      ensures resp.model == GetOr(fields, "model", slug)
      ensures resp.metadata == FilterMetadata(fields)
      ensures resp.attachments == AttachmentMeta(uploads)
    {
      var prompt := GetOr(fields, "prompt", "");
      var tool := GetOr(fields, "tool", defaultTool);
      var model := GetOr(fields, "model", slug);
      var metadata := FilterMetadata(fields);
      var attachments := AttachmentMeta(uploads);
      var jobId := CreateJob(Payload(Some(prompt), Some(model), Some(tool), Some(attachments), Some(metadata)), id);
      resp := EnqueueResponse(jobId, jobs[jobId].status, jobs[jobId].progress,
                              prompt, model, tool, attachments, metadata);
    }

    /** `get_video_status`: an unknown id is a 404 and changes nothing; a known
        one is advanced one row and reported. */
    method GetStatus(id: string, pick: nat, seed: string) returns (r: Result<StatusResponse, HttpError>)
      requires Valid()
      requires pick < |ImagePlaceholders|
      modifies this
      ensures Valid()
      ensures nextNumber == old(nextNumber)
      ensures id !in old(jobs) ==> r == Failure(HttpError(404, "Job ID not found")) && jobs == old(jobs)
      ensures id in old(jobs) ==>
        && jobs == old(jobs)[id := Advance(old(jobs)[id], pick, seed)]
        && r == Success(ResponseOf(jobs[id]))
    {
      if id !in jobs {
        return Failure(HttpError(404, "Job ID not found"));
      }
      var job := Advance(jobs[id], pick, seed);
      jobs := jobs[id := job];
      r := Success(ResponseOf(job));
    }
  }
}
