# Video generator backends in Dafny

This project models the two Python backends of an educational video and
image generator.

**The mock server** (`backend/mock_server.py`) keeps a table of jobs. It
fakes a generation pipeline by moving a job one row down a fixed status table
each time its status is queried. When a job reaches COMPLETED, it gets a
canned video URL or two placeholder image URLs and two variations.

**The real backend** (`backend/main.py`) keeps a global `job_status` table.
Its text-to-video task:

- invokes one Amazon Bedrock Nova Reel job per generated prompt;
- polls each clip (`poll_bedrock_job`, which maps the remote status to
  COMPLETED, FAILED or IN_PROGRESS and derives the S3 key from the invocation
  ARN);
- then records the first successful clip, or FAILED.

Its Bytez route validates the tool in the URL and queues a job. The image
branch of the Bytez task turns whatever the model returned into a list of
URLs.

The model is organised by module:

- `Common`: Option, Result, the HTTP error of a route, Python's `str(n)` for
  naturals, and the truthiness of an optional string.
- `Forms`: uploads and `_attachment_meta`. Both servers share this code.
- `MockServer`:
  - the status table and job records as values;
  - `_advance_job` as the function `Advance`;
  - the `jobs` dictionary and `job_counter` as the class `Server`, whose
    methods reassign a `map` field.
- `Bedrock`: `poll_bedrock_job`, the ARN split and the S3 key. `RemoteStatus`
  is `response.get("status", "Unknown")`.
- `ClipPolling`: the polling loop of `generate_video_task`. It is a method
  with nested loops, proved against the recursive specification `Polling`.
  The module also holds the final aggregation. `ClipLabel` is the "i/n"
  text of the progress messages, and `Successful` is the filter's condition
  `url and url != "FAILED_CLIP"`.
- `ImageOutput`: the image-URL normalisation. It is a loop proved against the
  function `ImageUrls`.
- `Backend`: the `job_status` table as the class `StatusTable`. Its methods
  model:
  - the video task from the generated prompts on;
  - the completion of an image job;
  - the universal Bytez route with its tool validation.

Effects outside the process are parameters of the operations that use them:

- Clients that may be missing become booleans (`clientReady`,
  `bedrockReady`, `sdkReady`).
- What a Bedrock or S3 call returned becomes an oracle: `invoke(i)`,
  `poll(pass, i)` and `presign(key)`.
- Generated uuids become an `id` string.
- `random.choice` becomes an index `pick`, and a uuid hex prefix becomes a
  `seed` string.
- Wall-clock time becomes a bound `passes` on the polling passes.

The polling loop is modelled as written:

- Each pass restarts at index `len(clip_urls)`, not at the first clip that is
  still in progress. `ResumeIndexDoublesLaterClip` shows a two-clip run in
  which the second clip's URL fills both slots and the task reports 2/2
  clips. The first clip never completed.
- Without a Bedrock client, `invocation_arns` stays empty and the first
  `invocation_arns[i]` raises IndexError. The model records this as
  `IndexError` / `raised`: the entry is left in POLLING_CLIPS with its last
  progress.

The browser client polls `/status` and expects the statuses these modules
produce: QUEUED through COMPLETED, or FAILED.

## Model

| member | source | states |
|---|---|---|
| Forms.AttachmentMeta | backend/mock_server.py:104-112 | at most one record per upload; every record has a non-empty name and comes from an upload with that file name and content type |
| Forms.AttachmentMetaAppend | backend/mock_server.py:105-111 | the filter keeps order: metadata of `a + b` is metadata of `a` followed by metadata of `b` |
| Forms.AttachmentMetaAllNamed | backend/main.py:133-141 | when every upload has a truthy file name, nothing is dropped and record i is (filename, content type) of upload i |
| Forms.AttachmentMetaNoneNamed | backend/mock_server.py:110-111 | uploads whose file name is None or empty give no records |
| Common.GetOr | backend/mock_server.py:138-140 | `d.get(key, default)`: the stored value when the key is present, the default otherwise |
| Common.NatToString | backend/main.py:231 | the f-string rendering of a count: at least one decimal digit, and no leading zero |
| Common.NatToStringValue | backend/main.py:231 | the rendering denotes the number: read back as decimal digits it is `n`, so "i/n", "k/n" and "<k> image(s)" carry the actual counts |
| MockServer.NewJob | backend/mock_server.py:56-72 | a new record sits on row 0 (QUEUED, "Awaiting generation..."), has no results and is well formed; it keeps the payload's prompt, model, tool, attachments and metadata, defaulting to "", None, "video", [] and {}; it carries its job number |
| MockServer.Advance | backend/mock_server.py:75-101 | the request part never changes; below the last row the step grows by one and status/progress are that row of STATUS_FLOW; on the last row the record is unchanged; the invariant is preserved; entering COMPLETED attaches the mock video URL for "video", otherwise the two seeded frame URLs of the chosen placeholder and the variations "seed-a"/"seed-b" with their crop URLs `<base>?auto=format&fit=crop&w=1024&var=a` / `var=b` |
| MockServer.Complete | backend/mock_server.py:81-100 | attaching results changes neither the request, the row, the status nor the progress, and a record without results gets exactly the results the well-formedness invariant asks of a COMPLETED record |
| MockServer.Replay | backend/mock_server.py:205-211 | one record per query: the first is the advance of the starting record, and each later one the advance of the one before |
| MockServer.ReplaySteps | backend/mock_server.py:76-80 | after the i-th query a job that started on row s is on row min(s+i+1, 5), well formed, with the same request |
| MockServer.ReportedStatuses | backend/mock_server.py:28-35 | successive queries of a new job report ANALYZING_SCRIPT, GENERATING_PROMPTS, INVOKING_BEDROCK, POLLING_CLIPS, then COMPLETED for ever, always with the same job number |
| MockServer.CompletedIsAbsorbing | backend/mock_server.py:77 | once COMPLETED, every further query leaves the record exactly as it was |
| MockServer.FilterMetadata | backend/mock_server.py:141-145 | metadata keeps exactly the form fields other than prompt, tool and model, with their values |
| MockServer.ResponseOf | backend/mock_server.py:212-223 | the status response carries every field of the record except its step and job number |
| MockServer.Server.constructor | backend/mock_server.py:38-39 | the table starts empty and the counter at 1 |
| MockServer.Server.CreateJob | backend/mock_server.py:56-72 | stores the new record under the id, numbered by the counter, which moves on by one; the new number exceeds every other record's; the table invariant (well-formed records, distinct numbers below the counter) is kept |
| MockServer.Server.Submit | backend/mock_server.py:135-202 | the response echoes prompt (default ""), tool (default per route), model (default the slug), the filtered metadata and the attachment records, and reports the QUEUED status of exactly the one record it adds |
| MockServer.Server.GetStatus | backend/mock_server.py:205-223 | an unknown id is a 404 "Job ID not found" and changes nothing; a known id is advanced one row and its new record is reported |
| Bedrock.Split | backend/main.py:157 | at least one piece, none containing the separator; a single piece exactly when the separator is absent, and then it is the whole string |
| Bedrock.JoinSplit | backend/main.py:157 | joining the pieces of a split with the separator gives back the string |
| Bedrock.InvocationId | backend/main.py:157-158 | the invocation id holds no "/", and an ARN without "/" is its own id |
| Bedrock.InvocationIdAfterLastSlash | backend/main.py:157-158 | the invocation id of `prefix/id` is `id` when `id` holds no '/' |
| Bedrock.S3KeyOfArn | backend/main.py:157-159 | the S3 key for such an ARN is "jobs/<id>/output.mp4" |
| Bedrock.S3Key | backend/main.py:159 | the key is "jobs/", then the invocation id (which holds no "/"), then "/output.mp4" |
| Bedrock.PollBedrockJob | backend/main.py:145-173 | COMPLETED exactly when the client exists, the query returned "Completed" and signing the key succeeded, and then the URL is the signed one; a signing failure is FAILED with "Polling error: <e>"; IN_PROGRESS exactly when the returned status is anything else but "Failed", with "Job status: <status>"; "Failed" gives failureMessage or "Unknown failure."; a missing client and a raised query give their FAILED messages; no URL unless COMPLETED |
| ClipPolling.PollClip | backend/main.py:263-276 | raises IndexError exactly when the index is past the ARN list; a falsy ARN appends FAILED_CLIP; COMPLETED appends the URL, FAILED appends FAILED_CLIP, IN_PROGRESS appends nothing |
| ClipPolling.ForPass | backend/main.py:263-276 | one pass only extends `clip_urls`, by at most one entry per remaining clip, and cannot raise when there are enough ARNs |
| ClipPolling.Polling | backend/main.py:262-279 | the loop only extends `clip_urls`, never beyond n entries, and cannot raise when there are enough ARNs |
| ClipPolling.PollClips | backend/main.py:257-279 | the nested loops end in exactly the clips, progress and raise status that `Polling` specifies from an empty list |
| ClipPolling.FirstSuccessful | backend/main.py:281-284 | the successful-clip filter is empty iff no entry is truthy and non-FAILED_CLIP, and otherwise starts with the first such entry |
| ClipPolling.SuccessfulClips | backend/main.py:281 | every kept URL is a truthy, non-FAILED_CLIP entry of `clip_urls`; nothing is dropped when every entry succeeded; with SuccessfulClipsAppend the filter is pinned down completely |
| ClipPolling.SuccessfulClipsAppend | backend/main.py:281 | the filter distributes over concatenation, so every successful entry is kept, in order, and `len(successful_clips)` counts them all |
| ClipPolling.FinalOutcome | backend/main.py:281-291 | COMPLETED iff some entry is successful, then with the first successful entry as URL and "Assembly complete. k/n clips successful."; otherwise FAILED, no URL, "T2V generation failed for all clips." |
| ClipPolling.NoArnsMeansFailure | backend/main.py:275-276 | when every ARN is falsy, one pass fills `clip_urls` with FAILED_CLIP and the task fails |
| ClipPolling.ResumeIndexDoublesLaterClip | backend/main.py:263 | resuming at `len(clip_urls)` lets a later clip's URL fill an earlier clip's slot: a two-clip run reports 2/2 with one clip rendered |
| ImageOutput.ImageUrls | backend/main.py:500-512 | a string gives itself; a dict gives its "url" exactly when that is a string; null, booleans and numbers give nothing; a non-list gives at most one string |
| ImageOutput.ItemUrls | backend/main.py:507-510 | a string item gives itself; a dict item gives its "url" value exactly when it has that key; any other item gives nothing |
| ImageOutput.ListUrls | backend/main.py:505-510 | at most one URL per item; ListUrlsAppend and ListUrlsMembers give its order and members |
| ImageOutput.NormalizeImageOutput | backend/main.py:500-512 | the loop computes exactly `ImageUrls` of the output |
| ImageOutput.ListUrlsAppend | backend/main.py:506-510 | the list branch keeps order: it distributes over concatenation |
| ImageOutput.ListUrlsMembers | backend/main.py:506-510 | a value is in the list result iff it is a string item or the "url" entry of a dict item (of any type) |
| ImageOutput.StringListUnchanged | backend/main.py:505-508 | a list of strings comes back unchanged |
| Backend.ToLower | backend/main.py:533 | lower-casing keeps the length and lowers each character |
| Backend.ValidateTool | backend/main.py:533-535 | an accepted tool is "video" or "image" |
| Backend.ValidateToolAccepts | backend/main.py:533-535 | accepted exactly for the case variants of "video" and "image", as the lower-case word; otherwise a 400 "Unknown tool: <lowered>. Must be 'video' or 'image'." |
| Backend.ValidateToolIdempotent | backend/main.py:533-534 | validating an accepted tool again gives the same result |
| Backend.Invocations | backend/main.py:225-253 | one ARN per prompt, in order, each what the invocation returned (None when it raised), and none at all without a Bedrock client |
| Backend.SubmittedEntry | backend/main.py:229-231 | the invocation loop only writes the progress, "Submitting clip i/n to Nova Reel...", and writes nothing without a client or before the first clip |
| Backend.PolledEntry | backend/main.py:257-291 | polling writes only status, progress and URL; after the IndexError the status and URL are untouched; otherwise the status is COMPLETED or FAILED, and FAILED has no URL |
| Backend.VideoTaskResult | backend/main.py:218-291 | the video task never touches the image URL, model slug or tool of the entry |
| Backend.StatusOverwritten | backend/main.py:181-191 | the statuses written before the prompts exist leave no trace in the final entry |
| Backend.VideoTaskEnds | backend/main.py:218-291 | no prompts fails with "Failed to generate any prompts from script."; with a client the task ends COMPLETED or FAILED, and FAILED has no URL and "T2V generation failed for all clips."; without a client and with time to poll it dies in POLLING_CLIPS with the entry otherwise untouched |
| Backend.StatusTable.constructor | backend/main.py:111 | the table starts empty |
| Backend.StatusTable.BytezUniversal | backend/main.py:525-559 | an unknown tool is a 400 and a missing SDK a 503, both changing nothing; otherwise a QUEUED "Waiting to start..." entry with the slug and lowered tool is stored under the id and returned |
| Backend.StatusTable.CompleteImageTask | backend/main.py:500-516 | the entry becomes COMPLETED with "<k> image(s) generated" and the normalised URLs, nothing else changes |
| Backend.StatusTable.SubmitClips | backend/main.py:229-255 | returns `Invocations`, and the progress ends at "Submitting clip n/n to Nova Reel..." when any clip was submitted |
| Backend.StatusTable.RunVideoTask | backend/main.py:177-291 | the entry ends as `VideoTaskResult` of its starting value and the ARN list is `Invocations`; with prompts, the task raises exactly when the polling loop hits the IndexError of main.py:264; with no prompts it never raises |
| Backend.StatusTable.AnalyzeScript | backend/main.py:181-191 | the entry's status ends at GENERATING_PROMPTS |
| Backend.StatusTable.FailNoPrompts | backend/main.py:218-222 | the entry becomes FAILED with "Failed to generate any prompts from script." |
| Backend.StatusTable.LaunchClips | backend/main.py:224-257 | the entry carries the submission progress and status POLLING_CLIPS; the ARNs are `Invocations` |
| Backend.StatusTable.PollAndFinish | backend/main.py:257-291 | the entry ends as `PolledEntry`: after an IndexError only the last progress is written, otherwise the `FinalOutcome` status, URL and progress; `raised` iff the loop raised |

## Left out

- HTTP framing is not modelled. This covers FastAPI routing, CORS, multipart
  form extraction (`_extract_form_payload`), JSON encoding, and the 422
  FastAPI returns for a missing `prompt` form field.
- The health routes are not modelled. They only count the jobs.
- `api_video_nova` (`backend/main.py:298-329`) is not modelled. It is route
  plumbing outside the modelled task:
  - the script is the `prompt` field, or the `script` field when `prompt` is
    empty or missing;
  - the style is the `style` field, else the `model` field, else
    "default-style";
  - metadata is every form field except prompt, style, script, tool and
    model;
  - it stores the QUEUED "Awaiting generation..." entry with those values,
    and `RunVideoTask` starts from that entry.
- The real backend's `/status` route is not modelled: it is a dictionary
  lookup with a 404. The mock's status route is modelled as `GetStatus`.
- Client initialisation is left out: environment variables, boto3, Gemini,
  spaCy and Bytez constructors. Whether a client exists is a boolean
  parameter.
- Scene splitting and Gemini prompt writing, with their fallback prompt,
  are left out. They call foreign code; `RunVideoTask` takes the prompts
  they produced as `prompts`.
- The Nova Reel request body is left out, including its random seed and
  fixed durations. Only the ARN each invocation returns (`invoke`) matters
  to the job table.
- `time.sleep` and `time.time()` are replaced by the `passes` bound.
  - Backend.StatusTable.RunVideoTask: does not model how many passes ten
    minutes allow, because that depends on how long the remote calls take.
- Background tasks and concurrency are not modelled. Each method runs to
  completion, so an interleaved status read of an intermediate value is not
  modelled.
- Most of `generate_bytez_task` is not modelled. The parts left out are:
  - the prelude, which writes IN_PROGRESS and "Generating using Bytez
    model: <slug> ...";
  - the video branch, which writes COMPLETED, "Video generated
    successfully" and the SDK's `output` object itself as the video URL;
  - the `error` branch and the exception handler, which store `str()` of
    the SDK's error or the exception.

  The branches depend on foreign objects the model does not represent.
  Only the image normalisation and its completion are modelled, in
  `CompleteImageTask`. The status and progress the prelude writes are
  overwritten there.
- Backend.ToLower: lower-cases ASCII letters only, unlike Python's full
  Unicode `str.lower`.
- A Python dict key that is absent and one that holds None are not told
  apart. Both are `None` in the records.
- Mutation of a job dictionary in place is modelled as a new value stored
  back into the table's map. Nothing else holds a reference to these
  dictionaries, so no aliasing is lost.
- `backend/bytez_temp.py` is not part of this model. The commented-out
  earlier versions of the routes in `backend/main.py` are not part of it
  either.
- Printing and logging are not modelled.
