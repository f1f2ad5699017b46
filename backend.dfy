/** The real backend's job bookkeeping: the global `job_status` table, the
    text-to-video task that drives one of its entries, the completion of an
    image job, and the universal Bytez route with its tool validation. */
module Backend {
  import opened Common
  import opened Bedrock
  import opened ClipPolling
  import opened ImageOutput

  /** One entry of `job_status`. Keys a route never sets are None. */
  datatype Entry = Entry(
    status: string,
    progress: string,
    videoUrl: Option<string>,
    imageUrl: Option<seq<Value>>,
    modelSlug: Option<string>,
    tool: Option<string>)

  /** What the universal route answers when it accepts a job. */
  datatype Accepted = Accepted(jobId: string, status: string, tool: string, modelSlug: string)

  /** ASCII lower-casing of one character. */
  function LowerChar(c: char): char {
    if 'A' <= c <= 'Z' then (c as int + 32) as char else c
  }

  /** `s.lower()`, character by character. */
  function ToLower(s: string): (r: string)
    ensures |r| == |s|
    ensures forall i :: 0 <= i < |s| ==> r[i] == LowerChar(s[i])
  {
    seq(|s|, i requires 0 <= i < |s| => LowerChar(s[i]))
  }

  /** The tool check of `api_bytez_universal`: the lower-cased path segment
      if it is "video" or "image", otherwise a 400 naming it. */
  function ValidateTool(tool: string): (r: Result<string, HttpError>)
    ensures r.Success? ==> r.value == "video" || r.value == "image"
  {
    var t := ToLower(tool);
    if t == "video" || t == "image" then Success(t)
    else Failure(HttpError(400, "Unknown tool: " + t + ". Must be 'video' or 'image'."))
  }

  /** `s` spells `word` up to the case of its letters. */
  predicate CaseVariant(s: string, word: string) {
    |s| == |word| && forall i :: 0 <= i < |s| ==> LowerChar(s[i]) == word[i]
  }

  /** Exactly the case variants of "video" and "image" are accepted, each as the
      lower-case word; everything else is a 400 carrying the lower-cased name. */
  lemma {:induction false} ValidateToolAccepts(tool: string)
    ensures ValidateTool(tool).Success? <==> CaseVariant(tool, "video") || CaseVariant(tool, "image")
    ensures CaseVariant(tool, "video") ==> ValidateTool(tool) == Success("video")
    ensures CaseVariant(tool, "image") ==> ValidateTool(tool) == Success("image")
    ensures ValidateTool(tool).Failure? ==>
      ValidateTool(tool).error == HttpError(400, "Unknown tool: " + ToLower(tool) + ". Must be 'video' or 'image'.")
  {
    var t := ToLower(tool);
    if CaseVariant(tool, "video") {
      assert t == "video";
    }
    if CaseVariant(tool, "image") {
      assert t == "image";
    }
  }

  /** An accepted tool validates to itself: validation is idempotent. */
  lemma ValidateToolIdempotent(tool: string)
    requires ValidateTool(tool).Success?
    ensures ValidateTool(ValidateTool(tool).value) == ValidateTool(tool)
  {
    var t := ValidateTool(tool).value;
    assert ToLower(t) == t;
  }

  /** `invocation_arns`: one entry per prompt, the ARN or None when the
      invocation raised, and nothing at all without a Bedrock client. */
  function Invocations(n: nat, bedrockReady: bool, invoke: nat -> Option<string>): (arns: seq<Option<string>>)
    ensures |arns| == if bedrockReady then n else 0
    ensures forall i :: 0 <= i < |arns| ==> arns[i] == invoke(i)
  {
    if bedrockReady then seq(n, i requires 0 <= i < n => invoke(i)) else []
  }

  /** The entry once the invocation loop has announced the first `done` of
      `n` clips. */
  function SubmittedEntry(e: Entry, done: nat, n: nat, bedrockReady: bool): (r: Entry)
    ensures r == e.(progress := r.progress)
    ensures !(bedrockReady && done > 0) ==> r == e
    ensures bedrockReady && done > 0 ==> r.progress == "Submitting clip " + ClipLabel(done - 1, n) + " to Nova Reel..."
  {
    if bedrockReady && done > 0 then e.(progress := "Submitting clip " + ClipLabel(done - 1, n) + " to Nova Reel...") else e
  }

  /** The entry after the polling loop and the final aggregation, from the
      entry `e` the loop starts with. On the IndexError the entry keeps its
      POLLING_CLIPS status and the last progress written. */
  function PolledEntry(e: Entry, n: nat, arns: seq<Option<string>>, passes: nat,
                       poll: (nat, nat) -> PollResult): (r: Entry)
    ensures r == e.(status := r.status, progress := r.progress, videoUrl := r.videoUrl)
    ensures Polling(PollState([], None), 0, passes, n, arns, poll).IndexError? ==>
      r.status == e.status && r.videoUrl == e.videoUrl
    ensures Polling(PollState([], None), 0, passes, n, arns, poll).Ok? ==>
      r.status in {"COMPLETED", "FAILED"} && (r.status == "FAILED" ==> r.videoUrl == None)
  {
    match Polling(PollState([], None), 0, passes, n, arns, poll)
    case IndexError(st) =>
      if st.progress.Some? then e.(progress := st.progress.value) else e
    case Ok(st) =>
      var o := FinalOutcome(st.clips, n);
      e.(status := o.status, videoUrl := o.videoUrl, progress := o.progress)
  }

  /** The entry `generate_video_task` leaves behind for `n` generated prompts.
      The text-to-video steps before the prompts exist only ever set the
      status, which later steps overwrite. */
  function VideoTaskResult(e: Entry, n: nat, bedrockReady: bool, invoke: nat -> Option<string>,
                           passes: nat, poll: (nat, nat) -> PollResult): (r: Entry)
    ensures r.imageUrl == e.imageUrl && r.modelSlug == e.modelSlug && r.tool == e.tool
  {
    if n == 0 then
      e.(status := "FAILED", progress := "Failed to generate any prompts from script.")
    else
      PolledEntry(SubmittedEntry(e, n, n, bedrockReady).(status := "POLLING_CLIPS"),
                  n, Invocations(n, bedrockReady, invoke), passes, poll)
  }

  /** The statuses the task reports before its prompts exist leave no trace:
      the result depends on the starting entry only through its other fields. */
  lemma StatusOverwritten(e: Entry, status: string, n: nat, bedrockReady: bool,
                          invoke: nat -> Option<string>, passes: nat, poll: (nat, nat) -> PollResult)
    ensures VideoTaskResult(e.(status := status), n, bedrockReady, invoke, passes, poll)
         == VideoTaskResult(e, n, bedrockReady, invoke, passes, poll)
  {
  }

  /** What the task ends in: no prompts fails at once; otherwise, with every
      clip invoked, the task finishes COMPLETED with the first successful clip
      or FAILED, and without a Bedrock client it dies in POLLING_CLIPS on the
      IndexError of the empty ARN list. */
  lemma VideoTaskEnds(e: Entry, n: nat, bedrockReady: bool, invoke: nat -> Option<string>,
                      passes: nat, poll: (nat, nat) -> PollResult)
    ensures n == 0 ==>
      && VideoTaskResult(e, n, bedrockReady, invoke, passes, poll).status == "FAILED"
      && VideoTaskResult(e, n, bedrockReady, invoke, passes, poll).progress == "Failed to generate any prompts from script."
    ensures n > 0 && bedrockReady ==>
      VideoTaskResult(e, n, bedrockReady, invoke, passes, poll).status in {"COMPLETED", "FAILED"}
    ensures n > 0 && bedrockReady && VideoTaskResult(e, n, bedrockReady, invoke, passes, poll).status == "FAILED" ==>
      && VideoTaskResult(e, n, bedrockReady, invoke, passes, poll).videoUrl == None
      && VideoTaskResult(e, n, bedrockReady, invoke, passes, poll).progress == "T2V generation failed for all clips."
    ensures n > 0 && !bedrockReady && passes > 0 ==>
      VideoTaskResult(e, n, bedrockReady, invoke, passes, poll) == e.(status := "POLLING_CLIPS")
  {
  }

  /** The `job_status` table. */
  class StatusTable {
    var entries: map<string, Entry>

    constructor ()
      ensures entries == map[]
    {
      entries := map[];
    }

    /** `api_bytez_universal`: validates the tool before anything else, then
        requires the Bytez SDK, and only then stores a QUEUED entry under `id`
        (the generated uuid). Scheduling the background task is not modelled. */
    method BytezUniversal(tool: string, modelSlug: string, sdkReady: bool, id: string)
      returns (r: Result<Accepted, HttpError>)
      modifies this
      ensures ValidateTool(tool).Failure? ==> r == Failure(ValidateTool(tool).error) && entries == old(entries)
      ensures ValidateTool(tool).Success? && !sdkReady ==>
        r == Failure(HttpError(503, "Bytez SDK not initialized.")) && entries == old(entries)
      ensures ValidateTool(tool).Success? && sdkReady ==>
        var t := ValidateTool(tool).value;
        && r == Success(Accepted(id, "QUEUED", t, modelSlug))
        && entries == old(entries)[id := Entry("QUEUED", "Waiting to start...", None, None, Some(modelSlug), Some(t))]
    {
      var checked := ValidateTool(tool);
      if checked.Failure? {
        return Failure(checked.error);
      }
      var t := checked.value;
      if !sdkReady {
        return Failure(HttpError(503, "Bytez SDK not initialized."));
      }
      entries := entries[id := Entry("QUEUED", "Waiting to start...", None, None, Some(modelSlug), Some(t))];
      r := Success(Accepted(id, "QUEUED", t, modelSlug));
    }

    /** The image branch of `generate_bytez_task` once the model has produced
        `output` without error: the entry completes with the normalised URLs. */
    method CompleteImageTask(jobId: string, output: Value)
      requires jobId in entries
      modifies this
      ensures entries == old(entries)[jobId := old(entries)[jobId].(
        status := "COMPLETED",
        progress := NatToString(|ImageUrls(output)|) + " image(s) generated",
        imageUrl := Some(ImageUrls(output)))]
    {
      var urls := NormalizeImageOutput(output);
      entries := entries[jobId := entries[jobId].(status := "COMPLETED")];
      entries := entries[jobId := entries[jobId].(progress := NatToString(|urls|) + " image(s) generated")];
      entries := entries[jobId := entries[jobId].(imageUrl := Some(urls))];
    }

    /** The invocation loop of `generate_video_task`: with a Bedrock client,
        one `start_async_invoke` per clip, announcing each in the progress. */
    method SubmitClips(jobId: string, n: nat, bedrockReady: bool, invoke: nat -> Option<string>)
      returns (arns: seq<Option<string>>)
      requires jobId in entries
      modifies this
      ensures arns == Invocations(n, bedrockReady, invoke)
      ensures entries == old(entries)[jobId := SubmittedEntry(old(entries)[jobId], n, n, bedrockReady)]
    {
      arns := [];
      if bedrockReady {
        for i := 0 to n
          invariant entries == old(entries)[jobId := SubmittedEntry(old(entries)[jobId], i, n, true)]
          invariant |arns| == i && forall k :: 0 <= k < i ==> arns[k] == invoke(k)
        {
          entries := entries[jobId := entries[jobId].(progress := "Submitting clip " + ClipLabel(i, n) + " to Nova Reel...")];
          arns := arns + [invoke(i)];
        }
      }
    }

    /** `generate_video_task` from the generated prompts on. Scene splitting
        and prompt writing happen outside the model: `prompts` is what they
        produced. `invoke(i)` is the ARN Bedrock returned for clip i (None: the
        call raised), `poll` what each clip query returned, and `passes`
        bounds the polling time. Returns `invocation_arns`, and whether the
        task died on an IndexError. */
    method RunVideoTask(jobId: string, prompts: seq<string>, bedrockReady: bool,
                        invoke: nat -> Option<string>, passes: nat, poll: (nat, nat) -> PollResult)
      returns (arns: seq<Option<string>>, raised: bool)
      requires jobId in entries
      modifies this
      ensures entries == old(entries)[jobId := VideoTaskResult(old(entries)[jobId], |prompts|, bedrockReady, invoke, passes, poll)]
      ensures |prompts| == 0 ==> arns == [] && !raised
      ensures |prompts| > 0 ==> arns == Invocations(|prompts|, bedrockReady, invoke)
      ensures |prompts| > 0 ==>
        (raised <==> Polling(PollState([], None), 0, passes, |prompts|,
                             Invocations(|prompts|, bedrockReady, invoke), poll).IndexError?)
    {
      AnalyzeScript(jobId);
      var n := |prompts|;
      StatusOverwritten(old(entries)[jobId], "GENERATING_PROMPTS", n, bedrockReady, invoke, passes, poll);
      if n == 0 {
        FailNoPrompts(jobId);
        return [], false;
      }
      arns := LaunchClips(jobId, n, bedrockReady, invoke);
      raised := PollAndFinish(jobId, n, arns, passes, poll);
    }

    /** The two statuses the task reports while the script is split into
        scenes and the prompts are written. */
    method AnalyzeScript(jobId: string)
      requires jobId in entries
      modifies this
      ensures entries == old(entries)[jobId := old(entries)[jobId].(status := "GENERATING_PROMPTS")]
    {
      entries := entries[jobId := entries[jobId].(status := "ANALYZING_SCRIPT")];
      entries := entries[jobId := entries[jobId].(status := "GENERATING_PROMPTS")];
    }

    /** The early exit of `generate_video_task` when no prompt came out. */
    method FailNoPrompts(jobId: string)
      requires jobId in entries
      modifies this
      ensures entries == old(entries)[jobId := old(entries)[jobId].(
        status := "FAILED", progress := "Failed to generate any prompts from script.")]
    {
      entries := entries[jobId := entries[jobId].(status := "FAILED")];
      entries := entries[jobId := entries[jobId].(progress := "Failed to generate any prompts from script.")];
    }

    /** From INVOKING_BEDROCK to POLLING_CLIPS: the invocation loop between
        the two status changes. */
    method LaunchClips(jobId: string, n: nat, bedrockReady: bool, invoke: nat -> Option<string>)
      returns (arns: seq<Option<string>>)
      requires jobId in entries
      modifies this
      ensures arns == Invocations(n, bedrockReady, invoke)
      ensures entries == old(entries)[jobId :=
        SubmittedEntry(old(entries)[jobId], n, n, bedrockReady).(status := "POLLING_CLIPS")]
    {
      entries := entries[jobId := entries[jobId].(status := "INVOKING_BEDROCK")];
      arns := SubmitClips(jobId, n, bedrockReady, invoke);
      entries := entries[jobId := entries[jobId].(status := "POLLING_CLIPS")];
    }

    /** The polling loop and the final aggregation of `generate_video_task`,
        for `n` clips with ARNs `arns`. */
    method PollAndFinish(jobId: string, n: nat, arns: seq<Option<string>>, passes: nat,
                         poll: (nat, nat) -> PollResult) returns (raised: bool)
      requires jobId in entries
      modifies this
      ensures entries == old(entries)[jobId := PolledEntry(old(entries)[jobId], n, arns, passes, poll)]
      ensures raised <==> Polling(PollState([], None), 0, passes, n, arns, poll).IndexError?
    {
      var clips, progress;
      clips, progress, raised := PollClips(n, arns, passes, poll);
      if progress.Some? {
        entries := entries[jobId := entries[jobId].(progress := progress.value)];
      }
      if raised {
        return;
      }
      var o := FinalOutcome(clips, n);
      entries := entries[jobId := entries[jobId].(status := o.status, videoUrl := o.videoUrl, progress := o.progress)];
    }
  }
}
