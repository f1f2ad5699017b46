/** The clip-polling loop of `generate_video_task` and the outcome it
    aggregates. Wall-clock time is replaced by a number of passes, and the
    result of each `poll_bedrock_job` call by an oracle `poll(pass, i)`. */
module ClipPolling {
  import opened Common
  import opened Bedrock

  /** The marker appended for a clip that failed or was never invoked. */
  const FailedClip: string := "FAILED_CLIP"

  /** `clip_urls`, and the progress text the loop last wrote (None: none yet). */
  datatype PollState = PollState(clips: seq<Option<string>>, progress: Option<string>)

  /** How a stretch of the loop ended: normally, or with the IndexError raised
      by `invocation_arns[i]`, in the state reached just before it. */
  datatype Run = Ok(state: PollState) | IndexError(state: PollState)

  function ClipLabel(i: nat, n: nat): string {
    NatToString(i + 1) + "/" + NatToString(n)
  }

  /** One iteration of the inner `for` loop, for clip `i`, given what polling
      its ARN returned. */
  function PollClip(s: PollState, i: nat, n: nat, arns: seq<Option<string>>, result: PollResult): (r: Run)
    ensures r.IndexError? <==> i >= |arns|
    ensures r.IndexError? ==> r.state == s
    ensures s.clips <= r.state.clips && |r.state.clips| <= |s.clips| + 1
    ensures r.Ok? && !Truthy(arns[i]) ==> r.state == PollState(s.clips + [Some(FailedClip)], s.progress)
    ensures r.Ok? && Truthy(arns[i]) && result.status == Completed ==> r.state.clips == s.clips + [result.videoUrl]
    ensures r.Ok? && Truthy(arns[i]) && result.status == Failed ==> r.state.clips == s.clips + [Some(FailedClip)]
    ensures r.Ok? && Truthy(arns[i]) && result.status == InProgress ==> r.state.clips == s.clips
  {
    if i >= |arns| then IndexError(s)
    else if Truthy(arns[i]) then
      match result.status
      case Completed =>
        Ok(PollState(s.clips + [result.videoUrl], Some("Clip " + ClipLabel(i, n) + " Completed.")))
      case Failed =>
        Ok(PollState(s.clips + [Some(FailedClip)], Some("Clip " + ClipLabel(i, n) + " FAILED: " + result.message)))
      case InProgress =>
        Ok(PollState(s.clips, Some("Waiting on Clip " + ClipLabel(i, n) + ". Current status: " + result.message + ".")))
    else
      Ok(PollState(s.clips + [Some(FailedClip)], s.progress))
  }

  /** The rest of one pass: `for i in range(i, n)` during pass `pass`. Each
      iteration appends at most one entry. */
  function ForPass(s: PollState, i: nat, n: nat, arns: seq<Option<string>>, pass: nat,
                   poll: (nat, nat) -> PollResult): (r: Run)
    ensures s.clips <= r.state.clips
    ensures i <= n ==> |r.state.clips| <= |s.clips| + (n - i)
    ensures n <= |arns| ==> r.Ok?
    decreases n - i
  {
    if i >= n then Ok(s)
    else
      match PollClip(s, i, n, arns, poll(pass, i))
      case IndexError(at) => IndexError(at)
      case Ok(next) => ForPass(next, i + 1, n, arns, pass, poll)
  }

  /** The `while` loop from pass `pass` on: each pass resumes at index
      `len(clip_urls)`, and the loop ends once `n` entries exist or the passes
      run out. */
  function Polling(s: PollState, pass: nat, passes: nat, n: nat, arns: seq<Option<string>>,
                   poll: (nat, nat) -> PollResult): (r: Run)
    requires |s.clips| <= n
    ensures s.clips <= r.state.clips && |r.state.clips| <= n
    ensures n <= |arns| ==> r.Ok?
    decreases passes - pass
  {
    if pass >= passes || |s.clips| >= n then Ok(s)
    else
      match ForPass(s, |s.clips|, n, arns, pass, poll)
      case IndexError(at) => IndexError(at)
      case Ok(next) =>
        if |next.clips| == n then Ok(next) else Polling(next, pass + 1, passes, n, arns, poll)
  }

  /** The loop as the task runs it, from an empty `clip_urls`; `raised` reports
      the IndexError of an `invocation_arns` shorter than `n`. */
  method PollClips(n: nat, arns: seq<Option<string>>, passes: nat, poll: (nat, nat) -> PollResult)
    returns (clips: seq<Option<string>>, progress: Option<string>, raised: bool)
    ensures Polling(PollState([], None), 0, passes, n, arns, poll) ==
      (if raised then IndexError(PollState(clips, progress)) else Ok(PollState(clips, progress)))
  {
    ghost var goal := Polling(PollState([], None), 0, passes, n, arns, poll);
    clips, progress, raised := [], None, false;
    var pass := 0;
    while pass < passes && |clips| < n
      invariant |clips| <= n
      invariant Polling(PollState(clips, progress), pass, passes, n, arns, poll) == goal
      decreases passes - pass
    {
      ghost var passGoal := ForPass(PollState(clips, progress), |clips|, n, arns, pass, poll);
      var i := |clips|;
      while i < n
        invariant |clips| <= i <= n
        invariant ForPass(PollState(clips, progress), i, n, arns, pass, poll) == passGoal
      {
        if i >= |arns| {
          raised := true;
          return;
        }
        if Truthy(arns[i]) {
          var result := poll(pass, i);
          match result.status
          case Completed =>
            clips := clips + [result.videoUrl];
            progress := Some("Clip " + ClipLabel(i, n) + " Completed.");
          case Failed =>
            clips := clips + [Some(FailedClip)];
            progress := Some("Clip " + ClipLabel(i, n) + " FAILED: " + result.message);
          case InProgress =>
            progress := Some("Waiting on Clip " + ClipLabel(i, n) + ". Current status: " + result.message + ".");
        } else {
          clips := clips + [Some(FailedClip)];
        }
        i := i + 1;
      }
      if |clips| == n {
        break;
      }
      pass := pass + 1;
    }
  }

  /** An entry that counts as a produced clip: truthy and not the failure marker. */
  predicate Successful(c: Option<string>) {
    Truthy(c) && c.value != FailedClip
  }

  /** `[url for url in clip_urls if url and url != "FAILED_CLIP"]`. */
  function SuccessfulClips(clips: seq<Option<string>>): (r: seq<string>)
    ensures |r| <= |clips|
    ensures forall c :: c in r ==> Some(c) in clips && Successful(Some(c))
    ensures (forall k :: 0 <= k < |clips| ==> Successful(clips[k])) ==> |r| == |clips|
  {
    if clips == [] then []
    else (if Successful(clips[0]) then [clips[0].value] else []) + SuccessfulClips(clips[1..])
  }

  /** The filter keeps every successful entry, in order: it distributes over
      concatenation. */
  lemma {:induction false} SuccessfulClipsAppend(a: seq<Option<string>>, b: seq<Option<string>>)
    ensures SuccessfulClips(a + b) == SuccessfulClips(a) + SuccessfulClips(b)
  {
    if a != [] {
      assert (a + b)[1..] == a[1..] + b;
      SuccessfulClipsAppend(a[1..], b);
    } else {
      assert a + b == b;
    }
  }

  /** The filter is empty exactly when no entry is successful, and otherwise
      starts with the first successful entry. */
  lemma {:induction false} FirstSuccessful(clips: seq<Option<string>>)
    ensures SuccessfulClips(clips) == [] <==> forall k :: 0 <= k < |clips| ==> !Successful(clips[k])
    ensures SuccessfulClips(clips) != [] ==>
      exists j :: (0 <= j < |clips| && Successful(clips[j]) && clips[j] == Some(SuccessfulClips(clips)[0])
                   && forall k :: 0 <= k < j ==> !Successful(clips[k]))
  {
    if clips != [] {
      FirstSuccessful(clips[1..]);
      if !Successful(clips[0]) && SuccessfulClips(clips) != [] {
        var j :| 0 <= j < |clips[1..]|
          && Successful(clips[1..][j]) && clips[1..][j] == Some(SuccessfulClips(clips[1..])[0])
          && (forall k :: 0 <= k < j ==> !Successful(clips[1..][k]));
        assert forall k :: 0 <= k < j + 1 ==> !Successful(clips[k]) by {
          forall k | 0 < k < j + 1 ensures !Successful(clips[k]) {
            assert clips[k] == clips[1..][k - 1];
          }
        }
      }
      if SuccessfulClips(clips) == [] {
        forall k | 0 <= k < |clips| ensures !Successful(clips[k]) {
          if k > 0 {
            assert clips[k] == clips[1..][k - 1];
          }
        }
      }
    }
  }

  /** The final status, progress and video URL the task records. */
  datatype Outcome = Outcome(status: string, progress: string, videoUrl: Option<string>)

  /** The aggregation after polling: the first successful clip, or failure. */
  function FinalOutcome(clips: seq<Option<string>>, n: nat): (o: Outcome)
    ensures o.status == "COMPLETED" <==> exists j :: 0 <= j < |clips| && Successful(clips[j])
    ensures o.status == "COMPLETED" ==>
      && o.progress == "Assembly complete. " + NatToString(|SuccessfulClips(clips)|) + "/" + NatToString(n) + " clips successful."
      && exists j :: 0 <= j < |clips| && Successful(clips[j]) && o.videoUrl == clips[j]
                     && forall k :: 0 <= k < j ==> !Successful(clips[k])
    ensures o.status != "COMPLETED" ==> o == Outcome("FAILED", "T2V generation failed for all clips.", None)
  {
    FirstSuccessful(clips);
    var successful := SuccessfulClips(clips);
    if successful != [] then
      Outcome("COMPLETED", "Assembly complete. " + NatToString(|successful|) + "/" + NatToString(n) + " clips successful.",
              Some(successful[0]))
    else
      Outcome("FAILED", "T2V generation failed for all clips.", None)
  }

  /** Every clip without an ARN: each pass appends the failure marker for all
      remaining clips, so one pass fills `clip_urls` and the task fails. */
  lemma {:induction false} NoArnsMeansFailure(n: nat, arns: seq<Option<string>>, passes: nat, poll: (nat, nat) -> PollResult)
    requires n <= |arns| && passes >= 1
    requires forall i :: 0 <= i < n ==> !Truthy(arns[i])
    ensures var r := Polling(PollState([], None), 0, passes, n, arns, poll);
      && r.Ok? && |r.state.clips| == n
      && (forall k :: 0 <= k < n ==> r.state.clips[k] == Some(FailedClip))
      && FinalOutcome(r.state.clips, n).status == "FAILED"
  {
    AllMarkersPass(PollState([], None), 0, n, arns, 0, poll);
    var r := Polling(PollState([], None), 0, passes, n, arns, poll);
    assert forall k :: 0 <= k < n ==> !Successful(r.state.clips[k]);
  }

  lemma {:induction false} AllMarkersPass(s: PollState, i: nat, n: nat, arns: seq<Option<string>>, pass: nat,
                                          poll: (nat, nat) -> PollResult)
    requires i <= n <= |arns| && |s.clips| == i
    requires forall k :: 0 <= k < |s.clips| ==> s.clips[k] == Some(FailedClip)
    requires forall k :: i <= k < n ==> !Truthy(arns[k])
    ensures var r := ForPass(s, i, n, arns, pass, poll);
      r.Ok? && |r.state.clips| == n && forall k :: 0 <= k < n ==> r.state.clips[k] == Some(FailedClip)
    decreases n - i
  {
    if i < n {
      var next := PollState(s.clips + [Some(FailedClip)], s.progress);
      assert PollClip(s, i, n, arns, poll(pass, i)) == Ok(next);
      AllMarkersPass(next, i + 1, n, arns, pass, poll);
    }
  }

  /** The loop resumes at index `len(clip_urls)`, not at the first clip still
      in progress. With two clips where clip 1 finishes first, clip 1's URL is
      stored in clip 0's slot, the next pass polls clip 1 again, and clip 0 is
      never polled again: the task reports 2/2 clips although clip 0 never
      completed. */
  lemma ResumeIndexDoublesLaterClip()
    ensures var poll := (pass: nat, i: nat) =>
        if i == 0 then PollResult(InProgress, None, "Job status: InProgress")
        else PollResult(Completed, Some("clip-1-url"), "Video generated and URL pre-signed.");
      var arns := [Some("arn:clip/0"), Some("arn:clip/1")];
      var r := Polling(PollState([], None), 0, 2, 2, arns, poll);
      && r.Ok?
      && r.state.clips == [Some("clip-1-url"), Some("clip-1-url")]
      && |SuccessfulClips(r.state.clips)| == 2
      && FinalOutcome(r.state.clips, 2).status == "COMPLETED"
  {
    var poll := (pass: nat, i: nat) =>
        if i == 0 then PollResult(InProgress, None, "Job status: InProgress")
        else PollResult(Completed, Some("clip-1-url"), "Video generated and URL pre-signed.");
    var arns := [Some("arn:clip/0"), Some("arn:clip/1")];
    var s0 := PollState([], None);
    var s1 := PollClip(s0, 0, 2, arns, poll(0, 0)).state;
    assert s1.clips == [];
    var s2 := PollClip(s1, 1, 2, arns, poll(0, 1)).state;
    assert s2.clips == [Some("clip-1-url")];
    assert ForPass(s0, 0, 2, arns, 0, poll) == Ok(s2);
    var s3 := PollClip(s2, 1, 2, arns, poll(1, 1)).state;
    assert s3.clips == [Some("clip-1-url"), Some("clip-1-url")];
    assert ForPass(s2, 1, 2, arns, 1, poll) == Ok(s3);
    assert Polling(s0, 0, 2, 2, arns, poll) == Ok(s3);
    assert SuccessfulClips(s3.clips) == ["clip-1-url", "clip-1-url"];
  }
}
