/** `poll_bedrock_job`: one status query of an asynchronous Bedrock
    text-to-video invocation, mapped onto the backend's own three outcomes. */
module Bedrock {
  import opened Common

  /** The backend's own vocabulary for a polled clip. */
  datatype PollStatus = Completed | Failed | InProgress

  datatype PollResult = PollResult(status: PollStatus, videoUrl: Option<string>, message: string)

  /** What `get_async_invoke` did: raised an exception with the given text, or
      returned a response whose string fields are given. */
  datatype InvokeQuery = QueryRaised(error: string) | QueryReturned(response: map<string, string>)

  /** `s.split(sep)` in Python: the pieces between separators, at least one. */
  function Split(s: string, sep: char): (parts: seq<string>)
    ensures |parts| >= 1
    ensures forall p :: p in parts ==> sep !in p
    ensures |parts| == 1 <==> sep !in s
    ensures sep !in s ==> parts == [s]
    decreases |s|
  {
    if s == [] then [""]
    else
      var init := Split(s[..|s| - 1], sep);
      var c := s[|s| - 1];
      assert s == s[..|s| - 1] + [c];
      if c == sep then init + [""]
      else init[..|init| - 1] + [init[|init| - 1] + [c]]
  }

  /** `sep.join(parts)`, the inverse of Split. */
  function Join(parts: seq<string>, sep: char): string
    requires |parts| >= 1
    decreases |parts|
  {
    if |parts| == 1 then parts[0]
    else Join(parts[..|parts| - 1], sep) + [sep] + parts[|parts| - 1]
  }

  /** Splitting loses nothing: joining the pieces gives back the string. */
  lemma {:induction false} JoinSplit(s: string, sep: char)
    ensures Join(Split(s, sep), sep) == s
    decreases |s|
  {
    if s != [] {
      var t, c := s[..|s| - 1], s[|s| - 1];
      assert s == t + [c];
      JoinSplit(t, sep);
      SplitSnoc(t, c, sep);
      JoinSnoc(Split(t, sep), c, sep);
    }
  }

  /** Splitting one more character: a separator opens a new empty piece, any
      other character extends the last piece. */
  lemma SplitSnoc(t: string, c: char, sep: char)
    ensures var init := Split(t, sep);
      Split(t + [c], sep) ==
        if c == sep then init + [""] else init[..|init| - 1] + [init[|init| - 1] + [c]]
  {
    assert (t + [c])[..|t + [c]| - 1] == t;
  }

  /** The joined string grows by the character that SplitSnoc adds. */
  lemma JoinSnoc(init: seq<string>, c: char, sep: char)
    requires |init| >= 1
    ensures Join(init + [""], sep) == Join(init, sep) + [sep]
    ensures Join(init[..|init| - 1] + [init[|init| - 1] + [c]], sep) == Join(init, sep) + [c]
  {
    var k := |init|;
    assert (init + [""])[..k] == init;
    if k > 1 {
      var parts := init[..k - 1] + [init[k - 1] + [c]];
      assert parts[..k - 1] == init[..k - 1];
    }
  }

  /** The invocation id: `invocation_arn.split('/')[-1]`. */
  function InvocationId(arn: string): (id: string)
    ensures '/' !in id
    ensures '/' !in arn ==> id == arn
  {
    var parts := Split(arn, '/');
    parts[|parts| - 1]
  }

  /** The id is the text after the last '/' of the ARN. */
  lemma {:induction false} InvocationIdAfterLastSlash(prefix: string, id: string)
    requires '/' !in id
    ensures InvocationId(prefix + "/" + id) == id
    decreases |id|
  {
    var arn := prefix + "/" + id;
    if id == [] {
      assert arn[..|arn| - 1] == prefix;
    } else {
      var shorter := id[..|id| - 1];
      assert arn[..|arn| - 1] == prefix + "/" + shorter;
      InvocationIdAfterLastSlash(prefix, shorter);
      assert id == shorter + [id[|id| - 1]];
    }
  }

  /** The S3 object a completed invocation writes its video to. */
  function S3Key(arn: string): (key: string)
    ensures |key| == |InvocationId(arn)| + 16
    ensures key[..5] == "jobs/" && key[|key| - 11..] == "/output.mp4"
    ensures key[5..|key| - 11] == InvocationId(arn) && '/' !in key[5..|key| - 11]
  {
    "jobs/" + InvocationId(arn) + "/output.mp4"
  }

  /** For an ARN ending in "/<id>", the key is "jobs/<id>/output.mp4". */
  lemma S3KeyOfArn(prefix: string, id: string)
    requires '/' !in id
    ensures S3Key(prefix + "/" + id) == "jobs/" + id + "/output.mp4"
  {
    InvocationIdAfterLastSlash(prefix, id);
  }

  /** The status a response reports, "Unknown" when it has none. */
  function RemoteStatus(response: map<string, string>): string {
    GetOr(response, "status", "Unknown")
  }

  /** `poll_bedrock_job`. `clientReady` says whether the Bedrock client exists,
      `query` is what the status call did and `presign` what signing an S3 key
      yields (a URL, or the text of the exception it raised). No exception
      escapes: every failure becomes a FAILED result. */
  function PollBedrockJob(clientReady: bool, arn: string, query: InvokeQuery,
                          presign: string -> Result<string, string>): (r: PollResult)
    ensures r.status != Completed ==> r.videoUrl == None
    ensures r.status == Completed <==>
      && clientReady && query.QueryReturned?
      && RemoteStatus(query.response) == "Completed"
      && presign(S3Key(arn)).Success?
    ensures r.status == Completed ==> r.videoUrl == Some(presign(S3Key(arn)).value)
    ensures r.status == InProgress <==>
      && clientReady && query.QueryReturned?
      && RemoteStatus(query.response) != "Completed" && RemoteStatus(query.response) != "Failed"
    ensures r.status == InProgress ==> r.message == "Job status: " + RemoteStatus(query.response)
    ensures clientReady && query.QueryReturned? && RemoteStatus(query.response) == "Completed"
            && presign(S3Key(arn)).Failure? ==>
      r == PollResult(Failed, None, "Polling error: " + presign(S3Key(arn)).error)
    ensures clientReady && query.QueryReturned? && RemoteStatus(query.response) == "Failed" ==>
      r == PollResult(Failed, None, GetOr(query.response, "failureMessage", "Unknown failure."))
    ensures !clientReady ==> r == PollResult(Failed, None, "Bedrock client not initialized.")
    ensures clientReady && query.QueryRaised? ==> r == PollResult(Failed, None, "Polling error: " + query.error)
  {
    if !clientReady then
      PollResult(Failed, None, "Bedrock client not initialized.")
    else
      match query
      case QueryRaised(e) => PollResult(Failed, None, "Polling error: " + e)
      case QueryReturned(response) =>
        var status := RemoteStatus(response);
        if status == "Completed" then
          match presign(S3Key(arn))
          case Success(url) => PollResult(Completed, Some(url), "Video generated and URL pre-signed.")
          case Failure(e) => PollResult(Failed, None, "Polling error: " + e)
        else if status == "Failed" then
          PollResult(Failed, None, GetOr(response, "failureMessage", "Unknown failure."))
        else
          PollResult(InProgress, None, "Job status: " + status)
  }
}
