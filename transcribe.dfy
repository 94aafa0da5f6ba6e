/** The first two stages: the transcription submitter
    (src/lambda_functions/transcribe/transcribe.py) and its poller
    (src/lambda_functions/poll_transcribe/poll_transcribe.py). The job object
    store, the clock and the transcription service are parameters. */
module Transcribe {
  import opened Values
  import opened Strs

  /** The source file's name up to its first '.': `uri.split('/')[-1].split('.')[0]`. */
  function Stem(uri: string): string {
    Split(Last(Split(uri, "/")), ".")[0]
  }

  /** The transcription job name: stem, '-', the whole seconds of the clock, "-job". */
  function JobName(uri: string, now: nat): string {
    Stem(uri) + "-" + NatToString(now) + "-job"
  }

  /** The stem has neither '/' nor '.', and is where the last path component
      starts. */
  lemma StemIsPrefixOfName(uri: string)
    ensures var name := Last(Split(uri, "/"));
      && '/' !in Stem(uri) && '.' !in Stem(uri)
      && |Stem(uri)| <= |name| && name[..|Stem(uri)|] == Stem(uri)
  {
    var name := Last(Split(uri, "/"));
    LastPiece(uri, '/');
    var pieces := Split(name, ".");
    SplitPiecesFreeChar(name, '.');
    assert pieces[0] in pieces;
    SplitUnfold(name, ".");
    if SplitOnce(name, ".").Some? {
      var (a, b) := SplitOnce(name, ".").value;
      assert name == a + "." + b;
      assert pieces[0] == a;
    }
    var stem := Stem(uri);
    forall i | 0 <= i < |stem| ensures stem[i] != '/' {
      assert stem[i] == name[i];
    }
  }

  /** A name with several dots keeps only the text before the first one. */
  lemma StemCutsAtFirstDot(dir: string, a: string, rest: string)
    requires '.' !in a && '/' !in a && '/' !in rest
    ensures Stem(dir + "/" + a + "." + rest) == a
  {
    var uri := dir + "/" + a + "." + rest;
    var name := a + "." + rest;
    assert uri == dir + "/" + name;
    assert '/' !in name;
    LastAfterSlash(dir, name);
    assert name == a + ['.'] + rest;
    FirstChar(a, '.', rest);
    SplitUnfold(name, ".");
  }

  /** The last '/'-piece of `dir + "/" + name` is `name` when `name` has no '/'. */
  lemma LastAfterSlash(dir: string, name: string)
    requires '/' !in name
    ensures Last(Split(dir + "/" + name, "/")) == name
  {
    var s := dir + "/" + name;
    var l := Last(Split(s, "/"));
    LastPiece(s, '/');
    assert s[|dir|] == '/';
    assert s[|dir| + 1..] == name;
  }

  /** A file name with several dots: "a.b.mp4" gives the stem "a", cut at the first dot;
      an instance of `StemCutsAtFirstDot`. */
  lemma StemExample()
    ensures Stem("s3://bucket/videos/a.b.mp4") == "a"
  {
    assert "s3://bucket/videos/a.b.mp4" == "s3://bucket/videos" + "/" + "a" + "." + "b.mp4";
    StemCutsAtFirstDot("s3://bucket/videos", "a", "b.mp4");
  }

  /** For one source file, distinct clock readings give distinct job names. */
  lemma JobNameInjective(uri: string, t1: nat, t2: nat)
    requires JobName(uri, t1) == JobName(uri, t2)
    ensures t1 == t2
  {
    var p := Stem(uri) + "-";
    assert JobName(uri, t1) == p + NatToString(t1) + "-job";
    assert JobName(uri, t2) == p + NatToString(t2) + "-job";
    CancelAffixes(p, NatToString(t1), NatToString(t2), "-job");
    NatToStringInjective(t1, t2);
  }

  /** What `start_transcription_job` is asked for. */
  datatype TranscriptionRequest = TranscriptionRequest(
    jobName: string, mediaFileUri: Value, mediaFormat: Value, languageCode: Value)

  /** The job object named by the object-created notification, parsed. */
  function LoadJobConfig(event: Value, getObject: (Value, Value) -> Result<Value>): Result<Value> {
    var detail :- Get(event, "detail");
    var bucket :- Get(detail, "bucket");
    var bucketName :- Get(bucket, "name");
    var obj :- Get(detail, "object");
    var key :- Get(obj, "key");
    getObject(bucketName, key)
  }

  /** The request the submitter sends, built from the job object and the clock. */
  function Request(jobConfig: Value, now: nat): (r: Result<TranscriptionRequest>)
    ensures r.Ok? ==>
      && jobConfig.Obj?
      && "source_file_s3_uri" in jobConfig.fields && "media_format" in jobConfig.fields
      && "transcribe_source_language_code" in jobConfig.fields
      && jobConfig.fields["source_file_s3_uri"].Str?
      && r.value.jobName == JobName(jobConfig.fields["source_file_s3_uri"].s, now)
      && r.value.mediaFileUri == jobConfig.fields["source_file_s3_uri"]
      && r.value.mediaFormat == jobConfig.fields["media_format"]
      && r.value.languageCode == jobConfig.fields["transcribe_source_language_code"]
    ensures r.Raise? <==>
      || !jobConfig.Obj?
      || "source_file_s3_uri" !in jobConfig.fields
      || !jobConfig.fields["source_file_s3_uri"].Str?
      || "media_format" !in jobConfig.fields
      || "transcribe_source_language_code" !in jobConfig.fields
  {
    var uri :- GetSplit(jobConfig, "source_file_s3_uri");
    var name := JobName(uri, now);
    var media := jobConfig.fields["source_file_s3_uri"];
    var format :- Get(jobConfig, "media_format");
    var language :- Get(jobConfig, "transcribe_source_language_code");
    Ok(TranscriptionRequest(name, media, format, language))
  }

  /** The submitter's returned envelope, from the job object and the service's
      answer. */
  function Submitted(jobConfig: Value, response: Value): (r: Result<Value>)
    ensures r.Ok? <==>
      response.Obj? && "TranscriptionJob" in response.fields &&
      Get(response.fields["TranscriptionJob"], "TranscriptionJobName").Ok?
    ensures r.Ok? ==> r.value == Obj(map[
      "statusCode" := Int(200),
      "transcription_job_name" := response.fields["TranscriptionJob"].fields["TranscriptionJobName"],
      "job_config" := jobConfig])
  {
    var job :- Get(response, "TranscriptionJob");
    var name :- Get(job, "TranscriptionJobName");
    Ok(Obj(map["statusCode" := Int(200), "transcription_job_name" := name, "job_config" := jobConfig]))
  }

  /** `lambda_handler` of the submitter: load the job object, build the request,
      start the job and report the name the service gives back. */
  function TranscribeHandler(
    event: Value,
    getObject: (Value, Value) -> Result<Value>,
    now: nat,
    start: TranscriptionRequest -> Result<Value>): Result<Value>
  {
    var jobConfig :- LoadJobConfig(event, getObject);
    var request :- Request(jobConfig, now);
    var response :- start(request);
    Submitted(jobConfig, response)
  }

  /** The submitter returns exactly when the job object loads, the request can be
      built and the service answers; its envelope carries the loaded job object
      and the service's job name, and the service was asked for the job name
      derived from the source URI and the clock. */
  lemma TranscribeHandlerOutcome(
    event: Value,
    getObject: (Value, Value) -> Result<Value>,
    now: nat,
    start: TranscriptionRequest -> Result<Value>)
    requires TranscribeHandler(event, getObject, now, start).Ok?
    ensures var jobConfig := LoadJobConfig(event, getObject).value;
      && Request(jobConfig, now).Ok?
      && Request(jobConfig, now).value.jobName == JobName(jobConfig.fields["source_file_s3_uri"].s, now)
      && start(Request(jobConfig, now).value).Ok?
      && TranscribeHandler(event, getObject, now, start).value
         == Submitted(jobConfig, start(Request(jobConfig, now).value).value).value
      && TranscribeHandler(event, getObject, now, start).value.fields["job_config"] == jobConfig
      && TranscribeHandler(event, getObject, now, start).value.fields["statusCode"] == Int(200)
  {
  }

  /** The parsed transcript file of a finished transcription job: the job's
      `TranscriptFileUri`, fetched and decoded. */
  function TranscriptFile(
    name: Value, getJob: Value -> Result<Value>, fetch: Value -> Result<Value>): Result<Value>
  {
    var response :- getJob(name);
    var job :- Get(response, "TranscriptionJob");
    var file :- Get(job, "Transcript");
    var uri :- Get(file, "TranscriptFileUri");
    fetch(uri)
  }

  /** `response['TranscriptionJob']['TranscriptionJobStatus']`. */
  function StatusOf(response: Result<Value>): Result<Value> {
    var r :- response;
    var job :- Get(r, "TranscriptionJob");
    Get(job, "TranscriptionJobStatus")
  }

  /** `lambda_handler` of the poller: echo the job name and the job object and
      report the service's status verbatim. */
  function PollTranscribeHandler(event: Value, getJob: Value -> Result<Value>): (r: Result<Value>)
    ensures r.Ok? <==>
      && event.Obj? && "job_config" in event.fields && "transcription_job_name" in event.fields
      && StatusOf(getJob(event.fields["transcription_job_name"])).Ok?
    ensures r.Ok? ==>
      && r.value.Obj?
      && r.value.fields.Keys == {"statusCode", "transcription_job_name", "job_status", "job_config"}
      && r.value.fields["statusCode"] == Int(200)
      && r.value.fields["transcription_job_name"] == event.fields["transcription_job_name"]
      && r.value.fields["job_config"] == event.fields["job_config"]
      && r.value.fields["job_status"] == StatusOf(getJob(event.fields["transcription_job_name"])).value
  {
    var jobConfig :- Get(event, "job_config");
    var name :- Get(event, "transcription_job_name");
    var status :- StatusOf(getJob(name));
    Ok(Obj(map[
      "statusCode" := Int(200),
      "transcription_job_name" := name,
      "job_status" := status,
      "job_config" := jobConfig]))
  }
}
