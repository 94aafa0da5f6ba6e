/** The lip-sync submitter (src/lambda_functions/invoke_retalking/invoke_retalking.py):
    download the spoken segments in job order and concatenate them, stretch the
    result to the source video's length, upload it, then store the lip-sync job
    record and start the asynchronous endpoint on it.

    Downloading and decoding a segment or the source video, and the tempo filter,
    are parameters; the object store and endpoint calls are recorded as actions. */
module InvokeRetalking {
  import opened Values
  import opened Strs
  import opened S3Uri
  import opened Transcribe

  /** The combined audio and the `bucket` variable after the segment loop, which
      rebinds it to each segment's bucket in turn. */
  datatype Combined = Combined(bucket: Value, audio: Audio)

  /** The segment loop over a prefix of the jobs: each job's parsed location and
      downloaded audio, in list order, or the first exception. */
  function Segments(jobs: seq<Value>, loadWav: (string, string) -> Result<Audio>):
    (r: Result<seq<((string, string), Audio)>>)
    ensures r.Ok? ==> |r.value| == |jobs|
    decreases |jobs|
  {
    if jobs == [] then Ok([])
    else
      match Segments(jobs[..|jobs| - 1], loadWav)
      case Raise(e) => Raise(e)
      case Ok(done) =>
        match ParseField(jobs[|jobs| - 1], "destination_s3_uri")
        case Raise(e) => Raise(e)
        case Ok(location) =>
          match loadWav(location.0, location.1)
          case Raise(e) => Raise(e)
          case Ok(segment) => Ok(done + [(location, segment)])
  }

  /** Segment `i` holds job `i`'s parsed destination and the audio downloaded
      from it. */
  lemma {:induction false} SegmentAt(jobs: seq<Value>, loadWav: (string, string) -> Result<Audio>, i: nat)
    requires Segments(jobs, loadWav).Ok? && i < |jobs|
    ensures var segment := Segments(jobs, loadWav).value[i];
      ParseField(jobs[i], "destination_s3_uri") == Ok(segment.0) &&
      loadWav(segment.0.0, segment.0.1) == Ok(segment.1)
    decreases |jobs|
  {
    var init := jobs[..|jobs| - 1];
    var done := Segments(init, loadWav).value;
    if i < |jobs| - 1 {
      SegmentAt(init, loadWav, i);
      assert init[i] == jobs[i];
      SnocIndex(done, Segments(jobs, loadWav).value[|jobs| - 1]);
    }
  }

  /** The audio of the segments, one after another. */
  function Flatten(segments: seq<((string, string), Audio)>): Audio
    decreases |segments|
  {
    if segments == [] then [] else Flatten(segments[..|segments| - 1]) + segments[|segments| - 1].1
  }

  lemma FlattenSnoc(segments: seq<((string, string), Audio)>, s: ((string, string), Audio))
    ensures Flatten(segments + [s]) == Flatten(segments) + s.1
  {
    assert (segments + [s])[..|segments|] == segments;
  }

  function TotalLength(segments: seq<((string, string), Audio)>): nat
    decreases |segments|
  {
    if segments == [] then 0 else TotalLength(segments[..|segments| - 1]) + |segments[|segments| - 1].1|
  }

  /** The combined audio is as long as the segments' lengths added up. */
  lemma {:induction false} FlattenLength(segments: seq<((string, string), Audio)>)
    ensures |Flatten(segments)| == TotalLength(segments)
    decreases |segments|
  {
    if segments != [] {
      FlattenLength(segments[..|segments| - 1]);
    }
  }

  /** Each segment's audio sits in the combined audio right after the ones
      before it. */
  lemma {:induction false} FlattenAt(segments: seq<((string, string), Audio)>, i: nat)
    requires i < |segments|
    ensures var before := TotalLength(segments[..i]);
      before + |segments[i].1| <= |Flatten(segments)| &&
      Flatten(segments)[before..before + |segments[i].1|] == segments[i].1
    decreases |segments|
  {
    var n := |segments| - 1;
    var init := segments[..n];
    FlattenLength(segments);
    if i < n {
      FlattenAt(init, i);
      assert init[..i] == segments[..i] && init[i] == segments[i];
    } else {
      assert init == segments[..i];
      FlattenLength(init);
    }
  }

  /** `bucket` after the loop: the last segment's bucket, or the job object's
      when there are no segments. */
  function LastBucket(segments: seq<((string, string), Audio)>, bucket: Value): Value {
    if segments == [] then bucket else Str(segments[|segments| - 1].0.0)
  }

  /** The combined audio and the `bucket` variable after the segment loop. */
  function Concatenate(jobs: seq<Value>, bucket: Value, loadWav: (string, string) -> Result<Audio>):
    Result<Combined>
  {
    var segments :- Segments(jobs, loadWav);
    Ok(Combined(LastBucket(segments, bucket), Flatten(segments)))
  }

  /** `dubbed_duration / src_duration`. */
  function Tempo(dubbed: nat, source: nat): (r: Result<real>)
    ensures r.Raise? <==> source == 0
    ensures r.Ok? ==> r.value * source as real == dubbed as real
  {
    if source == 0 then Raise(ZeroDivisionError) else Ok(dubbed as real / source as real)
  }

  /** An instance of `Tempo`: 12 s of dubbed speech over a 10 s video is played 1.2 times
      as fast. */
  lemma TempoExample()
    ensures Tempo(12000, 10000) == Ok(1.2)
  {
  }

  /** Where the job's files go. */
  function CombinedName(tmpdir: string, jobName: string): string {
    Last(Split(PathJoin(tmpdir, jobName + "-dubbed-tempo.wav"), "/"))
  }

  function CombinedKey(prefixInputs: string, jobName: string, tmpdir: string): string {
    prefixInputs + "/" + jobName + "/tts_combined/" + CombinedName(tmpdir, jobName)
  }

  function JobKey(prefixInputs: string, jobName: string): string {
    prefixInputs + "/" + jobName + "/retalking_jobs/" + jobName + ".json"
  }

  /** The last component of a path joined onto a directory is the joined name,
      whatever the directory. */
  lemma LastOfPathJoin(dir: string, name: string)
    requires '/' !in name
    ensures Last(Split(PathJoin(dir, name), "/")) == name
  {
    if name != [] {
      assert name[0] != '/';
    }
    assert !StartsWith(name, "/");
    if dir == "" {
      NoCharNoSplit(name, '/');
    } else if dir[|dir| - 1] == '/' {
      assert dir + name == dir[..|dir| - 1] + "/" + name;
      LastAfterSlash(dir[..|dir| - 1], name);
    } else {
      LastAfterSlash(dir, name);
    }
  }

  /** For a job name without '/', the combined audio's key is
      `prefix_inputs/job_name/tts_combined/job_name-dubbed-tempo.wav`. */
  lemma CombinedKeyIs(prefixInputs: string, jobName: string, tmpdir: string)
    requires '/' !in jobName
    ensures CombinedKey(prefixInputs, jobName, tmpdir) ==
      prefixInputs + "/" + jobName + "/tts_combined/" + jobName + "-dubbed-tempo.wav"
  {
    LastOfPathJoin(tmpdir, jobName + "-dubbed-tempo.wav");
  }

  /** What the handler does to the outside world. */
  datatype Action =
    | UploadAudio(bucket: string, key: string, audio: Audio)
    | PutJob(bucket: string, key: string, body: Value)
    | Invoke(endpoint: Value, inputLocation: string, contentType: string, timeoutSeconds: nat)

  /** The lip-sync job record. */
  function RetalkingJob(inputUri: string, sourceUri: Value, audioUri: string, outputUri: Value): Value {
    Obj(map[
      "input_s3_uri" := Str(inputUri),
      "input_video_s3_uri" := sourceUri,
      "input_audio_s3_uri" := Str(audioUri),
      "output_video_s3_uri" := outputUri,
      "inference_params" := Obj(map[])])
  }

  /** After the segment loop: stretch, upload, store the record, start the
      endpoint and reply. */
  function Submit(
    jobConfig: Value, jobName: string, prefixInputs: Value, combined: Combined, source: Audio,
    tmpdir: string, retime: (Audio, real) -> Audio): Result<(Value, seq<Action>)>
  {
    var tempo :- Tempo(|combined.audio|, |source|);
    var prefix :- if prefixInputs.Str? then Ok(prefixInputs.s) else Raise(TypeError);
    var bucket :- if combined.bucket.Str? then Ok(combined.bucket.s) else Raise(TypeError);
    var key := CombinedKey(prefix, jobName, tmpdir);
    var audioUri := "s3://" + bucket + "/" + key;
    var upload := UploadAudio(bucket, key, retime(combined.audio, tempo));
    var jobKey := JobKey(prefix, jobName);
    var jobUri := "s3://" + bucket + "/" + jobKey;
    var sourceUri :- Get(jobConfig, "source_file_s3_uri");
    var outputUri :- Get(jobConfig, "destination_s3_uri");
    var job := RetalkingJob(jobUri, sourceUri, audioUri, outputUri);
    var endpoint :- Get(jobConfig, "retalking_endpoint_name");
    Ok((Obj(map["statusCode" := Int(200), "retalking_job" := job, "job_config" := jobConfig]),
        [upload, PutJob(bucket, jobKey, job), Invoke(endpoint, jobUri, "application/json", 3600)]))
  }

  /** What the handler returns or raises, with what it does. */
  function InvokeRetalkingSpec(
    event: Value, tmpdir: string,
    loadWav: (string, string) -> Result<Audio>, loadSource: (string, string) -> Result<Audio>,
    retime: (Audio, real) -> Audio): Result<(Value, seq<Action>)>
  {
    var jobsValue :- Get(event, "tts_jobs");
    var jobConfig :- Get(event, "job_config");
    var jobNameValue :- Get(jobConfig, "job_name");
    var bucket :- Get(jobConfig, "bucket");
    var prefixInputs :- Get(jobConfig, "prefix_inputs");
    var jobName :- if jobNameValue.Str? then Ok(jobNameValue.s) else Raise(TypeError);
    var (srcBucket, srcKey) :- ParseField(jobConfig, "source_file_s3_uri");
    var jobs :- Elements(jobsValue);
    var combined :- Concatenate(jobs, bucket, loadWav);
    var source :- loadSource(srcBucket, srcKey);
    Submit(jobConfig, jobName, prefixInputs, combined, source, tmpdir, retime)
  }

  /** Once a prefix of the jobs raises, the whole loop raises the same. */
  lemma {:induction false} SegmentsPrefixFailure(jobs: seq<Value>, k: nat, loadWav: (string, string) -> Result<Audio>)
    requires k <= |jobs| && Segments(jobs[..k], loadWav).Raise?
    ensures Segments(jobs, loadWav) == Segments(jobs[..k], loadWav)
    decreases |jobs| - k
  {
    if k < |jobs| {
      var init := jobs[..|jobs| - 1];
      assert init[..k] == jobs[..k];
      SegmentsPrefixFailure(init, k, loadWav);
    } else {
      assert jobs[..k] == jobs;
    }
  }

  /** The segment loop: `bucket, key = parse_s3_uri(...)` rebinds `bucket`, and
      `final_output_audio += ...` appends. */
  method ConcatenateSegments(jobs: seq<Value>, initialBucket: Value, loadWav: (string, string) -> Result<Audio>)
    returns (r: Result<Combined>)
    ensures r == Concatenate(jobs, initialBucket, loadWav)
  {
    var bucket := initialBucket;
    var audio: Audio := [];
    ghost var segments: seq<((string, string), Audio)> := [];
    var k := 0;
    while k < |jobs|
      invariant 0 <= k <= |jobs|
      invariant Segments(jobs[..k], loadWav) == Ok(segments)
      invariant bucket == LastBucket(segments, initialBucket) && audio == Flatten(segments)
    {
      var job := jobs[k];
      assert jobs[..k + 1][..k] == jobs[..k] && jobs[..k + 1][k] == job;
      if Segments(jobs[..k + 1], loadWav).Raise? {
        SegmentsPrefixFailure(jobs, k + 1, loadWav);
      }
      var location :- ParseField(job, "destination_s3_uri");
      var key;
      bucket, key := Str(location.0), location.1;
      var segment :- loadWav(location.0, key);
      assert Segments(jobs[..k + 1], loadWav) == Ok(segments + [(location, segment)]);
      FlattenSnoc(segments, (location, segment));
      assert LastBucket(segments + [(location, segment)], initialBucket) == Str(location.0);
      audio := audio + segment;
      segments := segments + [(location, segment)];
      k := k + 1;
    }
    assert jobs[..k] == jobs;
    return Ok(Combined(bucket, audio));
  }

  /** `lambda_handler`. */
  method InvokeRetalkingHandler(
    event: Value, tmpdir: string,
    loadWav: (string, string) -> Result<Audio>, loadSource: (string, string) -> Result<Audio>,
    retime: (Audio, real) -> Audio) returns (r: Result<(Value, seq<Action>)>)
    ensures r == InvokeRetalkingSpec(event, tmpdir, loadWav, loadSource, retime)
  {
    var jobsValue :- Get(event, "tts_jobs");
    var jobConfig :- Get(event, "job_config");
    var jobNameValue :- Get(jobConfig, "job_name");
    var bucket :- Get(jobConfig, "bucket");
    var prefixInputs :- Get(jobConfig, "prefix_inputs");
    var jobName :- if jobNameValue.Str? then Ok(jobNameValue.s) else Raise(TypeError);
    var source :- ParseField(jobConfig, "source_file_s3_uri");
    var jobs :- Elements(jobsValue);
    var combined :- ConcatenateSegments(jobs, bucket, loadWav);
    var sourceAudio :- loadSource(source.0, source.1);
    r := Submit(jobConfig, jobName, prefixInputs, combined, sourceAudio, tmpdir, retime);
  }

  /** After the loop: the reply carries the record and the unchanged job object;
      the stretched combined audio is uploaded under the combined key of the
      loop's bucket; the record points at the source video, that upload and the
      job object's destination, and is stored under the `retalking_jobs` key that
      the endpoint is then started on. A source with no audio raises. */
  lemma SubmitOutcome(
    jobConfig: Value, jobName: string, prefixInputs: Value, combined: Combined, source: Audio,
    tmpdir: string, retime: (Audio, real) -> Audio)
    requires Submit(jobConfig, jobName, prefixInputs, combined, source, tmpdir, retime).Ok?
    ensures var (out, actions) := Submit(jobConfig, jobName, prefixInputs, combined, source, tmpdir, retime).value;
      var bucket := combined.bucket.s;
      var prefix := prefixInputs.s;
      var audioKey := CombinedKey(prefix, jobName, tmpdir);
      var jobKey := prefix + "/" + jobName + "/retalking_jobs/" + jobName + ".json";
      var job := RetalkingJob("s3://" + bucket + "/" + jobKey, jobConfig.fields["source_file_s3_uri"],
                              "s3://" + bucket + "/" + audioKey, jobConfig.fields["destination_s3_uri"]);
      && |source| > 0
      && out == Obj(map["statusCode" := Int(200), "retalking_job" := job, "job_config" := jobConfig])
      && actions == [
           UploadAudio(bucket, audioKey, retime(combined.audio, |combined.audio| as real / |source| as real)),
           PutJob(bucket, jobKey, job),
           Invoke(jobConfig.fields["retalking_endpoint_name"], "s3://" + bucket + "/" + jobKey, "application/json", 3600)]
  {
  }

  /** A source video with no audio stops the handler with a division by zero. */
  lemma SilentSourceRaises(
    jobConfig: Value, jobName: string, prefixInputs: Value, combined: Combined,
    tmpdir: string, retime: (Audio, real) -> Audio)
    ensures Submit(jobConfig, jobName, prefixInputs, combined, [], tmpdir, retime) == Raise(ZeroDivisionError)
  {
  }

  /** The handler hands the loop's result to the rest: the combined audio is the
      segments in list order, as long as their lengths added up, and the bucket
      is the last segment's, or the job object's when there are no segments. */
  lemma InvokeRetalkingOutcome(
    event: Value, tmpdir: string,
    loadWav: (string, string) -> Result<Audio>, loadSource: (string, string) -> Result<Audio>,
    retime: (Audio, real) -> Audio)
    requires InvokeRetalkingSpec(event, tmpdir, loadWav, loadSource, retime).Ok?
    ensures var c := event.fields["job_config"];
      var jobs := Elements(event.fields["tts_jobs"]).value;
      var segments := Segments(jobs, loadWav).value;
      var combined := Concatenate(jobs, c.fields["bucket"], loadWav).value;
      var location := ParseField(c, "source_file_s3_uri").value;
      && |segments| == |jobs|
      && combined.audio == Flatten(segments) && |combined.audio| == TotalLength(segments)
      && combined.bucket == (if jobs == [] then c.fields["bucket"] else Str(segments[|jobs| - 1].0.0))
      && InvokeRetalkingSpec(event, tmpdir, loadWav, loadSource, retime) ==
         Submit(c, c.fields["job_name"].s, c.fields["prefix_inputs"], combined,
                loadSource(location.0, location.1).value, tmpdir, retime)
  {
    var c := event.fields["job_config"];
    var jobs := Elements(event.fields["tts_jobs"]).value;
    FlattenLength(Segments(jobs, loadWav).value);
  }
}
