/** The text-to-speech submitter (src/lambda_functions/invoke_tts/invoke_tts.py):
    merge the two Parallel branch outputs, build one job per translated segment
    with index-derived object URIs, then store each job and start the
    asynchronous endpoint on it, in index order. The object store and the
    endpoint are recorded as the actions the handler performs. */
module InvokeTts {
  import opened Values
  import opened Strs
  import opened S3Uri

  /** `translated_segments` and `voice_samples_s3_uri` after the merge loop;
      `None` is a variable the loop never bound. */
  datatype Gathered = Gathered(segments: Option<Value>, samplesUri: Option<Value>)

  /** A message the merge loop raises on: no `source_task`, or a branch tag
      without that branch's field. */
  predicate Malformed(m: Value) {
    || Get(m, "source_task").Raise?
    || (Get(m, "source_task") == Ok(Str("translate")) && Get(m, "translated_segments").Raise?)
    || (Get(m, "source_task") == Ok(Str("voice_samples")) && Get(m, "voice_samples_uri").Raise?)
  }

  /** One pass of the merge loop's body. */
  function Absorb(g: Gathered, m: Value): (r: Result<Gathered>)
    ensures r.Raise? <==> Malformed(m)
  {
    var task :- Get(m, "source_task");
    var g1 :- if task == Str("translate") then
        var s :- Get(m, "translated_segments"); Ok(g.(segments := Some(s)))
      else Ok(g);
    if task == Str("voice_samples") then
      var u :- Get(m, "voice_samples_uri"); Ok(g1.(samplesUri := Some(u)))
    else Ok(g1)
  }

  /** The merge loop over a prefix of the messages. */
  function Gather(ms: seq<Value>): (r: Result<Gathered>)
    ensures r.Raise? <==> exists m :: m in ms && Malformed(m)
    decreases |ms|
  {
    if ms == [] then Ok(Gathered(None, None))
    else
      var init := ms[..|ms| - 1];
      assert forall m :: m in ms <==> m in init || m == ms[|ms| - 1];
      var g :- Gather(init);
      Absorb(g, ms[|ms| - 1])
  }

  /** `field` of the last message tagged `tag`, searching from the right. */
  function LastTagged(ms: seq<Value>, tag: string, field: string): Option<Value>
    decreases |ms|
  {
    if ms == [] then None
    else
      var m := ms[|ms| - 1];
      if Get(m, "source_task") == Ok(Str(tag)) && Get(m, field).Ok? then Some(Get(m, field).value)
      else LastTagged(ms[..|ms| - 1], tag, field)
  }

  /** Each variable is bound to the field of the last message with its tag,
      wherever that message sits in the list. */
  lemma {:induction false} GatherPicksLastTagged(ms: seq<Value>)
    requires Gather(ms).Ok?
    ensures Gather(ms).value == Gathered(
      LastTagged(ms, "translate", "translated_segments"),
      LastTagged(ms, "voice_samples", "voice_samples_uri"))
    decreases |ms|
  {
    if ms != [] {
      GatherPicksLastTagged(ms[..|ms| - 1]);
    }
  }

  /** The two branch outputs are merged the same way in either order. */
  lemma GatherEitherOrder(t: Value, v: Value)
    requires Get(t, "source_task") == Ok(Str("translate")) && Get(t, "translated_segments").Ok?
    requires Get(v, "source_task") == Ok(Str("voice_samples")) && Get(v, "voice_samples_uri").Ok?
    ensures Gather([t, v]) == Gather([v, t]) ==
      Ok(Gathered(Some(Get(t, "translated_segments").value), Some(Get(v, "voice_samples_uri").value)))
  {
    assert [t, v][..1] == [t] && [v, t][..1] == [v];
    assert [t][..0] == [] && [v][..0] == [];
  }

  /** Once a prefix of the messages raises, the whole loop raises the same. */
  lemma {:induction false} GatherPrefixFailure(ms: seq<Value>, k: nat)
    requires k <= |ms| && Gather(ms[..k]).Raise?
    ensures Gather(ms) == Gather(ms[..k])
    decreases |ms| - k
  {
    if k < |ms| {
      var init := ms[..|ms| - 1];
      assert init[..k] == ms[..k];
      GatherPrefixFailure(init, k);
    } else {
      assert ms[..k] == ms;
    }
  }

  /** The job object's names that the URIs are formatted from. */
  datatype Names = Names(bucket: string, prefixInputs: string, prefixOutputs: string, jobName: string)

  /** The f-strings need text; a value of another kind is refused. */
  function NamesOf(bucket: Value, prefixInputs: Value, prefixOutputs: Value, jobName: Value): (r: Result<Names>)
    ensures r.Ok? <==> bucket.Str? && prefixInputs.Str? && prefixOutputs.Str? && jobName.Str?
    ensures r.Ok? ==> r.value == Names(bucket.s, prefixInputs.s, prefixOutputs.s, jobName.s)
  {
    if bucket.Str? && prefixInputs.Str? && prefixOutputs.Str? && jobName.Str? then
      Ok(Names(bucket.s, prefixInputs.s, prefixOutputs.s, jobName.s))
    else Raise(TypeError)
  }

  /** The part of the input URI after the bucket. */
  function InputKey(n: Names, i: nat): string {
    n.prefixInputs + "/" + n.jobName + "/tts_jobs/" + n.jobName + "-part-" + NatToString(i) + ".json"
  }

  function InputUri(n: Names, i: nat): string { "s3://" + n.bucket + "/" + InputKey(n, i) }

  function DestinationUri(n: Names, i: nat): string {
    "s3://" + n.bucket + "/" + n.prefixOutputs + "/" + n.jobName + "/tts/" + NatToString(i) + ".wav"
  }

  /** Distinct indices give distinct input URIs. */
  lemma InputUriInjective(n: Names, i: nat, j: nat)
    requires InputUri(n, i) == InputUri(n, j)
    ensures i == j
  {
    var p := "s3://" + n.bucket + "/" + n.prefixInputs + "/" + n.jobName + "/tts_jobs/" + n.jobName + "-part-";
    assert InputUri(n, i) == p + NatToString(i) + ".json";
    assert InputUri(n, j) == p + NatToString(j) + ".json";
    CancelAffixes(p, NatToString(i), NatToString(j), ".json");
    NatToStringInjective(i, j);
  }

  /** Distinct indices give distinct destination URIs. */
  lemma DestinationUriInjective(n: Names, i: nat, j: nat)
    requires DestinationUri(n, i) == DestinationUri(n, j)
    ensures i == j
  {
    var p := "s3://" + n.bucket + "/" + n.prefixOutputs + "/" + n.jobName + "/tts/";
    assert DestinationUri(n, i) == p + NatToString(i) + ".wav";
    assert DestinationUri(n, j) == p + NatToString(j) + ".wav";
    CancelAffixes(p, NatToString(i), NatToString(j), ".wav");
    NatToStringInjective(i, j);
  }

  /** The upload key taken from an input URI is the part after the bucket, when
      the bucket name has no '/'. */
  lemma InputKeyFromUri(n: Names, i: nat)
    requires '/' !in n.bucket
    ensures KeyAfterThirdSlash(InputUri(n, i)) == InputKey(n, i)
  {
    ParseS3UriRoundTrip(n.bucket, InputKey(n, i));
    KeyAfterThirdSlashAgrees(InputUri(n, i));
  }

  /** The i-th job record. */
  function TtsJob(i: nat, text: Value, samplesUri: Value, modelId: Value, n: Names): Value {
    Obj(map[
      "id" := Int(i),
      "text" := text,
      "voice_samples_s3_uri" := samplesUri,
      "input_s3_uri" := Str(InputUri(n, i)),
      "destination_s3_uri" := Str(DestinationUri(n, i)),
      "model_id" := modelId,
      "inference_params" := Obj(map[])])
  }

  /** The job loop over a prefix of the segments. Each pass reads the voice-sample
      variable and formats the names, so with no segments neither can raise. */
  function Jobs(segments: seq<Value>, samplesUri: Option<Value>, modelId: Value, names: Result<Names>):
    (r: Result<seq<Value>>)
    ensures r.Ok? ==> |r.value| == |segments|
    ensures r.Ok? ==> forall i :: 0 <= i < |segments| ==>
      samplesUri.Some? && names.Ok? &&
      r.value[i] == TtsJob(i, segments[i], samplesUri.value, modelId, names.value)
    ensures r.Raise? <==> segments != [] && (samplesUri.None? || names.Raise?)
    ensures r.Raise? ==> r.error == if samplesUri.None? then NameError("voice_samples_s3_uri") else names.error
    decreases |segments|
  {
    if segments == [] then Ok([])
    else
      var i := |segments| - 1;
      var done :- Jobs(segments[..i], samplesUri, modelId, names);
      var u :- if samplesUri.Some? then Ok(samplesUri.value) else Raise(NameError("voice_samples_s3_uri"));
      var n :- names;
      Ok(done + [TtsJob(i, segments[i], u, modelId, n)])
  }

  /** What the submit loop does to the outside world. */
  datatype Action =
    | Put(bucket: Value, key: string, body: Value)
    | Invoke(endpoint: Value, contentType: string, inputLocation: string, timeoutSeconds: nat)

  predicate HasInputUri(job: Value) {
    job.Obj? && "input_s3_uri" in job.fields && job.fields["input_s3_uri"].Str?
  }

  /** The submit loop over a prefix of the jobs: store the job under the key after
      its URI's third '/', then start the endpoint on that URI. */
  function Submissions(jobs: seq<Value>, bucket: Value, endpoint: Value): (r: seq<Action>)
    requires forall j :: 0 <= j < |jobs| ==> HasInputUri(jobs[j])
    ensures |r| == 2 * |jobs|
    decreases |jobs|
  {
    if jobs == [] then []
    else
      var job := jobs[|jobs| - 1];
      assert HasInputUri(job);
      var uri := job.fields["input_s3_uri"].s;
      Submissions(jobs[..|jobs| - 1], bucket, endpoint)
        + [Put(bucket, KeyAfterThirdSlash(uri), job), Invoke(endpoint, "application/json", uri, 3600)]
  }

  /** The jobs are submitted in index order: action 2i stores job i and action
      2i+1 starts the endpoint on it. */
  lemma {:induction false} SubmissionsInOrder(jobs: seq<Value>, bucket: Value, endpoint: Value, i: nat)
    requires forall j :: 0 <= j < |jobs| ==> HasInputUri(jobs[j])
    requires i < |jobs|
    ensures HasInputUri(jobs[i])
    ensures var uri := jobs[i].fields["input_s3_uri"].s;
      && Submissions(jobs, bucket, endpoint)[2 * i] == Put(bucket, KeyAfterThirdSlash(uri), jobs[i])
      && Submissions(jobs, bucket, endpoint)[2 * i + 1] == Invoke(endpoint, "application/json", uri, 3600)
    decreases |jobs|
  {
    var n := |jobs| - 1;
    if i < n {
      SubmissionsInOrder(jobs[..n], bucket, endpoint, i);
    }
  }

  function Envelope(jobs: seq<Value>, jobConfig: Value): Value {
    Obj(map["statusCode" := Int(200), "tts_jobs" := List(jobs), "job_config" := jobConfig])
  }

  /** What the handler returns or raises, with what it submits. */
  function InvokeTtsSpec(event: Value): Result<(Value, seq<Action>)> {
    var messages :- Elements(event);
    var g :- Gather(messages);
    var first :- At(event, 0);
    var jobConfig :- Get(first, "job_config");
    var bucket :- Get(jobConfig, "bucket");
    var prefixInputs :- Get(jobConfig, "prefix_inputs");
    var prefixOutputs :- Get(jobConfig, "prefix_outputs");
    var jobName :- Get(jobConfig, "job_name");
    var modelId :- Get(jobConfig, "tts_model_id");
    var endpoint :- Get(jobConfig, "tts_endpoint_name");
    var segmentsValue :- if g.segments.Some? then Ok(g.segments.value) else Raise(NameError("translated_segments"));
    var segments :- Elements(segmentsValue);
    var jobs :- Jobs(segments, g.samplesUri, modelId, NamesOf(bucket, prefixInputs, prefixOutputs, jobName));
    Ok((Envelope(jobs, jobConfig), Submissions(jobs, bucket, endpoint)))
  }

  /** The merge loop. */
  method GatherMessages(ms: seq<Value>) returns (r: Result<Gathered>)
    ensures r == Gather(ms)
  {
    var segments: Option<Value> := None;
    var samplesUri: Option<Value> := None;
    var k := 0;
    while k < |ms|
      invariant 0 <= k <= |ms|
      invariant Gather(ms[..k]) == Ok(Gathered(segments, samplesUri))
    {
      var m := ms[k];
      assert ms[..k + 1][..k] == ms[..k] && ms[..k + 1][k] == m;
      if Malformed(m) {
        GatherPrefixFailure(ms, k + 1);
      }
      var task :- Get(m, "source_task");
      if task == Str("translate") {
        var s :- Get(m, "translated_segments");
        segments := Some(s);
      }
      if task == Str("voice_samples") {
        var u :- Get(m, "voice_samples_uri");
        samplesUri := Some(u);
      }
      k := k + 1;
    }
    assert ms[..k] == ms;
    return Ok(Gathered(segments, samplesUri));
  }

  /** The job loop. */
  method BuildJobs(segments: seq<Value>, samplesUri: Option<Value>, modelId: Value, names: Result<Names>)
    returns (r: Result<seq<Value>>)
    ensures r == Jobs(segments, samplesUri, modelId, names)
  {
    var jobs: seq<Value> := [];
    var i := 0;
    while i < |segments|
      invariant 0 <= i <= |segments|
      invariant Jobs(segments[..i], samplesUri, modelId, names) == Ok(jobs)
    {
      if samplesUri.None? {
        return Raise(NameError("voice_samples_s3_uri"));
      }
      if names.Raise? {
        return Raise(names.error);
      }
      JobsStep(segments, i, samplesUri.value, modelId, names.value, jobs);
      jobs := jobs + [TtsJob(i, segments[i], samplesUri.value, modelId, names.value)];
      i := i + 1;
    }
    assert segments[..i] == segments;
    return Ok(jobs);
  }

  /** The job loop over one more segment adds that segment's job. */
  lemma JobsStep(segments: seq<Value>, i: nat, samplesUri: Value, modelId: Value, n: Names, jobs: seq<Value>)
    requires i < |segments| && Jobs(segments[..i], Some(samplesUri), modelId, Ok(n)) == Ok(jobs)
    ensures Jobs(segments[..i + 1], Some(samplesUri), modelId, Ok(n)) ==
      Ok(jobs + [TtsJob(i, segments[i], samplesUri, modelId, n)])
  {
    assert segments[..i + 1][..i] == segments[..i];
  }

  /** The submit loop. */
  method SubmitJobs(jobs: seq<Value>, bucket: Value, endpoint: Value) returns (actions: seq<Action>)
    requires forall j :: 0 <= j < |jobs| ==> HasInputUri(jobs[j])
    ensures actions == Submissions(jobs, bucket, endpoint)
  {
    actions := [];
    var k := 0;
    while k < |jobs|
      invariant 0 <= k <= |jobs|
      invariant actions == Submissions(jobs[..k], bucket, endpoint)
    {
      var job := jobs[k];
      SubmissionsStep(jobs, k, bucket, endpoint);
      var uri := job.fields["input_s3_uri"].s;
      var key := KeyAfterThirdSlash(uri);
      actions := actions + [Put(bucket, key, job)];
      actions := actions + [Invoke(endpoint, "application/json", uri, 3600)];
      k := k + 1;
    }
    assert jobs[..k] == jobs;
  }

  /** The submit loop over one more job stores it, then invokes the endpoint on it. */
  lemma SubmissionsStep(jobs: seq<Value>, k: nat, bucket: Value, endpoint: Value)
    requires forall j :: 0 <= j < |jobs| ==> HasInputUri(jobs[j])
    requires k < |jobs|
    ensures HasInputUri(jobs[k])
    ensures var uri := jobs[k].fields["input_s3_uri"].s;
      Submissions(jobs[..k + 1], bucket, endpoint) == Submissions(jobs[..k], bucket, endpoint)
        + [Put(bucket, KeyAfterThirdSlash(uri), jobs[k])] + [Invoke(endpoint, "application/json", uri, 3600)]
  {
    assert jobs[..k + 1][..k] == jobs[..k] && jobs[..k + 1][k] == jobs[k];
  }

  /** `lambda_handler`. */
  method InvokeTtsHandler(event: Value) returns (r: Result<(Value, seq<Action>)>)
    ensures r == InvokeTtsSpec(event)
  {
    var messages :- Elements(event);
    var g :- GatherMessages(messages);
    var first :- At(event, 0);
    var jobConfig :- Get(first, "job_config");
    var bucket :- Get(jobConfig, "bucket");
    var prefixInputs :- Get(jobConfig, "prefix_inputs");
    var prefixOutputs :- Get(jobConfig, "prefix_outputs");
    var jobName :- Get(jobConfig, "job_name");
    var modelId :- Get(jobConfig, "tts_model_id");
    var endpoint :- Get(jobConfig, "tts_endpoint_name");
    var segmentsValue :- if g.segments.Some? then Ok(g.segments.value) else Raise(NameError("translated_segments"));
    var segments :- Elements(segmentsValue);
    var jobs :- BuildJobs(segments, g.samplesUri, modelId, NamesOf(bucket, prefixInputs, prefixOutputs, jobName));
    var actions := SubmitJobs(jobs, bucket, endpoint);
    return Ok((Envelope(jobs, jobConfig), actions));
  }

  /** On success: one job per translated segment, job i has id i, the i-th
      segment's text, the shared voice-sample URI, model id and empty parameters,
      and the index-derived input and destination URIs; the envelope carries the
      jobs and event[0]'s job object; and job i is stored under
      `prefix_inputs/job_name/tts_jobs/job_name-part-i.json` and submitted right
      after it. */
  lemma InvokeTtsOutcome(event: Value)
    requires InvokeTtsSpec(event).Ok?
    requires var b := event.items[0].fields["job_config"].fields["bucket"]; b.Str? ==> '/' !in b.s
    ensures var (out, actions) := InvokeTtsSpec(event).value;
      var c := event.items[0].fields["job_config"];
      var g := Gather(event.items).value;
      var segments := Elements(g.segments.value).value;
      var names := NamesOf(c.fields["bucket"], c.fields["prefix_inputs"], c.fields["prefix_outputs"], c.fields["job_name"]);
      var jobs := out.fields["tts_jobs"].items;
      && out == Envelope(jobs, c)
      && |jobs| == |segments| && |actions| == 2 * |jobs|
      && forall i :: 0 <= i < |jobs| ==>
           && g.samplesUri.Some? && names.Ok?
           && jobs[i] == TtsJob(i, segments[i], g.samplesUri.value, c.fields["tts_model_id"], names.value)
           && actions[2 * i] == Put(c.fields["bucket"], InputKey(names.value, i), jobs[i])
           && actions[2 * i + 1] == Invoke(c.fields["tts_endpoint_name"], "application/json", InputUri(names.value, i), 3600)
  {
    var c := event.items[0].fields["job_config"];
    var g := Gather(event.items).value;
    var segments := Elements(g.segments.value).value;
    var names := NamesOf(c.fields["bucket"], c.fields["prefix_inputs"], c.fields["prefix_outputs"], c.fields["job_name"]);
    var jobs := Jobs(segments, g.samplesUri, c.fields["tts_model_id"], names).value;
    InvokeTtsSpecValue(event);
    assert Envelope(jobs, c).fields["tts_jobs"].items == jobs;
    JobsSubmitted(segments, g.samplesUri, c.fields["tts_model_id"], names, c.fields["bucket"], c.fields["tts_endpoint_name"]);
  }

  /** Every built job is its index's record, stored and then submitted in index
      order. */
  lemma JobsSubmitted(segments: seq<Value>, samplesUri: Option<Value>, modelId: Value, names: Result<Names>,
                      bucket: Value, endpoint: Value)
    requires Jobs(segments, samplesUri, modelId, names).Ok?
    requires names.Ok? ==> '/' !in names.value.bucket
    ensures var jobs := Jobs(segments, samplesUri, modelId, names).value;
      && (forall j :: 0 <= j < |jobs| ==> HasInputUri(jobs[j]))
      && var actions := Submissions(jobs, bucket, endpoint);
      forall i :: 0 <= i < |jobs| ==>
        && samplesUri.Some? && names.Ok?
        && jobs[i] == TtsJob(i, segments[i], samplesUri.value, modelId, names.value)
        && actions[2 * i] == Put(bucket, InputKey(names.value, i), jobs[i])
        && actions[2 * i + 1] == Invoke(endpoint, "application/json", InputUri(names.value, i), 3600)
  {
    var jobs := Jobs(segments, samplesUri, modelId, names).value;
    forall j | 0 <= j < |jobs| ensures HasInputUri(jobs[j]) {
      TtsJobInputUri(j, segments[j], samplesUri.value, modelId, names.value);
    }
    forall i | 0 <= i < |jobs|
      ensures Submissions(jobs, bucket, endpoint)[2 * i] == Put(bucket, InputKey(names.value, i), jobs[i])
      ensures Submissions(jobs, bucket, endpoint)[2 * i + 1] ==
        Invoke(endpoint, "application/json", InputUri(names.value, i), 3600)
    {
      SubmittedAt(jobs, bucket, endpoint, names.value, i, segments[i], samplesUri.value, modelId);
    }
  }

  /** Job `i`, built from its index, is stored under its input key and then
      submitted on its input URI. */
  lemma SubmittedAt(jobs: seq<Value>, bucket: Value, endpoint: Value, n: Names, i: nat,
                    text: Value, samplesUri: Value, modelId: Value)
    requires forall j :: 0 <= j < |jobs| ==> HasInputUri(jobs[j])
    requires i < |jobs| && jobs[i] == TtsJob(i, text, samplesUri, modelId, n) && '/' !in n.bucket
    ensures Submissions(jobs, bucket, endpoint)[2 * i] == Put(bucket, InputKey(n, i), jobs[i])
    ensures Submissions(jobs, bucket, endpoint)[2 * i + 1] == Invoke(endpoint, "application/json", InputUri(n, i), 3600)
  {
    SubmissionsInOrder(jobs, bucket, endpoint, i);
    TtsJobInputUri(i, text, samplesUri, modelId, n);
    InputKeyFromUri(n, i);
  }

  /** A job record carries its input URI. */
  lemma TtsJobInputUri(i: nat, text: Value, samplesUri: Value, modelId: Value, n: Names)
    ensures HasInputUri(TtsJob(i, text, samplesUri, modelId, n))
    ensures TtsJob(i, text, samplesUri, modelId, n).fields["input_s3_uri"] == Str(InputUri(n, i))
  {
  }

  /** A successful handler's reply and actions, from the gathered messages and
      the job object. */
  lemma InvokeTtsSpecValue(event: Value)
    requires InvokeTtsSpec(event).Ok?
    ensures event.List? && |event.items| > 0 && Gather(event.items).Ok?
    ensures var c := event.items[0].fields["job_config"];
      var g := Gather(event.items).value;
      && c.Obj? && g.segments.Some? && Elements(g.segments.value).Ok?
      && var segments := Elements(g.segments.value).value;
      var names := NamesOf(c.fields["bucket"], c.fields["prefix_inputs"], c.fields["prefix_outputs"], c.fields["job_name"]);
      && Jobs(segments, g.samplesUri, c.fields["tts_model_id"], names).Ok?
      && var jobs := Jobs(segments, g.samplesUri, c.fields["tts_model_id"], names).value;
      InvokeTtsSpec(event).value == (Envelope(jobs, c), Submissions(jobs, c.fields["bucket"], c.fields["tts_endpoint_name"]))
  {
  }

  /** A failed translate branch (its envelope has no `translated_segments`) makes
      the handler raise instead of submitting anything. */
  lemma FailedTranslateRaises(event: Value, m: Value)
    requires event.List? && m in event.items
    requires m.Obj? && "source_task" in m.fields && m.fields["source_task"] == Str("translate") && "translated_segments" !in m.fields
    ensures InvokeTtsSpec(event).Raise?
  {
    assert Malformed(m);
  }

  /** With segments to speak but no voice-sample message, the handler raises the
      unbound-variable error. */
  lemma NoSamplesRaises(event: Value)
    requires event.List? && Gather(event.items).Ok? && Gather(event.items).value.samplesUri.None?
    requires event.items != [] && Get(event.items[0], "job_config").Ok?
    requires var c := event.items[0].fields["job_config"];
      c.Obj? && forall k :: k in ["bucket", "prefix_inputs", "prefix_outputs", "job_name", "tts_model_id", "tts_endpoint_name"] ==> k in c.fields
    requires var g := Gather(event.items).value;
      g.segments.Some? && Elements(g.segments.value).Ok? && Elements(g.segments.value).value != []
    ensures InvokeTtsSpec(event) == Raise(NameError("voice_samples_s3_uri"))
  {
  }
}
