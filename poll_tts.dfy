/** The text-to-speech poller (src/lambda_functions/poll_tts/poll_tts.py): check
    every job's destination object once and report "COMPLETED" when all of them
    exist. Object existence is a parameter; its answer for a key never depends on
    earlier calls. */
module PollTts {
  import opened Values
  import opened S3Uri

  /** `parse_s3_uri(tts_job['destination_s3_uri'])`. */
  function Destination(job: Value): Result<(string, string)> {
    ParseField(job, "destination_s3_uri")
  }

  /** The objects the loop looks up, job by job, or the first job's exception. */
  function Destinations(jobs: seq<Value>): (r: Result<seq<(string, string)>>)
    ensures r.Ok? ==> |r.value| == |jobs|
    decreases |jobs|
  {
    if jobs == [] then Ok([])
    else
      match Destinations(jobs[..|jobs| - 1])
      case Raise(e) => Raise(e)
      case Ok(done) =>
        match Destination(jobs[|jobs| - 1])
        case Raise(e) => Raise(e)
        case Ok(d) => Ok(done + [d])
  }

  /** The object looked up for job `i` is that job's destination. */
  lemma {:induction false} DestinationAt(jobs: seq<Value>, i: nat)
    requires Destinations(jobs).Ok? && i < |jobs|
    ensures Destination(jobs[i]) == Ok(Destinations(jobs).value[i])
    decreases |jobs|
  {
    var init := jobs[..|jobs| - 1];
    var done := Destinations(init).value;
    if i < |jobs| - 1 {
      DestinationAt(init, i);
      assert init[i] == jobs[i];
      SnocIndex(done, Destinations(jobs).value[|jobs| - 1]);
    }
  }

  /** `completed_jobs`: the indices whose object exists. */
  function CompletedSet(dests: seq<(string, string)>, objectExists: (string, string) -> bool): (r: set<nat>)
    ensures forall i :: i in r ==> i < |dests|
  {
    set i: nat | i < |dests| && objectExists(dests[i].0, dests[i].1)
  }

  /** One more looked-up object adds its index exactly when it exists. */
  lemma CompletedSnoc(dests: seq<(string, string)>, d: (string, string), objectExists: (string, string) -> bool)
    ensures CompletedSet(dests + [d], objectExists) ==
      CompletedSet(dests, objectExists) + (if objectExists(d.0, d.1) then {|dests|} else {})
  {
    var s := dests + [d];
    assert forall i :: 0 <= i < |dests| ==> s[i] == dests[i];
  }

  /** The indices below `n`. */
  function AllIndices(n: nat): (r: set<nat>)
    ensures forall i: int :: i in r <==> 0 <= i < n
    ensures |r| == n
  {
    if n == 0 then {} else AllIndices(n - 1) + {n - 1}
  }

  lemma {:induction false} SubsetSize(a: set<nat>, b: set<nat>)
    requires a <= b
    ensures |a| <= |b|
    decreases |b|
  {
    if b != {} {
      var x :| x in b;
      SubsetSize(a - {x}, b - {x});
    }
  }

  /** Every looked-up object exists. */
  predicate AllExist(dests: seq<(string, string)>, objectExists: (string, string) -> bool) {
    forall i :: 0 <= i < |dests| ==> objectExists(dests[i].0, dests[i].1)
  }

  /** The count test on the completed set is the all-exist test. */
  lemma AllCompletedIff(dests: seq<(string, string)>, objectExists: (string, string) -> bool)
    ensures |CompletedSet(dests, objectExists)| >= |dests| <==> AllExist(dests, objectExists)
  {
    var done := CompletedSet(dests, objectExists);
    assert done <= AllIndices(|dests|);
    if forall i :: 0 <= i < |dests| ==> objectExists(dests[i].0, dests[i].1) {
      assert done == AllIndices(|dests|);
    } else {
      var i :| 0 <= i < |dests| && !objectExists(dests[i].0, dests[i].1);
      SubsetSize(done, AllIndices(|dests|) - {i});
    }
  }

  /** Every looked-up object is its job's destination. */
  lemma DestinationsAll(jobs: seq<Value>)
    requires Destinations(jobs).Ok?
    ensures forall i :: 0 <= i < |jobs| ==> Destination(jobs[i]) == Ok(Destinations(jobs).value[i])
  {
    forall i | 0 <= i < |jobs| ensures Destination(jobs[i]) == Ok(Destinations(jobs).value[i]) {
      DestinationAt(jobs, i);
    }
  }

  /** What the poller returns with the objects it looked up, in order. */
  function PollTtsSpec(event: Value, objectExists: (string, string) -> bool):
    Result<(Value, seq<(string, string)>)>
  {
    var jobsValue :- Get(event, "tts_jobs");
    var jobs :- Elements(jobsValue);
    var dests :- Destinations(jobs);
    var done := CompletedSet(dests, objectExists);
    var jobConfig :- Get(event, "job_config");
    var status := if |done| >= |jobs| then "COMPLETED" else "IN_PROGRESS";
    Ok((Obj(map[
      "statusCode" := Int(200),
      "job_status" := Str(status),
      "tts_jobs" := jobsValue,
      "job_config" := jobConfig]), dests))
  }

  /** Once a prefix of the jobs raises, the whole loop raises the same. */
  lemma {:induction false} DestinationsPrefixFailure(jobs: seq<Value>, k: nat)
    requires k <= |jobs| && Destinations(jobs[..k]).Raise?
    ensures Destinations(jobs) == Destinations(jobs[..k])
    decreases |jobs| - k
  {
    if k < |jobs| {
      var init := jobs[..|jobs| - 1];
      assert init[..k] == jobs[..k];
      DestinationsPrefixFailure(init, k);
    } else {
      assert jobs[..k] == jobs;
    }
  }

  /** The loop of `lambda_handler`. It skips an index already in
      `completed_jobs`; the set starts empty on every call and only ever holds
      earlier indices, so every job is looked up exactly once. */
  method CheckJobs(jobs: seq<Value>, objectExists: (string, string) -> bool)
    returns (r: Result<(set<nat>, seq<(string, string)>)>)
    ensures Destinations(jobs).Raise? ==> r == Raise(Destinations(jobs).error)
    ensures Destinations(jobs).Ok? ==>
      r == Ok((CompletedSet(Destinations(jobs).value, objectExists), Destinations(jobs).value))
  {
    var completed: set<nat> := {};
    var looked: seq<(string, string)> := [];
    var index := 0;
    while index < |jobs|
      invariant 0 <= index <= |jobs|
      invariant Destinations(jobs[..index]) == Ok(looked)
      invariant completed == CompletedSet(looked, objectExists)
    {
      var job := jobs[index];
      assert jobs[..index + 1][..index] == jobs[..index] && jobs[..index + 1][index] == job;
      if index !in completed {
        if Destination(job).Raise? {
          DestinationsPrefixFailure(jobs, index + 1);
        }
        var dest :- Destination(job);
        assert Destinations(jobs[..index + 1]) == Ok(looked + [dest]);
        CompletedSnoc(looked, dest, objectExists);
        looked := looked + [dest];
        if objectExists(dest.0, dest.1) {
          completed := completed + {index};
        }
      }
      index := index + 1;
    }
    assert jobs[..index] == jobs;
    return Ok((completed, looked));
  }

  /** `lambda_handler`, returning the objects it looked up with its reply. */
  method PollTtsHandler(event: Value, objectExists: (string, string) -> bool)
    returns (r: Result<(Value, seq<(string, string)>)>)
    ensures r == PollTtsSpec(event, objectExists)
  {
    var jobsValue :- Get(event, "tts_jobs");
    var jobs :- Elements(jobsValue);
    var numJobs := |jobs|;
    var checked :- CheckJobs(jobs, objectExists);
    var (completed, looked) := checked;
    var jobConfig :- Get(event, "job_config");
    var status := if |completed| >= numJobs then "COMPLETED" else "IN_PROGRESS";
    return Ok((Obj(map[
      "statusCode" := Int(200),
      "job_status" := Str(status),
      "tts_jobs" := jobsValue,
      "job_config" := jobConfig]), looked));
  }

  /** The reply: status 200, the jobs and job object unchanged, every job's object
      looked up once in list order, and "COMPLETED" exactly when all of them exist,
      otherwise "IN_PROGRESS". */
  lemma PollTtsOutcome(event: Value, objectExists: (string, string) -> bool)
    requires PollTtsSpec(event, objectExists).Ok?
    ensures var (out, looked) := PollTtsSpec(event, objectExists).value;
      var jobs := Elements(event.fields["tts_jobs"]).value;
      && out.fields["statusCode"] == Int(200)
      && out.fields["tts_jobs"] == event.fields["tts_jobs"]
      && out.fields["job_config"] == event.fields["job_config"]
      && |looked| == |jobs|
      && (forall i :: 0 <= i < |jobs| ==> Destination(jobs[i]) == Ok(looked[i]))
      && (out.fields["job_status"] == Str("COMPLETED") <==> AllExist(looked, objectExists))
      && (out.fields["job_status"] == Str("COMPLETED") || out.fields["job_status"] == Str("IN_PROGRESS"))
  {
    var jobsValue := event.fields["tts_jobs"];
    var jobs := Elements(jobsValue).value;
    var dests := Destinations(jobs).value;
    var done := CompletedSet(dests, objectExists);
    var status := if |done| >= |jobs| then "COMPLETED" else "IN_PROGRESS";
    assert PollTtsSpec(event, objectExists).value == (Obj(map[
      "statusCode" := Int(200),
      "job_status" := Str(status),
      "tts_jobs" := jobsValue,
      "job_config" := event.fields["job_config"]]), dests);
    AllCompletedIff(dests, objectExists);
    DestinationsAll(jobs);
  }

  /** No jobs means nothing to wait for. */
  lemma NoJobsCompleted(jobConfig: Value, objectExists: (string, string) -> bool)
    ensures PollTtsSpec(Obj(map["tts_jobs" := List([]), "job_config" := jobConfig]), objectExists).Ok?
    ensures PollTtsSpec(Obj(map["tts_jobs" := List([]), "job_config" := jobConfig]), objectExists).value.0.fields["job_status"]
      == Str("COMPLETED")
  {
  }
}
