/** The lip-sync poller (src/lambda_functions/poll_retalking/poll_retalking.py):
    one existence check on the job's output video. Object existence is a
    parameter. */
module PollRetalking {
  import opened Values
  import opened S3Uri

  /** `lambda_handler`. The not-yet status is spelled with a space, unlike the
      text-to-speech poller's "IN_PROGRESS". */
  function PollRetalkingHandler(event: Value, objectExists: (string, string) -> bool): (r: Result<Value>)
    ensures r.Ok? <==>
      && event.Obj? && "retalking_job" in event.fields && "job_config" in event.fields
      && ParseField(event.fields["retalking_job"], "output_video_s3_uri").Ok?
    ensures r.Ok? ==>
      var (bucket, key) := ParseField(event.fields["retalking_job"], "output_video_s3_uri").value;
      && r.value.Obj?
      && "statusCode" in r.value.fields && r.value.fields["statusCode"] == Int(200)
      && "retalking_job" in r.value.fields && r.value.fields["retalking_job"] == event.fields["retalking_job"]
      && "job_config" in r.value.fields && r.value.fields["job_config"] == event.fields["job_config"]
      && "job_status" in r.value.fields
      && (r.value.fields["job_status"] == Str("COMPLETED") <==> objectExists(bucket, key))
      && (!objectExists(bucket, key) <==> r.value.fields["job_status"] == Str("IN PROGRESS"))
      && r.value.fields.Keys == {"statusCode", "job_status", "retalking_job", "job_config"}
  {
    var job :- Get(event, "retalking_job");
    var jobConfig :- Get(event, "job_config");
    var (bucket, key) :- ParseField(job, "output_video_s3_uri");
    var status := if objectExists(bucket, key) then "COMPLETED" else "IN PROGRESS";
    Ok(Obj(map[
      "statusCode" := Int(200),
      "job_status" := Str(status),
      "retalking_job" := job,
      "job_config" := jobConfig]))
  }
}
