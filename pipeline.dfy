/** The pollers seen from the state machine: what their replies make the Choice
    states after them do. */
module Pipeline {
  import opened Values
  import opened S3Uri
  import opened StateMachine
  import PollTts
  import PollRetalking

  /** "Retalking Complete?" finishes the run exactly when the output video
      exists; otherwise the reply, "IN PROGRESS", sends it back to wait. */
  lemma RetalkingPollDrivesChoice(event: Value, objectExists: (string, string) -> bool)
    requires PollRetalking.PollRetalkingHandler(event, objectExists).Ok?
    ensures var (bucket, key) := ParseField(event.fields["retalking_job"], "output_video_s3_uri").value;
      Next(RetalkingComplete, PollRetalking.PollRetalkingHandler(event, objectExists).value) ==
        Some(if objectExists(bucket, key) then Completed else WaitBeforeRetalkingPollAgain)
  {
    var (bucket, key) := ParseField(event.fields["retalking_job"], "output_video_s3_uri").value;
    var out := PollRetalking.PollRetalkingHandler(event, objectExists).value;
    assert IsCompleted(out) <==> objectExists(bucket, key);
  }

  /** "TTS Complete?" moves on to the lip-sync stage exactly when every job's
      destination object exists; otherwise it waits and polls again. */
  lemma TtsPollDrivesChoice(event: Value, objectExists: (string, string) -> bool)
    requires PollTts.PollTtsSpec(event, objectExists).Ok?
    ensures var r := PollTts.PollTtsSpec(event, objectExists).value;
      Next(TtsComplete, r.0) ==
        Some(if PollTts.AllExist(r.1, objectExists) then InvokeRetalkingTask else WaitBeforeTtsPollAgain)
  {
    PollTts.PollTtsOutcome(event, objectExists);
  }
}
