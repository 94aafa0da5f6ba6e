/** The lip-sync endpoint's request handling (src/retalking/code/inference_handler.py):
    request validation, the success/failure decision of a prediction and the
    reply. JSON decoding, the inference subprocess and the S3 transfers are
    parameters or recorded actions; the temporary directory is a parameter. */
module InferenceHandler {
  import opened Values
  import opened Strs
  import opened S3Uri

  const JsonContentType := "application/json"

  /** The JSON values `in` can search: dictionaries, lists and strings. */
  predicate Searchable(request: Value) {
    request.Obj? || request.List? || request.Str?
  }

  /** `field in request`: a dictionary key, a list element or a substring. */
  predicate HasField(request: Value, field: string)
    requires Searchable(request) && |field| > 0
  {
    match request
    case Obj(m) => field in m
    case List(xs) => Str(field) in xs
    case Str(s) => Contains(s, field)
  }

  /** `[field for field in fields if field not in request]`. */
  function MissingFields(request: Value, fields: seq<string>): (r: seq<string>)
    requires Searchable(request) && forall f :: f in fields ==> |f| > 0
    ensures forall f :: f in r <==> f in fields && !HasField(request, f)
    ensures |r| <= |fields|
  {
    if fields == [] then []
    else if HasField(request, fields[0]) then MissingFields(request, fields[1..])
    else [fields[0]] + MissingFields(request, fields[1..])
  }

  /** The missing-field list for one field of a dictionary request. */
  function Absent(m: map<string, Value>, field: string): seq<string> {
    if field in m then [] else [field]
  }

  /** `request.get("inference_params", {})`. */
  function InferenceParams(m: map<string, Value>): Value {
    if "inference_params" in m then m["inference_params"] else Obj(map[])
  }

  /** `default_input_fn`. `loads` is `json.loads`, `None` where it raises
      `JSONDecodeError`. */
  function InputFn(requestBody: string, contentType: string, loads: string -> Option<Value>): (r: Result<Value>)
    ensures contentType != JsonContentType ==> r == Raise(ValueError("Unsupported content type: " + contentType))
    ensures contentType == JsonContentType && loads(requestBody).None? ==>
      r == Raise(ValueError("Invalid JSON in requset body"))
    ensures r.Ok? ==>
      && contentType == JsonContentType && loads(requestBody).Some? && loads(requestBody).value.Obj?
      && var m := loads(requestBody).value.fields;
      && r.value.Obj?
      && r.value.fields.Keys == {"input_video_s3_uri", "input_audio_s3_uri", "output_video_s3_uri", "inference_params"}
      && (forall f :: f in ["input_video_s3_uri", "input_audio_s3_uri", "output_video_s3_uri"] ==>
            f in m && r.value.fields[f] == m[f])
      && r.value.fields["inference_params"] == InferenceParams(m)
  {
    if contentType != JsonContentType then Raise(ValueError("Unsupported content type: " + contentType))
    else match loads(requestBody)
      case None => Raise(ValueError("Invalid JSON in requset body"))
      case Some(request) =>
        if !Searchable(request) then Raise(TypeError)
        else
        var missing := MissingFields(request, ["input_video_s3_uri", "input_audio_s3_uri", "output_video_s3_uri"]);
        if missing != [] then Raise(ValueError("Missing required fields: " + Join(missing, ", ")))
        else
          var video :- Get(request, "input_video_s3_uri");
          var audio :- Get(request, "input_audio_s3_uri");
          var output :- Get(request, "output_video_s3_uri");
          Ok(Obj(map[
            "input_video_s3_uri" := video,
            "input_audio_s3_uri" := audio,
            "output_video_s3_uri" := output,
            "inference_params" := InferenceParams(request.fields)]))
  }

  /** For a dictionary request the error names exactly the missing fields, in the
      order video, audio, output, and the request is accepted exactly when none is
      missing; nothing else about the request matters. */
  lemma InputFnMissing(requestBody: string, loads: string -> Option<Value>, m: map<string, Value>)
    requires loads(requestBody) == Some(Obj(m))
    ensures var missing := Absent(m, "input_video_s3_uri") + Absent(m, "input_audio_s3_uri")
                           + Absent(m, "output_video_s3_uri");
      InputFn(requestBody, JsonContentType, loads) ==
        if missing == [] then
          Ok(Obj(map[
            "input_video_s3_uri" := m["input_video_s3_uri"],
            "input_audio_s3_uri" := m["input_audio_s3_uri"],
            "output_video_s3_uri" := m["output_video_s3_uri"],
            "inference_params" := InferenceParams(m)]))
        else Raise(ValueError("Missing required fields: " + Join(missing, ", ")))
  {
    var request := Obj(m);
    var fields := ["input_video_s3_uri", "input_audio_s3_uri", "output_video_s3_uri"];
    assert fields[1..] == ["input_audio_s3_uri", "output_video_s3_uri"];
    assert fields[1..][1..] == ["output_video_s3_uri"];
    assert fields[1..][1..][1..] == [];
    assert MissingFields(request, fields[1..][1..]) == Absent(m, "output_video_s3_uri");
    assert MissingFields(request, fields[1..]) == Absent(m, "input_audio_s3_uri") + Absent(m, "output_video_s3_uri");
    assert MissingFields(request, fields) ==
      Absent(m, "input_video_s3_uri") + Absent(m, "input_audio_s3_uri") + Absent(m, "output_video_s3_uri");
  }

  /** `default_output_fn`. */
  function OutputFn(responseBody: Value, contentType: string): (r: Result<Value>)
    ensures r.Ok? <==> responseBody.Obj? && "output_video_s3_uri" in responseBody.fields
    ensures r.Ok? ==>
      && r.value.Obj? && r.value.fields.Keys == {"statusCode", "output_video_s3_uri"}
      && r.value.fields["statusCode"] == Int(200)
      && r.value.fields["output_video_s3_uri"] == responseBody.fields["output_video_s3_uri"]
  {
    var uri :- Get(responseBody, "output_video_s3_uri");
    Ok(Obj(map["statusCode" := Int(200), "output_video_s3_uri" := uri]))
  }

  /** An object's bucket, key and local file in the temporary directory. */
  datatype Location = Location(bucket: string, key: string, path: string)

  /** `get_bucket`, `get_key` and `os.path.join(tmpDir, get_object_name(...))` of
      one URI of the request. */
  function Locate(inputData: Value, field: string, tmpDir: string): (r: Result<Location>)
    ensures r.Ok? <==> GetSplit(inputData, field).Ok? && GetBucket(GetSplit(inputData, field).value).Ok?
    ensures r.Ok? ==> var uri := GetSplit(inputData, field).value;
      && r.value.bucket == GetBucket(uri).value && GetKey(uri) == Ok(r.value.key)
      && r.value.path == PathJoin(tmpDir, GetObjectName(uri))
  {
    var uri :- GetSplit(inputData, field);
    var bucket :- GetBucket(uri);
    Ok(Location(bucket, GetKey(uri).value, PathJoin(tmpDir, GetObjectName(uri))))
  }

  /** The transfers a prediction performs. */
  datatype Transfer =
    | Download(bucket: string, key: string, path: string)
    | Upload(path: string, bucket: string, key: string)

  /** The inference command line. */
  function Command(face: string, audio: string, outfile: string, tmpDir: string): seq<string> {
    ["python", "inference_retalking.py", "--face", face, "--audio", audio, "--outfile", outfile, "--tmp_dir", tmpDir]
  }

  /** `default_predict_fn`. `run` runs a command line and gives its return code
      and whether the output file exists afterwards. The reply comes with the
      transfers performed, in order. */
  function Predict(inputData: Value, tmpDir: string, run: seq<string> -> (int, bool)):
    Result<(Value, seq<Transfer>)>
  {
    var video :- Locate(inputData, "input_video_s3_uri", tmpDir);
    var audio :- Locate(inputData, "input_audio_s3_uri", tmpDir);
    var output :- Locate(inputData, "output_video_s3_uri", tmpDir);
    var (returnCode, produced) := run(Command(video.path, audio.path, output.path, tmpDir));
    if !produced || returnCode != 0 then Raise(ValueError("Output video file not found: " + output.path))
    else
      Ok((Obj(map["output_video_s3_uri" := Str("s3://" + output.bucket + "/" + output.key)]),
          [Download(video.bucket, video.key, video.path),
           Download(audio.bucket, audio.key, audio.path),
           Upload(output.path, output.bucket, output.key)]))
  }

  /** With all three URIs readable, a prediction fails exactly when the output
      file is missing or the command's return code is non-zero, naming the local
      output file; a success downloads the two inputs, uploads the output to the
      output URI's bucket and key, and returns "s3://" + bucket + "/" + key. */
  lemma PredictOutcome(inputData: Value, tmpDir: string, run: seq<string> -> (int, bool))
    requires Locate(inputData, "input_video_s3_uri", tmpDir).Ok?
    requires Locate(inputData, "input_audio_s3_uri", tmpDir).Ok?
    requires Locate(inputData, "output_video_s3_uri", tmpDir).Ok?
    ensures var video := Locate(inputData, "input_video_s3_uri", tmpDir).value;
      var audio := Locate(inputData, "input_audio_s3_uri", tmpDir).value;
      var output := Locate(inputData, "output_video_s3_uri", tmpDir).value;
      var outcome := run(Command(video.path, audio.path, output.path, tmpDir));
      var uri := inputData.fields["output_video_s3_uri"].s;
      && (Predict(inputData, tmpDir, run).Raise? <==> !outcome.1 || outcome.0 != 0)
      && (Predict(inputData, tmpDir, run).Raise? ==>
            Predict(inputData, tmpDir, run).error == ValueError("Output video file not found: " + output.path))
      && (Predict(inputData, tmpDir, run).Ok? ==>
            && Predict(inputData, tmpDir, run).value.0.fields["output_video_s3_uri"]
                 == Str("s3://" + GetBucket(uri).value + "/" + GetKey(uri).value)
            && Predict(inputData, tmpDir, run).value.1 ==
                 [Download(video.bucket, video.key, video.path),
                  Download(audio.bucket, audio.key, audio.path),
                  Upload(output.path, GetBucket(uri).value, GetKey(uri).value)])
  {
  }

  /** A well-formed output URI comes back as it was sent, and the video is
      uploaded to its bucket and key. */
  lemma PredictEchoesOutputUri(inputData: Value, tmpDir: string, run: seq<string> -> (int, bool), b: string, k: string)
    requires '/' !in b && !Contains("/" + k, "//")
    requires inputData.Obj? && "output_video_s3_uri" in inputData.fields
    requires inputData.fields["output_video_s3_uri"] == Str("s3://" + b + "/" + k)
    requires Predict(inputData, tmpDir, run).Ok?
    ensures Predict(inputData, tmpDir, run).value.0 == Obj(map["output_video_s3_uri" := Str("s3://" + b + "/" + k)])
    ensures Predict(inputData, tmpDir, run).value.1[2] == Upload(Locate(inputData, "output_video_s3_uri", tmpDir).value.path, b, k)
  {
    GetBucketKeyRoundTrip(b, k);
  }

  /** A key with "//" in it loses everything from there on: for an output URI
      "s3://" + b + "/" + a + "//" + c the video is uploaded to key `a` and
      "s3://" + b + "/" + a is the URI returned. */
  lemma PredictDropsAfterDoubleSlash(
    inputData: Value, tmpDir: string, run: seq<string> -> (int, bool), b: string, a: string, c: string)
    requires '/' !in b && '/' !in a && |a| > 0
    requires inputData.Obj? && "output_video_s3_uri" in inputData.fields
    requires inputData.fields["output_video_s3_uri"] == Str("s3://" + b + "/" + a + "//" + c)
    requires Predict(inputData, tmpDir, run).Ok?
    ensures Predict(inputData, tmpDir, run).value.0 == Obj(map["output_video_s3_uri" := Str("s3://" + b + "/" + a)])
    ensures Predict(inputData, tmpDir, run).value.1[2].key == a
  {
    GetKeyDropsAfterDoubleSlash(b, a, c);
  }

  /** The endpoint end to end: an accepted JSON request whose URIs are
      well-formed and whose inference succeeds is answered with status 200 and
      the output URI it named. */
  lemma EndpointAnswersOutputUri(
    requestBody: string, loads: string -> Option<Value>, tmpDir: string,
    run: seq<string> -> (int, bool), b: string, k: string)
    requires '/' !in b && !Contains("/" + k, "//")
    requires InputFn(requestBody, JsonContentType, loads).Ok?
    requires loads(requestBody).value.fields["output_video_s3_uri"] == Str("s3://" + b + "/" + k)
    requires Predict(InputFn(requestBody, JsonContentType, loads).value, tmpDir, run).Ok?
    ensures var request := InputFn(requestBody, JsonContentType, loads).value;
      OutputFn(Predict(request, tmpDir, run).value.0, JsonContentType) ==
        Ok(Obj(map["statusCode" := Int(200), "output_video_s3_uri" := Str("s3://" + b + "/" + k)]))
  {
    var request := InputFn(requestBody, JsonContentType, loads).value;
    PredictEchoesOutputUri(request, tmpDir, run, b, k);
  }
}
