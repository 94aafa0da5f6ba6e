/** The translate branch of the Parallel state
    (src/lambda_functions/translate/translate.py): fetch the transcript, split it
    on every '.', translate each non-empty piece with its '.' put back, and report
    the translations in order, or a 400 envelope when there are none. */
module Translate {
  import opened Values
  import opened Strs
  import opened Transcribe

  /** The pieces the loop translates: every piece other than the empty string,
      in order. Whitespace-only pieces stay. */
  function NonEmpty(pieces: seq<string>): (r: seq<string>)
    ensures forall p :: p in r <==> p in pieces && p != ""
    ensures |r| <= |pieces|
  {
    if pieces == [] then []
    else
      var last := pieces[|pieces| - 1];
      NonEmpty(pieces[..|pieces| - 1]) + (if last == "" then [] else [last])
  }

  /** The filter keeps order and repeats: filtering two runs of pieces is
      filtering each in turn. */
  lemma {:induction false} NonEmptyAppend(a: seq<string>, b: seq<string>)
    ensures NonEmpty(a + b) == NonEmpty(a) + NonEmpty(b)
    decreases |b|
  {
    if b == [] {
      assert a + b == a;
    } else {
      var init, last := b[..|b| - 1], b[|b| - 1];
      var tail := if last == "" then [] else [last];
      var ab := a + b;
      assert ab[..|ab| - 1] == a + init && ab[|ab| - 1] == last;
      assert NonEmpty(ab) == NonEmpty(a + init) + tail;
      assert NonEmpty(b) == NonEmpty(init) + tail;
      NonEmptyAppend(a, init);
      AppendAssoc(NonEmpty(a), NonEmpty(init), tail);
    }
  }

  /** One `translate_text` call on a piece with its '.' put back, and the
      `TranslatedText` of the answer. */
  function Translation(
    piece: string, jobConfig: Value,
    translateText: (string, Value, Value) -> Result<Value>): Result<Value>
  {
    var source :- Get(jobConfig, "translate_source_language_code");
    var target :- Get(jobConfig, "translate_target_language_code");
    var response :- translateText(piece + ".", source, target);
    Get(response, "TranslatedText")
  }

  /** The translations of the pieces, or the exception of the first piece whose
      translation raises. */
  function Translations(
    pieces: seq<string>, jobConfig: Value,
    translateText: (string, Value, Value) -> Result<Value>): (r: Result<seq<Value>>)
    ensures r.Ok? ==> |r.value| == |NonEmpty(pieces)|
    decreases |pieces|
  {
    if pieces == [] then Ok([])
    else
      var last := pieces[|pieces| - 1];
      var done :- Translations(pieces[..|pieces| - 1], jobConfig, translateText);
      if last == "" then Ok(done)
      else
        var t :- Translation(last, jobConfig, translateText);
        Ok(done + [t])
  }

  /** The `i`-th translation is that of the `i`-th non-empty piece. */
  lemma {:induction false} TranslationAt(
    pieces: seq<string>, jobConfig: Value,
    translateText: (string, Value, Value) -> Result<Value>, i: nat)
    requires Translations(pieces, jobConfig, translateText).Ok? && i < |NonEmpty(pieces)|
    ensures Translation(NonEmpty(pieces)[i], jobConfig, translateText) ==
      Ok(Translations(pieces, jobConfig, translateText).value[i])
    decreases |pieces|
  {
    var init := pieces[..|pieces| - 1];
    var last := pieces[|pieces| - 1];
    var done := Translations(init, jobConfig, translateText).value;
    assert NonEmpty(pieces) == NonEmpty(init) + (if last == "" then [] else [last]);
    if i < |NonEmpty(init)| {
      TranslationAt(init, jobConfig, translateText, i);
      if last != "" {
        SnocIndex(done, Translations(pieces, jobConfig, translateText).value[|done|]);
      }
    }
  }

  /** Every translation is that of its non-empty piece, in order. */
  lemma TranslationsAll(
    pieces: seq<string>, jobConfig: Value,
    translateText: (string, Value, Value) -> Result<Value>)
    requires Translations(pieces, jobConfig, translateText).Ok?
    ensures forall i :: 0 <= i < |NonEmpty(pieces)| ==>
      Translation(NonEmpty(pieces)[i], jobConfig, translateText) ==
        Ok(Translations(pieces, jobConfig, translateText).value[i])
  {
    forall i | 0 <= i < |NonEmpty(pieces)|
      ensures Translation(NonEmpty(pieces)[i], jobConfig, translateText) ==
        Ok(Translations(pieces, jobConfig, translateText).value[i])
    {
      TranslationAt(pieces, jobConfig, translateText, i);
    }
  }

  /** The loop finishes exactly when no non-empty piece's translation raises. */
  lemma {:induction false} TranslationsOkIff(
    pieces: seq<string>, jobConfig: Value,
    translateText: (string, Value, Value) -> Result<Value>)
    ensures Translations(pieces, jobConfig, translateText).Ok? <==>
      forall p :: p in NonEmpty(pieces) ==> Translation(p, jobConfig, translateText).Ok?
    decreases |pieces|
  {
    if pieces != [] {
      var init := pieces[..|pieces| - 1];
      var last := pieces[|pieces| - 1];
      TranslationsOkIff(init, jobConfig, translateText);
      assert NonEmpty(pieces) == NonEmpty(init) + (if last == "" then [] else [last]);
    }
  }

  /** Once a prefix of the pieces raises, the whole sequence raises the same. */
  lemma {:induction false} PrefixFailure(
    pieces: seq<string>, k: nat, jobConfig: Value,
    translateText: (string, Value, Value) -> Result<Value>)
    requires k <= |pieces| && Translations(pieces[..k], jobConfig, translateText).Raise?
    ensures Translations(pieces, jobConfig, translateText) == Translations(pieces[..k], jobConfig, translateText)
    decreases |pieces| - k
  {
    if k < |pieces| {
      var init := pieces[..|pieces| - 1];
      assert init[..k] == pieces[..k];
      PrefixFailure(init, k, jobConfig, translateText);
    } else {
      assert pieces[..k] == pieces;
    }
  }

  /** `result['results']['transcripts'][0]['transcript']` of the transcript file
      the transcription job points to. */
  function Transcript(
    name: Value, getJob: Value -> Result<Value>, fetch: Value -> Result<Value>): Result<string>
  {
    var result :- TranscriptFile(name, getJob, fetch);
    var results :- Get(result, "results");
    var transcripts :- Get(results, "transcripts");
    var first :- At(transcripts, 0);
    GetSplit(first, "transcript")
  }

  const NoSegmentsError := "Translation failed: No segments were translated."

  function Envelope(translated: seq<Value>, jobConfig: Value): Value {
    if |translated| > 0 then
      Obj(map[
        "statusCode" := Int(200),
        "source_task" := Str("translate"),
        "translated_segments" := List(translated),
        "job_config" := jobConfig])
    else
      Obj(map[
        "statusCode" := Int(400),
        "source_task" := Str("translate"),
        "error" := Str(NoSegmentsError),
        "job_config" := jobConfig])
  }

  /** The two envelopes, field by field. */
  lemma EnvelopeFields(translated: seq<Value>, jobConfig: Value)
    ensures var out := Envelope(translated, jobConfig);
      && out.Obj? && "source_task" in out.fields && out.fields["source_task"] == Str("translate")
      && "job_config" in out.fields && out.fields["job_config"] == jobConfig
      && "statusCode" in out.fields
      && (out.fields["statusCode"] == Int(200) <==> translated != [])
      && ("translated_segments" in out.fields <==> translated != [])
      && (translated == [] ==>
            out.fields["statusCode"] == Int(400) && "error" in out.fields && out.fields["error"] == Str(NoSegmentsError))
      && (translated != [] ==> out.fields["translated_segments"] == List(translated))
  {
  }

  /** What the translate handler returns or raises. */
  function TranslateSpec(
    event: Value, getJob: Value -> Result<Value>, fetch: Value -> Result<Value>,
    translateText: (string, Value, Value) -> Result<Value>): Result<Value>
  {
    var jobConfig :- Get(event, "job_config");
    var name :- Get(event, "transcription_job_name");
    var transcript :- Transcript(name, getJob, fetch);
    var translated :- Translations(Split(transcript, "."), jobConfig, translateText);
    Ok(Envelope(translated, jobConfig))
  }

  /** `lambda_handler`: the loop over the split pieces appends one translation per
      non-empty piece. */
  method TranslateHandler(
    event: Value, getJob: Value -> Result<Value>, fetch: Value -> Result<Value>,
    translateText: (string, Value, Value) -> Result<Value>) returns (r: Result<Value>)
    ensures r == TranslateSpec(event, getJob, fetch, translateText)
  {
    var jobConfig :- Get(event, "job_config");
    var name :- Get(event, "transcription_job_name");
    var transcript :- Transcript(name, getJob, fetch);
    var pieces := Split(transcript, ".");
    var translated: seq<Value> := [];
    var k := 0;
    while k < |pieces|
      invariant 0 <= k <= |pieces|
      invariant Translations(pieces[..k], jobConfig, translateText) == Ok(translated)
    {
      var piece := pieces[k];
      assert pieces[..k + 1][..k] == pieces[..k] && pieces[..k + 1][k] == piece;
      if piece != "" {
        var t := Translation(piece, jobConfig, translateText);
        if t.Raise? {
          PrefixFailure(pieces, k + 1, jobConfig, translateText);
          return Raise(t.error);
        }
        translated := translated + [t.value];
      }
      k := k + 1;
    }
    assert pieces[..k] == pieces;
    return Ok(Envelope(translated, jobConfig));
  }

  /** The envelope: 200 with the translations in piece order exactly when some
      piece is non-empty, otherwise 400 with the error text and no translations;
      the job object rides along either way. */
  lemma TranslateOutcome(
    event: Value, getJob: Value -> Result<Value>, fetch: Value -> Result<Value>,
    translateText: (string, Value, Value) -> Result<Value>)
    requires TranslateSpec(event, getJob, fetch, translateText).Ok?
    ensures var out := TranslateSpec(event, getJob, fetch, translateText).value;
      var jobConfig := event.fields["job_config"];
      var name := event.fields["transcription_job_name"];
      var pieces := NonEmpty(Split(Transcript(name, getJob, fetch).value, "."));
      && out.Obj? && out.fields["source_task"] == Str("translate")
      && out.fields["job_config"] == jobConfig
      && (out.fields["statusCode"] == Int(200) <==> pieces != [])
      && ("translated_segments" in out.fields <==> pieces != [])
      && (pieces == [] ==> out.fields["statusCode"] == Int(400) && out.fields["error"] == Str(NoSegmentsError))
      && (pieces != [] ==>
            && |out.fields["translated_segments"].items| == |pieces|
            && forall i :: 0 <= i < |pieces| ==>
                 Translation(pieces[i], jobConfig, translateText) == Ok(out.fields["translated_segments"].items[i]))
  {
    var jobConfig := event.fields["job_config"];
    var transcript := Transcript(event.fields["transcription_job_name"], getJob, fetch).value;
    var translated := Translations(Split(transcript, "."), jobConfig, translateText).value;
    TranslationsAll(Split(transcript, "."), jobConfig, translateText);
    EnvelopeFields(translated, jobConfig);
  }

  /** A transcript with no '.' is one piece. */
  lemma NoDotOnePiece(t: string)
    requires '.' !in t && t != ""
    ensures NonEmpty(Split(t, ".")) == [t]
  {
    NoCharNoSplit(t, '.');
    assert [t][..0] == [];
  }

  /** A final '.' only adds an empty piece. */
  lemma {:induction false} TrailingDotSplit(t: string)
    ensures Split(t + ".", ".") == Split(t, ".") + [""]
    decreases |t|
  {
    if '.' in t {
      var a, b := FirstCharOf(t, '.');
      TrailingDotStep(t, a, b);
      TrailingDotSplit(b);
      AppendAssoc([a], Split(b, "."), [""]);
    } else {
      TrailingDotLast(t);
    }
  }

  lemma TrailingDotStep(t: string, a: string, b: string)
    requires t == a + ['.'] + b && '.' !in a
    ensures Split(t + ".", ".") == [a] + Split(b + ".", ".")
  {
    assert t + "." == a + ['.'] + (b + ".");
    FirstChar(a, '.', b + ".");
    SplitUnfold(t + ".", ".");
  }

  lemma TrailingDotLast(t: string)
    requires '.' !in t
    ensures Split(t + ".", ".") == Split(t, ".") + [""]
  {
    NoCharNoSplit(t, '.');
    assert t + "." == t + ['.'] + "";
    FirstChar(t, '.', "");
    SplitUnfold(t + ".", ".");
    NoCharNoSplit("", '.');
  }

  /** So a transcript ending in '.' is translated as if the '.' were not there. */
  lemma TrailingDot(t: string)
    ensures NonEmpty(Split(t + ".", ".")) == NonEmpty(Split(t, "."))
  {
    TrailingDotSplit(t);
    var pieces := Split(t, ".") + [""];
    assert pieces[..|pieces| - 1] == Split(t, ".");
  }
}
