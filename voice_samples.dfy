/** The voice-sample branch of the Parallel state
    (src/lambda_functions/voice_samples/voice_samples.py): cut the transcript's
    timed items into sentences at every '.', keep the sentences longer than two
    and at most ten seconds, slice the source audio at each kept sentence and
    upload the slices as `<i>.wav` under the job's `voice_samples` prefix.

    Sentence times are integer milliseconds, and audio is a sequence with one
    element per millisecond. How a transcript time (a decimal string such as
    "1.25", in seconds) becomes milliseconds is the parameter `toMillis`. */
module VoiceSamples {
  import opened Values
  import opened Strs
  import opened S3Uri
  import opened Transcribe

  datatype Sentence = Sentence(text: string, start: int, end: int)

  function Duration(s: Sentence): int { s.end - s.start }

  /** The loop's variables: `current_sentence`, `sentence_start_time`,
      `sentence_end_time` (`Null` standing for `None`) and `sentences`. */
  datatype Scan = Scan(current: string, start: Value, end: Value, sentences: seq<Sentence>)

  const Fresh := Scan("", Null, Null, [])

  /** `item['alternatives'][0]['content']`, used as a string. */
  function Content(item: Value): Result<string> {
    var alternatives :- Get(item, "alternatives");
    var first :- At(alternatives, 0);
    GetStr(first, "content")
  }

  /** `float(t) * 1000` of a transcript time that is not `None`: the position in
      the audio, in milliseconds, or the exception `float` raises. */
  type ToMillis = Value -> Result<int>

  /** `float(t)` of a sentence time, in milliseconds: `float(None)` raises
      `TypeError`; any other time is converted by `toMillis`. */
  function Millis(toMillis: ToMillis, t: Value): (r: Result<int>)
    ensures t == Null ==> r == Raise(TypeError)
    ensures t != Null ==> r == toMillis(t)
  {
    if t == Null then Raise(TypeError) else toMillis(t)
  }

  predicate IsWord(item: Value) {
    Get(item, "type").Ok? && Get(item, "type").value != Str("punctuation")
  }

  /** A punctuation item whose content is '.': the only item that ends a sentence. */
  predicate IsPeriod(item: Value) {
    Get(item, "type") == Ok(Str("punctuation")) && Content(item) == Ok(".")
  }

  /** One pass of the item loop's body. */
  function Feed(toMillis: ToMillis, st: Scan, item: Value): Result<Scan> {
    var kind :- Get(item, "type");
    var word := kind != Str("punctuation");
    var start :- if word && st.start == Null then Get(item, "start_time") else Ok(st.start);
    var end :- if word then Get(item, "end_time") else Ok(st.end);
    var content :- Content(item);
    var current := if word then st.current + " " + content else st.current + content + " ";
    if !word && content == "." then
      var s :- Millis(toMillis, start);
      var e :- Millis(toMillis, end);
      Ok(Scan("", Null, Null, st.sentences + [Sentence(Strip(current), s, e)]))
    else
      Ok(Scan(current, start, end, st.sentences))
  }

  /** The item loop over a prefix of the items. */
  function FeedAll(toMillis: ToMillis, st: Scan, items: seq<Value>): Result<Scan>
    decreases |items|
  {
    if items == [] then Ok(st)
    else
      var before :- FeedAll(toMillis, st, items[..|items| - 1]);
      Feed(toMillis, before, items[|items| - 1])
  }

  function Periods(items: seq<Value>): nat {
    if items == [] then 0
    else Periods(items[..|items| - 1]) + (if IsPeriod(items[|items| - 1]) then 1 else 0)
  }

  /** One sentence per '.' item: the scan keeps the sentences it started with and
      adds exactly as many as there are '.' items. Trailing items after the last
      '.' add none. */
  lemma {:induction false} SentencePerPeriod(toMillis: ToMillis, st: Scan, items: seq<Value>)
    requires FeedAll(toMillis, st, items).Ok?
    ensures var r := FeedAll(toMillis, st, items).value;
      |r.sentences| == |st.sentences| + Periods(items) && r.sentences[..|st.sentences|] == st.sentences
    decreases |items|
  {
    if items != [] {
      var init := items[..|items| - 1];
      SentencePerPeriod(toMillis, st, init);
      var before := FeedAll(toMillis, st, init).value;
      var item := items[|items| - 1];
      var r := FeedAll(toMillis, st, items).value;
      assert r == Feed(toMillis, before, item).value;
      var kind := Get(item, "type").value;
      if kind == Str("punctuation") && Content(item).value == "." {
        assert IsPeriod(item);
        assert r.sentences[..|before.sentences|] == before.sentences;
      } else {
        assert !IsPeriod(item);
      }
    }
  }

  /** At a '.' the sentence so far is closed: it needs a start and an end (a '.'
      with no word since the last one raises, as `float(None)` does), its text is
      the stripped text with ". " added, and the loop variables are reset. */
  lemma PeriodCloses(toMillis: ToMillis, st: Scan, item: Value)
    requires IsPeriod(item)
    ensures Feed(toMillis, st, item).Ok? <==> Millis(toMillis, st.start).Ok? && Millis(toMillis, st.end).Ok?
    ensures st.start == Null ==> Feed(toMillis, st, item) == Raise(TypeError)
    ensures Feed(toMillis, st, item).Ok? ==>
      Feed(toMillis, st, item).value == Scan("", Null, Null, st.sentences +
        [Sentence(Strip(st.current + ". "), Millis(toMillis, st.start).value, Millis(toMillis, st.end).value)])
  {
    AppendAssoc(st.current, ".", " ");
    assert "." + " " == ". ";
  }

  /** What an item adds to the open sentence's text: a word preceded by a space,
      a punctuation mark followed by one. */
  function Piece(item: Value): string {
    if Content(item).Ok? then
      (if IsWord(item) then " " + Content(item).value else Content(item).value + " ")
    else ""
  }

  /** The start of the open sentence: the first word's `start_time` that is not
      null, searching from the left. */
  function FirstStart(items: seq<Value>): Value
    decreases |items|
  {
    if items == [] then Null
    else if IsWord(items[0]) && Get(items[0], "start_time").Ok? && Get(items[0], "start_time").value != Null
    then Get(items[0], "start_time").value
    else FirstStart(items[1..])
  }

  /** The end of the open sentence: the last word's `end_time`, searching from the
      right, or `dflt` when there is no word. */
  function LastEnd(items: seq<Value>, dflt: Value): Value
    decreases |items|
  {
    if items == [] then dflt
    else
      var last := items[|items| - 1];
      if IsWord(last) && Get(last, "end_time").Ok? then Get(last, "end_time").value
      else LastEnd(items[..|items| - 1], dflt)
  }

  /** The text of the open sentence, piece by piece. */
  function TextOf(items: seq<Value>): string
    decreases |items|
  {
    if items == [] then "" else Piece(items[0]) + TextOf(items[1..])
  }

  lemma {:induction false} FirstStartSnoc(items: seq<Value>, x: Value)
    ensures FirstStart(items + [x]) ==
      if FirstStart(items) != Null then FirstStart(items)
      else if IsWord(x) && Get(x, "start_time").Ok? then Get(x, "start_time").value
      else Null
    decreases |items|
  {
    if items == [] {
      assert ([] + [x])[1..] == [];
    } else {
      assert (items + [x])[0] == items[0] && (items + [x])[1..] == items[1..] + [x];
      FirstStartSnoc(items[1..], x);
    }
  }

  lemma {:induction false} TextOfSnoc(items: seq<Value>, x: Value)
    ensures TextOf(items + [x]) == TextOf(items) + Piece(x)
    decreases |items|
  {
    if items == [] {
      assert [] + [x] == [x] && [x][1..] == [];
    } else {
      var t := items[1..];
      assert (items + [x])[0] == items[0] && (items + [x])[1..] == t + [x];
      TextOfSnoc(t, x);
      AppendAssoc(Piece(items[0]), TextOf(t), Piece(x));
    }
  }

  /** An item other than '.' extends the open sentence and closes nothing. */
  lemma FeedOpen(toMillis: ToMillis, st: Scan, x: Value)
    requires !IsPeriod(x) && Feed(toMillis, st, x).Ok?
    ensures var r := Feed(toMillis, st, x).value;
      && r.current == st.current + Piece(x)
      && r.start == (if st.start == Null && IsWord(x) then Get(x, "start_time").value else st.start)
      && r.end == (if IsWord(x) then Get(x, "end_time").value else st.end)
      && r.sentences == st.sentences
    ensures st.start == Null && IsWord(x) ==> Get(x, "start_time").Ok?
    ensures IsWord(x) ==> Get(x, "end_time").Ok?
  {
  }

  /** The loop variables between sentences: at the start, and after every '.'. */
  predicate Closed(st: Scan) {
    st.current == "" && st.start == Null && st.end == Null
  }

  /** The loop over one run of items and then another is the loop over the first
      run, continued from where it stopped over the second; a raise in the first
      run is the outcome of the whole. */
  lemma FeedAllAppend(toMillis: ToMillis, st: Scan, a: seq<Value>, b: seq<Value>)
    ensures FeedAll(toMillis, st, a + b) ==
      if FeedAll(toMillis, st, a).Ok? then FeedAll(toMillis, FeedAll(toMillis, st, a).value, b)
      else FeedAll(toMillis, st, a)
  {
    if FeedAll(toMillis, st, a).Ok? {
      FeedAllContinue(toMillis, st, a, b);
    } else {
      assert (a + b)[..|a|] == a;
      FeedPrefixFailure(toMillis, st, a + b, |a|);
    }
  }

  /** The loop over two runs of items, when the first run finishes: the loop
      over the second run from where the first stopped. */
  lemma {:induction false} FeedAllContinue(toMillis: ToMillis, st: Scan, a: seq<Value>, b: seq<Value>)
    requires FeedAll(toMillis, st, a).Ok?
    ensures FeedAll(toMillis, st, a + b) == FeedAll(toMillis, FeedAll(toMillis, st, a).value, b)
    decreases |b|
  {
    if b == [] {
      assert a + b == a;
    } else {
      var init, x := b[..|b| - 1], b[|b| - 1];
      var mid := FeedAll(toMillis, st, a).value;
      assert a + b == (a + init) + [x] && b == init + [x];
      assert FeedAll(toMillis, st, a + init) == FeedAll(toMillis, mid, init) by {
        FeedAllContinue(toMillis, st, a, init);
      }
      assert FeedAll(toMillis, st, (a + init) + [x]) == FeedAll(toMillis, mid, init + [x]) by {
        FeedAllSnocSame(toMillis, st, a + init, mid, init, x);
      }
    }
  }

  /** Two loops that stop in the same outcome still agree after one more item. */
  lemma FeedAllSnocSame(toMillis: ToMillis, st1: Scan, items1: seq<Value>, st2: Scan, items2: seq<Value>, x: Value)
    requires FeedAll(toMillis, st1, items1) == FeedAll(toMillis, st2, items2)
    ensures FeedAll(toMillis, st1, items1 + [x]) == FeedAll(toMillis, st2, items2 + [x])
  {
    FeedAllStep(toMillis, st1, items1, x);
    FeedAllStep(toMillis, st2, items2, x);
  }

  /** One more item: the loop so far, then the body once unless it raised. */
  lemma FeedAllStep(toMillis: ToMillis, st: Scan, items: seq<Value>, x: Value)
    ensures FeedAll(toMillis, st, items + [x]) ==
      if FeedAll(toMillis, st, items).Ok? then Feed(toMillis, FeedAll(toMillis, st, items).value, x)
      else FeedAll(toMillis, st, items)
  {
    var all := items + [x];
    assert all[..|all| - 1] == items && all[|all| - 1] == x;
  }

  /** `FeedAllAppend` when the whole loop finishes. */
  lemma FeedAllAppendOk(toMillis: ToMillis, st: Scan, a: seq<Value>, b: seq<Value>)
    requires FeedAll(toMillis, st, a + b).Ok?
    ensures FeedAll(toMillis, st, a).Ok?
    ensures FeedAll(toMillis, st, a + b) == FeedAll(toMillis, FeedAll(toMillis, st, a).value, b)
  {
    FeedAllAppend(toMillis, st, a, b);
  }

  /** Over items with no '.', from a closed sentence, the loop variables hold the
      first word's start, the last word's end and the text built so far, and the
      finished sentences are untouched. */
  lemma {:induction false} OpenSentence(toMillis: ToMillis, st: Scan, items: seq<Value>)
    requires Closed(st)
    requires forall k :: 0 <= k < |items| ==> !IsPeriod(items[k])
    requires FeedAll(toMillis, st, items).Ok?
    ensures var r := FeedAll(toMillis, st, items).value;
      && r.start == FirstStart(items) && r.end == LastEnd(items, Null)
      && r.current == TextOf(items) && r.sentences == st.sentences
    decreases |items|
  {
    if items != [] {
      var init := items[..|items| - 1];
      var x := items[|items| - 1];
      assert items == init + [x];
      OpenSentence(toMillis, st, init);
      OpenStep(toMillis, init, x, FeedAll(toMillis, st, init).value, st.sentences);
    }
  }

  /** One more item, not a '.', on an open sentence. */
  lemma OpenStep(toMillis: ToMillis, init: seq<Value>, x: Value, before: Scan, done: seq<Sentence>)
    requires !IsPeriod(x) && Feed(toMillis, before, x).Ok?
    requires before.start == FirstStart(init) && before.end == LastEnd(init, Null)
    requires before.current == TextOf(init) && before.sentences == done
    ensures var r := Feed(toMillis, before, x).value;
      && r.start == FirstStart(init + [x]) && r.end == LastEnd(init + [x], Null)
      && r.current == TextOf(init + [x]) && r.sentences == done
  {
    FeedOpen(toMillis, before, x);
    FirstStartSnoc(init, x);
    TextOfSnoc(init, x);
    var all := init + [x];
    assert all[..|all| - 1] == init && all[|all| - 1] == x;
  }

  /** The loop over the items and one more: the loop over the items, then one
      pass of the body. */
  lemma FeedAllSnoc(toMillis: ToMillis, st: Scan, items: seq<Value>, x: Value)
    requires FeedAll(toMillis, st, items + [x]).Ok?
    ensures FeedAll(toMillis, st, items).Ok?
    ensures FeedAll(toMillis, st, items + [x]) == Feed(toMillis, FeedAll(toMillis, st, items).value, x)
  {
    var all := items + [x];
    assert all[..|all| - 1] == items && all[|all| - 1] == x;
  }

  /** A sentence, begun from closed loop variables, runs from the start of its
      first timed word to the end of its last word, and its text is the pieces'
      text with the closing ". ", stripped. The sentences before it stay. */
  lemma SentenceSpan(toMillis: ToMillis, st: Scan, items: seq<Value>, period: Value)
    requires Closed(st)
    requires forall k :: 0 <= k < |items| ==> !IsPeriod(items[k])
    requires IsPeriod(period)
    requires FeedAll(toMillis, st, items + [period]).Ok?
    ensures FirstStart(items) != Null && LastEnd(items, Null) != Null
    ensures Millis(toMillis, FirstStart(items)).Ok? && Millis(toMillis, LastEnd(items, Null)).Ok?
    ensures FeedAll(toMillis, st, items + [period]).value == Scan("", Null, Null, st.sentences + [
      Sentence(Strip(TextOf(items) + ". "),
        Millis(toMillis, FirstStart(items)).value, Millis(toMillis, LastEnd(items, Null)).value)])
  {
    FeedAllSnoc(toMillis, st, items, period);
    OpenSentence(toMillis, st, items);
    PeriodCloses(toMillis, FeedAll(toMillis, st, items).value, period);
  }

  /** After the transcript's first items, ending at a '.' (or none), the loop
      variables are closed again. */
  lemma ClosedAfterPeriod(toMillis: ToMillis, done: seq<Value>)
    requires done == [] || IsPeriod(done[|done| - 1])
    requires FeedAll(toMillis, Fresh, done).Ok?
    ensures Closed(FeedAll(toMillis, Fresh, done).value)
  {
    if done != [] {
      var init := done[..|done| - 1];
      PeriodCloses(toMillis, FeedAll(toMillis, Fresh, init).value, done[|done| - 1]);
    }
  }

  /** Every sentence, not just the first: when `done` ends at the k-th '.' (or is
      empty, k = 0), sentence k runs from the first timed word after it to the last
      word before the next '.', with those items' text, and follows the k
      sentences before it. */
  lemma NextSentence(toMillis: ToMillis, done: seq<Value>, items: seq<Value>, period: Value)
    requires done == [] || IsPeriod(done[|done| - 1])
    requires forall k :: 0 <= k < |items| ==> !IsPeriod(items[k])
    requires IsPeriod(period)
    requires FeedAll(toMillis, Fresh, done + items + [period]).Ok?
    ensures FeedAll(toMillis, Fresh, done).Ok?
    ensures Millis(toMillis, FirstStart(items)).Ok? && Millis(toMillis, LastEnd(items, Null)).Ok?
    ensures var k := Periods(done);
      var r := FeedAll(toMillis, Fresh, done + items + [period]).value.sentences;
      && |r| == k + 1
      && r[..k] == FeedAll(toMillis, Fresh, done).value.sentences
      && r[k] == Sentence(Strip(TextOf(items) + ". "),
           Millis(toMillis, FirstStart(items)).value, Millis(toMillis, LastEnd(items, Null)).value)
  {
    var rest := items + [period];
    assert FeedAll(toMillis, Fresh, done).Ok? &&
      FeedAll(toMillis, Fresh, done + items + [period]) ==
      FeedAll(toMillis, FeedAll(toMillis, Fresh, done).value, rest) by {
      assert done + items + [period] == done + rest;
      FeedAllAppendOk(toMillis, Fresh, done, rest);
    }
    var st := FeedAll(toMillis, Fresh, done).value;
    assert |st.sentences| == Periods(done) by {
      SentencePerPeriod(toMillis, Fresh, done);
    }
    assert Closed(st) by {
      ClosedAfterPeriod(toMillis, done);
    }
    SentenceSpan(toMillis, st, items, period);
  }

  /** The kept window: longer than 2 s and at most 10 s. */
  predicate InWindow(s: Sentence) { 2000 < Duration(s) <= 10000 }

  lemma WindowEdges(text: string, start: int)
    ensures !InWindow(Sentence(text, start, start + 2000))
    ensures InWindow(Sentence(text, start, start + 2001))
    ensures InWindow(Sentence(text, start, start + 10000))
    ensures !InWindow(Sentence(text, start, start + 10001))
  {
  }

  /** The selection loop over a prefix of the sentences. */
  function Selected(ss: seq<Sentence>): (r: seq<Sentence>)
    ensures forall s :: s in r <==> s in ss && InWindow(s)
    ensures |r| <= |ss|
  {
    if ss == [] then []
    else Selected(ss[..|ss| - 1]) + (if InWindow(ss[|ss| - 1]) then [ss[|ss| - 1]] else [])
  }

  /** Selection keeps the original order: selecting from two runs of sentences
      is selecting from each in turn. */
  lemma {:induction false} SelectedAppend(a: seq<Sentence>, b: seq<Sentence>)
    ensures Selected(a + b) == Selected(a) + Selected(b)
    decreases |b|
  {
    if b == [] {
      assert a + b == a;
    } else {
      assert (a + b)[..|a + b| - 1] == a + b[..|b| - 1];
      SelectedAppend(a, b[..|b| - 1]);
    }
  }

  /** `source_audio[start:end]` with the positions clamped to the audio. */
  function Slice(audio: Audio, start: int, end: int): (r: Audio)
    ensures |r| <= |audio|
    ensures 0 <= start <= end <= |audio| ==> r == audio[start..end]
  {
    var lo := if start < 0 then 0 else if start > |audio| then |audio| else start;
    var hi := if end < lo then lo else if end > |audio| then |audio| else end;
    audio[lo..hi]
  }

  function SampleName(i: nat): string { NatToString(i) + ".wav" }

  lemma SampleNameInjective(i: nat, j: nat)
    requires SampleName(i) == SampleName(j)
    ensures i == j
  {
    assert SampleName(i) == "" + NatToString(i) + ".wav";
    assert SampleName(j) == "" + NatToString(j) + ".wav";
    CancelAffixes("", NatToString(i), NatToString(j), ".wav");
    NatToStringInjective(i, j);
  }

  /** The export loop over a prefix of the selected sentences: file `<i>.wav`
      holds the audio of the i-th. */
  function Exports(selected: seq<Sentence>, audio: Audio): map<string, Audio>
    decreases |selected|
  {
    if selected == [] then map[]
    else
      var i := |selected| - 1;
      Exports(selected[..i], audio)[SampleName(i) := Slice(audio, selected[i].start, selected[i].end)]
  }

  function SampleNames(n: nat): set<string> {
    set i | 0 <= i < n :: SampleName(i)
  }

  /** The exported files are exactly `0.wav` … `<n-1>.wav`. */
  lemma {:induction false} ExportsKeys(selected: seq<Sentence>, audio: Audio)
    ensures Exports(selected, audio).Keys == SampleNames(|selected|)
    decreases |selected|
  {
    if selected != [] {
      var n := |selected| - 1;
      ExportsKeys(selected[..n], audio);
      assert SampleNames(n + 1) == SampleNames(n) + {SampleName(n)};
    }
  }

  /** File `<i>.wav` is the i-th selected sentence's slice of the audio. */
  lemma {:induction false} ExportsAt(selected: seq<Sentence>, audio: Audio, i: nat)
    requires i < |selected|
    ensures SampleName(i) in Exports(selected, audio)
    ensures Exports(selected, audio)[SampleName(i)] == Slice(audio, selected[i].start, selected[i].end)
    decreases |selected|
  {
    var n := |selected| - 1;
    if i < n {
      if SampleName(i) == SampleName(n) { SampleNameInjective(i, n); }
      ExportsAt(selected[..n], audio, i);
    }
  }

  lemma PrefixInjective(p: string, x: string, y: string)
    requires p + x == p + y
    ensures x == y
  {
    assert x == (p + x)[|p|..];
  }

  /** What the upload loop puts in the object store: each exported file under
      the voice-sample prefix of `bucket`. */
  function Uploads(bucket: string, prefix: string, files: map<string, Audio>, done: set<string>):
    map<(string, string), Audio>
    requires done <= files.Keys
  {
    assert forall f, g | f in done && g in done && prefix + "/" + f == prefix + "/" + g :: f == g by {
      forall f, g | f in done && g in done && prefix + "/" + f == prefix + "/" + g ensures f == g {
        PrefixInjective(prefix + "/", f, g);
      }
    }
    map f | f in done :: (bucket, prefix + "/" + f) := files[f]
  }

  const NoSamplesError := "Voice sample extraction failed. No suitable voice samples found."

  /** The object the handler downloads and decodes: the source file's bucket (the
      third '/'-piece) and key (everything after the third '/'). */
  function SourceLocation(uri: string): Result<(string, string)> {
    var parts := Split(uri, "/");
    if |parts| < 3 then Raise(IndexError) else Ok((parts[2], KeyAfterThirdSlash(uri)))
  }

  /** `job_config['prefix_inputs'] + "/" + job_config['job_name'] + "/" + "voice_samples"`. */
  function SamplesPrefix(jobConfig: Value): Result<string> {
    var inputs :- GetStr(jobConfig, "prefix_inputs");
    var jobName :- GetStr(jobConfig, "job_name");
    Ok(inputs + "/" + jobName + "/" + "voice_samples")
  }

  /** Everything up to the selection: the job object, the decoded source audio
      and the sentences of the transcript. */
  function Extract(
    event: Value, getJob: Value -> Result<Value>, fetch: Value -> Result<Value>,
    loadAudio: (string, string) -> Result<Audio>, toMillis: ToMillis): Result<(Value, Audio, seq<Sentence>)>
  {
    var jobConfig :- Get(event, "job_config");
    var name :- Get(event, "transcription_job_name");
    var result :- TranscriptFile(name, getJob, fetch);
    var uri :- GetSplit(jobConfig, "source_file_s3_uri");
    var location :- SourceLocation(uri);
    var audio :- loadAudio(location.0, location.1);
    var results :- Get(result, "results");
    var itemsValue :- Get(results, "items");
    var items :- Elements(itemsValue);
    var scan :- FeedAll(toMillis, Fresh, items);
    Ok((jobConfig, audio, scan.sentences))
  }

  /** From the selected sentences on: the 400 envelope when there are none,
      otherwise the exports, their uploads and the 200 envelope. */
  function Publish(jobConfig: Value, audio: Audio, selected: seq<Sentence>):
    Result<(Value, map<(string, string), Audio>)>
  {
    if |selected| == 0 then
      Ok((Obj(map[
        "statusCode" := Int(400),
        "source_task" := Str("transcribe"),
        "error" := Str(NoSamplesError),
        "job_config" := jobConfig]), map[]))
    else
      var files := Exports(selected, audio);
      var bucketValue :- Get(jobConfig, "bucket");
      var prefix :- SamplesPrefix(jobConfig);
      var bucket :- if bucketValue.Str? then Ok(bucketValue.s) else Raise(TypeError);
      Ok((Obj(map[
        "statusCode" := Int(200),
        "source_task" := Str("voice_samples"),
        "voice_samples_uri" := Str("s3://" + bucket + "/" + prefix),
        "job_config" := jobConfig]), Uploads(bucket, prefix, files, files.Keys)))
  }

  /** What the handler returns or raises, with what it uploads. */
  function VoiceSamplesSpec(
    event: Value, getJob: Value -> Result<Value>, fetch: Value -> Result<Value>,
    loadAudio: (string, string) -> Result<Audio>, toMillis: ToMillis): Result<(Value, map<(string, string), Audio>)>
  {
    var (jobConfig, audio, sentences) :- Extract(event, getJob, fetch, loadAudio, toMillis);
    Publish(jobConfig, audio, Selected(sentences))
  }

  /** Once a prefix of the items raises, the whole loop raises the same. */
  lemma {:induction false} FeedPrefixFailure(toMillis: ToMillis, st: Scan, items: seq<Value>, k: nat)
    requires k <= |items| && FeedAll(toMillis, st, items[..k]).Raise?
    ensures FeedAll(toMillis, st, items) == FeedAll(toMillis, st, items[..k])
    decreases |items| - k
  {
    if k < |items| {
      var init := items[..|items| - 1];
      assert init[..k] == items[..k];
      FeedPrefixFailure(toMillis, st, init, k);
    } else {
      assert items[..k] == items;
    }
  }

  /** The item loop of `lambda_handler`, statement by statement. */
  method SentencesOf(toMillis: ToMillis, items: seq<Value>) returns (r: Result<seq<Sentence>>)
    ensures FeedAll(toMillis, Fresh, items).Ok? ==> r == Ok(FeedAll(toMillis, Fresh, items).value.sentences)
    ensures FeedAll(toMillis, Fresh, items).Raise? ==> r == Raise(FeedAll(toMillis, Fresh, items).error)
  {
    var current, start, end, sentences := "", Null, Null, [];
    var k := 0;
    while k < |items|
      invariant 0 <= k <= |items|
      invariant FeedAll(toMillis, Fresh, items[..k]) == Ok(Scan(current, start, end, sentences))
    {
      var item := items[k];
      ghost var before := Scan(current, start, end, sentences);
      assert items[..k + 1][..k] == items[..k] && items[..k + 1][k] == item;
      assert FeedAll(toMillis, Fresh, items[..k + 1]) == Feed(toMillis, before, item);
      if Feed(toMillis, before, item).Raise? {
        FeedPrefixFailure(toMillis, Fresh, items, k + 1);
      }
      var kind :- Get(item, "type");
      if kind != Str("punctuation") {
        if start == Null {
          start :- Get(item, "start_time");
        }
        end :- Get(item, "end_time");
      }
      var content :- Content(item);
      if kind != Str("punctuation") {
        current := current + " " + content;
      }
      if kind == Str("punctuation") {
        current := current + content + " ";
      }
      if kind == Str("punctuation") && content == "." {
        var s :- Millis(toMillis, start);
        var e :- Millis(toMillis, end);
        sentences := sentences + [Sentence(Strip(current), s, e)];
        current, start, end := "", Null, Null;
      }
      assert Feed(toMillis, before, item) == Ok(Scan(current, start, end, sentences));
      k := k + 1;
    }
    assert items[..k] == items;
    return Ok(sentences);
  }

  /** The selection loop. */
  method Select(sentences: seq<Sentence>) returns (selected: seq<Sentence>)
    ensures selected == Selected(sentences)
  {
    selected := [];
    var j := 0;
    while j < |sentences|
      invariant 0 <= j <= |sentences|
      invariant selected == Selected(sentences[..j])
    {
      assert sentences[..j + 1][..j] == sentences[..j];
      if 2000 < Duration(sentences[j]) <= 10000 {
        selected := selected + [sentences[j]];
      }
      j := j + 1;
    }
    assert sentences[..j] == sentences;
  }

  /** `lambda_handler`: the item loop, the selection loop, the export loop and the
      upload loop, over files in whatever order the directory walk yields them. */
  method VoiceSamplesHandler(
    event: Value, getJob: Value -> Result<Value>, fetch: Value -> Result<Value>,
    loadAudio: (string, string) -> Result<Audio>, toMillis: ToMillis)
    returns (r: Result<(Value, map<(string, string), Audio>)>)
    ensures r == VoiceSamplesSpec(event, getJob, fetch, loadAudio, toMillis)
  {
    var jobConfig :- Get(event, "job_config");
    var name :- Get(event, "transcription_job_name");
    var result :- TranscriptFile(name, getJob, fetch);
    var uri :- GetSplit(jobConfig, "source_file_s3_uri");
    var location :- SourceLocation(uri);
    var audio :- loadAudio(location.0, location.1);
    var results :- Get(result, "results");
    var itemsValue :- Get(results, "items");
    var items :- Elements(itemsValue);
    var sentences :- SentencesOf(toMillis, items);
    assert Extract(event, getJob, fetch, loadAudio, toMillis) == Ok((jobConfig, audio, sentences));
    var selected := Select(sentences);
    r := PublishSamples(jobConfig, audio, selected);
  }

  /** The export loop: file `<i>.wav` gets the i-th selected sentence's audio. */
  method ExportAll(selected: seq<Sentence>, audio: Audio) returns (files: map<string, Audio>)
    ensures files == Exports(selected, audio)
  {
    files := map[];
    var i := 0;
    while i < |selected|
      invariant 0 <= i <= |selected|
      invariant files == Exports(selected[..i], audio)
    {
      assert selected[..i + 1][..i] == selected[..i] && selected[..i + 1][i] == selected[i];
      files := files[SampleName(i) := Slice(audio, selected[i].start, selected[i].end)];
      i := i + 1;
    }
    assert selected[..i] == selected;
  }

  /** The upload loop, taking the files in whatever order the directory walk
      yields them. */
  method UploadAll(bucket: string, prefix: string, files: map<string, Audio>)
    returns (uploads: map<(string, string), Audio>)
    ensures uploads == Uploads(bucket, prefix, files, files.Keys)
  {
    uploads := map[];
    var remaining := files.Keys;
    while remaining != {}
      invariant remaining <= files.Keys
      invariant uploads == Uploads(bucket, prefix, files, files.Keys - remaining)
      decreases |remaining|
    {
      var f :| f in remaining;
      UploadsAdd(bucket, prefix, files, files.Keys - remaining, f);
      assert files.Keys - (remaining - {f}) == (files.Keys - remaining) + {f};
      uploads := uploads[(bucket, prefix + "/" + f) := files[f]];
      remaining := remaining - {f};
    }
    assert files.Keys - remaining == files.Keys;
  }

  /** The handler from the selection on. */
  method PublishSamples(jobConfig: Value, audio: Audio, selected: seq<Sentence>)
    returns (r: Result<(Value, map<(string, string), Audio>)>)
    ensures r == Publish(jobConfig, audio, selected)
  {
    if |selected| == 0 {
      return Ok((Obj(map[
        "statusCode" := Int(400),
        "source_task" := Str("transcribe"),
        "error" := Str(NoSamplesError),
        "job_config" := jobConfig]), map[]));
    }
    var files := ExportAll(selected, audio);
    var bucketValue :- Get(jobConfig, "bucket");
    var prefix :- SamplesPrefix(jobConfig);
    var bucket :- if bucketValue.Str? then Ok(bucketValue.s) else Raise(TypeError);
    var uploads := UploadAll(bucket, prefix, files);
    return Ok((Obj(map[
      "statusCode" := Int(200),
      "source_task" := Str("voice_samples"),
      "voice_samples_uri" := Str("s3://" + bucket + "/" + prefix),
      "job_config" := jobConfig]), uploads));
  }

  /** Uploading one more file adds exactly its key. */
  lemma UploadsAdd(bucket: string, prefix: string, files: map<string, Audio>, done: set<string>, f: string)
    requires done <= files.Keys && f in files && f !in done
    ensures (bucket, prefix + "/" + f) !in Uploads(bucket, prefix, files, done)
    ensures Uploads(bucket, prefix, files, done + {f}) ==
      Uploads(bucket, prefix, files, done)[(bucket, prefix + "/" + f) := files[f]]
  {
    var key := (bucket, prefix + "/" + f);
    if key in Uploads(bucket, prefix, files, done) {
      var g :| g in done && (bucket, prefix + "/" + g) == key;
      PrefixInjective(prefix + "/", g, f);
    }
  }

  /** Each file is stored under the prefix with its own name. */
  lemma UploadsAt(bucket: string, prefix: string, files: map<string, Audio>, done: set<string>, f: string)
    requires done <= files.Keys && f in done
    ensures (bucket, prefix + "/" + f) in Uploads(bucket, prefix, files, done)
    ensures Uploads(bucket, prefix, files, done)[(bucket, prefix + "/" + f)] == files[f]
  {
    forall g | g in done && prefix + "/" + g == prefix + "/" + f ensures g == f {
      PrefixInjective(prefix + "/", g, f);
    }
  }

  /** One upload per file. */
  lemma {:induction false} UploadsSize(bucket: string, prefix: string, files: map<string, Audio>, done: set<string>)
    requires done <= files.Keys
    ensures |Uploads(bucket, prefix, files, done)| == |done|
    decreases |done|
  {
    if done != {} {
      var f :| f in done;
      var rest := done - {f};
      UploadsSize(bucket, prefix, files, rest);
      UploadsAdd(bucket, prefix, files, rest, f);
      assert rest + {f} == done;
    }
  }

  lemma {:induction false} SampleNamesSize(n: nat)
    ensures |SampleNames(n)| == n
  {
    if n > 0 {
      SampleNamesSize(n - 1);
      SampleNamesSnoc(n - 1);
    }
  }

  /** One more index adds one new name. */
  lemma SampleNamesSnoc(n: nat)
    ensures SampleNames(n + 1) == SampleNames(n) + {SampleName(n)}
    ensures SampleName(n) !in SampleNames(n)
  {
    if SampleName(n) in SampleNames(n) {
      var i :| 0 <= i < n && SampleName(i) == SampleName(n);
      SampleNameInjective(i, n);
    }
  }

  /** One upload per kept sentence, and the i-th kept sentence's audio is stored
      as `<prefix>/<i>.wav` in the bucket. */
  lemma UploadsOfExports(bucket: string, prefix: string, selected: seq<Sentence>, audio: Audio)
    ensures var files := Exports(selected, audio);
      var up := Uploads(bucket, prefix, files, files.Keys);
      && |up| == |selected|
      && forall i :: 0 <= i < |selected| ==>
           (bucket, prefix + "/" + SampleName(i)) in up &&
           up[(bucket, prefix + "/" + SampleName(i))] == Slice(audio, selected[i].start, selected[i].end)
  {
    var files := Exports(selected, audio);
    ExportsKeys(selected, audio);
    SampleNamesSize(|selected|);
    UploadsSize(bucket, prefix, files, files.Keys);
    forall i | 0 <= i < |selected|
      ensures (bucket, prefix + "/" + SampleName(i)) in Uploads(bucket, prefix, files, files.Keys)
      ensures Uploads(bucket, prefix, files, files.Keys)[(bucket, prefix + "/" + SampleName(i))]
        == Slice(audio, selected[i].start, selected[i].end)
    {
      ExportsAt(selected, audio, i);
      UploadsAt(bucket, prefix, files, files.Keys, SampleName(i));
    }
  }

  /** The outcome: 400 with source_task "transcribe" and nothing uploaded exactly
      when no sentence falls in the window; otherwise 200 with the prefix URI, one
      upload per kept sentence, and sample `<i>.wav` under the prefix holds the
      i-th kept sentence's audio. */
  lemma PublishOutcome(jobConfig: Value, audio: Audio, selected: seq<Sentence>)
    requires Publish(jobConfig, audio, selected).Ok?
    ensures var (out, uploads) := Publish(jobConfig, audio, selected).value;
      && out.Obj? && out.fields["job_config"] == jobConfig
      && (out.fields["statusCode"] == Int(400) <==> selected == [])
      && (selected == [] ==>
            out.fields["source_task"] == Str("transcribe") && "voice_samples_uri" !in out.fields
            && uploads == map[])
      && (selected != [] ==>
            var bucket := jobConfig.fields["bucket"].s;
            var prefix := jobConfig.fields["prefix_inputs"].s + "/" + jobConfig.fields["job_name"].s + "/voice_samples";
            && out.fields["source_task"] == Str("voice_samples")
            && out.fields["voice_samples_uri"] == Str("s3://" + bucket + "/" + prefix)
            && |uploads| == |selected|
            && forall i :: 0 <= i < |selected| ==>
                 (bucket, prefix + "/" + SampleName(i)) in uploads &&
                 uploads[(bucket, prefix + "/" + SampleName(i))] ==
                   Slice(audio, selected[i].start, selected[i].end))
  {
    if selected != [] {
      PublishSamplesOutcome(jobConfig, audio, selected);
    }
  }

  /** The success branch of `PublishOutcome`. */
  lemma PublishSamplesOutcome(jobConfig: Value, audio: Audio, selected: seq<Sentence>)
    requires Publish(jobConfig, audio, selected).Ok? && selected != []
    ensures var (out, uploads) := Publish(jobConfig, audio, selected).value;
      var bucket := jobConfig.fields["bucket"].s;
      var prefix := jobConfig.fields["prefix_inputs"].s + "/" + jobConfig.fields["job_name"].s + "/voice_samples";
      && out.Obj? && out.fields["job_config"] == jobConfig && out.fields["statusCode"] == Int(200)
      && out.fields["source_task"] == Str("voice_samples")
      && out.fields["voice_samples_uri"] == Str("s3://" + bucket + "/" + prefix)
      && |uploads| == |selected|
      && forall i :: 0 <= i < |selected| ==>
           (bucket, prefix + "/" + SampleName(i)) in uploads &&
           uploads[(bucket, prefix + "/" + SampleName(i))] ==
             Slice(audio, selected[i].start, selected[i].end)
  {
    var bucket := jobConfig.fields["bucket"].s;
    var prefix := SamplesPrefix(jobConfig).value;
    var files := Exports(selected, audio);
    SamplesPrefixIs(jobConfig);
    assert Publish(jobConfig, audio, selected).value == (Obj(map[
        "statusCode" := Int(200),
        "source_task" := Str("voice_samples"),
        "voice_samples_uri" := Str("s3://" + bucket + "/" + prefix),
        "job_config" := jobConfig]), Uploads(bucket, prefix, files, files.Keys));
    UploadsOfExports(bucket, prefix, selected, audio);
  }

  /** The samples prefix is `prefix_inputs/job_name/voice_samples`. */
  lemma SamplesPrefixIs(jobConfig: Value)
    requires SamplesPrefix(jobConfig).Ok?
    ensures SamplesPrefix(jobConfig).value ==
      jobConfig.fields["prefix_inputs"].s + "/" + jobConfig.fields["job_name"].s + "/voice_samples"
  {
    var a, b := jobConfig.fields["prefix_inputs"].s, jobConfig.fields["job_name"].s;
    AppendAssoc(a + "/" + b, "/", "voice_samples");
  }
}
