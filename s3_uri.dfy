/** The object-store locator helpers: `parse_s3_uri` (the same three lines in the
    poll_tts, invoke_retalking and poll_retalking handlers), the
    `"/".join(uri.split("/")[3:])` key expression of invoke_tts and voice_samples,
    and the `get_bucket` / `get_key` / `get_object_name` methods of the lip-sync
    endpoint's inference handler. */
module S3Uri {
  import opened Values
  import opened Strs

  /** `parts = uri.split('/', 3)`; `(parts[2], parts[3])`. Fewer than three '/'
      leave one of the two indices out of range. */
  function ParseS3Uri(uri: string): (r: Result<(string, string)>)
  {
    match SplitOnce(uri, "/")
    case None => Raise(IndexError)
    case Some((_, r0)) =>
      match SplitOnce(r0, "/")
      case None => Raise(IndexError)
      case Some((_, r1)) =>
        match SplitOnce(r1, "/")
        case None => Raise(IndexError)
        case Some((bucket, key)) => Ok((bucket, key))
  }

  /** `parse_s3_uri` agrees with a full split on '/': it succeeds exactly when there
      are at least four pieces, the bucket is the third and the key is the rest
      joined back together. */
  lemma ParseS3UriIsSplit(uri: string)
    ensures var parts := Split(uri, "/");
      && (ParseS3Uri(uri).Ok? <==> |parts| >= 4)
      && (ParseS3Uri(uri).Ok? ==> ParseS3Uri(uri).value == (parts[2], Join(parts[3..], "/")))
  {
    if ParseS3Uri(uri).Ok? {
      ParseS3UriOkSplit(uri);
    } else {
      ParseS3UriRaiseSplit(uri);
    }
  }

  lemma ParseS3UriOkSplit(uri: string)
    requires ParseS3Uri(uri).Ok?
    ensures var parts := Split(uri, "/");
      |parts| >= 4 && ParseS3Uri(uri).value == (parts[2], Join(parts[3..], "/"))
  {
    var (p0, r0) := SplitOnce(uri, "/").value;
    var (p1, r1) := SplitOnce(r0, "/").value;
    var (p2, key) := SplitOnce(r1, "/").value;
    SplitStep(uri, p0, r0);
    SplitStep(r0, p1, r1);
    SplitStep(r1, p2, key);
    assert ParseS3Uri(uri) == Ok((p2, key));
    var parts := Split(uri, "/");
    var tail := Split(key, "/");
    assert parts == [p0] + ([p1] + ([p2] + tail));
    DropThree(p0, p1, p2, tail);
    JoinSplit(key, "/");
  }

  lemma ParseS3UriRaiseSplit(uri: string)
    requires ParseS3Uri(uri).Raise?
    ensures |Split(uri, "/")| < 4
  {
    if SplitOnce(uri, "/").None? {
      SplitStop(uri);
    } else {
      var (p0, r0) := SplitOnce(uri, "/").value;
      SplitStep(uri, p0, r0);
      if SplitOnce(r0, "/").None? {
        SplitStop(r0);
      } else {
        var (p1, r1) := SplitOnce(r0, "/").value;
        SplitStep(r0, p1, r1);
        SplitStop(r1);
      }
    }
  }

  lemma DropThree<T>(x: T, y: T, z: T, tail: seq<T>)
    ensures var s := [x] + ([y] + ([z] + tail)); |s| >= 3 && s[2] == z && s[3..] == tail
  {
    var s := [x] + ([y] + ([z] + tail));
    assert s == [x, y, z] + tail;
  }

  lemma SplitStep(s: string, a: string, b: string)
    requires SplitOnce(s, "/") == Some((a, b))
    ensures Split(s, "/") == [a] + Split(b, "/")
  {
    SplitOnceStep(s, "/", a, b);
  }

  lemma SplitOnceStep(s: string, sep: string, a: string, b: string)
    requires |sep| > 0 && SplitOnce(s, sep) == Some((a, b))
    ensures Split(s, sep) == [a] + Split(b, sep)
  {
    SplitUnfold(s, sep);
  }

  lemma SplitStop(s: string)
    requires SplitOnce(s, "/").None?
    ensures Split(s, "/") == [s]
  {
    SplitUnfold(s, "/");
  }

  /** The bucket never contains '/'. */
  lemma ParseS3UriBucketFree(uri: string)
    requires ParseS3Uri(uri).Ok?
    ensures '/' !in ParseS3Uri(uri).value.0
  {
    ParseS3UriIsSplit(uri);
    SplitPiecesFreeChar(uri, '/');
    assert Split(uri, "/")[2] in Split(uri, "/");
  }

  /** `parse_s3_uri("s3://" + b + "/" + k) == (b, k)` for a bucket without '/';
      the key may itself contain '/'. */
  lemma ParseS3UriRoundTrip(b: string, k: string)
    requires '/' !in b
    ensures ParseS3Uri("s3://" + b + "/" + k) == Ok((b, k))
  {
    var uri := "s3://" + b + "/" + k;
    assert uri == "s3:" + ['/'] + ("" + ['/'] + (b + ['/'] + k));
    FirstChar("s3:", '/', "" + ['/'] + (b + ['/'] + k));
    FirstChar("", '/', b + ['/'] + k);
    FirstChar(b, '/', k);
  }

  /** `"/".join(uri.split("/")[3:])`: everything after the third '/', or the empty
      string when there are fewer than three. */
  function KeyAfterThirdSlash(uri: string): string
  {
    var parts := Split(uri, "/");
    if |parts| <= 3 then "" else Join(parts[3..], "/")
  }

  /** `parse_s3_uri(v[field])`. */
  function ParseField(v: Value, field: string): Result<(string, string)> {
    var uri :- GetSplit(v, field);
    ParseS3Uri(uri)
  }

  /** Where `parse_s3_uri` succeeds, the key expression gives the same key. */
  lemma KeyAfterThirdSlashAgrees(uri: string)
    requires ParseS3Uri(uri).Ok?
    ensures KeyAfterThirdSlash(uri) == ParseS3Uri(uri).value.1
  {
    ParseS3UriIsSplit(uri);
  }

  /** `get_bucket`: `uri.split('//')[1].split('/')[0]`. */
  function GetBucket(uri: string): Result<string>
  {
    var parts := Split(uri, "//");
    if |parts| < 2 then Raise(IndexError) else Ok(Split(parts[1], "/")[0])
  }

  /** `get_key`: `'/'.join(uri.split('//')[1].split('/')[1:])`. */
  function GetKey(uri: string): Result<string>
  {
    var parts := Split(uri, "//");
    if |parts| < 2 then Raise(IndexError) else Ok(Join(Split(parts[1], "/")[1..], "/"))
  }

  /** `get_object_name`: `uri.split('/')[-1]`. */
  function GetObjectName(uri: string): string
  {
    Last(Split(uri, "/"))
  }

  /** `s` is the first occurrence of `sub` at `i`. */
  lemma FirstOccurrence(s: string, sub: string, i: nat)
    requires |sub| > 0 && OccursAt(s, sub, i)
    requires forall j :: 0 <= j < i ==> !OccursAt(s, sub, j)
    ensures IndexOf(s, sub) == Some(i)
    ensures SplitOnce(s, sub) == Some((s[..i], s[i + |sub|..]))
  {
  }

  /** A bucket without '/' followed by "/" and a key gives a string without "//"
      when "/" + key has none. */
  lemma NoDoubleSlash(b: string, k: string)
    requires '/' !in b && !Contains("/" + k, "//")
    ensures !Contains(b + "/" + k, "//")
  {
    var s := b + "/" + k;
    forall j ensures !OccursAt(s, "//", j) {
      if 0 <= j && j + 2 <= |s| {
        if j < |b| {
          assert s[j] == b[j];
          assert s[j..j + 2][0] == s[j];
        } else {
          assert s[j..j + 2] == ("/" + k)[j - |b|..j - |b| + 2];
          assert !OccursAt("/" + k, "//", j - |b|);
        }
      }
    }
  }

  /** `get_bucket` and `get_key` give back `b` and `k` from `"s3://" + b + "/" + k`
      when `b` has no '/' and `"/" + k` has no "//". */
  lemma GetBucketKeyRoundTrip(b: string, k: string)
    requires '/' !in b && !Contains("/" + k, "//")
    ensures GetBucket("s3://" + b + "/" + k) == Ok(b)
    ensures GetKey("s3://" + b + "/" + k) == Ok(k)
  {
    var uri := "s3://" + b + "/" + k;
    var rest := b + "/" + k;
    assert uri == "s3:" + "//" + rest;
    assert OccursAt(uri, "//", 3) by { assert uri[3..5] == "//"; }
    forall j | 0 <= j < 3 ensures !OccursAt(uri, "//", j) {
      assert uri[j..j + 2][0] == uri[j];
    }
    FirstOccurrence(uri, "//", 3);
    assert uri[..3] == "s3:" && uri[5..] == rest;
    NoDoubleSlash(b, k);
    SplitUnfold(uri, "//");
    SplitUnfold(rest, "//");
    assert Split(uri, "//") == ["s3:", rest];
    assert rest == b + ['/'] + k;
    FirstChar(b, '/', k);
    SplitUnfold(rest, "/");
    assert Split(rest, "/") == [b] + Split(k, "/");
    assert Split(rest, "/")[1..] == Split(k, "/");
    JoinSplit(k, "/");
  }

  /** In `b + "/" + a + "//" + c`, with no '/' in `b` or in the non-empty `a`,
      the first "//" follows `a`. */
  lemma FirstDoubleSlashAfter(b: string, a: string, c: string)
    requires '/' !in b && '/' !in a && |a| > 0
    ensures SplitOnce(b + "/" + a + "//" + c, "//") == Some((b + "/" + a, c))
  {
    var x := b + "/" + a;
    var s := x + "//" + c;
    assert s[|x|..|x| + 2] == "//";
    forall j | 0 <= j < |x| ensures !OccursAt(s, "//", j) {
      if j < |b| {
        assert s[j] == b[j];
        assert s[j..j + 2][0] == s[j];
      } else if j == |b| {
        assert s[j + 1] == a[0];
        assert s[j..j + 2][1] == s[j + 1];
      } else {
        assert s[j] == a[j - |b| - 1];
        assert s[j..j + 2][0] == s[j];
      }
    }
    FirstOccurrence(s, "//", |x|);
    assert s[..|x|] == x && s[|x| + 2..] == c;
  }

  /** The first "//" of `"s3://" + rest` is the scheme's. */
  lemma AfterScheme(rest: string)
    ensures SplitOnce("s3://" + rest, "//") == Some(("s3:", rest))
  {
    var uri := "s3://" + rest;
    assert OccursAt(uri, "//", 3) by { assert uri[3..5] == "//"; }
    forall j | 0 <= j < 3 ensures !OccursAt(uri, "//", j) {
      assert uri[j..j + 2][0] == uri[j];
    }
    FirstOccurrence(uri, "//", 3);
    assert uri[..3] == "s3:" && uri[5..] == rest;
  }

  /** `get_key` keeps only the text up to a second "//": from
      `"s3://" + b + "/" + a + "//" + c` it returns `a` and loses `"//" + c`. */
  lemma GetKeyDropsAfterDoubleSlash(b: string, a: string, c: string)
    requires '/' !in b && '/' !in a && |a| > 0
    ensures GetKey("s3://" + b + "/" + a + "//" + c) == Ok(a)
    ensures GetBucket("s3://" + b + "/" + a + "//" + c) == Ok(b)
  {
    var x := b + "/" + a;
    var rest := x + "//" + c;
    var uri := "s3://" + b + "/" + a + "//" + c;
    assert uri == "s3://" + rest;
    AfterScheme(rest);
    FirstDoubleSlashAfter(b, a, c);
    SplitOnceStep(uri, "//", "s3:", rest);
    SplitOnceStep(rest, "//", x, c);
    var parts := Split(uri, "//");
    assert parts == ["s3:"] + ([x] + Split(c, "//"));
    assert parts[1] == x;
    assert x == b + ['/'] + a;
    FirstChar(b, '/', a);
    SplitOnceStep(x, "/", b, a);
    NoCharNoSplit(a, '/');
    var pieces := Split(x, "/");
    assert pieces == [b] + [a];
    assert pieces[1..] == [a];
  }

  /** An instance of `GetKeyDropsAfterDoubleSlash`: the key "a//b.mp4" comes back as "a". */
  lemma GetKeyDropsExample()
    ensures GetKey("s3://bucket/a//b.mp4") == Ok("a")
    ensures GetBucket("s3://bucket/a//b.mp4") == Ok("bucket")
  {
    assert "s3://bucket/a//b.mp4" == "s3://" + "bucket" + "/" + "a" + "//" + "b.mp4";
    GetKeyDropsAfterDoubleSlash("bucket", "a", "b.mp4");
  }

  /** `get_object_name` is the text after the last '/': free of '/', a suffix of
      the URI, and preceded by '/' unless it is the whole URI. */
  lemma GetObjectNameIsLastComponent(uri: string)
    ensures var name := GetObjectName(uri);
      '/' !in name && |name| <= |uri| && uri[|uri| - |name|..] == name &&
      (|name| == |uri| || uri[|uri| - |name| - 1] == '/')
  {
    LastPiece(uri, '/');
  }
}
