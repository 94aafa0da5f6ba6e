/** The string operations of Python that the pipeline relies on: `in`, `split`,
    `join`, `replace`, `strip`, `startswith`, `str()` of an integer and
    `os.path.join`. Each is defined once here and related to the others by lemmas. */
module Strs {
  import opened Values

  /** `sub` occurs in `s` starting at index `j`. */
  predicate OccursAt(s: string, sub: string, j: int) {
    0 <= j && j + |sub| <= |s| && s[j..j + |sub|] == sub
  }

  lemma OccursAtShift(s: string, sub: string, j: int)
    requires |s| > 0 && j >= 0
    ensures OccursAt(s, sub, j + 1) <==> OccursAt(s[1..], sub, j)
  {
    if j + 1 + |sub| <= |s| {
      assert s[j + 1..j + 1 + |sub|] == s[1..][j..j + |sub|];
    }
  }

  /** Index of the first occurrence of a non-empty `sub` in `s`. */
  function IndexOf(s: string, sub: string): (r: Option<nat>)
    requires |sub| > 0
    ensures r.Some? ==> OccursAt(s, sub, r.value)
    ensures r.Some? ==> forall j :: 0 <= j < r.value ==> !OccursAt(s, sub, j)
    ensures r.None? ==> forall j :: !OccursAt(s, sub, j)
    decreases |s|
  {
    if |s| < |sub| then None
    else if s[..|sub|] == sub then Some(0)
    else
      var rest := IndexOf(s[1..], sub);
      assert !OccursAt(s, sub, 0);
      match rest
      case None =>
        assert forall j :: !OccursAt(s, sub, j) by {
          forall j | j >= 1 ensures !OccursAt(s, sub, j) { OccursAtShift(s, sub, j - 1); }
        }
        None
      case Some(i) =>
        OccursAtShift(s, sub, i);
        assert forall j :: 0 <= j < i + 1 ==> !OccursAt(s, sub, j) by {
          forall j | 1 <= j < i + 1 ensures !OccursAt(s, sub, j) { OccursAtShift(s, sub, j - 1); }
        }
        Some(i + 1)
  }

  /** `sub in s` for a non-empty `sub`. */
  predicate Contains(s: string, sub: string)
    requires |sub| > 0
  {
    IndexOf(s, sub).Some?
  }

  lemma ContainsIff(s: string, sub: string)
    requires |sub| > 0
    ensures Contains(s, sub) <==> exists j :: OccursAt(s, sub, j)
  {
  }

  /** `s.startswith(prefix)`. */
  predicate StartsWith(s: string, prefix: string) {
    |prefix| <= |s| && s[..|prefix|] == prefix
  }

  /** `s.split(sep)` for a non-empty separator: the pieces between the
      non-overlapping occurrences of `sep`, found from the left. */
  function Split(s: string, sep: string): (parts: seq<string>)
    requires |sep| > 0
    ensures |parts| >= 1
    decreases |s|
  {
    match IndexOf(s, sep)
    case None => [s]
    case Some(i) => [s[..i]] + Split(s[i + |sep|..], sep)
  }

  /** `sep.join(parts)`. */
  function Join(parts: seq<string>, sep: string): string
  {
    if |parts| == 0 then ""
    else if |parts| == 1 then parts[0]
    else parts[0] + sep + Join(parts[1..], sep)
  }

  function Last(parts: seq<string>): string
    requires |parts| > 0
  {
    parts[|parts| - 1]
  }

  /** `s.split(sep, 1)` when `sep` occurs: the text before and after its first occurrence. */
  function SplitOnce(s: string, sep: string): (r: Option<(string, string)>)
    requires |sep| > 0
    ensures r.Some? ==> s == r.value.0 + sep + r.value.1
  {
    match IndexOf(s, sep)
    case None => None
    case Some(i) =>
      assert s == s[..i] + sep + s[i + |sep|..];
      Some((s[..i], s[i + |sep|..]))
  }

  /** The text before the first separator holds no separator; there is no split
      exactly when the separator does not occur. */
  lemma SplitOnceHeadFree(s: string, sep: string)
    requires |sep| > 0
    ensures SplitOnce(s, sep).Some? ==> !Contains(SplitOnce(s, sep).value.0, sep)
    ensures SplitOnce(s, sep).None? <==> !Contains(s, sep)
  {
    match IndexOf(s, sep)
    case None =>
    case Some(i) =>
      forall j ensures !OccursAt(s[..i], sep, j) {
        if 0 <= j && j + |sep| <= i {
          assert s[..i][j..j + |sep|] == s[j..j + |sep|];
          assert !OccursAt(s, sep, j);
        }
      }
  }

  lemma SplitUnfold(s: string, sep: string)
    requires |sep| > 0
    ensures SplitOnce(s, sep).None? ==> Split(s, sep) == [s]
    ensures SplitOnce(s, sep).Some? ==>
      Split(s, sep) == [SplitOnce(s, sep).value.0] + Split(SplitOnce(s, sep).value.1, sep)
  {
  }

  /** Joining the pieces of a split with the separator gives back the string. */
  lemma {:induction false} JoinSplit(s: string, sep: string)
    requires |sep| > 0
    ensures Join(Split(s, sep), sep) == s
    decreases |s|
  {
    SplitUnfold(s, sep);
    match SplitOnce(s, sep)
    case None =>
    case Some((before, after)) =>
      JoinSplit(after, sep);
      var parts := Split(s, sep);
      assert parts[0] == before && parts[1..] == Split(after, sep);
  }

  /** No piece of a split contains the separator. */
  lemma {:induction false} SplitPiecesFree(s: string, sep: string)
    requires |sep| > 0
    ensures forall p :: p in Split(s, sep) ==> !Contains(p, sep)
    decreases |s|
  {
    SplitUnfold(s, sep);
    SplitOnceHeadFree(s, sep);
    match SplitOnce(s, sep)
    case None =>
    case Some((before, after)) =>
      SplitPiecesFree(after, sep);
  }

  /** For a one-character separator, no piece contains that character. */
  lemma SplitPiecesFreeChar(s: string, c: char)
    ensures forall p :: p in Split(s, [c]) ==> c !in p
  {
    SplitPiecesFree(s, [c]);
    forall p | p in Split(s, [c]) ensures c !in p {
      forall j | 0 <= j < |p| ensures p[j] != c {
        assert p[j..j + 1] == [p[j]];
        assert !OccursAt(p, [c], j);
      }
    }
  }

  /** The first occurrence of `c` in `a + [c] + b` is at `|a|` when `a` lacks `c`. */
  lemma FirstChar(a: string, c: char, b: string)
    requires c !in a
    ensures IndexOf(a + [c] + b, [c]) == Some(|a|)
    ensures SplitOnce(a + [c] + b, [c]) == Some((a, b))
  {
    var s := a + [c] + b;
    assert OccursAt(s, [c], |a|);
    forall j | 0 <= j < |a| ensures !OccursAt(s, [c], j) {
      assert s[j] == a[j];
    }
    assert s[..|a|] == a;
    assert s[|a| + 1..] == b;
  }

  /** A string holding `c` is the text before its first `c`, `c`, and the rest. */
  lemma FirstCharOf(s: string, c: char) returns (a: string, b: string)
    requires c in s
    ensures s == a + [c] + b && c !in a
    ensures Split(s, [c]) == [a] + Split(b, [c])
  {
    var i :| 0 <= i < |s| && s[i] == c && forall j :: 0 <= j < i ==> s[j] != c by {
      var k :| 0 <= k < |s| && s[k] == c;
      FirstIndexOfChar(s, c, k);
    }
    a, b := s[..i], s[i + 1..];
    assert s == a + [c] + b;
    FirstChar(a, c, b);
    SplitUnfold(s, [c]);
  }

  lemma {:induction false} FirstIndexOfChar(s: string, c: char, k: nat)
    requires k < |s| && s[k] == c
    ensures exists i :: 0 <= i < |s| && s[i] == c && forall j :: 0 <= j < i ==> s[j] != c
    decreases k
  {
    if exists j :: 0 <= j < k && s[j] == c {
      var j :| 0 <= j < k && s[j] == c;
      FirstIndexOfChar(s, c, j);
    } else {
      assert forall j :: 0 <= j < k ==> s[j] != c;
    }
  }

  lemma NoCharNoSplit(s: string, c: char)
    requires c !in s
    ensures Split(s, [c]) == [s]
  {
    forall j ensures !OccursAt(s, [c], j) {
      if 0 <= j < |s| {
        assert s[j..j + 1] == [s[j]];
      }
    }
  }

  lemma JoinCons(p: string, parts: seq<string>, sep: string)
    requires |parts| > 0
    ensures Join([p] + parts, sep) == p + sep + Join(parts, sep)
  {
    assert ([p] + parts)[1..] == parts;
  }

  /** Joining with a separator again after appending one more piece. */
  lemma {:induction false} JoinSnoc(parts: seq<string>, p: string, sep: string)
    requires |parts| > 0
    ensures Join(parts + [p], sep) == Join(parts, sep) + sep + p
    decreases |parts|
  {
    if |parts| == 1 {
    } else {
      assert (parts + [p])[1..] == parts[1..] + [p];
      JoinSnoc(parts[1..], p, sep);
    }
  }

  /** The last piece of a split on a character is a suffix of the string, free of
      the character and preceded by it unless it is the whole string. */
  lemma LastPiece(s: string, c: char)
    ensures var l := Last(Split(s, [c]));
      c !in l && |l| <= |s| && s[|s| - |l|..] == l &&
      (|l| == |s| || s[|s| - |l| - 1] == c)
  {
    var parts := Split(s, [c]);
    var l := Last(parts);
    SplitPiecesFreeChar(s, c);
    JoinSplit(s, [c]);
    if |parts| > 1 {
      var init := parts[..|parts| - 1];
      assert parts == init + [l];
      JoinSnoc(init, l, [c]);
      assert s == Join(init, [c]) + [c] + l;
    }
  }

  /** Python's whitespace test (`str.isspace`) on one character. */
  predicate IsSpace(c: char) {
    c == ' ' || ('\t' <= c <= '\r') || ('\U{1c}' <= c <= '\U{1f}') || c == '\U{85}' || c == '\U{a0}'
    || c == '\U{1680}' || ('\U{2000}' <= c <= '\U{200a}') || c == '\U{2028}' || c == '\U{2029}'
    || c == '\U{202f}' || c == '\U{205f}' || c == '\U{3000}'
  }

  function TrimLeft(s: string): string
    decreases |s|
  {
    if |s| > 0 && IsSpace(s[0]) then TrimLeft(s[1..]) else s
  }

  function TrimRight(s: string): string
    decreases |s|
  {
    if |s| > 0 && IsSpace(s[|s| - 1]) then TrimRight(s[..|s| - 1]) else s
  }

  /** `TrimLeft` removes exactly the leading whitespace: what it drops is all
      whitespace, and what is left is a suffix that is empty or starts with a
      non-space. */
  lemma {:induction false} TrimLeftDrops(s: string)
    ensures var r := TrimLeft(s);
      && |r| <= |s| && r == s[|s| - |r|..]
      && (r == [] || !IsSpace(r[0]))
      && forall i :: 0 <= i < |s| - |r| ==> IsSpace(s[i])
    decreases |s|
  {
    if |s| > 0 && IsSpace(s[0]) {
      TrimLeftDrops(s[1..]);
    }
  }

  /** `TrimRight` removes exactly the trailing whitespace: what it drops is all
      whitespace, and what is left is a prefix that is empty or ends with a
      non-space. */
  lemma {:induction false} TrimRightDrops(s: string)
    ensures var r := TrimRight(s);
      && |r| <= |s| && r == s[..|r|]
      && (r == [] || !IsSpace(r[|r| - 1]))
      && forall i :: |r| <= i < |s| ==> IsSpace(s[i])
    decreases |s|
  {
    if |s| > 0 && IsSpace(s[|s| - 1]) {
      TrimRightDrops(s[..|s| - 1]);
    }
  }

  /** `s.strip()`: the string without its leading and trailing whitespace. */
  function Strip(s: string): string
  {
    TrimRight(TrimLeft(s))
  }

  /** `s.replace(pat, rep)` for a non-empty pattern: every occurrence, found left to
      right without overlap, is replaced. */
  function Replace(s: string, pat: string, rep: string): string
    requires |pat| > 0
    decreases |s|
  {
    if |s| == 0 then ""
    else if OccursAt(s, pat, 0) then rep + Replace(s[|pat|..], pat, rep)
    else [s[0]] + Replace(s[1..], pat, rep)
  }

  /** A prefix in which no occurrence of the pattern starts is copied unchanged. */
  lemma {:induction false} ReplaceUpTo(s: string, pat: string, rep: string, i: nat)
    requires |pat| > 0 && i <= |s|
    requires forall j :: 0 <= j < i ==> !OccursAt(s, pat, j)
    ensures Replace(s, pat, rep) == s[..i] + Replace(s[i..], pat, rep)
    decreases i
  {
    if i == 0 {
      assert s[..0] + s[0..] == s;
    } else {
      var t := s[1..];
      assert Replace(s, pat, rep) == [s[0]] + Replace(t, pat, rep);
      forall j | 0 <= j < i - 1 ensures !OccursAt(t, pat, j) {
        OccursAtShift(s, pat, j);
      }
      ReplaceUpTo(t, pat, rep, i - 1);
      assert t[i - 1..] == s[i..];
      assert [s[0]] + t[..i - 1] == s[..i];
    }
  }

  /** Replacing is joining the pieces of the split with the replacement. */
  lemma {:induction false} ReplaceIsJoinSplit(s: string, pat: string, rep: string)
    requires |pat| > 0
    ensures Replace(s, pat, rep) == Join(Split(s, pat), rep)
    decreases |s|
  {
    match IndexOf(s, pat)
    case None =>
      ReplaceUpTo(s, pat, rep, |s|);
      assert s[..|s|] == s && s[|s|..] == "";
    case Some(i) =>
      var rest := s[i + |pat|..];
      var pieces := Split(rest, pat);
      ReplaceUpTo(s, pat, rep, i);
      ReplaceAtStart(s[i..], pat, rep);
      assert s[i..][|pat|..] == rest;
      ReplaceIsJoinSplit(rest, pat, rep);
      assert Split(s, pat) == [s[..i]] + pieces;
      JoinCons(s[..i], pieces, rep);
      AppendAssoc(s[..i], rep, Join(pieces, rep));
  }

  /** A text that starts with the pattern is the replacement, then the rest replaced. */
  lemma ReplaceAtStart(s: string, pat: string, rep: string)
    requires |pat| > 0 && StartsWith(s, pat)
    ensures Replace(s, pat, rep) == rep + Replace(s[|pat|..], pat, rep)
  {
    assert OccursAt(s, pat, 0);
  }

  /** Text without the pattern is returned unchanged by a replace. */
  lemma ReplaceAbsent(s: string, pat: string, rep: string)
    requires |pat| > 0 && !Contains(s, pat)
    ensures Replace(s, pat, rep) == s
  {
    ReplaceIsJoinSplit(s, pat, rep);
  }

  function DigitChar(d: nat): char
    requires d < 10
  {
    (48 + d) as char
  }

  /** `str(n)` for a natural number: its decimal digits. */
  function NatToString(n: nat): (r: string)
    ensures |r| >= 1
    ensures n >= 10 ==> |r| >= 2
    decreases n
  {
    if n < 10 then [DigitChar(n)] else NatToString(n / 10) + [DigitChar(n % 10)]
  }

  /** `str(i)` for any integer. */
  function IntToString(i: int): string
  {
    if i < 0 then "-" + NatToString(-i) else NatToString(i)
  }

  /** Distinct numbers have distinct decimal renderings. */
  lemma {:induction false} NatToStringInjective(a: nat, b: nat)
    requires NatToString(a) == NatToString(b)
    ensures a == b
    decreases a
  {
    var s := NatToString(a);
    if a < 10 && b < 10 {
      assert s[0] == DigitChar(a) == DigitChar(b);
    } else if a >= 10 && b >= 10 {
      assert s[|s| - 1] == DigitChar(a % 10) == DigitChar(b % 10);
      assert NatToString(a / 10) == s[..|s| - 1] == NatToString(b / 10);
      NatToStringInjective(a / 10, b / 10);
    }
  }

  /** Cancelling a common prefix and suffix. */
  lemma CancelAffixes(p: string, x: string, y: string, q: string)
    requires p + x + q == p + y + q
    ensures x == y
  {
    var s := p + x + q;
    assert |x| == |y|;
    assert x == s[|p|..|p| + |x|];
    assert y == (p + y + q)[|p|..|p| + |y|];
  }

  /** `os.path.join(a, b)` on POSIX paths. */
  function PathJoin(a: string, b: string): (r: string)
    ensures StartsWith(b, "/") ==> r == b
  {
    if StartsWith(b, "/") then b
    else if a == "" || a[|a| - 1] == '/' then a + b
    else a + "/" + b
  }
}
