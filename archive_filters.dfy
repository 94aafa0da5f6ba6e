/** The archive filters used when the models are packed and unpacked
    (src/utils/__init__.py): the tar member filter and the name checks of
    `safe_extract`. Path resolution (`os.path.realpath`) is a parameter. */
module ArchiveFilters {
  import opened Values
  import opened Strs

  /** A tar archive member, as far as the filter looks at it. */
  datatype TarInfo = TarInfo(name: string, size: nat)

  /** `tar_filter_function`: drop every member under a "blobs/" directory and
      keep the others unchanged. */
  function TarFilter(member: TarInfo): (r: Option<TarInfo>)
    ensures r.None? <==> exists j :: OccursAt(member.name, "blobs/", j)
    ensures r.Some? ==> r.value == member
  {
    ContainsIff(member.name, "blobs/");
    if Contains(member.name, "blobs/") then None else Some(member)
  }

  /** `is_safe_path`: the resolved path starts with the resolved base, as text. */
  predicate IsSafePath(basePath: string, path: string, realpath: string -> string) {
    StartsWith(realpath(path), realpath(basePath))
  }

  /** The test is on characters, not on path components: a sibling directory
      whose name extends the base's passes. */
  lemma SiblingPrefixPasses(realpath: string -> string)
    requires forall p :: realpath(p) == p
    ensures IsSafePath("/a/b", "/a/bc", realpath)
  {
    assert "/a/bc"[..|"/a/b"|] == "/a/b";
  }

  /** The name checks of `safe_extract` for one archive name. */
  predicate Suspicious(name: string) {
    StartsWith(name, "/") || Contains(name, "..")
  }

  /** Whether `safe_extract` extracts a name: the joined path is inside the
      target by `is_safe_path`, and the name is not suspicious. */
  predicate Extracts(extractPath: string, realpath: string -> string, name: string) {
    IsSafePath(extractPath, PathJoin(extractPath, name), realpath) && !Suspicious(name)
  }

  /** The names `safe_extract` extracts, in archive order. */
  function Extracted(names: seq<string>, extractPath: string, realpath: string -> string): (r: seq<string>)
    ensures |r| <= |names|
    ensures forall x :: x in r <==> x in names && Extracts(extractPath, realpath, x)
    decreases |names|
  {
    if names == [] then []
    else
      var init := Extracted(names[..|names| - 1], extractPath, realpath);
      var name := names[|names| - 1];
      assert forall x :: x in names <==> x in names[..|names| - 1] || x == name by {
        assert names == names[..|names| - 1] + [name];
      }
      if Extracts(extractPath, realpath, name) then init + [name] else init
  }

  /** Extraction keeps archive order: splitting the archive splits the result. */
  lemma {:induction false} ExtractedAppend(a: seq<string>, b: seq<string>, extractPath: string, realpath: string -> string)
    ensures Extracted(a + b, extractPath, realpath) == Extracted(a, extractPath, realpath) + Extracted(b, extractPath, realpath)
    decreases |b|
  {
    if b == [] {
      assert a + b == a;
    } else {
      var init := b[..|b| - 1];
      assert (a + b)[..|a + b| - 1] == a + init;
      ExtractedAppend(a, init, extractPath, realpath);
    }
  }

  /** No extracted name is absolute or mentions "..", even inside a longer
      component such as "a..b". */
  lemma ExtractedNotSuspicious(names: seq<string>, extractPath: string, realpath: string -> string)
    ensures forall x :: x in Extracted(names, extractPath, realpath) ==>
      !StartsWith(x, "/") && !Contains(x, "..")
  {
  }

  /** The instance: "a..b" is skipped whatever the paths resolve to. */
  lemma DoubleDotInsideNameSkipped(extractPath: string, realpath: string -> string)
    ensures !Extracts(extractPath, realpath, "a..b")
  {
    assert OccursAt("a..b", "..", 1);
    ContainsIff("a..b", "..");
  }

  /** The loop of `safe_extract`: each name of the archive's list, in order, is
      skipped by either check or extracted. */
  method SafeExtract(names: seq<string>, extractPath: string, realpath: string -> string)
    returns (extracted: seq<string>)
    ensures extracted == Extracted(names, extractPath, realpath)
  {
    extracted := [];
    var k := 0;
    while k < |names|
      invariant 0 <= k <= |names|
      invariant extracted == Extracted(names[..k], extractPath, realpath)
    {
      var fileName := names[k];
      assert names[..k + 1][..k] == names[..k] && names[..k + 1][k] == fileName;
      assert Extracted(names[..k + 1], extractPath, realpath) ==
        if Extracts(extractPath, realpath, fileName) then extracted + [fileName] else extracted;
      k := k + 1;
      var targetPath := PathJoin(extractPath, fileName);
      if !IsSafePath(extractPath, targetPath, realpath) {
        continue;
      }
      if StartsWith(fileName, "/") || Contains(fileName, "..") {
        continue;
      }
      extracted := extracted + [fileName];
    }
    assert names[..k] == names;
  }
}
