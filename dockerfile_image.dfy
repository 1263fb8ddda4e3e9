/**
 * `DockerfileImage`: an image built from a Dockerfile. The build context is
 * the files under the base path that `.dockerignore` does not exclude,
 * followed by the extra transferables. The file system (the ignore file's
 * lines, the directory listing, Go-style pattern matching) and the Docker
 * Engine's replies are parameters.
 */
module DockerfileImage {
  import opened Outcomes
  import opened Exceptions
  import opened Text
  import opened Dicts
  import AbstractionsReaper

  const DefaultDockerfilePath: string := "Dockerfile"
  const DefaultDockerIgnorePath: string := ".dockerignore"
  const ImageNamePrefix: string := "testcontainers/"

  // ---------------------------------------------------------------------
  // .dockerignore

  /** `xs.Where(keep).Select(f)`. */
  function FilterMap<T>(xs: seq<T>, keep: T -> bool, f: T -> T): (r: seq<T>)
    ensures |r| <= |xs|
  {
    if |xs| == 0 then []
    else if keep(xs[0]) then [f(xs[0])] + FilterMap(xs[1..], keep, f)
    else FilterMap(xs[1..], keep, f)
  }

  /** `Where`/`Select` keep the order: they work piece by piece. */
  lemma {:induction false} FilterMapAppend<T>(a: seq<T>, b: seq<T>, keep: T -> bool, f: T -> T)
    ensures FilterMap(a + b, keep, f) == FilterMap(a, keep, f) + FilterMap(b, keep, f)
  {
    if |a| == 0 {
      assert a + b == b;
    } else {
      assert (a + b)[0] == a[0] && (a + b)[1..] == a[1..] + b;
      FilterMapAppend(a[1..], b, keep, f);
    }
  }

  /** The results are the images of the kept elements. */
  lemma {:induction false} FilterMapMembers<T>(xs: seq<T>, keep: T -> bool, f: T -> T)
    ensures forall x :: x in xs && keep(x) ==> f(x) in FilterMap(xs, keep, f)
    ensures forall y :: y in FilterMap(xs, keep, f) ==> exists x :: x in xs && keep(x) && f(x) == y
  {
    if |xs| > 0 {
      FilterMapMembers(xs[1..], keep, f);
      assert forall x :: x in xs <==> x == xs[0] || x in xs[1..];
    }
  }

  /** When `f` keeps what it maps and is idempotent, so is the whole. */
  lemma {:induction false} FilterMapIdempotent<T>(xs: seq<T>, keep: T -> bool, f: T -> T)
    requires forall x :: keep(x) ==> keep(f(x)) && f(f(x)) == f(x)
    ensures FilterMap(FilterMap(xs, keep, f), keep, f) == FilterMap(xs, keep, f)
  {
    if |xs| > 0 {
      FilterMapIdempotent(xs[1..], keep, f);
    }
  }

  predicate NotBlank(line: string) {
    !IsBlank(line)
  }

  /** The lines of the ignore file: blank lines dropped, the rest trimmed, in order. */
  function CleanIgnores(lines: seq<string>): seq<string> {
    FilterMap(lines, NotBlank, Trim)
  }

  /** The patterns are exactly the trimmed non-blank lines, in the order of the file:
    * none is empty or has surrounding white space, and cleaning them again changes nothing. */
  lemma CleanIgnoresShape(lines: seq<string>, more: seq<string>)
    ensures forall l :: l in lines && !IsBlank(l) ==> Trim(l) in CleanIgnores(lines)
    ensures forall p :: p in CleanIgnores(lines) ==> exists l :: l in lines && !IsBlank(l) && Trim(l) == p
    ensures forall p :: p in CleanIgnores(lines) ==> p != [] && Trim(p) == p
    ensures CleanIgnores(lines + more) == CleanIgnores(lines) + CleanIgnores(more)
    ensures CleanIgnores(CleanIgnores(lines)) == CleanIgnores(lines)
  {
    FilterMapMembers(lines, NotBlank, Trim);
    FilterMapAppend(lines, more, NotBlank, Trim);
    CleanIgnoresTrimmed(lines);
    CleanIgnoresIdempotent(lines);
  }

  /** Every pattern is non-empty and trimmed. */
  lemma {:induction false} CleanIgnoresTrimmed(lines: seq<string>)
    ensures forall p :: p in CleanIgnores(lines) ==> p != [] && Trim(p) == p
  {
    if |lines| > 0 {
      CleanIgnoresTrimmed(lines[1..]);
      if NotBlank(lines[0]) {
        TrimmedLine(lines[0]);
      }
    }
  }

  /** Cleaning the patterns again changes nothing. */
  lemma CleanIgnoresIdempotent(lines: seq<string>)
    ensures CleanIgnores(CleanIgnores(lines)) == CleanIgnores(lines)
  {
    forall l | NotBlank(l) ensures NotBlank(Trim(l)) && Trim(Trim(l)) == Trim(l) {
      TrimmedLine(l);
    }
    FilterMapIdempotent(lines, NotBlank, Trim);
  }

  /** A trimmed non-blank line is non-empty, not blank, and trimming it again changes nothing. */
  lemma TrimmedLine(l: string)
    requires NotBlank(l)
    ensures NotBlank(Trim(l)) && Trim(Trim(l)) == Trim(l) && Trim(l) != []
  {
    TrimShape(l);
    TrimIdempotent(l);
    TrimShape(Trim(l));
  }

  /** `GetIgnores`: the cleaned lines of the ignore file, or none when it does not exist. */
  function GetIgnores(ignoreFile: Option<seq<string>>): seq<string> {
    if ignoreFile.Some? then CleanIgnores(ignoreFile.value) else []
  }

  /** One leading `!` removed, as the pattern is before it is matched. */
  function StripBang(pattern: string): (r: string)
    ensures StartsWith(pattern, "!") ==> pattern == "!" + r
    ensures !StartsWith(pattern, "!") ==> r == pattern
  {
    if StartsWith(pattern, "!") then pattern[1..] else pattern
  }

  /** The stripped patterns matching `relativePath`, in the order of the file. */
  function Matches(ignores: seq<string>, relativePath: string, fileMatch: (string, string) -> bool): (r: seq<string>)
    ensures forall m :: m in r ==> fileMatch(m, relativePath)
    ensures r == [] <==> forall p :: p in ignores ==> !fileMatch(StripBang(p), relativePath)
    ensures r != [] ==> exists p :: p in ignores && StripBang(p) == r[|r| - 1]
    decreases |ignores|
  {
    if |ignores| == 0 then []
    else
      var init := ignores[..|ignores| - 1];
      var last := StripBang(ignores[|ignores| - 1]);
      assert forall p :: p in ignores <==> p in init || p == ignores[|ignores| - 1];
      var rest := Matches(init, relativePath, fileMatch);
      if fileMatch(last, relativePath) then
        assert ignores[|ignores| - 1] in ignores;
        rest + [last]
      else
        rest
  }

  /** Every matching pattern is among the matches. */
  lemma {:induction false} MatchesComplete(ignores: seq<string>, relativePath: string,
                                           fileMatch: (string, string) -> bool)
    ensures forall p :: p in ignores && fileMatch(StripBang(p), relativePath) ==>
      StripBang(p) in Matches(ignores, relativePath, fileMatch)
    decreases |ignores|
  {
    if |ignores| > 0 {
      var init := ignores[..|ignores| - 1];
      var last := ignores[|ignores| - 1];
      var rest := Matches(init, relativePath, fileMatch);
      MatchesComplete(init, relativePath, fileMatch);
      var r := Matches(ignores, relativePath, fileMatch);
      assert forall m :: m in rest ==> m in r;
      forall p | p in ignores && fileMatch(StripBang(p), relativePath)
        ensures StripBang(p) in r
      {
        if p != last {
          assert p in init;
        }
      }
    }
  }

  /** The index of the last pattern whose stripped form matches
    * `relativePath`, or -1 when none does. */
  function LastMatchIndex(ignores: seq<string>, relativePath: string, fileMatch: (string, string) -> bool): (k: int)
    ensures -1 <= k < |ignores|
    ensures k >= 0 ==> fileMatch(StripBang(ignores[k]), relativePath)
    ensures forall j :: k < j < |ignores| ==> !fileMatch(StripBang(ignores[j]), relativePath)
  {
    if |ignores| == 0 then -1
    else if fileMatch(StripBang(ignores[|ignores| - 1]), relativePath) then |ignores| - 1
    else
      var k := LastMatchIndex(ignores[..|ignores| - 1], relativePath, fileMatch);
      assert forall j :: k < j < |ignores| - 1 ==> ignores[..|ignores| - 1][j] == ignores[j];
      k
  }

  /** The last match comes from the last pattern that matches: no later
    * pattern matches. */
  lemma {:induction false} MatchesLast(ignores: seq<string>, relativePath: string,
                                       fileMatch: (string, string) -> bool)
    ensures var r := Matches(ignores, relativePath, fileMatch);
      var k := LastMatchIndex(ignores, relativePath, fileMatch);
      (r != [] <==> k >= 0) && (r != [] ==> r[|r| - 1] == StripBang(ignores[k]))
    decreases |ignores|
  {
    if |ignores| > 0 && !fileMatch(StripBang(ignores[|ignores| - 1]), relativePath) {
      var init := ignores[..|ignores| - 1];
      MatchesLast(init, relativePath, fileMatch);
      assert Matches(ignores, relativePath, fileMatch) == Matches(init, relativePath, fileMatch);
      var k := LastMatchIndex(init, relativePath, fileMatch);
      assert LastMatchIndex(ignores, relativePath, fileMatch) == k;
      if k >= 0 {
        assert init[k] == ignores[k];
      }
    }
  }

  /** `GetRelativePath`: the part of `path` after `relativeTo` with its leading
    * `/` removed when `path` starts with `relativeTo`, else `path` itself. */
  function GetRelativePath(relativeTo: string, path: string): (r: string)
    ensures !StartsWith(path, relativeTo) ==> r == path
    ensures StartsWith(path, relativeTo) ==>
      && |relativeTo| + |r| <= |path| && r == path[|path| - |r|..]
      && (forall i :: |relativeTo| <= i < |path| - |r| ==> path[i] == '/')
      && (r == [] || r[0] != '/')
  {
    if StartsWith(path, relativeTo) then TrimStartWhere(path[|relativeTo|..], c => c == '/') else path
  }

  /** A path below the base gives back its relative part, with or without the separating `/`. */
  lemma RelativePathRoundTrip(base: string, relative: string)
    requires relative == [] || relative[0] != '/'
    ensures GetRelativePath(base, base + "/" + relative) == relative
    ensures GetRelativePath(base, base + relative) == relative
  {
    var p := base + "/" + relative;
    assert p[..|base|] == base && p[|base|..] == "/" + relative;
    var q := base + relative;
    assert q[..|base|] == base && q[|base|..] == relative;
  }

  /** The base is matched as text, not by directory: `/basement/x` is below `/base`. */
  lemma RelativePathTextualPrefix()
    ensures GetRelativePath("/base", "/basement/x") == "ment/x"
  {
    assert "/basement/x"[..5] == "/base";
    assert "/basement/x"[5..] == "ment/x";
    assert TrimStartWhere("ment/x", c => c == '/') == "ment/x";
  }

  /** `IsFileIgnored`: the file is ignored when some pattern matches and the
    * last matching one, after its first `!` is stripped, does not start with `!`. */
  function IsFileIgnored(ignores: seq<string>, basePath: string, file: string,
                         fileMatch: (string, string) -> bool): (r: bool)
    ensures (forall p :: p in ignores ==> !fileMatch(StripBang(p), GetRelativePath(basePath, file))) ==> !r
  {
    var matches := Matches(ignores, GetRelativePath(basePath, file), fileMatch);
    if |matches| <= 0 then false else !StartsWith(matches[|matches| - 1], "!")
  }

  /** Since one `!` is stripped before matching, a pattern `!x` never re-includes
    * a file: without `!!` patterns, a file is ignored iff any pattern matches. */
  lemma SingleBangNeverReincludes(ignores: seq<string>, basePath: string, file: string,
                                  fileMatch: (string, string) -> bool)
    requires forall p :: p in ignores ==> !StartsWith(p, "!!")
    ensures IsFileIgnored(ignores, basePath, file, fileMatch) <==>
      exists p :: p in ignores && fileMatch(StripBang(p), GetRelativePath(basePath, file))
  {
    var m := Matches(ignores, GetRelativePath(basePath, file), fileMatch);
    if m != [] {
      var last := m[|m| - 1];
      var p :| p in ignores && StripBang(p) == last;
      NoDoubleBang(p, last);
    }
  }

  /** A pattern that does not start with `!!` is left without a leading `!` by `StripBang`. */
  lemma NoDoubleBang(p: string, stripped: string)
    requires !StartsWith(p, "!!") && StripBang(p) == stripped
    ensures !StartsWith(stripped, "!")
  {
  }

  /** A matching pattern appended to the file decides alone whether the file is ignored. */
  lemma LastMatchDecides(ignores: seq<string>, pattern: string, basePath: string, file: string,
                         fileMatch: (string, string) -> bool)
    requires fileMatch(StripBang(pattern), GetRelativePath(basePath, file))
    ensures IsFileIgnored(ignores + [pattern], basePath, file, fileMatch) <==> !StartsWith(StripBang(pattern), "!")
  {
    assert (ignores + [pattern])[..|ignores|] == ignores;
  }

  // ---------------------------------------------------------------------
  // Build context

  /** What an archive entry is copied from. */
  datatype Source = HostFile(path: string) | Transferred(transferable: string)

  /** An entry of the tar archive: its destination path and its source. */
  datatype ArchiveEntry = ArchiveEntry(destination: string, source: Source)

  /** The entry a file under the base path becomes. */
  function FileEntry(basePath: string, file: string): ArchiveEntry {
    ArchiveEntry(GetRelativePath(basePath, file), HostFile(file))
  }

  /** The entries for the files under the base path that are not ignored, in listing order. */
  function ContextFiles(ignores: seq<string>, basePath: string, files: seq<string>,
                        fileMatch: (string, string) -> bool): (r: seq<ArchiveEntry>)
    ensures |r| <= |files|
    ensures forall e :: e in r ==>
      e.source.HostFile? && e.source.path in files && e == FileEntry(basePath, e.source.path) &&
      !IsFileIgnored(ignores, basePath, e.source.path, fileMatch)
    decreases |files|
  {
    if |files| == 0 then []
    else
      var init := files[..|files| - 1];
      var f := files[|files| - 1];
      assert forall g :: g in init ==> g in files;
      ContextFiles(ignores, basePath, init, fileMatch) +
        (if IsFileIgnored(ignores, basePath, f, fileMatch) then [] else [FileEntry(basePath, f)])
  }

  /** Every listed file that is not ignored is in the context. */
  lemma {:induction false} ContextFilesComplete(ignores: seq<string>, basePath: string, files: seq<string>,
                                                fileMatch: (string, string) -> bool, f: string)
    requires f in files && !IsFileIgnored(ignores, basePath, f, fileMatch)
    ensures FileEntry(basePath, f) in ContextFiles(ignores, basePath, files, fileMatch)
    decreases |files|
  {
    var init := files[..|files| - 1];
    if f != files[|files| - 1] {
      assert f in init by {
        var i :| 0 <= i < |files| && files[i] == f;
        assert init[i] == f;
      }
      ContextFilesComplete(ignores, basePath, init, fileMatch, f);
    }
  }

  /** The entries for the transferables, in the dictionary's order. */
  function TransferEntries(transferables: seq<(string, string)>): (r: seq<ArchiveEntry>)
    ensures |r| == |transferables|
    ensures forall i :: 0 <= i < |r| ==> r[i] == ArchiveEntry(transferables[i].0, Transferred(transferables[i].1))
    decreases |transferables|
  {
    if |transferables| == 0 then []
    else
      var n := |transferables| - 1;
      TransferEntries(transferables[..n]) + [ArchiveEntry(transferables[n].0, Transferred(transferables[n].1))]
  }

  /** The whole archive: the base-path files, when a base path is set, then the transferables. */
  function BuildContext(basePath: Option<string>, ignoreFile: Option<seq<string>>, files: seq<string>,
                        transferables: seq<(string, string)>, fileMatch: (string, string) -> bool): seq<ArchiveEntry>
  {
    (if IsNullOrWhiteSpace(basePath) then [] else ContextFiles(GetIgnores(ignoreFile), basePath.value, files, fileMatch))
      + TransferEntries(transferables)
  }

  /** The ignore file filters only the base-path files: every transferable is in
    * the archive whatever the patterns, and a base-path file is in it iff not ignored. */
  lemma BuildContextMembership(basePath: Option<string>, ignoreFile: Option<seq<string>>, files: seq<string>,
                               transferables: seq<(string, string)>, fileMatch: (string, string) -> bool)
    ensures forall i :: 0 <= i < |transferables| ==>
      ArchiveEntry(transferables[i].0, Transferred(transferables[i].1)) in
        BuildContext(basePath, ignoreFile, files, transferables, fileMatch)
    ensures !IsNullOrWhiteSpace(basePath) ==> forall f :: f in files ==>
      (FileEntry(basePath.value, f) in BuildContext(basePath, ignoreFile, files, transferables, fileMatch) <==>
        !IsFileIgnored(GetIgnores(ignoreFile), basePath.value, f, fileMatch))
    ensures IsNullOrWhiteSpace(basePath) ==> forall e :: e in BuildContext(basePath, ignoreFile, files, transferables, fileMatch) ==>
      e.source.Transferred?
  {
    var ctx := BuildContext(basePath, ignoreFile, files, transferables, fileMatch);
    var tr := TransferEntries(transferables);
    var head := if IsNullOrWhiteSpace(basePath) then [] else ContextFiles(GetIgnores(ignoreFile), basePath.value, files, fileMatch);
    assert ctx == head + tr;
    forall i | 0 <= i < |transferables|
      ensures ArchiveEntry(transferables[i].0, Transferred(transferables[i].1)) in ctx
    {
      assert tr[i] in tr;
    }
    if !IsNullOrWhiteSpace(basePath) {
      FilesInContext(GetIgnores(ignoreFile), basePath.value, files, tr, fileMatch);
    }
  }

  /** A file entry is among base-path files and transferred entries iff the file is not ignored. */
  lemma FilesInContext(ignores: seq<string>, basePath: string, files: seq<string>, tr: seq<ArchiveEntry>,
                       fileMatch: (string, string) -> bool)
    requires forall e :: e in tr ==> e.source.Transferred?
    ensures forall f :: f in files ==>
      (FileEntry(basePath, f) in ContextFiles(ignores, basePath, files, fileMatch) + tr <==>
        !IsFileIgnored(ignores, basePath, f, fileMatch))
  {
    forall f | f in files
      ensures FileEntry(basePath, f) in ContextFiles(ignores, basePath, files, fileMatch) + tr <==>
        !IsFileIgnored(ignores, basePath, f, fileMatch)
    {
      if !IsFileIgnored(ignores, basePath, f, fileMatch) {
        ContextFilesComplete(ignores, basePath, files, fileMatch, f);
      }
    }
  }

  // ---------------------------------------------------------------------
  // Names

  /** The name the constructor gives: the prefix and the random suffix in lower case. */
  function DefaultImageName(suffix: string): string {
    ImageNamePrefix + Lower(suffix)
  }

  /** The temporary archive's file name: the image name with every `/` as `_`, then `.tar`. */
  function TempTarName(imageName: string): (r: string)
    ensures |r| == |imageName| + 4 && r[|imageName|..] == ".tar" && '/' !in r
    ensures forall i :: 0 <= i < |imageName| ==> r[i] == (if imageName[i] == '/' then '_' else imageName[i])
  {
    var r := ReplaceChar(imageName, '/', '_') + ".tar";
    assert forall i :: 0 <= i < |r| ==> r[i] != '/';
    r
  }

  /** The archive of a default name whose suffix has no `/`. */
  lemma DefaultTarName(suffix: string)
    requires forall i :: 0 <= i < |suffix| ==> IsLetterOrDigit(suffix[i])
    ensures TempTarName(DefaultImageName(suffix)) == "testcontainers_" + Lower(suffix) + ".tar"
  {
    var n := DefaultImageName(suffix);
    var t := TempTarName(n);
    var want := "testcontainers_" + Lower(suffix) + ".tar";
    forall i | 0 <= i < |t| ensures t[i] == want[i] {
      if i >= |ImageNamePrefix| && i < |n| {
        assert n[i] == Lower(suffix)[i - |ImageNamePrefix|];
      }
    }
  }

  /** A default name is `testcontainers/` and a lower-case alphanumeric suffix, and its archive
    * is `testcontainers_<suffix>.tar`, so distinct suffixes never share an archive. */
  lemma DefaultNames(suffix: string, other: string)
    requires forall i :: 0 <= i < |suffix| ==> IsLetterOrDigit(suffix[i])
    requires forall i :: 0 <= i < |other| ==> IsLetterOrDigit(other[i])
    ensures StartsWith(DefaultImageName(suffix), ImageNamePrefix)
    ensures forall i :: 0 <= i < |Lower(suffix)| ==> !('A' <= Lower(suffix)[i] <= 'Z') && Lower(suffix)[i] != '/'
    ensures TempTarName(DefaultImageName(suffix)) == "testcontainers_" + Lower(suffix) + ".tar"
    ensures Lower(suffix) != Lower(other) ==> TempTarName(DefaultImageName(suffix)) != TempTarName(DefaultImageName(other))
  {
    assert DefaultImageName(suffix)[..|ImageNamePrefix|] == ImageNamePrefix;
    DefaultTarName(suffix);
    DefaultTarName(other);
    var t := TempTarName(DefaultImageName(suffix));
    var u := TempTarName(DefaultImageName(other));
    if t == u {
      assert t[15..|t| - 4] == Lower(suffix);
      assert u[15..|u| - 4] == Lower(other);
    }
  }

  // ---------------------------------------------------------------------
  // The image

  /** What building the image does outside the model: the temporary archive
    * and the Docker Engine calls. */
  datatype BuildCall =
    | WriteArchive(tarName: string, entries: seq<ArchiveEntry>)
    | BuildImage(tarName: string, dockerfile: string, tags: seq<string>)
    | DeleteArchive(tarName: string)
    | InspectImage(name: string)

  class Image {
    var imageName: string
    var imageId: Option<string>
    var dockerfilePath: string
    var basePath: Option<string>
    var deleteOnExit: bool
    var transferables: Dict<string, string>
    var calls: seq<BuildCall>

    /** `suffix` stands for `Random.NextAlphaNumeric(16)`. */
    constructor(suffix: string)
      ensures imageName == DefaultImageName(suffix) && imageId.None?
      ensures dockerfilePath == DefaultDockerfilePath && basePath.None? && deleteOnExit
      ensures transferables == [] && calls == []
    {
      imageName := DefaultImageName(suffix);
      imageId := None;
      dockerfilePath := DefaultDockerfilePath;
      basePath := None;
      deleteOnExit := true;
      transferables := [];
      calls := [];
    }

    /** Writes the base-path files that are not ignored into the archive. */
    method ArchiveBasePath(ignores: seq<string>, base: string, files: seq<string>,
                           fileMatch: (string, string) -> bool) returns (archive: seq<ArchiveEntry>)
      ensures archive == ContextFiles(ignores, base, files, fileMatch)
    {
      archive := [];
      for i := 0 to |files|
        invariant archive == ContextFiles(ignores, base, files[..i], fileMatch)
      {
        assert files[..i + 1][..i] == files[..i];
        if IsFileIgnored(ignores, base, files[i], fileMatch) {
          continue;
        }
        var relativePath := GetRelativePath(base, files[i]);
        archive := archive + [ArchiveEntry(relativePath, HostFile(files[i]))];
      }
      assert files[..|files|] == files;
    }

    /** Appends the transferables to the archive. */
    method ArchiveTransferables(archive: seq<ArchiveEntry>, entries: seq<(string, string)>)
      returns (result: seq<ArchiveEntry>)
      ensures result == archive + TransferEntries(entries)
    {
      result := archive;
      for j := 0 to |entries|
        invariant result == archive + TransferEntries(entries[..j])
      {
        assert entries[..j + 1][..j] == entries[..j];
        result := result + [ArchiveEntry(entries[j].0, Transferred(entries[j].1))];
      }
      assert entries[..|entries|] == entries;
    }

    /** The archive's entries: the base-path files, when a base path is set, then the transferables. */
    method WriteContext(ignoreFile: Option<seq<string>>, files: seq<string>, fileMatch: (string, string) -> bool)
      returns (archive: seq<ArchiveEntry>)
      ensures archive == BuildContext(basePath, ignoreFile, files, transferables, fileMatch)
    {
      archive := [];
      if !IsNullOrWhiteSpace(basePath) {
        var ignores := GetIgnores(ignoreFile);
        archive := ArchiveBasePath(ignores, basePath.value, files, fileMatch);
      }
      archive := ArchiveTransferables(archive, transferables);
    }

    /** Writes the archive to the temporary file `tar`. */
    method WriteArchiveFile(tar: string, ignoreFile: Option<seq<string>>, files: seq<string>,
                            fileMatch: (string, string) -> bool)
      modifies this`calls
      ensures calls == old(calls) + [WriteArchive(tar, BuildContext(basePath, ignoreFile, files, transferables, fileMatch))]
    {
      var archive := WriteContext(ignoreFile, files, fileMatch);
      calls := calls + [WriteArchive(tar, archive)];
    }

    /** What follows the archive's write: the build, the archive's deletion and
      * the inspection, each skipped once an earlier one has not gone through. */
    method Build(tar: string, cancelledBeforeBuild: bool, built: Outcome<Exn>, inspected: Result<string, Exn>)
      returns (r: Result<Option<string>, Exn>)
      modifies this`imageId, this`calls
      ensures
        var build := old(calls) + [BuildImage(tar, dockerfilePath, [imageName]), DeleteArchive(tar)];
        && (cancelledBeforeBuild ==> r == Ok(None) && imageId == old(imageId) && calls == old(calls) + [DeleteArchive(tar)])
        && (!cancelledBeforeBuild && built.Fail? ==> r == Err(built.error) && imageId == old(imageId) && calls == build)
        && (!cancelledBeforeBuild && built.Pass? && inspected.Err? ==>
              r == Err(inspected.error) && imageId == old(imageId) && calls == build + [InspectImage(imageName)])
        && (!cancelledBeforeBuild && built.Pass? && inspected.Ok? ==>
              r == Ok(Some(inspected.value)) && imageId == Some(inspected.value) && calls == build + [InspectImage(imageName)])
    {
      if cancelledBeforeBuild {
        calls := calls + [DeleteArchive(tar)];
        return Ok(None);
      }
      calls := calls + [BuildImage(tar, dockerfilePath, [imageName]), DeleteArchive(tar)];
      if built.Fail? {
        return Err(built.error);
      }
      calls := calls + [InspectImage(imageName)];
      if inspected.Err? {
        return Err(inspected.error);
      }
      imageId := Some(inspected.value);
      return Ok(imageId);
    }

    /** `Resolve`: `Ok(None)` for the `null` of a cancelled call, else the built
      * image's ID or the exception the build or the inspection threw. The two
      * flags are the token's state at its two checks; `ignoreFile` is the ignore
      * file's lines (`None` when it does not exist) and `files` the listing of
      * the base path. The archive is deleted once it has been written, whatever
      * happens next. */
    method Resolve(reaper: AbstractionsReaper.ResourceReaper, cancelledAtStart: bool, cancelledBeforeBuild: bool,
                   ignoreFile: Option<seq<string>>, files: seq<string>, fileMatch: (string, string) -> bool,
                   built: Outcome<Exn>, inspected: Result<string, Exn>) returns (r: Result<Option<string>, Exn>)
      requires reaper.Valid()
      modifies this`imageId, this`calls, reaper`hookRegistered, reaper`hookRegistrations, reaper`imagesToDelete
      ensures reaper.Valid()
      ensures cancelledAtStart ==>
        r == Ok(None) && imageId == old(imageId) && calls == old(calls) && reaper.imagesToDelete == old(reaper.imagesToDelete)
      ensures !cancelledAtStart ==>
        reaper.imagesToDelete == old(reaper.imagesToDelete) + (if deleteOnExit then {imageName} else {})
      ensures !cancelledAtStart && deleteOnExit ==> reaper.hookRegistered && reaper.hookRegistrations == 1
      ensures cancelledAtStart || !deleteOnExit ==>
        reaper.hookRegistered == old(reaper.hookRegistered) && reaper.hookRegistrations == old(reaper.hookRegistrations)
      ensures !cancelledAtStart ==>
        var tar := TempTarName(imageName);
        var written := old(calls) + [WriteArchive(tar, BuildContext(basePath, ignoreFile, files, transferables, fileMatch))];
        var build := written + [BuildImage(tar, dockerfilePath, [imageName]), DeleteArchive(tar)];
        && (cancelledBeforeBuild ==> r == Ok(None) && imageId == old(imageId) && calls == written + [DeleteArchive(tar)])
        && (!cancelledBeforeBuild && built.Fail? ==> r == Err(built.error) && imageId == old(imageId) && calls == build)
        && (!cancelledBeforeBuild && built.Pass? && inspected.Err? ==>
              r == Err(inspected.error) && imageId == old(imageId) && calls == build + [InspectImage(imageName)])
        && (!cancelledBeforeBuild && built.Pass? && inspected.Ok? ==>
              r == Ok(Some(inspected.value)) && imageId == Some(inspected.value) && calls == build + [InspectImage(imageName)])
    {
      if cancelledAtStart {
        return Ok(None);
      }
      if deleteOnExit {
        reaper.RegisterImageForCleanup(imageName);
      }
      var tar := TempTarName(imageName);
      WriteArchiveFile(tar, ignoreFile, files, fileMatch);
      r := Build(tar, cancelledBeforeBuild, built, inspected);
    }
  }
}
