/**
 * `OS.NormalizePath`: rewrites the directory separators of a path into the
 * form of the platform's `Path.DirectorySeparatorChar`, which is a parameter.
 */
module OS {
  import opened Outcomes
  import opened Exceptions
  import opened Text

  const WindowsDirectorySeparator: char := '\\'
  const LinuxDirectorySeparator: char := '/'

  predicate Supported(separator: char) {
    separator == WindowsDirectorySeparator || separator == LinuxDirectorySeparator
  }

  /** The separator that the platform's separator replaces. */
  function Foreign(separator: char): (r: char)
    requires Supported(separator)
    ensures Supported(r) && r != separator
  {
    if separator == WindowsDirectorySeparator then LinuxDirectorySeparator else WindowsDirectorySeparator
  }

  /** What the `default` branch of the separator switch throws. */
  function Unsupported(separator: char): Exn {
    Make(NotSupported, "Directory separator[" + [separator] + "] is not a supported type")
  }

  function NormalizePath(path: string, separator: char): (r: Result<string, Exn>)
    ensures r.Err? <==> !Supported(separator)
    ensures r.Err? ==> r.error == Unsupported(separator)
    ensures r.Ok? ==> |r.value| == |path|
    ensures r.Ok? ==> Foreign(separator) !in r.value
    ensures r.Ok? ==> forall i :: 0 <= i < |path| ==>
      r.value[i] == (if path[i] == Foreign(separator) then separator else path[i])
  {
    if separator == WindowsDirectorySeparator then
      Ok(ReplaceChar(path, LinuxDirectorySeparator, WindowsDirectorySeparator))
    else if separator == LinuxDirectorySeparator then
      Ok(ReplaceChar(path, WindowsDirectorySeparator, LinuxDirectorySeparator))
    else
      Err(Unsupported(separator))
  }

  /** A normalised path is left as it is by a second normalisation. */
  lemma NormalizeIdempotent(path: string, separator: char)
    requires Supported(separator)
    ensures NormalizePath(NormalizePath(path, separator).value, separator) == NormalizePath(path, separator)
  {
    var once := NormalizePath(path, separator).value;
    var twice := NormalizePath(once, separator).value;
    assert forall i :: 0 <= i < |once| ==> once[i] != Foreign(separator);
    assert twice == once;
  }

  /** A path that holds no foreign separator is already normalised. */
  lemma NormalizeFixedPoint(path: string, separator: char)
    requires Supported(separator)
    ensures NormalizePath(path, separator) == Ok(path) <==> Foreign(separator) !in path
  {
    if Foreign(separator) !in path {
      assert NormalizePath(path, separator).value == path;
    }
  }
}
