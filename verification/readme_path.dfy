/** Where write_readme puts the README: the path step of src/femref/utils.py. */
module ReadmePath {
  import opened Lines

  /** The file name every README path must end with. */
  const ReadmeName := "README.md"

  /** A path that does not already end with the README file name is taken as a
      directory, and the file name is appended after a separator. The test is a
      plain suffix test, so `xREADME.md` is kept as it is. */
  function NormalizePath(path: string): (r: string)
    ensures IsSuffix(ReadmeName, r)
    ensures IsPrefix(path, r)
    ensures IsSuffix(ReadmeName, path) <==> r == path
    ensures !IsSuffix(ReadmeName, path) ==> r[|path|..] == "/" + ReadmeName
  {
    if IsSuffix(ReadmeName, path) then path
    else
      var r := path + "/" + ReadmeName;
      assert r[|r| - |ReadmeName|..] == ReadmeName;
      assert r[..|path|] == path;
      r
  }

  /** Normalising twice is normalising once. */
  lemma NormalizeIdempotent(path: string)
    ensures NormalizePath(NormalizePath(path)) == NormalizePath(path)
  {
  }

  /** The suffix test is textual: any name ending in the README name passes unchanged. */
  lemma KeepsAnyReadmeSuffix()
    ensures NormalizePath("xREADME.md") == "xREADME.md"
  {
    assert "xREADME.md"[1..] == ReadmeName;
  }

  /** A directory path gets the README file name appended after a separator. */
  lemma AppendsToDirectory()
    ensures NormalizePath("out") == "out/README.md"
    ensures NormalizePath("out/") == "out//README.md"
  {
  }
}
