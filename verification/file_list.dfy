/** A target's file list and the two views the plugins take of it: the Swift
    files it holds, in order, and those files joined into one argument. */
module FileList {
  import opened Paths
  import opened Joining
  import opened Filtering

  /** The Swift files of a file list (`FileList.swiftFiles` of the build-tool
      plugin): an order-preserving subsequence of Swift files. */
  function SwiftFiles(files: seq<Path>): (r: seq<Path>)
    ensures IsSubsequence(r, files)
    ensures forall i :: 0 <= i < |r| ==> IsSwiftFile(r[i])
  {
    Filter(files, IsSwiftFile)
  }

  /** The Swift files keep every occurrence of each Swift file of the list. */
  lemma SwiftFilesCounts(files: seq<Path>)
    ensures forall p :: IsSwiftFile(p) ==> multiset(SwiftFiles(files))[p] == multiset(files)[p]
  {
    FilterCounts(files, IsSwiftFile);
  }

  /** A path is among the Swift files exactly when it is a Swift file of the
      list: the filter adds nothing and drops no Swift file. */
  lemma SwiftFilesMembership(files: seq<Path>, p: Path)
    ensures p in SwiftFiles(files) <==> p in files && IsSwiftFile(p)
  {
    FilterMembership(files, IsSwiftFile, p);
  }

  /** The contract of `SwiftFiles` pins it down: any subsequence of Swift
      files that keeps each Swift file's multiplicity is the filtered list. */
  lemma SwiftFilesUnique(files: seq<Path>, r: seq<Path>)
    requires IsSubsequence(r, files)
    requires forall i :: 0 <= i < |r| ==> IsSwiftFile(r[i])
    requires forall p :: IsSwiftFile(p) ==> multiset(r)[p] == multiset(files)[p]
    ensures r == SwiftFiles(files)
  {
    FilterUnique(files, IsSwiftFile, r);
  }

  /** The Swift files of two lists one after the other are those of each list
      one after the other. */
  lemma SwiftFilesConcat(a: seq<Path>, b: seq<Path>)
    ensures SwiftFiles(a + b) == SwiftFiles(a) + SwiftFiles(b)
  {
    FilterConcat(a, b, IsSwiftFile);
  }

  /** Filtering an already filtered list changes nothing. */
  lemma SwiftFilesIdempotent(files: seq<Path>)
    ensures SwiftFiles(SwiftFiles(files)) == SwiftFiles(files)
  {
    FilterIdempotent(files, IsSwiftFile);
  }

  /** Appending one path adds it to the Swift files exactly when it is one. */
  lemma SwiftFilesAppend(files: seq<Path>, p: Path)
    ensures IsSwiftFile(p) ==> SwiftFiles(files + [p]) == SwiftFiles(files) + [p]
    ensures !IsSwiftFile(p) ==> SwiftFiles(files + [p]) == SwiftFiles(files)
  {
    SwiftFilesConcat(files, [p]);
    assert [p][1..] == [];
    assert SwiftFiles([p]) == (if IsSwiftFile(p) then [p] else []);
  }

  /** Every path among the Swift files is non-empty, and holds no comma when
      no path of the list does. */
  lemma SwiftFilesAreJoinable(files: seq<Path>)
    requires forall i :: 0 <= i < |files| ==> Comma !in files[i]
    ensures forall i :: 0 <= i < |SwiftFiles(files)| ==>
              |SwiftFiles(files)[i]| > 0 && Comma !in SwiftFiles(files)[i]
  {
    var swift := SwiftFiles(files);
    forall i | 0 <= i < |swift|
      ensures |swift[i]| > 0 && Comma !in swift[i]
    {
      SwiftFilesMembership(files, swift[i]);
      assert EndsWith(swift[i], "." + SwiftExtension);
    }
  }

  /** The Swift files joined with commas: the `String` form of
      `FileList.swiftFiles` in the command plugin.  It is empty exactly when
      the list has no Swift file, since a Swift file's path is never empty;
      it starts with the first Swift file. */
  function SwiftFilesJoined(files: seq<Path>): (r: string)
    ensures r == [] <==> SwiftFiles(files) == []
    ensures SwiftFiles(files) != [] ==> SwiftFiles(files)[0] <= r
  {
    var swift := SwiftFiles(files);
    if |swift| > 0 then
      assert EndsWith(swift[0], "." + SwiftExtension);
      Join(swift, Comma)
    else
      Join(swift, Comma)
  }

  /** The joined Swift files read back as the Swift files, in order, whenever
      no path of the list holds a comma; an empty filtered list gives the
      empty argument and reads back as empty. */
  lemma SwiftFilesJoinedRoundTrip(files: seq<Path>)
    requires forall i :: 0 <= i < |files| ==> Comma !in files[i]
    ensures DecodeFileList(SwiftFilesJoined(files)) == SwiftFiles(files)
    ensures SwiftFiles(files) == [] <==> SwiftFilesJoined(files) == []
  {
    SwiftFilesAreJoinable(files);
    FileListRoundTrip(SwiftFiles(files));
  }

  /** Three paths of which the middle one is not a Swift file, as in
      `[a.swift, b.txt, c.swift]`: the outer two are kept, in order. */
  lemma MixedListExample(a: Path, b: Path, c: Path)
    requires IsSwiftFile(a) && !IsSwiftFile(b) && IsSwiftFile(c)
    ensures SwiftFiles([a, b, c]) == [a, c]
  {
    FilterDropsMiddle(a, b, c, IsSwiftFile);
  }

  /** The same three paths joined: the argument is the outer two around one
      comma, `"a.swift,c.swift"` in the example. */
  lemma MixedListJoinedExample(a: Path, b: Path, c: Path)
    requires IsSwiftFile(a) && !IsSwiftFile(b) && IsSwiftFile(c)
    ensures SwiftFilesJoined([a, b, c]) == a + [Comma] + c
  {
    MixedListExample(a, b, c);
    assert Join([a, c], Comma) == a + [Comma] + Join([c], Comma);
  }
}
