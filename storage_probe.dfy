/**
 * The SD-card write test: write a fixed sentence to a file in the client's temporary
 * directory, read the first line back and compare. The file system itself is not
 * modelled; what it did is given as a StorageOutcome.
 */
module StorageProbe {
  /**
   * The sentence written to, and expected back from, the test file. It is spelled in
   * pieces only so that the verifier can see, piece by piece, that it holds no newline.
   */
  const Magic: string := "Whosoever holds " + "this hammer, " + "if they be worthy, " + "shall possess " + "the power of Thor."

  /** Name of the test file inside the client's temporary directory. */
  const TestFileName: string := "write_test.txt"

  /** Path of the test file: the temporary directory with the file name appended. */
  function TestFilePath(tmpPath: string): string
  {
    tmpPath + TestFileName
  }

  /** What happened to the two file streams, and what the read stream yields. */
  datatype StorageOutcome = StorageOutcome(writeOpened: bool, readOpened: bool, contents: string)

  /**
   * The line a newline-delimited `getline` extracts from a stream holding `contents`:
   * the longest prefix free of newlines.
   */
  function FirstLine(contents: string): (line: string)
    ensures line <= contents
    ensures '\n' !in line
    ensures |line| < |contents| ==> contents[|line|] == '\n'
  {
    if contents == [] || contents[0] == '\n' then []
    else [contents[0]] + FirstLine(contents[1..])
  }

  /** The write test succeeds: both opens worked and the line read back is the sentence. */
  predicate WriteTestPasses(o: StorageOutcome)
  {
    o.writeOpened && o.readOpened && FirstLine(o.contents) == Magic
  }

  /**
   * For a newline-free line `m`, the line read back equals `m` exactly when the file
   * holds `m`, alone or followed by a newline and anything else.
   */
  lemma FirstLineIs(m: string, contents: string)
    requires '\n' !in m
    ensures FirstLine(contents) == m <==> contents == m || m + "\n" <= contents
  {
    var line := FirstLine(contents);
    if contents == m || m + "\n" <= contents {
      assert m <= contents;
      assert forall k :: 0 <= k < |m| ==> contents[k] == m[k] && m[k] != '\n';
      assert forall k :: 0 <= k < |line| ==> contents[k] == line[k] && line[k] != '\n';
      assert |contents| > |m| ==> contents[|m|] == '\n';
    }
  }

  /** The sentence contains no newline, so `getline` can return it whole. */
  lemma MagicHasNoNewline()
    ensures '\n' !in Magic
  {
  }

  /** The line read back equals the sentence exactly when the file begins with the sentence as a whole line. */
  lemma FirstLineIsMagic(contents: string)
    ensures FirstLine(contents) == Magic <==> contents == Magic || Magic + "\n" <= contents
  {
    MagicHasNoNewline();
    FirstLineIs(Magic, contents);
  }

  /**
   * The write test, flag by flag. The file is removed only when the read stream
   * opened after a successful write.
   */
  method WriteTest(o: StorageOutcome) returns (writeFailed: bool, removed: bool)
    ensures writeFailed <==> !WriteTestPasses(o)
    ensures removed <==> o.writeOpened && o.readOpened
  {
    writeFailed := false;
    removed := false;
    if !o.writeOpened {
      writeFailed := true;
    }
    if !writeFailed && o.readOpened {
      var line := FirstLine(o.contents);
      if line != Magic {
        writeFailed := true;
      }
      removed := true;
    } else {
      writeFailed := true;
    }
  }
}
