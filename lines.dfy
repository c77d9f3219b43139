/**
 * The input file as the two passes see it. `read_lines` either fails to open
 * the file or yields one read result per physical line; `flatten` keeps the
 * lines that decoded and drops the read errors. An input is modelled as
 * `None` (the file cannot be opened) or the sequence of read results, where
 * `None` is a line that failed to decode.
 */
module Lines {
  import opened Wrappers

  type RawLines = seq<Option<string>>

  /** `Iterator::flatten` over the read results: the decoded lines, in file order. */
  function Flatten(lines: RawLines): (d: seq<string>)
    ensures |d| <= |lines|
  {
    if |lines| == 0 then []
    else
      Flatten(lines[..|lines| - 1]) +
      match lines[|lines| - 1]
      case Some(text) => [text]
      case None => []
  }

  /** The lines a pass over `file` sees: none when the file cannot be opened. */
  function Decoded(file: Option<RawLines>): (d: seq<string>)
    ensures file.None? ==> d == []
    ensures file.Some? && (forall i :: 0 <= i < |file.value| ==> file.value[i].Some?) ==> |d| == |file.value|
  {
    match file
    case None => []
    case Some(lines) => FlattenKeepsAll(lines); Flatten(lines)
  }

  /** A line is kept exactly when some read result carries it. */
  lemma {:induction false} FlattenMembers(lines: RawLines, text: string)
    ensures text in Flatten(lines) <==> Some(text) in lines
  {
    if |lines| > 0 {
      var init := lines[..|lines| - 1];
      FlattenMembers(init, text);
      assert lines == init + [lines[|lines| - 1]];
    }
  }

  /** Nothing is dropped exactly when every line decoded. */
  lemma {:induction false} FlattenKeepsAll(lines: RawLines)
    ensures |Flatten(lines)| == |lines| <==> forall i :: 0 <= i < |lines| ==> lines[i].Some?
  {
    if |lines| > 0 {
      var init := lines[..|lines| - 1];
      FlattenKeepsAll(init);
      if |Flatten(lines)| == |lines| {
        assert |Flatten(init)| == |init|;
        forall i | 0 <= i < |lines| ensures lines[i].Some? {
          if i < |init| { assert lines[i] == init[i]; }
        }
      }
    }
  }

  /**
   * The first pass of `setup_store`: count the lines that decoded, or 0 when
   * the file cannot be opened.
   */
  method CountDecodedLines(file: Option<RawLines>) returns (fileLen: nat)
    ensures fileLen == |Decoded(file)|
  {
    fileLen := 0;
    if file.Some? {
      var lines := file.value;
      for i := 0 to |lines|
        invariant fileLen == |Flatten(lines[..i])|
      {
        assert lines[..i + 1][..i] == lines[..i];
        if lines[i].Some? {
          fileLen := fileLen + 1;
        }
      }
      assert lines[..|lines|] == lines;
    }
  }
}
