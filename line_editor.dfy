/**
 * The line and word editor agent (`ceditAgent.run`). Each line of the message
 * is cut into white-space separated words; every word loses its leading and
 * trailing punctuation and is written back followed by a space when it is
 * alphanumeric, or surrounded by spaces otherwise; the rebuilt line is
 * stripped, and the lines are joined again with '\n'.
 */
module LineEditor {
  import opened Strings

  /** The characters `word.strip('.,!?"\'')` removes. */
  const Punctuation: set<char> := {'.', ',', '!', '?', '"', '\''}

  /** A word after its punctuation is stripped. */
  function Clean(word: string): string {
    Strip(word, Punctuation)
  }

  /** The text one word contributes to its line. */
  function Emit(word: string): (r: string)
    ensures |r| > 0 && r[|r| - 1] == ' '
  {
    var w := Clean(word);
    if IsAlnum(w) then w + " " else " " + w + " "
  }

  /** `edited_line` after the words of `words` have been added, one `+=` at a time. */
  function Raw(words: seq<string>): string
    decreases |words|
  {
    if words == [] then "" else Raw(words[..|words| - 1]) + Emit(words[|words| - 1])
  }

  /** One edited line: the stripped concatenation of its emitted words. */
  function EditLine(line: string): string {
    PyStrip(Raw(Words(line)))
  }

  /** The edited lines, in the order of the loop. */
  function EditLines(lines: seq<string>): seq<string>
    decreases |lines|
  {
    if lines == [] then [] else EditLines(lines[..|lines| - 1]) + [EditLine(lines[|lines| - 1])]
  }

  /** The agent's answer. */
  function Edited(message: string): string {
    Join(EditLines(SplitOn(message, '\n')), "\n")
  }

  /** The body of the inner loop: strips the punctuation and chooses the spacing. */
  method EditWord(word: string) returns (piece: string)
    ensures piece == Emit(word)
  {
    var w := Strip(word, Punctuation);
    if IsAlnum(w) {
      piece := w + " ";
    } else {
      piece := " " + w + " ";
    }
  }

  /** The inner loop of `ceditAgent.run`: builds `edited_line` from the words of one line. */
  method BuildLine(words: seq<string>) returns (editedLine: string)
    ensures editedLine == Raw(words)
  {
    editedLine := "";
    var j := 0;
    while j < |words|
      invariant 0 <= j <= |words|
      invariant editedLine == Raw(words[..j])
    {
      var piece := EditWord(words[j]);
      editedLine := editedLine + piece;
      RawStep(words, j);
      j := j + 1;
    }
    assert words[..j] == words;
  }

  lemma RawStep(words: seq<string>, j: nat)
    requires j < |words|
    ensures Raw(words[..j + 1]) == Raw(words[..j]) + Emit(words[j])
  {
    assert words[..j + 1][..j] == words[..j];
  }

  /** `ceditAgent.run`: edits the lines one after the other and joins them. */
  method Run(message: string) returns (answer: string)
    ensures answer == Edited(message)
  {
    var lines := SplitOn(message, '\n');
    var editedLines: seq<string> := [];
    var i := 0;
    while i < |lines|
      invariant 0 <= i <= |lines|
      invariant editedLines == EditLines(lines[..i])
    {
      assert lines[..i + 1][..i] == lines[..i];
      var editedLine := BuildLine(Words(lines[i]));
      editedLine := PyStrip(editedLine);
      editedLines := editedLines + [editedLine];
      i := i + 1;
    }
    assert lines[..i] == lines;
    answer := Join(editedLines, "\n");
  }

  // ---------------------------------------------------------------------------
  // Properties

  /** What a word leaves once the line is split again: its cleaned form, or nothing when that is empty. */
  function Kept(words: seq<string>): seq<string>
    decreases |words|
  {
    if words == [] then []
    else Kept(words[..|words| - 1]) + (if Clean(words[|words| - 1]) == [] then [] else [Clean(words[|words| - 1])])
  }

  /** A word followed by a space splits back into that word alone. */
  lemma WordsTrailingSpace(w: string)
    requires NoneIn(w, PySpace)
    ensures Words(w + " ") == if w == [] then [] else [w]
  {
    assert w + " " == w + [' '] + [];
    WordsAppend(w, ' ', []);
    if w != [] {
      WordsOfOne(w);
    }
  }

  /** A word with a space on both sides splits back into that word alone. */
  lemma WordsSurrounded(w: string)
    requires NoneIn(w, PySpace)
    ensures Words(" " + w + " ") == if w == [] then [] else [w]
  {
    assert " " + w + " " == [] + [' '] + (w + " ");
    WordsAppend([], ' ', w + " ");
    WordsTrailingSpace(w);
  }

  /** The words one emitted word splits into. */
  lemma WordsOfEmit(word: string)
    requires NoneIn(word, PySpace)
    ensures Words(Emit(word)) == if Clean(word) == [] then [] else [Clean(word)]
  {
    var w := Clean(word);
    StripNoneIn(word, Punctuation, PySpace);
    WordsTrailingSpace(w);
    WordsSurrounded(w);
  }

  /** A non-empty line under construction ends with a space. */
  lemma RawEnds(words: seq<string>)
    requires words != []
    ensures var r := Raw(words); |r| > 0 && r[|r| - 1] == ' '
  {
    var e := Emit(words[|words| - 1]);
    assert Raw(words) == Raw(words[..|words| - 1]) + e;
  }

  lemma {:induction false} WordsOfRaw(words: seq<string>)
    requires forall i :: 0 <= i < |words| ==> NoneIn(words[i], PySpace)
    ensures Words(Raw(words)) == Kept(words)
    decreases |words|
  {
    if words != [] {
      var init, last := words[..|words| - 1], words[|words| - 1];
      assert forall i :: 0 <= i < |init| ==> init[i] == words[i];
      WordsOfRaw(init);
      WordsOfEmit(last);
      var r := Raw(init);
      var e := Emit(last);
      assert Raw(words) == r + e;
      if init != [] {
        RawEnds(init);
      }
      WordsConcat(r, e);
    }
  }

  /**
   * Splitting an edited line again gives exactly the line's words with their
   * punctuation stripped, in order, minus those that were punctuation only:
   * the editor changes spacing and punctuation and nothing else.
   */
  lemma EditLineWords(line: string)
    ensures Words(EditLine(line)) == Kept(Words(line))
  {
    WordsShape(line);
    WordsOfRaw(Words(line));
    WordsStrip(Raw(Words(line)));
  }

  /** A line of white space only becomes an empty line. */
  lemma BlankLine(line: string)
    requires forall k :: 0 <= k < |line| ==> line[k] in PySpace
    ensures EditLine(line) == ""
  {
    WordsStrip(line);
    StripAll(line, PySpace);
  }

  /** An edited line neither starts nor ends with white space. */
  lemma EditLineStripped(line: string)
    ensures var r := EditLine(line); r != [] ==> r[0] !in PySpace && r[|r| - 1] !in PySpace
  {
    var raw := Raw(Words(line));
    assert EditLine(line) == Strip(raw, PySpace);
    StripShape(raw, PySpace);
  }

  lemma {:induction false} RawNoNewline(words: seq<string>)
    requires forall i :: 0 <= i < |words| ==> NoneIn(words[i], PySpace)
    ensures '\n' !in Raw(words)
    decreases |words|
  {
    if words != [] {
      var last := words[|words| - 1];
      RawNoNewline(words[..|words| - 1]);
      StripNoneIn(last, Punctuation, PySpace);
      var w := Clean(last);
      assert NoneIn(w, {'\n'});
      assert NoneIn(" ", {'\n'});
      NoneInAppend(w, " ", {'\n'});
      NoneInAppend(" ", w + " ", {'\n'});
      assert " " + w + " " == " " + (w + " ");
      assert NoneIn(Raw(words[..|words| - 1]), {'\n'});
      NoneInAppend(Raw(words[..|words| - 1]), Emit(last), {'\n'});
    }
  }

  /** An edited line never holds a line break. */
  lemma EditLineNoNewline(line: string)
    ensures '\n' !in EditLine(line)
  {
    WordsShape(line);
    RawNoNewline(Words(line));
    assert NoneIn(Raw(Words(line)), {'\n'});
    StripNoneIn(Raw(Words(line)), PySpace, {'\n'});
  }

  /** One edited line per line. */
  lemma {:induction false} EditLinesLength(lines: seq<string>)
    ensures |EditLines(lines)| == |lines|
    decreases |lines|
  {
    if lines != [] {
      EditLinesLength(lines[..|lines| - 1]);
    }
  }

  /** The i-th edited line is the edit of the i-th line. */
  lemma {:induction false} EditLinesAt(lines: seq<string>, i: nat)
    requires i < |lines|
    ensures |EditLines(lines)| == |lines| && EditLines(lines)[i] == EditLine(lines[i])
    decreases |lines|
  {
    var n := |lines| - 1;
    var front := lines[..n];
    EditLinesLength(lines);
    EditLinesLength(front);
    if i < n {
      EditLinesAt(front, i);
      assert front[i] == lines[i];
    }
  }

  /** The answer has exactly as many lines as the message, the i-th being the edit of the i-th. */
  lemma EditedLines(message: string)
    ensures SplitOn(Edited(message), '\n') == EditLines(SplitOn(message, '\n'))
    ensures |SplitOn(Edited(message), '\n')| == |SplitOn(message, '\n')|
    ensures forall i :: 0 <= i < |SplitOn(message, '\n')| ==>
      SplitOn(Edited(message), '\n')[i] == EditLine(SplitOn(message, '\n')[i])
  {
    var lines := SplitOn(message, '\n');
    EditLinesLength(lines);
    forall i | 0 <= i < |lines| ensures EditLines(lines)[i] == EditLine(lines[i]) {
      EditLinesAt(lines, i);
    }
    var edited := EditLines(lines);
    forall i | 0 <= i < |edited| ensures '\n' !in edited[i] {
      EditLineNoNewline(SplitOn(message, '\n')[i]);
    }
    SplitOnJoin(edited, '\n');
  }
}
