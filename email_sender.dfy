/**
 * The e-mail sender agent (`EmailSenderAgent.run`). The message is stripped
 * and cut into lines; "To:" and "Subject:" header lines (in any letter case)
 * are read until the first blank line that follows a recipient; without a
 * recipient header the first e-mail-shaped piece of the message is used and
 * the whole message becomes the body. The SMTP session is a parameter: `None`
 * when it succeeds, `Some(e)` carrying the text of the exception it raised.
 */
module EmailSender {
  import opened Wrappers
  import opened Strings

  const DefaultSubject: string := "No Subject"

  const NoRecipientError: string :=
    "Error: Could not find a recipient email address. Please specify 'To: <email>' in the message or context."

  predicate IsToHeader(line: string) { StartsWith(Lower(line), "to:") }

  predicate IsSubjectHeader(line: string) { StartsWith(Lower(line), "subject:") }

  predicate IsBlank(line: string) { PyStrip(line) == "" }

  /** The state of the header loop when it ends: recipient, subject and the index of the first body line. */
  datatype Headers = Headers(to: Option<string>, subject: string, bodyStart: nat)

  /** The header loop from line `i` on, with the recipient and subject read so far. */
  function ScanFrom(lines: seq<string>, i: nat, to: Option<string>, subject: string): (h: Headers)
    requires i <= |lines|
    ensures h.bodyStart <= |lines|
    ensures h.bodyStart > 0 ==> i < h.bodyStart && IsBlank(lines[h.bodyStart - 1]) && Truthy(h.to)
    decreases |lines| - i
  {
    if i == |lines| then Headers(to, subject, 0)
    else
      var line := lines[i];
      if IsToHeader(line) then ScanFrom(lines, i + 1, Some(PyStrip(line[3..])), subject)
      else if IsSubjectHeader(line) then ScanFrom(lines, i + 1, to, PyStrip(line[8..]))
      else if IsBlank(line) && Truthy(to) then Headers(to, subject, i + 1)
      else ScanFrom(lines, i + 1, to, subject)
  }

  function Scan(lines: seq<string>): Headers {
    ScanFrom(lines, 0, None, DefaultSubject)
  }

  /** The header loop of `run`, which leaves at the first blank line once a recipient is known. */
  method ParseHeaders(lines: seq<string>) returns (h: Headers)
    ensures h == Scan(lines)
  {
    var to: Option<string> := None;
    var subject := DefaultSubject;
    var bodyStart := 0;
    var i := 0;
    while i < |lines|
      invariant 0 <= i <= |lines|
      invariant bodyStart == 0
      invariant ScanFrom(lines, i, to, subject) == Scan(lines)
    {
      var line := lines[i];
      if IsToHeader(line) {
        to := Some(PyStrip(line[3..]));
      } else if IsSubjectHeader(line) {
        subject := PyStrip(line[8..]);
      } else if IsBlank(line) {
        if Truthy(to) {
          bodyStart := i + 1;
          break;
        }
      }
      i := i + 1;
    }
    h := Headers(to, subject, bodyStart);
  }

  // ---------------------------------------------------------------------------
  // The pattern `[\w\.-]+@[\w\.-]+\.\w+`, searched for with `re.search`

  /** `\w`, restricted to ASCII: a letter, a digit or '_'. */
  predicate IsWordChar(c: char) { IsAlnumChar(c) || c == '_' }

  /** `[\w\.-]`. */
  predicate IsAddressChar(c: char) { IsWordChar(c) || c == '.' || c == '-' }

  predicate AllAddressChars(s: string) { forall j :: 0 <= j < |s| ==> IsAddressChar(s[j]) }

  predicate AllWordChars(s: string) { forall j :: 0 <= j < |s| ==> IsWordChar(s[j]) }

  /** The end of the longest run of address characters starting at `i`. */
  function AddressEnd(s: string, i: nat): (k: nat)
    requires i <= |s|
    ensures i <= k <= |s| && AllAddressChars(s[i..k])
    ensures k < |s| ==> !IsAddressChar(s[k])
    decreases |s| - i
  {
    if i < |s| && IsAddressChar(s[i]) then AddressEnd(s, i + 1) else i
  }

  /** The end of the longest run of word characters starting at `i`. */
  function WordEnd(s: string, i: nat): (k: nat)
    requires i <= |s|
    ensures i <= k <= |s| && AllWordChars(s[i..k])
    ensures k < |s| ==> !IsWordChar(s[k])
    decreases |s| - i
  {
    if i < |s| && IsWordChar(s[i]) then WordEnd(s, i + 1) else i
  }

  /** A '.' at `d` that a word character follows: where `\.\w+` can begin. */
  predicate DotBeforeWord(s: string, d: nat) { d + 1 < |s| && s[d] == '.' && IsWordChar(s[d + 1]) }

  /** The last position `e` in `[lo, hi)` holding a '.' followed by a word character. */
  function LastDot(s: string, lo: nat, hi: nat): (e: Option<nat>)
    requires hi <= |s|
    ensures e.Some? ==> lo <= e.value < hi && e.value + 1 < |s| && s[e.value] == '.' && IsWordChar(s[e.value + 1])
    decreases hi
  {
    if hi <= lo then None
    else if DotBeforeWord(s, hi - 1) then Some(hi - 1)
    else LastDot(s, lo, hi - 1)
  }

  /**
   * The match of the pattern that starts at `i`, if any. The first `[\w\.-]+`
   * can only end right before the '@'; the second one, being greedy, ends at
   * the last '.' that a word character follows; `\w+` then runs as far as it can.
   */
  function MatchAt(s: string, i: nat): Option<string>
    requires i <= |s|
  {
    if i == |s| || !IsAddressChar(s[i]) then None
    else
      var k := AddressEnd(s, i);
      if k == |s| || s[k] != '@' then None
      else
        var m := AddressEnd(s, k + 1);
        match LastDot(s, k + 2, m)
        case None => None
        case Some(e) => Some(s[i..WordEnd(s, e + 1)])
  }

  /** `re.search`: the match at the leftmost position where there is one. */
  function SearchFrom(s: string, i: nat): Option<string>
    requires i <= |s|
    decreases |s| - i
  {
    if i == |s| then None
    else match MatchAt(s, i)
      case Some(t) => Some(t)
      case None => SearchFrom(s, i + 1)
  }

  function FindAddress(message: string): Option<string> {
    SearchFrom(message, 0)
  }

  /**
   * An independent reading of the pattern as a whole-string test: a non-empty
   * run of address characters, '@', then, after the last '.', a non-empty
   * run of word characters preceded by a non-empty run of address characters.
   */
  predicate AddressShaped(t: string, at: nat, dot: nat) {
    0 < at && at + 1 < dot && dot + 1 < |t|
    && t[at] == '@' && t[dot] == '.'
    && AllAddressChars(t[..at]) && AllAddressChars(t[at + 1..dot]) && AllWordChars(t[dot + 1..])
  }

  // ---------------------------------------------------------------------------
  // The whole run

  /** What `run` decides before touching the network. */
  datatype Plan = NoRecipient | Send(to: string, subject: string, body: string)

  function Lines(message: string): seq<string> { SplitOn(PyStrip(message), '\n') }

  function Prepare(message: string): Plan {
    var lines := Lines(message);
    var h := Scan(lines);
    if Truthy(h.to) then Send(h.to.value, h.subject, Join(lines[h.bodyStart..], "\n"))
    else match FindAddress(message)
      case None => NoRecipient
      case Some(t) => Send(t, h.subject, Join(lines, "\n"))
  }

  /** The answer of `run` once the plan meets the SMTP outcome. */
  function Answer(message: string, smtpError: Option<string>): string {
    match Prepare(message)
    case NoRecipient => NoRecipientError
    case Send(to, subject, _) =>
      match smtpError
      case Some(e) => "Error sending email: " + e
      case None => "Email sent successfully to " + to + " with subject '" + subject + "'."
  }

  /** `EmailSenderAgent.run`: parses, falls back to the address search, and reports the SMTP outcome. */
  method Run(message: string, smtpError: Option<string>) returns (answer: string, sent: Option<Plan>)
    ensures answer == Answer(message, smtpError)
    ensures sent.Some? <==> Prepare(message).Send? && smtpError.None?
    ensures sent.Some? ==> sent.value == Prepare(message)
    ensures sent.Some? ==> answer == "Email sent successfully to " + sent.value.to + " with subject '" + sent.value.subject + "'."
    ensures Prepare(message).Send? && smtpError.Some? ==> answer == "Error sending email: " + smtpError.value
    ensures Prepare(message).NoRecipient? ==> answer == NoRecipientError
  {
    var lines := SplitOn(PyStrip(message), '\n');
    var h := ParseHeaders(lines);
    var to := h.to;
    var bodyStart := h.bodyStart;
    if !Truthy(to) {
      var found := FindAddress(message);
      if found.Some? {
        to := found;
        bodyStart := 0;
      } else {
        return NoRecipientError, None;
      }
    }
    var body := Join(lines[bodyStart..], "\n");
    if smtpError.Some? {
      return "Error sending email: " + smtpError.value, None;
    }
    sent := Some(Send(to.value, h.subject, body));
    answer := "Email sent successfully to " + to.value + " with subject '" + h.subject + "'.";
  }

  // ---------------------------------------------------------------------------
  // Properties

  /** Without any "Subject:" line the subject stays "No Subject". */
  lemma {:induction false} SubjectDefault(lines: seq<string>, i: nat, to: Option<string>)
    requires i <= |lines|
    requires forall j :: i <= j < |lines| ==> !IsSubjectHeader(lines[j])
    ensures ScanFrom(lines, i, to, DefaultSubject).subject == DefaultSubject
    decreases |lines| - i
  {
    if i < |lines| {
      var line := lines[i];
      if IsToHeader(line) {
        SubjectDefault(lines, i + 1, Some(PyStrip(line[3..])));
      } else if !(IsBlank(line) && Truthy(to)) {
        SubjectDefault(lines, i + 1, to);
      }
    }
  }

  /** The ASCII upper-case form of a lower-case letter; any other character is kept. */
  function UpperChar(c: char): char {
    if 'a' <= c <= 'z' then (c as int - 32) as char else c
  }

  /** `line` begins with `word`, each letter of it written in either case. */
  predicate BeginsIgnoringCase(line: string, word: string) {
    |word| <= |line| && forall j :: 0 <= j < |word| ==> line[j] == word[j] || line[j] == UpperChar(word[j])
  }

  /** Lower-casing a prefix matches a word without capitals exactly when the prefix spells it in any case. */
  lemma LowerPrefix(line: string, word: string)
    requires forall j :: 0 <= j < |word| ==> !('A' <= word[j] <= 'Z')
    ensures StartsWith(Lower(line), word) <==> BeginsIgnoringCase(line, word)
  {
    if BeginsIgnoringCase(line, word) {
      assert Lower(line)[..|word|] == word;
    }
    if StartsWith(Lower(line), word) {
      forall j | 0 <= j < |word| ensures line[j] == word[j] || line[j] == UpperChar(word[j]) {
        assert Lower(line)[..|word|][j] == LowerChar(line[j]);
      }
    }
  }

  /** Both header prefixes are recognised in any letter case. */
  lemma HeaderForms(line: string)
    ensures IsToHeader(line) <==> BeginsIgnoringCase(line, "to:")
    ensures IsSubjectHeader(line) <==> BeginsIgnoringCase(line, "subject:")
  {
    LowerPrefix(line, "to:");
    LowerPrefix(line, "subject:");
  }

  /**
   * A "To:" line, in any letter case, sets the recipient to the rest of the
   * line, stripped; a "Subject:" line sets the subject the same way.
   */
  lemma HeaderCase(lines: seq<string>, i: nat, to: Option<string>, subject: string)
    requires i < |lines|
    ensures BeginsIgnoringCase(lines[i], "to:") ==>
      ScanFrom(lines, i, to, subject) == ScanFrom(lines, i + 1, Some(PyStrip(lines[i][3..])), subject)
    ensures BeginsIgnoringCase(lines[i], "subject:") ==>
      ScanFrom(lines, i, to, subject) == ScanFrom(lines, i + 1, to, PyStrip(lines[i][8..]))
  {
    var line := lines[i];
    HeaderForms(line);
    if BeginsIgnoringCase(line, "subject:") {
      assert Lower(line)[0] == 's';
      assert !StartsWith(Lower(line), "to:") by {
        assert Lower(line)[..3][0] == 's';
      }
    }
  }

  /** A line of white space only begins with white space, so it is no header. */
  lemma {:induction false} BlankStartsWithSpace(line: string)
    requires line != [] && IsBlank(line)
    ensures line[0] in PySpace
    decreases |line|
  {
    if line[0] !in PySpace && line[|line| - 1] in PySpace {
      var shorter := line[..|line| - 1];
      assert shorter != [] && shorter[0] == line[0];
      BlankStartsWithSpace(shorter);
    }
  }

  lemma BlankNotHeader(line: string)
    requires IsBlank(line)
    ensures !IsToHeader(line) && !IsSubjectHeader(line)
  {
    if line != [] {
      BlankStartsWithSpace(line);
      assert Lower(line)[0] == line[0];
    }
  }

  /** Before the first "To:" line the loop only reads subjects: a blank line there does not end it. */
  lemma {:induction false} ScanBeforeTo(lines: seq<string>, k: nat, i: nat, subject: string) returns (later: string)
    requires k <= i <= |lines|
    requires forall n :: k <= n < i ==> !IsToHeader(lines[n])
    ensures ScanFrom(lines, k, None, subject) == ScanFrom(lines, i, None, later)
    decreases i - k
  {
    if k == i {
      later := subject;
    } else {
      var line := lines[k];
      assert !IsToHeader(line) && !Truthy(None);
      var next := if IsSubjectHeader(line) then PyStrip(line[8..]) else subject;
      assert ScanFrom(lines, k, None, subject) == ScanFrom(lines, k + 1, None, next);
      later := ScanBeforeTo(lines, k + 1, i, next);
    }
  }

  /** With a recipient known, the loop ends at the next blank line when no "To:" line comes first. */
  lemma {:induction false} ScanToBlank(lines: seq<string>, k: nat, j: nat, to: string, subject: string) returns (later: string)
    requires k <= j < |lines| && to != ""
    requires forall n :: k <= n < j ==> !IsToHeader(lines[n]) && !IsBlank(lines[n])
    requires IsBlank(lines[j])
    ensures ScanFrom(lines, k, Some(to), subject) == Headers(Some(to), later, j + 1)
    decreases j - k
  {
    var line := lines[k];
    if k == j {
      BlankNotHeader(line);
      assert ScanFrom(lines, k, Some(to), subject) == Headers(Some(to), subject, j + 1);
      later := subject;
    } else {
      assert !IsToHeader(line) && !IsBlank(line);
      var next := if IsSubjectHeader(line) then PyStrip(line[8..]) else subject;
      assert ScanFrom(lines, k, Some(to), subject) == ScanFrom(lines, k + 1, Some(to), next);
      later := ScanToBlank(lines, k + 1, j, to, next);
    }
  }

  /**
   * The first "To:" line of the message names the recipient; when the lines
   * after it hold no other "To:" line and no blank line until some blank line,
   * the mail goes to that recipient with the lines after that blank line as its body.
   */
  lemma ExplicitRecipient(message: string, i: nat, j: nat)
    requires var lines := Lines(message);
      && i < j < |lines|
      && BeginsIgnoringCase(lines[i], "to:") && PyStrip(lines[i][3..]) != ""
      && (forall n :: 0 <= n < i ==> !BeginsIgnoringCase(lines[n], "to:"))
      && (forall n :: i < n < j ==> !BeginsIgnoringCase(lines[n], "to:") && !IsBlank(lines[n]))
      && IsBlank(lines[j])
    ensures var lines := Lines(message);
      Prepare(message) == Send(PyStrip(lines[i][3..]), Scan(lines).subject, Join(lines[j + 1..], "\n"))
  {
    var lines := Lines(message);
    forall n | 0 <= n < |lines| ensures IsToHeader(lines[n]) <==> BeginsIgnoringCase(lines[n], "to:") {
      HeaderForms(lines[n]);
    }
    var to := PyStrip(lines[i][3..]);
    var before := ScanBeforeTo(lines, 0, i, DefaultSubject);
    assert ScanFrom(lines, i, None, before) == ScanFrom(lines, i + 1, Some(to), before);
    var after := ScanToBlank(lines, i + 1, j, to, before);
    assert Scan(lines) == Headers(Some(to), after, j + 1);
  }

  /** Without a recipient header the first address found is used, and the body is the whole stripped message. */
  lemma FallbackRecipient(message: string, t: string)
    requires !Truthy(Scan(Lines(message)).to) && FindAddress(message) == Some(t)
    ensures Prepare(message) == Send(t, Scan(Lines(message)).subject, PyStrip(message))
  {
    JoinSplitOn(PyStrip(message), '\n');
  }

  /** When the loop never reached a blank line after a recipient, the body is the whole stripped message. */
  lemma WholeBody(message: string)
    requires Prepare(message).Send? && Scan(Lines(message)).bodyStart == 0
    ensures Prepare(message).body == PyStrip(message)
  {
    JoinSplitOn(PyStrip(message), '\n');
    assert Lines(message)[0..] == Lines(message);
  }

  /** Nothing is sent, and the fixed error is the answer, exactly when neither a header nor the search gives a recipient. */
  lemma NoRecipientCase(message: string, smtpError: Option<string>)
    ensures Prepare(message) == NoRecipient <==> !Truthy(Scan(Lines(message)).to) && FindAddress(message) == None
    ensures Prepare(message) == NoRecipient ==> Answer(message, smtpError) == NoRecipientError
  {
  }

  /** `LastDot` finds the last such '.' in its range, and reports none only when there is none. */
  lemma {:induction false} LastDotGreedy(s: string, lo: nat, hi: nat)
    requires hi <= |s|
    ensures LastDot(s, lo, hi).Some? ==> forall d :: LastDot(s, lo, hi).value < d < hi ==> !DotBeforeWord(s, d)
    ensures LastDot(s, lo, hi).None? <==> forall d :: lo <= d < hi ==> !DotBeforeWord(s, d)
    decreases hi
  {
    if lo < hi && !DotBeforeWord(s, hi - 1) {
      LastDotGreedy(s, lo, hi - 1);
    }
  }

  /** A run of address characters stays one on any inner slice. */
  lemma AddressSlice(s: string, a: nat, b: nat, c: nat, d: nat)
    requires a <= b <= c <= d <= |s| && AllAddressChars(s[a..d])
    ensures AllAddressChars(s[b..c])
  {
    forall j | 0 <= j < c - b ensures IsAddressChar(s[b..c][j]) {
      assert s[b..c][j] == s[a..d][j + b - a];
    }
  }

  lemma ShapedSlice(s: string, i: nat, k: nat, e: nat, f: nat)
    requires i < k && k + 2 <= e && e + 1 < f <= |s| && s[k] == '@' && s[e] == '.'
    requires AllAddressChars(s[i..k]) && AllAddressChars(s[k + 1..e]) && AllWordChars(s[e + 1..f])
    ensures AddressShaped(s[i..f], k - i, e - i)
  {
    var t := s[i..f];
    assert t[..k - i] == s[i..k];
    var u, v := t[k - i + 1..e - i], s[k + 1..e];
    assert u == v by {
      forall j | 0 <= j < |u| ensures u[j] == v[j] {
        assert u[j] == t[k - i + 1 + j];
      }
    }
    assert t[e - i + 1..] == s[e + 1..f];
  }

  /** Every address the search returns has the shape the pattern describes. */
  lemma MatchShaped(s: string, i: nat) returns (at: nat, dot: nat)
    requires i <= |s| && MatchAt(s, i).Some?
    ensures AddressShaped(MatchAt(s, i).value, at, dot)
  {
    var k := AddressEnd(s, i);
    var m := AddressEnd(s, k + 1);
    var e := LastDot(s, k + 2, m).value;
    var f := WordEnd(s, e + 1);
    assert MatchAt(s, i).value == s[i..f];
    AddressSlice(s, k + 1, k + 1, e, m);
    ShapedSlice(s, i, k, e, f);
    at, dot := k - i, e - i;
  }

  lemma {:induction false} SearchShaped(s: string, i: nat) returns (at: nat, dot: nat)
    requires i <= |s| && SearchFrom(s, i).Some?
    ensures AddressShaped(SearchFrom(s, i).value, at, dot)
    decreases |s| - i
  {
    if MatchAt(s, i).Some? {
      at, dot := MatchShaped(s, i);
    } else {
      at, dot := SearchShaped(s, i + 1);
    }
  }

  /** The fallback recipient, when there is one, is e-mail shaped. */
  lemma FoundAddressShaped(message: string) returns (at: nat, dot: nat)
    requires FindAddress(message).Some?
    ensures AddressShaped(FindAddress(message).value, at, dot)
  {
    at, dot := SearchShaped(message, 0);
  }

  /** `AddressEnd` runs at least to the end of a run of address characters, and stops right there when the run ends. */
  lemma {:induction false} AddressEndAt(s: string, i: nat, j: nat)
    requires i <= j <= |s| && AllAddressChars(s[i..j])
    ensures AddressEnd(s, i) >= j
    ensures j < |s| && !IsAddressChar(s[j]) ==> AddressEnd(s, i) == j
    decreases j - i
  {
    if i < j {
      assert IsAddressChar(s[i..j][0]);
      AddressSlice(s, i, i + 1, j, j);
      AddressEndAt(s, i + 1, j);
    }
  }

  /** Everything after the '@' of an e-mail shaped piece is made of address characters. */
  lemma ShapedTail(t: string, at: nat, dot: nat)
    requires AddressShaped(t, at, dot)
    ensures AllAddressChars(t[at + 1..])
  {
    var tail := t[at + 1..];
    forall n | 0 <= n < |tail| ensures IsAddressChar(tail[n]) {
      var x := at + 1 + n;
      if x < dot {
        assert tail[n] == t[at + 1..dot][n];
      } else if x > dot {
        assert tail[n] == t[dot + 1..][x - (dot + 1)];
      }
    }
  }

  /** The pattern matches at `q` when an '@' ends a run of address characters from `q` and a '.' before a word character follows it. */
  lemma MatchFrom(s: string, q: nat, k: nat, e: nat, r: nat)
    requires q < k && k + 2 <= e && e < r <= |s|
    requires AllAddressChars(s[q..k]) && s[k] == '@' && AllAddressChars(s[k + 1..r]) && DotBeforeWord(s, e)
    ensures MatchAt(s, q).Some?
  {
    assert IsAddressChar(s[q..k][0]);
    AddressEndAt(s, q, k);
    AddressEndAt(s, k + 1, r);
    LastDotGreedy(s, k + 2, AddressEnd(s, k + 1));
  }

  /** The pattern matches at every position where an e-mail shaped piece of the text begins. */
  lemma MatchComplete(s: string, q: nat, r: nat, at: nat, dot: nat)
    requires q <= r <= |s| && AddressShaped(s[q..r], at, dot)
    ensures MatchAt(s, q).Some?
  {
    var t := s[q..r];
    assert t[..at] == s[q..q + at];
    ShapedTail(t, at, dot);
    assert t[at + 1..] == s[q + at + 1..r];
    assert s[q + dot + 1] == t[dot + 1..][0];
    MatchFrom(s, q, q + at, q + dot, r);
  }

  /**
   * The search returns the match at the leftmost position where the pattern
   * matches, and no e-mail shaped piece of the text begins before it.
   */
  lemma {:induction false} SearchLeftmost(s: string, i: nat) returns (p: nat)
    requires i <= |s| && SearchFrom(s, i).Some?
    ensures i <= p < |s| && MatchAt(s, p) == SearchFrom(s, i)
    ensures forall q :: i <= q < p ==> MatchAt(s, q).None?
    ensures forall q, r, at, dot :: i <= q < p && q <= r <= |s| ==> !AddressShaped(s[q..r], at, dot)
    decreases |s| - i
  {
    if MatchAt(s, i).Some? {
      p := i;
    } else {
      p := SearchLeftmost(s, i + 1);
      forall r, at, dot | i <= r <= |s| ensures !AddressShaped(s[i..r], at, dot) {
        if AddressShaped(s[i..r], at, dot) {
          MatchComplete(s, i, r, at, dot);
        }
      }
    }
  }

  /** The search finds nothing only when no piece of the text from `i` on is e-mail shaped. */
  lemma {:induction false} SearchNothing(s: string, i: nat)
    requires i <= |s| && SearchFrom(s, i).None?
    ensures forall q, r, at, dot :: i <= q <= r <= |s| ==> !AddressShaped(s[q..r], at, dot)
    decreases |s| - i
  {
    if i < |s| {
      SearchNothing(s, i + 1);
      forall r, at, dot | i <= r <= |s| ensures !AddressShaped(s[i..r], at, dot) {
        if AddressShaped(s[i..r], at, dot) {
          MatchComplete(s, i, r, at, dot);
        }
      }
    }
  }

  /** Without a recipient header, the fixed error is given only for a message holding nothing e-mail shaped. */
  lemma NoAddressAnywhere(message: string)
    requires Prepare(message).NoRecipient?
    ensures forall q, r, at, dot :: 0 <= q <= r <= |message| ==> !AddressShaped(message[q..r], at, dot)
  {
    SearchNothing(message, 0);
  }
}
