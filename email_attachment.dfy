/**
 * The attachment downloader agent (`EmailDownloaderAgent`). It reads today's
 * mail over IMAP, saves every named attachment under a cleaned file name,
 * and answers with the text extracted from the attachments, or with its
 * status log when there is none. The mailbox, the clock and the file system
 * are parameters: the session outcome carries today's date and the fetched
 * mails, and every attachment carries what reading it back gives.
 */
module EmailAttachment {
  import opened Wrappers
  import opened Strings

  const DefaultImapServer: string := "imap.gmail.com"
  const DefaultOutputFolder: string := "email_attachments"

  /** The agent's settings after the configuration dictionary is read. */
  datatype Settings = Settings(user: string, password: string, imapServer: string, outputFolder: string)

  /**
   * `__init__`: each setting comes from the configuration when present and
   * falls back to its default otherwise. The built-in account is a parameter.
   */
  function Configure(config: map<string, string>, builtinUser: string, builtinPassword: string): (s: Settings)
    ensures "imap_server" !in config ==> s.imapServer == DefaultImapServer
    ensures "imap_server" in config ==> s.imapServer == config["imap_server"]
    ensures "output_folder" !in config ==> s.outputFolder == DefaultOutputFolder
    ensures "output_folder" in config ==> s.outputFolder == config["output_folder"]
    ensures s.user == (if "email_user" in config then config["email_user"] else builtinUser)
    ensures s.password == (if "email_pass" in config then config["email_pass"] else builtinPassword)
  {
    Settings(Get(config, "email_user", builtinUser), Get(config, "email_pass", builtinPassword),
             Get(config, "imap_server", DefaultImapServer), Get(config, "output_folder", DefaultOutputFolder))
  }

  /** Python's `dict.get(key, default)`. */
  function Get(config: map<string, string>, key: string, default: string): string {
    if key in config then config[key] else default
  }

  // ---------------------------------------------------------------------------
  // clean_filename

  /** The characters a cleaned file name keeps: `isalnum()` (ASCII) or one of ' ', '.', '_', '-'. */
  predicate IsNameChar(c: char) { IsAlnumChar(c) || c in {' ', '.', '_', '-'} }

  predicate AllNameChars(s: string) { forall j :: 0 <= j < |s| ==> IsNameChar(s[j]) }

  /** `"".join(c for c in filename if ...)`: the allowed characters, in their order. */
  function KeepNameChars(s: string): string
    decreases |s|
  {
    if s == [] then [] else (if IsNameChar(s[0]) then [s[0]] else []) + KeepNameChars(s[1..])
  }

  /** `clean_filename`: "untitled" for a missing or empty name, else the allowed characters, stripped. */
  function CleanFilename(filename: Option<string>): string {
    if filename == None || filename == Some("") then "untitled"
    else PyStrip(KeepNameChars(filename.value))
  }

  // ---------------------------------------------------------------------------
  // run

  /** One MIME part of a fetched mail, with what the agent's file operations on it give. */
  datatype Part = Part(
    maintype: string,
    disposition: Option<string>,
    filename: Option<string>,
    /** The exception raised while writing the payload to its file, if any. */
    saveError: Option<string>,
    /** The page texts `PyPDFLoader` loads, or the text of the exception it raises. */
    pdfPages: Result<seq<string>, string>,
    /** The file read back as UTF-8 text, or the text of the exception raised. */
    fileText: Result<string, string>)

  /** An exception that ends the run: an `imaplib` error, or any other exception, with its text. */
  datatype Failure = ImapError(message: string) | OtherError(message: string)

  /** The answer an exception caught around the mailbox work gives. */
  function FailureText(f: Failure): string {
    match f
    case ImapError(e) => "IMAP Error: " + e + ". Please check your credentials."
    case OtherError(e) => "Error: " + e
  }

  /** One mail found today: what fetching it raises, if anything, and otherwise its subject and parts. */
  datatype Mail = Mail(fetchError: Option<Failure>, subject: string, parts: seq<Part>)

  /**
   * What connecting, logging in and searching give: the exception raised, or
   * today's date (as `%d-%b-%Y`) and the mails found.
   */
  datatype Session = Refused(failure: Failure) | Opened(today: string, mails: seq<Mail>)

  /** A part is saved when it is not a container, has a disposition and has a non-empty file name. */
  predicate IsAttachment(p: Part) {
    p.maintype != "multipart" && p.disposition.Some? && p.filename.Some? && p.filename.value != ""
  }

  predicate HasExtension(name: string, ext: string) { EndsWith(Lower(name), ext) }

  /** The block of extracted text one saved attachment contributes. */
  function Section(name: string, p: Part): (r: string)
    ensures r != ""
  {
    if HasExtension(name, ".pdf") then
      match p.pdfPages
      case Ok(pages) => "\n\n--- Content of " + name + " ---\n" + Join(pages, "\n")
      case Err(e) => "\n\n--- Error reading " + name + ": " + e + " ---"
    else if HasExtension(name, ".txt") then
      match p.fileText
      case Ok(text) => "\n\n--- Content of " + name + " ---\n" + text
      case Err(e) => "\n\n--- Error reading " + name + ": " + e + " ---"
    else "\n\n--- File " + name + " (Not supported for text extraction) ---"
  }

  /** The three accumulators of `run`. */
  datatype Acc = Acc(downloaded: seq<string>, log: seq<string>, extracted: string)

  /** What one part of a mail does: nothing, a saved attachment, or an exception that ends the run. */
  function Step(acc: Acc, subject: string, p: Part): Result<Acc, Failure> {
    if !IsAttachment(p) then Ok(acc)
    else if p.saveError.Some? then Err(OtherError(p.saveError.value))
    else
      var name := CleanFilename(p.filename);
      Ok(Acc(acc.downloaded + [name], acc.log + ["Downloaded: " + name + " from '" + subject + "'"],
             acc.extracted + Section(name, p)))
  }

  function StepParts(acc: Acc, subject: string, parts: seq<Part>): Result<Acc, Failure>
    decreases |parts|
  {
    if parts == [] then Ok(acc)
    else match StepParts(acc, subject, parts[..|parts| - 1])
      case Err(e) => Err(e)
      case Ok(a) => Step(a, subject, parts[|parts| - 1])
  }

  /** One mail: an exception while fetching it ends the run, otherwise its parts are processed. */
  function StepMail(acc: Acc, m: Mail): Result<Acc, Failure> {
    if m.fetchError.Some? then Err(m.fetchError.value) else StepParts(acc, m.subject, m.parts)
  }

  function StepMails(acc: Acc, mails: seq<Mail>): Result<Acc, Failure>
    decreases |mails|
  {
    if mails == [] then Ok(acc)
    else match StepMails(acc, mails[..|mails| - 1])
      case Err(e) => Err(e)
      case Ok(a) => StepMail(a, mails[|mails| - 1])
  }

  function ConnectLine(s: Settings): string {
    "Connecting to " + s.imapServer + " as " + s.user + "..."
  }

  function FoundLine(count: nat): string {
    "Found " + NatToString(count) + " new emails for today. Processing..."
  }

  /** The accumulators before the first mail is processed. */
  function Start(s: Settings, count: nat): Acc {
    Acc([], [ConnectLine(s), FoundLine(count)], "")
  }

  /** The answer once every mail has been processed. */
  function Outcome(s: Settings, acc: Acc): string {
    if acc.downloaded == [] then Join(acc.log, "\n") + "\nNo attachments found in the new emails."
    else if acc.extracted != "" then acc.extracted
    else Join(acc.log, "\n") + "\nSuccessfully downloaded " + NatToString(|acc.downloaded|)
         + " attachments to '" + s.outputFolder + "'."
  }

  /**
   * `run`. `folderError` is the exception `os.makedirs` raises when the output
   * folder is missing and cannot be created (`None` when it exists or is made).
   */
  function Answer(s: Settings, folderError: Option<string>, session: Session): string {
    if folderError.Some? then "Error creating output folder: " + folderError.value
    else match session
      case Refused(f) => FailureText(f)
      case Opened(today, mails) =>
        if mails == [] then "Connected successfully. No new unread emails found for today (" + today + ")."
        else match StepMails(Start(s, |mails|), mails)
          case Err(f) => FailureText(f)
          case Ok(acc) => Outcome(s, acc)
  }

  /** The loop over the parts of one mail; an exception while saving ends it. */
  method ProcessParts(acc: Acc, subject: string, parts: seq<Part>) returns (r: Result<Acc, Failure>)
    ensures r == StepParts(acc, subject, parts)
  {
    var downloaded, log, extracted := acc.downloaded, acc.log, acc.extracted;
    var j := 0;
    while j < |parts|
      invariant 0 <= j <= |parts|
      invariant StepParts(acc, subject, parts[..j]) == Ok(Acc(downloaded, log, extracted))
    {
      var p := parts[j];
      assert parts[..j + 1][..j] == parts[..j];
      if IsAttachment(p) {
        if p.saveError.Some? {
          assert StepParts(acc, subject, parts[..j + 1]) == Err(OtherError(p.saveError.value));
          SaveErrorSticks(acc, subject, parts, j + 1);
          return Err(OtherError(p.saveError.value));
        }
        var name := CleanFilename(p.filename);
        downloaded := downloaded + [name];
        log := log + ["Downloaded: " + name + " from '" + subject + "'"];
        extracted := extracted + Section(name, p);
      }
      j := j + 1;
    }
    assert parts[..j] == parts;
    r := Ok(Acc(downloaded, log, extracted));
  }

  /** `EmailDownloaderAgent.run`: the loop over the mails found today, then the choice of answer. */
  method Run(s: Settings, folderError: Option<string>, session: Session) returns (answer: string)
    ensures answer == Answer(s, folderError, session)
  {
    if folderError.Some? {
      return "Error creating output folder: " + folderError.value;
    }
    if session.Refused? {
      return FailureText(session.failure);
    }
    var mails := session.mails;
    if mails == [] {
      return "Connected successfully. No new unread emails found for today (" + session.today + ").";
    }
    var acc := Start(s, |mails|);
    var i := 0;
    while i < |mails|
      invariant 0 <= i <= |mails|
      invariant StepMails(Start(s, |mails|), mails[..i]) == Ok(acc)
    {
      assert mails[..i + 1][..i] == mails[..i];
      if mails[i].fetchError.Some? {
        MailErrorSticks(Start(s, |mails|), mails, i + 1);
        return FailureText(mails[i].fetchError.value);
      }
      var r := ProcessParts(acc, mails[i].subject, mails[i].parts);
      if r.Err? {
        MailErrorSticks(Start(s, |mails|), mails, i + 1);
        return FailureText(r.error);
      }
      acc := r.value;
      i := i + 1;
    }
    assert mails[..i] == mails;
    answer := Outcome(s, acc);
  }

  /** Once an exception is raised, the parts after it change nothing. */
  lemma {:induction false} SaveErrorSticks(acc: Acc, subject: string, parts: seq<Part>, j: nat)
    requires j <= |parts| && StepParts(acc, subject, parts[..j]).Err?
    ensures StepParts(acc, subject, parts) == StepParts(acc, subject, parts[..j])
    decreases |parts| - j
  {
    if j < |parts| {
      assert parts[..j + 1][..j] == parts[..j];
      SaveErrorSticks(acc, subject, parts, j + 1);
    } else {
      assert parts[..j] == parts;
    }
  }

  lemma {:induction false} MailErrorSticks(acc: Acc, mails: seq<Mail>, i: nat)
    requires i <= |mails| && StepMails(acc, mails[..i]).Err?
    ensures StepMails(acc, mails) == StepMails(acc, mails[..i])
    decreases |mails| - i
  {
    if i < |mails| {
      assert mails[..i + 1][..i] == mails[..i];
      MailErrorSticks(acc, mails, i + 1);
    } else {
      assert mails[..i] == mails;
    }
  }

  // ---------------------------------------------------------------------------
  // Properties

  lemma {:induction false} KeepNameCharsShape(s: string)
    ensures AllNameChars(KeepNameChars(s))
    ensures AllNameChars(s) ==> KeepNameChars(s) == s
    decreases |s|
  {
    if s != [] {
      KeepNameCharsShape(s[1..]);
    }
  }

  /** A cleaned name holds only allowed characters, so no path separator and no other special character. */
  lemma CleanFilenameChars(filename: Option<string>)
    ensures AllNameChars(CleanFilename(filename))
    ensures '/' !in CleanFilename(filename) && '\\' !in CleanFilename(filename)
  {
    if filename == None || filename == Some("") {
      assert AllNameChars("untitled");
    } else {
      var kept := KeepNameChars(filename.value);
      KeepNameCharsShape(filename.value);
      StripShape(kept, PySpace);
    }
  }

  /** A missing or empty name becomes "untitled"; otherwise the name is filtered then stripped. */
  lemma CleanFilenameCases(filename: Option<string>)
    ensures filename.None? ==> CleanFilename(filename) == "untitled"
    ensures filename == Some("") ==> CleanFilename(filename) == "untitled"
    ensures filename.Some? && filename.value != "" ==> CleanFilename(filename) == PyStrip(KeepNameChars(filename.value))
  {
  }

  /** Cleaning a cleaned, non-empty name gives it back unchanged. */
  lemma CleanFilenameIdempotent(filename: Option<string>)
    requires CleanFilename(filename) != ""
    ensures CleanFilename(Some(CleanFilename(filename))) == CleanFilename(filename)
  {
    var r := CleanFilename(filename);
    CleanFilenameChars(filename);
    KeepNameCharsShape(r);
    if filename == None || filename == Some("") {
      assert PySpace !! {'u', 'n', 't', 'i', 'l', 'e', 'd'};
    } else {
      StripIdempotent(KeepNameChars(filename.value), PySpace);
    }
  }

  /**
   * What the accumulators keep true: one log line per saved attachment after
   * the `base` opening lines, every saved name a cleaned one, and a non-empty
   * extracted text as soon as something is saved.
   */
  predicate Consistent(acc: Acc, base: nat) {
    |acc.log| == base + |acc.downloaded|
    && (forall k :: 0 <= k < |acc.downloaded| ==> AllNameChars(acc.downloaded[k]))
    && (acc.downloaded != [] ==> acc.extracted != "")
  }

  lemma StepConsistent(acc: Acc, base: nat, subject: string, p: Part)
    requires Consistent(acc, base) && Step(acc, subject, p).Ok?
    ensures Consistent(Step(acc, subject, p).value, base)
  {
    if IsAttachment(p) {
      CleanFilenameChars(p.filename);
    }
  }

  lemma {:induction false} StepPartsConsistent(acc: Acc, base: nat, subject: string, parts: seq<Part>)
    requires Consistent(acc, base) && StepParts(acc, subject, parts).Ok?
    ensures Consistent(StepParts(acc, subject, parts).value, base)
    decreases |parts|
  {
    if parts != [] {
      var prefix := StepParts(acc, subject, parts[..|parts| - 1]);
      StepPartsConsistent(acc, base, subject, parts[..|parts| - 1]);
      StepConsistent(prefix.value, base, subject, parts[|parts| - 1]);
    }
  }

  lemma {:induction false} StepMailsConsistent(acc: Acc, base: nat, mails: seq<Mail>)
    requires Consistent(acc, base) && StepMails(acc, mails).Ok?
    ensures Consistent(StepMails(acc, mails).value, base)
    decreases |mails|
  {
    if mails != [] {
      var last := mails[|mails| - 1];
      var prefix := StepMails(acc, mails[..|mails| - 1]);
      StepMailsConsistent(acc, base, mails[..|mails| - 1]);
      if last.fetchError.None? {
        StepPartsConsistent(prefix.value, base, last.subject, last.parts);
      }
    }
  }

  /**
   * The choice of answer after a complete run: the log and "No attachments
   * found" when nothing was saved, and otherwise the extracted text, which is
   * then never empty, so the "Successfully downloaded" answer is never given.
   */
  lemma RunOutcome(s: Settings, today: string, mails: seq<Mail>)
    requires mails != [] && StepMails(Start(s, |mails|), mails).Ok?
    ensures var acc := StepMails(Start(s, |mails|), mails).value;
      && |acc.log| == 2 + |acc.downloaded|
      && (acc.downloaded == [] ==> Answer(s, None, Opened(today, mails)) == Join(acc.log, "\n") + "\nNo attachments found in the new emails.")
      && (acc.downloaded != [] ==> acc.extracted != "" && Answer(s, None, Opened(today, mails)) == acc.extracted)
  {
    StepMailsConsistent(Start(s, |mails|), 2, mails);
  }

  /**
   * When fetching a mail raises and every mail before it went through, the
   * answer is that exception's text ("IMAP Error: …" or "Error: …"), whatever
   * the mails after it hold.
   */
  lemma FetchFailureAnswer(s: Settings, today: string, mails: seq<Mail>, i: nat)
    requires i < |mails| && StepMails(Start(s, |mails|), mails[..i]).Ok? && mails[i].fetchError.Some?
    ensures Answer(s, None, Opened(today, mails)) == FailureText(mails[i].fetchError.value)
  {
    var start := Start(s, |mails|);
    assert mails[..i + 1][..i] == mails[..i];
    assert StepMails(start, mails[..i + 1]) == Err(mails[i].fetchError.value);
    MailErrorSticks(start, mails, i + 1);
  }

  /** A save error is an ordinary exception: it ends the run with "Error: " and the exception's text. */
  lemma SaveFailureAnswer(s: Settings, today: string, mails: seq<Mail>, i: nat, j: nat)
    requires i < |mails| && StepMails(Start(s, |mails|), mails[..i]).Ok? && mails[i].fetchError.None?
    requires j < |mails[i].parts|
    requires StepParts(StepMails(Start(s, |mails|), mails[..i]).value, mails[i].subject, mails[i].parts[..j]).Ok?
    requires IsAttachment(mails[i].parts[j]) && mails[i].parts[j].saveError.Some?
    ensures Answer(s, None, Opened(today, mails)) == "Error: " + mails[i].parts[j].saveError.value
  {
    var start := Start(s, |mails|);
    var m := mails[i];
    var acc := StepMails(start, mails[..i]).value;
    assert m.parts[..j + 1][..j] == m.parts[..j];
    SaveErrorSticks(acc, m.subject, m.parts, j + 1);
    assert mails[..i + 1][..i] == mails[..i];
    assert StepMails(start, mails[..i + 1]) == Err(OtherError(m.parts[j].saveError.value));
    MailErrorSticks(start, mails, i + 1);
  }

  /** A non-empty name can clean to "", which the agent then uses as a file name inside the output folder. */
  lemma CleanFilenameCanBeEmpty()
    ensures CleanFilename(Some("???")) == ""
  {
    assert KeepNameChars("???") == "";
  }
}
