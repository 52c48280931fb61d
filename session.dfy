/**
 * The editor session as a value: the six pieces of component state and the persisted
 * "code" slot, with one transition per handler. Each transition is the whole effect of a
 * handler (or of an async completion) applied at once; Replay applies them in the order
 * they are given, which for run and upload completions is the order they complete.
 */
module SessionState {
  import opened Wrappers

  /** The template shown on first load and restored by reset. */
  const DefaultCode: string := "print(\"Hello, world!\")"

  /** The fixed message for any failure of the run request. */
  const ConnectionError: string := "Error connecting to server."

  datatype Session = Session(
    code: string,
    input: string,
    output: string,
    error: Option<string>,     // "" initially and after reset; the server may send null
    errorLine: Option<int>,    // null or the server's line_number
    isDarkTheme: bool,
    slot: Option<string>)      // the persisted "code" entry

  /** The three fields a run completion and a reset write. */
  datatype ExecResult = ExecResult(output: string, error: Option<string>, errorLine: Option<int>)

  /** How a run request ended: the server's response fields, or a transport failure of any kind. */
  datatype RunOutcome =
    | Success(output: string, error: Option<string>, lineNumber: Option<int>)
    | Failure

  /** The payload posted to the execution endpoint. */
  datatype RunRequest = RunRequest(code: string, input: string)

  /** The downloaded file. */
  datatype Artifact = Artifact(name: string, mimeType: string, content: string)

  datatype Event =
    | CodeEdited(text: string)
    | InputEdited(text: string)
    | RunCompleted(outcome: RunOutcome)
    | ThemeToggled
    | FileChosen(file: Option<string>)   // the text the reader produced, or no file selected
    | ResetPressed

  function Result(s: Session): ExecResult {
    ExecResult(s.output, s.error, s.errorLine)
  }

  /** The result a completion writes, whatever was shown before. */
  function OutcomeResult(c: RunOutcome): ExecResult {
    match c
    case Success(out, err, line) => ExecResult(out, err, line)
    case Failure => ExecResult("", Some(ConnectionError), None)
  }

  /** The write-through invariant: the persisted slot holds exactly the current code. */
  predicate Persisted(s: Session) {
    s.slot == Some(s.code)
  }

  /** The document on first load: the stored text unless it is missing or empty. */
  function InitialCode(stored: Option<string>): (r: string)
    ensures r != ""
    ensures stored.Some? && stored.value != "" ==> r == stored.value
    ensures stored.None? || stored.value == "" ==> r == DefaultCode
  {
    if stored.Some? && stored.value != "" then stored.value else DefaultCode
  }

  /** The session right after mount, once the persistence effect has written the loaded code back. */
  function Initial(stored: Option<string>): (r: Session)
    ensures Persisted(r)
    ensures r.code == InitialCode(stored)
    ensures r.input == "" && r.output == "" && r.error == Some("") && r.errorLine == None
    ensures r.isDarkTheme
  {
    var code := InitialCode(stored);
    Session(code, "", "", Some(""), None, true, Some(code))
  }

  /** An edit in the code editor replaces the code and writes it through to storage. */
  function OnEdit(s: Session, text: string): (r: Session)
    ensures r.code == text && Persisted(r)
    ensures r.(code := s.code, slot := s.slot) == s
  {
    s.(code := text, slot := Some(text))
  }

  /** An edit of the input box replaces the input and nothing else. */
  function OnInputEdit(s: Session, text: string): (r: Session)
    ensures r.input == text
    ensures r.(input := s.input) == s
  {
    s.(input := text)
  }

  /** A run completion replaces output, error and error line as one; code, input, theme and slot stay. */
  function OnRunComplete(s: Session, c: RunOutcome): (r: Session)
    ensures Result(r) == OutcomeResult(c)
    ensures r.(output := s.output, error := s.error, errorLine := s.errorLine) == s
  {
    match c
    case Success(out, err, line) => s.(output := out, error := err, errorLine := line)
    case Failure => s.(output := "", error := Some(ConnectionError), errorLine := None)
  }

  function OnToggleTheme(s: Session): (r: Session)
    ensures r.isDarkTheme != s.isDarkTheme
    ensures r.(isDarkTheme := s.isDarkTheme) == s
  {
    s.(isDarkTheme := !s.isDarkTheme)
  }

  /** Without a file nothing happens; with one, its text becomes the code (and is written through). */
  function OnUpload(s: Session, file: Option<string>): (r: Session)
    ensures file.None? ==> r == s
    ensures file.Some? ==> r == OnEdit(s, file.value)
    ensures Result(r) == Result(s)
  {
    match file
    case None => s
    case Some(text) => OnEdit(s, text)
  }

  /** Reset restores the template, clears the result and stores the template; input and theme stay. */
  function OnReset(s: Session): (r: Session)
    ensures r.code == DefaultCode && Persisted(r)
    ensures Result(r) == ExecResult("", Some(""), None)
    ensures r.input == s.input && r.isDarkTheme == s.isDarkTheme
  {
    s.(code := DefaultCode, output := "", error := Some(""), errorLine := None, slot := Some(DefaultCode))
  }

  function Step(s: Session, e: Event): Session {
    match e
    case CodeEdited(text) => OnEdit(s, text)
    case InputEdited(text) => OnInputEdit(s, text)
    case RunCompleted(c) => OnRunComplete(s, c)
    case ThemeToggled => OnToggleTheme(s)
    case FileChosen(file) => OnUpload(s, file)
    case ResetPressed => OnReset(s)
  }

  /** The session after the events of `evs`, applied first to last. */
  function Replay(s: Session, evs: seq<Event>): Session
    decreases |evs|
  {
    if evs == [] then s else Step(Replay(s, evs[..|evs| - 1]), evs[|evs| - 1])
  }

  /** What a click on Run posts: the code and input of the session at the time of the click. */
  function Request(s: Session): (r: RunRequest)
    ensures r.code == s.code && r.input == s.input
  {
    RunRequest(s.code, s.input)
  }

  /** What a click on Download saves: a Python file named code.py holding the code verbatim. */
  function Export(s: Session): (a: Artifact)
    ensures a.name == "code.py" && a.mimeType == "text/x-python"
    ensures a.content == s.code
  {
    Artifact("code.py", "text/x-python", s.code)
  }

  /** U+FEFF, which a UTF-8 decoder removes from the start of its input. */
  const ByteOrderMark: char := '\U{FEFF}'

  /**
   * The text a FileReader's readAsText yields for a file Blob wrote from `content`: UTF-8
   * encoding and decoding give back the same characters, except that the decoder drops
   * one leading byte-order mark.
   */
  function ReadAsText(content: string): (r: string)
    ensures content == r || content == [ByteOrderMark] + r
    ensures (content != [] && content[0] == ByteOrderMark) <==> |r| < |content|
  {
    if content != [] && content[0] == ByteOrderMark then content[1..] else content
  }

  // ---- Properties of single transitions ----

  lemma StepKeepsPersisted(s: Session, e: Event)
    requires Persisted(s)
    ensures Persisted(Step(s, e))
  {
  }

  /** Run completions, input edits and theme toggles never write the slot. */
  lemma SlotOnlyWrittenWithCode(s: Session, e: Event)
    requires !e.CodeEdited? && !e.FileChosen? && !e.ResetPressed?
    ensures Step(s, e).slot == s.slot && Step(s, e).code == s.code
  {
  }

  /** The failure result is the same whatever the state it lands on. */
  lemma FailureIgnoresPriorState(s1: Session, s2: Session)
    ensures Result(OnRunComplete(s1, Failure)) == Result(OnRunComplete(s2, Failure))
                                              == ExecResult("", Some(ConnectionError), None)
  {
  }

  lemma ResetIdempotent(s: Session)
    ensures OnReset(OnReset(s)) == OnReset(s)
  {
  }

  lemma ToggleInvolution(s: Session)
    ensures OnToggleTheme(OnToggleTheme(s)) == s
  {
  }

  /**
   * A file Blob saved from `code` holds its UTF-8 bytes; reading it back as text decodes
   * them and drops a leading byte-order mark. Uploading such a file without one is a no-op
   * in a persisted session.
   */
  lemma UploadOfExportIsNoOp(s: Session)
    requires Persisted(s)
    requires s.code == [] || s.code[0] != ByteOrderMark
    ensures OnUpload(s, Some(ReadAsText(Export(s).content))) == s
  {
  }

  /** Import after export reproduces any text that does not start with a byte-order mark. */
  lemma ImportOfExport(s: Session, t: string)
    requires t == [] || t[0] != ByteOrderMark
    ensures var edited := OnEdit(s, t);
            OnUpload(edited, Some(ReadAsText(Export(edited).content))).code == t
  {
  }

  /** A document that starts with a byte-order mark loses it on a download and re-upload. */
  lemma ExportDropsByteOrderMark(s: Session, t: string)
    ensures var edited := OnEdit(s, [ByteOrderMark] + t);
            var r := OnUpload(edited, Some(ReadAsText(Export(edited).content)));
            r.code == t && r.slot == Some(t)
  {
  }

  // ---- Properties of whole event sequences ----

  /** The write-through invariant holds after any sequence of events. */
  lemma {:induction false} ReplayKeepsPersisted(s: Session, evs: seq<Event>)
    requires Persisted(s)
    ensures Persisted(Replay(s, evs))
    decreases |evs|
  {
    if evs != [] {
      ReplayKeepsPersisted(s, evs[..|evs| - 1]);
      StepKeepsPersisted(Replay(s, evs[..|evs| - 1]), evs[|evs| - 1]);
    }
  }

  /** Whether an event overwrites the run result. */
  predicate WritesResult(e: Event) {
    e.RunCompleted? || e.ResetPressed?
  }

  /**
   * Completion order wins: the result shown is that of the last run completion in the
   * sequence when no reset follows it, whichever request was sent first.
   */
  lemma {:induction false} LastCompletionWins(s: Session, evs: seq<Event>, i: nat)
    requires i < |evs| && evs[i].RunCompleted?
    requires forall j :: i < j < |evs| ==> !WritesResult(evs[j])
    ensures Result(Replay(s, evs)) == OutcomeResult(evs[i].outcome)
    decreases |evs|
  {
    var prefix := evs[..|evs| - 1];
    if i < |evs| - 1 {
      assert forall j :: i < j < |prefix| ==> prefix[j] == evs[j];
      LastCompletionWins(s, prefix, i);
      assert !WritesResult(evs[|evs| - 1]);
    }
  }

  /**
   * The two-completion case of LastCompletionWins. Requests are not events of the model,
   * so "first" and "second" name only the order the requests were sent in: when the
   * response to the second arrives before the response to the first, the first's stays.
   */
  lemma StaleResponseShown(s: Session, first: RunOutcome, second: RunOutcome)
    ensures Result(Replay(s, [RunCompleted(second), RunCompleted(first)])) == OutcomeResult(first)
  {
    LastCompletionWins(s, [RunCompleted(second), RunCompleted(first)], 1);
  }

  function Toggles(evs: seq<Event>): nat
    decreases |evs|
  {
    if evs == [] then 0
    else Toggles(evs[..|evs| - 1]) + (if evs[|evs| - 1].ThemeToggled? then 1 else 0)
  }

  /** The theme is flipped once per toggle and by nothing else. */
  lemma {:induction false} ThemeAfterReplay(s: Session, evs: seq<Event>)
    ensures Replay(s, evs).isDarkTheme == (s.isDarkTheme == (Toggles(evs) % 2 == 0))
    decreases |evs|
  {
    if evs != [] {
      ThemeAfterReplay(s, evs[..|evs| - 1]);
    }
  }

  /**
   * Reloading the page after any session restores the code, except that an emptied
   * document comes back as the template.
   */
  lemma {:induction false} ReloadRestoresCode(stored: Option<string>, evs: seq<Event>)
    ensures var s := Replay(Initial(stored), evs);
            Initial(s.slot).code == if s.code == "" then DefaultCode else s.code
  {
    ReplayKeepsPersisted(Initial(stored), evs);
  }
}
