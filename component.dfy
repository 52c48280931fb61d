/**
 * The CodeEditor component as an object: its state hooks are fields that the handlers
 * set one at a time, and `slot` is the "code" entry of local storage that the component
 * writes whenever `code` changes. Each handler is proved to have exactly the effect of
 * the matching transition of SessionState, and to keep the slot equal to the code.
 */
module Component {
  import opened Wrappers
  import opened SessionState

  class CodeEditor {
    var code: string
    var input: string
    var output: string
    var error: Option<string>
    var errorLine: Option<int>
    var isDarkTheme: bool
    var slot: Option<string>

    /** The abstract value of the component. */
    function State(): Session
      reads this
    {
      Session(code, input, output, error, errorLine, isDarkTheme, slot)
    }

    /** The persistence effect has caught up: storage holds the current code. */
    ghost predicate Valid()
      reads this
    {
      Persisted(State())
    }

    /** Mount: load the stored code (or the template), then the effect writes it back. */
    constructor (stored: Option<string>)
      ensures Valid() && State() == Initial(stored)
    {
      code := InitialCode(stored);
      input := "";
      output := "";
      error := Some("");
      errorLine := None;
      isDarkTheme := true;
      slot := Some(code);
    }

    /** The code editor's onChange, followed by the persistence effect. */
    method SetCode(value: string)
      requires Valid()
      modifies this
      ensures Valid() && State() == OnEdit(old(State()), value)
    {
      code := value;
      slot := Some(code);
    }

    /** The input box's onChange. */
    method SetInput(value: string)
      requires Valid()
      modifies this
      ensures Valid() && State() == OnInputEdit(old(State()), value)
    {
      input := value;
    }

    /** The payload handleRun posts: the current code and input. */
    method RunRequestOf() returns (r: RunRequest)
      ensures r == Request(State())
    {
      r := RunRequest(code, input);
    }

    /** The completion of handleRun: the response's three fields, or the fixed connection error. */
    method HandleRun(outcome: RunOutcome)
      requires Valid()
      modifies this
      ensures Valid() && State() == OnRunComplete(old(State()), outcome)
    {
      match outcome {
        case Success(out, err, line) =>
          output := out;
          error := err;
          errorLine := line;
        case Failure =>
          output := "";
          error := Some(ConnectionError);
          errorLine := None;
      }
    }

    method ToggleTheme()
      requires Valid()
      modifies this
      ensures Valid() && State() == OnToggleTheme(old(State()))
    {
      isDarkTheme := !isDarkTheme;
    }

    /** handleDownload: the file it saves. */
    method HandleDownload() returns (a: Artifact)
      ensures a == Export(State())
    {
      a := Artifact("code.py", "text/x-python", code);
    }

    /** handleUpload with the reader's text, or with no file selected. */
    method HandleUpload(file: Option<string>)
      requires Valid()
      modifies this
      ensures Valid() && State() == OnUpload(old(State()), file)
    {
      if file.None? {
        return;
      }
      code := file.value;
      slot := Some(code);
    }

    method HandleReset()
      requires Valid()
      modifies this
      ensures Valid() && State() == OnReset(old(State()))
    {
      code := DefaultCode;
      output := "";
      error := Some("");
      errorLine := None;
      slot := Some(DefaultCode);
    }
  }
}
