/** The launcher: its output panel, its state and the run flow of `run_script`. */
module App {
  import opened Wrappers
  import opened Strings
  import Scripts
  import opened Schema
  import opened Dialog
  import opened Command

  /** `self.script_dir`: the scripts' directory and the working directory of every run. */
  const ScriptDir := "playbooks"
  /** The only environment variable a script receives. */
  const RestrictedPath := "/usr/local/sbin:/usr/local/bin:/usr/sbin:/usr/bin:/sbin:/bin"
  const ErrorTitle := "Error"
  const ErrorMessage := "Arguments file not found for the selected script."

  /** What `subprocess.run` is given: the tokens, the working directory and the environment. */
  datatype Invocation = Invocation(argv: seq<string>, cwd: string, env: map<string, string>)

  /** What a finished process reports. */
  datatype Execution = Execution(exitCode: int, stdout: string, stderr: string)

  /** How a run ends: an error box, a silent abort, or one process run. */
  datatype RunOutcome =
    | ErrorShown(title: string, message: string)
    | Aborted
    | Executed(call: Invocation, execution: Execution)

  /**
   * The run flow for the selected script `name`. `doc` is the parsed schema
   * document (`None` when it is missing), `answer` the dialog's outcome
   * (`None` for Cancel, else the rows' texts), and `spawn` the process.
   */
  function Run(name: string, doc: Option<Document>, answer: Option<seq<string>>,
               spawn: Invocation -> Execution): RunOutcome
  {
    var arguments := LoadArguments(doc, name);
    if !IsTruthy(arguments) then ErrorShown(ErrorTitle, ErrorMessage)
    else
      var params := CollectArguments(arguments.value, answer);
      if params.None? || params.value == [] then Aborted
      else
        var call := Invocation(CommandTokens(name, ScriptDir, params.value), ScriptDir, map["PATH" := RestrictedPath]);
        Executed(call, spawn(call))
  }

  /** The line written when a run starts. */
  function StartLine(name: string): string {
    name + " starting...\n\n"
  }

  /** The echo of the command line. */
  function EchoLine(command: seq<string>): string {
    "$ " + Join(command, " ") + "\n\n"
  }

  /** The process report: stdout on exit code 0, else the error text with stderr. */
  function Report(execution: Execution): string {
    if execution.exitCode == 0 then execution.stdout else "Error: " + execution.stderr + "\n"
  }

  /** The panel's text after a run that ended with `outcome`. */
  function PanelText(name: string, outcome: RunOutcome): string {
    StartLine(name) + if outcome.Executed? then EchoLine(outcome.call.argv) + Report(outcome.execution) else ""
  }

  /**
   * A process runs exactly when the schema lookup is truthy and the dialog
   * was confirmed; a missing or empty schema shows the error, Cancel aborts
   * silently, and a run executes the built command in the script directory
   * with only the restricted PATH.
   */
  lemma RunGating(name: string, doc: Option<Document>, answer: Option<seq<string>>,
                  spawn: Invocation -> Execution)
    ensures Run(name, doc, answer, spawn).Executed? <==> IsTruthy(LoadArguments(doc, name)) && answer.Some?
    ensures !IsTruthy(LoadArguments(doc, name)) ==> Run(name, doc, answer, spawn) == ErrorShown(ErrorTitle, ErrorMessage)
    ensures IsTruthy(LoadArguments(doc, name)) && answer.None? ==> Run(name, doc, answer, spawn) == Aborted
    ensures Run(name, doc, answer, spawn).Executed? ==>
              var call := Run(name, doc, answer, spawn).call;
              && call.argv == CommandTokens(name, ScriptDir, OkResult(doc.value[name], answer.value))
              && call.cwd == ScriptDir
              && call.env == map["PATH" := RestrictedPath]
              && Run(name, doc, answer, spawn).execution == spawn(call)
  {
    if IsTruthy(LoadArguments(doc, name)) && answer.Some? {
      OkResultNonEmpty(doc.value[name], answer.value);
    }
  }

  /** The echoed command line always reads `$ sudo ` followed by the remaining tokens. */
  lemma EchoStartsWithElevate(name: string, dir: string, params: seq<(string, string)>)
    ensures var command := CommandTokens(name, dir, params);
      EchoLine(command) == "$ " + Elevate + " " + Join(command[1..], " ") + "\n\n"
  {
    var command := CommandTokens(name, dir, params);
    CommandShape(name, dir, params);
    assert command == [command[0]] + command[1..];
    JoinConcat([command[0]], command[1..], " ");
    assert Join(command, " ") == Elevate + " " + Join(command[1..], " ");
  }

  /**
   * Whatever happens, the panel holds only the start line, unless a process
   * ran: then it also holds `$ sudo ...`, the rest of the command joined by
   * single spaces, and the process report.
   */
  lemma PanelContents(name: string, doc: Option<Document>, answer: Option<seq<string>>,
                      spawn: Invocation -> Execution)
    ensures var outcome := Run(name, doc, answer, spawn);
      outcome.Executed? ==>
        PanelText(name, outcome) ==
          StartLine(name) + ("$ " + Elevate + " " + Join(outcome.call.argv[1..], " ") + "\n\n") + Report(outcome.execution)
    ensures !Run(name, doc, answer, spawn).Executed? ==> PanelText(name, Run(name, doc, answer, spawn)) == StartLine(name)
  {
    var outcome := Run(name, doc, answer, spawn);
    if outcome.Executed? {
      EchoStartsWithElevate(name, ScriptDir, OkResult(doc.value[name], answer.value));
    }
  }

  /** The Tk text widget that shows a run's output; `text` is its whole content. */
  class OutputPanel {
    var text: string

    constructor ()
      ensures text == ""
    {
      text := "";
    }

    /** `delete(1.0, tk.END)` */
    method Clear()
      modifies this
      ensures text == ""
    {
      text := "";
    }

    /** `insert(tk.END, s)` */
    method Insert(s: string)
      modifies this
      ensures text == old(text) + s
    {
      text := text + s;
    }
  }

  /** `Red2NetApp`: the discovered scripts, the current selection and the output panel. */
  class Red2NetApp {
    var scripts: seq<string>
    var selected: string
    const panel: OutputPanel

    ghost predicate Valid()
      reads this
    {
      selected in scripts
    }

    /** `__init__`: discover the scripts and select the first one. */
    constructor (listing: seq<string>)
      requires Scripts.LoadScripts(listing) != []
      ensures Valid()
      ensures scripts == Scripts.LoadScripts(listing) && selected == scripts[0]
      ensures fresh(panel) && panel.text == ""
    {
      scripts := Scripts.LoadScripts(listing);
      selected := Scripts.LoadScripts(listing)[0];
      panel := new OutputPanel();
    }

    /** The operator picks another script from the option menu. */
    method Select(name: string)
      requires Valid() && name in scripts
      modifies this`selected
      ensures Valid() && selected == name
    {
      selected := name;
    }

    /** `run_script` with the schema document, the dialog's outcome and the process abstracted. */
    method RunScript(doc: Option<Document>, answer: Option<seq<string>>, spawn: Invocation -> Execution)
      returns (outcome: RunOutcome)
      requires Valid()
      modifies panel
      ensures outcome == Run(selected, doc, answer, spawn)
      ensures panel.text == PanelText(selected, outcome)
    {
      panel.Clear();
      var name := selected;
      panel.Insert(StartLine(name));
      assert panel.text == StartLine(name);

      var arguments := LoadArguments(doc, name);
      if !IsTruthy(arguments) {
        return ErrorShown(ErrorTitle, ErrorMessage);
      }

      var dialog := new ArgumentDialog(arguments.value);
      if answer.Some? {
        dialog.Ok(answer.value);
      } else {
        dialog.Cancel();
      }
      var params := dialog.result;
      assert params == CollectArguments(arguments.value, answer);
      if params.None? || params.value == [] {
        return Aborted;
      }

      outcome := Launch(name, params.value, spawn);
    }

    /** The part of `run_script` after the checks: build, echo, run and report. */
    method Launch(name: string, params: seq<(string, string)>, spawn: Invocation -> Execution)
      returns (outcome: RunOutcome)
      requires panel.text == StartLine(name)
      modifies panel
      ensures outcome == Executed(Invocation(CommandTokens(name, ScriptDir, params), ScriptDir, map["PATH" := RestrictedPath]),
                                  spawn(Invocation(CommandTokens(name, ScriptDir, params), ScriptDir, map["PATH" := RestrictedPath])))
      ensures panel.text == PanelText(name, outcome)
    {
      var command := BuildCommand(name, ScriptDir, params);
      ghost var echoed := StartLine(name) + EchoLine(command);
      panel.Insert(EchoLine(command));
      assert panel.text == echoed;

      var call := Invocation(command, ScriptDir, map["PATH" := RestrictedPath]);
      var execution := spawn(call);
      if execution.exitCode == 0 {
        panel.Insert(execution.stdout);
      } else {
        panel.Insert("Error: " + execution.stderr + "\n");
      }
      assert panel.text == echoed + Report(execution);
      outcome := Executed(call, execution);
    }
  }
}
