# Red2Net run-script pipeline in Dafny

Red2Net is a small tkinter launcher. It lists the scripts in its `playbooks`
directory, lets the operator pick one, looks up the script's argument names
in `playbooks/arguments.yaml`, asks for a value per name in a modal dialog,
and runs the script under `sudo` in a restricted environment. The captured
output goes into a text panel.

This project models that pipeline of `red2net.py` without the GUI:

- `Scripts` (scripts.dfy): `load_scripts` as a filter over a directory listing, and the default selection.
- `Schema` (schema.dfy): `load_arguments` over the parsed document. `None` means the file is missing.
- `Dialog` (dialog.dfy): `ArgumentDialog` as a class. Python's insertion-ordered dict is modelled as `Dict`, which holds the keys in order plus the mapping. There are also spec functions for the entries the constructor builds and for the result `ok` builds.
- `Command` (command.dfy): the command builder. It has spec functions, a method with the `extend` loop, and lemmas about the token layout.
- `App` (app.dfy): the output `Text` widget as the class `OutputPanel`, and `Red2NetApp` with its script list, selection and panel. `RunScript` performs the run flow as a sequence of panel updates. It is proved against the pure function `Run`, and lemmas about `Run` state the gating.
- `Strings` and `Wrappers`: `str.endswith`, `str.join` and `Option`.

Inputs stand in for the I/O:
- the directory listing is a `seq<string>`;
- the parsed schema document is an `Option<map<string, seq<string>>>`;
- the dialog's outcome is an `Option<seq<string>>`. `None` is Cancel. `Some(typed)` is OK, where `typed[i]` is the text of the Entry on row `i`; rows beyond `typed` read as empty.
- the process is a total function from an `Invocation` (tokens, working directory, environment) to an `Execution` (exit code, stdout, stderr).

Behaviour worth knowing:
- Duplicate argument names collapse into one key at the position of the name's first occurrence. `self.entries[arg] = entry` replaces the widget, so the value sent is the text of the **last** row with that name. The earlier rows stay on screen but are ignored.
- Argument names need not be unique (see above), and empty values are passed through.
- The error box says "Arguments file not found for the selected script." in three cases: the document is missing, the script has no entry, or the entry is an empty list.
- A non-empty schema always gives a non-empty OK result, so the `if not params` check only ever stops a Cancel.
- Closing the dialog window without pressing a button also leaves `result` as `None` (red2net.py:121). So an `answer` of `None` stands for both that and Cancel.
- A `.py` script runs as `python playbooks/<name>`, and the working directory is also `playbooks` (red2net.py:58, 63, 71). The relative path is therefore resolved as `playbooks/playbooks/<name>`. The model reproduces this: the process gets the token `JoinPath(ScriptDir, name)` with `cwd == ScriptDir`.
- A failed run shows `"Error: " + stderr + "\n"` in the panel.
- A spawn failure is not caught: it escapes `run_script` as an exception. Line 73 catches only `CalledProcessError`.

## Model

| member | source | states |
|---|---|---|
| Scripts.LoadScripts | red2net.py:23-24 | the script list holds a name iff the listing has it and it ends in `.py`, `.c` or `.sh`; it is never longer than the listing |
| Scripts.LoadScriptsConcat | red2net.py:24 | filtering keeps directory order: filtering a concatenation is the concatenation of the filtered parts |
| Scripts.LoadScriptsCount | red2net.py:24 | each script entry is kept exactly as many times as it is listed; every other entry appears zero times |
| Scripts.DefaultIsFirstScript | red2net.py:18-19 | the default selection `scripts[0]` is a script, and it is the first listing entry that is one; every entry before it is excluded |
| Schema.LoadArguments | red2net.py:79-86 | `None` when the document is missing or lacks the script name; otherwise the document's list for that name |
| Dialog.Assign | red2net.py:114 | dict assignment maps `k` to `v` and leaves every other key's value unchanged. A new key goes last and an existing key keeps its place. The keys stay unique and equal to the mapping's domain |
| Dialog.EntriesOf | red2net.py:106-114 | the entries form a valid dict whose keys are exactly the schema's names; each maps to the last row that carries it |
| Dialog.EntriesKeysStep | red2net.py:108-114 | each iteration appends the row's name to the keys unless the name is already a key, which then keeps its place |
| Dialog.EntriesOrder | red2net.py:108-114 | the entries' keys are ordered by each name's first occurrence in the schema |
| Dialog.Items | red2net.py:124 | the comprehension has one pair per key, in key order, pairing each key with its widget's text |
| Dialog.OkResultShape | red2net.py:106-114 | the OK result has one pair per distinct schema name, ordered by first occurrence; every schema name appears; each value is the text of the name's last row |
| Dialog.OkResultNonEmpty | red2net.py:54-56 | a non-empty schema gives a non-empty OK result |
| Dialog.CollectArguments | red2net.py:88-95 | the result is `None` exactly on Cancel; on OK it is the dialog's name/value list |
| Dialog.ArgumentDialog.constructor | red2net.py:98-121 | the loop leaves `entries` equal to the dict built from the schema, and no result |
| Dialog.ArgumentDialog.Ok | red2net.py:123-125 | the result becomes the OK result for the typed texts; the entries are unchanged |
| Dialog.ArgumentDialog.Cancel | red2net.py:127-129 | the result becomes `None`; the entries are unchanged |
| Command.FlagTokensAt | red2net.py:65-66 | the flags hold exactly two tokens per pair: `"-" + key_i` at `2i` and `value_i` verbatim at `2i+1` |
| Command.FlagTokensSnoc | red2net.py:65-66 | one more loop iteration appends exactly the next `-key value` pair |
| Command.CommandShape | red2net.py:58-66 | the first token is `sudo`; `.sh`/`.c` scripts get the prefix `sudo ./name` (2 tokens), others `sudo python dir/name` (3 tokens); the length is prefix + 2·pairs; pair `i` sits right after the prefix in order |
| Command.BuildCommand | red2net.py:58-66 | the `extend` loop yields exactly the specified token list |
| Command.PythonScenario | red2net.py:58-66 | `scan.py` with `target`, `ports` gives `sudo python playbooks/scan.py -target 10.0.0.5 -ports 22,80` |
| Command.ShellScenario | red2net.py:58-66 | `probe.sh` with `iface` gives `sudo ./probe.sh -iface eth0` |
| Strings.JoinConcat | red2net.py:68 | joining two non-empty token lists puts exactly one separator between their joins |
| App.RunGating | red2net.py:49-71 | a process runs iff the lookup is truthy and the dialog was confirmed. A missing or empty schema shows the error box. Cancel aborts silently. A run executes the built command with cwd `playbooks` and only the restricted `PATH` |
| App.EchoStartsWithElevate | red2net.py:68 | the echoed line is `$ sudo ` followed by the remaining tokens joined by single spaces and a blank line |
| App.PanelContents | red2net.py:44-74 | after a run the panel holds only the start line, unless a process ran; then it also holds the echo line and the stdout or `Error: stderr` report |
| App.OutputPanel.constructor | red2net.py:39 | a new panel is empty |
| App.OutputPanel.Clear | red2net.py:44 | clearing empties the panel |
| App.OutputPanel.Insert | red2net.py:47 | inserting at the end appends the text |
| App.Red2NetApp.constructor | red2net.py:9-19 | the app holds the filtered script list, selects its first entry, and starts with an empty panel |
| App.Red2NetApp.Select | red2net.py:30 | choosing a script in the option menu changes only the selection |
| App.Red2NetApp.RunScript | red2net.py:43-74 | the run ends as `Run` specifies, and the panel's new text depends only on the selection and the outcome; earlier content is discarded |
| App.Red2NetApp.Launch | red2net.py:58-74 | building, echoing, running and reporting give the specified invocation and append the echo line and report to the start line |

## Left out

- Widget creation, styling, layout, the option menu's rendering, the message box's display and the `wait_window` nested event loop (red2net.py:26-40, 90-91, 102-119). They are presentation. The dialog's outcome is an input, and the error box is the `ErrorShown` outcome.
- `os.listdir`, `os.path.exists` and `yaml.safe_load` (red2net.py:24, 81-83). They are I/O and a foreign parser, so the listing and the parsed document are inputs. These documents are excluded by the types: a malformed one, an empty file that parses as `None` (it would raise at line 84), and entries that are not lists of strings.
- `subprocess.run` itself (red2net.py:71). The process is an abstract function of the invocation. Spawn failures such as a missing executable raise out of `run_script` and are not modelled. A decoding error in stdout or stderr under `text=True` escapes the same way and is not modelled either.
- `show_ascii_art` and the `__main__` block (red2net.py:131-146). They do file I/O, sleep and clear the terminal.
- `os.path.join` semantics: modelled as `dir + "/" + name`. That matches for the plain file names a directory listing yields.
- Tk's implicit trailing newline in a `Text` widget: `OutputPanel.text` is the content without it.
- `self.arguments_file` (red2net.py:14) is never read by the code and is not modelled.
- App.Red2NetApp.constructor: it requires a non-empty script list. With an empty list the source raises `IndexError` at line 19 and the app never starts.
