/** The command builder of `Red2NetApp.run_script`. */
module Command {
  import opened Strings

  /** The privilege-elevation token every command starts with. */
  const Elevate := "sudo"
  /** The interpreter used for scripts that are not run directly. */
  const Interpreter := "python"

  /** Shell scripts and `.c` files are executed as `./<name>`. */
  predicate RunsDirectly(name: string) {
    EndsWith(name, ".sh") || EndsWith(name, ".c")
  }

  /** `os.path.join(dir, name)` for a plain file name. */
  function JoinPath(dir: string, name: string): string {
    dir + "/" + name
  }

  /** The tokens before the flags: the elevation token and the program. */
  function Prefix(name: string, dir: string): seq<string> {
    if RunsDirectly(name) then [Elevate, "./" + name]
    else [Elevate, Interpreter, JoinPath(dir, name)]
  }

  /** A `-name value` token pair per collected argument, in order. */
  function FlagTokens(params: seq<(string, string)>): seq<string> {
    if params == [] then []
    else ["-" + params[0].0, params[0].1] + FlagTokens(params[1..])
  }

  /** The whole token list a run executes. */
  function CommandTokens(name: string, dir: string, params: seq<(string, string)>): seq<string> {
    Prefix(name, dir) + FlagTokens(params)
  }

  /** Pair `i` of the flags is `"-" + key_i` then `value_i`, and there is nothing else. */
  lemma {:induction false} FlagTokensAt(params: seq<(string, string)>)
    ensures |FlagTokens(params)| == 2 * |params|
    ensures forall i :: 0 <= i < |params| ==>
              FlagTokens(params)[2 * i] == "-" + params[i].0 && FlagTokens(params)[2 * i + 1] == params[i].1
  {
    if params != [] {
      var head := ["-" + params[0].0, params[0].1];
      var rest := FlagTokens(params[1..]);
      FlagTokensAt(params[1..]);
      assert FlagTokens(params) == head + rest;
      forall i | 1 <= i < |params|
        ensures (head + rest)[2 * i] == "-" + params[i].0 && (head + rest)[2 * i + 1] == params[i].1
      {
        assert params[1..][i - 1] == params[i];
        assert (head + rest)[2 * i] == rest[2 * (i - 1)];
        assert (head + rest)[2 * i + 1] == rest[2 * (i - 1) + 1];
      }
    }
  }

  /**
   * Every command starts with the elevation token; a direct script has the
   * two-token prefix `sudo ./name`, any other the three-token prefix
   * `sudo python dir/name`; then come the flag pairs in order.
   */
  lemma CommandShape(name: string, dir: string, params: seq<(string, string)>)
    ensures var command := CommandTokens(name, dir, params);
      var n := if RunsDirectly(name) then 2 else 3;
      && command[0] == Elevate
      && (RunsDirectly(name) ==> command[1] == "./" + name)
      && (!RunsDirectly(name) ==> command[1] == Interpreter && command[2] == JoinPath(dir, name))
      && |command| == n + 2 * |params|
      && forall i :: 0 <= i < |params| ==>
           command[n + 2 * i] == "-" + params[i].0 && command[n + 2 * i + 1] == params[i].1
  {
    FlagTokensAt(params);
  }

  /** `command.extend(...)` onto the prefix, one argument pair per loop iteration. */
  method BuildCommand(name: string, dir: string, params: seq<(string, string)>) returns (command: seq<string>)
    ensures command == CommandTokens(name, dir, params)
  {
    if RunsDirectly(name) {
      command := [Elevate, "./" + name];
    } else {
      command := [Elevate, Interpreter, JoinPath(dir, name)];
    }
    var i := 0;
    while i < |params|
      invariant 0 <= i <= |params|
      invariant command == Prefix(name, dir) + FlagTokens(params[..i])
    {
      var (arg, value) := params[i];
      FlagTokensSnoc(params[..i], params[i]);
      assert params[..i + 1] == params[..i] + [params[i]];
      command := command + ["-" + arg, value];
      i := i + 1;
    }
    assert params[..|params|] == params;
  }

  lemma {:induction false} FlagTokensSnoc(params: seq<(string, string)>, p: (string, string))
    ensures FlagTokens(params + [p]) == FlagTokens(params) + ["-" + p.0, p.1]
  {
    if params == [] {
      assert params + [p] == [p];
    } else {
      assert (params + [p])[1..] == params[1..] + [p];
      FlagTokensSnoc(params[1..], p);
    }
  }

  /** The scenario of a Python script with two arguments. */
  lemma PythonScenario()
    ensures CommandTokens("scan.py", "playbooks", [("target", "10.0.0.5"), ("ports", "22,80")]) ==
            ["sudo", "python", "playbooks/scan.py", "-target", "10.0.0.5", "-ports", "22,80"]
  {
    var params := [("target", "10.0.0.5"), ("ports", "22,80")];
    assert !RunsDirectly("scan.py");
    assert params[1..][1..] == [];
    assert "-" + "target" == "-target" && "-" + "ports" == "-ports";
    assert JoinPath("playbooks", "scan.py") == "playbooks/scan.py";
    assert FlagTokens(params[1..]) == ["-ports", "22,80"];
    assert FlagTokens(params) == ["-target", "10.0.0.5", "-ports", "22,80"];
  }

  /** The scenario of a shell script with one argument. */
  lemma ShellScenario()
    ensures CommandTokens("probe.sh", "playbooks", [("iface", "eth0")]) == ["sudo", "./probe.sh", "-iface", "eth0"]
  {
    var params := [("iface", "eth0")];
    assert RunsDirectly("probe.sh");
    assert params[1..] == [];
    assert "-" + "iface" == "-iface" && "./" + "probe.sh" == "./probe.sh";
    assert FlagTokens(params) == ["-iface", "eth0"];
  }
}
