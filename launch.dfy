/**
 * `connect_to_server` in both clients: the server script's file extension
 * decides the interpreter that runs it over stdio.
 */
module Launch {
  import opened Wrappers
  import opened Text

  /** The message of the `ValueError` raised for any other file. */
  const NotAScript := "Server script must be a .py or .js file"

  /** The command that launches the MCP server script at `path`, or the error raised instead. */
  function ServerCommand(path: string): (r: Result<string, string>)
    ensures r.Success? <==> EndsWith(path, ".py") || EndsWith(path, ".js")
    ensures r.Success? ==> r.value in {"python", "node"}
    ensures r.Failure? ==> r.error == NotAScript
  {
    var isPython := EndsWith(path, ".py");
    var isJs := EndsWith(path, ".js");
    if !(isPython || isJs) then Failure(NotAScript)
    else Success(if isPython then "python" else "node")
  }

  /** A Python script runs under `python`, a JavaScript one under `node`, whatever its name. */
  lemma ScriptCommands(name: string)
    ensures ServerCommand(name + ".py") == Success("python")
    ensures ServerCommand(name + ".js") == Success("node")
  {
    assert (name + ".py")[|name|..] == ".py";
    assert (name + ".js")[|name|..] == ".js";
  }

  /** `python` is chosen exactly for `.py` files; no path is both. */
  lemma PythonExactlyForPy(path: string)
    ensures ServerCommand(path) == Success("python") <==> EndsWith(path, ".py")
    ensures !(EndsWith(path, ".py") && EndsWith(path, ".js"))
  {
  }
}
