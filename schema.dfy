/** The argument schema store: `Red2NetApp.load_arguments`. */
module Schema {
  import opened Wrappers

  /** A parsed `arguments.yaml`: each script name maps to its ordered argument names. */
  type Document = map<string, seq<string>>

  /** The schema for a script; `doc` is `None` when `arguments.yaml` does not exist. */
  function LoadArguments(doc: Option<Document>, scriptName: string): (arguments: Option<seq<string>>)
    ensures doc.None? ==> arguments.None?
    ensures doc.Some? ==> (arguments.Some? <==> scriptName in doc.value)
    ensures arguments.Some? ==> arguments.value == doc.value[scriptName]
  {
    if doc.Some? && scriptName in doc.value then Some(doc.value[scriptName]) else None
  }

  /** Python truthiness of the lookup result: neither `None` nor an empty list. */
  predicate IsTruthy(arguments: Option<seq<string>>) {
    arguments.Some? && arguments.value != []
  }
}
