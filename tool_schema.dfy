/**
 * The declarative function-calling schema both tools publish: a tool name, a
 * description, a properties object mapping each parameter name to its JSON
 * type, optional allowed values, optional default and description, and the
 * list of required parameters.
 */
module ToolSchema {
  import opened Wrappers

  datatype JsonType = JsonString | JsonInteger

  datatype Property = Property(
    kind: JsonType,
    allowed: Option<seq<string>>,
    default: Option<int>,
    description: string)

  datatype ToolDefinition = ToolDefinition(
    name: string,
    description: string,
    properties: map<string, Property>,
    required: seq<string>)

  /** The allowed values declared for parameter `name` (empty when it has no enumeration). */
  function AllowedValues(def: ToolDefinition, name: string): seq<string> {
    if name in def.properties && def.properties[name].allowed.Some? then def.properties[name].allowed.value else []
  }

  /** Every required parameter is declared among the properties. */
  predicate RequiredDeclared(def: ToolDefinition) {
    forall name :: name in def.required ==> name in def.properties
  }
}
