/**
 * The pieces of an ingested Galaxy tool that the output-extraction and mapping rules
 * read: Galaxy output params and the command components built from a tool's command
 * line.  Only the fields those rules consult are kept.
 */
module GalaxyComponents {
  import opened Wrappers

  /**
   * A Python attribute read through `hasattr`: absent from the object, present but
   * None, or present with a string value.
   */
  datatype Attr = Missing | NoneValue | Text(s: string)

  /** A Galaxy output param: its name and its two file-collection strategies. */
  datatype Param = Param(name: string, fromWorkDir: Attr, discoverPattern: Attr)

  /**
   * A command component.  Flags, options and positionals are the input components
   * of the command line, identified by their uuid; the other three are output
   * components.  An InputOutput keeps the input component it was made from.
   */
  datatype Component =
    | Flag(uuid: string, gxparam: Option<Param>)
    | OptionComponent(uuid: string, gxparam: Option<Param>)
    | Positional(uuid: string, gxparam: Option<Param>)
    | RedirectOutput(gxparam: Option<Param>, mostCommonValue: string)
    | InputOutput(gxparam: Option<Param>, inputComponent: Component)
    | WildcardOutput(gxparam: Option<Param>, verified: bool)

  /** The component is attached to a Galaxy param of that name. */
  predicate HasParamNamed(c: Component, name: string)
  {
    c.gxparam.Some? && c.gxparam.value.name == name
  }
}
