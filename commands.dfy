/**
 * The command/component model as the command queue sees it: a value
 * snapshot of a command object, with the capabilities the queue inspects
 * (variable declaration, variable dependency, image collection) and its
 * nested components.
 */
module Commands {
  import opened Wrappers
  import opened CommandBase

  /**
   * The classes the queue's registration pass recognises by type: a
   * Variable (its name is its `name` param), an AbstractMath variable (its
   * getName()), or any other command.
   */
  datatype Kind = VariableCmd | MathCmd(name: string) | OtherCmd

  /**
   * A command at the moment it is handed to the queue.
   *  - `cmd`: the command name (its CMD constant);
   *  - `dependent`: Some(names) when the command implements the
   *    variable-dependent interface, with what getDependentVariables() returns;
   *  - `images`: Some(images) when it implements ImageCollectorInterface,
   *    with what getCollectedImages() returns (asset id → entry).
   */
  datatype Node = Node(
    cmd: string,
    kind: Kind,
    params: ParamMap,
    components: seq<Node>,
    dependent: Option<set<string>>,
    images: Option<map<int, string>>)

  /**
   * The output of buildCommand() for a command whose box ident was
   * created on page `page`. Serialisation and the box-ident scheme are not
   * part of this model: the built record is determined by the command and
   * the page number, and by nothing else.
   */
  datatype Built = Built(command: Node, page: int)

  /** A plain command of a class this model does not describe, with the given params. */
  function Plain(cmd: string, params: ParamMap): (n: Node)
    ensures n.kind == OtherCmd && n.components == [] && n.dependent.None? && n.images.None?
  {
    Node(cmd, OtherCmd, params, [], None, None)
  }
}
