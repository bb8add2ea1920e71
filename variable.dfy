/**
 * The Variable command: declares a named value in the renderer that later
 * commands may reference in formulas (`=[name] + margin`). Used standalone
 * or as a multiple component of a placement command.
 */
module VariableCommand {
  import opened Wrappers
  import opened Php
  import opened CommandBase
  import opened Commands

  const Cmd := "variable"

  const PositionLeft := "left"
  const PositionRight := "right"
  const PositionTop := "top"
  const PositionBottom := "bottom"

  /** The reserved renderer variable names for the vertical and horizontal cursors. */
  const VariableYPosition := "yPos"
  const VariableXPosition := "xPos"

  /** The positions a variable may describe of a placed box, in declaration order. */
  const AllowedPositions: seq<string> := [PositionLeft, PositionRight, PositionTop, PositionBottom]

  /** The declared params and their defaults. */
  const Schema: ParamMap := map["name" := Str(""), "value" := Str("")]

  predicate IsAllowedPosition(position: string)
  {
    position in AllowedPositions
  }

  /** Exactly left, right, top and bottom are allowed, each listed once. */
  lemma AllowedPositionsAreTheFourSides(position: string)
    ensures IsAllowedPosition(position) <==> position in {"left", "right", "top", "bottom"}
    ensures |AllowedPositions| == 4
    ensures forall i, j :: 0 <= i < j < |AllowedPositions| ==> AllowedPositions[i] != AllowedPositions[j]
  {
  }

  /** getName() over a param store: the `name` param as a string, or '' when reading it fails. */
  function NameOf(p: ParamMap): (r: string)
    ensures "name" !in p ==> r == ""
    ensures "name" in p && p["name"].Str? ==> r == p["name"].s
  {
    match GetParam(p, "name")
    case Success(v) => ToPhpString(v)
    case Failure(_) => ""
  }

  /** validate(): a variable without a name is rejected. */
  function ValidateParams(p: ParamMap): (r: Outcome<Error>)
    ensures r.Fail? <==> NameOf(p) == ""
    ensures r.Fail? ==> r.error == ValidationFailed("name")
  {
    if NameOf(p) == "" then Fail(ValidationFailed("name")) else Pass
  }

  /** The queue's view of `new Variable(name, value)`. */
  function VariableNode(name: string, value: string): (n: Node)
    ensures n.kind == VariableCmd && n.cmd == Cmd
    ensures NameOf(n.params) == name
    ensures n.components == [] && n.dependent.None? && n.images.None?
  {
    Node(Cmd, VariableCmd, map["name" := Str(name), "value" := Str(value)], [], None, None)
  }

  class Variable {
    var params: ParamMap

    /** Both params are declared and the name holds a string. */
    ghost predicate Valid()
      reads this
    {
      Schema.Keys <= params.Keys && params["name"].Str?
    }

    /**
     * The PHP constructor types both arguments as strings, so a number
     * passed as value arrives here already converted to its decimal string.
     */
    constructor(name: string := "", value: string := "")
      ensures Valid()
      ensures params == map["name" := Str(name), "value" := Str(value)]
      ensures GetName() == name
      ensures ToNode() == VariableNode(name, value)
    {
      params := InitParams(map[], Schema);
      new;
      SetName(name);
      SetValue(Str(value));
    }

    method SetName(name: string)
      requires Schema.Keys <= params.Keys
      modifies this`params
      ensures Valid()
      ensures params == old(params)["name" := Str(name)]
      ensures GetName() == name
    {
      params := SetParam(params, "name", Str(name)).value;
    }

    function GetName(): string
      reads this
    {
      NameOf(params)
    }

    /** The value is a number or a string (float|int|string in PHP; floats are not modelled). */
    method SetValue(value: Value)
      requires Valid()
      requires value.Num? || value.Str?
      modifies this`params
      ensures Valid()
      ensures params == old(params)["value" := value]
      ensures GetName() == old(GetName())
    {
      params := SetParam(params, "value", value).value;
    }

    function Validate(): (r: Outcome<Error>)
      reads this
    {
      ValidateParams(params)
    }

    static function ComponentIdent(): (ident: string)
    {
      "variables"
    }

    /** Variables are appended to a list under their component ident. */
    static predicate IsMultipleComponent()
    {
      true
    }

    /** The queue's view of this command: a declaring node with no components. */
    function ToNode(): (n: Node)
      reads this
    {
      Node(Cmd, VariableCmd, params, [], None, None)
    }
  }

  /** A variable component is keyed as 'variables', not under its command name 'variable'. */
  lemma VariableComponentMetadata()
    ensures Variable.ComponentIdent() == "variables" && Cmd == "variable"
    ensures Variable.ComponentIdent() != Cmd
    ensures Variable.IsMultipleComponent()
  {
  }
}
