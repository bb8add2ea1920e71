/**
 * A placement command (a box) with the position and layer capabilities:
 * absolute or variable-relative left/top coordinates, kept in step with a
 * binding map from axis to the renderer variable the axis refers to, and
 * the target layer.
 */
module Placement {
  import opened Wrappers
  import opened Php
  import opened CommandBase
  import opened Commands
  import opened VariableCommand

  /** The params initPosition declares, both defaulting to 0. */
  const PositionDefaults: ParamMap := map["left" := Num(0), "top" := Num(0)]

  /** The param initLayer declares, defaulting to null. */
  const LayerDefaults: ParamMap := map["layer" := Null]

  /** The only axes that may be positioned relative to a variable. */
  const RelativeAxes: set<string> := {PositionLeft, PositionTop}

  /** The formula written for a relative position: `=[variable] + margin`. */
  function RelativeFormula(variable: string, margin: int): (f: string)
    ensures IsFormula(Str(f))
    ensures |f| > |variable| + 2 && f[2..2 + |variable|] == variable
  {
    var f := "=[" + variable + "] + " + IntToString(margin);
    assert f[2..2 + |variable|] == variable;
    f
  }

  /** validateRelativePosition: only left and top can be relative. */
  function ValidateRelativePosition(position: string): (r: Outcome<Error>)
    ensures r.Pass? <==> position == "left" || position == "top"
    ensures r.Fail? ==> r.error == InvalidAxis(position)
  {
    if position != PositionTop && position != PositionLeft then Fail(InvalidAxis(position)) else Pass
  }

  /** Every axis that can be relative is one of the positions a Variable may describe. */
  lemma RelativeAxesAreAllowedPositions(position: string)
    requires ValidateRelativePosition(position).Pass?
    ensures IsAllowedPosition(position)
  {
  }

  class Box {
    const cmd: string
    var params: ParamMap
    /** Axis → name of the variable that axis is positioned relative to. */
    var relativePositionVariables: map<string, string>
    /** The nested components; how they are added is not part of this model. */
    var components: seq<Node>

    /** The position and layer params are declared and only left/top are bound. */
    ghost predicate Declared()
      reads this
    {
      && PositionDefaults.Keys + LayerDefaults.Keys <= params.Keys
      && relativePositionVariables.Keys <= RelativeAxes
    }

    /** A binding exists only while its axis holds a formula. */
    ghost predicate Valid()
      reads this
    {
      && Declared()
      && forall axis :: axis in relativePositionVariables ==> IsFormula(params[axis])
    }

    /** A box whose constructor initialises the position and layer capabilities. */
    constructor(cmd: string, components: seq<Node>)
      ensures Valid()
      ensures this.cmd == cmd && this.components == components
      ensures params == map["left" := Num(0), "top" := Num(0), "layer" := Null]
      ensures relativePositionVariables == map[]
    {
      this.cmd := cmd;
      this.components := components;
      params := map[];
      relativePositionVariables := map[];
      new;
      InitPosition();
      InitLayer();
    }

    /** initPosition: declares left and top with default 0. */
    method InitPosition()
      modifies this`params
      ensures params == InitParams(old(params), PositionDefaults)
      ensures params["left"] == Num(0) && params["top"] == Num(0)
    {
      params := InitParams(params, PositionDefaults);
    }

    /** initLayer: declares layer with default null. */
    method InitLayer()
      modifies this`params
      ensures params == InitParams(old(params), LayerDefaults)
      ensures params["layer"] == Null
    {
      params := InitParams(params, LayerDefaults);
    }

    /**
     * checkRelativePositionVariable: a value that is not a formula ends the
     * binding of its axis.
     */
    method CheckRelativePositionVariable(position: string, value: Value)
      modifies this`relativePositionVariables
      ensures relativePositionVariables ==
                if IsFormula(value) then old(relativePositionVariables)
                else old(relativePositionVariables) - {position}
    {
      if IsFormula(value) {
        return;
      }
      relativePositionVariables := relativePositionVariables - {position};
    }

    /**
     * setLeft. Its caller may just have bound the left axis, so only the
     * top axis is required to be consistent on entry.
     */
    method SetLeft(left: Value)
      requires Declared()
      requires "top" in relativePositionVariables ==> IsFormula(params["top"])
      modifies this`params, this`relativePositionVariables
      ensures Valid()
      ensures params == old(params)["left" := left]
      ensures IsFormula(left) ==> relativePositionVariables == old(relativePositionVariables)
      ensures !IsFormula(left) ==> relativePositionVariables == old(relativePositionVariables) - {"left"}
    {
      params := SetParam(params, "left", left).value;
      CheckRelativePositionVariable("left", left);
    }

    /** setTop, the same for the top axis. */
    method SetTop(top: Value)
      requires Declared()
      requires "left" in relativePositionVariables ==> IsFormula(params["left"])
      modifies this`params, this`relativePositionVariables
      ensures Valid()
      ensures params == old(params)["top" := top]
      ensures IsFormula(top) ==> relativePositionVariables == old(relativePositionVariables)
      ensures !IsFormula(top) ==> relativePositionVariables == old(relativePositionVariables) - {"top"}
    {
      params := SetParam(params, "top", top).value;
      CheckRelativePositionVariable("top", top);
    }

    /**
     * setRelativePosition: binds `position` to `variable` and writes the
     * formula `=[variable] + margin` on that axis. Any axis but left/top is
     * rejected before anything changes.
     */
    method SetRelativePosition(position: string, variable: string, margin: int := 0) returns (r: Outcome<Error>)
      requires Valid()
      modifies this`params, this`relativePositionVariables
      ensures Valid()
      ensures r.Fail? <==> position != "left" && position != "top"
      ensures r.Fail? ==> r.error == InvalidAxis(position)
      ensures r.Fail? ==> params == old(params) && relativePositionVariables == old(relativePositionVariables)
      ensures r.Pass? ==> params == old(params)[position := Str(RelativeFormula(variable, margin))]
      ensures r.Pass? ==> relativePositionVariables == old(relativePositionVariables)[position := variable]
    {
      r := ValidateRelativePosition(position);
      if r.Fail? {
        return;
      }
      relativePositionVariables := relativePositionVariables[position := variable];
      if position == PositionLeft {
        SetLeft(Str(RelativeFormula(variable, margin)));
      } else {
        SetTop(Str(RelativeFormula(variable, margin)));
      }
    }

    method SetLeftRelative(variable: string, margin: int := 0)
      requires Valid()
      modifies this`params, this`relativePositionVariables
      ensures Valid()
      ensures params == old(params)["left" := Str(RelativeFormula(variable, margin))]
      ensures relativePositionVariables == old(relativePositionVariables)["left" := variable]
    {
      var _ := SetRelativePosition(PositionLeft, variable, margin);
    }

    method SetTopRelative(variable: string, margin: int := 0)
      requires Valid()
      modifies this`params, this`relativePositionVariables
      ensures Valid()
      ensures params == old(params)["top" := Str(RelativeFormula(variable, margin))]
      ensures relativePositionVariables == old(relativePositionVariables)["top" := variable]
    {
      var _ := SetRelativePosition(PositionTop, variable, margin);
    }

    /** setLayer: stores the layer name and returns the same box. */
    method SetLayer(layer: string) returns (r: Box)
      requires Valid()
      modifies this`params
      ensures r == this && Valid()
      ensures params == old(params)["layer" := Str(layer)]
    {
      params := SetParam(params, "layer", Str(layer)).value;
      r := this;
    }

    function IsRelativePositioned(): (r: bool)
      reads this
      ensures r <==> exists axis :: axis in relativePositionVariables
    {
      relativePositionVariables != map[]
    }

    function GetRelativePositionVariables(): map<string, string>
      reads this
    {
      relativePositionVariables
    }

    function IsRelativePositionedToVariable(variable: string): (r: bool)
      reads this
      ensures r <==> exists axis :: axis in relativePositionVariables && relativePositionVariables[axis] == variable
    {
      variable in relativePositionVariables.Values
    }

    /** The variables the box depends on: one per relatively positioned axis. */
    function GetDependentVariables(): (r: map<string, string>)
      reads this
      requires Valid()
      ensures r.Keys <= {"left", "top"}
      ensures forall axis :: axis in r ==> IsFormula(params[axis])
      ensures forall v :: v in r.Values <==> IsRelativePositionedToVariable(v)
    {
      GetRelativePositionVariables()
    }

    /** The queue's view of this box: variable-dependent, on the bound variable names. */
    function ToNode(): (n: Node)
      reads this
      requires Valid()
      ensures n.kind == OtherCmd && n.dependent.Some?
      ensures forall v :: v in n.dependent.value <==> IsRelativePositionedToVariable(v)
    {
      Node(cmd, OtherCmd, params, components, Some(GetDependentVariables().Values), None)
    }
  }
}
