/**
 * The CheckNewPage component: when a placed element would end below `pos`,
 * the renderer moves it to the next page at `newpos` (and `newpos_x`).
 */
module CheckNewPageCommand {
  import opened Php
  import opened CommandBase
  import opened Commands

  const Cmd := "checknewpage"

  /** The declared params and their defaults. */
  const Schema: ParamMap := map["pos" := Str(""), "newpos" := Str(""), "newpos_x" := Null]

  class CheckNewPage {
    var params: ParamMap

    ghost predicate Valid()
      reads this
    {
      params.Keys == Schema.Keys
    }

    constructor(maxYPos: Value := Str(""), newYPos: Value := Str(""), newXPos: Value := Null)
      ensures Valid()
      ensures params == map["pos" := maxYPos, "newpos" := newYPos, "newpos_x" := newXPos]
    {
      params := InitParams(map[], Schema);
      new;
      SetMaxYPos(maxYPos);
      SetNewYPos(newYPos);
      SetNewXPos(newXPos);
    }

    method SetMaxYPos(maxYPos: Value)
      requires Valid()
      modifies this`params
      ensures Valid()
      ensures params["pos"] == maxYPos
      ensures params["newpos"] == old(params["newpos"]) && params["newpos_x"] == old(params["newpos_x"])
    {
      params := SetParam(params, "pos", maxYPos).value;
    }

    method SetNewYPos(newYPos: Value)
      requires Valid()
      modifies this`params
      ensures Valid()
      ensures params["newpos"] == newYPos
      ensures params["pos"] == old(params["pos"]) && params["newpos_x"] == old(params["newpos_x"])
    {
      params := SetParam(params, "newpos", newYPos).value;
    }

    method SetNewXPos(newXPos: Value)
      requires Valid()
      modifies this`params
      ensures Valid()
      ensures params["newpos_x"] == newXPos
      ensures params["pos"] == old(params["pos"]) && params["newpos"] == old(params["newpos"])
    {
      params := SetParam(params, "newpos_x", newXPos).value;
    }

    static function ComponentIdent(): (ident: string)
    {
      Cmd
    }

    /** At most one CheckNewPage per command: it fills a single slot. */
    static predicate IsMultipleComponent()
    {
      false
    }

    /** The queue's view of this component. */
    function ToNode(): (n: Node)
      reads this
      ensures n.kind == OtherCmd && n.params == params
    {
      Plain(Cmd, params)
    }
  }

  /** The component is keyed under its own command name and fills a single slot. */
  lemma CheckNewPageComponentMetadata()
    ensures CheckNewPage.ComponentIdent() == Cmd == "checknewpage"
    ensures !CheckNewPage.IsMultipleComponent()
  {
  }
}
