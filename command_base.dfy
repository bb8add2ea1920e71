/**
 * The parameter store every command inherits from its abstract base class
 * (initParams / setParam / getParam), and the errors commands raise. The
 * base class itself is not part of this model: its store is taken to be a
 * map from declared parameter names to their current values, where
 * declaring a parameter gives it its default value.
 */
module CommandBase {
  import opened Wrappers
  import opened Php

  /** The exceptions raised by commands and by the command queue. */
  datatype Error =
    | UnknownParameter(name: string)            // get/set of a parameter outside the schema
    | ValidationFailed(param: string)           // a command's own validate() rejected it
    | InvalidAxis(position: string)             // relative positioning on an axis other than left/top
    | UndeclaredVariables(names: set<string>)   // dependent variables never registered in the queue

  /** Declared parameter names and their current values. */
  type ParamMap = map<string, Value>

  /** initParams: declares every parameter of `defaults` with its default value. */
  function InitParams(p: ParamMap, defaults: ParamMap): (r: ParamMap)
    ensures r.Keys == p.Keys + defaults.Keys
    ensures forall k :: k in defaults ==> r[k] == defaults[k]
    ensures forall k :: k in p && k !in defaults ==> r[k] == p[k]
  {
    p + defaults
  }

  /** setParam: stores a raw value under a declared parameter; an undeclared one is an error. */
  function SetParam(p: ParamMap, name: string, v: Value): (r: Result<ParamMap, Error>)
    ensures r.Failure? <==> name !in p
    ensures r.Failure? ==> r.error == UnknownParameter(name)
    ensures r.Success? ==> r.value.Keys == p.Keys && r.value[name] == v
    ensures r.Success? ==> forall k :: k in p && k != name ==> r.value[k] == p[k]
  {
    if name in p then Success(p[name := v]) else Failure(UnknownParameter(name))
  }

  /** getParam: the value of a declared parameter; an undeclared one is an error. */
  function GetParam(p: ParamMap, name: string): (r: Result<Value, Error>)
    ensures r.Success? <==> name in p
    ensures r.Success? ==> r.value == p[name]
    ensures r.Failure? ==> r.error == UnknownParameter(name)
  {
    if name in p then Success(p[name]) else Failure(UnknownParameter(name))
  }

  /** Reading a parameter back after setting it yields the stored value. */
  lemma GetAfterSet(p: ParamMap, name: string, other: string, v: Value)
    requires name in p && other in p
    ensures SetParam(p, name, v).Success?
    ensures GetParam(SetParam(p, name, v).value, name) == Success(v)
    ensures other != name ==> GetParam(SetParam(p, name, v).value, other) == GetParam(p, other)
  {
  }
}
