/**
 * The command queue: the append-only stream of built commands sent to the
 * renderer, the page and vertical-position cursors, the registry of
 * declared renderer variables, and the asset and missing-asset registries.
 */
module Queue {
  import opened Wrappers
  import opened Php
  import opened CommandBase
  import opened Commands
  import opened VariableCommand
  import opened Sequences

  /** The renderer variable that publishes the vertical cursor. */
  const VariableYPos := "yPos"

  // ---------------------------------------------------------------------
  // Variable registration: a pre-order walk that stops at declaring nodes
  // ---------------------------------------------------------------------

  /** The names registerVariables records for `n`, in the order it records them. */
  function DeclaredNames(n: Node): seq<string>
    decreases n
  {
    match n.kind
    case VariableCmd => [NameOf(n.params)]
    case MathCmd(name) => [name]
    case OtherCmd => DeclaredNamesSeq(n.components)
  }

  /** The names recorded for a list of sibling components, left to right. */
  function DeclaredNamesSeq(s: seq<Node>): seq<string>
    decreases s
  {
    if s == [] then [] else DeclaredNames(s[0]) + DeclaredNamesSeq(s[1..])
  }

  /** Walking two lists of siblings one after the other records their names one after the other. */
  lemma {:induction false} DeclaredNamesSeqAppend(a: seq<Node>, b: seq<Node>)
    ensures DeclaredNamesSeq(a + b) == DeclaredNamesSeq(a) + DeclaredNamesSeq(b)
  {
    if a != [] {
      assert (a + b)[0] == a[0] && (a + b)[1..] == a[1..] + b;
      DeclaredNamesSeqAppend(a[1..], b);
    } else {
      assert a + b == b;
    }
  }

  /**
   * Reference definition: `x` is declared by a Variable or math node in
   * `n`, looking inside every node except the declaring ones.
   */
  predicate Declares(n: Node, x: string)
    decreases n
  {
    match n.kind
    case VariableCmd => NameOf(n.params) == x
    case MathCmd(name) => name == x
    case OtherCmd => exists i :: 0 <= i < |n.components| && Declares(n.components[i], x)
  }

  /** The walk records exactly the names the command declares. */
  lemma {:induction false} DeclaredNamesMembership(n: Node, x: string)
    ensures x in DeclaredNames(n) <==> Declares(n, x)
    decreases n, 1
  {
    match n.kind
    case VariableCmd =>
    case MathCmd(_) =>
    case OtherCmd => DeclaredNamesSeqMembership(n.components, x);
  }

  lemma {:induction false} DeclaredNamesSeqMembership(s: seq<Node>, x: string)
    ensures x in DeclaredNamesSeq(s) <==> exists i :: 0 <= i < |s| && Declares(s[i], x)
    decreases s, 0
  {
    if s != [] {
      DeclaredNamesMembership(s[0], x);
      DeclaredNamesSeqMembership(s[1..], x);
      if x in DeclaredNamesSeq(s[1..]) {
        var i :| 0 <= i < |s[1..]| && Declares(s[1..][i], x);
        assert Declares(s[i + 1], x);
      }
      if exists i :: 0 <= i < |s| && Declares(s[i], x) {
        var i :| 0 <= i < |s| && Declares(s[i], x);
        if i > 0 {
          assert Declares(s[1..][i - 1], x);
        }
      }
    }
  }

  // ---------------------------------------------------------------------
  // Dependency validation and building: top-level checks of addCommand
  // ---------------------------------------------------------------------

  /**
   * validateVariables: a command that is not variable-dependent passes;
   * otherwise it fails naming every dependent variable not yet registered.
   * Only the command itself is consulted, never its components.
   */
  function ValidateVariables(registered: seq<string>, c: Node): (r: Outcome<Error>)
    ensures r.Fail? <==> c.dependent.Some? && exists x :: x in c.dependent.value && x !in registered
    ensures r.Fail? ==> r.error.UndeclaredVariables?
    ensures r.Fail? ==> forall x :: x in r.error.names <==> x in c.dependent.value && x !in registered
  {
    if c.dependent.None? then Pass
    else
      var missing := set x | x in c.dependent.value && x !in registered;
      assert forall x :: x in c.dependent.value && x !in registered ==> x in missing;
      if missing == {} then Pass else Fail(UndeclaredVariables(missing))
  }

  /**
   * Whether buildCommand() succeeds: it runs validate() on the command and
   * on every nested component. Only Variable has a validate() rule in this
   * model (a non-empty name); the rules of other classes are not modelled.
   */
  predicate Buildable(n: Node)
    decreases n
  {
    && (n.kind.VariableCmd? ==> ValidateParams(n.params).Pass?)
    && forall i :: 0 <= i < |n.components| ==> Buildable(n.components[i])
  }

  /** createBoxIdent + buildCommand, as a function of the command and the current page. */
  function Build(c: Node, page: int): (r: Result<Built, Error>)
    ensures r.Success? <==> Buildable(c)
    ensures r.Success? ==> r.value.command == c && r.value.page == page
    ensures r.Failure? ==> r.error == ValidationFailed("name")
  {
    if Buildable(c) then Success(Built(c, page)) else Failure(ValidationFailed("name"))
  }

  /**
   * What addCommand decides once the command's own declarations are in
   * `registered`: dependency validation first, then building.
   */
  function Admit(registered: seq<string>, c: Node): (r: Outcome<Error>)
    ensures r.Pass? <==> ValidateVariables(registered, c).Pass? && Buildable(c)
    ensures ValidateVariables(registered, c).Fail? ==> r == ValidateVariables(registered, c)
  {
    match ValidateVariables(registered, c)
    case Fail(e) => Fail(e)
    case Pass => if Buildable(c) then Pass else Fail(ValidationFailed("name"))
  }

  /**
   * Registration precedes validation: a command passes dependency
   * validation when each name it depends on was registered before or is
   * declared somewhere inside the command itself.
   */
  lemma SelfDeclaredDependencyAccepted(registered: seq<string>, c: Node)
    requires c.dependent.Some?
    requires forall x :: x in c.dependent.value ==> x in registered || Declares(c, x)
    ensures ValidateVariables(registered + DeclaredNames(c), c) == Pass
  {
    forall x | x in c.dependent.value
      ensures x in registered + DeclaredNames(c)
    {
      DeclaredNamesMembership(c, x);
    }
  }

  /**
   * Dependency validation does not recurse: a command that is not itself
   * variable-dependent is admitted whatever its components depend on.
   */
  lemma NestedDependenciesNotValidated(registered: seq<string>, c: Node)
    requires c.dependent.None? && Buildable(c)
    ensures Admit(registered, c) == Pass
  {
  }

  /** A variable with an empty name is registered by the walk, then rejected by building. */
  lemma EmptyVariableNameRejected(registered: seq<string>, value: string)
    ensures DeclaredNames(VariableNode("", value)) == [""]
    ensures Admit(registered + [""], VariableNode("", value)) == Fail(ValidationFailed("name"))
  {
  }

  // ---------------------------------------------------------------------
  // Asset registries
  // ---------------------------------------------------------------------

  /**
   * registerAsset: merges the collected images of an image-collecting
   * command into the registry; ids already registered keep their entry.
   */
  function MergeCollectedImages(assets: map<int, string>, c: Node): (r: map<int, string>)
    ensures c.images.None? ==> r == assets
    ensures c.images.Some? ==> r.Keys == assets.Keys + c.images.value.Keys
    ensures forall id :: id in assets ==> r[id] == assets[id]
    ensures c.images.Some? ==> forall id :: id in c.images.value && id !in assets ==> r[id] == c.images.value[id]
  {
    if c.images.None? then assets else c.images.value + assets
  }

  /** One more missing occurrence of asset `id`, counting from 0. */
  function IncrementCounter(counts: map<int, nat>, id: int): (r: map<int, nat>)
    ensures r.Keys == counts.Keys + {id}
    ensures r[id] == (if id in counts then counts[id] else 0) + 1
    ensures forall k :: k in counts && k != id ==> r[k] == counts[k]
  {
    counts[id := (if id in counts then counts[id] else 0) + 1]
  }

  /** The sum of the counters of the listed ids. */
  function SumCounts(ids: seq<int>, counts: map<int, nat>): nat
    requires forall i :: 0 <= i < |ids| ==> ids[i] in counts
  {
    if ids == [] then 0 else counts[ids[0]] + SumCounts(ids[1..], counts)
  }

  lemma {:induction false} SumCountsAppend(ids: seq<int>, id: int, counts: map<int, nat>)
    requires forall i :: 0 <= i < |ids| ==> ids[i] in counts
    requires id in counts
    ensures SumCounts(ids + [id], counts) == SumCounts(ids, counts) + counts[id]
  {
    if ids == [] {
      assert ids + [id] == [id];
    } else {
      assert (ids + [id])[1..] == ids[1..] + [id];
      SumCountsAppend(ids[1..], id, counts);
    }
  }

  /** Changing the counter of an unlisted id does not change the sum. */
  lemma {:induction false} SumCountsFrame(ids: seq<int>, counts: map<int, nat>, id: int, n: nat)
    requires forall i :: 0 <= i < |ids| ==> ids[i] in counts
    requires id !in ids
    ensures SumCounts(ids, counts[id := n]) == SumCounts(ids, counts)
  {
    if ids != [] {
      SumCountsFrame(ids[1..], counts, id, n);
    }
  }

  /** Raising the counter of an id listed once raises the sum by one. */
  lemma {:induction false} SumCountsBump(ids: seq<int>, counts: map<int, nat>, id: int)
    requires forall i :: 0 <= i < |ids| ==> ids[i] in counts
    requires Distinct(ids) && id in ids
    ensures SumCounts(ids, counts[id := counts[id] + 1]) == SumCounts(ids, counts) + 1
  {
    if ids[0] == id {
      assert id !in ids[1..];
      SumCountsFrame(ids[1..], counts, id, counts[id] + 1);
    } else {
      SumCountsBump(ids[1..], counts, id);
    }
  }

  /**
   * The missing-asset registry: the per-asset counters, their ids in the
   * order they were first reported, and the running total of elements,
   * which equals the sum of the counters.
   */
  predicate MissingAssetsConsistent(ids: seq<int>, counts: map<int, nat>, elements: nat)
  {
    && Distinct(ids)
    && (forall i :: 0 <= i < |ids| ==> ids[i] in counts)
    && (forall id :: id in counts ==> id in ids)
    && elements == SumCounts(ids, counts)
  }

  /** incrementMissingAssetCounter keeps the total equal to the sum of the counters. */
  lemma IncrementKeepsTotal(ids: seq<int>, counts: map<int, nat>, elements: nat, id: int)
    requires MissingAssetsConsistent(ids, counts, elements)
    ensures MissingAssetsConsistent(if id in counts then ids else ids + [id], IncrementCounter(counts, id), elements + 1)
  {
    var counts' := IncrementCounter(counts, id);
    if id in counts {
      assert counts' == counts[id := counts[id] + 1];
      SumCountsBump(ids, counts, id);
    } else {
      assert id !in ids;
      SumCountsFrame(ids, counts, id, 1);
      SumCountsAppend(ids, id, counts');
    }
  }

  // ---------------------------------------------------------------------
  // The queue
  // ---------------------------------------------------------------------

  /** The command a page message is sent with; its class is not part of this model. */
  function PageMessageNode(message: string, onPage: bool): Node
  {
    Plain("pagemessage", map["message" := Str(message), "onPage" := Bool(onPage)])
  }

  class CommandQueue {
    /** The built commands, in the order they were added. */
    var commands: seq<Built>
    /** The vertical cursor in millimetres (whole millimetres in this model). */
    var yPos: int
    var pageNumber: int
    var registeredVariables: seq<string>
    /** Asset id → collected entry. */
    var registeredAssets: map<int, string>
    /** Asset id → number of elements whose asset was missing, and their total. */
    var missingAssetIds: map<int, nat>
    var missingElements: nat
    /** The ids of missingAssetIds in insertion order (a PHP array is ordered). */
    ghost var missingOrder: seq<int>

    /** The running total of missing elements is the sum of the per-asset counters. */
    ghost predicate Valid()
      reads this
    {
      MissingAssetsConsistent(missingOrder, missingAssetIds, missingElements)
    }

    constructor()
      ensures Valid()
      ensures commands == [] && yPos == 0 && pageNumber == 0 && registeredVariables == []
      ensures registeredAssets == map[] && missingAssetIds == map[] && missingElements == 0
    {
      commands := [];
      yPos := 0;
      pageNumber := 0;
      registeredVariables := [];
      registeredAssets := map[];
      missingAssetIds := map[];
      missingElements := 0;
      missingOrder := [];
    }

    function GetPageNumber(): int
      reads this
    {
      pageNumber
    }

    method SetPageNumber(page: int)
      modifies this`pageNumber
      ensures pageNumber == page
    {
      pageNumber := page;
    }

    method IncrementPageNumber(increment: int := 1) returns (page: int)
      modifies this`pageNumber
      ensures pageNumber == old(pageNumber) + increment
      ensures page == pageNumber
    {
      pageNumber := pageNumber + increment;
      page := pageNumber;
    }

    function GetYPos(): int
      reads this
    {
      yPos
    }

    /**
     * setYPos: moves the vertical cursor; with `sendCommand` it also
     * publishes the new value to the renderer as Variable('yPos', value),
     * which always succeeds.
     */
    method SetYPos(value: int, sendCommand: bool := false)
      requires Valid()
      modifies this
      ensures Valid()
      ensures yPos == value && pageNumber == old(pageNumber)
      ensures commands == old(commands) +
                (if sendCommand then [Built(VariableNode(VariableYPos, IntToString(value)), pageNumber)] else [])
      ensures registeredVariables == old(registeredVariables) + (if sendCommand then [VariableYPos] else [])
      ensures registeredAssets == old(registeredAssets)
      ensures missingAssetIds == old(missingAssetIds) && missingElements == old(missingElements)
      ensures missingOrder == old(missingOrder)
    {
      yPos := value;
      if sendCommand {
        var _ := AddCommand(VariableNode(VariableYPos, IntToString(yPos)));
      }
    }

    /** incrementYPos: moves the cursor by `value` and returns the new position. */
    method IncrementYPos(value: int, sendCommand: bool := false) returns (newYPos: int)
      requires Valid()
      modifies this
      ensures Valid()
      ensures newYPos == old(yPos) + value && yPos == newYPos && pageNumber == old(pageNumber)
      ensures commands == old(commands) +
                (if sendCommand then [Built(VariableNode(VariableYPos, IntToString(newYPos)), pageNumber)] else [])
      ensures registeredVariables == old(registeredVariables) + (if sendCommand then [VariableYPos] else [])
      ensures registeredAssets == old(registeredAssets)
      ensures missingAssetIds == old(missingAssetIds) && missingElements == old(missingElements)
      ensures missingOrder == old(missingOrder)
    {
      SetYPos(GetYPos() + value, sendCommand);
      newYPos := GetYPos();
    }

    function GetCommands(): seq<Built>
      reads this
    {
      commands
    }

    /**
     * addCommand: registers the variables the command declares, validates
     * its dependencies, builds it on the current page and appends it, then
     * registers its collected images. On failure nothing is appended, but
     * the names registered by this call stay registered.
     */
    method AddCommand(c: Node) returns (r: Outcome<Error>)
      requires Valid()
      modifies this
      ensures Valid()
      ensures registeredVariables == old(registeredVariables) + DeclaredNames(c)
      ensures r == Admit(registeredVariables, c)
      ensures r.Pass? ==> commands == old(commands) + [Built(c, pageNumber)]
      ensures r.Pass? ==> registeredAssets == MergeCollectedImages(old(registeredAssets), c)
      ensures r.Fail? ==> commands == old(commands) && registeredAssets == old(registeredAssets)
      ensures pageNumber == old(pageNumber) && yPos == old(yPos)
      ensures missingAssetIds == old(missingAssetIds) && missingElements == old(missingElements)
      ensures missingOrder == old(missingOrder)
    {
      r := ProcessVariables(c);
      if r.Fail? {
        return;
      }
      var built := Build(c, pageNumber);
      if built.Failure? {
        r := Fail(built.error);
        return;
      }
      commands := commands + [built.value];
      RegisterAsset(c);
    }

    /** processVariables: registration, then validation against the updated registry. */
    method ProcessVariables(c: Node) returns (r: Outcome<Error>)
      modifies this`registeredVariables
      ensures registeredVariables == old(registeredVariables) + DeclaredNames(c)
      ensures r == ValidateVariables(registeredVariables, c)
    {
      RegisterVariables(c);
      r := ValidateVariables(registeredVariables, c);
    }

    /**
     * registerVariables: records the name of a Variable or math node
     * without looking inside it; any other node is walked component by
     * component, in order.
     */
    method RegisterVariables(n: Node)
      modifies this`registeredVariables
      ensures registeredVariables == old(registeredVariables) + DeclaredNames(n)
      decreases n
    {
      match n.kind {
        case VariableCmd =>
          registeredVariables := registeredVariables + [NameOf(n.params)];
        case MathCmd(name) =>
          registeredVariables := registeredVariables + [name];
        case OtherCmd =>
          for i := 0 to |n.components|
            invariant registeredVariables == old(registeredVariables) + DeclaredNamesSeq(n.components[..i])
          {
            assert n.components[..i + 1] == n.components[..i] + [n.components[i]];
            DeclaredNamesSeqAppend(n.components[..i], [n.components[i]]);
            RegisterVariables(n.components[i]);
          }
          assert n.components[..|n.components|] == n.components;
      }
    }

    /** addPageMessage: sends a message command, which always succeeds. */
    method AddPageMessage(message: string, onPage: bool := false)
      requires Valid()
      modifies this
      ensures Valid()
      ensures commands == old(commands) + [Built(PageMessageNode(message, onPage), pageNumber)]
      ensures registeredVariables == old(registeredVariables) && registeredAssets == old(registeredAssets)
      ensures pageNumber == old(pageNumber) && yPos == old(yPos)
      ensures missingAssetIds == old(missingAssetIds) && missingElements == old(missingElements)
      ensures missingOrder == old(missingOrder)
    {
      var _ := AddCommand(PageMessageNode(message, onPage));
    }

    method RegisterAsset(c: Node)
      modifies this`registeredAssets
      ensures registeredAssets == MergeCollectedImages(old(registeredAssets), c)
    {
      if c.images.None? {
        return;
      }
      registeredAssets := c.images.value + registeredAssets;
    }

    function GetRegisteredAssets(): map<int, string>
      reads this
    {
      registeredAssets
    }

    /** incrementMissingAssetCounter: one more element whose asset `id` is missing. */
    method IncrementMissingAssetCounter(id: int)
      requires Valid()
      modifies this`missingAssetIds, this`missingElements, this`missingOrder
      ensures Valid()
      ensures missingAssetIds == IncrementCounter(old(missingAssetIds), id)
      ensures missingElements == old(missingElements) + 1
    {
      IncrementKeepsTotal(missingOrder, missingAssetIds, missingElements, id);
      if id !in missingAssetIds {
        missingAssetIds := missingAssetIds[id := 0];
        missingOrder := missingOrder + [id];
      }
      missingAssetIds := missingAssetIds[id := missingAssetIds[id] + 1];
      missingElements := missingElements + 1;
      assert missingAssetIds == IncrementCounter(old(missingAssetIds), id);
    }

    /** getMissingAssets: the per-asset counters and their total, which always agree. */
    function GetMissingAssets(): (r: (map<int, nat>, nat))
      reads this
      requires Valid()
      ensures r.0 == missingAssetIds
      ensures exists ids :: MissingAssetsConsistent(ids, r.0, r.1)
    {
      (missingAssetIds, missingElements)
    }
  }
}
