/**
 * The rendering part of a project: the generation flag, the box-ident
 * reference and postfix strings, and the fixed command sequences that open
 * the target document, jump to the first page and finish the publication.
 */
module Rendering {
  import opened Php
  import opened CommandBase
  import opened Commands
  import opened VariableCommand
  import opened Queue

  /** The renderer variable that records when the publication was generated. */
  const GeneratedAtVariable := "GENERATED_AT"

  /*
   * The document, page and layer commands below belong to classes that are
   * not part of this model; each is represented by its command name and its
   * constructor arguments, under parameter names chosen here.
   */

  /** OpenDocument(TYPE_USECURRENT): generate into the document currently open. */
  function UseCurrentDocumentNode(): Node
  {
    Plain("opendocument", map["type" := Str("usecurrent")])
  }

  /** OpenDocument(TYPE_TEMPLATE, '0', template): open the template document. */
  function TemplateDocumentNode(template: string): Node
  {
    Plain("opendocument", map["type" := Str("template"), "language" := Str("0"), "template" := Str(template)])
  }

  /** GoToPage(page, flag). */
  function GoToPageNode(page: int, flag: bool): Node
  {
    Plain("gotopage", map["page" := Num(page), "flag" := Bool(flag)])
  }

  function RemoveEmptyLayersNode(): Node
  {
    Plain("removeemptylayers", map[])
  }

  /** The commands initInDesignDocument sends, in order; `now` is the generation time. */
  function DocumentCommands(template: string, now: int): (s: seq<Node>)
    ensures |s| == 3 && s[2] == VariableNode(GeneratedAtVariable, IntToString(now))
  {
    [UseCurrentDocumentNode(), TemplateDocumentNode(template), VariableNode(GeneratedAtVariable, IntToString(now))]
  }

  /** The built form of `nodes` when all are added on `page`. */
  function BuiltOn(nodes: seq<Node>, page: int): (s: seq<Built>)
    ensures |s| == |nodes|
    ensures forall i :: 0 <= i < |nodes| ==> s[i] == Built(nodes[i], page)
  {
    if nodes == [] then [] else [Built(nodes[0], page)] + BuiltOn(nodes[1..], page)
  }

  class Project {
    var generationActive: bool
    /** Content reference for box idents (typically object ids). */
    var boxIdentReference: string
    var boxIdentGenericPostfix: string
    /** The project's command queue (getCommandQueue). */
    const queue: CommandQueue

    ghost predicate Valid()
      reads this, queue
    {
      queue.Valid()
    }

    constructor()
      ensures Valid() && fresh(queue)
      ensures !generationActive && boxIdentReference == "" && boxIdentGenericPostfix == ""
      ensures queue.commands == [] && queue.registeredVariables == [] && queue.pageNumber == 0
    {
      generationActive := false;
      boxIdentReference := "";
      boxIdentGenericPostfix := "";
      queue := new CommandQueue();
    }

    /**
     * run: marks the generation active, then returns the queue's commands.
     * Building the publication itself is project-specific and not modelled.
     */
    method Run() returns (commands: seq<Built>)
      modifies this`generationActive
      ensures generationActive
      ensures commands == queue.commands
    {
      generationActive := true;
      commands := queue.GetCommands();
    }

    function IsGenerationActive(): bool
      reads this
    {
      generationActive
    }

    function GetBoxIdentReference(): string
      reads this
    {
      boxIdentReference
    }

    method SetBoxIdentReference(ident: string)
      modifies this`boxIdentReference
      ensures boxIdentReference == ident
    {
      boxIdentReference := ident;
    }

    method AppendToBoxIdentReference(ident: string)
      modifies this`boxIdentReference
      ensures boxIdentReference == old(boxIdentReference) + ident
    {
      SetBoxIdentReference(GetBoxIdentReference() + ident);
    }

    function GetBoxIdentGenericPostfix(): string
      reads this
    {
      boxIdentGenericPostfix
    }

    method SetBoxIdentGenericPostfix(postfix: string)
      modifies this`boxIdentGenericPostfix
      ensures boxIdentGenericPostfix == postfix
      ensures boxIdentReference == old(boxIdentReference)
    {
      boxIdentGenericPostfix := postfix;
    }

    /**
     * initInDesignDocument: targets the open document, opens the template
     * and publishes the generation time as GENERATED_AT. None of the three
     * commands can be rejected.
     */
    method InitInDesignDocument(template: string, now: int)
      requires Valid()
      modifies queue
      ensures Valid()
      ensures queue.commands == old(queue.commands) + BuiltOn(DocumentCommands(template, now), queue.pageNumber)
      ensures queue.registeredVariables == old(queue.registeredVariables) + [GeneratedAtVariable]
      ensures queue.pageNumber == old(queue.pageNumber) && queue.yPos == old(queue.yPos)
      ensures queue.registeredAssets == old(queue.registeredAssets)
      ensures queue.missingAssetIds == old(queue.missingAssetIds) && queue.missingElements == old(queue.missingElements)
    {
      var r1 := queue.AddCommand(UseCurrentDocumentNode());
      var r2 := queue.AddCommand(TemplateDocumentNode(template));
      var r3 := queue.AddCommand(VariableNode(GeneratedAtVariable, IntToString(now)));
      assert BuiltOn(DocumentCommands(template, now), queue.pageNumber) ==
        [Built(UseCurrentDocumentNode(), queue.pageNumber),
         Built(TemplateDocumentNode(template), queue.pageNumber),
         Built(VariableNode(GeneratedAtVariable, IntToString(now)), queue.pageNumber)];
    }

    /**
     * startRendering: the document commands, then GoToPage(1) when the
     * first page is to be opened. Locale and PHP runtime settings are not
     * modelled.
     */
    method StartRendering(template: string, now: int, openFirstPage: bool := true)
      requires Valid()
      modifies queue
      ensures Valid()
      ensures queue.commands == old(queue.commands) + BuiltOn(DocumentCommands(template, now), queue.pageNumber) +
                (if openFirstPage then [Built(GoToPageNode(1, false), queue.pageNumber)] else [])
      ensures queue.registeredVariables == old(queue.registeredVariables) + [GeneratedAtVariable]
      ensures queue.pageNumber == old(queue.pageNumber) && queue.yPos == old(queue.yPos)
      ensures queue.registeredAssets == old(queue.registeredAssets)
      ensures queue.missingAssetIds == old(queue.missingAssetIds) && queue.missingElements == old(queue.missingElements)
    {
      InitInDesignDocument(template, now);
      if openFirstPage {
        var _ := queue.AddCommand(GoToPageNode(1, false));
      }
    }

    /** stopRendering: exactly one RemoveEmptyLayers command. */
    method StopRendering()
      requires Valid()
      modifies queue
      ensures Valid()
      ensures queue.commands == old(queue.commands) + [Built(RemoveEmptyLayersNode(), queue.pageNumber)]
      ensures queue.registeredVariables == old(queue.registeredVariables)
      ensures queue.pageNumber == old(queue.pageNumber) && queue.yPos == old(queue.yPos)
      ensures queue.registeredAssets == old(queue.registeredAssets)
      ensures queue.missingAssetIds == old(queue.missingAssetIds) && queue.missingElements == old(queue.missingElements)
    {
      var _ := queue.AddCommand(RemoveEmptyLayersNode());
    }
  }
}
