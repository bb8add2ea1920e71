/**
 * Client call sequences on the queue, a box, the registry and the
 * extension, whose outcomes are proved from the contracts alone.
 */
module Scenarios {
  import opened Wrappers
  import opened Php
  import opened CommandBase
  import opened Commands
  import opened VariableCommand
  import opened Placement
  import opened Queue
  import opened Rendering
  import opened Projects
  import opened Extension
  import opened CheckNewPageCommand
  import Sequences

  /**
   * A box on `components` with one axis positioned relative to `variable`,
   * and the queue's view of it: it depends on that variable alone.
   */
  method PositionedBox(cmd: string, components: seq<Node>, axis: string, variable: string, margin: int) returns (n: Node)
    requires axis == "left" || axis == "top"
    ensures n.cmd == cmd && n.kind == OtherCmd && n.components == components
    ensures n.dependent == Some({variable})
    ensures axis in n.params && n.params[axis] == Str(RelativeFormula(variable, margin))
  {
    var box := new Box(cmd, components);
    var r := box.SetRelativePosition(axis, variable, margin);
    assert r.Pass?;
    ghost var bound := box.relativePositionVariables;
    assert bound == map[axis := variable];
    assert bound.Values == {variable} by {
      assert bound[axis] == variable;
    }
    n := box.ToNode();
    assert n.params == box.params;
  }

  /** A declared variable admits a box positioned on it. */
  method DeclaredDependencyScenario()
  {
    var q := new CommandQueue();
    var r := q.AddCommand(VariableNode("x", "1"));
    assert q.registeredVariables == ["x"];
    var n := PositionedBox("textbox", [], "left", "x", 0);
    assert DeclaredNames(n) == [];
    r := q.AddCommand(n);
    assert r == Pass;
    assert |q.commands| == 2;
  }

  /** A box positioned on a variable nobody declared is rejected, naming the variable. */
  method UndeclaredDependencyScenario()
  {
    var q := new CommandQueue();
    var n := PositionedBox("textbox", [], "top", "y", 0);
    assert DeclaredNames(n) == [];
    var r := q.AddCommand(n);
    assert r.Fail? && r.error.UndeclaredVariables? && "y" in r.error.names;
    assert forall x :: x in r.error.names ==> x == "y";
    assert r.error.names == {"y"};
    assert q.commands == [];
  }

  /** A box that declares the variable it is positioned on, inside itself, is admitted. */
  method SelfDeclaredScenario()
  {
    var q := new CommandQueue();
    var n := PositionedBox("group", [VariableNode("x", "1")], "top", "x", 0);
    assert Declares(n.components[0], "x");
    SelfDeclaredDependencyAccepted([], n);
    assert Buildable(n.components[0]);
    assert Buildable(n);
    var r := q.AddCommand(n);
    assert r == Pass;
    assert q.commands == [Built(n, 0)];
  }

  /**
   * A box with a page-break check among its components: the bound axis
   * holds a string formula, the axis is a position a Variable may describe,
   * and the check component travels with the queued box.
   */
  method BoxWithPageCheckScenario()
  {
    var checkNode := PageCheckNode();
    var q := new CommandQueue();
    var r := q.AddCommand(VariableNode("x", "1"));
    assert q.registeredVariables == ["x"];
    var n := PositionedBox("textbox", [checkNode], "left", "x", 5);
    assert n.params["left"].Str? && IsFormula(n.params["left"]);
    RelativeAxesAreAllowedPositions("left");
    assert DeclaredNames(n) == [] by {
      assert n.components == [checkNode] && [checkNode][1..] == [];
      assert DeclaredNamesSeq([checkNode]) == DeclaredNames(checkNode) + DeclaredNamesSeq([]);
    }
    assert Buildable(n.components[0]);
    r := q.AddCommand(n);
    assert r == Pass;
    assert q.commands[1].command.components == [checkNode];
  }

  /** The queue's view of a page-break check at y = 250 with a 20-unit margin. */
  method PageCheckNode() returns (n: Node)
    ensures n.kind == OtherCmd && n.components == [] && n.dependent.None?
    ensures "newpos_x" in n.params && n.params["newpos_x"] == Null
  {
    var check := new CheckNewPage(Str("250"), Str("20"));
    n := check.ToNode();
  }

  /** Moving the cursor from 5 by 10 and publishing it. */
  method YPosScenario()
  {
    var q := new CommandQueue();
    q.SetYPos(5);
    var y := q.IncrementYPos(10, true);
    assert y == 15 && q.GetYPos() == 15;
    assert q.commands[|q.commands| - 1] == Built(VariableNode("yPos", IntToString(15)), q.pageNumber);
  }

  /** Three misses of asset 42 and one of asset 7. */
  method MissingAssetsScenario()
  {
    var q := new CommandQueue();
    q.IncrementMissingAssetCounter(42);
    q.IncrementMissingAssetCounter(42);
    q.IncrementMissingAssetCounter(42);
    q.IncrementMissingAssetCounter(7);
    var m := q.GetMissingAssets();
    assert m.0 == map[42 := 3, 7 := 1];
    assert m.1 == 4;
  }

  /** The generation time is declared on page 1, and a box positioned three units to its right follows. */
  method GeneratedAtScenario(now: int)
  {
    var q := new CommandQueue();
    q.SetPageNumber(1);
    var declaration := VariableNode("GENERATED_AT", IntToString(now));
    var r := q.AddCommand(declaration);
    assert DeclaredNames(declaration) == ["GENERATED_AT"];
    assert q.registeredVariables == ["GENERATED_AT"];
    assert |q.commands| == 1;
    var n := PositionedBox("textbox", [], "left", "GENERATED_AT", 3);
    assert DeclaredNames(n) == [];
    r := q.AddCommand(n);
    assert r == Pass;
    assert q.commands[1] == Built(n, 1);
  }

  /** A rejected box leaves the command stream as it was. */
  method RejectedBoxScenario(q: CommandQueue)
    requires q.Valid() && q.registeredVariables == ["GENERATED_AT"]
    modifies q
  {
    var before := q.commands;
    var n := PositionedBox("textbox", [], "left", "MISSING", 0);
    assert DeclaredNames(n) == [];
    var r := q.AddCommand(n);
    assert r.Fail? && r.error.UndeclaredVariables? && "MISSING" in r.error.names;
    assert forall x :: x in r.error.names ==> x == "MISSING";
    assert r.error.names == {"MISSING"};
    assert q.commands == before;
  }

  /** A fresh box with its left axis positioned on `x` and its top axis on `y`. */
  method BothAxesBox(x: string, y: string) returns (box: Box)
    ensures fresh(box) && box.Valid()
    ensures box.relativePositionVariables == map["left" := x, "top" := y]
  {
    box := new Box("textbox", []);
    box.SetLeftRelative(x, 2);
    box.SetTopRelative(y);
  }

  /**
   * Setting a number on an axis after positioning both axes relatively
   * clears that axis's binding only.
   */
  method ClearBindingScenario(x: string, y: string, left: int)
    requires x != y
  {
    var box := BothAxesBox(x, y);
    ghost var bound := box.relativePositionVariables;
    assert bound["left"] == x;
    assert box.IsRelativePositionedToVariable(x);
    assert !IsFormula(Num(left)) by {
      assert IntToString(left)[0] != '=';
    }
    box.SetLeft(Num(left));
    assert box.relativePositionVariables == bound - {"left"};
    assert box.relativePositionVariables == map["top" := y];
    assert !box.IsRelativePositionedToVariable(x);
  }

  /** Re-binding an axis replaces its variable; an invalid axis changes nothing. */
  method RebindScenario(y: string, z: string)
  {
    var box := new Box("textbox", []);
    box.SetTopRelative(y);
    box.SetTopRelative(z, -1);
    ghost var bound := box.relativePositionVariables;
    assert bound.Keys == {"top"} && bound["top"] == z;
    var r := box.SetRelativePosition("right", z);
    assert r == Fail(InvalidAxis("right"));
    assert box.relativePositionVariables == bound;
  }

  /** Starting and stopping the rendering of a project. */
  method RenderingScenario()
  {
    var p := new Project();
    p.StartRendering("template.indd", 1000);
    p.StopRendering();
    assert |p.queue.commands| == 5;
    assert p.queue.commands[4].command == RemoveEmptyLayersNode();
    assert p.queue.registeredVariables == [GeneratedAtVariable];
    p.SetBoxIdentReference("12");
    p.AppendToBoxIdentReference("-a");
    assert p.GetBoxIdentReference() == "12-a";
  }

  /** A keyed entry, an entry without ident, and a later entry overriding the first. */
  method RegistryScenario()
  {
    var a: Entry := map["ident" := Str("main"), "service" := Str("App\\Main")];
    var b: Entry := map["service" := Str("App\\Other")];
    var c: Entry := map["ident" := Str("main"), "service" := Str("App\\Third")];
    var config := [(StrKey("first"), a), (IntKey(3), b), (StrKey("x"), c)];
    var container := map["App\\Main" := ProjectService("App\\Main"), "App\\Third" := ProjectService("App\\Third")];
    var pm := new ProjectsManager(config, container);
    RegistryLookups(a, b, c, config, container);
    var r := pm.ProjectServiceFactory("missing", true);
    assert r == Failure(UnknownProject("missing")) && pm.selected == None;
    r := pm.ProjectServiceFactory("main", false);
    assert r == Success(LoadedProject("App\\Third", c)) && pm.GetProject() == Failure(NoProjectSelected);
    r := pm.ProjectServiceFactory("main");
    assert pm.GetProject() == Success(LoadedProject("App\\Third", c));
  }

  /**
   * In that configuration "main" holds the later entry, which loads its
   * own service, and "missing" is not registered.
   */
  lemma RegistryLookups(a: Entry, b: Entry, c: Entry, config: seq<(Key, Entry)>, container: map<string, Service>)
    requires a == map["ident" := Str("main"), "service" := Str("App\\Main")]
    requires b == map["service" := Str("App\\Other")]
    requires c == map["ident" := Str("main"), "service" := Str("App\\Third")]
    requires config == [(StrKey("first"), a), (IntKey(3), b), (StrKey("x"), c)]
    requires container == map["App\\Main" := ProjectService("App\\Main"), "App\\Third" := ProjectService("App\\Third")]
    ensures "main" in Registered(map[], config) && Registered(map[], config)["main"] == c
    ensures "missing" !in Registered(map[], config)
    ensures LoadService("main", c, container) == Success(LoadedProject("App\\Third", c))
  {
    assert ToPhpString(c["service"]) == "App\\Third";
    RegisteredLastWins(map[], config, "main");
    RegisteredLastWins(map[], config, "missing");
    assert IntToString(3) != "missing";
  }

  /**
   * Two projects share one service: loading the second, even without
   * selecting it, re-configures the instance already selected.
   */
  method SharedInstanceScenario()
  {
    var a: Entry := map["ident" := Str("a"), "service" := Str("App\\Shared")];
    var b: Entry := map["ident" := Str("b"), "service" := Str("App\\Shared")];
    var config := [(StrKey("a"), a), (StrKey("b"), b)];
    var pm := new ProjectsManager(config, map["App\\Shared" := ProjectService("App\\Shared")]);
    SharedLookups(a, b, config);
    var r := pm.ProjectServiceFactory("a");
    assert pm.GetProject() == Success(LoadedProject("App\\Shared", a));
    r := pm.ProjectServiceFactory("b", false);
    assert pm.GetProject() == Success(LoadedProject("App\\Shared", b));
  }

  /** In that configuration each project is registered under its own ident. */
  lemma SharedLookups(a: Entry, b: Entry, config: seq<(Key, Entry)>)
    requires a == map["ident" := Str("a"), "service" := Str("App\\Shared")]
    requires b == map["ident" := Str("b"), "service" := Str("App\\Shared")]
    requires config == [(StrKey("a"), a), (StrKey("b"), b)]
    ensures "a" in Registered(map[], config) && Registered(map[], config)["a"] == a
    ensures "b" in Registered(map[], config) && Registered(map[], config)["b"] == b
  {
    RegisteredLastWins(map[], config, "a");
    RegisteredLastWins(map[], config, "b");
  }

  /** A re-registered ident keeps the position of its first registration. */
  method RegistryOrderScenario()
  {
    var a: Entry := map["ident" := Str("main")];
    var b: Entry := map["ident" := Null];
    var config := [(StrKey("first"), a), (IntKey(3), b), (StrKey("x"), a)];
    RegistryOrderExample(a, b, config);
    var pm := new ProjectsManager(config, map[]);
    assert pm.idents == ["main", "3"];
  }

  lemma RegistryOrderExample(a: Entry, b: Entry, config: seq<(Key, Entry)>)
    requires a == map["ident" := Str("main")] && b == map["ident" := Null]
    requires config == [(StrKey("first"), a), (IntKey(3), b), (StrKey("x"), a)]
    ensures RegisteredOrder([], config) == ["main", "3"]
  {
    RegistryOrderFirstTwo(a, b, config);
    assert NormalizeProject(config[2].0, config[2].1).0 == "main";
    RegistrationStep(map[], [], config, 2);
    assert config[..3] == config;
  }

  /** The first two entries of that configuration register "main", then "3". */
  lemma RegistryOrderFirstTwo(a: Entry, b: Entry, config: seq<(Key, Entry)>)
    requires a == map["ident" := Str("main")] && b == map["ident" := Null]
    requires config == [(StrKey("first"), a), (IntKey(3), b), (StrKey("x"), a)]
    ensures RegisteredOrder([], config[..2]) == ["main", "3"]
  {
    assert NormalizeProject(config[0].0, config[0].1).0 == "main";
    assert IntToString(3) == "3";
    assert NormalizeProject(config[1].0, config[1].1).0 == "3";
    RegistrationStep(map[], [], config, 0);
    assert config[..0] == [];
    assert RegisteredOrder([], config[..1]) == ["main"];
    RegistrationStep(map[], [], config, 1);
  }

  /** The service belongs to two bundles; the later one in metadata order wins. */
  method BundleScenario()
  {
    var bundles := [Bundle("App", "/app"), Bundle("App\\Sub", "/sub"), Bundle("Vendor", "/vendor")];
    var cfg := Config(Some([(StrKey("p"), map["service" := Str("App\\Sub\\Project")])]), map["debug" := Bool(true)]);
    var r := RegisterProjects(cfg, bundles);
    SubBundleWins(bundles, map["service" := Str("App\\Sub\\Project"), "debug" := Bool(true)]);
    assert r.Success? && r.value.value[0].1["bundlePath"] == Str("/sub");
    var none := RegisterProjects(Config(None, map[]), bundles);
    assert none == Success(None);
  }

  /** Of the bundles App and App\\Sub, both prefixes of the service, the later is found. */
  lemma SubBundleWins(bundles: seq<Bundle>, entry: Entry)
    requires bundles == [Bundle("App", "/app"), Bundle("App\\Sub", "/sub"), Bundle("Vendor", "/vendor")]
    requires entry == map["service" := Str("App\\Sub\\Project"), "debug" := Bool(true)]
    ensures BundlePathForService(bundles, entry) == Success("/sub")
  {
    var service := "App\\Sub\\Project";
    var rev := Sequences.Reversed(bundles);
    assert rev == [bundles[2], bundles[1], bundles[0]];
    assert !InBundle(service, rev[0]) by {
      assert "Vendor"[0] != service[0];
    }
    assert InBundle(service, rev[1]) by {
      assert "App\\Sub" <= service;
    }
    assert FirstMatchingPath(rev[1..], service) == Some("/sub") by {
      assert rev[1..][0] == rev[1];
    }
    assert FirstMatchingPath(rev, service) == Some("/sub");
  }
}
