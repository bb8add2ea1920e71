/**
 * The project registry: configured projects keyed by their ident, the
 * service factory that loads a project from the service container, and
 * the slot holding the project selected for generation.
 */
module Projects {
  import opened Wrappers
  import opened Php
  import opened Sequences

  /** A PHP array key: an integer or a string. */
  datatype Key = IntKey(i: int) | StrKey(s: string)

  /** One project's configuration (scalar values only). */
  type Entry = map<string, Value>

  /** `(string)$key`. */
  function KeyString(k: Key): string
  {
    match k
    case IntKey(i) => IntToString(i)
    case StrKey(s) => s
  }

  /** `empty($project['ident'])`: absent or an empty value. */
  predicate HasEmptyIdent(project: Entry)
  {
    "ident" !in project || IsEmpty(project["ident"])
  }

  /**
   * One step of registerProjects: the registry key of a config entry and the
   * entry as stored. The stored entry always names its own registry key.
   */
  function NormalizeProject(key: Key, project: Entry): (r: (string, Entry))
    ensures HasEmptyIdent(project) ==> r.0 == KeyString(key) && r.1 == project["ident" := Str(KeyString(key))]
    ensures !HasEmptyIdent(project) ==> r.0 == ToPhpString(project["ident"]) && r.1 == project
    ensures "ident" in r.1 && ToPhpString(r.1["ident"]) == r.0
    ensures r.1.Keys == project.Keys + {"ident"}
  {
    if HasEmptyIdent(project) then (KeyString(key), project["ident" := Str(KeyString(key))])
    else (ToPhpString(project["ident"]), project)
  }

  /** The registry after registering `config`, in order, on top of `base`. */
  function Registered(base: map<string, Entry>, config: seq<(Key, Entry)>): map<string, Entry>
    decreases |config|
  {
    if config == [] then base
    else
      var n := NormalizeProject(config[|config| - 1].0, config[|config| - 1].1);
      Registered(base, config[..|config| - 1])[n.0 := n.1]
  }

  /** The registry key of the `i`-th config entry. */
  function IdentAt(config: seq<(Key, Entry)>, i: nat): string
    requires i < |config|
  {
    NormalizeProject(config[i].0, config[i].1).0
  }

  /**
   * The position of the last config entry registered under `id`, or -1
   * when no entry normalises to `id`.
   */
  function LastIdentIndex(config: seq<(Key, Entry)>, id: string): (k: int)
    ensures -1 <= k < |config|
    ensures k >= 0 ==> IdentAt(config, k) == id
    ensures forall j :: k < j < |config| ==> IdentAt(config, j) != id
    decreases |config|
  {
    if config == [] then -1
    else if IdentAt(config, |config| - 1) == id then |config| - 1
    else
      var k := LastIdentIndex(config[..|config| - 1], id);
      assert forall j :: k < j < |config| - 1 ==> IdentAt(config[..|config| - 1], j) == IdentAt(config, j);
      k
  }

  /**
   * Registration is a last-wins map: an ident is registered when some entry
   * normalises to it, and then holds the last such entry; idents no entry
   * normalises to keep their earlier registration.
   */
  lemma {:induction false} RegisteredLastWins(base: map<string, Entry>, config: seq<(Key, Entry)>, id: string)
    ensures id in Registered(base, config) <==> id in base || LastIdentIndex(config, id) >= 0
    ensures LastIdentIndex(config, id) >= 0 ==>
              var k := LastIdentIndex(config, id);
              Registered(base, config)[id] == NormalizeProject(config[k].0, config[k].1).1
    ensures LastIdentIndex(config, id) < 0 && id in base ==> Registered(base, config)[id] == base[id]
    decreases |config|
  {
    if config != [] {
      var prefix := config[..|config| - 1];
      RegisteredLastWins(base, prefix, id);
      if IdentAt(config, |config| - 1) != id {
        var k := LastIdentIndex(prefix, id);
        assert LastIdentIndex(config, id) == k;
        if k >= 0 {
          assert prefix[k] == config[k];
        }
      }
    }
  }

  /**
   * The order in which a PHP array holds the registered idents: an ident
   * keeps the position of its first registration, and a new ident goes to
   * the end.
   */
  function RegisteredOrder(order: seq<string>, config: seq<(Key, Entry)>): seq<string>
    decreases |config|
  {
    if config == [] then order
    else
      var before := RegisteredOrder(order, config[..|config| - 1]);
      var id := IdentAt(config, |config| - 1);
      if id in before then before else before + [id]
  }

  /**
   * The registered order keeps the old order as a prefix, lists exactly the
   * old idents and those some entry normalises to, and repeats none.
   */
  lemma {:induction false} RegisteredOrderLists(order: seq<string>, config: seq<(Key, Entry)>)
    ensures order <= RegisteredOrder(order, config)
    ensures forall id :: id in RegisteredOrder(order, config) <==> id in order || LastIdentIndex(config, id) >= 0
    ensures Distinct(order) ==> Distinct(RegisteredOrder(order, config))
    decreases |config|
  {
    if config != [] {
      var prefix := config[..|config| - 1];
      RegisteredOrderLists(order, prefix);
      var id := IdentAt(config, |config| - 1);
      assert forall x :: x != id ==> LastIdentIndex(config, x) == LastIdentIndex(prefix, x);
    }
  }

  /** Registering one more entry: the registry and the order each take one step. */
  lemma RegistrationStep(base: map<string, Entry>, order: seq<string>, config: seq<(Key, Entry)>, i: nat)
    requires i < |config|
    ensures var n := NormalizeProject(config[i].0, config[i].1);
            && Registered(base, config[..i + 1]) == Registered(base, config[..i])[n.0 := n.1]
            && RegisteredOrder(order, config[..i + 1]) ==
                 (var o := RegisteredOrder(order, config[..i]); if n.0 in o then o else o + [n.0])
  {
    assert config[..i + 1][..i] == config[..i];
    assert config[..i + 1][i] == config[i];
  }

  /** Every registered entry's ident, cast to a string, is the key it is stored under. */
  lemma RegisteredEntriesNameTheirKey(config: seq<(Key, Entry)>, id: string)
    requires id in Registered(map[], config)
    ensures "ident" in Registered(map[], config)[id]
    ensures ToPhpString(Registered(map[], config)[id]["ident"]) == id
  {
    RegisteredLastWins(map[], config, id);
  }

  /** A service in the container: a project service, or some other service. */
  datatype Service = ProjectService(name: string) | OtherService(name: string)

  /** A loaded project: its service, configured with its registry entry. */
  datatype LoadedProject = LoadedProject(service: string, config: Entry)

  datatype ProjectError =
    | UnknownProject(ident: string)
    | ServiceKeyMissing(ident: string)
    | ServiceNotFound(service: string)
    | NotAProject(ident: string)
    | NoProjectSelected

  /**
   * The container part of projectServiceFactory for a registered ident:
   * look the configured service up, and insist it is a project.
   */
  function LoadService(ident: string, config: Entry, container: map<string, Service>): (r: Result<LoadedProject, ProjectError>)
    ensures r.Success? <==> "service" in config && ToPhpString(config["service"]) in container &&
                            container[ToPhpString(config["service"])].ProjectService?
    ensures r.Success? ==> r.value == LoadedProject(ToPhpString(config["service"]), config)
    ensures "service" in config && ToPhpString(config["service"]) !in container ==>
              r == Failure(ServiceNotFound(ToPhpString(config["service"])))
  {
    if "service" !in config then Failure(ServiceKeyMissing(ident))
    else
      var name := ToPhpString(config["service"]);
      if name !in container then Failure(ServiceNotFound(name))
      else if container[name].OtherService? then Failure(NotAProject(ident))
      else Success(LoadedProject(name, config))
  }

  /**
   * What projectServiceFactory yields for `ident`: an unregistered ident
   * fails before the container is consulted.
   */
  function LoadProject(ident: string, projects: map<string, Entry>, container: map<string, Service>): Result<LoadedProject, ProjectError>
  {
    if ident !in projects then Failure(UnknownProject(ident)) else LoadService(ident, projects[ident], container)
  }

  /**
   * The configuration each shared service instance holds after the factory
   * has loaded the projects `ids`, in order, on top of `configured`: a
   * successful load calls setConfig on the container's one instance of its
   * service, a failed load changes nothing.
   */
  function ConfigureAll(configured: map<string, Entry>, ids: seq<string>, projects: map<string, Entry>,
                        container: map<string, Service>): map<string, Entry>
    decreases |ids|
  {
    if ids == [] then configured
    else
      var before := ConfigureAll(configured, ids[..|ids| - 1], projects, container);
      match LoadProject(ids[|ids| - 1], projects, container)
      case Success(p) => before[p.service := p.config]
      case Failure(_) => before
  }

  /** Loading one more project configures its instance on top of the loads before it. */
  lemma ConfigureStep(configured: map<string, Entry>, ids: seq<string>, projects: map<string, Entry>,
                      container: map<string, Service>, i: int)
    requires 0 <= i < |ids|
    ensures var before := ConfigureAll(configured, ids[..i], projects, container);
            var r := LoadProject(ids[i], projects, container);
            ConfigureAll(configured, ids[..i + 1], projects, container) ==
              if r.Success? then before[r.value.service := r.value.config] else before
  {
    assert ids[..i + 1][..i] == ids[..i];
  }

  /** A shared instance holds the entry of the last project in `ids` that loads as its service. */
  lemma {:induction false} ConfigureAllLastWins(configured: map<string, Entry>, ids: seq<string>, projects: map<string, Entry>,
                                                container: map<string, Service>, service: string, k: int)
    requires 0 <= k < |ids| && LoadsAs(ids[k], projects, container, service)
    requires forall j :: k < j < |ids| ==> !LoadsAs(ids[j], projects, container, service)
    ensures service in ConfigureAll(configured, ids, projects, container)
    ensures ids[k] in projects && ConfigureAll(configured, ids, projects, container)[service] == projects[ids[k]]
    decreases |ids|
  {
    var prefix := ids[..|ids| - 1];
    if k < |ids| - 1 {
      assert prefix[k] == ids[k];
      ConfigureAllLastWins(configured, prefix, projects, container, service, k);
      assert !LoadsAs(ids[|ids| - 1], projects, container, service);
    }
  }

  /** A shared instance no project in `ids` loads as keeps its configuration, or its absence of one. */
  lemma {:induction false} ConfigureAllUntouched(configured: map<string, Entry>, ids: seq<string>, projects: map<string, Entry>,
                                                 container: map<string, Service>, service: string)
    requires forall i :: 0 <= i < |ids| ==> !LoadsAs(ids[i], projects, container, service)
    ensures service in ConfigureAll(configured, ids, projects, container) <==> service in configured
    ensures service in configured ==> ConfigureAll(configured, ids, projects, container)[service] == configured[service]
    decreases |ids|
  {
    if ids != [] {
      var prefix := ids[..|ids| - 1];
      ConfigureAllUntouched(configured, prefix, projects, container, service);
      assert !LoadsAs(ids[|ids| - 1], projects, container, service);
    }
  }

  /** Whether the project `id` loads successfully as an instance of `service`. */
  predicate LoadsAs(id: string, projects: map<string, Entry>, container: map<string, Service>, service: string)
  {
    var r := LoadProject(id, projects, container);
    r.Success? && r.value.service == service
  }

  class ProjectsManager {
    /** Registered projects by ident. */
    var projects: map<string, Entry>
    /** The idents in the order the projects array holds them (first registration). */
    var idents: seq<string>
    /**
     * The container hands out one shared instance per service; this is the
     * entry each instance was last configured with by setConfig.
     */
    var configured: map<string, Entry>
    /** The service whose instance is selected for generation (a static property in PHP). */
    var selected: Option<string>
    /** The service container the factory loads projects from. */
    const container: map<string, Service>

    ghost predicate Valid()
      reads this
    {
      && Distinct(idents)
      && (forall i :: 0 <= i < |idents| ==> idents[i] in projects)
      && (forall id :: id in projects ==> id in idents)
      && (selected.Some? ==> selected.value in configured)
    }

    constructor(config: seq<(Key, Entry)>, container: map<string, Service>)
      ensures Valid()
      ensures projects == Registered(map[], config)
      ensures idents == RegisteredOrder([], config)
      ensures configured == map[] && selected == None && this.container == container
    {
      projects := map[];
      idents := [];
      configured := map[];
      selected := None;
      this.container := container;
      new;
      RegisterProjects(config);
    }

    /** registerProjects: normalise each entry and store it under its ident, in order. */
    method RegisterProjects(config: seq<(Key, Entry)>)
      requires Valid()
      modifies this`projects, this`idents
      ensures Valid()
      ensures projects == Registered(old(projects), config)
      ensures idents == RegisteredOrder(old(idents), config)
    {
      for i := 0 to |config|
        invariant Valid()
        invariant projects == Registered(old(projects), config[..i])
        invariant idents == RegisteredOrder(old(idents), config[..i])
      {
        RegistrationStep(old(projects), old(idents), config, i);
        RegisterEntry(config[i].0, config[i].1);
      }
      assert config[..|config|] == config;
    }

    /**
     * One pass of registerProjects' loop: the entry is stored under its
     * ident, which joins the key order only when it is new.
     */
    method RegisterEntry(key: Key, entry: Entry)
      requires Valid()
      modifies this`projects, this`idents
      ensures Valid()
      ensures var (ident, project) := NormalizeProject(key, entry);
              && projects == old(projects)[ident := project]
              && idents == if ident in old(idents) then old(idents) else old(idents) + [ident]
    {
      var (ident, project) := NormalizeProject(key, entry);
      if ident !in projects {
        assert ident !in idents;
        idents := idents + [ident];
      }
      projects := projects[ident := project];
    }

    /**
     * getProject: the selected service instance, with the configuration it
     * holds now, or an error when none is selected.
     */
    function GetProject(): (r: Result<LoadedProject, ProjectError>)
      reads this
      requires Valid()
      ensures r.Success? <==> selected.Some?
      ensures r.Success? ==> r.value == LoadedProject(selected.value, configured[selected.value])
      ensures r.Failure? ==> r.error == NoProjectSelected
    {
      match selected
      case Some(service) => Success(LoadedProject(service, configured[service]))
      case None => Failure(NoProjectSelected)
    }

    /**
     * projectServiceFactory: an unregistered ident fails before the
     * container is consulted; otherwise the configured service is loaded,
     * its shared instance is given the project's entry, and that instance
     * becomes the selected one when `registerSelected` is set.
     */
    method ProjectServiceFactory(ident: string, registerSelected: bool := true) returns (r: Result<LoadedProject, ProjectError>)
      requires Valid()
      modifies this`configured, this`selected
      ensures Valid()
      ensures ident !in projects ==> r == Failure(UnknownProject(ident))
      ensures ident in projects ==> r == LoadService(ident, projects[ident], container)
      ensures configured == if r.Success? then old(configured)[r.value.service := r.value.config] else old(configured)
      ensures selected == if registerSelected && r.Success? then Some(r.value.service) else old(selected)
    {
      r := LoadProject(ident, projects, container);
      if r.Success? {
        configured := configured[r.value.service := r.value.config];
        if registerSelected {
          selected := Some(r.value.service);
        }
      }
    }

    /**
     * getProjectsInfo: loads every registered project, in registry order,
     * without selecting any of them, though each load re-configures its
     * service's shared instance, a selected one included. The info record
     * each project builds of itself right after loading is not modelled;
     * the loaded project stands for it.
     */
    method GetProjectsInfo() returns (r: Result<seq<LoadedProject>, ProjectError>)
      requires Valid()
      modifies this`configured, this`selected
      ensures Valid() && selected == old(selected)
      ensures r.Success? ==> configured == ConfigureAll(old(configured), idents, projects, container)
      ensures r.Success? ==> |r.value| == |idents|
      ensures r.Success? ==>
                forall i :: 0 <= i < |idents| ==> LoadService(idents[i], projects[idents[i]], container) == Success(r.value[i])
      ensures r.Failure? ==>
                exists i :: 0 <= i < |idents| && LoadService(idents[i], projects[idents[i]], container) == Failure(r.error) &&
                  (forall j :: 0 <= j < i ==> LoadService(idents[j], projects[idents[j]], container).Success?) &&
                  configured == ConfigureAll(old(configured), idents[..i], projects, container)
    {
      var infos := [];
      for i := 0 to |idents|
        invariant Valid() && selected == old(selected)
        invariant projects == old(projects) && idents == old(idents)
        invariant configured == ConfigureAll(old(configured), idents[..i], projects, container)
        invariant |infos| == i
        invariant forall j :: 0 <= j < i ==> LoadService(idents[j], projects[idents[j]], container) == Success(infos[j])
      {
        assert idents[i] in projects;
        ConfigureStep(old(configured), idents, projects, container, i);
        var p := ProjectServiceFactory(idents[i], false);
        if p.Failure? {
          assert LoadService(idents[i], projects[idents[i]], container) == Failure(p.error);
          assert forall j :: 0 <= j < i ==> LoadService(idents[j], projects[idents[j]], container).Success?;
          assert configured == ConfigureAll(old(configured), idents[..i], projects, container);
          return Failure(p.error);
        }
        infos := infos + [p.value];
      }
      assert idents[..|idents|] == idents;
      return Success(infos);
    }
  }
}
