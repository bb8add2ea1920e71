/**
 * The container extension's project wiring: every configured project entry
 * is merged with the remaining top-level settings and given the path of the
 * bundle its service class belongs to.
 */
module Extension {
  import opened Wrappers
  import opened Php
  import opened Sequences
  import opened Projects

  /** One entry of the kernel's bundle metadata. */
  datatype Bundle = Bundle(namespace: string, path: string)

  datatype ExtensionError = NoServiceDefined | NoMatchingBundle(service: string)

  /**
   * The processed configuration: the `projects` entries, absent when not
   * configured, and every other top-level setting.
   */
  datatype Config = Config(projects: Option<seq<(Key, Entry)>>, settings: Entry)

  /** `0 === strpos($service, $namespace)`: the namespace is a prefix of the service name. */
  predicate InBundle(service: string, b: Bundle)
  {
    b.namespace <= service
  }

  /** The path of the first bundle in `bundles` the service belongs to. */
  function FirstMatchingPath(bundles: seq<Bundle>, service: string): (r: Option<string>)
    ensures r.None? <==> forall i :: 0 <= i < |bundles| ==> !InBundle(service, bundles[i])
    ensures r.Some? ==> exists i :: 0 <= i < |bundles| && InBundle(service, bundles[i]) && bundles[i].path == r.value &&
                                   forall j :: 0 <= j < i ==> !InBundle(service, bundles[j])
  {
    if bundles == [] then None
    else if InBundle(service, bundles[0]) then Some(bundles[0].path)
    else
      var r := FirstMatchingPath(bundles[1..], service);
      if r.Some? then
        var i :| 0 <= i < |bundles[1..]| && InBundle(service, bundles[1..][i]) && bundles[1..][i].path == r.value &&
                 forall j :: 0 <= j < i ==> !InBundle(service, bundles[1..][j]);
        assert InBundle(service, bundles[i + 1]) && bundles[i + 1].path == r.value;
        r
      else r
  }

  /** getBundlePathForService: search the bundle metadata from last to first. */
  function BundlePathForService(bundles: seq<Bundle>, projectConfig: Entry): (r: Result<string, ExtensionError>)
    ensures ("service" !in projectConfig || IsEmpty(projectConfig["service"])) <==> r == Failure(NoServiceDefined)
  {
    if "service" !in projectConfig || IsEmpty(projectConfig["service"]) then Failure(NoServiceDefined)
    else
      var service := ToPhpString(projectConfig["service"]);
      match FirstMatchingPath(Reversed(bundles), service)
      case Some(path) => Success(path)
      case None => Failure(NoMatchingBundle(service))
  }

  /** No bundle in the reversed list claims the service exactly when none in the original does. */
  lemma ReversedSearchFindsNone(bundles: seq<Bundle>, service: string)
    ensures FirstMatchingPath(Reversed(bundles), service).None? <==>
            forall i :: 0 <= i < |bundles| ==> !InBundle(service, bundles[i])
  {
    var rev := Reversed(bundles);
    if exists m :: 0 <= m < |bundles| && InBundle(service, bundles[m]) {
      var m :| 0 <= m < |bundles| && InBundle(service, bundles[m]);
      assert rev[|bundles| - 1 - m] == bundles[m];
    } else {
      forall i | 0 <= i < |rev| ensures !InBundle(service, rev[i]) {
        assert rev[i] == bundles[|bundles| - 1 - i];
      }
    }
  }

  /** The first match in the reversed list is the last match in the original order. */
  lemma ReversedSearchFindsLast(bundles: seq<Bundle>, service: string)
    requires FirstMatchingPath(Reversed(bundles), service).Some?
    ensures exists k :: 0 <= k < |bundles| && InBundle(service, bundles[k]) &&
                        bundles[k].path == FirstMatchingPath(Reversed(bundles), service).value &&
                        forall j :: k < j < |bundles| ==> !InBundle(service, bundles[j])
  {
    var rev := Reversed(bundles);
    var path := FirstMatchingPath(rev, service).value;
    var i :| 0 <= i < |rev| && InBundle(service, rev[i]) && rev[i].path == path &&
             forall j :: 0 <= j < i ==> !InBundle(service, rev[j]);
    var k := |bundles| - 1 - i;
    assert bundles[k] == rev[i];
    forall j | k < j < |bundles| ensures !InBundle(service, bundles[j]) {
      assert bundles[j] == rev[|bundles| - 1 - j];
    }
    assert InBundle(service, bundles[k]) && bundles[k].path == path;
  }

  /**
   * The bundle found is the LAST one in metadata order whose namespace
   * prefixes the service name; when none does, the lookup fails naming the
   * service.
   */
  lemma BundlePathIsLastMatch(bundles: seq<Bundle>, projectConfig: Entry)
    requires "service" in projectConfig && !IsEmpty(projectConfig["service"])
    ensures var service := ToPhpString(projectConfig["service"]);
            var r := BundlePathForService(bundles, projectConfig);
            && (r.Failure? <==> forall i :: 0 <= i < |bundles| ==> !InBundle(service, bundles[i]))
            && (r.Failure? ==> r.error == NoMatchingBundle(service))
            && (r.Success? ==> exists i :: 0 <= i < |bundles| && InBundle(service, bundles[i]) && bundles[i].path == r.value &&
                                 forall j :: i < j < |bundles| ==> !InBundle(service, bundles[j]))
  {
    var service := ToPhpString(projectConfig["service"]);
    ReversedSearchFindsNone(bundles, service);
    if FirstMatchingPath(Reversed(bundles), service).Some? {
      ReversedSearchFindsLast(bundles, service);
    }
  }

  /**
   * One iteration of the merge loop: the entry merged with the top-level
   * settings (array_merge, so a setting overrides the entry's own value),
   * then given its bundle path.
   */
  function MergedProject(project: (Key, Entry), settings: Entry, bundles: seq<Bundle>): (r: Result<(Key, Entry), ExtensionError>)
    ensures r.Failure? <==> BundlePathForService(bundles, project.1 + settings).Failure?
    ensures r.Success? ==> r.value.0 == project.0
    ensures r.Success? ==> r.value.1.Keys == project.1.Keys + settings.Keys + {"bundlePath"}
    ensures r.Success? ==> r.value.1["bundlePath"] == Str(BundlePathForService(bundles, project.1 + settings).value)
    ensures r.Success? ==> forall k :: k in settings && k != "bundlePath" ==> r.value.1[k] == settings[k]
    ensures r.Success? ==> forall k :: k in project.1 && k !in settings && k != "bundlePath" ==> r.value.1[k] == project.1[k]
  {
    var merged := project.1 + settings;
    match BundlePathForService(bundles, merged)
    case Success(path) => Success((project.0, merged["bundlePath" := Str(path)]))
    case Failure(e) => Failure(e)
  }

  /**
   * registerProjects: without a `projects` key nothing is registered;
   * otherwise every entry is merged in place, in order, and the first entry
   * whose bundle lookup fails aborts the whole registration.
   */
  method RegisterProjects(config: Config, bundles: seq<Bundle>) returns (r: Result<Option<seq<(Key, Entry)>>, ExtensionError>)
    ensures config.projects.None? ==> r == Success(None)
    ensures config.projects.Some? && r.Success? ==>
              && r.value.Some? && |r.value.value| == |config.projects.value|
              && forall i :: 0 <= i < |config.projects.value| ==>
                   MergedProject(config.projects.value[i], config.settings, bundles) == Success(r.value.value[i])
    ensures r.Failure? ==>
              && config.projects.Some?
              && exists i :: 0 <= i < |config.projects.value| &&
                   MergedProject(config.projects.value[i], config.settings, bundles) == Failure(r.error) &&
                   forall j :: 0 <= j < i ==> MergedProject(config.projects.value[j], config.settings, bundles).Success?
  {
    if config.projects.None? {
      return Success(None);
    }
    var entries := config.projects.value;
    var arguments := entries;
    for i := 0 to |arguments|
      invariant |arguments| == |entries|
      invariant forall j :: 0 <= j < i ==> MergedProject(entries[j], config.settings, bundles) == Success(arguments[j])
      invariant forall j :: i <= j < |arguments| ==> arguments[j] == entries[j]
    {
      var (key, argument) := arguments[i];
      argument := argument + config.settings;
      var path := BundlePathForService(bundles, argument);
      if path.Failure? {
        assert MergedProject(entries[i], config.settings, bundles) == Failure(path.error);
        return Failure(path.error);
      }
      argument := argument["bundlePath" := Str(path.value)];
      arguments := arguments[i := (key, argument)];
    }
    return Success(Some(arguments));
  }

  /**
   * Wiring the two together: every project the manager registers from a
   * successfully processed configuration carries a bundle path.
   */
  lemma RegisteredProjectsHaveBundlePath(arguments: seq<(Key, Entry)>, id: string)
    requires forall i :: 0 <= i < |arguments| ==> "bundlePath" in arguments[i].1
    requires id in Registered(map[], arguments)
    ensures "bundlePath" in Registered(map[], arguments)[id]
  {
    RegisteredLastWins(map[], arguments, id);
  }
}
