# PimPrint command-stream core in Dafny

PimPrint generates print publications: a PHP project builds a stream of
commands, and an InDesign plugin replays them. This project models the core
of that stream and proves properties of the model. The modelled parts are:

- the **command queue**, which
  - registers the renderer variables a command declares;
  - rejects a command that depends on a variable nobody declared;
  - appends accepted commands in call order;
  - tracks the page number and the vertical cursor (`yPos`);
  - collects image assets and counts missing ones.
- the **Variable** and **CheckNewPage** commands.
- the **position** and **layer** capabilities of placed boxes. A box axis can
  be bound to a variable through a formula `=[name] + margin`. The binding
  map is kept in step with the axis params.
- a project's **rendering** state and the fixed command sequences that open
  and close a document.
- the **projects manager**: its ident-keyed registry, the configuration
  each shared project service instance holds, and the selected instance.
- the container extension's **project wiring**: the settings merge and the
  bundle-path lookup.

The model is split into modules, one per source unit:

| Dafny module (file) | what it models |
|---|---|
| `Wrappers`, `Sequences` (wrappers.dfy) | Option/Result/Outcome; `Distinct`, `Reversed` |
| `Php` (php.dfy) | PHP scalars, `empty()`, the `(string)` cast, int→string coercion, the formula test |
| `CommandBase` (command_base.dfy) | the declared-parameter store and the error kinds |
| `Commands` (commands.dfy) | the value a command has when handed to the queue (`Node`) and a built command (`Built`) |
| `VariableCommand` (variable.dfy) | `Variable` |
| `CheckNewPageCommand` (check_new_page.dfy) | `CheckNewPage` |
| `Placement` (placement.dfy) | `PositionTrait`, `LayerTrait` on a `Box` class |
| `Queue` (queue.dfy) | `CommandQueue` |
| `Rendering` (rendering.dfy) | `RenderingTrait` on a `Project` class |
| `Projects` (projects.dfy) | `ProjectsManager` |
| `Extension` (extension.dfy) | `MdsPimPrintCoreExtension::registerProjects` and `getBundlePathForService` |
| `Scenarios` (scenarios.dfy) | client call sequences whose outcomes are proved from the contracts |

Design decisions:

- **Classes where the source mutates.** Objects whose fields the source
  updates are classes with `modifies` frames: the queue, the Variable and
  CheckNewPage commands, a box, a project and the projects manager.
- **Commands enter the queue as values.** A command object reaches the
  queue as an immutable `Node`. A node holds:
  - its command name and parameters;
  - whether it declares a variable;
  - its components;
  - the variables it depends on, if it is variable-dependent;
  - the images it collects, if it is an image collector.
- **Building is opaque.** Building a command and giving it a box ident are
  modelled as pairing the node with the current page number. A build fails
  exactly when some Variable inside the command has an empty name.
- **Registration is not rolled back.** `addCommand` first registers every
  name the command declares, then validates. The model follows the code:
  the names registered by a rejected call are not rolled back. The lemma
  `Queue.EmptyVariableNameRejected` shows a rejected command leaving its
  name in the registry.
- **Type coercion is explicit.** `Variable::__construct` types both arguments
  as `string`. PHP decides strict typing by the calling file, and neither
  calling file (CommandQueue.php, RenderingTrait.php) declares it. So
  `new Variable('GENERATED_AT', time())` and `setYPos(…, true)` pass an int
  that PHP converts to its decimal string. The model does that with
  `Php.IntToString`, and proves that the conversion reads back
  (`Php.IntToStringRoundTrip`) and is injective.

## Model

| member | source | states |
|---|---|---|
| Php.IntToStringRoundTrip | src/InDesign/Command/Variable.php:104-109 | the decimal string an int argument is coerced to reads back as that int |
| Php.IntToStringInjective | src/InDesign/Command/Variable.php:104-109 | different ints (e.g. two generation times) coerce to different strings |
| Php.FormulaIsString | src/InDesign/Command/Traits/PositionTrait.php:138-144 | only a string value can start with `=[`, so only strings keep an axis bound |
| CommandBase.InitParams | src/InDesign/Command/Traits/PositionTrait.php:43-51 | declaring defaults adds exactly their keys, with the default values, and keeps every other declared param |
| CommandBase.SetParam | src/InDesign/Command/Variable.php:119-124 | setting fails exactly for an undeclared param; otherwise only that param changes and the declared keys stay the same |
| CommandBase.GetParam | src/InDesign/Command/Variable.php:131-138 | reading succeeds exactly for a declared param and yields its value |
| CommandBase.GetAfterSet | src/InDesign/Command/Variable.php:119-138 | a param reads back as the value last set, and setting one param leaves the others' readings unchanged |
| VariableCommand.AllowedPositionsAreTheFourSides | src/InDesign/Command/Variable.php:30-77 | the allowed positions are exactly left, right, top and bottom, four distinct names |
| VariableCommand.NameOf | src/InDesign/Command/Variable.php:131-138 | the name is the stored string, and `''` when no name is declared |
| VariableCommand.ValidateParams | src/InDesign/Command/Variable.php:161-164 | validation fails exactly when the name is empty, and it fails on `name` |
| VariableCommand.VariableNode | src/InDesign/Command/Variable.php:104-109 | a new variable is a declaring node whose name reads back as given, with no components and no dependencies |
| VariableCommand.Variable.constructor | src/InDesign/Command/Variable.php:104-109 | the constructor stores exactly name and value, and the name reads back |
| VariableCommand.Variable.SetName | src/InDesign/Command/Variable.php:119-124 | only `name` changes, and it reads back as given |
| VariableCommand.Variable.SetValue | src/InDesign/Command/Variable.php:148-153 | only `value` changes, and the name is unaffected |
| VariableCommand.VariableComponentMetadata | src/InDesign/Command/Variable.php:171-184 | a Variable is a multiple component keyed `variables`, which differs from its command name `variable` |
| CheckNewPageCommand.CheckNewPage.constructor | src/InDesign/Command/CheckNewPage.php:51-61 | the three constructor arguments land in `pos`, `newpos` and `newpos_x`, and nothing else is declared |
| CheckNewPageCommand.CheckNewPage.SetMaxYPos | src/InDesign/Command/CheckNewPage.php:71-76 | sets `pos` and leaves `newpos` and `newpos_x` unchanged |
| CheckNewPageCommand.CheckNewPage.SetNewYPos | src/InDesign/Command/CheckNewPage.php:86-91 | sets `newpos` and leaves `pos` and `newpos_x` unchanged |
| CheckNewPageCommand.CheckNewPage.SetNewXPos | src/InDesign/Command/CheckNewPage.php:101-106 | sets `newpos_x` and leaves `pos` and `newpos` unchanged |
| CheckNewPageCommand.CheckNewPageComponentMetadata | src/InDesign/Command/CheckNewPage.php:113-126 | CheckNewPage is a single component keyed by its command name `checknewpage` |
| Placement.RelativeFormula | src/InDesign/Command/Traits/PositionTrait.php:95-102 | the written value is a formula, and it carries the variable name right after `=[` |
| Placement.ValidateRelativePosition | src/InDesign/Command/Traits/PositionTrait.php:154-169 | an axis is accepted exactly when it is left or top; any other axis is reported |
| Placement.RelativeAxesAreAllowedPositions | src/InDesign/Command/Traits/PositionTrait.php:154-169 | every axis that can be relative is one of the positions a Variable may describe |
| Placement.Box.constructor | src/InDesign/Command/Traits/PositionTrait.php:43-51 | a new box declares left = 0, top = 0 and layer = null, with no bindings |
| Placement.Box.InitPosition | src/InDesign/Command/Traits/PositionTrait.php:43-51 | declares left and top, both 0, keeping other params |
| Placement.Box.InitLayer | src/InDesign/Command/Traits/LayerTrait.php:31-34 | declares layer with default null, keeping other params |
| Placement.Box.CheckRelativePositionVariable | src/InDesign/Command/Traits/PositionTrait.php:138-144 | a non-formula value removes exactly that axis's binding; a formula keeps all bindings |
| Placement.Box.SetLeft | src/InDesign/Command/Traits/PositionTrait.php:61-67 | left takes the value; a literal drops the left binding only, and the top binding survives |
| Placement.Box.SetTop | src/InDesign/Command/Traits/PositionTrait.php:77-83 | top takes the value; a literal drops the top binding only, and the left binding survives |
| Placement.Box.SetRelativePosition | src/InDesign/Command/Traits/PositionTrait.php:95-102 | an invalid axis fails with nothing changed; otherwise the axis holds the formula and is bound to the variable, and the bindings stay consistent with the params |
| Placement.Box.SetLeftRelative | src/InDesign/Command/Traits/PositionTrait.php:113-116 | binds left to the variable with the formula as its value |
| Placement.Box.SetTopRelative | src/InDesign/Command/Traits/PositionTrait.php:127-130 | binds top to the variable with the formula as its value |
| Placement.Box.SetLayer | src/InDesign/Command/Traits/LayerTrait.php:44-49 | stores the layer name, changes no other param, and returns the same box |
| Placement.Box.IsRelativePositioned | src/InDesign/Command/Traits/PositionTrait.php:176-179 | true exactly when some axis is bound |
| Placement.Box.IsRelativePositionedToVariable | src/InDesign/Command/Traits/PositionTrait.php:198-201 | true exactly when some axis is bound to that variable name (exact string equality; see Left out) |
| Placement.Box.GetDependentVariables | src/InDesign/Command/Traits/PositionTrait.php:208-211 | only left/top can be bound, every bound axis holds a formula, and the bound variables are exactly those the box is positioned on |
| Placement.Box.ToNode | src/InDesign/Command/Traits/PositionTrait.php:208-211 | the box as a command depends on exactly the variables it is positioned on |
| Queue.DeclaredNamesSeqAppend | src/InDesign/CommandQueue.php:228-242 | walking siblings left to right records their names in that order |
| Queue.DeclaredNamesMembership | src/InDesign/CommandQueue.php:228-242 | the walk records a name exactly when a Variable or math node in the command declares it, without looking inside declaring nodes |
| Queue.DeclaredNamesSeqMembership | src/InDesign/CommandQueue.php:228-242 | the same for a list of components: a name is recorded exactly when one component declares it |
| Queue.ValidateVariables | src/InDesign/CommandQueue.php:252-263 | a command that is not variable-dependent passes; otherwise validation fails exactly when some dependency is unregistered, and the error lists exactly those names |
| Queue.Build | src/InDesign/CommandQueue.php:196-204 | building succeeds exactly for a buildable command and stamps it with the current page |
| Queue.Admit | src/InDesign/CommandQueue.php:196-204 | a command is admitted exactly when validation passes and it builds; a validation failure is reported as is |
| Queue.SelfDeclaredDependencyAccepted | src/InDesign/CommandQueue.php:215-219 | since registration precedes validation, a command that declares its own dependencies inside itself passes |
| Queue.NestedDependenciesNotValidated | src/InDesign/CommandQueue.php:252-263 | a buildable command that is not itself dependent is admitted, whatever its components depend on |
| Queue.EmptyVariableNameRejected | src/InDesign/CommandQueue.php:196-204 | a variable with an empty name is registered first and then rejected by building |
| Queue.MergeCollectedImages | src/InDesign/CommandQueue.php:288-294 | only image collectors change the registry; new ids are added and already registered ids keep their entry |
| Queue.IncrementCounter | src/InDesign/CommandQueue.php:311-318 | the asset's counter goes up by one, starting from 0, and no other counter changes |
| Queue.IncrementKeepsTotal | src/InDesign/CommandQueue.php:311-318 | after one increment, the element total still equals the sum of the per-asset counters |
| Queue.CommandQueue.constructor | src/InDesign/CommandQueue.php:52-91 | a queue starts empty, on page 0 at yPos 0, with no registrations and no missing assets |
| Queue.CommandQueue.SetPageNumber | src/InDesign/CommandQueue.php:110-115 | overwrites the page number |
| Queue.CommandQueue.IncrementPageNumber | src/InDesign/CommandQueue.php:124-129 | adds the increment and returns the new page number |
| Queue.CommandQueue.SetYPos | src/InDesign/CommandQueue.php:151-159 | sets yPos; with `sendCommand` it appends exactly Variable('yPos', value) and registers `yPos`; the page and the asset state are unchanged |
| Queue.CommandQueue.IncrementYPos | src/InDesign/CommandQueue.php:171-176 | the new yPos is the old one plus the increment and is returned; with `sendCommand` it is published as above |
| Queue.CommandQueue.AddCommand | src/InDesign/CommandQueue.php:196-204 | the declared names are registered in every case; on success exactly one built command is appended at the end and the assets are merged; on failure the commands and assets are unchanged; the cursors are untouched |
| Queue.CommandQueue.ProcessVariables | src/InDesign/CommandQueue.php:215-219 | registers the declared names, then validates against the updated registry |
| Queue.CommandQueue.RegisterVariables | src/InDesign/CommandQueue.php:228-242 | appends exactly the names the pre-order walk records, in walk order |
| Queue.CommandQueue.AddPageMessage | src/InDesign/CommandQueue.php:274-281 | appends exactly one page-message command and changes no registry or cursor |
| Queue.CommandQueue.RegisterAsset | src/InDesign/CommandQueue.php:288-294 | the registry becomes the left-biased merge with the command's collected images |
| Queue.CommandQueue.IncrementMissingAssetCounter | src/InDesign/CommandQueue.php:311-318 | the asset's counter and the total each go up by one, and the total stays the sum of the counters |
| Queue.CommandQueue.GetMissingAssets | src/InDesign/CommandQueue.php:325-328 | returns the per-asset counters and a total that is their sum |
| Rendering.DocumentCommands | src/Project/Traits/RenderingTrait.php:260-273 | three commands, of which the third publishes the generation time as GENERATED_AT |
| Rendering.Project.constructor | src/Project/Traits/RenderingTrait.php:38-55 | generation is inactive, both box-ident strings are empty, and the queue is empty |
| Rendering.Project.Run | src/Project/Traits/RenderingTrait.php:63-70 | marks the generation active and returns the queue's commands |
| Rendering.Project.SetBoxIdentReference | src/Project/Traits/RenderingTrait.php:99-102 | replaces the box-ident reference |
| Rendering.Project.AppendToBoxIdentReference | src/Project/Traits/RenderingTrait.php:111-116 | the reference becomes the old reference followed by the suffix |
| Rendering.Project.SetBoxIdentGenericPostfix | src/Project/Traits/RenderingTrait.php:133-136 | replaces the postfix and leaves the reference alone |
| Rendering.Project.InitInDesignDocument | src/Project/Traits/RenderingTrait.php:260-273 | appends, in order, use-current-document, open-template and GENERATED_AT on the current page, and registers GENERATED_AT; page, yPos, assets and missing-asset counters are unchanged |
| Rendering.Project.StartRendering | src/Project/Traits/RenderingTrait.php:145-153 | the document commands, followed by GoToPage(1) exactly when the first page is to be opened (the default); page, yPos, assets and missing-asset counters are unchanged |
| Rendering.Project.StopRendering | src/Project/Traits/RenderingTrait.php:200-205 | appends exactly one RemoveEmptyLayers command; registrations, page, yPos, assets and missing-asset counters are unchanged |
| Projects.NormalizeProject | src/Service/ProjectsManager.php:62-68 | an entry with an empty ident is stored under its config key cast to string, which is written into `ident`; otherwise under its ident, unchanged; either way the stored ident names its key |
| Projects.LastIdentIndex | src/Service/ProjectsManager.php:60-70 | finds the last entry normalising to an ident, or reports that none does |
| Projects.RegisteredLastWins | src/Service/ProjectsManager.php:60-70 | an ident is registered exactly when it was registered before or some entry normalises to it; it then holds the last such entry, and otherwise it keeps its earlier value |
| Projects.RegisteredOrderLists | src/Service/ProjectsManager.php:60-70 | the order of a PHP array's keys: the old order is kept as a prefix, it lists exactly the old and the newly registered idents, and no ident twice |
| Projects.RegistrationStep | src/Service/ProjectsManager.php:68 | one more entry updates the registry at its ident and appends the ident to the order only if it is new |
| Scenarios.RegistryOrderExample | src/Service/ProjectsManager.php:60-70 | an ident registered again keeps the position of its first registration |
| Projects.RegisteredEntriesNameTheirKey | src/Service/ProjectsManager.php:62-68 | every registered entry's ident, cast to string, is the key it is stored under |
| Projects.LoadService | src/Service/ProjectsManager.php:120-138 | loading succeeds exactly when the configured service exists and is a project; a missing service is reported by name |
| Projects.ConfigureStep | src/Service/ProjectsManager.php:81-83 | loading one more project re-configures its service's shared instance on top of the earlier loads, and a failed load changes nothing |
| Projects.ConfigureAllLastWins | src/Service/ProjectsManager.php:81-83 | after loading projects in order, a service's shared instance holds the entry of the last project that loads as that service |
| Projects.ConfigureAllUntouched | src/Service/ProjectsManager.php:81-83 | a service's shared instance that no loaded project uses keeps its configuration, or stays unconfigured |
| Projects.ProjectsManager.constructor | src/Service/ProjectsManager.php:48-51 | the registry is the registration of the whole config, its idents are held in first-registration order, no instance is configured and nothing is selected |
| Projects.ProjectsManager.RegisterProjects | src/Service/ProjectsManager.php:60-70 | the registry becomes the in-order, last-wins registration of the config on top of the old registry, and new idents are appended to the order in first-registration order |
| Projects.ProjectsManager.RegisterEntry | src/Service/ProjectsManager.php:63-68 | one pass of the loop: the normalised entry is stored under its ident, which joins the key order only when it is new |
| Projects.ProjectsManager.GetProject | src/Service/ProjectsManager.php:95-102 | yields the selected service instance with the entry it is configured with now, and fails exactly when none is selected |
| Projects.ProjectsManager.ProjectServiceFactory | src/Service/ProjectsManager.php:113-146 | an unregistered ident fails before any container lookup; otherwise the service is loaded; on success its shared instance takes the project's entry, and becomes the selected one only with `registerSelected`, which defaults to true |
| Projects.ProjectsManager.GetProjectsInfo | src/Service/ProjectsManager.php:78-87 | loads every project in registry order and leaves the selection unchanged; each load re-configures its service's shared instance; a failure is the loading failure of the first project, in order, that fails |
| Extension.FirstMatchingPath | src/DependencyInjection/MdsPimPrintCoreExtension.php:87-91 | returns the path of the first bundle whose namespace prefixes the service, and nothing exactly when no bundle matches |
| Extension.BundlePathForService | src/DependencyInjection/MdsPimPrintCoreExtension.php:82-93 | fails with "no service defined" exactly when the service is absent or empty |
| Extension.ReversedSearchFindsNone | src/DependencyInjection/MdsPimPrintCoreExtension.php:87-91 | searching the reversed bundle metadata finds nothing exactly when no bundle's namespace prefixes the service |
| Extension.ReversedSearchFindsLast | src/DependencyInjection/MdsPimPrintCoreExtension.php:87-91 | the first match in the reversed metadata is the last match in metadata order |
| Extension.BundlePathIsLastMatch | src/DependencyInjection/MdsPimPrintCoreExtension.php:87-92 | for a defined service, the path found is the last matching bundle in metadata order, and the lookup fails, naming the service, exactly when no bundle matches |
| Extension.MergedProject | src/DependencyInjection/MdsPimPrintCoreExtension.php:65-68 | the entry keeps its key and gains the top-level settings, which override its own values, plus its bundle path; it fails exactly when the lookup fails |
| Extension.RegisterProjects | src/DependencyInjection/MdsPimPrintCoreExtension.php:58-71 | without `projects` nothing is registered; otherwise every entry is merged in order, and the first failing entry aborts the registration |
| Extension.RegisteredProjectsHaveBundlePath | src/DependencyInjection/MdsPimPrintCoreExtension.php:58-71 | every project the manager registers from the processed config carries a bundle path |

Trivial getters carry no contract of their own. Their callers and
scenarios read them directly:

- the queue's `getPageNumber`, `getYPos`, `getCommands` and
  `getRegisteredAssets`;
- the project's `isGenerationActive`, `getBoxIdentReference` and
  `getBoxIdentGenericPostfix`;
- the box's `getRelativePositionVariables`;
- `Variable::getName` and `Variable::validate`, which delegate to `NameOf`
  and `ValidateParams`.

## Left out

- Floating point is not modelled. `yPos`, margins and `setValue` take whole
  numbers, and PHP's float formatting in the `(string)` cast is not
  represented.
- The command base class is not part of this model. That covers
  `AbstractCommand`'s `buildCommand`, `initParams`, `setParam`, `getParam`
  and `validateEmptyParam`, `BoxIdentBuilderTrait::createBoxIdent`, and
  `AbstractMath`.
  - The parameter store is a map of declared params, with errors for
    undeclared names.
  - Building is a pairing with the page number.
  - A math node is a node that declares its name.
  - Whether the base class's empty-param check treats `"0"` as empty is
    not captured.
- Only Variable's own `validate` rule is modelled. Validation rules of other
  command classes, and the output format a build produces, are not.
- The command classes outside the model are represented by their command
  names and constructor arguments, under parameter names chosen by this
  model: OpenDocument, GoToPage, RemoveEmptyLayers and the page message.
- Commands are values when handed to the queue. So the model does not
  capture changes to a command object after it was added, or aliasing
  between two queued commands.
- A box's components are fixed at construction. How components are added
  to a box is not part of this model.
- The project's `buildPublication` is project-specific, so `Run` does not
  build anything.
- The templates, `getTemplate` and the Asset-to-filename step are not
  modelled; the template is a string parameter.
- Locale, PHP-runtime and frontend setup in `startRendering` are left out:
  `initFrontend`, `setPimcoreLocales`, `initRenderMode`, `setPhpSettings`
  and `setNumericLocale`.
- The clock is not modelled: `time()` is the `now` parameter.
- The service container is not modelled.
  - The container is a map from service name to a project or a non-project
    service.
  - The kernel's bundle metadata is a list of (namespace, path) pairs.
- `setConfig` is modelled only as the entry a shared service instance
  holds. `assertServiceInitialized` and the info record `getInfo` builds
  are not modelled. A loaded project stands for its info.
- `ProjectsManager::$project` is static and shared by all instances. Here it
  is the field `selected` of one manager.
- Placement.Box.IsRelativePositionedToVariable: compares variable names as exact strings. PHP's `in_array` without `strict` compares loosely, so two numeric strings that are numerically equal ("1", "01", "1e0") also match there. Dependency validation is unaffected, since `array_diff` compares strings.
- Queue.CommandQueue.IncrementPageNumber, Queue.CommandQueue.IncrementMissingAssetCounter: integers are unbounded here. PHP ints are 64-bit, and `+=` or `++` past the maximum turns the value into a float; that overflow is not modelled.
- Projects.LoadService: an entry without a `service` key fails with
  `ServiceKeyMissing`. In PHP, the null passed to the container raises a
  TypeError that the factory's `catch` does not intercept.
- Configuration values are scalars. Nested arrays in project entries or
  settings are not represented, and only string keys are merged.
- Registered idents are strings. PHP stores numeric-string keys as integers;
  since both forms print the same, lookups are unaffected.
- `configurePluginParams` and the YAML service loading of the extension are
  container plumbing and are not modelled.
- The source's HTTP response creator, bruteforce listener, publication tree
  builder, rendering project and concrete templates are not part of this
  model.
