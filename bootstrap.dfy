/**
 * The two filters Minerva's bootstrap installs so that plugin libraries can take
 * over the core Pages, Users and Blocks controllers without editing them:
 *
 *  - the dispatch filter on `_call`, run before every controller action: it finds
 *    the library that owns the requested record, picks that library's model class
 *    when there is one, and copies the chosen model's `$access` table onto the
 *    controller class;
 *  - the render filter, which points the layout and the template at the library's
 *    views when the files exist there and at the core views otherwise.
 *
 * The running system is supplied as oracles: the set of loadable class names
 * (`class_exists`), the static `$access` tables those classes define, the
 * inflector, the record store (url to owning library) and the set of existing files.
 */
module MinervaBootstrap {
  import opened Wrappers
  import opened Access
  import Paths

  // ----------------------------------------------------------------------
  // The dispatch filter
  // ----------------------------------------------------------------------

  /** What the dispatch filter asks of the running system. */
  datatype Env = Env(
    classes: set<string>,              // the class names `class_exists` accepts
    access: map<string, AccessTable>,  // the classes whose static `$access` is set, and its value
    classify: string -> string)        // `Inflector::classify(Inflector::singularize(..))`

  /**
   * The route parameters the filter reads. `None` stands for a parameter that is
   * unset or null: `isset` cannot tell the two apart.
   */
  datatype Params = Params(controller: string, action: string, library: Option<string>, url: Option<string>)

  /** A `first()` query on a core model: the record whose `url` is `url`, projected to `fields`. */
  datatype Query = Query(url: string, fields: string)

  /**
   * The bridge model: still the core model's class name, or an instance of a
   * library's override class. Either way `cls` is the class whose `$access` is read.
   */
  datatype Bridge = ClassName(cls: string) | Instance(cls: string)

  /** What a filter returns: the rest of the chain's result, or a response of its own. */
  datatype Step = Next | ShortCircuit

  /** The core model class for a model name: `minerva\models\<Model>`. */
  function CoreClass(model: string): string {
    "minerva\\models\\" + model
  }

  /** A library's override model class: `\minerva\libraries\<library>\models\<Model>`. */
  function OverrideClass(library: string, model: string): string {
    "\\minerva\\libraries\\" + library + "\\models\\" + model
  }

  /** A possibly null library as PHP concatenates it into a string. */
  function LibText(library: Option<string>): string {
    library.GetOr("")
  }

  /** The model name derived from the routed controller. */
  function Model(env: Env, p: Params): string {
    env.classify(p.controller)
  }

  predicate IsCreateOrIndex(action: string) {
    action == "create" || action == "index"
  }

  predicate IsRecordAction(action: string) {
    action == "read" || action == "update" || action == "delete"
  }

  /** Bridging applies when the core model exists and a library or a url was routed. */
  predicate Applies(env: Env, p: Params) {
    CoreClass(Model(env, p)) in env.classes && (p.library.Some? || p.url.Some?)
  }

  /**
   * The effect of one pass of the dispatch filter: the new route parameters, the
   * controller's new `$access`, the record queries made, the library the filter
   * settled on, the bridge model it chose (`None` when bridging did not apply) and
   * how it returned.
   */
  datatype Dispatched = Dispatched(
    params: Params,
    access: AccessTable,
    queries: seq<Query>,
    library: Option<string>,
    bridge: Option<Bridge>,
    step: Step)

  /** The dispatch filter as a function of the route parameters and the controller's `$access`. */
  function Dispatch(env: Env, records: map<string, Option<string>>, p: Params, access: AccessTable): (r: Dispatched)
    // the filter never short-circuits the chain
    ensures r.step == Next
    // without a core model, or without a routed library or url, nothing happens
    ensures !Applies(env, p) ==> r.params == p && r.access == access && r.queries == [] && r.bridge == None
    ensures Applies(env, p) ==> r.bridge.Some?
    // one lookup exactly for read/update/delete without a routed library, keyed by the url
    ensures r.queries != [] <==> Applies(env, p) && IsRecordAction(p.action) && p.library.None?
    ensures r.queries != [] ==> p.url.Some? && r.queries == [Query(p.url.value, "library")]
    // a found record's library becomes the library and is written back into the params
    ensures r.queries != [] && p.url.Some? && p.url.value in records ==>
              r.library == records[p.url.value] && r.params == p.(library := records[p.url.value])
    // no record found: no library, params untouched
    ensures r.queries != [] && p.url.Some? && p.url.value !in records ==> r.library == None && r.params == p
    // without a lookup the params are untouched and the library is the routed one
    ensures r.queries == [] ==> r.params == p && r.library == p.library
    // the override class is used exactly when the action bridges and the class exists
    ensures r.bridge.Some? ==>
              (r.bridge.value.Instance? <==>
                 (IsCreateOrIndex(p.action) || IsRecordAction(p.action)) &&
                 OverrideClass(LibText(r.library), Model(env, p)) in env.classes)
    ensures r.bridge.Some? && r.bridge.value.Instance? ==>
              r.bridge.value.cls == OverrideClass(LibText(r.library), Model(env, p))
    ensures r.bridge.Some? && r.bridge.value.ClassName? ==> r.bridge.value.cls == CoreClass(Model(env, p))
    // the controller takes the bridge model's `$access` when it has one, and keeps its own otherwise
    ensures r.bridge.Some? && r.bridge.value.cls in env.access ==> r.access == env.access[r.bridge.value.cls]
    ensures (r.bridge.None? || r.bridge.value.cls !in env.access) ==> r.access == access
  {
    var model := Model(env, p);
    if !Applies(env, p) then
      Dispatched(p, access, [], p.library, None, Next)
    else
      var (params, queries, library) :=
        if IsRecordAction(p.action) && p.library.None? then
          var url := p.url.value;
          if url in records then (p.(library := records[url]), [Query(url, "library")], records[url])
          else (p, [Query(url, "library")], None)
        else
          (p, [], p.library);
      var bridge :=
        if (IsCreateOrIndex(p.action) || IsRecordAction(p.action)) &&
           OverrideClass(LibText(library), model) in env.classes
        then Instance(OverrideClass(LibText(library), model))
        else ClassName(CoreClass(model));
      var access' := if bridge.cls in env.access then env.access[bridge.cls] else access;
      Dispatched(params, access', queries, library, Some(bridge), Next)
  }

  /**
   * Running the filter again on what it left behind settles on the same library,
   * the same bridge model and the same `$access`, and changes no params. It makes
   * no more lookups than the first pass did.
   */
  lemma DispatchAgain(env: Env, records: map<string, Option<string>>, p: Params, access: AccessTable)
    ensures var r := Dispatch(env, records, p, access);
            var r2 := Dispatch(env, records, r.params, r.access);
            r2.params == r.params && r2.access == r.access && r2.library == r.library &&
            r2.bridge == r.bridge && |r2.queries| <= |r.queries|
  {
  }

  /** The request's route parameters, updated in place by the filter. */
  class Request {
    var controller: string
    var action: string
    var library: Option<string>
    var url: Option<string>

    constructor (p: Params)
      ensures RouteParams() == p
    {
      controller, action, library, url := p.controller, p.action, p.library, p.url;
    }

    function RouteParams(): Params
      reads this
    {
      Params(controller, action, library, url)
    }
  }

  /** The controller class whose static `$access` table the filter overwrites. */
  class ControllerClass {
    var access: AccessTable

    constructor (access: AccessTable)
      ensures this.access == access
    {
      this.access := access;
    }
  }

  /**
   * The core model's record store as the filter sees it: each stored url with the
   * record's owning library (`None` for a core record), and the log of queries run.
   */
  class RecordStore {
    const records: map<string, Option<string>>
    var queries: seq<Query>

    constructor (records: map<string, Option<string>>)
      ensures this.records == records && queries == []
    {
      this.records := records;
      queries := [];
    }

    /** `first()`: the projected record with the query's url, if any. */
    method First(q: Query) returns (found: Option<Option<string>>)
      modifies this
      ensures queries == old(queries) + [q]
      ensures found == if q.url in records then Some(records[q.url]) else None
    {
      queries := queries + [q];
      found := if q.url in records then Some(records[q.url]) else None;
    }
  }

  /**
   * The `_call` filter: updates the request and the controller, then continues the
   * chain. `bridge` is the bridge model it settled on (`None` when bridging did not
   * apply); an `Instance` is the override model it instantiated.
   */
  method DispatchFilter(env: Env, request: Request, controller: ControllerClass, store: RecordStore)
    returns (step: Step, bridge: Option<Bridge>)
    modifies request, controller, store
    ensures var r := Dispatch(env, store.records, old(request.RouteParams()), old(controller.access));
            request.RouteParams() == r.params && controller.access == r.access &&
            store.queries == old(store.queries) + r.queries && step == r.step && bridge == r.bridge
  {
    var library := request.library;
    var url := request.url;
    var model := env.classify(request.controller);
    var modelClass := CoreClass(model);
    var bridgeModel := ClassName(modelClass);
    bridge := None;
    if modelClass in env.classes && (library.Some? || url.Some?) {
      if IsCreateOrIndex(request.action) {
        var cls := OverrideClass(LibText(request.library), model);
        if cls in env.classes {
          bridgeModel := Instance(cls);
        }
      } else if IsRecordAction(request.action) {
        if request.library.None? {
          var found := store.First(Query(request.url.value, "library"));
          if found.Some? {
            library := found.value;
            request.library := library;
          } else {
            library := None;
          }
        } else {
          library := request.library;
        }
        var cls := OverrideClass(LibText(library), model);
        if cls in env.classes {
          bridgeModel := Instance(cls);
        }
      }
      if bridgeModel.cls in env.access {
        controller.access := env.access[bridgeModel.cls];
      }
      bridge := Some(bridgeModel);
    }
    step := Next;
  }

  // ----------------------------------------------------------------------
  // The render filter
  // ----------------------------------------------------------------------

  /** `LITHIUM_APP_PATH` and `DIRECTORY_SEPARATOR`. */
  datatype Platform = Platform(app: string, separator: char)

  /** PHP's `empty()` on a library: null, the empty string and "0" are empty. */
  predicate IsEmpty(library: Option<string>) {
    library.None? || library.value == "" || library.value == "0"
  }

  /** A path below the application directory. */
  function AppPath(pf: Platform, segments: seq<string>): string {
    Paths.Path(pf.separator, [pf.app] + segments)
  }

  /** The directory that holds the libraries: `APP/libraries/`. */
  function LibrariesRoot(pf: Platform): string {
    pf.app + [pf.separator] + "libraries" + [pf.separator]
  }

  /** A path inside some library's directory. */
  predicate InLibraries(pf: Platform, path: string) {
    LibrariesRoot(pf) <= path
  }

  lemma LibraryPathInLibraries(pf: Platform, tail: seq<string>)
    requires |tail| > 0
    ensures InLibraries(pf, AppPath(pf, ["libraries"] + tail))
  {
    var sep := [pf.separator];
    var segs := [pf.app] + (["libraries"] + tail);
    Paths.JoinPrefix(sep, segs, 3);
    var s3 := segs[..3];
    assert s3 == [pf.app, "libraries", tail[0]];
    var s2 := s3[..2];
    assert s2 == [pf.app, "libraries"];
    assert s2[..1] == [pf.app];
    assert Paths.Join(sep, s2) == pf.app + sep + "libraries";
    assert Paths.Join(sep, s3) == Paths.Join(sep, s2) + sep + tail[0];
  }

  lemma CorePathOutsideLibraries(pf: Platform, tail: seq<string>)
    ensures !InLibraries(pf, AppPath(pf, ["views"] + tail))
  {
    var sep := [pf.separator];
    var segs := [pf.app] + (["views"] + tail);
    Paths.JoinPrefix(sep, segs, 2);
    assert segs[..2] == [pf.app, "views"];
    assert segs[..2][..1] == [pf.app];
    var head := Paths.Join(sep, segs[..2]);
    assert head == pf.app + sep + "views";
    assert head[|pf.app| + 1] == 'v';
    assert LibrariesRoot(pf)[|pf.app| + 1] == 'l';
  }

  /** The concrete layout file whose presence selects the library's layouts. */
  function LibraryLayoutFile(pf: Platform, library: string, layout: string, format: string): string {
    AppPath(pf, ["libraries", library, "views", "layouts", layout + "." + format + ".php"])
  }

  /** The library's layout path pattern handed to the template engine. */
  function LibraryLayoutPattern(pf: Platform, library: string): string {
    AppPath(pf, ["libraries", library, "views", "layouts", "{:layout}.{:type}.php"])
  }

  /** The core layout path pattern. */
  function CoreLayoutPattern(pf: Platform): string {
    AppPath(pf, ["views", "layouts", "{:layout}.{:type}.php"])
  }

  /** The concrete template file whose presence selects the library's template. */
  function LibraryTemplateFile(pf: Platform, library: string, controller: string, template: string, format: string): string {
    AppPath(pf, ["libraries", library, "views", controller, template + "." + format + ".php"])
  }

  /** The library's template path pattern. */
  function LibraryTemplatePattern(pf: Platform, library: string, controller: string, template: string): string {
    AppPath(pf, ["libraries", library, "views", controller, template + ".{:type}.php"])
  }

  /** The core template path pattern; it does not involve any library. */
  function CoreTemplatePattern(pf: Platform, controller: string, template: string): string {
    AppPath(pf, ["views", controller, template + ".{:type}.php"])
  }

  /**
   * The layout path: the library's when its concrete layout file exists (tested
   * even when the library is null or empty), the core one otherwise.
   */
  function LayoutPath(pf: Platform, files: set<string>, library: Option<string>, layout: string, format: string): (p: string)
    ensures InLibraries(pf, p) <==> LibraryLayoutFile(pf, LibText(library), layout, format) in files
    ensures InLibraries(pf, p) ==> p == LibraryLayoutPattern(pf, LibText(library))
    ensures !InLibraries(pf, p) ==> p == CoreLayoutPattern(pf)
  {
    var lib := LibText(library);
    LibraryPathInLibraries(pf, [lib, "views", "layouts", "{:layout}.{:type}.php"]);
    assert ["libraries"] + [lib, "views", "layouts", "{:layout}.{:type}.php"]
        == ["libraries", lib, "views", "layouts", "{:layout}.{:type}.php"];
    CorePathOutsideLibraries(pf, ["layouts", "{:layout}.{:type}.php"]);
    assert ["views"] + ["layouts", "{:layout}.{:type}.php"] == ["views", "layouts", "{:layout}.{:type}.php"];
    if LibraryLayoutFile(pf, lib, layout, format) in files then LibraryLayoutPattern(pf, lib)
    else CoreLayoutPattern(pf)
  }

  /**
   * The template path: the library's only when the library is not empty and its
   * concrete template file exists; otherwise the core one, whatever the library.
   */
  function TemplatePath(pf: Platform, files: set<string>, library: Option<string>,
                        controller: string, template: string, format: string): (p: string)
    ensures InLibraries(pf, p) <==>
              !IsEmpty(library) && LibraryTemplateFile(pf, LibText(library), controller, template, format) in files
    ensures InLibraries(pf, p) ==> p == LibraryTemplatePattern(pf, LibText(library), controller, template)
    ensures !InLibraries(pf, p) ==> p == CoreTemplatePattern(pf, controller, template)
  {
    var lib := LibText(library);
    var tail := template + ".{:type}.php";
    LibraryPathInLibraries(pf, [lib, "views", controller, tail]);
    assert ["libraries"] + [lib, "views", controller, tail] == ["libraries", lib, "views", controller, tail];
    CorePathOutsideLibraries(pf, [controller, tail]);
    assert ["views"] + [controller, tail] == ["views", controller, tail];
    if !IsEmpty(library) && LibraryTemplateFile(pf, lib, controller, template, format) in files
    then LibraryTemplatePattern(pf, lib, controller, template)
    else CoreTemplatePattern(pf, controller, template)
  }

  /** The render options the filter reads, and the `paths` entry it writes. */
  class RenderOptions {
    var library: Option<string>   // the request's `library` param
    var layout: string
    var format: string            // the `type` option, such as "html"
    var template: string
    var controller: string
    var paths: map<string, string>

    constructor (library: Option<string>, layout: string, format: string, template: string, controller: string)
      ensures this.library == library && this.layout == layout && this.format == format
      ensures this.template == template && this.controller == controller && paths == map[]
    {
      this.library, this.layout, this.format := library, layout, format;
      this.template, this.controller := template, controller;
      paths := map[];
    }
  }

  /** The `render` filter: sets the layout and template paths, then continues the chain. */
  method RenderFilter(pf: Platform, files: set<string>, options: RenderOptions) returns (step: Step)
    modifies options
    ensures options.paths == old(options.paths)
              ["layout" := LayoutPath(pf, files, old(options.library), old(options.layout), old(options.format))]
              ["template" := TemplatePath(pf, files, old(options.library), old(options.controller),
                                          old(options.template), old(options.format))]
    ensures options.library == old(options.library) && options.layout == old(options.layout)
    ensures options.format == old(options.format) && options.template == old(options.template)
    ensures options.controller == old(options.controller)
    ensures step == Next
  {
    var library := options.library;
    var lib := LibText(library);
    if LibraryLayoutFile(pf, lib, options.layout, options.format) in files {
      options.paths := options.paths["layout" := LibraryLayoutPattern(pf, lib)];
    } else {
      options.paths := options.paths["layout" := CoreLayoutPattern(pf)];
    }
    if !IsEmpty(library) && LibraryTemplateFile(pf, lib, options.controller, options.template, options.format) in files {
      options.paths := options.paths["template" := LibraryTemplatePattern(pf, lib, options.controller, options.template)];
    } else {
      options.paths := options.paths["template" := CoreTemplatePattern(pf, options.controller, options.template)];
    }
    step := Next;
  }
}
