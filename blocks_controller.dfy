/**
 * The core Blocks controller: its default access table (the one the dispatch
 * filter may overwrite), the listing, the creation form and its save, the
 * static-block view and the delete. The `Block` model is an abstract store:
 * its query results, save and delete outcomes are parameters.
 */
module BlocksController {
  import opened Wrappers
  import opened Access
  import Paths

  const ManagersRule := Rule("allowManagers", Some("/users/login"))
  const EveryoneRule := Rule("allowAll", None)

  /** The actions every visitor may call; the rest are for managers. */
  predicate IsOpenAction(action: string) {
    action == "read" || action == "view"
  }

  /** The controller's default `$access` table. */
  function DefaultAccess(): (t: AccessTable)
    ensures t.Keys == {"index", "create", "update", "delete", "read", "view"}
    ensures forall a :: a in t ==> |t[a]| == 1
    ensures forall a :: a in t ==> (t[a][0].rule == "allowManagers" <==> !IsOpenAction(a))
    ensures forall a :: a in t ==> (t[a][0].rule == "allowAll" <==> IsOpenAction(a))
    ensures forall a :: a in t ==>
              t[a][0].redirect == if IsOpenAction(a) then None else Some("/users/login")
  {
    map["index" := [ManagersRule], "create" := [ManagersRule], "update" := [ManagersRule],
        "delete" := [ManagersRule], "read" := [EveryoneRule], "view" := [EveryoneRule]]
  }

  // ---------------------------------------------------------------------- index

  /** The request params `index()` reads; `None` for an absent param. */
  datatype IndexRequest = IndexRequest(page: Option<int>, limit: Option<int>, blockType: Option<string>)

  /** The pagination params after merging the defaults under the request's. */
  datatype Pagination = Pagination(page: int, limit: int)

  /** A `find('all')` query. */
  datatype FindAll = FindAll(limit: int, offset: int, orderBy: string, ascending: bool, conditions: map<string, string>)

  /** A stored block, by its fields. */
  datatype Document = Document(data: map<string, string>)

  /** What `index()` hands to its view. */
  datatype IndexResult = IndexResult(query: FindAll, documents: seq<Document>, limit: int, page: int, total: nat)

  /**
   * `index()`: one page of blocks, ordered by `_id` ascending, filtered by
   * `block_type` when the request names one. `find` and `count` are the store's
   * answers to a `find('all')` query and to `count()` with the given conditions.
   */
  method Index(request: IndexRequest, find: FindAll -> seq<Document>, count: map<string, string> -> nat)
    returns (r: IndexResult)
    // defaults: page 1, limit 10; page 0 is read as page 1
    ensures r.limit == request.limit.GetOr(10)
    ensures r.page == if request.page.None? || request.page == Some(0) then 1 else request.page.value
    ensures r.query.limit == r.limit && r.query.offset == (r.page - 1) * r.limit
    // corollary of the two clauses above: the first page starts at offset 0
    ensures request.page.None? || request.page == Some(0) || request.page == Some(1) ==> r.query.offset == 0
    ensures r.query.orderBy == "_id" && r.query.ascending
    // the only condition is the requested block type
    ensures request.blockType.Some? ==> r.query.conditions == map["block_type" := request.blockType.value]
    ensures request.blockType.None? ==> r.query.conditions == map[]
    ensures r.documents == find(r.query)
    // the total counts every block, whatever the block type
    ensures r.total == count(map[])
  {
    var params := Pagination(request.page.GetOr(1), request.limit.GetOr(10));
    if params.page == 0 {
      params := params.(page := 1);
    }
    var limit, page := params.limit, params.page;
    var conditions: map<string, string>;
    if request.blockType.Some? {
      conditions := map["block_type" := request.blockType.value];
    } else {
      conditions := map[];
    }
    var query := FindAll(params.limit, (params.page - 1) * params.limit, "_id", true, conditions);
    var documents := find(query);
    var total := count(map[]);
    r := IndexResult(query, documents, limit, page, total);
  }

  // ---------------------------------------------------------------------- create

  /**
   * A schema field: its plain attributes (type, label, ...) and its `form` options,
   * whose values may be null.
   */
  datatype Field = Field(attributes: map<string, string>, form: map<string, Option<string>>)

  datatype Route = Route(controller: string, action: string)

  const BlocksIndex := Route("blocks", "index")

  /** How `create()` ends: a redirect after a successful save, or its view with the data it sets. */
  datatype CreateResult =
    | CreateRedirect(target: Route)
    | CreateView(document: Document, fields: map<string, Field>, displayName: string)

  /** PHP truthiness of the request data: present and not an empty array. */
  predicate HasData(data: Option<map<string, string>>) {
    data.Some? && |data.value| > 0
  }

  /** The form fields: the schema without the key field, with `block_type`'s form value set. */
  function FormFields(schema: map<string, Field>, key: string, blockType: Option<string>): (fields: map<string, Field>)
    ensures forall f :: f in fields <==> (f in schema && f != key) || f == "block_type"
    ensures forall f :: f in fields && f != "block_type" ==> fields[f] == schema[f]
    ensures "value" in fields["block_type"].form && fields["block_type"].form["value"] == blockType
    ensures "block_type" in schema && key != "block_type" ==>
              fields["block_type"].attributes == schema["block_type"].attributes &&
              (forall o :: o in schema["block_type"].form && o != "value" ==>
                 o in fields["block_type"].form && fields["block_type"].form[o] == schema["block_type"].form[o])
    // only the form's `value` is added to an existing `block_type` entry
    ensures fields["block_type"].form.Keys ==
              (if "block_type" in schema && key != "block_type" then schema["block_type"].form.Keys else {}) + {"value"}
    // a missing (or removed) `block_type` entry is created holding just the form value
    ensures "block_type" !in schema || key == "block_type" ==>
              fields["block_type"] == Field(map[], map["value" := blockType])
  {
    var fields := schema - {key};
    if "block_type" in fields then
      var f := fields["block_type"];
      fields["block_type" := f.(form := f.form["value" := blockType])]
    else
      fields["block_type" := Field(map[], map["value" := blockType])]
  }

  /**
   * `create()`: prepares the form fields and, when the request carries data,
   * saves a block made from it; `saves` is the store's answer to that save.
   */
  method Create(displayName: string, schema: map<string, Field>, key: string, blockType: Option<string>,
                data: Option<map<string, string>>, saves: map<string, string> -> bool)
    returns (r: CreateResult)
    // back to the listing only after a successful save of submitted data
    ensures r.CreateRedirect? <==> HasData(data) && saves(data.value)
    ensures r.CreateRedirect? ==> r.target == BlocksIndex
    // otherwise the view gets the prepared fields and the submitted (unsaved) document, or a fresh empty one
    ensures r.CreateView? ==> r.fields == FormFields(schema, key, blockType) && r.displayName == displayName
    ensures r.CreateView? && HasData(data) ==> r.document == Document(data.value)
    ensures r.CreateView? && !HasData(data) ==> r.document == Document(map[])
  {
    var fields := FormFields(schema, key, blockType);
    var document: Option<Document> := None;
    var redirect: Option<Route> := None;
    if HasData(data) {
      document := Some(Document(data.value));
      if saves(data.value) {
        redirect := Some(BlocksIndex);
      }
    }
    if document.None? {
      document := Some(Document(map[]));
    }
    if redirect.Some? {
      r := CreateRedirect(redirect.value);
    } else {
      r := CreateView(document.value, fields, displayName);
    }
  }

  // ---------------------------------------------------------------------- view

  /** A `render()` call: template and layout. */
  datatype RenderCall = RenderCall(template: string, layout: string)

  /**
   * `view()` as written: `$path` is tested before anything assigns it, so the
   * arguments never reach the template name.
   */
  function View(args: seq<string>): (r: RenderCall)
    ensures r.template == "static/example" && r.layout == "blank"
  {
    var path: seq<string> := [];
    var parts := if path == [] then ["static", "example"] else ["static"] + args;
    RenderCall(Paths.Join("/", parts), "blank")
  }

  /** `view()` as evidently intended: the arguments name a template below `static/`. */
  function ViewIntended(args: seq<string>): (r: RenderCall)
    ensures args == [] ==> r == View(args)
    ensures args != [] ==> r.template == "static/" + Paths.Join("/", args)
    ensures r.layout == "blank"
  {
    if args == [] then
      RenderCall(Paths.Join("/", ["static", "example"]), "blank")
    else
      Paths.JoinCons("/", "static", args);
      RenderCall(Paths.Join("/", ["static"] + args), "blank")
  }

  /** A request for a named static block shows the example block instead. */
  lemma ViewIgnoresArguments()
    ensures View(["gallery"]).template == "static/example"
    ensures ViewIntended(["gallery"]).template == "static/gallery"
  {
  }

  // ---------------------------------------------------------------------- delete

  datatype FlashKind = Success | Error

  datatype Flash = Flash(message: string, kind: FlashKind)

  /**
   * How `delete()` ends: a redirect, with the flash message set before it, or a
   * fatal error from calling `delete()` on the null that `findByUrl` returns for
   * an unknown url.
   */
  datatype DeleteOutcome = Redirected(flash: Option<Flash>, target: Route) | NullDocument

  /**
   * `delete()`: `blocks` is the set of stored urls and `deletes` the store's
   * answer to deleting the found block.
   */
  function Delete(url: Option<string>, blocks: set<string>, deletes: bool): (r: DeleteOutcome)
    ensures url.None? ==> r == Redirected(None, BlocksIndex)
    ensures url.Some? && url.value !in blocks ==> r == NullDocument
    ensures url.Some? && url.value in blocks ==>
              r.Redirected? && r.target == BlocksIndex && r.flash.Some? &&
              (r.flash.value.kind == Success <==> deletes)
  {
    if url.None? then Redirected(None, BlocksIndex)
    else if url.value !in blocks then NullDocument
    else if deletes then
      Redirected(Some(Flash("The block has been deleted.", Success)), BlocksIndex)
    else
      Redirected(Some(Flash("The block could not be deleted, please try again.", Error)), BlocksIndex)
  }
}
