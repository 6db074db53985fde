# Minerva plugin bridging, modelled in Dafny

Minerva is a content-management application built on the Lithium PHP framework.
Its core controllers (Pages, Users, Blocks) are not meant to be edited; plugin
"libraries" take them over through two filters installed by the bootstrap:

- the **dispatch filter** on `Dispatcher::_call`, run before every controller
  action: it derives the model name from the controller, finds out which library
  owns the requested record (one `first()` query by `url`, only for
  read/update/delete when no library was routed), writes that library back into
  the request params, picks the library's override model class
  `\minerva\libraries\<library>\models\<Model>` when it exists, and copies the
  chosen model's static `$access` table onto the controller class;
- the **render filter** on `Media::render`, which points the layout at
  `APP/libraries/<library>/views/layouts/…` when the concrete layout file exists
  there, and the template at `APP/libraries/<library>/views/<controller>/…` when
  the library is not empty and the template file exists, falling back to the
  core `APP/views/…` paths otherwise.

The model also covers the core `BlocksController`: its default `$access` table,
the paging query of `index()`, the form fields and save decision of `create()`,
the template `view()` renders and the outcomes of `delete()`.

Files:

- `wrappers.dfy` — `Option`, for params that may be unset or null.
- `paths.dfy` — `Join` (PHP's `join`) and `Path` (segments joined with the
  directory separator), with the prefix lemmas the path proofs use.
- `access.dfy` — access rules and `$access` tables.
- `bootstrap.dfy` — module `MinervaBootstrap`: both filters. Each filter is an
  imperative method over the objects it changes (`Request`, `ControllerClass`,
  `RecordStore`, `RenderOptions`), proved equal to a pure function (`Dispatch`,
  `LayoutPath`, `TemplatePath`) whose contract states the rules.
- `blocks_controller.dfy` — module `BlocksController`.

The environment is supplied as oracles: `class_exists` is a set of class names,
the static `$access` properties a map from class name to table, the inflector a
function from controller name to model name, the record store a map from url to
the record's owning library, `file_exists` a set of paths, `LITHIUM_APP_PATH` and
`DIRECTORY_SEPARATOR` a `Platform` value, and the `Block` model's query, count,
save and delete results are parameters.

The model follows the code as written, including where it may surprise:

- Bridging applies when the core class `minerva\models\<Model>` exists and a
  library or a url was routed; no library class is consulted for that test.
- For create/index the override class is built from the raw `library` param
  even when it is null (giving `\minerva\libraries\\models\<Model>`), and it is
  used if that name is a loadable class; there is no separate "no library" case.
- For read/update/delete the library is written back into the params only when
  a record was found; a missing record leaves the params as they were.
- For any other action the bridge model stays the core class, whose `$access`
  (if it has one) still replaces the controller's.
- `empty()` in the template test also treats the library `"0"` as empty.

## Model

| member | source | states |
|---|---|---|
| `MinervaBootstrap.Dispatch` | config/bootstrap/minerva_bootstrap.php:66-152 | never short-circuits; nothing changes unless the core model exists and a library or url is routed; exactly one `url`-keyed query projecting `library` for read/update/delete without a routed library, none otherwise; a found record's library becomes the library and the `library` param, a missing record gives no library and untouched params; the override class `\minerva\libraries\<lib>\models\<Model>` is chosen exactly when the action bridges and the class exists, else the core class; the controller's `$access` becomes the bridge model's exactly when it defines one |
| `MinervaBootstrap.DispatchFilter` | config/bootstrap/minerva_bootstrap.php:66-152 | the filter's new params, controller `$access`, query log, return value and the bridge model it settles on (including which override class it instantiates) are those `Dispatch` gives for the old params and `$access` |
| `MinervaBootstrap.DispatchAgain` | config/bootstrap/minerva_bootstrap.php:111-147 | a second pass over the first pass's output settles on the same library, bridge model and `$access`, changes no params and makes no more lookups |
| `MinervaBootstrap.RecordStore.First` | config/bootstrap/minerva_bootstrap.php:117-120 | the record lookup logs its query and returns the projected library of the record with that url, or nothing |
| `MinervaBootstrap.LayoutPath` | config/bootstrap/minerva_bootstrap.php:169-173 | the layout lies in the library's directory exactly when the concrete layout file exists there, with no non-empty test on the library; otherwise it is the core layout pattern |
| `MinervaBootstrap.TemplatePath` | config/bootstrap/minerva_bootstrap.php:175-179 | the template lies in the library's directory exactly when the library is non-empty and the concrete template file exists; otherwise it is the core template pattern, which does not depend on the library |
| `MinervaBootstrap.RenderFilter` | config/bootstrap/minerva_bootstrap.php:157-183 | writes exactly the `layout` and `template` entries of the paths, leaves the other options alone and continues the chain |
| `MinervaBootstrap.LibraryPathInLibraries` | config/bootstrap/minerva_bootstrap.php:170 | every path built under `APP/libraries` starts with the libraries directory |
| `MinervaBootstrap.CorePathOutsideLibraries` | config/bootstrap/minerva_bootstrap.php:172 | no path built under `APP/views` lies in the libraries directory |
| `Paths.Join` | controllers/BlocksController.php:68 | a join starts with its first part |
| `Paths.JoinPrefix` | config/bootstrap/minerva_bootstrap.php:169-178 | joining a leading run of segments gives a prefix of the whole path |
| `Paths.JoinCons` | controllers/BlocksController.php:66-68 | a join with one more leading part is that part, the separator and the rest's join |
| `BlocksController.DefaultAccess` | controllers/BlocksController.php:39-58 | exactly the six actions; one rule each; `allowManagers` with redirect `/users/login` for index/create/update/delete, `allowAll` without redirect for read/view |
| `BlocksController.Index` | controllers/BlocksController.php:80-104 | limit defaults to 10, page to 1, page 0 becomes 1; offset `(page - 1) * limit`; ordered by `_id` ascending; the only condition is `block_type`, present exactly when requested; the total counts all blocks with no conditions |
| `BlocksController.FormFields` | controllers/BlocksController.php:137-141 | the schema without the key field, plus `block_type`, whose form value is the requested block type or null; an existing `block_type` entry keeps its attributes and form options and gains only `value`, a missing one is created holding just that value |
| `BlocksController.Create` | controllers/BlocksController.php:132-156 | redirects to the blocks index exactly when data was submitted and saved; otherwise the view gets the submitted document, or a fresh empty one without data, and the prepared fields |
| `BlocksController.View` | controllers/BlocksController.php:62-69 | whatever the arguments, renders `static/example` with layout `blank` |
| `BlocksController.ViewIntended` | controllers/BlocksController.php:62-69 | with arguments, renders `static/<arguments joined by />`; without, the same as `View` |
| `BlocksController.ViewIgnoresArguments` | controllers/BlocksController.php:62-69 | a request for static block `gallery` renders `static/example`, where `static/gallery` was intended |
| `BlocksController.Delete` | controllers/BlocksController.php:182-196 | without a url, straight to the index; for an unknown url, the null-document fatal error; otherwise a success flash exactly when the delete succeeds, an error flash otherwise, and a redirect to the blocks index either way |

## Left out

- `Access::config` (config/bootstrap/minerva_bootstrap.php:48-64): framework configuration with no decision logic.
- Lithium itself (the inflector, `class_exists`, `file_exists`, `Media`, the ORM's `find`, `first`, `count`, `save`, `delete`, `schema`, `key`, `display_name`, `Set::merge`, `FlashMessage`, `redirect`): oracles and parameters, not implementations.
- File paths are compared as strings and not normalised: with a null library the layout test looks for `APP/libraries//views/layouts/…`, which an actual file system would resolve like `APP/libraries/views/layouts/…`, while the `files` set treats the two as different.
- Class names are compared as the strings the filter builds; PHP's case-insensitive class names and optional leading backslash are not modelled.
- Concurrency: the controller's static `$access` is process-wide and two requests could race on it; the model covers a single request.
- Caching the resolved library across filter passes: not done by the code, and not modelled.
- `BlocksController::read`, `update` and `foo`: thin pass-throughs to the ORM or test stubs.
- The HTML templates views/blocks/create.html.php and libraries/common/views/_missing/missing_layout.html.php: presentation only.
- `BlocksController.Index`: page and limit are integers; PHP's loose `== 0` on string params and the unused `order` default are not modelled, and of the merged params only page and limit are read.
- `BlocksController.Create`: the save's effect on the document (validation errors) is not modelled; the document is the submitted data. As with `delete()`, `redirect()` is taken to end the action, so on a successful save no view data is modelled.
- `BlocksController.Delete`: `redirect()` is modelled as ending the action, so the missing-url branch does not go on to look up a null url.
- `BlocksController.View`: the unreachable branch builds `static/<arguments>` rather than PHP's nested array.

## Findings

| source | as written | input that shows it | evidently intended | confidence | as-written member | corrected member |
|---|---|---|---|---|---|---|
| controllers/BlocksController.php:62-68 | `empty($path)` is tested before `$path` is ever assigned, so it is always empty and the arguments are ignored | `view('gallery')` renders template `static/example` | render the static block the arguments name, `static/gallery` | high; not executed | `BlocksController.View` (shown by `BlocksController.ViewIgnoresArguments`) | `BlocksController.ViewIntended` |
