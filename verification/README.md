# spike-contentful, modelled in Dafny

spike-contentful is a plugin for the spike static-site builder. It pulls
entries from the Contentful CMS at build time and hands them to the template
layer. The plugin is a single class, `Contentful`, in `lib/index.js`. This
project models that class:

- **Option validation** (`validate`). The constructor checks its options
  against a schema. It rejects a missing `accessToken`, `spaceId` or
  `addDataTo`, empty strings, and a `filters.limit` that is not an integer in
  [1, 1000]. It fills in the defaults: `includeLevel` 1, `id` = `name`,
  `ordered` false, `transform` false, and `limit` 100 when `filters` is given
  without one. Module `Options`.
- **The run and its refresh policy** (`run`). On each compile the plugin
  skips when `addDataTo.contentful` is already truthy and `aggressiveRefresh`
  is off. Otherwise it fetches each content type in declaration order. The
  request options are `{content_type: id, include: includeLevel}` overlaid
  with the type's filters. It applies the identity or the user's transform to
  every item and accumulates `name -> items`. It publishes the map under
  `addDataTo.contentful` only when every fetch succeeded. Modules `Fetch` and
  `Plugin`.
- **Single-template pages** (the `before-loader-process` hook). On its first
  call the hook indexes every templated content type by template path. A
  template without `path` or `output` is an error that names the content
  type. For the file being compiled, the hook takes its path relative to the
  project, looks it up, and sets `options.multi` to one entry per item: the
  locals are `addDataTo` with `item` bound to that item, and the name is
  `output(item)`. Module `Templates`.
- **JSON assets** (the `emit` hook and `writeJson`). The whole collection is
  written under the global `json` name, and each content type's list under its
  own `json` name. Each asset's `size()` equals the UTF-16 length of its `source()`.
  Module `Assets`.

JavaScript values are modelled by `Values.Value`, a sum of undefined, null,
booleans, numbers, strings, arrays and objects. This lets the model follow the
code's truthiness tests and its TypeErrors on `undefined`. The CMS client's
`getEntries` is a function parameter (`Fetch.Client`). `JSON.stringify(data, null, 2)`
is a function parameter `serialize`. The user's `transform` and
`template.output` functions are values of type
`Value -> Result<Value, string>`, so they may throw.

Where the code does not do what its tests expect, the model follows the code:

- `test/index.js:152-173` expects a default transform that flattens each
  entry (`title` a string). In `lib/index.js` the default is `transform: false`,
  the identity (lines 105 and 150). `transform: true` passes the schema, but
  `run` then calls `true(entry)`, so a content type with `transform: true`
  fails its run as soon as one item comes back.
- `test/index.js:324-354` expects `ordered: true` to unwrap an ordered
  manifest. The `ordered` flag is validated (line 140) but never read, so
  there is no unwrapping in the model either.
- `test/index.js:56-65` expects a limit of 101 to be rejected. The schema's
  maximum is 1000 (line 145), and the model uses 1000.

Two more points about `lib/index.js` itself:

- A render error is not isolated per item (lines 63-68). An `output` function
  that throws aborts the whole `multi` list for that file.
- The resource path is relativised with `String.prototype.replace` (line 55).
  That removes the first occurrence of `context + "/"`, wherever it is, not
  only a prefix (`Templates.ReplaceFirst`).

## Model

| member | source | states |
|---|---|---|
| Results.MapAll | lib/index.js:109 | `W.map` of a step that may throw. It succeeds exactly when every item succeeds. The result keeps length and order, and element i is f(items[i]). Otherwise the error is that of the first failing item. |
| Values.Member | lib/index.js:60 | `v[key]` throws exactly on undefined and null. On an object it yields the property, or undefined when the key is missing. |
| Options.RequiredString | lib/index.js:130-131 | A required string option is accepted exactly when present and non-empty. Absent gives `Required(key)`. |
| Options.OptionalString | lib/index.js:134 | An optional string option is accepted exactly when absent or non-empty, and is kept unchanged. |
| Options.ValidateFilters | lib/index.js:141-147 | Accepted exactly when `limit` is undefined or an integer in [1, 1000]. Every user key is kept, and `limit` defaults to 100. A bad limit reports the rule it breaks: not a number, not an integer, below 1 or above 1000. |
| Options.ValidateOptionalFilters | lib/index.js:141-147 | A missing `filters` stays missing. A given one is validated as above. |
| Options.ValidateContentType | lib/index.js:136-153 | Accepted exactly when name, id and json are non-empty when given and the limit is acceptable. The result has id = name when no id is given, ordered and transform default to false, and filters are normalised. |
| Options.ValidateContentTypes | lib/index.js:136-153 | Every entry is validated. The result keeps the entries' number and order. On failure the error is that of the first entry that fails validation. |
| Options.Validate | lib/index.js:128-167 | Succeeds exactly when every schema rule holds (`Acceptable`). A missing accessToken, then spaceId, then addDataTo is reported as required. On success every field holds the given value or its default. |
| Options.ValidateIdempotent | lib/index.js:128-166 | Validating an already normalised configuration accepts it and returns it unchanged. |
| Options.ContentTypeIdempotent | lib/index.js:136-153 | The same for one normalised content type. |
| Fetch.RequestOptions | lib/index.js:97-103 | Keys are content_type, include and the filter keys. Every filter value wins over a base key of the same name. Otherwise content_type is the id (undefined when absent) and include is includeLevel. |
| Fetch.ApplyTransform | lib/index.js:96-109 | `false` returns the fetched items unchanged. A function f gives the same length with element i = f(items[i]), or the first item's error. `true` fails with "not a function" exactly when there is an item. |
| Fetch.FetchOne | lib/index.js:96-110 | A rejected request gives its error. Otherwise the result is the transform applied to the fetched items. |
| Fetch.Collect | lib/index.js:93-116 | Succeeds exactly when every content type's fetch does. The map then has exactly the names as keys, each holding the last same-named type's items. Otherwise the error is that of the first failing type in declaration order. |
| Fetch.CollectSnoc | lib/index.js:111-113 | Storing one more type's items (`m[ct.name] = res`) extends the collection of the types before it. |
| Fetch.NamesSnoc | lib/index.js:112 | The names of a longer list are the names before it plus the new one. |
| Fetch.LastWithNameExists | lib/index.js:112 | Every stored name has a last content type declaring it. |
| Fetch.CollectionUnique | lib/index.js:93-116 | The published collection is determined by the content types and the client's answers. |
| Fetch.LaterNameWins | lib/index.js:112 | For duplicate names, the stored items are those of a same-named content type at or after the given one: the later descriptor wins. |
| Fetch.RequestLimitInRange | lib/index.js:97-103 | After validation, every request of a type with filters carries an integer limit in [1, 1000], and 100 when none was given. |
| Templates.IndexFrom | lib/index.js:55 | Returns the first position at or after the start where the pattern occurs, or none when it does not occur there. |
| Templates.IndexOf | lib/index.js:55 | Returns the first position where the pattern occurs, or none when it never occurs. |
| Templates.ReplaceFirst | lib/index.js:55 | Exactly the first occurrence of the pattern is replaced, and the text before and after it is kept. A string that starts with the pattern loses that prefix. A string that does not contain it is unchanged. |
| Templates.RelativePath | lib/index.js:55 | A resource path under `context/` becomes the path after it. Otherwise the first occurrence of `context/` is cut out of the path, and a path without one is unchanged. |
| Templates.IndexTemplates | lib/index.js:37-51 | Succeeds exactly when every template has a non-empty path and an output. The result maps each template path to the last content type declaring it. Otherwise the error names the first incomplete content type. |
| Templates.IndexSnoc | lib/index.js:49-50 | Recording one more content type (`m[path] = idx`) keeps the index correct. |
| Templates.MultiEntries | lib/index.js:63-68 | One entry per item, in order. Entry i's locals are addDataTo plus `item` = items[i], with no other item visible. Its name is output(items[i]). A throwing output gives the first item's error. |
| Templates.ItemsOf | lib/index.js:60-63 | Succeeds exactly when `addDataTo.contentful` is an object whose entry for the name is an array, and yields that array's items. |
| Templates.FanOut | lib/index.js:57-69 | A path that is not a template path leaves `multi` alone. Otherwise it succeeds exactly when the items exist and every output call succeeds, giving the fan-out list. |
| Assets.Utf16Length | lib/index.js:173 | `src.length` counts UTF-16 code units: between one and two per character, exactly one per character when none lies outside the Basic Multilingual Plane, and more than the character count when one does. |
| Assets.JsonAsset | lib/index.js:169-175 | The asset's source is the serialised data, and its size is that string's UTF-16 length. |
| Assets.WriteJson | lib/index.js:169-175 | Sets exactly the one asset under the filename. |
| Assets.WriteTypedJson | lib/index.js:77-83 | Adds exactly the content types' json names. Other assets are unchanged and new ones are consistent. It fails exactly when contentful is undefined or null and some type has a json name, and then writes nothing. |
| Assets.TypedJsonContents | lib/index.js:77-83 | Each per-type file holds `contentful[name]` of the last content type declaring that filename. |
| Assets.EmitAssets | lib/index.js:72-86 | Only the global and per-type json names can change, and every written asset is consistent. On success exactly those names are added. The global file holds the whole map unless a type's file overrides it. On failure only the global file was written. |
| Assets.EmitTypedContents | lib/index.js:77-83 | After a complete emit, each per-type file holds `contentful[name]` of the last content type declaring that filename, even when it shares the global name. |
| Plugin.CollectionValue | lib/index.js:118 | The published object has the collection's keys, each holding that type's item array. |
| Plugin.Contentful.constructor | lib/index.js:17-18 | The plugin keeps the configuration and its addDataTo, and has no template index yet. |
| Plugin.Contentful.Create | lib/index.js:17-18 | Construction fails exactly when validation does, with its error. Otherwise the plugin holds the normalised options. |
| Plugin.Contentful.Run | lib/index.js:89-121 | Skips exactly when contentful is truthy and aggressiveRefresh is not, and then changes nothing. It publishes only when every fetch succeeds, replacing only `contentful` with the collection. On failure addDataTo is unchanged and the first failing type's error is reported. |
| Plugin.Contentful.BeforeLoaderProcess | lib/index.js:34-70 | The index is built once, on the first call whose templates are all complete. A build failure names the first bad content type. An unmatched path leaves options alone. A matched one sets `multi` to the fan-out list. |
| Plugin.Contentful.Emit | lib/index.js:72-86 | The asset table becomes exactly `EmitAssets` of the old table and the current contentful, and the error is reported likewise. |
| Plugin.Rebuild | lib/index.js:90-91 | After a publishing run, a second run is skipped and leaves the data as published, unless aggressiveRefresh is on. In that case it fetches again. |

## Left out

- The Contentful HTTP client is not modelled: `createClient` and the choice of
  the preview host (lib/index.js:20-24). It is network I/O. `getEntries` is a
  function parameter that returns the items or an error, and its `items`
  envelope is not modelled.
- The Joi library is not modelled. The model keeps its rules but not its
  message texts. It also leaves out coercion of numeric strings (a string
  `limit` is rejected as not a number), the rejection of NaN and Infinity, and
  the copying of unknown options onto the plugin object. When several rules
  are broken at once, the model reports them in schema order, with `name`
  before `id`.
- The when.js promise plumbing and the `done` callback are not modelled. A run
  returns its outcome instead. Whether a missing `contentTypes` array makes
  `run` throw or reject is not distinguished: both are a failed run.
- A transform that returns a promise is not modelled: `transform` is a function
  that returns a value or throws.
- The host wiring is not modelled: `apply`, `compiler.plugin`,
  `SpikeUtil.runAll` and `es6bindall`. The hooks are methods called directly.
  `templatePairs`, which lives in the closure of one `apply` call, is a field
  of the plugin object.
- `addDataTo` is the user's own locals object, and `run` extends it in place
  with `Object.assign`. The model reassigns a map field, so it does not capture
  other references to that object seeing the update.
- Rendering the templates (reshape) is not modelled: the code only builds the
  `multi` list.
- `JSON.stringify` is the `serialize` parameter. The model does not capture
  that `JSON.stringify(undefined)` is not a string, which would make `size()`
  throw later.
- Objects are unordered maps (`Values.Value.Obj`). JavaScript objects keep
  insertion order, and `JSON.stringify` writes keys in that order. So the key
  order of the emitted JSON is not modelled: the global file's content-type
  names in first-declaration order (lib/index.js:112), and each entry's field
  order. Two runs whose content types differ only in order publish equal
  values in the model.
- Options.Template and Templates.IndexTemplates: the model types `template`
  as an optional string `path` and an optional function `output`. The code
  never validates `template` (unknown keys are allowed, lib/index.js:157) and
  tests only truthiness (lines 38-44). Two inputs are therefore not modelled.
  An `output` that is truthy but not a function passes indexing, then throws
  on the first item at line 66, or gives an empty `multi` when there are no
  items. A truthy `path` that is not a string becomes a key through `String()`
  at line 49.
- Values.Member: does not model properties that JavaScript finds on arrays,
  strings and other non-objects (indices, `length`). It also does not model
  inherited object properties. One consequence is in `templatePairs[p]` for a
  path such as `constructor`.
- The client is a pure function within one run. Content that changes between
  runs is modelled by giving each run its own client.
