/** The `Contentful` plugin object: its validated options, the `addDataTo` locals
    it publishes into, and the three host hooks it serves (`run` on each compile,
    `before-loader-process` for each file, `emit` once per compilation). */
module Plugin {
  import opened Results
  import opened Values
  import opened Options
  import opened Fetch
  import opened Templates
  import opened Assets

  /** The loader options object handed to the hook; the hook only sets `multi`. */
  class LoaderOptions {
    var multi: Option<seq<MultiEntry>>

    constructor(multi: Option<seq<MultiEntry>>)
      ensures this.multi == multi
    {
      this.multi := multi;
    }
  }

  /** How a call to `run` ended: `done()` without fetching, `done()` after
      publishing a collection, or `done(err)`. */
  datatype RunOutcome = Skipped | Published(collection: Collection) | Failed(error: string)

  const NoContentTypes := "contentTypes is not an array"
  const NoTemplatesToIndex := "Cannot read property 'reduce' of undefined"

  /** The collection as the JavaScript object stored under `contentful`. */
  function CollectionValue(m: Collection): (v: Value)
    ensures v.Obj? && v.props.Keys == m.Keys
    ensures forall k | k in m :: v.props[k] == Arr(m[k])
  {
    Obj(map k | k in m :: Arr(m[k]))
  }

  /** The refresh policy: fetch unless data is already present and
      `aggressiveRefresh` is off. */
  predicate ShouldFetch(addDataTo: map<string, Value>, aggressiveRefresh: Value) {
    !Truthy(Get(addDataTo, "contentful")) || Truthy(aggressiveRefresh)
  }

  class Contentful {
    const config: Config
    /** The `addDataTo` locals object, which `run` extends with `contentful`. */
    var addDataTo: map<string, Value>
    /** The `templatePairs` variable of `apply`, filled on the hook's first call. */
    var templatePairs: Option<map<string, nat>>

    ghost predicate Valid()
      reads this
    {
      templatePairs.Some? ==>
        config.contentTypes.Some? && IndexesTemplates(config.contentTypes.value, templatePairs.value)
    }

    constructor(config: Config)
      ensures Valid()
      ensures this.config == config && addDataTo == config.addDataTo && templatePairs.None?
    {
      this.config := config;
      addDataTo := config.addDataTo;
      templatePairs := None;
    }

    /** `new Contentful(opts)`: throws the validation error, or keeps the
      normalised options. */
    static method Create(opts: RawOptions) returns (r: Result<Contentful, ConfigError>)
      ensures r.Success? <==> Acceptable(opts)
      ensures r.Failure? ==> Validate(opts) == Failure(r.error)
      ensures r.Success? ==>
                && fresh(r.value) && r.value.Valid()
                && r.value.config == Validate(opts).value
                && r.value.addDataTo == opts.addDataTo.value
                && r.value.templatePairs.None?
    {
      var v := Validate(opts);
      match v
      case Failure(e) =>
        r := Failure(e);
      case Success(c) =>
        var plugin := new Contentful(c);
        r := Success(plugin);
    }

    /** `run(compilation, done)`: apply the refresh policy, then fetch every
        content type in declaration order and publish the collection under
        `addDataTo.contentful` only when all of them succeeded. */
    method Run(client: Client) returns (outcome: RunOutcome)
      requires Valid()
      modifies this`addDataTo
      ensures Valid()
      ensures outcome.Skipped? <==> !ShouldFetch(old(addDataTo), config.aggressiveRefresh)
      ensures !outcome.Published? ==> addDataTo == old(addDataTo)
      ensures outcome.Published? ==>
                && config.contentTypes.Some?
                && IsCollection(config.contentTypes.value, config.includeLevel, client, outcome.collection)
                && addDataTo == old(addDataTo)["contentful" := CollectionValue(outcome.collection)]
      ensures ShouldFetch(old(addDataTo), config.aggressiveRefresh) && config.contentTypes.Some? ==>
                (outcome.Published? <==> AllFetched(config.contentTypes.value, config.includeLevel, client))
      ensures outcome.Failed? && config.contentTypes.Some? ==>
                exists i :: FirstFailedFetch(config.contentTypes.value, config.includeLevel, client, i)
                            && outcome.error == FetchOne(config.contentTypes.value[i], config.includeLevel, client).error
      ensures outcome.Failed? && config.contentTypes.None? ==> outcome.error == NoContentTypes
    {
      if !ShouldFetch(addDataTo, config.aggressiveRefresh) {
        return Skipped;
      }
      if config.contentTypes.None? {
        return Failed(NoContentTypes);
      }
      var r := Collect(config.contentTypes.value, config.includeLevel, client);
      match r
      case Failure(e) =>
        outcome := Failed(e);
      case Success(m) =>
        addDataTo := addDataTo["contentful" := CollectionValue(m)];
        outcome := Published(m);
    }

    /** The `before-loader-process` hook for the file at `resourcePath`: build the
        template index on the first call that can, then, when the file is a
        content type's template, set `options.multi` to one entry per item. */
    method BeforeLoaderProcess(resourcePath: string, context: string, options: LoaderOptions) returns (r: Result<(), string>)
      requires Valid()
      modifies this`templatePairs, options
      ensures Valid()
      ensures old(templatePairs).Some? ==> templatePairs == old(templatePairs)
      ensures old(templatePairs).None? ==>
                (templatePairs.Some? <==>
                   config.contentTypes.Some?
                   && forall i | 0 <= i < |config.contentTypes.value| :: TemplateOk(config.contentTypes.value[i]))
      ensures templatePairs.None? && config.contentTypes.None? ==> r == Failure(NoTemplatesToIndex)
      ensures templatePairs.None? && config.contentTypes.Some? ==>
                exists i | 0 <= i < |config.contentTypes.value| ::
                  && !TemplateOk(config.contentTypes.value[i])
                  && (forall j | 0 <= j < i :: TemplateOk(config.contentTypes.value[j]))
                  && r == Failure(TemplateError(config.contentTypes.value[i]))
      ensures templatePairs.None? ==> options.multi == old(options.multi)
      ensures templatePairs.Some? ==>
                var p := RelativePath(resourcePath, context);
                var fanOut := FanOut(config.contentTypes.value, templatePairs.value, addDataTo, p);
                && (p !in templatePairs.value ==> r.Success? && options.multi == old(options.multi))
                && (r.Success? <==> fanOut.Success?)
                && (fanOut.Success? && fanOut.value.Some? ==> options.multi == fanOut.value)
                && (fanOut.Failure? ==> r == Failure(fanOut.error) && options.multi == old(options.multi))
    {
      if templatePairs.None? {
        if config.contentTypes.None? {
          return Failure(NoTemplatesToIndex);
        }
        var indexed := IndexTemplates(config.contentTypes.value);
        if indexed.Failure? {
          return Failure(indexed.error);
        }
        templatePairs := Some(indexed.value);
      }
      var pairs := templatePairs.value;
      var p := RelativePath(resourcePath, context);
      var fanOut := FanOut(config.contentTypes.value, pairs, addDataTo, p);
      match fanOut
      case Failure(e) =>
        r := Failure(e);
      case Success(entries) =>
        if entries.Some? {
          options.multi := entries;
        }
        r := Success(());
    }

    /** The `emit` hook: write the JSON assets for the current `addDataTo.contentful`. */
    method Emit(compilation: Compilation, serialize: Value -> string) returns (r: Result<(), string>)
      modifies compilation
      ensures var spec := EmitAssets(old(compilation.assets), config.json, config.contentTypes,
                                     Get(addDataTo, "contentful"), serialize);
              && compilation.assets == spec.0
              && (r.Failure? <==> spec.1.Some?)
              && (r.Failure? ==> r.error == spec.1.value)
    {
      var contentful := Get(addDataTo, "contentful");
      if PresentNonEmpty(config.json) {
        WriteJson(compilation, config.json.value, contentful, serialize);
      }
      if config.contentTypes.None? {
        return Failure(NoContentTypesToFilter);
      }
      var cts := config.contentTypes.value;
      ghost var spec := WriteTypedJson(compilation.assets, cts, contentful, serialize);
      var i := 0;
      while i < |cts|
        invariant 0 <= i <= |cts|
        invariant WriteTypedJson(compilation.assets, cts[i..], contentful, serialize) == spec
      {
        assert cts[i..][1..] == cts[i + 1..];
        if PresentNonEmpty(cts[i].json) {
          var data := Member(contentful, NameKey(cts[i]));
          if data.Failure? {
            return Failure(data.error);
          }
          WriteJson(compilation, cts[i].json.value, data.value, serialize);
        }
        i := i + 1;
      }
      r := Success(());
    }
  }

  /** Two compiles in a row, as in watch mode: after a first run publishes, the
      second fetches again only with `aggressiveRefresh`, and otherwise leaves the
      published data exactly as it was. */
  method Rebuild(plugin: Contentful, first: Client, second: Client) returns (o1: RunOutcome, o2: RunOutcome)
    requires plugin.Valid()
    modifies plugin`addDataTo
    ensures o1.Published? && !Truthy(plugin.config.aggressiveRefresh) ==>
              o2.Skipped? && plugin.addDataTo == old(plugin.addDataTo)["contentful" := CollectionValue(o1.collection)]
    ensures o1.Published? && Truthy(plugin.config.aggressiveRefresh) ==>
              plugin.config.contentTypes.Some? && !o2.Skipped?
              && (o2.Published? <==> AllFetched(plugin.config.contentTypes.value, plugin.config.includeLevel, second))
  {
    o1 := plugin.Run(first);
    o2 := plugin.Run(second);
  }
}
