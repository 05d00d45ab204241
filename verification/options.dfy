/** The plugin's configuration: the options as the user passes them, the
    normalised options the constructor keeps, and the schema check with defaults
    that turns one into the other (`validate` in lib/index.js). */
module Options {
  import opened Results
  import opened Values

  /** A user function from one item to a value; it may throw. */
  type UserFn = Value -> Result<Value, string>

  /** `template: { path, output }`: a template file and the function naming each
      item's output file. Neither is checked by the schema. */
  datatype Template = Template(path: Option<string>, output: Option<UserFn>)

  /** `transform`: the schema accepts a boolean or a function. */
  datatype Transform = Flag(enabled: bool) | Custom(apply: UserFn)

  datatype RawContentType = RawContentType(
    id: Option<string>,
    name: Option<string>,
    ordered: Option<bool>,
    filters: Option<map<string, Value>>,
    transform: Option<Transform>,
    json: Option<string>,
    template: Option<Template>)

  datatype ContentType = ContentType(
    id: Option<string>,
    name: Option<string>,
    ordered: bool,
    filters: Option<map<string, Value>>,
    transform: Transform,
    json: Option<string>,
    template: Option<Template>)

  /** `aggressiveRefresh` is not in the schema and is read only for its truthiness. */
  datatype RawOptions = RawOptions(
    accessToken: Option<string>,
    spaceId: Option<string>,
    preview: Option<bool>,
    addDataTo: Option<map<string, Value>>,
    json: Option<string>,
    includeLevel: Option<real>,
    aggressiveRefresh: Value,
    contentTypes: Option<seq<RawContentType>>)

  datatype Config = Config(
    accessToken: string,
    spaceId: string,
    preview: Option<bool>,
    addDataTo: map<string, Value>,
    json: Option<string>,
    includeLevel: real,
    aggressiveRefresh: Value,
    contentTypes: Option<seq<ContentType>>)

  /** The first schema rule an option breaks, with the option's own key. */
  datatype ConfigError =
    | Required(option: string)
    | Empty(option: string)
    | NotANumber(option: string)
    | NotAnInteger(option: string)
    | TooSmall(option: string, min: int)
    | TooLarge(option: string, max: int)

  const DefaultIncludeLevel: real := 1.0
  const DefaultLimit: int := 100
  const MinLimit: int := 1
  const MaxLimit: int := 1000

  /** The key a content type's items are stored under: `m[ct.name]`, where an
      absent name becomes the property key "undefined". */
  function NameKey(ct: ContentType): string {
    ct.name.GetOr("undefined")
  }

  predicate IsInteger(x: real) {
    x.Floor as real == x
  }

  predicate PresentNonEmpty(s: Option<string>) {
    s.Some? && s.value != ""
  }

  predicate NonEmptyIfPresent(s: Option<string>) {
    s.None? || s.value != ""
  }

  /** `filters.limit` as the schema accepts it: absent, or an integer in [1, 1000]. */
  predicate LimitAcceptable(filters: map<string, Value>) {
    var limit := Get(filters, "limit");
    limit.Undefined? || (limit.Num? && IsInteger(limit.n) && MinLimit as real <= limit.n <= MaxLimit as real)
  }

  predicate ContentTypeAcceptable(raw: RawContentType) {
    && NonEmptyIfPresent(raw.name)
    && NonEmptyIfPresent(raw.id)
    && (raw.filters.Some? ==> LimitAcceptable(raw.filters.value))
    && NonEmptyIfPresent(raw.json)
  }

  /** Every rule of the schema, stated independently of the order in which they are checked. */
  predicate Acceptable(o: RawOptions) {
    && PresentNonEmpty(o.accessToken)
    && PresentNonEmpty(o.spaceId)
    && o.addDataTo.Some?
    && NonEmptyIfPresent(o.json)
    && (o.contentTypes.Some? ==>
          forall i | 0 <= i < |o.contentTypes.value| :: ContentTypeAcceptable(o.contentTypes.value[i]))
  }

  /** The filters after validation: every key the user gave is kept, and `limit`
      is present, holding the default when the user left it out. */
  ghost predicate FiltersNormalised(raw: map<string, Value>, f: map<string, Value>) {
    && f.Keys == raw.Keys + {"limit"}
    && (forall k | k in raw && k != "limit" :: f[k] == raw[k])
    && (Get(raw, "limit").Undefined? ==> f["limit"] == Num(DefaultLimit as real))
    && (!Get(raw, "limit").Undefined? ==> f["limit"] == raw["limit"])
    && f["limit"].Num? && IsInteger(f["limit"].n) && MinLimit as real <= f["limit"].n <= MaxLimit as real
  }

  ghost predicate ContentTypeNormalised(raw: RawContentType, ct: ContentType) {
    && ct.name == raw.name
    && ct.id == (if raw.id.Some? then raw.id else raw.name)
    && ct.ordered == raw.ordered.GetOr(false)
    && ct.transform == raw.transform.GetOr(Flag(false))
    && ct.json == raw.json
    && ct.template == raw.template
    && ct.filters.Some? == raw.filters.Some?
    && (raw.filters.Some? ==> FiltersNormalised(raw.filters.value, ct.filters.value))
  }

  ghost predicate Normalised(o: RawOptions, c: Config) {
    && o.accessToken == Some(c.accessToken)
    && o.spaceId == Some(c.spaceId)
    && c.preview == o.preview
    && o.addDataTo == Some(c.addDataTo)
    && c.json == o.json
    && c.includeLevel == o.includeLevel.GetOr(DefaultIncludeLevel)
    && c.aggressiveRefresh == o.aggressiveRefresh
    && c.contentTypes.Some? == o.contentTypes.Some?
    && (c.contentTypes.Some? ==>
          && |c.contentTypes.value| == |o.contentTypes.value|
          && forall i | 0 <= i < |c.contentTypes.value| ::
               ContentTypeNormalised(o.contentTypes.value[i], c.contentTypes.value[i]))
  }

  /** `Joi.string().required()`: absent is an error, and so is the empty string. */
  function RequiredString(key: string, s: Option<string>): (r: Result<string, ConfigError>)
    ensures r.Success? <==> PresentNonEmpty(s)
    ensures r.Success? ==> s == Some(r.value)
    ensures s.None? ==> r.Failure? && r.error == Required(key)
  {
    match s
    case None => Failure(Required(key))
    case Some(v) => if v == "" then Failure(Empty(key)) else Success(v)
  }

  /** `Joi.string()`: absent is fine, the empty string is not. */
  function OptionalString(key: string, s: Option<string>): (r: Result<Option<string>, ConfigError>)
    ensures r.Success? <==> NonEmptyIfPresent(s)
    ensures r.Success? ==> r.value == s
  {
    if s.Some? && s.value == "" then Failure(Empty(key)) else Success(s)
  }

  /** `filters: { limit: number().integer().min(1).max(1000).default(100) }`, other
      keys allowed through. */
  function ValidateFilters(raw: map<string, Value>): (r: Result<map<string, Value>, ConfigError>)
    ensures r.Success? <==> LimitAcceptable(raw)
    ensures r.Success? ==> FiltersNormalised(raw, r.value)
    ensures !Get(raw, "limit").Undefined? && !Get(raw, "limit").Num? ==> r == Failure(NotANumber("limit"))
    ensures Get(raw, "limit").Num? && !IsInteger(Get(raw, "limit").n) ==> r == Failure(NotAnInteger("limit"))
    ensures Get(raw, "limit").Num? && IsInteger(Get(raw, "limit").n) && Get(raw, "limit").n < MinLimit as real ==>
              r == Failure(TooSmall("limit", MinLimit))
    ensures Get(raw, "limit").Num? && IsInteger(Get(raw, "limit").n) && Get(raw, "limit").n > MaxLimit as real ==>
              r == Failure(TooLarge("limit", MaxLimit))
  {
    match Get(raw, "limit")
    case Undefined => Success(raw["limit" := Num(DefaultLimit as real)])
    case Num(n) =>
      if !IsInteger(n) then Failure(NotAnInteger("limit"))
      else if n < MinLimit as real then Failure(TooSmall("limit", MinLimit))
      else if n > MaxLimit as real then Failure(TooLarge("limit", MaxLimit))
      else Success(raw)
    case _ => Failure(NotANumber("limit"))
  }

  /** One entry of `contentTypes`. `name` is checked before `id`, whose default
      refers to it. */
  function ValidateContentType(raw: RawContentType): (r: Result<ContentType, ConfigError>)
    ensures r.Success? <==> ContentTypeAcceptable(raw)
    ensures r.Success? ==> ContentTypeNormalised(raw, r.value)
  {
    var name :- OptionalString("name", raw.name);
    var id :- OptionalString("id", raw.id);
    var filters :- ValidateOptionalFilters(raw.filters);
    var json :- OptionalString("json", raw.json);
    Success(ContentType(
      if id.Some? then id else name,
      name,
      raw.ordered.GetOr(false),
      filters,
      raw.transform.GetOr(Flag(false)),
      json,
      raw.template))
  }

  function ValidateOptionalFilters(raw: Option<map<string, Value>>): (r: Result<Option<map<string, Value>>, ConfigError>)
    ensures r.Success? <==> (raw.Some? ==> LimitAcceptable(raw.value))
    ensures r.Success? ==> r.value.Some? == raw.Some?
    ensures r.Success? && raw.Some? ==> FiltersNormalised(raw.value, r.value.value)
  {
    match raw
    case None => Success(None)
    case Some(f) =>
      var g :- ValidateFilters(f);
      Success(Some(g))
  }

  function ValidateContentTypes(raw: Option<seq<RawContentType>>): (r: Result<Option<seq<ContentType>>, ConfigError>)
    ensures r.Success? <==> (raw.Some? ==> forall i | 0 <= i < |raw.value| :: ContentTypeAcceptable(raw.value[i]))
    ensures r.Success? ==> r.value.Some? == raw.Some?
    ensures r.Success? && raw.Some? ==>
              && |r.value.value| == |raw.value|
              && forall i | 0 <= i < |raw.value| :: ContentTypeNormalised(raw.value[i], r.value.value[i])
    ensures r.Failure? ==>
              && raw.Some?
              && exists i :: FirstFailureAt(ValidateContentType, raw.value, i) && r.error == ValidateContentType(raw.value[i]).error
  {
    match raw
    case None => Success(None)
    case Some(cts) =>
      var normalised :- MapAll(ValidateContentType, cts);
      Success(Some(normalised))
  }

  /** The constructor's `validate(opts)`: the first broken rule, checked in schema
      order (accessToken, spaceId, addDataTo, json, then each content type), or the
      options with their defaults filled in. */
  function Validate(o: RawOptions): (r: Result<Config, ConfigError>)
    ensures r.Success? <==> Acceptable(o)
    ensures r.Success? ==> Normalised(o, r.value)
    ensures o.accessToken.None? ==> r.Failure? && r.error == Required("accessToken")
    ensures PresentNonEmpty(o.accessToken) && o.spaceId.None? ==> r.Failure? && r.error == Required("spaceId")
    ensures PresentNonEmpty(o.accessToken) && PresentNonEmpty(o.spaceId) && o.addDataTo.None? ==>
              r.Failure? && r.error == Required("addDataTo")
  {
    var accessToken :- RequiredString("accessToken", o.accessToken);
    var spaceId :- RequiredString("spaceId", o.spaceId);
    var addDataTo :- if o.addDataTo.Some? then Success(o.addDataTo.value) else Failure(Required("addDataTo"));
    var json :- OptionalString("json", o.json);
    var contentTypes :- ValidateContentTypes(o.contentTypes);
    Success(Config(
      accessToken,
      spaceId,
      o.preview,
      addDataTo,
      json,
      o.includeLevel.GetOr(DefaultIncludeLevel),
      o.aggressiveRefresh,
      contentTypes))
  }

  /** The options a normalised configuration corresponds to, every default written out. */
  function AsRaw(c: Config): RawOptions {
    RawOptions(
      Some(c.accessToken),
      Some(c.spaceId),
      c.preview,
      Some(c.addDataTo),
      c.json,
      Some(c.includeLevel),
      c.aggressiveRefresh,
      if c.contentTypes.None? then None else Some(seq(|c.contentTypes.value|, i requires 0 <= i < |c.contentTypes.value| => AsRawContentType(c.contentTypes.value[i]))))
  }

  function AsRawContentType(ct: ContentType): RawContentType {
    RawContentType(ct.id, ct.name, Some(ct.ordered), ct.filters, Some(ct.transform), ct.json, ct.template)
  }

  /** Validation is idempotent: validating options that have already been
      normalised accepts them and changes nothing. */
  lemma {:induction false} ValidateIdempotent(o: RawOptions)
    requires Validate(o).Success?
    ensures Validate(AsRaw(Validate(o).value)) == Validate(o)
  {
    var c := Validate(o).value;
    var raw := AsRaw(c);
    if c.contentTypes.Some? {
      var cts := c.contentTypes.value;
      forall i | 0 <= i < |cts|
        ensures ContentTypeAcceptable(raw.contentTypes.value[i])
        ensures ValidateContentType(raw.contentTypes.value[i]) == Success(cts[i])
      {
        ContentTypeIdempotent(o.contentTypes.value[i], cts[i]);
      }
      var again := MapAll(ValidateContentType, raw.contentTypes.value);
      assert again.Success?;
      assert again.value == cts;
    }
    assert Acceptable(raw);
  }

  lemma {:induction false} ContentTypeIdempotent(raw: RawContentType, ct: ContentType)
    requires ContentTypeAcceptable(raw)
    requires ContentTypeNormalised(raw, ct)
    ensures ContentTypeAcceptable(AsRawContentType(ct))
    ensures ValidateContentType(AsRawContentType(ct)) == Success(ct)
  {
    if ct.filters.Some? {
      var f := ct.filters.value;
      assert LimitAcceptable(f);
      assert ValidateFilters(f) == Success(f);
    }
  }
}
