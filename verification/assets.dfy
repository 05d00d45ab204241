/** The build's asset table and the JSON files the `emit` hook writes into it
    (`writeJson` in lib/index.js). */
module Assets {
  import opened Results
  import opened Values
  import opened Options

  /** The TypeError of `contentTypes.filter` when there is no `contentTypes` array. */
  const NoContentTypesToFilter := "Cannot read property 'filter' of undefined"

  /** A webpack asset: its `source()` text and what its `size()` reports. */
  datatype Asset = Asset(source: string, size: nat)

  /** `s.length` in JavaScript: the number of UTF-16 code units, two for each
      character outside the Basic Multilingual Plane. */
  function Utf16Length(s: string): (n: nat)
    ensures |s| <= n <= 2 * |s|
    ensures (forall i | 0 <= i < |s| :: s[i] as int <= 0xFFFF) ==> n == |s|
    ensures (exists i | 0 <= i < |s| :: s[i] as int > 0xFFFF) ==> n > |s|
    decreases |s|
  {
    if s == [] then 0
    else
      var rest := s[1..];
      assert forall i | 0 <= i < |rest| :: rest[i] == s[i + 1];
      assert forall i | 1 <= i < |s| :: s[i] == rest[i - 1];
      (if s[0] as int > 0xFFFF then 2 else 1) + Utf16Length(rest)
  }

  /** What `size()` reports agrees with `source()`. */
  predicate Consistent(a: Asset) {
    a.size == Utf16Length(a.source)
  }

  /** The asset `writeJson` registers for `data`, `serialize` standing for
      `JSON.stringify(data, null, 2)`: its size is the UTF-16 length of its text. */
  function JsonAsset(serialize: Value -> string, data: Value): (a: Asset)
    ensures a.source == serialize(data)
    ensures Consistent(a)
  {
    var src := serialize(data);
    Asset(src, Utf16Length(src))
  }

  class Compilation {
    var assets: map<string, Asset>

    constructor(assets: map<string, Asset>)
      ensures this.assets == assets
    {
      this.assets := assets;
    }
  }

  /** `writeJson(compilation, filename, data)`. */
  method WriteJson(compilation: Compilation, filename: string, data: Value, serialize: Value -> string)
    modifies compilation
    ensures compilation.assets == old(compilation.assets)[filename := JsonAsset(serialize, data)]
  {
    compilation.assets := compilation.assets[filename := JsonAsset(serialize, data)];
  }

  /** Every asset either was in `before` unchanged or is consistent. */
  ghost predicate OnlyConsistentWrites(before: map<string, Asset>, after: map<string, Asset>) {
    forall f | f in after :: (f in before && after[f] == before[f]) || Consistent(after[f])
  }

  ghost function JsonNames(cts: seq<ContentType>): set<string> {
    set i | 0 <= i < |cts| && PresentNonEmpty(cts[i].json) :: cts[i].json.value
  }

  /** The per-content-type half of `emit`: for each content type whose `json`
      name is set, in declaration order, write `contentful[ct.name]` under that name. The
      second component is the TypeError that stops it when `contentful` is
      `undefined` or `null`. */
  function WriteTypedJson(assets: map<string, Asset>, cts: seq<ContentType>, contentful: Value, serialize: Value -> string): (r: (map<string, Asset>, Option<string>))
    ensures r.0.Keys == assets.Keys + (if r.1.None? then JsonNames(cts) else {})
    ensures forall f | f in assets && f !in JsonNames(cts) :: r.0[f] == assets[f]
    ensures OnlyConsistentWrites(assets, r.0)
    ensures r.1.Some? <==> (contentful.Undefined? || contentful.Null?) && JsonNames(cts) != {}
    ensures r.1.Some? ==> r.0 == assets
    decreases |cts|
  {
    if cts == [] then (assets, None)
    else
      var rest := cts[1..];
      assert JsonNames(cts) == (if PresentNonEmpty(cts[0].json) then {cts[0].json.value} else {}) + JsonNames(rest) by {
        forall f | f in JsonNames(cts)
          ensures f in (if PresentNonEmpty(cts[0].json) then {cts[0].json.value} else {}) + JsonNames(rest)
        {
          var i :| 0 <= i < |cts| && PresentNonEmpty(cts[i].json) && cts[i].json.value == f;
          if i > 0 { assert rest[i - 1] == cts[i]; }
        }
        forall f | f in JsonNames(rest) ensures f in JsonNames(cts) {
          var i :| 0 <= i < |rest| && PresentNonEmpty(rest[i].json) && rest[i].json.value == f;
          assert cts[i + 1] == rest[i];
        }
      }
      if !PresentNonEmpty(cts[0].json) then WriteTypedJson(assets, rest, contentful, serialize)
      else
        match Member(contentful, NameKey(cts[0]))
        case Failure(e) => (assets, Some(e))
        case Success(data) => WriteTypedJson(assets[cts[0].json.value := JsonAsset(serialize, data)], rest, contentful, serialize)
  }

  /** The content type at `i` is the last one declaring its `json` name. */
  ghost predicate LastWithJson(cts: seq<ContentType>, i: int) {
    && 0 <= i < |cts|
    && PresentNonEmpty(cts[i].json)
    && forall j | i < j < |cts| :: cts[j].json != cts[i].json
  }

  /** When several content types share a `json` name the last one's list is what
      the file holds; each file holds `contentful[name]` of its content type. */
  lemma {:induction false} TypedJsonContents(assets: map<string, Asset>, cts: seq<ContentType>, contentful: Value, serialize: Value -> string, i: int)
    requires WriteTypedJson(assets, cts, contentful, serialize).1.None?
    requires LastWithJson(cts, i)
    ensures Member(contentful, NameKey(cts[i])).Success?
    ensures WriteTypedJson(assets, cts, contentful, serialize).0[cts[i].json.value]
            == JsonAsset(serialize, Member(contentful, NameKey(cts[i])).value)
    decreases |cts|
  {
    var rest := cts[1..];
    if i == 0 {
      var a' := assets[cts[0].json.value := JsonAsset(serialize, Member(contentful, NameKey(cts[0])).value)];
      assert WriteTypedJson(assets, cts, contentful, serialize) == WriteTypedJson(a', rest, contentful, serialize);
      forall j | 0 <= j < |rest| && PresentNonEmpty(rest[j].json) ensures rest[j].json.value != cts[0].json.value {
        assert rest[j] == cts[j + 1];
      }
      assert cts[0].json.value !in JsonNames(rest);
    } else {
      assert rest[i - 1] == cts[i];
      assert LastWithJson(rest, i - 1) by {
        forall j | i - 1 < j < |rest| ensures rest[j].json != rest[i - 1].json {
          assert rest[j] == cts[j + 1];
        }
      }
      if !PresentNonEmpty(cts[0].json) {
        TypedJsonContents(assets, rest, contentful, serialize, i - 1);
      } else {
        var a' := assets[cts[0].json.value := JsonAsset(serialize, Member(contentful, NameKey(cts[0])).value)];
        TypedJsonContents(a', rest, contentful, serialize, i - 1);
      }
    }
  }

  /** The `emit` hook: the whole collection under the global `json` name if
      it is set (a non-empty string), then each content type's list under its own; without a
      `contentTypes` array `.filter` fails after the global file is written. */
  function EmitAssets(assets: map<string, Asset>, json: Option<string>, cts: Option<seq<ContentType>>, contentful: Value, serialize: Value -> string): (r: (map<string, Asset>, Option<string>))
    ensures OnlyConsistentWrites(assets, r.0)
    ensures var targets := (if PresentNonEmpty(json) then {json.value} else {}) + (if cts.Some? then JsonNames(cts.value) else {});
            && assets.Keys <= r.0.Keys <= assets.Keys + targets
            && forall f | f in assets && f !in targets :: r.0[f] == assets[f]
    ensures r.1.None? ==> cts.Some? && r.0.Keys == assets.Keys + (if PresentNonEmpty(json) then {json.value} else {}) + JsonNames(cts.value)
    ensures PresentNonEmpty(json) ==> json.value in r.0
    ensures r.1.None? <==> cts.Some? && (JsonNames(cts.value) != {} ==> !contentful.Undefined? && !contentful.Null?)
    ensures r.1.Some? ==> r.0 == (if PresentNonEmpty(json) then assets[json.value := JsonAsset(serialize, contentful)] else assets)
    ensures r.1.None? && PresentNonEmpty(json) && json.value !in JsonNames(cts.value) ==>
              r.0[json.value] == JsonAsset(serialize, contentful)
  {
    var withGlobal := if PresentNonEmpty(json) then assets[json.value := JsonAsset(serialize, contentful)] else assets;
    if cts.None? then (withGlobal, Some(NoContentTypesToFilter))
    else WriteTypedJson(withGlobal, cts.value, contentful, serialize)
  }

  /** After a complete `emit`, the file of each content type that is the last to
      declare its `json` name holds `contentful[ct.name]`, whatever the global
      file or earlier content types wrote under the same name. */
  lemma EmitTypedContents(assets: map<string, Asset>, json: Option<string>, cts: Option<seq<ContentType>>, contentful: Value, serialize: Value -> string, i: int)
    requires EmitAssets(assets, json, cts, contentful, serialize).1.None?
    requires cts.Some? && LastWithJson(cts.value, i)
    ensures Member(contentful, NameKey(cts.value[i])).Success?
    ensures EmitAssets(assets, json, cts, contentful, serialize).0[cts.value[i].json.value]
            == JsonAsset(serialize, Member(contentful, NameKey(cts.value[i])).value)
  {
    var withGlobal := if PresentNonEmpty(json) then assets[json.value := JsonAsset(serialize, contentful)] else assets;
    TypedJsonContents(withGlobal, cts.value, contentful, serialize, i);
  }
}
