/** One build's retrieval: the request options of each content type, the
    transform applied to what comes back, and the accumulation of every content
    type's items into the collection map (the reducer inside `run`). */
module Fetch {
  import opened Results
  import opened Values
  import opened Options

  /** The CMS client's `getEntries(options)`: the fetched items, or the error the
      request was rejected with. */
  type Client = map<string, Value> -> Result<seq<Value>, string>

  /** The collection map: content-type name to its transformed items. */
  type Collection = map<string, seq<Value>>

  const NotAFunction := "transformFn is not a function"

  function Filters(ct: ContentType): map<string, Value> {
    if ct.filters.Some? then ct.filters.value else map[]
  }

  /** `content_type: ct.id`, where an absent id is `undefined`. */
  function IdValue(id: Option<string>): Value {
    if id.Some? then Str(id.value) else Undefined
  }

  /** `Object.assign({content_type: ct.id, include: includeLevel}, ct.filters)`:
      the two base keys, overlaid by every filter, a filter of the same name winning. */
  function RequestOptions(ct: ContentType, includeLevel: real): (r: map<string, Value>)
    ensures r.Keys == {"content_type", "include"} + Filters(ct).Keys
    ensures forall k | k in Filters(ct) :: r[k] == Filters(ct)[k]
    ensures "content_type" !in Filters(ct) ==> r["content_type"] == IdValue(ct.id)
    ensures "include" !in Filters(ct) ==> r["include"] == Num(includeLevel)
  {
    map["content_type" := IdValue(ct.id), "include" := Num(includeLevel)] + Filters(ct)
  }

  /** `W.map(items, transformFn)`, where `transform: false` is replaced by the
      identity and any other value is called as a function: `true` is not one, so
      it fails as soon as there is an item to apply it to. */
  function ApplyTransform(t: Transform, items: seq<Value>): (r: Result<seq<Value>, string>)
    ensures t.Flag? && !t.enabled ==> r == Success(items)
    ensures t.Flag? && t.enabled ==> (r.Success? <==> items == [])
    ensures t.Flag? && t.enabled && items != [] ==> r == Failure(NotAFunction)
    ensures t.Custom? ==> (r.Success? <==> forall i | 0 <= i < |items| :: t.apply(items[i]).Success?)
    ensures t.Custom? && r.Success? ==>
              |r.value| == |items| && forall i | 0 <= i < |items| :: r.value[i] == t.apply(items[i]).value
    ensures t.Custom? && r.Failure? ==> exists i :: FirstFailureAt(t.apply, items, i) && r.error == t.apply(items[i]).error
  {
    match t
    case Flag(enabled) =>
      if !enabled then Success(items)
      else
        var notAFunction: Value -> Result<Value, string> := _ => Failure(NotAFunction);
        var r := MapAll(notAFunction, items);
        assert items != [] ==> !notAFunction(items[0]).Success?;
        r
    case Custom(f) => MapAll(f, items)
  }

  /** One content type's contribution: fetch with its request options, then
      transform every item. */
  function FetchOne(ct: ContentType, includeLevel: real, client: Client): (r: Result<seq<Value>, string>)
    ensures client(RequestOptions(ct, includeLevel)).Failure? ==>
              r == Failure(client(RequestOptions(ct, includeLevel)).error)
    ensures client(RequestOptions(ct, includeLevel)).Success? ==>
              r == ApplyTransform(ct.transform, client(RequestOptions(ct, includeLevel)).value)
  {
    var items :- client(RequestOptions(ct, includeLevel));
    ApplyTransform(ct.transform, items)
  }

  ghost predicate AllFetched(cts: seq<ContentType>, includeLevel: real, client: Client) {
    forall i | 0 <= i < |cts| :: FetchOne(cts[i], includeLevel, client).Success?
  }

  ghost function Names(cts: seq<ContentType>): set<string> {
    set i | 0 <= i < |cts| :: NameKey(cts[i])
  }

  /** No later content type has the same name as `cts[i]`. */
  ghost predicate LastWithName(cts: seq<ContentType>, i: int) {
    0 <= i < |cts| && forall j | i < j < |cts| :: NameKey(cts[j]) != NameKey(cts[i])
  }

  /** What a successful run publishes: exactly the content types' names as keys,
      each holding the items of the last content type declared with that name. */
  ghost predicate IsCollection(cts: seq<ContentType>, includeLevel: real, client: Client, m: Collection) {
    && AllFetched(cts, includeLevel, client)
    && m.Keys == Names(cts)
    && forall i | LastWithName(cts, i) :: m[NameKey(cts[i])] == FetchOne(cts[i], includeLevel, client).value
  }

  /** `cts[i]` is the first content type, in declaration order, whose fetch fails. */
  ghost predicate FirstFailedFetch(cts: seq<ContentType>, includeLevel: real, client: Client, i: int) {
    && 0 <= i < |cts|
    && FetchOne(cts[i], includeLevel, client).Failure?
    && forall j | 0 <= j < i :: FetchOne(cts[j], includeLevel, client).Success?
  }

  /** The reducer of `run`: fetch each content type in declaration order and store
      its items under its name, stopping at the first failure. */
  method Collect(cts: seq<ContentType>, includeLevel: real, client: Client) returns (r: Result<Collection, string>)
    ensures r.Success? <==> AllFetched(cts, includeLevel, client)
    ensures r.Success? ==> IsCollection(cts, includeLevel, client, r.value)
    ensures r.Failure? ==>
              exists i :: FirstFailedFetch(cts, includeLevel, client, i) && r.error == FetchOne(cts[i], includeLevel, client).error
  {
    var m: Collection := map[];
    var i := 0;
    while i < |cts|
      invariant 0 <= i <= |cts|
      invariant IsCollection(cts[..i], includeLevel, client, m)
    {
      var res := FetchOne(cts[i], includeLevel, client);
      if res.Failure? {
        assert FirstFailedFetch(cts, includeLevel, client, i) by {
          forall j | 0 <= j < i ensures FetchOne(cts[j], includeLevel, client).Success? {
            assert cts[..i][j] == cts[j];
          }
        }
        return Failure(res.error);
      }
      assert cts[..i + 1] == cts[..i] + [cts[i]];
      CollectSnoc(cts[..i], cts[i], includeLevel, client, m);
      m := m[NameKey(cts[i]) := res.value];
      i := i + 1;
    }
    assert cts[..i] == cts;
    return Success(m);
  }

  /** Storing the items of one more content type extends a collection of the
      content types before it to one that includes it. */
  lemma CollectSnoc(pre: seq<ContentType>, ct: ContentType, includeLevel: real, client: Client, m: Collection)
    requires IsCollection(pre, includeLevel, client, m)
    requires FetchOne(ct, includeLevel, client).Success?
    ensures IsCollection(pre + [ct], includeLevel, client, m[NameKey(ct) := FetchOne(ct, includeLevel, client).value])
  {
    var post := pre + [ct];
    var v := FetchOne(ct, includeLevel, client).value;
    var m' := m[NameKey(ct) := v];
    NamesSnoc(pre, ct);
    forall j | 0 <= j < |post| ensures FetchOne(post[j], includeLevel, client).Success? {
      if j < |pre| { assert post[j] == pre[j]; }
    }
    forall j | LastWithName(post, j)
      ensures m'[NameKey(post[j])] == FetchOne(post[j], includeLevel, client).value
    {
      if j < |pre| {
        assert post[j] == pre[j];
        assert post[|pre|] == ct;
        assert LastWithName(pre, j) by {
          forall l | j < l < |pre| ensures NameKey(pre[l]) != NameKey(pre[j]) {
            assert post[l] == pre[l];
          }
        }
      }
    }
  }

  lemma NamesSnoc(cts: seq<ContentType>, ct: ContentType)
    ensures Names(cts + [ct]) == Names(cts) + {NameKey(ct)}
  {
    var post := cts + [ct];
    forall k | k in Names(post) ensures k in Names(cts) + {NameKey(ct)} {
      var j :| 0 <= j < |post| && NameKey(post[j]) == k;
      if j < |cts| { assert post[j] == cts[j]; }
    }
    forall k | k in Names(cts) ensures k in Names(post) {
      var j :| 0 <= j < |cts| && NameKey(cts[j]) == k;
      assert post[j] == cts[j];
    }
    assert post[|cts|] == ct;
  }

  /** Every name in the collection belongs to a content type that no later one shares it with. */
  lemma {:induction false} LastWithNameExists(cts: seq<ContentType>, k: string)
    requires k in Names(cts)
    ensures exists i :: LastWithName(cts, i) && NameKey(cts[i]) == k
  {
    var n := |cts| - 1;
    if NameKey(cts[n]) == k {
      assert LastWithName(cts, n);
    } else {
      var pre := cts[..n];
      var j :| 0 <= j < |cts| && NameKey(cts[j]) == k;
      assert j < n && pre[j] == cts[j];
      LastWithNameExists(pre, k);
      var i :| LastWithName(pre, i) && NameKey(pre[i]) == k;
      assert pre[i] == cts[i];
      assert LastWithName(cts, i);
    }
  }

  /** The collection a run publishes is fully determined by the content types and
      the client's answers: two collections that both satisfy the description are equal. */
  lemma CollectionUnique(cts: seq<ContentType>, includeLevel: real, client: Client, m1: Collection, m2: Collection)
    requires IsCollection(cts, includeLevel, client, m1)
    requires IsCollection(cts, includeLevel, client, m2)
    ensures m1 == m2
  {
    forall k | k in m1 ensures m1[k] == m2[k] {
      LastWithNameExists(cts, k);
    }
  }

  /** A later descriptor with the same name overrides an earlier one: the items
      stored under a name are those of the last content type declared with it. */
  lemma {:induction false} LaterNameWins(cts: seq<ContentType>, includeLevel: real, client: Client, m: Collection, i: int)
    requires IsCollection(cts, includeLevel, client, m)
    requires 0 <= i < |cts|
    ensures exists j :: i <= j < |cts| && NameKey(cts[j]) == NameKey(cts[i])
                        && m[NameKey(cts[i])] == FetchOne(cts[j], includeLevel, client).value
  {
    var suffix := cts[i..];
    assert suffix[0] == cts[i];
    LastWithNameExists(suffix, NameKey(cts[i]));
    var k :| LastWithName(suffix, k) && NameKey(suffix[k]) == NameKey(cts[i]);
    assert suffix[k] == cts[i + k];
    forall j | i + k < j < |cts| ensures NameKey(cts[j]) != NameKey(cts[i + k]) {
      assert suffix[j - i] == cts[j];
    }
    assert LastWithName(cts, i + k);
  }

  /** Validation bounds what every request asks for: a content type declared with
      filters sends an integer `limit` in [1, 1000] (100 when not given). */
  lemma RequestLimitInRange(o: RawOptions, i: int)
    requires Validate(o).Success?
    requires o.contentTypes.Some? && 0 <= i < |o.contentTypes.value|
    requires o.contentTypes.value[i].filters.Some?
    ensures var c := Validate(o).value;
            var r := RequestOptions(c.contentTypes.value[i], c.includeLevel);
            && "limit" in r && r["limit"].Num? && IsInteger(r["limit"].n)
            && MinLimit as real <= r["limit"].n <= MaxLimit as real
            && (Get(o.contentTypes.value[i].filters.value, "limit").Undefined? ==> r["limit"] == Num(DefaultLimit as real))
  {
    var c := Validate(o).value;
    assert ContentTypeNormalised(o.contentTypes.value[i], c.contentTypes.value[i]);
  }
}
