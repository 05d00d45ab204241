/** The single-template pages of the `before-loader-process` hook: which template
    file belongs to which content type, and the `multi` list that compiles one
    output per item. */
module Templates {
  import opened Results
  import opened Values
  import opened Options

  /** One element of reshape's `multi` option: the locals to render with and the
      output name. */
  datatype MultiEntry = MultiEntry(locals: map<string, Value>, name: Value)

  predicate OccursAt(s: string, pat: string, j: int) {
    0 <= j && j + |pat| <= |s| && s[j..j + |pat|] == pat
  }

  /** `s.indexOf(pat, from)`: the first position at or after `from` where `pat` occurs in `s`. */
  function IndexFrom(s: string, pat: string, from: nat): (r: Option<nat>)
    ensures r.Some? ==> from <= r.value && OccursAt(s, pat, r.value)
    ensures r.Some? ==> forall j | from <= j < r.value :: !OccursAt(s, pat, j)
    ensures r.None? ==> forall j | from <= j :: !OccursAt(s, pat, j)
    decreases |s| - from
  {
    if from + |pat| > |s| then None
    else if s[from..from + |pat|] == pat then Some(from)
    else IndexFrom(s, pat, from + 1)
  }

  /** `s.indexOf(pat)`. */
  function IndexOf(s: string, pat: string): (r: Option<nat>)
    ensures r.Some? ==> OccursAt(s, pat, r.value)
    ensures r.Some? ==> forall j | 0 <= j < r.value :: !OccursAt(s, pat, j)
    ensures r.None? ==> forall j :: !OccursAt(s, pat, j)
  {
    IndexFrom(s, pat, 0)
  }

  /** `s.replace(pat, rep)` with a string pattern: only the first occurrence is
      replaced, wherever it is. A string that starts with `pat` loses that prefix;
      one that does not contain it comes back unchanged. */
  function ReplaceFirst(s: string, pat: string, rep: string): (r: string)
    ensures pat <= s ==> r == rep + s[|pat|..]
    ensures (forall j :: !OccursAt(s, pat, j)) ==> r == s
    ensures forall i | OccursAt(s, pat, i) && (forall j | 0 <= j < i :: !OccursAt(s, pat, j)) ::
              r == s[..i] + rep + s[i + |pat|..]
    // A convenience for callers; it also follows from the clause above.
    ensures IndexOf(s, pat).Some? ==> |r| == |s| - |pat| + |rep|
  {
    match IndexOf(s, pat)
    case None => s
    case Some(i) =>
      assert pat <= s ==> i == 0 by {
        if pat <= s { assert OccursAt(s, pat, 0); }
      }
      s[..i] + rep + s[i + |pat|..]
  }

  /** `ctx.resourcePath.replace(`${context}/`, '')`: the path of the file being
      compiled, relative to the project root. */
  function RelativePath(resourcePath: string, context: string): (p: string)
    ensures context + "/" <= resourcePath ==> p == resourcePath[|context| + 1..]
    ensures forall i | OccursAt(resourcePath, context + "/", i)
                       && (forall j | 0 <= j < i :: !OccursAt(resourcePath, context + "/", j)) ::
              p == resourcePath[..i] + resourcePath[i + |context| + 1..]
    ensures (forall j :: !OccursAt(resourcePath, context + "/", j)) ==> p == resourcePath
  {
    ReplaceFirst(resourcePath, context + "/", "")
  }

  /** A template, when given, needs a non-empty `path` and an `output` function. */
  predicate TemplateOk(ct: ContentType) {
    ct.template.None? || (PresentNonEmpty(ct.template.value.path) && ct.template.value.output.Some?)
  }

  function TemplateError(ct: ContentType): string
    requires !TemplateOk(ct)
  {
    if !PresentNonEmpty(ct.template.value.path) then NameKey(ct) + ".template must have a \"path\" property"
    else NameKey(ct) + ".template must have an \"output\" function"
  }

  predicate Templated(ct: ContentType) {
    ct.template.Some? && ct.template.value.path.Some?
  }

  ghost function TemplatePaths(cts: seq<ContentType>): set<string> {
    set i | 0 <= i < |cts| && Templated(cts[i]) :: cts[i].template.value.path.value
  }

  /** `pairs` maps each template path to the position of the last content type
      declaring it, and that content type's template is complete. */
  ghost predicate IndexesTemplates(cts: seq<ContentType>, pairs: map<string, nat>) {
    && pairs.Keys == TemplatePaths(cts)
    && forall p | p in pairs ::
         && pairs[p] < |cts|
         && Templated(cts[pairs[p]])
         && TemplateOk(cts[pairs[p]])
         && cts[pairs[p]].template.value.path.value == p
         && forall j | pairs[p] < j < |cts| && Templated(cts[j]) :: cts[j].template.value.path.value != p
  }

  /** The `templatePairs` reduce: each content type with a template, in
      declaration order, records its position under its path; the first
      incomplete template stops it with an error naming the content type. */
  method IndexTemplates(cts: seq<ContentType>) returns (r: Result<map<string, nat>, string>)
    ensures r.Success? <==> forall i | 0 <= i < |cts| :: TemplateOk(cts[i])
    ensures r.Success? ==> IndexesTemplates(cts, r.value)
    ensures r.Failure? ==>
              exists i | 0 <= i < |cts| ::
                && !TemplateOk(cts[i])
                && (forall j | 0 <= j < i :: TemplateOk(cts[j]))
                && r.error == TemplateError(cts[i])
  {
    var pairs: map<string, nat> := map[];
    var i := 0;
    while i < |cts|
      invariant 0 <= i <= |cts|
      invariant forall j | 0 <= j < i :: TemplateOk(cts[j])
      invariant IndexesTemplates(cts[..i], pairs)
    {
      var ct := cts[i];
      if !TemplateOk(ct) {
        return Failure(TemplateError(ct));
      }
      assert cts[..i + 1] == cts[..i] + [ct];
      IndexSnoc(cts[..i], ct, pairs);
      if ct.template.Some? {
        pairs := pairs[ct.template.value.path.value := i];
      }
      i := i + 1;
    }
    assert cts[..i] == cts;
    return Success(pairs);
  }

  /** Recording one more content type keeps the index correct. */
  lemma IndexSnoc(pre: seq<ContentType>, ct: ContentType, pairs: map<string, nat>)
    requires IndexesTemplates(pre, pairs)
    requires TemplateOk(ct)
    ensures IndexesTemplates(pre + [ct], if ct.template.Some? then pairs[ct.template.value.path.value := |pre|] else pairs)
  {
    var post := pre + [ct];
    var pairs' := if ct.template.Some? then pairs[ct.template.value.path.value := |pre|] else pairs;
    assert post[|pre|] == ct;
    assert TemplatePaths(post) == TemplatePaths(pre) + (if ct.template.Some? then {ct.template.value.path.value} else {}) by {
      forall p | p in TemplatePaths(post)
        ensures p in TemplatePaths(pre) + (if ct.template.Some? then {ct.template.value.path.value} else {})
      {
        var j :| 0 <= j < |post| && Templated(post[j]) && post[j].template.value.path.value == p;
        if j < |pre| { assert post[j] == pre[j]; }
      }
      forall p | p in TemplatePaths(pre) ensures p in TemplatePaths(post) {
        var j :| 0 <= j < |pre| && Templated(pre[j]) && pre[j].template.value.path.value == p;
        assert post[j] == pre[j];
      }
    }
    forall p | p in pairs'
      ensures pairs'[p] < |post| && Templated(post[pairs'[p]]) && TemplateOk(post[pairs'[p]])
      ensures post[pairs'[p]].template.value.path.value == p
      ensures forall j | pairs'[p] < j < |post| && Templated(post[j]) :: post[j].template.value.path.value != p
    {
      if ct.template.Some? && p == ct.template.value.path.value {
      } else {
        assert post[pairs[p]] == pre[pairs[p]];
        forall j | pairs[p] < j < |pre| ensures post[j] == pre[j] { }
      }
    }
  }

  /** `pairs` was built from `cts` and `p` is one of its paths: the content type
      it names has a complete template. */
  ghost predicate PairsHit(cts: seq<ContentType>, pairs: map<string, nat>, p: string) {
    p in pairs && pairs[p] < |cts| && TemplateOk(cts[pairs[p]]) && cts[pairs[p]].template.Some?
  }

  function EntryFor(locals: map<string, Value>, output: UserFn, item: Value): Result<MultiEntry, string> {
    var name :- output(item);
    Success(MultiEntry(locals["item" := item], name))
  }

  /** `entries` has one element per item, in order: element `i` renders with the
      locals plus `item` bound to the i-th item, and is named by `output` of it. */
  ghost predicate IsFanOut(items: seq<Value>, output: UserFn, locals: map<string, Value>, entries: seq<MultiEntry>) {
    && |entries| == |items|
    && forall i | 0 <= i < |items| ::
         && output(items[i]).Success?
         && entries[i].name == output(items[i]).value
         && entries[i].locals.Keys == locals.Keys + {"item"}
         && entries[i].locals["item"] == items[i]
         && forall k | k in locals && k != "item" :: entries[i].locals[k] == locals[k]
  }

  /** `data.map(d => ({ locals: Object.assign({}, addDataTo, { item: d }), name: output(d) }))`:
      a fresh locals object per item, so no item sees another's; the first
      `output` call that throws aborts the whole list. */
  function MultiEntries(items: seq<Value>, output: UserFn, locals: map<string, Value>): (r: Result<seq<MultiEntry>, string>)
    ensures r.Success? <==> forall i | 0 <= i < |items| :: output(items[i]).Success?
    ensures r.Success? ==> IsFanOut(items, output, locals, r.value)
    ensures r.Failure? ==> exists i :: FirstFailureAt(output, items, i) && r.error == output(items[i]).error
  {
    var entry := (item: Value) => EntryFor(locals, output, item);
    var r := MapAll(entry, items);
    assert forall i | 0 <= i < |items| :: entry(items[i]).Success? == output(items[i]).Success?;
    assert forall i | FirstFailureAt(entry, items, i) :: FirstFailureAt(output, items, i);
    r
  }

  /** `this.addDataTo.contentful[conf.name]`, which must be an array to be mapped. */
  function ItemsOf(ct: ContentType, addDataTo: map<string, Value>): (r: Result<seq<Value>, string>)
    ensures r.Success? <==> Get(addDataTo, "contentful").Obj? && Get(Get(addDataTo, "contentful").props, NameKey(ct)).Arr?
    ensures r.Success? ==> r.value == Get(Get(addDataTo, "contentful").props, NameKey(ct)).elems
  {
    var data :- Member(Get(addDataTo, "contentful"), NameKey(ct));
    if data.Arr? then Success(data.elems) else Failure("data.map is not a function")
  }

  /** The `multi` list for the file at relative path `p`: none when `p` is not a
      template path, otherwise one entry per item of the matching content type. */
  function FanOut(cts: seq<ContentType>, pairs: map<string, nat>, addDataTo: map<string, Value>, p: string): (r: Result<Option<seq<MultiEntry>>, string>)
    requires p in pairs ==> PairsHit(cts, pairs, p)
    ensures p !in pairs ==> r == Success(None)
    ensures p in pairs ==>
              var conf := cts[pairs[p]];
              var output := conf.template.value.output.value;
              && (r.Success? <==> ItemsOf(conf, addDataTo).Success?
                                  && forall i | 0 <= i < |ItemsOf(conf, addDataTo).value| ::
                                       output(ItemsOf(conf, addDataTo).value[i]).Success?)
              && (r.Success? ==> r.value.Some? && IsFanOut(ItemsOf(conf, addDataTo).value, output, addDataTo, r.value.value))
  {
    if p !in pairs then Success(None)
    else
      var conf := cts[pairs[p]];
      var items :- ItemsOf(conf, addDataTo);
      var entries :- MultiEntries(items, conf.template.value.output.value, addDataTo);
      Success(Some(entries))
  }
}
