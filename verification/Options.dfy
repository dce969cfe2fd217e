/** Runtime options: the orchestrator's deep merge of a request onto a target's defaults, the
    adapter's second and shallow merge, and the worker key read from the result. */
module Options {
  import opened TaskTypes

  /** The keys an override really sets: a null override says nothing. */
  function Given(override: Json): (keys: set<string>)
    requires override.JObj?
  {
    set k | k in override.fields && override.fields[k] != JNull
  }

  /** The deep merge. Two objects under one key are merged in turn; any other override wins. */
  function Merged(base: Json, override: Json): (r: Json)
    requires base.JObj? && override.JObj?
    ensures r.JObj?
    decreases override
  {
    JObj(map k | k in base.fields.Keys + Given(override) ::
           if k !in Given(override) then base.fields[k]
           else if k in base.fields && base.fields[k].JObj? && override.fields[k].JObj?
           then Merged(base.fields[k], override.fields[k])
           else override.fields[k])
  }

  /** The merge key by key: a missing or null override leaves the default, two maps merge, and anything else,
      an empty map over a scalar included, replaces it. */
  lemma MergedByKey(base: Json, override: Json, k: string)
    requires base.JObj? && override.JObj?
    ensures var b, o, r := base.fields, override.fields, Merged(base, override).fields;
            && (k !in o || o[k] == JNull ==> (k in r <==> k in b) && (k in b ==> r[k] == b[k]))
            && (k in o && o[k] != JNull ==> k in r)
            && (k in o && o[k].JObj? && k in b && b[k].JObj? ==> r[k] == Merged(b[k], o[k]))
            && (k in o && o[k] != JNull && !(o[k].JObj? && k in b && b[k].JObj?) ==> r[k] == o[k])
  {
  }

  const Empty := JObj(map[])

  /** Merging nothing copies the base, nested maps included. */
  lemma MergeNothing(base: Json)
    requires base.JObj?
    ensures Merged(base, Empty) == base
  {
    assert Given(Empty) == {};
    assert Merged(base, Empty).fields == base.fields;
  }

  /** Builds the merge in place, key by key. `None` stands for the nil override. */
  method MergeMaps(base: Json, override: Option<Json>) returns (out: Json)
    requires base.JObj? && (override.Some? ==> override.value.JObj?)
    ensures out.JObj?
    ensures out == Merged(base, if override.Some? then override.value else Empty)
    decreases override.Some?, if override.Some? then override.value else JNull, base
  {
    var fields: JsonMap := map[];
    var todo := base.fields.Keys;
    while todo != {}
      invariant todo <= base.fields.Keys
      invariant fields.Keys == base.fields.Keys - todo
      invariant forall k :: k in fields ==> fields[k] == base.fields[k]
    {
      var key :| key in todo;
      todo := todo - {key};
      var value := base.fields[key];
      if value.JObj? {
        var copy := MergeMaps(value, None);
        MergeNothing(value);
        fields := fields[key := copy];
      } else {
        fields := fields[key := value];
      }
    }
    assert fields == base.fields;
    if override == None {
      MergeNothing(base);
      return JObj(fields);
    }
    var o := override.value;
    todo := o.fields.Keys;
    while todo != {}
      invariant todo <= o.fields.Keys
      invariant fields.Keys == base.fields.Keys + (Given(o) - todo)
      invariant forall k :: k in fields ==>
        fields[k] == if k in Given(o) && k !in todo then Merged(base, o).fields[k] else base.fields[k]
    {
      var key :| key in todo;
      todo := todo - {key};
      var value := o.fields[key];
      if value == JNull {
        continue;
      }
      if key in fields && fields[key].JObj? && value.JObj? {
        var nested := MergeMaps(fields[key], Some(value));
        fields := fields[key := nested];
      } else {
        fields := fields[key := value];
      }
    }
    out := JObj(fields);
    assert fields == Merged(base, o).fields;
  }

  lemma {:induction false} MergeSelf(options: Json)
    requires options.JObj?
    ensures Merged(options, options) == options
    decreases options
  {
    forall k | k in options.fields && options.fields[k].JObj?
      ensures Merged(options.fields[k], options.fields[k]) == options.fields[k]
    {
      MergeSelf(options.fields[k]);
    }
    assert Merged(options, options).fields == options.fields;
  }

  /** Applying the same request twice changes nothing, at any nesting depth. */
  lemma {:induction false} MergeIdempotent(base: Json, override: Json)
    requires base.JObj? && override.JObj?
    ensures Merged(Merged(base, override), override) == Merged(base, override)
    decreases override
  {
    var once := Merged(base, override);
    forall k | k in Given(override) && override.fields[k].JObj?
      ensures once.fields[k].JObj?
      ensures Merged(once.fields[k], override.fields[k]) == once.fields[k]
    {
      if k in base.fields && base.fields[k].JObj? {
        MergeIdempotent(base.fields[k], override.fields[k]);
      } else {
        MergeSelf(override.fields[k]);
      }
    }
    assert Merged(once, override).fields == once.fields;
  }

  // ---- What the merge means, path by path ----

  /** The value found by walking `path` through nested objects. */
  function At(j: Json, path: seq<string>): Option<Json>
    decreases path
  {
    if path == [] then Some(j)
    else if j.JObj? && path[0] in j.fields then At(j.fields[path[0]], path[1..])
    else None
  }

  /** A value that is neither null nor an object. */
  predicate IsLeaf(j: Option<Json>) {
    j.Some? && !j.value.JObj? && j.value != JNull
  }

  /** True when the override says nothing about `path` or anything it passes through. */
  predicate Silent(override: Json, path: seq<string>)
    decreases path
  {
    path != [] && override.JObj?
    && (path[0] !in Given(override) || Silent(override.fields[path[0]], path[1..]))
  }

  /** Every leaf of the request reaches the merged options, however deep. */
  lemma {:induction false} RequestLeafWins(base: Json, override: Json, path: seq<string>)
    requires base.JObj? && override.JObj? && IsLeaf(At(override, path))
    ensures At(Merged(base, override), path) == At(override, path)
    decreases path
  {
    var k := path[0];
    assert At(override, path) == At(override.fields[k], path[1..]);
    if k in base.fields && base.fields[k].JObj? && override.fields[k].JObj? {
      RequestLeafWins(base.fields[k], override.fields[k], path[1..]);
    }
  }

  /** A default leaf survives exactly where the request is silent or repeats it. */
  lemma {:induction false} DefaultLeafSurvives(base: Json, override: Json, path: seq<string>)
    requires base.JObj? && override.JObj? && IsLeaf(At(base, path))
    ensures At(Merged(base, override), path) == At(base, path)
            <==> Silent(override, path) || At(override, path) == At(base, path)
    decreases path
  {
    var k := path[0];
    assert At(base, path) == At(base.fields[k], path[1..]);
    assert At(override, path) == if k in override.fields then At(override.fields[k], path[1..]) else None;
    if k in Given(override) {
      assert Silent(override, path) == Silent(override.fields[k], path[1..]);
      if base.fields[k].JObj? && override.fields[k].JObj? {
        DefaultLeafSurvives(base.fields[k], override.fields[k], path[1..]);
      }
    }
  }

  // ---- The adapter's shallow merge ----

  function AdapterMerged(base: Json, override: Json): (r: Json)
    requires base.JObj? && override.JObj?
    ensures r.JObj?
  {
    JObj(base.fields + override.fields)
  }

  /** Copies the defaults, then lays each override key over them. */
  method MergeAdapterOptions(base: Json, override: Json) returns (out: Json)
    requires base.JObj? && override.JObj?
    ensures out == AdapterMerged(base, override)
    ensures out.JObj? && out.fields.Keys == base.fields.Keys + override.fields.Keys
    ensures forall k :: k in out.fields ==> out.fields[k] == if k in override.fields then override.fields[k] else base.fields[k]
  {
    var fields := base.fields;
    var todo := override.fields.Keys;
    while todo != {}
      invariant todo <= override.fields.Keys
      invariant fields.Keys == base.fields.Keys + (override.fields.Keys - todo)
      invariant forall k :: k in fields ==>
        fields[k] == if k in override.fields && k !in todo then override.fields[k] else base.fields[k]
    {
      var key :| key in todo;
      todo := todo - {key};
      fields := fields[key := override.fields[key]];
    }
    out := JObj(fields);
    assert fields == base.fields + override.fields;
  }

  /** Laying options over defaults is the identity exactly when no default key is missing. */
  lemma ShallowMergeIdentity(defaults: Json, options: Json)
    requires defaults.JObj? && options.JObj?
    ensures AdapterMerged(defaults, options) == options <==> defaults.fields.Keys <= options.fields.Keys
  {
    if defaults.fields.Keys <= options.fields.Keys {
      assert defaults.fields + options.fields == options.fields;
    } else {
      assert (defaults.fields + options.fields).Keys != options.fields.Keys;
    }
  }

  /** Merging options back onto the defaults they were built from gives them again. */
  lemma {:induction false} MergeOntoExtension(defaults: Json, request: Json)
    requires defaults.JObj? && request.JObj?
    ensures Merged(defaults, Merged(defaults, request)) == Merged(defaults, request)
    decreases request
  {
    var once := Merged(defaults, request);
    forall k | k in Given(once) && k in defaults.fields && defaults.fields[k].JObj? && once.fields[k].JObj?
      ensures Merged(defaults.fields[k], once.fields[k]) == once.fields[k]
    {
      if k !in Given(request) {
        MergeSelf(defaults.fields[k]);
      } else {
        MergeOntoExtension(defaults.fields[k], request.fields[k]);
      }
    }
    assert Merged(defaults, once).fields == once.fields;
  }
}
