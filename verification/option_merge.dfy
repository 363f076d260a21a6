/**
 * `mergeOptions(defaults, instance)`, which runs `deepMerge({}, defaults, instance)`:
 * every key of each source in turn is deleted from the target (a null
 * source value), merged key by key into the target's object (a non-array
 * object source value; a falsy target value is first replaced by `{}`), or
 * written over the target's value (anything else, arrays included).
 *
 * The keys of one source are independent of each other (each touches only
 * `target[key]`), so the order of `Object.keys` does not matter and the
 * model walks a set of keys.
 */
module OptionMerge {
  import opened JsValues

  /**
   * The value `target[key]` holds after deepMerge has processed source
   * value `s` over the target value `t` (None: absent). When the target
   * value is an array or a truthy primitive and the source value is an
   * object, the script recurses into that value: writes to a primitive are
   * silently dropped (the script is not in strict mode), so it survives.
   */
  function MergeKey(t: Option<Value>, s: Value): Option<Value>
    decreases s, 2
  {
    if s.Null? then None
    else if s.Obj? then
      if !TruthyOpt(t) then Some(Obj(MergeFields(map[], s.fields)))
      else if t.value.Obj? then Some(Obj(MergeFields(t.value.fields, s.fields)))
      else t
    else Some(s)
  }

  /** `target[key]` after one source has been merged into `target`. */
  function MergeAt(target: Fields, source: Fields, key: string): Option<Value>
    decreases Obj(source), 0
  {
    if key in source then MergeKey(Lookup(target, key), source[key]) else Lookup(target, key)
  }

  /** The target after `deepMerge(target, source)`, when that call does not throw. */
  function MergeFields(target: Fields, source: Fields): (r: Fields)
    decreases Obj(source), 1
    ensures forall k :: Lookup(r, k) == MergeAt(target, source, k)
  {
    map k | k in target.Keys + source.Keys && MergeAt(target, source, k).Some? :: MergeAt(target, source, k).value
  }

  /**
   * True when merging the object `s` into the target value `t` throws.
   * Into a truthy primitive, each nested non-array object of `s` is merged
   * into `primitive[key]`, which reads `undefined` (the write of `{}` is
   * dropped), and the first property access on `undefined` throws a
   * TypeError unless that nested object has no keys.
   */
  predicate ThrowsAt(t: Option<Value>, s: Value)
    decreases s, 2
  {
    s.Obj? && TruthyOpt(t) &&
    if t.value.Obj? then FieldsThrow(t.value.fields, s.fields)
    else !t.value.Arr? && exists k :: k in s.fields && s.fields[k].Obj? && s.fields[k].fields != map[]
  }

  /** True when `deepMerge(target, source)` throws. */
  predicate FieldsThrow(target: Fields, source: Fields)
    decreases Obj(source), 1
  {
    exists k :: k in source && ThrowsAt(Lookup(target, k), source[k])
  }

  /** True when no property anywhere in the nested objects of `bag` is null (arrays are not looked into). */
  predicate NoNulls(bag: Fields)
    decreases Obj(bag)
  {
    forall k :: k in bag ==> bag[k] != Null && (bag[k].Obj? ==> NoNulls(bag[k].fields))
  }

  /** The merge in `mergeOptions`: the defaults into a fresh `{}`, then the instance options. */
  function MergedOptions(defaults: Fields, instance: Fields): (r: Completion<Fields>)
    ensures r.Throw? <==> FieldsThrow(MergeFields(map[], defaults), instance)
    ensures r.Normal? ==> forall k :: Lookup(instance, k) == Some(Null) ==> Lookup(r.value, k) == None
    ensures r.Normal? ==> forall k :: k in r.value ==> k in defaults || k in instance
  {
    var base := MergeFields(map[], defaults);
    if FieldsThrow(base, instance) then Throw
    else
      var merged := MergeFields(base, instance);
      assert forall k :: Lookup(instance, k) == Some(Null) ==> MergeAt(base, instance, k) == None;
      Normal(merged)
  }

  /**
   * Merging an object whose values are all non-objects into a truthy
   * primitive: which of its keys make `deepMerge` throw.
   */
  method AnyNestedObject(source: Fields) returns (found: bool)
    ensures found <==> exists k :: k in source && source[k].Obj? && source[k].fields != map[]
  {
    var todo := source.Keys;
    found := false;
    while todo != {}
      invariant todo <= source.Keys
      invariant found <==> exists k :: k in source.Keys - todo && source[k].Obj? && source[k].fields != map[]
      decreases todo
    {
      var k :| k in todo;
      if source[k].Obj? && source[k].fields != map[] {
        found := true;
      }
      todo := todo - {k};
    }
  }

  /**
   * `deepMerge(target, source)` for one source: updates the target key by
   * key and returns it, or throws.
   */
  method DeepMerge(target: Fields, source: Fields) returns (r: Completion<Fields>)
    ensures r.Throw? <==> FieldsThrow(target, source)
    ensures r.Normal? ==> r.value == MergeFields(target, source)
    decreases Obj(source)
  {
    var t := target;
    var todo := source.Keys;
    while todo != {}
      invariant todo <= source.Keys
      invariant forall k :: k in source && k !in todo ==> !ThrowsAt(Lookup(target, k), source[k])
      invariant forall k :: Lookup(t, k) == if k in todo then Lookup(target, k) else MergeAt(target, source, k)
      decreases todo
    {
      var k :| k in todo;
      var s := source[k];
      var current := Lookup(t, k);
      assert current == Lookup(target, k);
      if s.Null? {
        t := t - {k};
      } else if s.Obj? {
        if !TruthyOpt(current) {
          var sub := DeepMerge(map[], s.fields);
          t := t[k := Obj(sub.value)];
        } else if current.value.Obj? {
          var sub := DeepMerge(current.value.fields, s.fields);
          if sub.Throw? {
            return Throw;
          }
          t := t[k := Obj(sub.value)];
        } else if !current.value.Arr? {
          var throws := AnyNestedObject(s.fields);
          if throws {
            return Throw;
          }
        }
      } else {
        t := t[k := s];
      }
      todo := todo - {k};
    }
    LookupExtensional(t, MergeFields(target, source));
    r := Normal(t);
  }

  /** `mergeOptions(defaults, instance)`: `deepMerge({}, defaults, instance)`. */
  method MergeOptions(defaults: Fields, instance: Fields) returns (r: Completion<Fields>)
    ensures r == MergedOptions(defaults, instance)
  {
    var base := DeepMerge(map[], defaults);
    r := DeepMerge(base.value, instance);
  }

  /** Merging never brings a null into a target that has none. */
  lemma {:induction false} MergeKeepsNoNulls(target: Fields, source: Fields)
    requires NoNulls(target)
    ensures NoNulls(MergeFields(target, source))
    decreases Obj(source)
  {
    var r := MergeFields(target, source);
    forall k | k in r
      ensures r[k] != Null && (r[k].Obj? ==> NoNulls(r[k].fields))
    {
      assert Lookup(r, k) == MergeAt(target, source, k);
      if k in source && source[k].Obj? {
        var current := Lookup(target, k);
        if !TruthyOpt(current) {
          MergeKeepsNoNulls(map[], source[k].fields);
        } else if current.value.Obj? {
          MergeKeepsNoNulls(current.value.fields, source[k].fields);
        }
      }
    }
  }

  /** No null survives `mergeOptions`, at any depth of nested objects. */
  lemma MergedOptionsHaveNoNulls(defaults: Fields, instance: Fields)
    ensures MergedOptions(defaults, instance).Normal? ==> NoNulls(MergedOptions(defaults, instance).value)
  {
    assert NoNulls(map[]);
    MergeKeepsNoNulls(map[], defaults);
    MergeKeepsNoNulls(MergeFields(map[], defaults), instance);
  }

  /** Merging a null-free bag into a fresh `{}` copies it exactly. */
  lemma {:induction false} CopyIntoEmpty(source: Fields)
    requires NoNulls(source)
    ensures MergeFields(map[], source) == source
    decreases Obj(source)
  {
    var r := MergeFields(map[], source);
    forall k
      ensures Lookup(r, k) == Lookup(source, k)
    {
      assert Lookup(r, k) == MergeAt(map[], source, k);
      if k in source {
        assert source[k] != Null;
        if source[k].Obj? {
          CopyIntoEmpty(source[k].fields);
          assert Obj(source[k].fields) == source[k];
        }
      } else {
        assert Lookup(map[], k) == None;
      }
    }
    LookupExtensional(r, source);
  }

  /**
   * What `mergeOptions` does at one key, for null-free defaults: a key only
   * in the defaults keeps its default; a null instance value deletes it; any
   * other non-object instance value (false, 0, "", an array) replaces it; an
   * instance object is merged into a default object, or into a fresh `{}`
   * over a falsy default, and leaves a truthy non-object default as it was.
   */
  lemma MergedOptionsAt(defaults: Fields, instance: Fields, key: string)
    requires NoNulls(defaults)
    requires MergedOptions(defaults, instance).Normal?
    ensures var r := MergedOptions(defaults, instance).value;
      && (key in defaults && key !in instance ==> key in r && r[key] == defaults[key])
      && (key !in defaults && key !in instance ==> key !in r)
      && (key in instance && instance[key] == Null ==> key !in r)
      && (key in instance && instance[key] != Null && !instance[key].Obj? ==> key in r && r[key] == instance[key])
      && (key in instance && instance[key].Obj? && key in defaults && defaults[key].Obj? ==>
            key in r && r[key] == Obj(MergeFields(defaults[key].fields, instance[key].fields)))
      && (key in instance && instance[key].Obj? && !TruthyOpt(Lookup(defaults, key)) ==>
            key in r && r[key] == Obj(MergeFields(map[], instance[key].fields)))
      && (key in instance && instance[key].Obj? && key in defaults && Truthy(defaults[key]) && !defaults[key].Obj? ==>
            key in r && r[key] == defaults[key])
  {
    CopyIntoEmpty(defaults);
    assert MergedOptions(defaults, instance) == Normal(MergeFields(defaults, instance));
    var r := MergedOptions(defaults, instance).value;
    assert Lookup(r, key) == MergeAt(defaults, instance, key);
  }

  /**
   * What `mergeOptions` does at a key the instance gives a non-object value,
   * whatever the defaults: null deletes the key, anything else replaces it.
   */
  lemma MergedOptionsOverwrite(defaults: Fields, instance: Fields, key: string)
    requires MergedOptions(defaults, instance).Normal?
    requires key in instance && !instance[key].Obj?
    ensures Lookup(MergedOptions(defaults, instance).value, key) == if instance[key].Null? then None else Some(instance[key])
  {
    assert MergedOptions(defaults, instance) == Normal(MergeFields(MergeFields(map[], defaults), instance));
    var r := MergedOptions(defaults, instance).value;
    assert Lookup(r, key) == MergeAt(MergeFields(map[], defaults), instance, key);
  }

  /** A source whose object values hold no objects themselves never makes deepMerge throw. */
  lemma ShallowSourceNeverThrows(target: Fields, source: Fields)
    requires forall k :: k in source && source[k].Obj? ==>
               forall j :: j in source[k].fields ==> !source[k].fields[j].Obj?
    ensures !FieldsThrow(target, source)
  {
    forall k | k in source
      ensures !ThrowsAt(Lookup(target, k), source[k])
    {
      var t := Lookup(target, k);
      if source[k].Obj? && TruthyOpt(t) && t.value.Obj? {
        var inner := source[k].fields;
        forall j | j in inner ensures !ThrowsAt(Lookup(t.value.fields, j), inner[j]) {
        }
      }
    }
  }

  // ---------------------------------------------------------------------------
  // Inherited properties of the target (lines 81-82)
  // ---------------------------------------------------------------------------

  /**
   * `target[key]` as JavaScript reads it on a plain object with own fields
   * `own` whose prototype, `Object.prototype`, holds `proto`: an own field,
   * else the prototype itself at "__proto__", else an inherited field.
   */
  function ReadInherited(own: Fields, proto: Fields, key: string): Option<Value> {
    if key in own then Some(own[key])
    else if key == "__proto__" then Some(Obj(proto))
    else Lookup(proto, key)
  }

  /**
   * Lines 80-82 as written, for an object source value `s` at a key the
   * target does not own: `!target[key]` and the recursion read through the
   * prototype. At "__proto__" they find `Object.prototype` itself, which is
   * truthy, so `s` is merged into the prototype that every plain object
   * shares; an inherited object is merged into in the same way. The result
   * is the prototype afterwards.
   */
  function PrototypeAfterNestedMerge(own: Fields, proto: Fields, key: string, s: Fields): (p: Fields)
    requires key !in own
    ensures key == "__proto__" ==>
      forall k :: k in s && !s[k].Null? && !s[k].Obj? ==> Lookup(p, k) == Some(s[k])
    ensures key != "__proto__" && !(key in proto && proto[key].Obj?) ==> p == proto
  {
    var inherited := ReadInherited(own, proto, key);
    if key == "__proto__" then
      assert forall k :: k in s && !s[k].Null? && !s[k].Obj? ==> MergeKey(Lookup(proto, k), s[k]) == Some(s[k]);
      MergeFields(proto, s)
    else if inherited.Some? && inherited.value.Obj? then proto[key := Obj(MergeFields(inherited.value.fields, s))]
    else proto
  }

  /**
   * `data-breakpoints='{"__proto__":{"slidesPerView":9}}'` merged, as
   * written, into breakpoints without an own "__proto__": afterwards a
   * fresh `{}`, such as the option bag of the next container, reads
   * `slidesPerView` as 9 although nothing set it.
   */
  lemma PrototypePollution(breakpoints: Fields)
    requires "__proto__" !in breakpoints
    ensures var p := PrototypeAfterNestedMerge(breakpoints, map[], "__proto__", map["slidesPerView" := Num(9.0)]);
      ReadInherited(map[], p, "slidesPerView") == Some(Num(9.0))
  {
  }

  /**
   * The same input under `MergeFields`, which reads and writes own fields
   * only: the "__proto__" object becomes an own entry of the merged
   * breakpoints, every other key of them is as before, and no other object
   * is touched.
   */
  lemma PrototypeKeyStaysOwn(breakpoints: Fields)
    requires "__proto__" !in breakpoints
    ensures var polluting := map["slidesPerView" := Num(9.0)];
      var r := MergeFields(breakpoints, map["__proto__" := Obj(polluting)]);
      && Lookup(r, "__proto__") == Some(Obj(polluting))
      && forall k :: k != "__proto__" ==> Lookup(r, k) == Lookup(breakpoints, k)
  {
    var polluting := map["slidesPerView" := Num(9.0)];
    var source := map["__proto__" := Obj(polluting)];
    assert NoNulls(polluting);
    CopyIntoEmpty(polluting);
    assert MergeKey(None, Obj(polluting)) == Some(Obj(MergeFields(map[], polluting)));
    assert Lookup(MergeFields(breakpoints, source), "__proto__") == MergeKey(None, Obj(polluting));
  }
}
