/**
 * Function-level enum attributes and the attribute policy of the LLVM IR
 * generator function, stated on the set of attributes a declaration carries.
 *
 * `AttributesAfterSet` and `AttributesAfterRemove` follow the loops of
 * `set_attributes` and `remove_attributes` one list element at a time; the
 * lemmas below give their net effect in closed form.
 */
module Attributes {
  import opened Wrappers

  /**
   * The attributes the function context names. The source enum has further
   * variants; `Other(kind)` stands for any of them: they are plain additions.
   */
  datatype Attribute =
    | AlwaysInline
    | NoInline
    | NoFree
    | OptimizeForSize
    | MinSize
    | MustProgress
    | NoUnwind
    | WillReturn
    | Memory
    | Other(kind: nat)

  /** The middle-end size optimization level: none, moderate, maximum. */
  datatype SizeLevel = Zero | S | Z

  /** The two attributes that a forced request keeps mutually exclusive. */
  const Inlining: set<Attribute> := {AlwaysInline, NoInline}

  /** The panic message of a `Memory` request. */
  const MemoryUnimplemented: string := "not implemented: `memory` attributes are not implemented"

  /** The set of attributes a list mentions. */
  function Listed(attributes: seq<Attribute>): set<Attribute>
  {
    set a | a in attributes
  }

  /** One iteration of the `set_attributes` loop, for an attribute other than `Memory`. */
  function Apply(s: set<Attribute>, a: Attribute, force: bool): set<Attribute>
    requires a != Memory
  {
    if force && a == AlwaysInline then s - {NoInline} + {AlwaysInline}
    else if force && a == NoInline then s - {AlwaysInline} + {NoInline}
    else s + {a}
  }

  /**
   * The attribute set after `set_attributes(attributes, force)` on a declaration
   * carrying `s`, or the panic raised on the first `Memory` in the list.
   */
  function AttributesAfterSet(s: set<Attribute>, attributes: seq<Attribute>, force: bool): Outcome<set<Attribute>>
    decreases |attributes|
  {
    if attributes == [] then Done(s)
    else
      match AttributesAfterSet(s, attributes[..|attributes| - 1], force)
      case Panicked(m) => Panicked(m)
      case Done(t) =>
        var a := attributes[|attributes| - 1];
        if a == Memory then Panicked(MemoryUnimplemented) else Done(Apply(t, a, force))
  }

  /**
   * The attribute set after `remove_attributes(attributes)`: each listed
   * attribute is removed only if it is present at that point.
   */
  function AttributesAfterRemove(s: set<Attribute>, attributes: seq<Attribute>): set<Attribute>
    decreases |attributes|
  {
    if attributes == [] then s
    else
      var t := AttributesAfterRemove(s, attributes[..|attributes| - 1]);
      var a := attributes[|attributes| - 1];
      if a in t then t - {a} else t
  }

  /** Whether a list names neither `AlwaysInline` nor `NoInline`. */
  predicate FreeOfInlining(attributes: seq<Attribute>)
  {
    forall i :: 0 <= i < |attributes| ==> attributes[i] !in Inlining
  }

  /**
   * The last of `AlwaysInline` and `NoInline` in list order, if the list holds
   * either: under `force` it decides which of the two survives.
   */
  function LastInlining(attributes: seq<Attribute>): (r: Option<Attribute>)
    decreases |attributes|
    ensures r.None? <==> FreeOfInlining(attributes)
    ensures r.Some? ==> r.value in Inlining
    ensures r.Some? ==> exists i :: 0 <= i < |attributes| && attributes[i] == r.value
                                    && FreeOfInlining(attributes[i + 1..])
  {
    if attributes == [] then None
    else
      var n := |attributes| - 1;
      var prefix := attributes[..n];
      var a := attributes[n];
      if a in Inlining then
        assert attributes[n + 1..] == [];
        Some(a)
      else
        var r := LastInlining(prefix);
        assert FreeOfInlining(attributes) <==> FreeOfInlining(prefix) by {
          assert forall i :: 0 <= i < n ==> attributes[i] == prefix[i];
        }
        assert r.Some? ==> exists i :: 0 <= i < |attributes| && attributes[i] == r.value
                                      && FreeOfInlining(attributes[i + 1..]) by {
          if r.Some? {
            var i :| 0 <= i < |prefix| && prefix[i] == r.value && FreeOfInlining(prefix[i + 1..]);
            assert attributes[i + 1..] == prefix[i + 1..] + [a];
          }
        }
        r
  }

  lemma ListedSnoc(prefix: seq<Attribute>, a: Attribute)
    ensures Listed(prefix + [a]) == Listed(prefix) + {a}
  {
    assert forall x :: x in prefix + [a] <==> x in prefix || x == a;
  }

  /** `set_attributes` panics exactly when the list holds `Memory`, with the fixed message. */
  lemma {:induction false} SetPanicsIffMemory(s: set<Attribute>, attributes: seq<Attribute>, force: bool)
    ensures AttributesAfterSet(s, attributes, force).Panicked? <==> Memory in attributes
    ensures AttributesAfterSet(s, attributes, force).Panicked? ==>
              AttributesAfterSet(s, attributes, force).message == MemoryUnimplemented
    decreases |attributes|
  {
    if attributes != [] {
      var prefix := attributes[..|attributes| - 1];
      SetPanicsIffMemory(s, prefix, force);
      assert attributes == prefix + [attributes[|attributes| - 1]];
    }
  }

  /**
   * Net effect of `set_attributes` on a `Memory`-free list: every listed
   * attribute outside the inlining pair is added; the inlining pair becomes
   * the union with the listed ones without `force`, and with `force` it
   * becomes just the last listed one of the pair (unchanged if none is listed).
   */
  lemma {:induction false} SetAttributesEffect(s: set<Attribute>, attributes: seq<Attribute>, force: bool)
    requires Memory !in attributes
    ensures AttributesAfterSet(s, attributes, force).Done?
    ensures AttributesAfterSet(s, attributes, force).value - Inlining == (s + Listed(attributes)) - Inlining
    ensures AttributesAfterSet(s, attributes, force).value * Inlining ==
              if !force then (s + Listed(attributes)) * Inlining
              else if LastInlining(attributes).None? then s * Inlining
              else {LastInlining(attributes).value}
    decreases |attributes|
  {
    if attributes != [] {
      var prefix := attributes[..|attributes| - 1];
      var a := attributes[|attributes| - 1];
      assert attributes == prefix + [a];
      SetAttributesEffect(s, prefix, force);
      ListedSnoc(prefix, a);
      var t := AttributesAfterSet(s, prefix, force).value;
      var r := Apply(t, a, force);
      assert AttributesAfterSet(s, attributes, force) == Done(r);
      if force && a in Inlining {
        assert LastInlining(attributes) == Some(a);
        assert r * Inlining == {a};
      } else if force {
        assert LastInlining(attributes) == LastInlining(prefix);
        assert r * Inlining == t * Inlining;
      } else {
        assert r == t + {a};
        assert s + Listed(attributes) == (s + Listed(prefix)) + {a};
        assert r * Inlining == (t * Inlining) + ({a} * Inlining);
      }
      assert r - Inlining == (t - Inlining) + ({a} - Inlining);
    }
  }

  /** Two attribute sets agree when they agree inside and outside the inlining pair. */
  lemma SameOnBothSides(x: set<Attribute>, y: set<Attribute>)
    requires x - Inlining == y - Inlining && x * Inlining == y * Inlining
    ensures x == y
  {
    assert x == (x - Inlining) + (x * Inlining);
    assert y == (y - Inlining) + (y * Inlining);
  }

  /** Without `force`, `set_attributes` adds exactly the listed attributes. */
  lemma {:induction false} UnforcedSetIsUnion(s: set<Attribute>, attributes: seq<Attribute>)
    requires Memory !in attributes
    ensures AttributesAfterSet(s, attributes, false) == Done(s + Listed(attributes))
  {
    SetAttributesEffect(s, attributes, false);
    SameOnBothSides(AttributesAfterSet(s, attributes, false).value, s + Listed(attributes));
  }

  /**
   * With `force`, once the list names `AlwaysInline` or `NoInline` the result
   * holds the last one named and never both.
   */
  lemma {:induction false} ForcedInliningIsExclusive(s: set<Attribute>, attributes: seq<Attribute>)
    requires Memory !in attributes
    requires AlwaysInline in attributes || NoInline in attributes
    ensures AttributesAfterSet(s, attributes, true).Done?
    ensures LastInlining(attributes).Some?
    ensures LastInlining(attributes).value in AttributesAfterSet(s, attributes, true).value
    ensures !(AlwaysInline in AttributesAfterSet(s, attributes, true).value &&
              NoInline in AttributesAfterSet(s, attributes, true).value)
  {
    SetAttributesEffect(s, attributes, true);
    var r := AttributesAfterSet(s, attributes, true).value;
    assert AlwaysInline in r ==> AlwaysInline in r * Inlining;
    assert NoInline in r ==> NoInline in r * Inlining;
  }

  /** Repeating a `set_attributes` call, forced or not, changes nothing more. */
  lemma {:induction false} SetAttributesIdempotent(s: set<Attribute>, attributes: seq<Attribute>, force: bool)
    requires Memory !in attributes
    ensures AttributesAfterSet(s, attributes, force).Done?
    ensures AttributesAfterSet(AttributesAfterSet(s, attributes, force).value, attributes, force) ==
              AttributesAfterSet(s, attributes, force)
  {
    SetAttributesEffect(s, attributes, force);
    var t := AttributesAfterSet(s, attributes, force).value;
    SetAttributesEffect(t, attributes, force);
    var u := AttributesAfterSet(t, attributes, force).value;
    assert (t + Listed(attributes)) - Inlining == t - Inlining;
    if !force {
      assert (t + Listed(attributes)) * Inlining == t * Inlining;
    }
    SameOnBothSides(u, t);
  }

  /** `remove_attributes` removes exactly the listed attributes that are present. */
  lemma {:induction false} RemoveIsDifference(s: set<Attribute>, attributes: seq<Attribute>)
    ensures AttributesAfterRemove(s, attributes) == s - Listed(attributes)
    decreases |attributes|
  {
    if attributes != [] {
      var prefix := attributes[..|attributes| - 1];
      var a := attributes[|attributes| - 1];
      assert attributes == prefix + [a];
      RemoveIsDifference(s, prefix);
      ListedSnoc(prefix, a);
    }
  }

  /** Removing attributes none of which is present leaves the set as it was. */
  lemma {:induction false} RemoveAbsentIsNoOp(s: set<Attribute>, attributes: seq<Attribute>)
    requires forall i :: 0 <= i < |attributes| ==> attributes[i] !in s
    ensures AttributesAfterRemove(s, attributes) == s
  {
    RemoveIsDifference(s, attributes);
    assert s * Listed(attributes) == {};
  }

  /** The attributes after `set_default_attributes` at size level `level`. */
  function WithDefaultAttributes(s: set<Attribute>, level: SizeLevel): set<Attribute>
  {
    SetPanicsIffMemory(s, [OptimizeForSize, MinSize], false);
    var sized := if level == Z then AttributesAfterSet(s, [OptimizeForSize, MinSize], false).value else s;
    SetPanicsIffMemory(sized, [NoFree], false);
    AttributesAfterSet(sized, [NoFree], false).value
  }

  /** The attributes after `set_frontend_runtime_attributes` at size level `level`. */
  function WithFrontendRuntimeAttributes(s: set<Attribute>, level: SizeLevel): set<Attribute>
  {
    SetPanicsIffMemory(s, [NoInline], false);
    if level == Z then AttributesAfterSet(s, [NoInline], false).value else s
  }

  /** The attributes after `set_pure_function_attributes`. */
  function WithPureFunctionAttributes(s: set<Attribute>): set<Attribute>
  {
    SetPanicsIffMemory(s, [MustProgress, NoUnwind, WillReturn], false);
    AttributesAfterSet(s, [MustProgress, NoUnwind, WillReturn], false).value
  }

  /**
   * The default policy adds exactly {OptimizeForSize, MinSize, NoFree} at
   * level Z and exactly {NoFree} at any other level.
   */
  lemma {:induction false} DefaultAttributesAdded(s: set<Attribute>, level: SizeLevel)
    ensures WithDefaultAttributes(s, level) ==
              if level == Z then s + {OptimizeForSize, MinSize, NoFree} else s + {NoFree}
  {
    UnforcedSetIsUnion(s, [OptimizeForSize, MinSize]);
    assert Listed([OptimizeForSize, MinSize]) == {OptimizeForSize, MinSize};
    var sized := if level == Z then s + {OptimizeForSize, MinSize} else s;
    UnforcedSetIsUnion(sized, [NoFree]);
    assert Listed([NoFree]) == {NoFree};
  }

  /** Applying the default policy a second time gives the same set as once. */
  lemma {:induction false} DefaultAttributesIdempotent(s: set<Attribute>, level: SizeLevel)
    ensures WithDefaultAttributes(WithDefaultAttributes(s, level), level) == WithDefaultAttributes(s, level)
  {
    DefaultAttributesAdded(s, level);
    DefaultAttributesAdded(WithDefaultAttributes(s, level), level);
  }

  /** The front-end runtime policy adds NoInline at level Z and nothing otherwise. */
  lemma {:induction false} FrontendRuntimeAttributesAdded(s: set<Attribute>, level: SizeLevel)
    ensures WithFrontendRuntimeAttributes(s, level) == if level == Z then s + {NoInline} else s
  {
    UnforcedSetIsUnion(s, [NoInline]);
    assert Listed([NoInline]) == {NoInline};
  }

  /** The pure-function policy adds exactly {MustProgress, NoUnwind, WillReturn}. */
  lemma {:induction false} PureFunctionAttributesAdded(s: set<Attribute>)
    ensures WithPureFunctionAttributes(s) == s + {MustProgress, NoUnwind, WillReturn}
  {
    UnforcedSetIsUnion(s, [MustProgress, NoUnwind, WillReturn]);
    assert Listed([MustProgress, NoUnwind, WillReturn]) == {MustProgress, NoUnwind, WillReturn};
  }
}
