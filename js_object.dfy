/** The TypeScript tallies count into a plain object literal `{}` with
    `acc[k] = (acc[k] || 0) + 1`.  A plain object inherits the members of
    `Object.prototype`, so a key that names one of them does not start from
    `undefined`; and `__proto__` is an accessor whose setter ignores strings.
    This module models that accumulator as written, shows where it departs from a
    frequency table, and shows that it agrees with `Tally.Tally` on every other key. */
module JsObject {
  import Tally
  import opened Json

  /** A value stored in, or read from, the accumulator. */
  datatype JsValue =
    | Num(n: int)
    | Str(s: string)
    | Inherited(name: string)  // the member of `Object.prototype` called `name`

  /** The names a plain object inherits from `Object.prototype`. */
  const PrototypeMembers: set<string> := {
    "constructor", "hasOwnProperty", "isPrototypeOf", "propertyIsEnumerable",
    "toLocaleString", "toString", "valueOf", "__defineGetter__", "__defineSetter__",
    "__lookupGetter__", "__lookupSetter__", "__proto__"
  }

  /** `acc[k]`: an own property, else an inherited member, else `undefined` (`None`). */
  function Lookup(own: map<string, JsValue>, k: string): (v: Option<JsValue>)
    ensures k in own ==> v == Some(own[k])
    ensures v.None? <==> k !in own && k !in PrototypeMembers
    ensures k !in own && k in PrototypeMembers ==> v == Some(Inherited(k))
  {
    if k in own then Some(own[k])
    else if k in PrototypeMembers then Some(Inherited(k))
    else None
  }

  /** `String(v)` of an inherited member: `Object.prototype` itself for `__proto__`,
      otherwise a native function (`constructor` is the function `Object`). */
  function Render(name: string): (r: string)
    ensures name == "__proto__" ==> r == "[object Object]"
    ensures name != "__proto__" ==> |r| >= 29 && r[..9] == "function " && r[|r| - 20..] == "() { [native code] }"
    ensures name != "__proto__" && name != "constructor" ==> r[9..|r| - 20] == name
  {
    if name == "__proto__" then "[object Object]"
    else "function " + (if name == "constructor" then "Object" else name) + "() { [native code] }"
  }

  /** `(v || 0) + 1`: a falsy `v` counts as `0`; a string or a function is truthy and
      `+ 1` then concatenates. */
  function IncrementValue(v: Option<JsValue>): (r: JsValue)
    ensures v.None? ==> r == Num(1)
    ensures v.Some? && v.value.Num? ==> r == Num(v.value.n + 1)
    ensures v.Some? && v.value.Str? ==> r == (if v.value.s == "" then Num(1) else Str(v.value.s + "1"))
    ensures v.Some? && v.value.Inherited? ==> r == Str(Render(v.value.name) + "1")
    ensures v.Some? && v.value.Inherited? ==> r.Str? && |r.s| > 0 && r.s[|r.s| - 1] == '1'
  {
    match v
    case None => Num(1)
    case Some(Num(n)) => Num(n + 1)
    case Some(Str(s)) => if s == "" then Num(1) else Str(s + "1")
    case Some(Inherited(name)) => Str(Render(name) + "1")
  }

  /** `acc[k] = v`: assigning a non-object to `__proto__` goes through its setter, which
      ignores it; any other key gets an own property. */
  function Assign(own: map<string, JsValue>, k: string, v: JsValue): (r: map<string, JsValue>)
    ensures k == "__proto__" ==> r == own
    ensures k != "__proto__" ==> k in r && r[k] == v && forall k' | k' in own && k' != k :: k' in r && r[k'] == own[k']
    ensures forall k' | k' in r && k' != k :: k' in own
  {
    if k == "__proto__" then own else own[k := v]
  }

  /** The `reduce` over `keys`, left to right, starting from `{}`. */
  function TallyAsWritten(keys: seq<string>): (acc: map<string, JsValue>)
    ensures forall k | k in acc :: k in keys
    ensures "__proto__" !in acc
  {
    if |keys| == 0 then map[]
    else
      var init, last := keys[..|keys| - 1], keys[|keys| - 1];
      var acc := TallyAsWritten(init);
      Assign(acc, last, IncrementValue(Lookup(acc, last)))
  }

  /** A frequency table as the accumulator would hold it: every count a number. */
  function AsNumbers(counts: map<string, nat>): (own: map<string, JsValue>)
    ensures own.Keys == counts.Keys
  {
    map k | k in counts :: Num(counts[k])
  }

  /** Counting one more `k` in a table is, in the accumulator, storing the next number at `k`. */
  lemma AsNumbersAdd(counts: map<string, nat>, k: string)
    ensures AsNumbers(Tally.Add(counts, k)) ==
      AsNumbers(counts)[k := Num(if k in counts then counts[k] + 1 else 1)]
  {
  }

  /** Off the prototype's names the accumulator is exactly the frequency table. */
  lemma {:induction false} AsWrittenMatchesTallyOffPrototype(keys: seq<string>)
    requires forall i | 0 <= i < |keys| :: keys[i] !in PrototypeMembers
    ensures TallyAsWritten(keys) == AsNumbers(Tally.Tally(keys))
  {
    if |keys| != 0 {
      var init, last := keys[..|keys| - 1], keys[|keys| - 1];
      var before := Tally.Tally(init);
      AsWrittenMatchesTallyOffPrototype(init);
      assert last !in PrototypeMembers;
      var next := Num(if last in before then before[last] + 1 else 1);
      assert IncrementValue(Lookup(AsNumbers(before), last)) == next;
      calc {
        TallyAsWritten(keys);
        Assign(AsNumbers(before), last, next);
        AsNumbers(before)[last := next];
        { AsNumbersAdd(before, last); }
        AsNumbers(Tally.Add(before, last));
      }
    }
  }

  /** Whatever other keys are counted, a key that is not a prototype name is in the
      accumulator exactly when it occurs, and holds the number of its occurrences. */
  lemma {:induction false} AsWrittenOffPrototypeKey(keys: seq<string>, k: string)
    requires k !in PrototypeMembers
    ensures k in TallyAsWritten(keys) <==> k in keys
    ensures k in keys ==> TallyAsWritten(keys)[k] == Num(multiset(keys)[k])
  {
    if |keys| != 0 {
      var init, last := keys[..|keys| - 1], keys[|keys| - 1];
      assert keys == init + [last];
      AsWrittenOffPrototypeKey(init, k);
      var acc := TallyAsWritten(init);
      if last == k {
        assert Assign(acc, k, IncrementValue(Lookup(acc, k)))[k] == IncrementValue(Lookup(acc, k));
      }
    }
  }

  /** A category or product type called `constructor` is reported as a string, not a count. */
  lemma ConstructorKeyMiscounted()
    ensures Tally.Tally(["constructor"]) == map["constructor" := 1]
    ensures TallyAsWritten(["constructor"]) == map["constructor" := Str("function Object() { [native code] }1")]
  {
    assert ["constructor"][..0] == [];
    assert Lookup(map[], "constructor") == Some(Inherited("constructor"));
    ConstructorRendered();
  }

  /** The string `(acc.constructor || 0) + 1` makes. */
  lemma ConstructorRendered()
    ensures Render("constructor") + "1" == "function Object() { [native code] }1"
  {
    assert Render("constructor") == "function Object() { [native code] }";
  }

  /** A category or product type called `__proto__` disappears from the table. */
  lemma ProtoKeyDropped()
    ensures Tally.Tally(["__proto__"]) == map["__proto__" := 1]
    ensures TallyAsWritten(["__proto__"]) == map[]
  {
    assert ["__proto__"][..0] == [];
  }
}
