/** The vote counter exactly as `displayVotes` builds it: a plain object
    literal, read with `counter[id] || 0` and written with `counter[id] = … + 1`.
    A plain object inherits the members of Object.prototype, so an id that
    names one of them does not start from zero. `Tally.Aggregate` is the
    counter the page evidently intends; this module shows where the two part. */
module ObjectTally {
  import opened Tally

  /** The JavaScript values the counter can hold or read back. */
  datatype JsValue =
    | Undefined
    | Num(n: int)
    | Str(s: string)
    | Inherited(text: string)   // a member of Object.prototype, as its string conversion

  /** The own properties of the counter object. */
  type JsObject = map<string, JsValue>

  /** The property names every plain object inherits from Object.prototype. */
  const InheritedNames: set<string> := {
    "constructor", "__proto__", "hasOwnProperty", "isPrototypeOf",
    "propertyIsEnumerable", "toLocaleString", "toString", "valueOf",
    "__defineGetter__", "__defineSetter__", "__lookupGetter__", "__lookupSetter__"
  }

  /** The string an inherited member converts to, in V8: Object.prototype
      itself for `__proto__`, the native Object function for `constructor`,
      and a native method otherwise. Other engines lay out a native function's
      text over several lines; it is a non-numeric string in every engine. */
  function InheritedText(name: string): string
  {
    if name == "__proto__" then "[object Object]"
    else if name == "constructor" then "function Object() { [native code] }"
    else "function " + name + "() { [native code] }"
  }

  /** `counter[key]`: an own property, else an inherited one, else undefined. */
  function Lookup(counter: JsObject, key: string): JsValue
  {
    if key in counter then counter[key]
    else if key in InheritedNames then Inherited(InheritedText(key))
    else Undefined
  }

  predicate Truthy(v: JsValue)
  {
    match v
    case Undefined => false
    case Num(n) => n != 0
    case Str(s) => s != ""
    case Inherited(_) => true
  }

  /** `v || 0`. */
  function OrZero(v: JsValue): JsValue
  {
    if Truthy(v) then v else Num(0)
  }

  /** `v + 1`: numeric addition on a number, string concatenation otherwise. */
  function PlusOne(v: JsValue): JsValue
  {
    match v
    case Num(n) => Num(n + 1)
    case Str(s) => Str(s + "1")
    case Inherited(t) => Str(t + "1")
    case Undefined => Undefined   // JavaScript gives NaN; unreachable after OrZero
  }

  /** `counter[key] = v`. Assigning a number or a string to `__proto__` goes to
      the inherited setter, which ignores values that are not objects. */
  function Assign(counter: JsObject, key: string, v: JsValue): JsObject
  {
    if key == "__proto__" then counter else counter[key := v]
  }

  /** The counter after the loop, as written. */
  function AggregateAsWritten(votes: seq<Vote>): JsObject
    decreases |votes|
  {
    if |votes| == 0 then
      map[]
    else
      var counter := AggregateAsWritten(votes[..|votes| - 1]);
      var id := votes[|votes| - 1].productId;
      Assign(counter, id, PlusOne(OrZero(Lookup(counter, id))))
  }

  /** A tally seen as the object whose own properties are its counts. */
  function AsObject(counts: Counts): (obj: JsObject)
    ensures obj.Keys == counts.Keys
    ensures forall k :: k in counts ==> obj[k] == Num(counts[k])
  {
    map k | k in counts :: Num(counts[k])
  }

  /** As long as no vote names an inherited member, the plain-object counter
      holds exactly the intended tally. */
  lemma {:induction false} AsWrittenAgreesOffPrototype(votes: seq<Vote>)
    requires forall i :: 0 <= i < |votes| ==> votes[i].productId !in InheritedNames
    ensures AggregateAsWritten(votes) == AsObject(Aggregate(votes))
    decreases |votes|
  {
    if |votes| > 0 {
      var prefix := votes[..|votes| - 1];
      var id := votes[|votes| - 1].productId;
      AsWrittenAgreesOffPrototype(prefix);
      StepAgrees(Aggregate(prefix), id);
    }
  }

  /** One loop step on an id that is not inherited increments like the intended tally. */
  lemma StepAgrees(before: Counts, id: string)
    requires id !in InheritedNames
    ensures var counter := AsObject(before);
      Assign(counter, id, PlusOne(OrZero(Lookup(counter, id)))) == AsObject(Increment(before, id))
  {
  }

  /** A single vote for "constructor": the intended tally counts 1, the
      counter as written holds a string. */
  lemma ConstructorVoteIsMiscounted()
    ensures Aggregate([Vote("constructor")]) == map["constructor" := 1]
    ensures AggregateAsWritten([Vote("constructor")])
         == map["constructor" := Str("function Object() { [native code] }1")]
  {
    var votes := [Vote("constructor")];
    assert votes[..0] == [];
    assert votes[0].productId == "constructor";
    assert Ids(votes) == ["constructor"];
    assert "constructor" in InheritedNames;
    assert Lookup(map[], "constructor") == Inherited("function Object() { [native code] }");
    assert "function Object() { [native code] }" + "1" == "function Object() { [native code] }1";
  }

  /** A single vote for "__proto__": the intended tally counts 1, the counter
      as written stays empty, so its counts no longer sum to the votes read. */
  lemma ProtoVoteIsDropped()
    ensures Aggregate([Vote("__proto__")]) == map["__proto__" := 1]
    ensures AggregateAsWritten([Vote("__proto__")]) == map[]
  {
  }
}
