/**
 * The clause reducer `_reducer(acc, curr)` of the query-builder core: it
 * folds one argument of any shape into a list of clause fragments.
 */
module Reducer {
  import opened Wrappers
  import opened JsValues

  /** The fragment `"<key> <value>"` built for one property of an object argument. */
  function Clause(key: string, v: Value): string
  {
    key + " " + Text(v)
  }

  /**
   * The fragments pushed, one per enumerated property, by the object branch.
   * Defined the way `push` builds them: the last property's fragment comes last.
   */
  function ObjectClauses(props: seq<(string, Value)>): (r: seq<Value>)
    ensures |r| == |props|
    ensures forall i :: 0 <= i < |props| ==> r[i] == Str(Clause(props[i].0, props[i].1))
  {
    if props == [] then []
    else
      var last := props[|props| - 1];
      ObjectClauses(props[..|props| - 1]) + [Str(Clause(last.0, last.1))]
  }

  /**
   * What `_reducer` returns. A number or a string is appended; an array is
   * appended flattened by one level; any other object (also `null`, whose
   * `typeof` is "object" and which has no properties) REPLACES the
   * accumulator by its clause fragments. Any other `typeof` matches no case
   * of the switch, and the reducer returns `undefined` (here `None`).
   */
  function Reduced(acc: seq<Value>, curr: Value): Option<seq<Value>>
  {
    match curr
    case Num(_) => Some(acc + [curr])
    case Str(_) => Some(acc + [curr])
    case Arr(elems) => Some(acc + elems)
    case Obj(props) => Some(ObjectClauses(props))
    case Null => Some([])
    case Bool(_) => None
    case Undefined => None
  }

  /** The object branch of `_reducer`: `for (const key in curr) clausoles.push(...)`. */
  method PushClauses(props: seq<(string, Value)>) returns (clauses: seq<Value>)
    ensures clauses == ObjectClauses(props)
  {
    clauses := [];
    var i := 0;
    while i < |props|
      invariant 0 <= i <= |props|
      invariant clauses == ObjectClauses(props[..i])
    {
      assert props[..i + 1][..i] == props[..i];
      clauses := clauses + [Str(Clause(props[i].0, props[i].1))];
      i := i + 1;
    }
    assert props[..|props|] == props;
  }

  /**
   * `_reducer` as the source runs it: a switch on `typeof curr`. Its cases
   * are those of `Reduced`. The one difference is that the object and `null`
   * branches run the `for...in` loop (`PushClauses`) instead of calling
   * `ObjectClauses`.
   */
  method Reduce(acc: seq<Value>, curr: Value) returns (r: Option<seq<Value>>)
    ensures r == Reduced(acc, curr)
  {
    match curr {
      case Num(_) => r := Some(acc + [curr]);
      case Str(_) => r := Some(acc + [curr]);
      case Arr(elems) => r := Some(acc + elems);
      case Obj(props) =>
        var clauses := PushClauses(props);
        r := Some(clauses);
      case Null =>
        var clauses := PushClauses([]);
        r := Some(clauses);
      case Bool(_) => r := None;
      case Undefined => r := None;
    }
  }

  /** The items an argument contributes when the accumulator is kept. */
  function Items(curr: Value): seq<Value>
    requires curr.Num? || curr.Str? || curr.Arr?
  {
    if curr.Arr? then curr.elems else [curr]
  }

  /**
   * A number, string or array keeps the whole accumulator as a prefix and
   * adds its items after it, in order.
   */
  lemma KeepsAccumulator(acc: seq<Value>, curr: Value)
    requires curr.Num? || curr.Str? || curr.Arr?
    ensures Reduced(acc, curr).Some?
    ensures |Reduced(acc, curr).value| == |acc| + |Items(curr)|
    ensures Reduced(acc, curr).value[..|acc|] == acc
    ensures Reduced(acc, curr).value[|acc|..] == Items(curr)
  {
  }

  /**
   * A non-array object (or `null`) yields one fragment per property, and
   * the accumulator has no influence on the result.
   */
  lemma DiscardsAccumulator(acc1: seq<Value>, acc2: seq<Value>, curr: Value)
    requires curr.Obj? || curr.Null?
    ensures Reduced(acc1, curr) == Reduced(acc2, curr)
    ensures curr.Obj? ==> Reduced(acc1, curr) == Some(ObjectClauses(curr.props))
    ensures curr.Null? ==> Reduced(acc1, curr) == Some([])
  {
  }

  /** The reducer returns `undefined` exactly for the shapes its switch does not list. */
  lemma UndefinedExactly(acc: seq<Value>, curr: Value)
    ensures Reduced(acc, curr).None? <==> (curr.Bool? || curr.Undefined?)
  {
  }

  /** Folding `1` and then `[2, 3]` gives `[1, 2, 3]`; a nested array stays nested. */
  lemma FlattensOneLevel()
    ensures Reduced(Reduced([], Num(1)).value, Arr([Num(2), Num(3)])) == Some([Num(1), Num(2), Num(3)])
    ensures Reduced([], Arr([Arr([Num(2)])])) == Some([Arr([Num(2)])])
  {
    assert [] + [Num(1)] == [Num(1)];
    assert [Num(1)] + [Num(2), Num(3)] == [Num(1), Num(2), Num(3)];
    assert [] + [Arr([Num(2)])] == [Arr([Num(2)])];
  }

  /** An object argument after earlier fragments leaves only its own fragment. */
  lemma ObjectReplaces()
    ensures Reduced([Str("id = 1")], Obj([("a", Str("> 1"))])) == Some([Str("a > 1")])
  {
    assert Clause("a", Str("> 1")) == "a > 1";
    assert ObjectClauses([("a", Str("> 1"))]) == [Str("a > 1")];
  }
}
