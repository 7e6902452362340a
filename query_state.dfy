/**
 * The query state `_query` of the builder, the effect of each fluent
 * mutator on it, and what a whole chain of mutator calls leaves in it.
 */
module QueryState {
  import opened Wrappers
  import opened JsValues

  /** The twelve fields of `_query`, with `null` limits and offsets as `None`. */
  datatype Query = Query(
    schema: string,
    select: seq<string>,
    from: string,
    where: seq<Value>,
    groupBy: seq<Value>,
    orderBy: seq<Value>,
    limit: Option<int>,
    offset: Option<int>,
    join: seq<Value>,
    update: seq<Value>,
    insert: seq<Row>,
    delete: bool)

  /** Names of the fields of `_query`. */
  datatype Field =
    | SchemaField | SelectField | FromField | WhereField | GroupByField | OrderByField
    | LimitField | OffsetField | JoinField | UpdateField | InsertField | DeleteField

  /** The contents of one field, whatever its type. */
  datatype FieldValue =
    | Name(name: string)
    | Names(names: seq<string>)
    | Clauses(clauses: seq<Value>)
    | Bound(bound: Option<int>)
    | Rows(rows: seq<Row>)
    | Flag(flag: bool)

  /** Reads one field of the state. */
  function Get(q: Query, f: Field): FieldValue
  {
    match f
    case SchemaField => Name(q.schema)
    case SelectField => Names(q.select)
    case FromField => Name(q.from)
    case WhereField => Clauses(q.where)
    case GroupByField => Clauses(q.groupBy)
    case OrderByField => Clauses(q.orderBy)
    case LimitField => Bound(q.limit)
    case OffsetField => Bound(q.offset)
    case JoinField => Clauses(q.join)
    case UpdateField => Clauses(q.update)
    case InsertField => Rows(q.insert)
    case DeleteField => Flag(q.delete)
  }

  /** `v` has the type of field `f`. */
  predicate Fits(f: Field, v: FieldValue)
  {
    match f
    case SchemaField => v.Name?
    case FromField => v.Name?
    case SelectField => v.Names?
    case LimitField => v.Bound?
    case OffsetField => v.Bound?
    case InsertField => v.Rows?
    case DeleteField => v.Flag?
    case _ => v.Clauses?
  }

  /** Every field reads as a value of its own type. */
  lemma GetFits(q: Query, f: Field)
    ensures Fits(f, Get(q, f))
  {
  }

  /** The fields reads through `Get` cover the whole record: two states that agree on every field are equal. */
  lemma FieldsDetermineQuery(q1: Query, q2: Query)
    requires forall f :: Get(q1, f) == Get(q2, f)
    ensures q1 == q2
  {
    assert Get(q1, SchemaField) == Get(q2, SchemaField);
    assert Get(q1, SelectField) == Get(q2, SelectField);
    assert Get(q1, FromField) == Get(q2, FromField);
    assert Get(q1, WhereField) == Get(q2, WhereField);
    assert Get(q1, GroupByField) == Get(q2, GroupByField);
    assert Get(q1, OrderByField) == Get(q2, OrderByField);
    assert Get(q1, LimitField) == Get(q2, LimitField);
    assert Get(q1, OffsetField) == Get(q2, OffsetField);
    assert Get(q1, JoinField) == Get(q2, JoinField);
    assert Get(q1, UpdateField) == Get(q2, UpdateField);
    assert Get(q1, InsertField) == Get(q2, InsertField);
    assert Get(q1, DeleteField) == Get(q2, DeleteField);
  }

  /** The list-valued fields, which mutators extend rather than overwrite. */
  predicate IsList(f: Field)
  {
    f.SelectField? || f.WhereField? || f.GroupByField? || f.OrderByField?
    || f.JoinField? || f.UpdateField? || f.InsertField?
  }

  /** The list fields that hold untyped clause arguments. */
  predicate IsClauseList(f: Field)
  {
    f.WhereField? || f.GroupByField? || f.OrderByField? || f.JoinField? || f.UpdateField?
  }

  /** An empty string, an empty list, `null` or `false`. */
  predicate Unset(v: FieldValue)
  {
    match v
    case Name(s) => s == ""
    case Names(ns) => ns == []
    case Clauses(cs) => cs == []
    case Bound(b) => b.None?
    case Rows(rs) => rs == []
    case Flag(x) => !x
  }

  /** `_queryDefaults`: every field unset. */
  function Defaults(): (d: Query)
    ensures forall f :: Unset(Get(d, f))
  {
    Query("", [], "", [], [], [], None, None, [], [], [], false)
  }

  /** `b` holds the same kind of list as `a`, with `a` as a prefix. */
  predicate Extends(a: FieldValue, b: FieldValue)
  {
    match (a, b)
    case (Names(x), Names(y)) => x <= y
    case (Clauses(x), Clauses(y)) => x <= y
    case (Rows(x), Rows(y)) => x <= y
    case _ => false
  }

  /** One call of a fluent mutator, with its arguments. */
  datatype Call =
    | Schema(name: string)
    | Select(cols: seq<string>)
    | From(table: string)
    | Into(table: string)
    | Delete(table: string)
    | Where(args: seq<Value>)
    | GroupBy(args: seq<Value>)
    | OrderBy(args: seq<Value>)
    | Limit(n: int)
    | Offset(n: int)
    | Update(args: seq<Value>)
    | Insert(rows: seq<Row>)

  /** The fields a call may change. */
  function Touched(c: Call): set<Field>
  {
    match c
    case Schema(_) => {SchemaField}
    case Select(_) => {SelectField}
    case From(_) => {FromField}
    case Into(_) => {FromField}
    case Delete(_) => {DeleteField, FromField}
    case Where(_) => {WhereField}
    case GroupBy(_) => {GroupByField}
    case OrderBy(_) => {OrderByField}
    case Limit(_) => {LimitField}
    case Offset(_) => {OffsetField}
    case Update(_) => {UpdateField}
    case Insert(_) => {InsertField}
  }

  /** The value a call writes into a scalar field, if it writes that field at all. */
  function Written(c: Call, f: Field): (r: Option<FieldValue>)
    ensures r.Some? <==> (f in Touched(c) && !IsList(f))
    ensures r.Some? ==> Fits(f, r.value)
  {
    match c
    case Schema(s) => if f == SchemaField then Some(Name(s)) else None
    case From(t) => if f == FromField then Some(Name(t)) else None
    case Into(t) => if f == FromField then Some(Name(t)) else None
    case Delete(t) =>
      if f == FromField then Some(Name(t))
      else if f == DeleteField then Some(Flag(true))
      else None
    case Limit(n) => if f == LimitField then Some(Bound(Some(n))) else None
    case Offset(n) => if f == OffsetField then Some(Bound(Some(n))) else None
    case _ => None
  }

  /** The clause arguments a call appends to a clause-list field, verbatim and in order. */
  function Appended(c: Call, f: Field): seq<Value>
  {
    match c
    case Where(args) => if f == WhereField then args else []
    case GroupBy(args) => if f == GroupByField then args else []
    case OrderBy(args) => if f == OrderByField then args else []
    case Update(args) => if f == UpdateField then args else []
    case _ => []
  }

  /**
   * The state after one mutator call. Each list mutator rebinds its field
   * to the old list followed by the call's arguments; each scalar mutator
   * overwrites its field; `delete(t)` sets the flag and then calls `from(t)`.
   */
  function Step(q: Query, c: Call): (r: Query)
    ensures forall f :: f !in Touched(c) ==> Get(r, f) == Get(q, f)
  {
    match c
    case Schema(s) => q.(schema := s)
    case Select(cols) => q.(select := q.select + cols)
    case From(t) => q.(from := t)
    case Into(t) => q.(from := t)
    case Delete(t) => q.(delete := true).(from := t)
    case Where(args) => q.(where := q.where + args)
    case GroupBy(args) => q.(groupBy := q.groupBy + args)
    case OrderBy(args) => q.(orderBy := q.orderBy + args)
    case Limit(n) => q.(limit := Some(n))
    case Offset(n) => q.(offset := Some(n))
    case Update(args) => q.(update := q.update + args)
    case Insert(rows) => q.(insert := q.insert + rows)
  }

  /** A step never drops an entry of a list field: the old list is a prefix of the new one. */
  lemma StepExtends(q: Query, c: Call, f: Field)
    requires IsList(f)
    ensures Extends(Get(q, f), Get(Step(q, c), f))
  {
  }

  /** A step leaves in each scalar field it writes exactly the value it writes. */
  lemma StepWrites(q: Query, c: Call, f: Field)
    requires Written(c, f).Some?
    ensures Get(Step(q, c), f) == Written(c, f).value
  {
  }

  /** A step leaves in each clause-list field the old clauses followed by the call's arguments for it. */
  lemma StepAppends(q: Query, c: Call, f: Field)
    requires IsClauseList(f)
    ensures Get(Step(q, c), f) == Clauses(Get(q, f).clauses + Appended(c, f))
  {
  }

  /** `from(t)` and `into(t)` have the same effect on every state. */
  lemma FromIntoAgree(q: Query, t: string)
    ensures Step(q, From(t)) == Step(q, Into(t))
  {
  }

  /** The state after a whole chain of mutator calls, made left to right. */
  function ApplyAll(q: Query, calls: seq<Call>): Query
    decreases |calls|
  {
    if calls == [] then q else ApplyAll(Step(q, calls[0]), calls[1..])
  }

  /** Running two chains one after the other is running their concatenation. */
  lemma {:induction false} ApplyAllConcat(q: Query, a: seq<Call>, b: seq<Call>)
    ensures ApplyAll(q, a + b) == ApplyAll(ApplyAll(q, a), b)
    decreases |a|
  {
    if a == [] {
      assert a + b == b;
    } else {
      assert (a + b)[0] == a[0];
      assert (a + b)[1..] == a[1..] + b;
      ApplyAllConcat(Step(q, a[0]), a[1..], b);
    }
  }

  /** A chain ending in `c` is the chain before it followed by one step. */
  lemma ApplyAllSnoc(q: Query, calls: seq<Call>)
    requires calls != []
    ensures ApplyAll(q, calls) == Step(ApplyAll(q, calls[..|calls| - 1]), calls[|calls| - 1])
  {
    var init, last := calls[..|calls| - 1], calls[|calls| - 1];
    assert calls == init + [last];
    ApplyAllConcat(q, init, [last]);
  }

  /** Every field some call of the chain may change. */
  function TouchedBy(calls: seq<Call>): set<Field>
  {
    if calls == [] then {} else Touched(calls[0]) + TouchedBy(calls[1..])
  }

  /** A chain leaves every field none of its calls touches as it was. */
  lemma {:induction false} ChainFrame(q: Query, calls: seq<Call>)
    ensures forall f :: f !in TouchedBy(calls) ==> Get(ApplyAll(q, calls), f) == Get(q, f)
    decreases |calls|
  {
    if calls != [] {
      ChainFrame(Step(q, calls[0]), calls[1..]);
    }
  }

  /** No mutator touches `join`: only the defaults set it. */
  lemma {:induction false} NoCallTouchesJoin(calls: seq<Call>)
    ensures JoinField !in TouchedBy(calls)
  {
    if calls != [] {
      NoCallTouchesJoin(calls[1..]);
    }
  }

  /** A chain of mutator calls never changes `join`. */
  lemma ChainKeepsJoin(q: Query, calls: seq<Call>)
    ensures ApplyAll(q, calls).join == q.join
  {
    NoCallTouchesJoin(calls);
    ChainFrame(q, calls);
    assert Get(ApplyAll(q, calls), JoinField) == Get(q, JoinField);
  }

  /** The columns of the chain's `select` calls, in call order. */
  function SelectedColumns(calls: seq<Call>): seq<string>
  {
    if calls == [] then []
    else
      var last := calls[|calls| - 1];
      SelectedColumns(calls[..|calls| - 1]) + (if last.Select? then last.cols else [])
  }

  /** After a chain, `select` holds the old columns followed by every selected column, in order. */
  lemma {:induction false} ChainSelect(q: Query, calls: seq<Call>)
    ensures ApplyAll(q, calls).select == q.select + SelectedColumns(calls)
    decreases |calls|
  {
    if calls != [] {
      var init := calls[..|calls| - 1];
      ApplyAllSnoc(q, calls);
      ChainSelect(q, init);
    }
  }

  /** The arguments the chain appends to one clause-list field, in call order. */
  function AppendedBy(calls: seq<Call>, f: Field): seq<Value>
  {
    if calls == [] then []
    else AppendedBy(calls[..|calls| - 1], f) + Appended(calls[|calls| - 1], f)
  }

  /** One step after a chain prefix whose clause list for `f` is `before + earlier`. */
  lemma ClausesStep(mid: Query, c: Call, f: Field, before: seq<Value>, earlier: seq<Value>)
    requires IsClauseList(f)
    requires Get(mid, f) == Clauses(before + earlier)
    ensures Get(Step(mid, c), f) == Clauses(before + (earlier + Appended(c, f)))
  {
    StepAppends(mid, c, f);
    assert (before + earlier) + Appended(c, f) == before + (earlier + Appended(c, f));
  }

  /**
   * After a chain, each of `where`, `groupBy`, `orderBy`, `join` and
   * `update` holds its old clauses followed by the arguments of the calls to
   * its mutator, verbatim and in order.
   */
  lemma {:induction false} ChainClauses(q: Query, calls: seq<Call>, f: Field)
    requires IsClauseList(f)
    ensures Get(ApplyAll(q, calls), f) == Clauses(Get(q, f).clauses + AppendedBy(calls, f))
    decreases |calls|
  {
    if calls != [] {
      var init, last := calls[..|calls| - 1], calls[|calls| - 1];
      ApplyAllSnoc(q, calls);
      ChainClauses(q, init, f);
      ClausesStep(ApplyAll(q, init), last, f, Get(q, f).clauses, AppendedBy(init, f));
    }
  }

  /** The rows of the chain's `insert` calls, in call order. */
  function InsertedRows(calls: seq<Call>): seq<Row>
  {
    if calls == [] then []
    else
      var last := calls[|calls| - 1];
      InsertedRows(calls[..|calls| - 1]) + (if last.Insert? then last.rows else [])
  }

  /** After a chain, `insert` holds the old rows followed by every inserted row, in order. */
  lemma {:induction false} ChainInsert(q: Query, calls: seq<Call>)
    ensures ApplyAll(q, calls).insert == q.insert + InsertedRows(calls)
    decreases |calls|
  {
    if calls != [] {
      var init := calls[..|calls| - 1];
      ApplyAllSnoc(q, calls);
      ChainInsert(q, init);
    }
  }

  /** The value written last into scalar field `f` by the chain, or `current` when no call writes it. */
  function LastWrite(calls: seq<Call>, f: Field, current: FieldValue): (r: FieldValue)
    ensures Fits(f, current) ==> Fits(f, r)
  {
    if calls == [] then current
    else
      var w := Written(calls[|calls| - 1], f);
      if w.Some? then w.value else LastWrite(calls[..|calls| - 1], f, current)
  }

  /**
   * After a chain, each scalar field (`schema`, `from`, `limit`, `offset`,
   * `delete`) holds what the last call writing it wrote.
   */
  lemma {:induction false} ChainLastWrite(q: Query, calls: seq<Call>, f: Field)
    requires !IsList(f)
    ensures Get(ApplyAll(q, calls), f) == LastWrite(calls, f, Get(q, f))
    decreases |calls|
  {
    if calls != [] {
      var init := calls[..|calls| - 1];
      ApplyAllSnoc(q, calls);
      ChainLastWrite(q, init, f);
    }
  }

  /**
   * The whole state after a chain, field by field: lists extended by the
   * chain's arguments in call order, scalars holding their last written
   * value, `join` as it was.
   */
  function ChainResult(q: Query, calls: seq<Call>): Query
  {
    Query(
      LastWrite(calls, SchemaField, Name(q.schema)).name,
      q.select + SelectedColumns(calls),
      LastWrite(calls, FromField, Name(q.from)).name,
      q.where + AppendedBy(calls, WhereField),
      q.groupBy + AppendedBy(calls, GroupByField),
      q.orderBy + AppendedBy(calls, OrderByField),
      LastWrite(calls, LimitField, Bound(q.limit)).bound,
      LastWrite(calls, OffsetField, Bound(q.offset)).bound,
      q.join,
      q.update + AppendedBy(calls, UpdateField),
      q.insert + InsertedRows(calls),
      LastWrite(calls, DeleteField, Flag(q.delete)).flag)
  }

  /** A list field after a chain agrees with `ChainResult`. */
  lemma ChainListField(q: Query, calls: seq<Call>, f: Field)
    requires IsList(f)
    ensures Get(ApplyAll(q, calls), f) == Get(ChainResult(q, calls), f)
  {
    if IsClauseList(f) {
      ChainClauses(q, calls, f);
      if f == JoinField {
        ChainKeepsJoin(q, calls);
      }
    } else if f == SelectField {
      ChainSelect(q, calls);
    } else {
      ChainInsert(q, calls);
    }
  }

  /** A scalar field after a chain agrees with `ChainResult`. */
  lemma ChainScalarField(q: Query, calls: seq<Call>, f: Field)
    requires !IsList(f)
    ensures Get(ApplyAll(q, calls), f) == Get(ChainResult(q, calls), f)
  {
    ChainLastWrite(q, calls, f);
    GetFits(ApplyAll(q, calls), f);
  }

  /** After any chain the state is exactly `ChainResult`. */
  lemma ChainState(q: Query, calls: seq<Call>)
    ensures ApplyAll(q, calls) == ChainResult(q, calls)
  {
    forall f
      ensures Get(ApplyAll(q, calls), f) == Get(ChainResult(q, calls), f)
    {
      if IsList(f) {
        ChainListField(q, calls, f);
      } else {
        ChainScalarField(q, calls, f);
      }
    }
    FieldsDetermineQuery(ApplyAll(q, calls), ChainResult(q, calls));
  }
}
