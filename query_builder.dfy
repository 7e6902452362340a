/**
 * The abstract query-builder class `AntaresCore`: it owns one query state,
 * exposes the fluent mutators, and delegates rendering (`getSQL`), execution
 * (`raw`) and the administrative operations to the engine adapter that
 * extends it.
 */
module QueryBuilder {
  import opened Wrappers
  import opened JsValues
  import opened QueryState

  /** What a builder operation throws. */
  datatype Error =
    | MustImplement(name: string)   // base `getSQL`/`raw`: the adapter must override them
    | NotImplemented(name: string)  // base administrative method
    | Thrown(message: string)       // whatever an adapter's own code throws

  /** The message of the `Error` object thrown. */
  function Message(e: Error): string
  {
    match e
    case MustImplement(n) => "Client must implement the \"" + n + "\" method"
    case NotImplemented(n) => "Method \"" + n + "\" not implemented"
    case Thrown(m) => m
  }

  /** The administrative operations every adapter may provide. */
  datatype AdminOp =
    | GetDbConfig | CreateSchema | AlterSchema | DropSchema | GetTableDll
    | GetDatabaseCollation | GetFunctionInformations | AlterFunction
    | CreateTriggerFunction | AlterTriggerFunction | CreateFunction | DropFunction
    | GetCollations | GetRoutineInformations | DropRoutine | AlterRoutine | CreateRoutine
    | GetVariables | GetEventInformations | DropEvent | AlterEvent | CreateEvent
    | EnableEvent | DisableEvent | EnableTrigger | DisableTrigger | KillTabQuery

  /** The method name of an administrative operation. */
  function AdminName(op: AdminOp): string
  {
    match op
    case GetDbConfig => "getDbConfig"
    case CreateSchema => "createSchema"
    case AlterSchema => "alterSchema"
    case DropSchema => "dropSchema"
    case GetTableDll => "getTableDll"
    case GetDatabaseCollation => "getDatabaseCollation"
    case GetFunctionInformations => "getFunctionInformations"
    case AlterFunction => "alterFunction"
    case CreateTriggerFunction => "createTriggerFunction"
    case AlterTriggerFunction => "alterTriggerFunction"
    case CreateFunction => "createFunction"
    case DropFunction => "dropFunction"
    case GetCollations => "getCollations"
    case GetRoutineInformations => "getRoutineInformations"
    case DropRoutine => "dropRoutine"
    case AlterRoutine => "alterRoutine"
    case CreateRoutine => "createRoutine"
    case GetVariables => "getVariables"
    case GetEventInformations => "getEventInformations"
    case DropEvent => "dropEvent"
    case AlterEvent => "alterEvent"
    case CreateEvent => "createEvent"
    case EnableEvent => "enableEvent"
    case DisableEvent => "disableEvent"
    case EnableTrigger => "enableTrigger"
    case DisableTrigger => "disableTrigger"
    case KillTabQuery => "killTabQuery"
  }

  /**
   * The overridable members of an adapter. Each receives the builder's query
   * state as it is at the moment of the call. `P` is the type of execution
   * parameters, `R` that of a query result.
   */
  datatype Dialect<!P, R> = Dialect(
    getSQL: Query -> Result<string, Error>,
    raw: (Query, string, Option<P>) -> Result<R, Error>,
    admin: (Query, AdminOp, seq<Value>) -> Result<Value, Error>)

  /** The members as the abstract base class defines them: every one throws. */
  function BaseDialect<P(!new), R>(): (d: Dialect<P, R>)
    ensures forall q :: d.getSQL(q) == Failure(MustImplement("getSQL"))
    ensures forall q, sql, args :: d.raw(q, sql, args) == Failure(MustImplement("raw"))
    ensures forall q, op, args :: d.admin(q, op, args) == Failure(NotImplemented(AdminName(op)))
    ensures forall q :: Message(d.getSQL(q).error) == "Client must implement the \"getSQL\" method"
    ensures forall q, sql, args :: Message(d.raw(q, sql, args).error) == "Client must implement the \"raw\" method"
    ensures forall q, op, args :: Message(d.admin(q, op, args).error) == "Method \"" + AdminName(op) + "\" not implemented"
  {
    Dialect(
      q => Failure(MustImplement("getSQL")),
      (q, sql, args) => Failure(MustImplement("raw")),
      (q, op, args) => Failure(NotImplemented(AdminName(op))))
  }

  /** A query builder bound to one adapter. */
  class AntaresCore<P, R> {
    const dialect: Dialect<P, R>
    var queryDefaults: Query
    var query: Query

    /** `_queryDefaults` keeps its initial value for the builder's lifetime. */
    ghost predicate Valid()
      reads this
    {
      queryDefaults == Defaults()
    }

    constructor (dialect: Dialect<P, R>)
      ensures Valid()
      ensures this.dialect == dialect
      ensures query == Defaults()
    {
      this.dialect := dialect;
      queryDefaults := Defaults();
      query := Defaults();
    }

    /** `_resetQuery`: a fresh copy of the defaults. */
    method ResetQuery()
      requires Valid()
      modifies this
      ensures Valid()
      ensures query == Defaults()
    {
      query := queryDefaults;
    }

    method Schema(name: string) returns (self: AntaresCore<P, R>)
      requires Valid()
      modifies this
      ensures Valid() && self == this
      ensures query == Step(old(query), Call.Schema(name))
    {
      query := query.(schema := name);
      self := this;
    }

    method Select(cols: seq<string>) returns (self: AntaresCore<P, R>)
      requires Valid()
      modifies this
      ensures Valid() && self == this
      ensures query == Step(old(query), Call.Select(cols))
    {
      query := query.(select := query.select + cols);
      self := this;
    }

    method From(table: string) returns (self: AntaresCore<P, R>)
      requires Valid()
      modifies this
      ensures Valid() && self == this
      ensures query == Step(old(query), Call.From(table))
    {
      query := query.(from := table);
      self := this;
    }

    method Into(table: string) returns (self: AntaresCore<P, R>)
      requires Valid()
      modifies this
      ensures Valid() && self == this
      ensures query == Step(old(query), Call.Into(table))
    {
      query := query.(from := table);
      self := this;
    }

    method Delete(table: string) returns (self: AntaresCore<P, R>)
      requires Valid()
      modifies this
      ensures Valid() && self == this
      ensures query == Step(old(query), Call.Delete(table))
    {
      query := query.(delete := true);
      var _ := From(table);
      self := this;
    }

    method Where(args: seq<Value>) returns (self: AntaresCore<P, R>)
      requires Valid()
      modifies this
      ensures Valid() && self == this
      ensures query == Step(old(query), Call.Where(args))
    {
      query := query.(where := query.where + args);
      self := this;
    }

    method GroupBy(args: seq<Value>) returns (self: AntaresCore<P, R>)
      requires Valid()
      modifies this
      ensures Valid() && self == this
      ensures query == Step(old(query), Call.GroupBy(args))
    {
      query := query.(groupBy := query.groupBy + args);
      self := this;
    }

    method OrderBy(args: seq<Value>) returns (self: AntaresCore<P, R>)
      requires Valid()
      modifies this
      ensures Valid() && self == this
      ensures query == Step(old(query), Call.OrderBy(args))
    {
      query := query.(orderBy := query.orderBy + args);
      self := this;
    }

    method Limit(n: int) returns (self: AntaresCore<P, R>)
      requires Valid()
      modifies this
      ensures Valid() && self == this
      ensures query == Step(old(query), Call.Limit(n))
    {
      query := query.(limit := Some(n));
      self := this;
    }

    method Offset(n: int) returns (self: AntaresCore<P, R>)
      requires Valid()
      modifies this
      ensures Valid() && self == this
      ensures query == Step(old(query), Call.Offset(n))
    {
      query := query.(offset := Some(n));
      self := this;
    }

    method Update(args: seq<Value>) returns (self: AntaresCore<P, R>)
      requires Valid()
      modifies this
      ensures Valid() && self == this
      ensures query == Step(old(query), Call.Update(args))
    {
      query := query.(update := query.update + args);
      self := this;
    }

    method Insert(rows: seq<Row>) returns (self: AntaresCore<P, R>)
      requires Valid()
      modifies this
      ensures Valid() && self == this
      ensures query == Step(old(query), Call.Insert(rows))
    {
      query := query.(insert := query.insert + rows);
      self := this;
    }

    /** One fluent call, dispatched to its mutator. */
    method Apply(c: Call) returns (self: AntaresCore<P, R>)
      requires Valid()
      modifies this
      ensures Valid() && self == this
      ensures query == Step(old(query), c)
    {
      match c {
        case Schema(name) => self := Schema(name);
        case Select(cols) => self := Select(cols);
        case From(table) => self := From(table);
        case Into(table) => self := Into(table);
        case Delete(table) => self := Delete(table);
        case Where(args) => self := Where(args);
        case GroupBy(args) => self := GroupBy(args);
        case OrderBy(args) => self := OrderBy(args);
        case Limit(n) => self := Limit(n);
        case Offset(n) => self := Offset(n);
        case Update(args) => self := Update(args);
        case Insert(rows) => self := Insert(rows);
      }
    }

    /** A fluent chain `b.m1(...).m2(...)...`, one call after the other. */
    method Chain(calls: seq<Call>) returns (self: AntaresCore<P, R>)
      requires Valid()
      modifies this
      ensures Valid() && self == this
      ensures query == ApplyAll(old(query), calls)
    {
      self := this;
      var i := 0;
      while i < |calls|
        invariant 0 <= i <= |calls|
        invariant Valid() && self == this
        invariant query == ApplyAll(old(query), calls[..i])
      {
        ApplyAllSnoc(old(query), calls[..i + 1]);
        assert calls[..i + 1][..i] == calls[..i];
        self := Apply(calls[i]);
        i := i + 1;
      }
      assert calls[..|calls|] == calls;
    }

    /** `getSQL()`: the adapter's rendering of the current state. */
    method GetSQL() returns (r: Result<string, Error>)
      ensures r == dialect.getSQL(query)
    {
      r := dialect.getSQL(query);
    }

    /** `raw(sql, args)`: the adapter's execution, seeing the current state. */
    method Raw(sql: string, args: Option<P>) returns (r: Result<R, Error>)
      ensures r == dialect.raw(query, sql, args)
    {
      r := dialect.raw(query, sql, args);
    }

    /** One administrative method, called with its arguments. */
    method Admin(op: AdminOp, args: seq<Value>) returns (r: Result<Value, Error>)
      ensures r == dialect.admin(query, op, args)
    {
      r := dialect.admin(query, op, args);
    }

    /**
     * `run(args)`: render the state, reset it, then execute the rendered
     * text. When rendering throws, nothing is reset and nothing executes;
     * otherwise `raw` already sees the default state.
     */
    method Run(args: Option<P>) returns (r: Result<R, Error>)
      requires Valid()
      modifies this
      ensures Valid()
      ensures var rendered := dialect.getSQL(old(query));
        if rendered.Failure? then
          r == Failure(rendered.error) && query == old(query)
        else
          query == Defaults() && r == dialect.raw(Defaults(), rendered.value, args)
    {
      var rendered := GetSQL();
      if rendered.Failure? {
        return Failure(rendered.error);
      }
      ResetQuery();
      r := Raw(rendered.value, args);
    }
  }
}
