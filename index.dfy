/**
 * The statement builders (src/index.ts): `select`, `count`, `insert`,
 * `update` and `del`. Each returns the SQL text, whose first placeholder `??`
 * stands for the table, together with its positional arguments, or throws one
 * of the generator's errors.
 *
 * The builders that grow their text by conditional appends are methods, each
 * proved against a specification function of the same name with the `Sql`
 * suffix; `insert`, a single guarded expression, is a function.
 */
module SqlGen {
  import opened Types
  import opened Text
  import opened Helper

  const CountHead: string := "SELECT COUNT(1) AS `total` FROM ??"
  const InsertText: string := "INSERT INTO ?? SET ?"
  const UpdateHead: string := "UPDATE ?? SET ? WHERE"
  const DelHead: string := "DELETE FROM ?? WHERE"

  /** The projection of a `select`: the quoted column list, then the table placeholder. */
  function SelectHead(fields: Option<string>): string {
    "SELECT " + GetFields(fields) + " FROM ??"
  }

  /** ` WHERE <condition>` when the condition reports a predicate, nothing otherwise. */
  function WhereClause(w: OkSql): string {
    if w.ok then " WHERE " + w.sql else ""
  }

  /** The condition's arguments when it reports a predicate, none otherwise. */
  function WhereArgs(w: OkSql): seq<Value> {
    if w.ok then w.args else []
  }

  /** ` ORDER BY <orderBy>`, appended verbatim when an ordering is given. */
  function OrderByClause(orderBy: Option<string>): string {
    if orderBy.Some? then " ORDER BY " + orderBy.value else ""
  }

  /** The value of a LIMIT: a raw string verbatim, or `<offset>, <size>` with the offset only when given. */
  function LimitValue(limit: Limit): string {
    match limit
    case LimitText(text) => text
    case LimitPage(offset, size) => (if offset.Some? then NatToString(offset.value) + ", " else "") + NatToString(size)
  }

  function LimitClause(limit: Option<Limit>): string {
    if limit.Some? then " LIMIT " + LimitValue(limit.value) else ""
  }

  // ---------------------------------------------------------------- select

  /** What `select(table, fields, where, orderBy, limit)` returns or throws. */
  function SelectSql(table: string, fields: Option<string>, where: Where, orderBy: Option<string>, limit: Option<Limit>)
    : (r: Result<Sql>)
    ensures r.Err? <==> CompileWhere(where).Err?
    ensures r.Err? ==> r.error == CompileWhere(where).error
    ensures r.Ok? ==> |r.value.args| >= 1 && r.value.args[0] == Str(table)
    ensures r.Ok? ==> SelectHead(fields) <= r.value.sql
  {
    match CompileWhere(where)
    case Err(e) => Err(e)
    case Ok(w) =>
      Ok(Sql(SelectHead(fields) + WhereClause(w) + OrderByClause(orderBy) + LimitClause(limit), [Str(table)] + WhereArgs(w)))
  }

  /** `select`: the projection, then WHERE, ORDER BY and LIMIT, each only when there is something to add. */
  method Select(table: string, fields: Option<string>, where: Where, orderBy: Option<string>, limit: Option<Limit>)
    returns (r: Result<Sql>)
    ensures r == SelectSql(table, fields, where, orderBy, limit)
  {
    var sql := "SELECT " + GetFields(fields) + " FROM ??";
    var args := [Str(table)];
    var whereSql := GenWhere(where);
    if whereSql.Err? {
      return Err(whereSql.error);
    }
    if whereSql.value.ok {
      sql := sql + (" WHERE " + whereSql.value.sql);
      args := args + whereSql.value.args;
    } else {
      AppendEmpty(sql);
      assert args + WhereArgs(whereSql.value) == args;
    }
    if orderBy.Some? {
      sql := sql + (" ORDER BY " + orderBy.value);
    } else {
      AppendEmpty(sql);
    }
    if limit.Some? {
      match limit.value {
        case LimitText(text) =>
          sql := sql + (" LIMIT " + text);
        case LimitPage(offset, size) =>
          sql := sql + (" LIMIT " + ((if offset.Some? then NatToString(offset.value) + ", " else "") + NatToString(size)));
      }
    } else {
      AppendEmpty(sql);
    }
    r := Ok(Sql(sql, args));
  }

  // ---------------------------------------------------------------- count

  /** What `count(table, where)` returns or throws. */
  function CountSql(table: string, where: Where): (r: Result<Sql>)
    ensures r.Err? <==> CompileWhere(where).Err?
    ensures r.Err? ==> r.error == CompileWhere(where).error
    ensures r.Ok? ==> |r.value.args| >= 1 && r.value.args[0] == Str(table)
    ensures r.Ok? ==> CountHead <= r.value.sql
  {
    match CompileWhere(where)
    case Err(e) => Err(e)
    case Ok(w) => Ok(Sql(CountHead + WhereClause(w), [Str(table)] + WhereArgs(w)))
  }

  /** `count`: the fixed COUNT projection, then WHERE only when the condition reports a predicate. */
  method Count(table: string, where: Where) returns (r: Result<Sql>)
    ensures r == CountSql(table, where)
  {
    var sql := CountHead;
    var args := [Str(table)];
    var whereSql := GenWhere(where);
    if whereSql.Err? {
      return Err(whereSql.error);
    }
    if whereSql.value.ok {
      sql := sql + (" WHERE " + whereSql.value.sql);
      args := args + whereSql.value.args;
    } else {
      AppendEmpty(sql);
      assert args + WhereArgs(whereSql.value) == args;
    }
    r := Ok(Sql(sql, args));
  }

  // ---------------------------------------------------------------- insert

  /**
   * `insert`: the fixed text with the table and the serialized assignment map
   * as its two arguments; an assignment map without keys is refused.
   */
  function InsertSql(table: string, data: Data, json: Value -> string): (r: Result<Sql>)
    ensures r.Err? <==> |data| == 0
    ensures r.Err? ==> r.error == SetNull
    ensures r.Ok? ==> r.value.sql == InsertText
    ensures r.Ok? ==> r.value.args == [Str(table), Obj(SerializeData(data, json))]
    ensures r.Ok? ==> |r.value.args[1].members| == |data|
  {
    var genSetData := SerializeData(data, json);
    if |genSetData| == 0 then Err(SetNull)
    else Ok(Sql(InsertText, [Str(table), Obj(genSetData)]))
  }

  // ---------------------------------------------------------------- update

  /** What `update(table, where, setData)` returns or throws. */
  function UpdateSql(table: string, where: Where, setData: Data, json: Value -> string): (r: Result<Sql>)
    ensures |setData| == 0 ==> r == Err(SetNull)
    ensures r.Ok? ==> |r.value.args| >= 2 && r.value.args[..2] == [Str(table), Obj(SerializeData(setData, json))]
    ensures r.Ok? ==> UpdateHead <= r.value.sql
  {
    var genSetData := SerializeData(setData, json);
    if |genSetData| == 0 then Err(SetNull)
    else match CompileWhere(where)
      case Err(e) => Err(e)
      case Ok(w) =>
        if w.ok then Ok(Sql(UpdateHead + (" " + w.sql), [Str(table), Obj(genSetData)] + w.args))
        else Err(WhereNull)
  }

  /** `update`: refuses an empty assignment map first, then a condition without a predicate. */
  method Update(table: string, where: Where, setData: Data, json: Value -> string) returns (r: Result<Sql>)
    ensures r == UpdateSql(table, where, setData, json)
  {
    var sql := UpdateHead;
    var genSetData := GenData(setData, json);
    if |genSetData| == 0 {
      return Err(SetNull);
    }
    var args := [Str(table), Obj(genSetData)];
    var whereSql := GenWhere(where);
    if whereSql.Err? {
      return Err(whereSql.error);
    }
    if whereSql.value.ok {
      sql := sql + (" " + whereSql.value.sql);
      args := args + whereSql.value.args;
    } else {
      return Err(WhereNull);
    }
    r := Ok(Sql(sql, args));
  }

  // ---------------------------------------------------------------- del

  /** What `del(table, where)` returns or throws. */
  function DelSql(table: string, where: Where): (r: Result<Sql>)
    ensures r.Ok? ==> |r.value.args| >= 1 && r.value.args[0] == Str(table)
    ensures r.Ok? ==> DelHead <= r.value.sql
  {
    match CompileWhere(where)
    case Err(e) => Err(e)
    case Ok(w) =>
      if w.ok then Ok(Sql(DelHead + (" " + w.sql), [Str(table)] + w.args))
      else Err(WhereNull)
  }

  /** `del`: refuses a condition without a predicate. */
  method Del(table: string, where: Where) returns (r: Result<Sql>)
    ensures r == DelSql(table, where)
  {
    var sql := DelHead;
    var args := [Str(table)];
    var whereSql := GenWhere(where);
    if whereSql.Err? {
      return Err(whereSql.error);
    }
    if whereSql.value.ok {
      sql := sql + (" " + whereSql.value.sql);
      args := args + whereSql.value.args;
    } else {
      return Err(WhereNull);
    }
    r := Ok(Sql(sql, args));
  }
}
