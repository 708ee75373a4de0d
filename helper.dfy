/**
 * The condition compiler (src/helper.ts): identifier quoting, the operator-map
 * compiler `withOperator`, the condition-tree compiler `genWhere` and the
 * assignment serializer `genData`.
 *
 * Each loop of the source is a method proved against a specification function
 * of the same name in declarative form: the error a compile throws is the one
 * raised by the first offending key, and the fragment it builds is assembled
 * from the per-key contributions, in key order.
 */
module Helper {
  import opened Types
  import opened Text

  // ---------------------------------------------------------------- errors

  /** The message each thrown error carries; the last one lists the vocabulary as JSON. */
  function ErrorMessage(e: SqlError): string {
    match e
    case WhereNull => "where cannot be null or empty"
    case SetNull => "set data cannot be null or empty"
    case WhereInEmptyArray => "where condition [in] value must be array (len>0)"
    case UnknownOperator =>
      "unknown operator, only [\"LIKE\",\"IN\",\">\",\"<\",\">=\",\"<=\",\"=\",\"Symbol(OR)\"] is available"
  }

  /** The four errors can be told apart by their messages. */
  lemma ErrorMessagesDistinct()
    ensures forall e1, e2 :: ErrorMessage(e1) == ErrorMessage(e2) ==> e1 == e2
  {
  }

  // ---------------------------------------------------------------- identifiers

  /** `getFiled`: wraps a column name in backticks, without escaping. */
  function Quote(field: string): (q: string)
    ensures |q| == |field| + 2 && q[0] == '`' && q[|q| - 1] == '`' && q[1..|q| - 1] == field
  {
    "`" + field + "`"
  }

  function QuoteAll(names: seq<string>): (quoted: seq<string>)
    ensures |quoted| == |names|
    ensures forall i | 0 <= i < |names| :: quoted[i] == Quote(names[i])
  {
    seq(|names|, i requires 0 <= i < |names| => Quote(names[i]))
  }

  /**
   * `getFields`: `*` for an absent list or for exactly `*`; otherwise the list
   * is split on commas (no trimming) and each piece is quoted.
   */
  function GetFields(fields: Option<string>): (projection: string)
    ensures fields.None? || fields == Some("*") ==> projection == "*"
    ensures fields.Some? && fields.value != "*" ==> |projection| > 0 && projection[0] == '`'
  {
    if fields.Some? && fields.value != "*" then
      var quoted := QuoteAll(Split(fields.value, ','));
      JoinHead(quoted, ", ");
      Join(quoted, ", ")
    else "*"
  }

  // ---------------------------------------------------------------- for...in

  /** A position of an array or a string, written as `for...in` yields it. */
  lemma IndexKeyNotAvailable(n: nat)
    ensures !IsAvailable(NatToString(n))
  {
    var r := NatToString(n);
    assert IsDigit(r[0]);
  }

  /**
   * The keys `for...in` visits on v, in order, with their values: an object's
   * own keys, the positions of an array or of a string, nothing otherwise.
   * Only an object can carry an operator or the OR sentinel as a key.
   */
  function Entries(v: Value): (es: seq<Member>)
    ensures v.Obj? ==> es == v.members
    ensures forall i | 0 <= i < |es| :: es[i].key == OrKey ==> v.Obj?
  {
    match v
    case Obj(ms) => ms
    case Arr(items) =>
      var es := seq(|items|, i requires 0 <= i < |items| => Member(NatToString(i), items[i]));
      assert forall i | 0 <= i < |es| :: es[i].key != OrKey by {
        forall i | 0 <= i < |es| ensures es[i].key != OrKey { IndexKeyNotAvailable(i); }
      }
      es
    case Str(s) =>
      var es := seq(|s|, i requires 0 <= i < |s| => Member(NatToString(i), Str([s[i]])));
      assert forall i | 0 <= i < |es| :: es[i].key != OrKey by {
        forall i | 0 <= i < |es| ensures es[i].key != OrKey { IndexKeyNotAvailable(i); }
      }
      es
    case _ => []
  }

  /** The value under an OR key is a part of the map that holds it. */
  lemma OrValueSmaller(v: Value, i: nat)
    requires i < |Entries(v)| && Entries(v)[i].key == OrKey
    ensures Entries(v)[i].value < v
  {
    assert v.Obj? && Entries(v)[i] in v.members;
  }

  /** Only an object can carry an operator or the OR sentinel as a key. */
  lemma EntriesOfNonObject(v: Value, i: nat)
    requires !v.Obj? && i < |Entries(v)|
    ensures !IsAvailable(Entries(v)[i].key)
  {
    IndexKeyNotAvailable(i);
  }

  // ---------------------------------------------------------------- fragments

  /** The texts of a list of fragments, in order. */
  function SqlsOf(parts: seq<OkSql>): (sqls: seq<string>)
    ensures |sqls| == |parts|
  {
    if |parts| == 0 then [] else SqlsOf(parts[..|parts| - 1]) + [parts[|parts| - 1].sql]
  }

  /** The arguments of a list of fragments, concatenated in order. */
  function ArgsOf(parts: seq<OkSql>): seq<Value> {
    if |parts| == 0 then [] else ArgsOf(parts[..|parts| - 1]) + parts[|parts| - 1].args
  }

  /**
   * The two text rewrites applied to every compiled fragment. The first
   * (" AND OR " to " OR ") never matches the text the compiler builds when no
   * field name contains " AND", so only the second remains: a leading " OR "
   * is dropped.
   */
  function Rewrite(sql: string): string {
    if |sql| >= 4 && sql[..4] == " OR " then sql[4..] else sql
  }

  // ---------------------------------------------------------------- operator maps

  /**
   * What one comparison key contributes: the fragment `<field> <op> ?` and one
   * argument; the array of an IN is passed wrapped in a one-element list.
   */
  function Comparison(field: string, m: Member): OkSql {
    OkSql(field + " " + m.key + " ?", [if m.key == "IN" then Arr([m.value]) else m.value], true)
  }

  /** The error, if any, that the i-th key of an operator map throws. */
  function OperatorKeyError(field: string, operator: Value, i: nat): Option<SqlError>
    requires i < |Entries(operator)|
    decreases operator, 0
  {
    var m := Entries(operator)[i];
    if !IsAvailable(m.key) then Some(UnknownOperator)
    else if m.key == OrKey then
      (match CompileOperator(field, m.value)
       case Err(e) => Some(e)
       case Ok(_) => None)
    else if m.key == "IN" && !(m.value.Arr? && |m.value.items| > 0) then Some(WhereInEmptyArray)
    else None
  }

  /** The error thrown by the first offending key among the first n. */
  function FirstOperatorError(field: string, operator: Value, n: nat): Option<SqlError>
    requires n <= |Entries(operator)|
    decreases operator, 1, n
  {
    if n == 0 then None
    else
      match FirstOperatorError(field, operator, n - 1)
      case Some(e) => Some(e)
      case None => OperatorKeyError(field, operator, n - 1)
  }

  /** The comparison fragments of the keys es, in order; OR keys contribute none. */
  function Comparisons(field: string, es: seq<Member>): seq<OkSql> {
    if |es| == 0 then []
    else
      var m := es[|es| - 1];
      Comparisons(field, es[..|es| - 1]) + (if m.key == OrKey then [] else [Comparison(field, m)])
  }

  /** The non-empty compiled OR sub-maps among the first n keys, in order. */
  function OrBranches(field: string, operator: Value, n: nat): seq<OkSql>
    requires n <= |Entries(operator)|
    decreases operator, 1, n
  {
    if n == 0 then []
    else
      var m := Entries(operator)[n - 1];
      OrBranches(field, operator, n - 1) +
        if m.key != OrKey then []
        else match CompileOperator(field, m.value)
          case Ok(sub) => if sub.ok then [sub] else []
          case Err(_) => []
  }

  /** The text of an operator map before the rewrites, from its AND fragments and its OR sides. */
  function OperatorText(andSqls: seq<string>, orSqls: seq<string>): string {
    var andSql := Join(andSqls, " AND ");
    if |orSqls| > 0 then "((" + andSql + ") OR (" + Join(orSqls, " AND ") + "))" else andSql
  }

  function CombineOperator(ands: seq<OkSql>, ors: seq<OkSql>): (c: OkSql)
    ensures !c.ok ==> c == OkSql("", [], false)
  {
    OkSql(Rewrite(OperatorText(SqlsOf(ands), SqlsOf(ors))), ArgsOf(ands) + ArgsOf(ors), |ands| > 0 || |ors| > 0)
  }

  /**
   * What `withOperator(field, operator)` returns or throws. A result that
   * reports no predicate carries no text and no arguments.
   */
  function CompileOperator(field: string, operator: Value): (r: Result<OkSql>)
    ensures r.Ok? && !r.value.ok ==> r.value == OkSql("", [], false)
    decreases operator, 2
  {
    var es := Entries(operator);
    match FirstOperatorError(field, operator, |es|)
    case Some(e) => Err(e)
    case None => Ok(CombineOperator(Comparisons(field, es), OrBranches(field, operator, |es|)))
  }

  // ---------------------------------------------------------------- condition trees

  /** What one field key of a condition tree compiles to. */
  function FieldFragment(m: Member): Result<OkSql> {
    var field := Quote(m.key);
    match m.value
    case Null => Ok(OkSql(field + " IS NULL", [], true))
    case Str(_) => Ok(OkSql(field + " = ?", [m.value], true))
    case Num(_) => Ok(OkSql(field + " = ?", [m.value], true))
    case _ => CompileOperator(field, m.value)
  }

  /** The error, if any, that the i-th key of a condition tree throws. */
  function WhereKeyError(where: Value, i: nat): Option<SqlError>
    requires i < |Entries(where)|
    decreases where, 0
  {
    var m := Entries(where)[i];
    var r := if m.key == OrKey then CompileWhere(m.value) else FieldFragment(m);
    if r.Err? then Some(r.error) else None
  }

  function FirstWhereError(where: Value, n: nat): Option<SqlError>
    requires n <= |Entries(where)|
    decreases where, 1, n
  {
    if n == 0 then None
    else
      match FirstWhereError(where, n - 1)
      case Some(e) => Some(e)
      case None => WhereKeyError(where, n - 1)
  }

  /** The non-empty field fragments of the keys es, in order; OR keys contribute none. */
  function FieldParts(es: seq<Member>): seq<OkSql> {
    if |es| == 0 then []
    else
      var m := es[|es| - 1];
      FieldParts(es[..|es| - 1]) +
        if m.key == OrKey then []
        else match FieldFragment(m)
          case Ok(f) => if f.ok then [f] else []
          case Err(_) => []
  }

  /** The non-empty compiled OR branches among the first n keys, in order. */
  function WhereBranches(where: Value, n: nat): seq<OkSql>
    requires n <= |Entries(where)|
    decreases where, 1, n
  {
    if n == 0 then []
    else
      var m := Entries(where)[n - 1];
      WhereBranches(where, n - 1) +
        if m.key != OrKey then []
        else match CompileWhere(m.value)
          case Ok(sub) => if sub.ok then [sub] else []
          case Err(_) => []
  }

  /** The text of a condition tree before the rewrites, from its field fragments and its OR branches. */
  function WhereText(andSqls: seq<string>, orSqls: seq<string>): string {
    var andSql := Join(andSqls, " AND ");
    if |orSqls| > 0 then andSql + " OR (" + Join(orSqls, " AND ") + ")" else andSql
  }

  function CombineWhere(ands: seq<OkSql>, ors: seq<OkSql>): (c: OkSql)
    ensures !c.ok ==> c == OkSql("", [], false)
  {
    OkSql(Rewrite(WhereText(SqlsOf(ands), SqlsOf(ors))), ArgsOf(ands) + ArgsOf(ors), |ands| > 0 || |ors| > 0)
  }

  /**
   * What `genWhere(where)` returns or throws; an absent tree is `Null`. A
   * result that reports no predicate carries no text and no arguments.
   */
  function CompileWhere(where: Value): (r: Result<OkSql>)
    ensures r.Ok? && !r.value.ok ==> r.value == OkSql("", [], false)
    decreases where, 2
  {
    if where.Null? then Ok(OkSql("", [], false))
    else
      var es := Entries(where);
      match FirstWhereError(where, |es|)
      case Some(e) => Err(e)
      case None => Ok(CombineWhere(FieldParts(es), WhereBranches(where, |es|)))
  }

  // ---------------------------------------------------------------- the compilers

  /** Once some key has thrown, the first error of a longer prefix is the same one. */
  lemma {:induction false} FirstOperatorErrorStays(field: string, operator: Value, n: nat, n': nat)
    requires n <= n' <= |Entries(operator)|
    requires FirstOperatorError(field, operator, n).Some?
    ensures FirstOperatorError(field, operator, n') == FirstOperatorError(field, operator, n)
    decreases n'
  {
    if n' > n {
      FirstOperatorErrorStays(field, operator, n, n' - 1);
    }
  }

  lemma {:induction false} FirstWhereErrorStays(where: Value, n: nat, n': nat)
    requires n <= n' <= |Entries(where)|
    requires FirstWhereError(where, n).Some?
    ensures FirstWhereError(where, n') == FirstWhereError(where, n)
    decreases n'
  {
    if n' > n {
      FirstWhereErrorStays(where, n, n' - 1);
    }
  }

  lemma SqlsArgsSnoc(parts: seq<OkSql>, extra: seq<OkSql>)
    requires |extra| <= 1
    ensures SqlsOf(parts + extra) == SqlsOf(parts) + SqlsOf(extra)
    ensures ArgsOf(parts + extra) == ArgsOf(parts) + ArgsOf(extra)
  {
    if |extra| == 1 {
      assert (parts + extra)[..|parts|] == parts;
    } else {
      assert parts + extra == parts;
    }
  }

  /** What `withOperator` has built after visiting the first i keys without throwing. */
  ghost predicate OperatorLoop(field: string, operator: Value, i: nat,
                               sqlArr: seq<string>, args: seq<Value>, orSqlArr: seq<string>, orArgs: seq<Value>)
    requires i <= |Entries(operator)|
  {
    && FirstOperatorError(field, operator, i) == None
    && sqlArr == SqlsOf(Comparisons(field, Entries(operator)[..i]))
    && args == ArgsOf(Comparisons(field, Entries(operator)[..i]))
    && orSqlArr == SqlsOf(OrBranches(field, operator, i))
    && orArgs == ArgsOf(OrBranches(field, operator, i))
  }

  /** A comparison key adds its fragment and its argument. */
  lemma OperatorLoopComparison(field: string, operator: Value, i: nat,
                               sqlArr: seq<string>, args: seq<Value>, orSqlArr: seq<string>, orArgs: seq<Value>,
                               sql: string, arg: Value)
    requires i < |Entries(operator)|
    requires OperatorLoop(field, operator, i, sqlArr, args, orSqlArr, orArgs)
    requires var m := Entries(operator)[i];
             IsAvailable(m.key) && m.key != OrKey && (m.key == "IN" ==> m.value.Arr? && |m.value.items| > 0)
    requires sql == field + " " + Entries(operator)[i].key + " ?"
    requires arg == if Entries(operator)[i].key == "IN" then Arr([Entries(operator)[i].value]) else Entries(operator)[i].value
    ensures OperatorLoop(field, operator, i + 1, sqlArr + [sql], args + [arg], orSqlArr, orArgs)
  {
    var es := Entries(operator);
    assert Comparison(field, es[i]) == OkSql(sql, [arg], true);
    ComparisonKeyPasses(field, operator, i);
    ComparisonsAdd(field, es, i);
    OrBranchesSkipComparison(field, operator, i);
    SqlsArgsSnoc(Comparisons(field, es[..i]), [Comparison(field, es[i])]);
    SqlsArgsSnoc(OrBranches(field, operator, i), []);
  }

  lemma ComparisonKeyPasses(field: string, operator: Value, i: nat)
    requires i < |Entries(operator)|
    requires FirstOperatorError(field, operator, i) == None
    requires var m := Entries(operator)[i];
             IsAvailable(m.key) && m.key != OrKey && (m.key == "IN" ==> m.value.Arr? && |m.value.items| > 0)
    ensures FirstOperatorError(field, operator, i + 1) == None
  {
    assert OperatorKeyError(field, operator, i) == None;
  }

  lemma ComparisonsAdd(field: string, es: seq<Member>, i: nat)
    requires i < |es| && es[i].key != OrKey
    ensures Comparisons(field, es[..i + 1]) == Comparisons(field, es[..i]) + [Comparison(field, es[i])]
  {
    var prefix := es[..i + 1];
    assert prefix[..i] == es[..i] && prefix[i] == es[i];
  }

  lemma OrBranchesSkipComparison(field: string, operator: Value, i: nat)
    requires i < |Entries(operator)| && Entries(operator)[i].key != OrKey
    ensures OrBranches(field, operator, i + 1) == OrBranches(field, operator, i) + []
  {
  }

  /** An OR key adds its compiled sub-map when that is non-empty. */
  lemma OperatorLoopOr(field: string, operator: Value, i: nat,
                       sqlArr: seq<string>, args: seq<Value>, orSqlArr: seq<string>, orArgs: seq<Value>, sub: OkSql)
    requires i < |Entries(operator)|
    requires OperatorLoop(field, operator, i, sqlArr, args, orSqlArr, orArgs)
    requires Entries(operator)[i].key == OrKey
    requires CompileOperator(field, Entries(operator)[i].value) == Ok(sub)
    ensures OperatorLoop(field, operator, i + 1, sqlArr, args,
                         if sub.ok then orSqlArr + [sub.sql] else orSqlArr,
                         if sub.ok then orArgs + sub.args else orArgs)
  {
    var es := Entries(operator);
    OrKeyPasses(field, operator, i, sub);
    ComparisonsSkipOr(field, es, i);
    OrBranchesAdd(field, operator, i, sub);
    SqlsArgsSnoc(Comparisons(field, es[..i]), []);
    SqlsArgsSnoc(OrBranches(field, operator, i), if sub.ok then [sub] else []);
  }

  lemma OrKeyPasses(field: string, operator: Value, i: nat, sub: OkSql)
    requires i < |Entries(operator)|
    requires FirstOperatorError(field, operator, i) == None
    requires Entries(operator)[i].key == OrKey && CompileOperator(field, Entries(operator)[i].value) == Ok(sub)
    ensures FirstOperatorError(field, operator, i + 1) == None
  {
    assert OperatorKeyError(field, operator, i) == None;
  }

  lemma ComparisonsSkipOr(field: string, es: seq<Member>, i: nat)
    requires i < |es| && es[i].key == OrKey
    ensures Comparisons(field, es[..i + 1]) == Comparisons(field, es[..i]) + []
  {
    var prefix := es[..i + 1];
    assert prefix[..i] == es[..i] && prefix[i] == es[i];
  }

  lemma OrBranchesAdd(field: string, operator: Value, i: nat, sub: OkSql)
    requires i < |Entries(operator)|
    requires Entries(operator)[i].key == OrKey && CompileOperator(field, Entries(operator)[i].value) == Ok(sub)
    ensures OrBranches(field, operator, i + 1) == OrBranches(field, operator, i) + if sub.ok then [sub] else []
  {
  }

  /** A key that is not an OR side reporting a condition adds no OR side. */
  lemma OrBranchesSkip(field: string, operator: Value, i: nat)
    requires i < |Entries(operator)|
    requires var m := Entries(operator)[i];
             !(m.key == OrKey && CompileOperator(field, m.value).Ok? && CompileOperator(field, m.value).value.ok)
    ensures OrBranches(field, operator, i + 1) == OrBranches(field, operator, i)
  {
    var m := Entries(operator)[i];
    if m.key == OrKey && CompileOperator(field, m.value).Ok? {
      OrBranchesAdd(field, operator, i, CompileOperator(field, m.value).value);
    }
  }

  /** A key that throws, after keys that did not, decides the result of the whole map. */
  lemma OperatorLoopThrows(field: string, operator: Value, i: nat,
                           sqlArr: seq<string>, args: seq<Value>, orSqlArr: seq<string>, orArgs: seq<Value>)
    requires i < |Entries(operator)|
    requires OperatorLoop(field, operator, i, sqlArr, args, orSqlArr, orArgs)
    requires OperatorKeyError(field, operator, i).Some?
    ensures CompileOperator(field, operator) == Err(OperatorKeyError(field, operator, i).value)
  {
    FirstOperatorErrorStays(field, operator, i + 1, |Entries(operator)|);
  }

  /** A key outside the vocabulary throws `UnknownOperator`. */
  lemma OperatorLoopUnknown(field: string, operator: Value, i: nat,
                            sqlArr: seq<string>, args: seq<Value>, orSqlArr: seq<string>, orArgs: seq<Value>)
    requires i < |Entries(operator)|
    requires OperatorLoop(field, operator, i, sqlArr, args, orSqlArr, orArgs)
    requires !IsAvailable(Entries(operator)[i].key)
    ensures CompileOperator(field, operator) == Err(UnknownOperator)
  {
    assert OperatorKeyError(field, operator, i) == Some(UnknownOperator);
    OperatorLoopThrows(field, operator, i, sqlArr, args, orSqlArr, orArgs);
  }

  /** An IN key whose value is not a non-empty array throws `WhereInEmptyArray`. */
  lemma OperatorLoopEmptyIn(field: string, operator: Value, i: nat,
                            sqlArr: seq<string>, args: seq<Value>, orSqlArr: seq<string>, orArgs: seq<Value>)
    requires i < |Entries(operator)|
    requires OperatorLoop(field, operator, i, sqlArr, args, orSqlArr, orArgs)
    requires var m := Entries(operator)[i]; m.key == "IN" && !(m.value.Arr? && |m.value.items| > 0)
    ensures CompileOperator(field, operator) == Err(WhereInEmptyArray)
  {
    VocabularyFacts();
    assert OperatorKeyError(field, operator, i) == Some(WhereInEmptyArray);
    OperatorLoopThrows(field, operator, i, sqlArr, args, orSqlArr, orArgs);
  }

  /** An OR key whose sub-map throws passes the error on. */
  lemma OperatorLoopSubThrows(field: string, operator: Value, i: nat,
                              sqlArr: seq<string>, args: seq<Value>, orSqlArr: seq<string>, orArgs: seq<Value>, e: SqlError)
    requires i < |Entries(operator)|
    requires OperatorLoop(field, operator, i, sqlArr, args, orSqlArr, orArgs)
    requires Entries(operator)[i].key == OrKey && CompileOperator(field, Entries(operator)[i].value) == Err(e)
    ensures CompileOperator(field, operator) == Err(e)
  {
    VocabularyFacts();
    assert OperatorKeyError(field, operator, i) == Some(e);
    OperatorLoopThrows(field, operator, i, sqlArr, args, orSqlArr, orArgs);
  }

  /** An OR key whose sub-map reports no condition adds nothing. */
  lemma OperatorLoopSubEmpty(field: string, operator: Value, i: nat,
                             sqlArr: seq<string>, args: seq<Value>, orSqlArr: seq<string>, orArgs: seq<Value>, sub: OkSql)
    requires i < |Entries(operator)|
    requires OperatorLoop(field, operator, i, sqlArr, args, orSqlArr, orArgs)
    requires Entries(operator)[i].key == OrKey && CompileOperator(field, Entries(operator)[i].value) == Ok(sub)
    requires !sub.ok
    ensures OperatorLoop(field, operator, i + 1, sqlArr, args, orSqlArr, orArgs)
  {
    OperatorLoopOr(field, operator, i, sqlArr, args, orSqlArr, orArgs, sub);
  }

  /** An OR key whose sub-map reports a condition adds it to the OR side. */
  lemma OperatorLoopSubAdd(field: string, operator: Value, i: nat,
                           sqlArr: seq<string>, args: seq<Value>, orSqlArr: seq<string>, orArgs: seq<Value>, sub: OkSql)
    requires i < |Entries(operator)|
    requires OperatorLoop(field, operator, i, sqlArr, args, orSqlArr, orArgs)
    requires Entries(operator)[i].key == OrKey && CompileOperator(field, Entries(operator)[i].value) == Ok(sub)
    requires sub.ok
    ensures OperatorLoop(field, operator, i + 1, sqlArr, args, orSqlArr + [sub.sql], orArgs + sub.args)
  {
    OperatorLoopOr(field, operator, i, sqlArr, args, orSqlArr, orArgs, sub);
  }

  /** After the last key, the fragments are assembled. */
  lemma OperatorLoopDone(field: string, operator: Value,
                         sqlArr: seq<string>, args: seq<Value>, orSqlArr: seq<string>, orArgs: seq<Value>)
    requires OperatorLoop(field, operator, |Entries(operator)|, sqlArr, args, orSqlArr, orArgs)
    ensures CompileOperator(field, operator)
         == Ok(OkSql(Rewrite(OperatorText(sqlArr, orSqlArr)),
                     if |orSqlArr| > 0 then args + orArgs else args,
                     |sqlArr| > 0 || |orSqlArr| > 0))
  {
    var es := Entries(operator);
    assert es[..|es|] == es;
    var ors := OrBranches(field, operator, |es|);
    if |orSqlArr| == 0 {
      assert ors == [];
      assert args + orArgs == args;
    }
  }

  /** What `genWhere` has built after visiting the first i keys without throwing. */
  ghost predicate WhereLoop(where: Value, i: nat,
                            sqlArr: seq<string>, args: seq<Value>, orSqlArr: seq<string>, orArgs: seq<Value>)
    requires i <= |Entries(where)|
  {
    && FirstWhereError(where, i) == None
    && sqlArr == SqlsOf(FieldParts(Entries(where)[..i]))
    && args == ArgsOf(FieldParts(Entries(where)[..i]))
    && orSqlArr == SqlsOf(WhereBranches(where, i))
    && orArgs == ArgsOf(WhereBranches(where, i))
  }

  /** A key that throws, after keys that did not, decides the whole condition tree's error. */
  lemma WhereLoopStops(where: Value, i: nat, sqlArr: seq<string>, args: seq<Value>, orSqlArr: seq<string>, orArgs: seq<Value>)
    requires i < |Entries(where)| && !where.Null?
    requires WhereLoop(where, i, sqlArr, args, orSqlArr, orArgs)
    requires WhereKeyError(where, i).Some?
    ensures CompileWhere(where) == Err(WhereKeyError(where, i).value)
  {
    FirstWhereErrorStays(where, i + 1, |Entries(where)|);
  }

  lemma WhereLoopAddField(where: Value, i: nat,
                          sqlArr: seq<string>, args: seq<Value>, orSqlArr: seq<string>, orArgs: seq<Value>, f: OkSql)
    requires i < |Entries(where)|
    requires WhereLoop(where, i, sqlArr, args, orSqlArr, orArgs)
    requires Entries(where)[i].key != OrKey && FieldFragment(Entries(where)[i]) == Ok(f)
    ensures WhereLoop(where, i + 1,
                      if f.ok then sqlArr + [f.sql] else sqlArr,
                      if f.ok then args + f.args else args,
                      orSqlArr, orArgs)
  {
    var es := Entries(where);
    var extra := if f.ok then [f] else [];
    FieldKeyPasses(where, i, f);
    FieldPartsAdd(es, i, f);
    WhereBranchesSkipField(where, i);
    SqlsArgsSnoc(FieldParts(es[..i]), extra);
    SqlsArgsSnoc(WhereBranches(where, i), []);
  }

  /** A field key whose fragment compiles throws nothing. */
  lemma FieldKeyPasses(where: Value, i: nat, f: OkSql)
    requires i < |Entries(where)|
    requires FirstWhereError(where, i) == None
    requires Entries(where)[i].key != OrKey && FieldFragment(Entries(where)[i]) == Ok(f)
    ensures FirstWhereError(where, i + 1) == None
  {
    assert WhereKeyError(where, i) == None;
  }

  /** A field key adds its fragment when that reports a condition. */
  lemma FieldPartsAdd(es: seq<Member>, i: nat, f: OkSql)
    requires i < |es| && es[i].key != OrKey && FieldFragment(es[i]) == Ok(f)
    ensures FieldParts(es[..i + 1]) == FieldParts(es[..i]) + if f.ok then [f] else []
  {
    var prefix := es[..i + 1];
    assert prefix[..i] == es[..i] && prefix[i] == es[i];
  }

  /** A field key adds no OR branch. */
  lemma WhereBranchesSkipField(where: Value, i: nat)
    requires i < |Entries(where)| && Entries(where)[i].key != OrKey
    ensures WhereBranches(where, i + 1) == WhereBranches(where, i) + []
  {
  }

  lemma WhereLoopAddBranch(where: Value, i: nat,
                           sqlArr: seq<string>, args: seq<Value>, orSqlArr: seq<string>, orArgs: seq<Value>, sub: OkSql)
    requires i < |Entries(where)|
    requires WhereLoop(where, i, sqlArr, args, orSqlArr, orArgs)
    requires Entries(where)[i].key == OrKey && CompileWhere(Entries(where)[i].value) == Ok(sub)
    ensures WhereLoop(where, i + 1, sqlArr, args,
                      if sub.ok then orSqlArr + [sub.sql] else orSqlArr,
                      if sub.ok then orArgs + sub.args else orArgs)
  {
    var es := Entries(where);
    var extra := if sub.ok then [sub] else [];
    BranchKeyPasses(where, i, sub);
    FieldPartsSkipBranch(es, i);
    WhereBranchesAdd(where, i, sub);
    SqlsArgsSnoc(FieldParts(es[..i]), []);
    SqlsArgsSnoc(WhereBranches(where, i), extra);
  }

  /** An OR key whose sub-tree compiles throws nothing. */
  lemma BranchKeyPasses(where: Value, i: nat, sub: OkSql)
    requires i < |Entries(where)|
    requires FirstWhereError(where, i) == None
    requires Entries(where)[i].key == OrKey && CompileWhere(Entries(where)[i].value) == Ok(sub)
    ensures FirstWhereError(where, i + 1) == None
  {
    assert WhereKeyError(where, i) == None;
  }

  /** An OR key adds no field fragment. */
  lemma FieldPartsSkipBranch(es: seq<Member>, i: nat)
    requires i < |es| && es[i].key == OrKey
    ensures FieldParts(es[..i + 1]) == FieldParts(es[..i]) + []
  {
    var prefix := es[..i + 1];
    assert prefix[..i] == es[..i] && prefix[i] == es[i];
  }

  /** An OR key adds its compiled sub-tree to the branches when that reports a condition. */
  lemma WhereBranchesAdd(where: Value, i: nat, sub: OkSql)
    requires i < |Entries(where)|
    requires Entries(where)[i].key == OrKey && CompileWhere(Entries(where)[i].value) == Ok(sub)
    ensures WhereBranches(where, i + 1) == WhereBranches(where, i) + if sub.ok then [sub] else []
  {
  }

  /** A key that is not an OR branch reporting a condition adds no branch. */
  lemma WhereBranchesSkip(where: Value, i: nat)
    requires i < |Entries(where)|
    requires var m := Entries(where)[i];
             !(m.key == OrKey && CompileWhere(m.value).Ok? && CompileWhere(m.value).value.ok)
    ensures WhereBranches(where, i + 1) == WhereBranches(where, i)
  {
    var m := Entries(where)[i];
    if m.key == OrKey && CompileWhere(m.value).Ok? {
      WhereBranchesAdd(where, i, CompileWhere(m.value).value);
    }
  }

  /** A field key throws its fragment's error, or adds the fragment when that is non-empty. */
  lemma WhereLoopField(where: Value, i: nat,
                       sqlArr: seq<string>, args: seq<Value>, orSqlArr: seq<string>, orArgs: seq<Value>, t: Result<OkSql>)
    requires i < |Entries(where)| && !where.Null?
    requires WhereLoop(where, i, sqlArr, args, orSqlArr, orArgs)
    requires Entries(where)[i].key != OrKey && t == FieldFragment(Entries(where)[i])
    ensures t.Err? ==> CompileWhere(where) == Err(t.error)
    ensures t.Ok? ==> WhereLoop(where, i + 1,
                                if t.value.ok then sqlArr + [t.value.sql] else sqlArr,
                                if t.value.ok then args + t.value.args else args,
                                orSqlArr, orArgs)
  {
    if t.Err? {
      assert WhereKeyError(where, i) == Some(t.error);
      WhereLoopStops(where, i, sqlArr, args, orSqlArr, orArgs);
    } else {
      WhereLoopAddField(where, i, sqlArr, args, orSqlArr, orArgs, t.value);
    }
  }

  /** An OR key throws its sub-tree's error, or adds the compiled branch when that is non-empty. */
  lemma WhereLoopOr(where: Value, i: nat,
                    sqlArr: seq<string>, args: seq<Value>, orSqlArr: seq<string>, orArgs: seq<Value>, t: Result<OkSql>)
    requires i < |Entries(where)| && !where.Null?
    requires WhereLoop(where, i, sqlArr, args, orSqlArr, orArgs)
    requires Entries(where)[i].key == OrKey && t == CompileWhere(Entries(where)[i].value)
    ensures t.Err? ==> CompileWhere(where) == Err(t.error)
    ensures t.Ok? ==> WhereLoop(where, i + 1, sqlArr, args,
                                if t.value.ok then orSqlArr + [t.value.sql] else orSqlArr,
                                if t.value.ok then orArgs + t.value.args else orArgs)
  {
    if t.Err? {
      assert WhereKeyError(where, i) == Some(t.error);
      WhereLoopStops(where, i, sqlArr, args, orSqlArr, orArgs);
    } else {
      WhereLoopAddBranch(where, i, sqlArr, args, orSqlArr, orArgs, t.value);
    }
  }

  lemma WhereLoopDone(where: Value,
                      sqlArr: seq<string>, args: seq<Value>, orSqlArr: seq<string>, orArgs: seq<Value>)
    requires !where.Null?
    requires WhereLoop(where, |Entries(where)|, sqlArr, args, orSqlArr, orArgs)
    ensures CompileWhere(where)
         == Ok(OkSql(Rewrite(WhereText(sqlArr, orSqlArr)),
                     if |orSqlArr| > 0 then args + orArgs else args,
                     |sqlArr| > 0 || |orSqlArr| > 0))
  {
    var es := Entries(where);
    assert es[..|es|] == es;
    var ors := WhereBranches(where, |es|);
    if |orSqlArr| == 0 {
      assert ors == [];
      assert args + orArgs == args;
    }
  }

  /** `withOperator`: compiles one field's operator map. */
  method WithOperator(field: string, operator: Value) returns (r: Result<OkSql>)
    ensures r == CompileOperator(field, operator)
    decreases operator
  {
    var entries := Entries(operator);
    var sqlArr: seq<string> := [];
    var orSqlArr: seq<string> := [];
    var args: seq<Value> := [];
    var orArgs: seq<Value> := [];
    for i := 0 to |entries|
      invariant OperatorLoop(field, operator, i, sqlArr, args, orSqlArr, orArgs)
    {
      var opr := entries[i].key;
      if !IsAvailable(opr) {
        OperatorLoopUnknown(field, operator, i, sqlArr, args, orSqlArr, orArgs);
        return Err(UnknownOperator);
      }
      if opr == OrKey {
        OrValueSmaller(operator, i);
        var tmpOpr := WithOperator(field, entries[i].value);
        if tmpOpr.Err? {
          OperatorLoopSubThrows(field, operator, i, sqlArr, args, orSqlArr, orArgs, tmpOpr.error);
          return Err(tmpOpr.error);
        }
        if !tmpOpr.value.ok {
          OperatorLoopSubEmpty(field, operator, i, sqlArr, args, orSqlArr, orArgs, tmpOpr.value);
          continue;
        }
        OperatorLoopSubAdd(field, operator, i, sqlArr, args, orSqlArr, orArgs, tmpOpr.value);
        orSqlArr := orSqlArr + [tmpOpr.value.sql];
        orArgs := orArgs + tmpOpr.value.args;
        continue;
      }
      var oprValue := entries[i].value;
      if opr == "IN" {
        if !(oprValue.Arr? && |oprValue.items| > 0) {
          OperatorLoopEmptyIn(field, operator, i, sqlArr, args, orSqlArr, orArgs);
          return Err(WhereInEmptyArray);
        }
        oprValue := Arr([oprValue]);
      }
      OperatorLoopComparison(field, operator, i, sqlArr, args, orSqlArr, orArgs, field + " " + opr + " ?", oprValue);
      sqlArr := sqlArr + [field + " " + opr + " ?"];
      args := args + [oprValue];
    }
    OperatorLoopDone(field, operator, sqlArr, args, orSqlArr, orArgs);
    var sql := Join(sqlArr, " AND ");
    if |orSqlArr| > 0 {
      sql := "((" + sql + ") OR (" + Join(orSqlArr, " AND ") + "))";
      args := args + orArgs;
    }
    sql := Rewrite(sql);
    r := Ok(OkSql(sql, args, |sqlArr| > 0 || |orSqlArr| > 0));
  }

  /** `genWhere`: compiles a whole condition tree. */
  method GenWhere(where: Value) returns (r: Result<OkSql>)
    ensures r == CompileWhere(where)
    decreases where
  {
    if where.Null? {
      return Ok(OkSql("", [], false));
    }
    var entries := Entries(where);
    var sqlArr: seq<string> := [];
    var args: seq<Value> := [];
    var orSqlArr: seq<string> := [];
    var orArgs: seq<Value> := [];
    for i := 0 to |entries|
      invariant WhereLoop(where, i, sqlArr, args, orSqlArr, orArgs)
    {
      var key := entries[i].key;
      if key == OrKey {
        OrValueSmaller(where, i);
        var tmpWhere := GenWhere(entries[i].value);
        WhereLoopOr(where, i, sqlArr, args, orSqlArr, orArgs, tmpWhere);
        if tmpWhere.Err? {
          return Err(tmpWhere.error);
        }
        if !tmpWhere.value.ok {
          continue;
        }
        orSqlArr := orSqlArr + [tmpWhere.value.sql];
        orArgs := orArgs + tmpWhere.value.args;
        continue;
      }
      var value := entries[i].value;
      var field := Quote(key);
      if value.Null? {
        WhereLoopField(where, i, sqlArr, args, orSqlArr, orArgs, Ok(OkSql(field + " IS NULL", [], true)));
        sqlArr := sqlArr + [field + " IS NULL"];
        continue;
      }
      if value.Str? || value.Num? {
        WhereLoopField(where, i, sqlArr, args, orSqlArr, orArgs, Ok(OkSql(field + " = ?", [value], true)));
        sqlArr := sqlArr + [field + " = ?"];
        args := args + [value];
        continue;
      }
      var operatorSql := WithOperator(field, value);
      WhereLoopField(where, i, sqlArr, args, orSqlArr, orArgs, operatorSql);
      if operatorSql.Err? {
        return Err(operatorSql.error);
      }
      if operatorSql.value.ok {
        sqlArr := sqlArr + [operatorSql.value.sql];
        args := args + operatorSql.value.args;
      }
    }
    WhereLoopDone(where, sqlArr, args, orSqlArr, orArgs);
    var sql := Join(sqlArr, " AND ");
    if |orSqlArr| > 0 {
      sql := sql + " OR (" + Join(orSqlArr, " AND ") + ")";
      args := args + orArgs;
    }
    sql := Rewrite(sql);
    r := Ok(OkSql(sql, args, |sqlArr| > 0 || |orSqlArr| > 0));
  }

  // ---------------------------------------------------------------- assignment maps

  /** A structured value (array or object) becomes its JSON text; anything else is kept. */
  function Serialize(v: Value, json: Value -> string): Value {
    if v.Arr? || v.Obj? then Str(json(v)) else v
  }

  /**
   * What `genData(data)` returns: the same keys in the same order, every
   * structured value replaced by its JSON text, every other value kept.
   */
  function SerializeData(data: Data, json: Value -> string): (newData: Data)
    ensures |newData| == |data|
    ensures forall i | 0 <= i < |data| :: newData[i].key == data[i].key
    ensures forall i | 0 <= i < |data| :: !newData[i].value.Arr? && !newData[i].value.Obj?
    ensures forall i | 0 <= i < |data| ::
              if data[i].value.Arr? || data[i].value.Obj? then newData[i].value.Str? && newData[i].value.s == json(data[i].value)
              else newData[i].value == data[i].value
  {
    seq(|data|, i requires 0 <= i < |data| => Member(data[i].key, Serialize(data[i].value, json)))
  }

  /**
   * `genData`: a copy of the assignment map in which every structured value
   * is replaced by its JSON text; the caller's map is a value and stays as it was.
   */
  method GenData(data: Data, json: Value -> string) returns (newData: Data)
    ensures newData == SerializeData(data, json)
  {
    newData := data;
    for i := 0 to |newData|
      invariant |newData| == |data|
      invariant forall j | 0 <= j < i :: newData[j] == Member(data[j].key, Serialize(data[j].value, json))
      invariant forall j | i <= j < |data| :: newData[j] == data[j]
    {
      var value := newData[i].value;
      if value.Arr? || value.Obj? {
        newData := newData[i := Member(newData[i].key, Str(json(value)))];
      }
    }
  }
}
