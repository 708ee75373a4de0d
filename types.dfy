/**
 * The data model of the SQL text generator: the runtime values a caller hands
 * in (condition trees, operator maps, assignment maps), the fixed operator
 * vocabulary with its OR sentinel, and the shapes of the compiled results.
 */
module Types {

  /**
   * A JavaScript value as the compiler sees it at run time. Objects are
   * association lists whose order is the order in which `for...in` visits
   * their keys. Numbers are taken to be integers; the compiler never does
   * arithmetic on them, it only passes them on as arguments.
   */
  datatype Value =
    | Null
    | Str(s: string)
    | Num(n: int)
    | Bool(b: bool)
    | Arr(items: seq<Value>)
    | Obj(members: seq<Member>)

  /** One key of an object together with its value. */
  datatype Member = Member(key: string, value: Value)

  /** A condition tree, an operator map and an assignment map are all plain runtime values. */
  type Where = Value
  type Operator = Value
  type Data = seq<Member>

  datatype Option<+T> = None | Some(value: T)

  /**
   * The OR sentinel. It is an ordinary string, so a field that happens to be
   * named `Symbol(OR)` is read as the OR branch.
   */
  const OrKey: string := "Symbol(OR)"

  /** The seven comparison operators an operator map may use. */
  const ComparisonOperators: seq<string> := ["LIKE", "IN", ">", "<", ">=", "<=", "="]

  /** Every key an operator map may carry: the comparisons and the OR sentinel. */
  const AvailableOperators: seq<string> := ComparisonOperators + [OrKey]

  predicate IsAvailable(key: string) {
    key in AvailableOperators
  }

  /** The facts about the vocabulary that the compiler relies on. */
  lemma VocabularyFacts()
    ensures |AvailableOperators| == 8
    ensures forall i, j | 0 <= i < j < |AvailableOperators| :: AvailableOperators[i] != AvailableOperators[j]
    ensures IsAvailable(OrKey) && IsAvailable("IN")
    ensures forall k | k in AvailableOperators :: '?' !in k && '`' !in k && |k| > 0
  {
  }

  /** A LIMIT argument: a raw string, or a page size with an optional offset. */
  datatype Limit = LimitText(text: string) | LimitPage(offset: Option<nat>, size: nat)

  /** A finished statement: the SQL text and its positional arguments. */
  datatype Sql = Sql(sql: string, args: seq<Value>)

  /** A compiled fragment; `ok` is false when no predicate was produced. */
  datatype OkSql = OkSql(sql: string, args: seq<Value>, ok: bool)

  /** The four errors the generator throws. */
  datatype SqlError = WhereNull | SetNull | WhereInEmptyArray | UnknownOperator

  datatype Result<+T> = Ok(value: T) | Err(error: SqlError)
}
