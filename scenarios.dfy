/**
 * The cases the repository's own test suite exercises, stated for any table,
 * field name and value of the shape each test uses, on the raw text and
 * arguments (before any driver substitutes the placeholders).
 */
module Scenarios {
  import opened Types
  import opened Text
  import opened Helper
  import opened HelperLemmas
  import opened SqlGen

  // ---------------------------------------------------------------- one-key maps

  /** An operator map with a single key compiles by that key alone. */
  lemma OneKeyOperator(field: string, m: Member)
    ensures CompileOperator(field, Obj([m])) ==
      match OperatorKeyError(field, Obj([m]), 0)
      case Some(e) => Err(e)
      case None => Ok(CombineOperator(if m.key == OrKey then [] else [Comparison(field, m)], OrBranches(field, Obj([m]), 1)))
  {
    var operator := Obj([m]);
    assert Entries(operator) == [m];
    assert FirstOperatorError(field, operator, 1) == OperatorKeyError(field, operator, 0);
    assert [m][..0] == [];
    assert Comparisons(field, [m]) == (if m.key == OrKey then [] else [Comparison(field, m)]);
  }

  /** A condition tree with a single key compiles by that key alone. */
  lemma OneKeyWhere(m: Member)
    ensures CompileWhere(Obj([m])) ==
      match WhereKeyError(Obj([m]), 0)
      case Some(e) => Err(e)
      case None => Ok(CombineWhere(FieldParts([m]), WhereBranches(Obj([m]), 1)))
  {
    var where := Obj([m]);
    assert Entries(where) == [m];
    assert FirstWhereError(where, 1) == WhereKeyError(where, 0);
  }

  /** A single field key (not OR) that compiles contributes its fragment and no OR branch. */
  lemma OneFieldKey(m: Member, f: OkSql)
    requires m.key != OrKey && FieldFragment(m) == Ok(f) && f.ok
    ensures FieldParts([m]) == [f]
    ensures WhereBranches(Obj([m]), 1) == []
    ensures WhereKeyError(Obj([m]), 0) == None
  {
    assert [m][..0] == [];
    assert Entries(Obj([m])) == [m];
  }

  /** A single OR key whose sub-map compiles to a predicate throws nothing and adds that predicate. */
  lemma OneOrKey(field: string, m: Member, sub: OkSql)
    requires m.key == OrKey && CompileOperator(field, m.value) == Ok(sub) && sub.ok
    ensures OperatorKeyError(field, Obj([m]), 0) == None
    ensures OrBranches(field, Obj([m]), 1) == [sub]
  {
    VocabularyFacts();
    assert Entries(Obj([m])) == [m];
    assert OrBranches(field, Obj([m]), 0) == [];
  }

  /** Nothing on either side compiles to no predicate. */
  lemma CombineNothing()
    ensures CombineOperator([], []) == OkSql("", [], false)
    ensures CombineWhere([], []) == OkSql("", [], false)
  {
    assert SqlsOf([]) == [] && ArgsOf([]) == [];
    assert Rewrite("") == "";
  }

  /** A single fragment on the AND side stands alone, with its own arguments. */
  lemma CombineOne(c: OkSql)
    requires |c.sql| > 0 && c.sql[0] != ' '
    ensures CombineOperator([c], []) == OkSql(c.sql, c.args, true)
    ensures CombineWhere([c], []) == OkSql(c.sql, c.args, true)
  {
    assert [c][..0] == [];
    assert SqlsOf([c]) == [c.sql] && ArgsOf([c]) == c.args;
    assert SqlsOf([]) == [] && ArgsOf([]) == [];
    assert c.args + [] == c.args;
    RewriteKeeps(c.sql);
  }

  /** A single OR side with no AND fragment keeps the empty AND group in parentheses. */
  lemma CombineOrOnly(c: OkSql)
    ensures CombineOperator([], [c]) == OkSql("(() OR (" + c.sql + "))", c.args, true)
  {
    assert [c][..0] == [];
    assert SqlsOf([c]) == [c.sql] && ArgsOf([c]) == c.args;
    assert SqlsOf([]) == [] && ArgsOf([]) == [];
    var text := "(() OR (" + c.sql + "))";
    assert OperatorText([], [c.sql]) == text;
    RewriteKeeps(text);
  }

  /** A comparison key other than IN passes the checks of `withOperator`. */
  lemma ComparisonKeyPasses(field: string, operator: Value, i: nat)
    requires i < |Entries(operator)|
    requires var k := Entries(operator)[i].key; IsAvailable(k) && k != OrKey && k != "IN"
    ensures OperatorKeyError(field, operator, i) == None
  {
  }

  /** An OR key whose sub-map compiles passes the checks of `withOperator`. */
  lemma OrKeyPasses(field: string, operator: Value, i: nat, o: OkSql)
    requires i < |Entries(operator)| && Entries(operator)[i].key == OrKey
    requires CompileOperator(field, Entries(operator)[i].value) == Ok(o)
    ensures OperatorKeyError(field, operator, i) == None
  {
    VocabularyFacts();
  }

  // ---------------------------------------------------------------- the tests' cases

  /** The empty condition `{}` compiles to no predicate. */
  lemma EmptyTree()
    ensures CompileWhere(Obj([])) == Ok(OkSql("", [], false))
  {
    var w := Obj([]);
    assert Entries(w) == [];
    assert FirstWhereError(w, 0) == None;
    assert FieldParts([]) == [] && WhereBranches(w, 0) == [];
    CombineNothing();
  }

  /** `{OR: {}}` compiles to no predicate: an empty OR branch is dropped. */
  lemma EmptyOrTree()
    ensures CompileWhere(Obj([Member(OrKey, Obj([]))])) == Ok(OkSql("", [], false))
  {
    var m := Member(OrKey, Obj([]));
    var w := Obj([m]);
    EmptyTree();
    OneKeyWhere(m);
    assert Entries(w) == [m];
    assert WhereKeyError(w, 0) == None;
    assert [m][..0] == [];
    assert FieldParts([m]) == [];
    assert WhereBranches(w, 1) == [];
    CombineNothing();
  }

  /**
   * `del` refuses `{}` and `{OR: {}}` with `WhereNull`, and so does `update`
   * given assignments; `count` adds no WHERE for them.
   */
  lemma EmptyConditionExamples(table: string, setData: Data, json: Value -> string)
    requires |setData| > 0
    ensures DelSql(table, Obj([])) == Err(WhereNull)
    ensures DelSql(table, Obj([Member(OrKey, Obj([]))])) == Err(WhereNull)
    ensures CountSql(table, Obj([])) == Ok(Sql(CountHead, [Str(table)]))
    ensures CountSql(table, Obj([Member(OrKey, Obj([]))])) == Ok(Sql(CountHead, [Str(table)]))
    ensures UpdateSql(table, Obj([]), setData, json) == Err(WhereNull)
    ensures UpdateSql(table, Obj([Member(OrKey, Obj([]))]), setData, json) == Err(WhereNull)
  {
    EmptyTree();
    EmptyOrTree();
    AppendEmpty(CountHead);
    assert [Str(table)] + [] == [Str(table)];
  }

  /** An operator map without keys compiles to no fragment. */
  lemma EmptyOperator(field: string)
    ensures CompileOperator(field, Obj([])) == Ok(OkSql("", [], false))
  {
    assert Entries(Obj([])) == [];
    assert FirstOperatorError(field, Obj([]), 0) == None;
    assert Comparisons(field, []) == [] && OrBranches(field, Obj([]), 0) == [];
    CombineNothing();
  }

  /** An operator map whose only key is an empty OR side compiles to no fragment. */
  lemma EmptyOrOperator(field: string)
    ensures CompileOperator(field, Obj([Member(OrKey, Obj([]))])) == Ok(OkSql("", [], false))
  {
    var inner := Member(OrKey, Obj([]));
    EmptyOperator(field);
    VocabularyFacts();
    OneKeyOperator(field, inner);
    assert Entries(Obj([inner])) == [inner];
    assert OperatorKeyError(field, Obj([inner]), 0) == None;
    assert OrBranches(field, Obj([inner]), 0) == [];
    assert OrBranches(field, Obj([inner]), 1) == [];
    CombineNothing();
  }

  /** A tree whose single field yields no fragment reports no predicate. */
  lemma OneBlankField(m: Member)
    requires m.key != OrKey && FieldFragment(m) == Ok(OkSql("", [], false))
    ensures CompileWhere(Obj([m])) == Ok(OkSql("", [], false))
  {
    OneKeyWhere(m);
    assert Entries(Obj([m])) == [m];
    assert WhereKeyError(Obj([m]), 0) == None;
    assert [m][..0] == [];
    assert FieldParts([m]) == [];
    assert WhereBranches(Obj([m]), 1) == [];
    CombineNothing();
  }

  /**
   * A field whose operator map holds only an empty OR side, `{<field>: {OR: {}}}`,
   * reports no predicate, so `select` adds no WHERE clause for it.
   */
  lemma EmptyOrOperatorExample(table: string, field: string)
    requires field != OrKey
    ensures CompileWhere(Obj([Member(field, Obj([Member(OrKey, Obj([]))]))])) == Ok(OkSql("", [], false))
    ensures SelectSql(table, None, Obj([Member(field, Obj([Member(OrKey, Obj([]))]))]), None, None)
         == Ok(Sql(SelectHead(None), [Str(table)]))
  {
    var m := Member(field, Obj([Member(OrKey, Obj([]))]));
    EmptyOrOperator(Quote(field));
    assert FieldFragment(m) == Ok(OkSql("", [], false));
    OneBlankField(m);
    UnconditionedSelect(table, None, Obj([m]), None, None);
    assert SelectHead(None) + "" + "" == SelectHead(None);
  }

  /** One comparison `{<op>: v}` on a field: `<field> <op> ?` with v as its argument. */
  lemma SingleComparison(field: string, op: string, v: Value)
    requires |field| > 0 && field[0] != ' '
    requires IsAvailable(op) && op != OrKey && op != "IN"
    ensures CompileOperator(field, Obj([Member(op, v)])) == Ok(OkSql(field + " " + op + " ?", [v], true))
  {
    var m := Member(op, v);
    OneKeyOperator(field, m);
    assert Entries(Obj([m])) == [m];
    assert OperatorKeyError(field, Obj([m]), 0) == None;
    assert OrBranches(field, Obj([m]), 1) == [];
    CombineOne(Comparison(field, m));
  }

  /** `{<field>: {IN: []}}` is refused with `WhereInEmptyArray`. */
  lemma EmptyInTree(field: string)
    requires field != OrKey
    ensures CompileWhere(Obj([Member(field, Obj([Member("IN", Arr([]))]))])) == Err(WhereInEmptyArray)
  {
    var inner := Member("IN", Arr([]));
    var m := Member(field, Obj([inner]));
    VocabularyFacts();
    OneKeyOperator(Quote(field), inner);
    assert Entries(Obj([inner])) == [inner];
    assert OperatorKeyError(Quote(field), Obj([inner]), 0) == Some(WhereInEmptyArray);
    assert FieldFragment(m) == Err(WhereInEmptyArray);
    OneKeyWhere(m);
    assert Entries(Obj([m])) == [m];
    assert WhereKeyError(Obj([m]), 0) == Some(WhereInEmptyArray);
  }

  /** `del` and `select` both throw `WhereInEmptyArray` for `{<field>: {IN: []}}`. */
  lemma EmptyInExample(table: string, field: string)
    requires field != OrKey
    ensures DelSql(table, Obj([Member(field, Obj([Member("IN", Arr([]))]))])) == Err(WhereInEmptyArray)
    ensures SelectSql(table, None, Obj([Member(field, Obj([Member("IN", Arr([]))]))]), None, None) == Err(WhereInEmptyArray)
  {
    EmptyInTree(field);
  }

  /** `{<field>: {UNKNOWN: v}}` is refused with `UnknownOperator`. */
  lemma UnknownOperatorTree(field: string, v: Value)
    requires field != OrKey
    ensures CompileWhere(Obj([Member(field, Obj([Member("UNKNOWN", v)]))])) == Err(UnknownOperator)
  {
    var inner := Member("UNKNOWN", v);
    var m := Member(field, Obj([inner]));
    assert !IsAvailable("UNKNOWN");
    OneKeyOperator(Quote(field), inner);
    assert Entries(Obj([inner])) == [inner];
    assert OperatorKeyError(Quote(field), Obj([inner]), 0) == Some(UnknownOperator);
    assert FieldFragment(m) == Err(UnknownOperator);
    OneKeyWhere(m);
    assert Entries(Obj([m])) == [m];
    assert WhereKeyError(Obj([m]), 0) == Some(UnknownOperator);
  }

  /** `select` throws `UnknownOperator` for `{<field>: {UNKNOWN: v}}`. */
  lemma UnknownOperatorExample(table: string, field: string, v: Value)
    requires field != OrKey
    ensures SelectSql(table, None, Obj([Member(field, Obj([Member("UNKNOWN", v)]))]), None, None) == Err(UnknownOperator)
  {
    UnknownOperatorTree(field, v);
  }

  /**
   * An operator map whose only key is an OR side holding one comparison
   * renders as `(() OR (<field> <op> ?))`: the AND side stays empty inside
   * its parentheses.
   */
  lemma OrOnlyOperatorExample(field: string, op: string, v: Value)
    requires |field| > 0 && field[0] != ' '
    requires IsAvailable(op) && op != OrKey && op != "IN"
    ensures CompileOperator(field, Obj([Member(OrKey, Obj([Member(op, v)]))]))
         == Ok(OkSql("(() OR (" + (field + " " + op + " ?") + "))", [v], true))
  {
    var m := Member(OrKey, Obj([Member(op, v)]));
    var sub := OkSql(field + " " + op + " ?", [v], true);
    SingleComparison(field, op, v);
    OneOrKey(field, m, sub);
    OneKeyOperator(field, m);
    assert CompileOperator(field, Obj([m])) == Ok(CombineOperator([], [sub]));
    CombineOrOnly(sub);
  }

  /** `{<field>: null}` compiles to `<field> IS NULL` with no argument. */
  lemma NullFieldTree(field: string)
    requires field != OrKey
    ensures CompileWhere(Obj([Member(field, Null)])) == Ok(OkSql(Quote(field) + " IS NULL", [], true))
  {
    var m := Member(field, Null);
    var f := OkSql(Quote(field) + " IS NULL", [], true);
    assert FieldFragment(m) == Ok(f);
    OneFieldTree(m, f);
  }

  /** An `update` whose condition reports a predicate: the condition after `WHERE`, its arguments after the table and the map. */
  lemma ConditionedUpdate(table: string, where: Where, setData: Data, json: Value -> string, f: OkSql)
    requires |setData| > 0
    requires CompileWhere(where) == Ok(f) && f.ok
    ensures UpdateSql(table, where, setData, json)
         == Ok(Sql(UpdateHead + (" " + f.sql), [Str(table), Obj(SerializeData(setData, json))] + f.args))
  {
    assert |SerializeData(setData, json)| > 0;
  }

  /** `update` with the condition `{<field>: null}`: `UPDATE ?? SET ? WHERE <field> IS NULL`. */
  lemma UpdateNullConditionExample(table: string, field: string, setData: Data, json: Value -> string)
    requires field != OrKey && |setData| > 0
    ensures UpdateSql(table, Obj([Member(field, Null)]), setData, json)
         == Ok(Sql(UpdateHead + (" " + (Quote(field) + " IS NULL")), [Str(table), Obj(SerializeData(setData, json))]))
  {
    NullFieldTree(field);
    ConditionedUpdate(table, Obj([Member(field, Null)]), setData, json, OkSql(Quote(field) + " IS NULL", [], true));
    assert [Str(table), Obj(SerializeData(setData, json))] + [] == [Str(table), Obj(SerializeData(setData, json))];
  }

  /** `{<field>: n}` compiles to `<field> = ?` with n as its argument. */
  lemma FieldEqualsTree(field: string, n: int)
    requires field != OrKey
    ensures CompileWhere(Obj([Member(field, Num(n))])) == Ok(OkSql(Quote(field) + " = ?", [Num(n)], true))
  {
    var m := Member(field, Num(n));
    var f := OkSql(Quote(field) + " = ?", [Num(n)], true);
    assert FieldFragment(m) == Ok(f);
    OneFieldTree(m, f);
  }

  /** A `del` whose condition reports a predicate has it after `WHERE`, with its arguments after the table. */
  lemma ConditionedDel(table: string, where: Where, f: OkSql)
    requires CompileWhere(where) == Ok(f) && f.ok
    ensures DelSql(table, where) == Ok(Sql(DelHead + (" " + f.sql), [Str(table)] + f.args))
  {
  }

  /** `del` with the condition `{<field>: n}`: `DELETE FROM ?? WHERE <field> = ?` with n as its argument. */
  lemma DelBasicExample(table: string, field: string, n: int)
    requires field != OrKey
    ensures DelSql(table, Obj([Member(field, Num(n))]))
         == Ok(Sql(DelHead + (" " + (Quote(field) + " = ?")), [Str(table), Num(n)]))
  {
    FieldEqualsTree(field, n);
    ConditionedDel(table, Obj([Member(field, Num(n))]), OkSql(Quote(field) + " = ?", [Num(n)], true));
    assert [Str(table)] + [Num(n)] == [Str(table), Num(n)];
  }

  /** `{<field>: n, OR: {}}` compiles to the field's comparison alone: the empty OR branch is dropped. */
  lemma FieldWithEmptyOrTree(field: string, n: int)
    requires field != OrKey
    ensures CompileWhere(Obj([Member(field, Num(n)), Member(OrKey, Obj([]))]))
         == Ok(OkSql(Quote(field) + " = ?", [Num(n)], true))
  {
    var m1, m2 := Member(field, Num(n)), Member(OrKey, Obj([]));
    var w := Obj([m1, m2]);
    var f := OkSql(Quote(field) + " = ?", [Num(n)], true);
    assert Entries(w) == [m1, m2];
    assert FieldFragment(m1) == Ok(f);
    EmptyTree();
    assert WhereKeyError(w, 0) == None;
    assert WhereKeyError(w, 1) == None;
    assert FirstWhereError(w, 2) == None by {
      assert FirstWhereError(w, 1) == None;
    }
    assert [m1, m2][..1] == [m1];
    assert [m1][..0] == [];
    assert FieldParts([m1]) == [f];
    assert FieldParts([m1, m2]) == [f];
    assert WhereBranches(w, 1) == [];
    assert WhereBranches(w, 2) == [];
    CombineOne(f);
  }

  /** A `select` whose condition reports a predicate has it as its WHERE clause, with its arguments after the table. */
  lemma ConditionedSelect(table: string, fields: Option<string>, where: Where, f: OkSql)
    requires CompileWhere(where) == Ok(f) && f.ok
    ensures SelectSql(table, fields, where, None, None) == Ok(Sql(SelectHead(fields) + (" WHERE " + f.sql), [Str(table)] + f.args))
  {
    assert WhereClause(f) == " WHERE " + f.sql && WhereArgs(f) == f.args;
    assert OrderByClause(None) == "" && LimitClause(None) == "";
    var text := SelectHead(fields) + (" WHERE " + f.sql);
    assert text + "" + "" == text;
  }

  /**
   * `select` with `{<field>: n, OR: {}}` has the field's comparison as its
   * only condition, as the test "with empty or" expects.
   */
  lemma SelectEmptyOrExample(table: string, fields: Option<string>, field: string, n: int)
    requires field != OrKey
    ensures SelectSql(table, fields, Obj([Member(field, Num(n)), Member(OrKey, Obj([]))]), None, None)
         == Ok(Sql(SelectHead(fields) + (" WHERE " + (Quote(field) + " = ?")), [Str(table), Num(n)]))
  {
    var f := OkSql(Quote(field) + " = ?", [Num(n)], true);
    FieldWithEmptyOrTree(field, n);
    ConditionedSelect(table, fields, Obj([Member(field, Num(n)), Member(OrKey, Obj([]))]), f);
    assert [Str(table)] + f.args == [Str(table), Num(n)];
  }

  /** Two fragments on the AND side are joined by ` AND `, with their arguments in order. */
  lemma CombineTwo(c1: OkSql, c2: OkSql)
    requires |c1.sql| > 0 && c1.sql[0] != ' '
    ensures CombineOperator([c1, c2], []) == OkSql(c1.sql + " AND " + c2.sql, c1.args + c2.args, true)
  {
    assert [c1, c2][..1] == [c1];
    assert [c1][..0] == [];
    assert SqlsOf([c1]) == [c1.sql] && ArgsOf([c1]) == c1.args;
    assert SqlsOf([c1, c2]) == [c1.sql, c2.sql] && ArgsOf([c1, c2]) == c1.args + c2.args;
    assert SqlsOf([]) == [] && ArgsOf([]) == [];
    assert Join([c1.sql, c2.sql], " AND ") == c1.sql + " AND " + c2.sql by {
      assert [c1.sql, c2.sql][..1] == [c1.sql];
    }
    assert c1.args + c2.args + [] == c1.args + c2.args;
    RewriteKeeps(c1.sql + " AND " + c2.sql);
  }

  /** Two comparison keys and an empty OR side: no key throws. */
  lemma TwoComparisonsEmptyOrPass(field: string, m1: Member, m2: Member)
    requires IsAvailable(m1.key) && m1.key != OrKey && m1.key != "IN"
    requires IsAvailable(m2.key) && m2.key != OrKey && m2.key != "IN"
    ensures FirstOperatorError(field, Obj([m1, m2, Member(OrKey, Obj([]))]), 3) == None
  {
    var operator := Obj([m1, m2, Member(OrKey, Obj([]))]);
    assert Entries(operator) == [m1, m2, Member(OrKey, Obj([]))];
    EmptyOperator(field);
    ComparisonKeyPasses(field, operator, 0);
    ComparisonKeyPasses(field, operator, 1);
    OrKeyPasses(field, operator, 2, OkSql("", [], false));
    assert FirstOperatorError(field, operator, 1) == None;
    assert FirstOperatorError(field, operator, 2) == None;
  }

  /** Two comparison keys and an empty OR side: two comparisons and no OR side. */
  lemma TwoComparisonsEmptyOrParts(field: string, m1: Member, m2: Member)
    requires m1.key != OrKey && m2.key != OrKey
    ensures Comparisons(field, [m1, m2, Member(OrKey, Obj([]))]) == [Comparison(field, m1), Comparison(field, m2)]
    ensures OrBranches(field, Obj([m1, m2, Member(OrKey, Obj([]))]), 3) == []
  {
    var m3 := Member(OrKey, Obj([]));
    var operator := Obj([m1, m2, m3]);
    assert Entries(operator) == [m1, m2, m3];
    assert [m1, m2, m3][..2] == [m1, m2] && [m1, m2][..1] == [m1] && [m1][..0] == [];
    assert Comparisons(field, [m1]) == [Comparison(field, m1)];
    EmptyOperator(field);
    assert OrBranches(field, operator, 1) == [];
    assert OrBranches(field, operator, 2) == [];
  }

  /** Two comparison keys and an empty OR side compile to the two comparisons on the AND side. */
  lemma TwoComparisonsEmptyOrCompile(field: string, m1: Member, m2: Member)
    requires IsAvailable(m1.key) && m1.key != OrKey && m1.key != "IN"
    requires IsAvailable(m2.key) && m2.key != OrKey && m2.key != "IN"
    ensures CompileOperator(field, Obj([m1, m2, Member(OrKey, Obj([]))]))
         == Ok(CombineOperator([Comparison(field, m1), Comparison(field, m2)], []))
  {
    assert Entries(Obj([m1, m2, Member(OrKey, Obj([]))])) == [m1, m2, Member(OrKey, Obj([]))];
    TwoComparisonsEmptyOrPass(field, m1, m2);
    TwoComparisonsEmptyOrParts(field, m1, m2);
  }

  /** Two comparisons `{<op1>: v1, <op2>: v2}` joined on the AND side, with no OR side. */
  lemma TwoComparisonsCombine(field: string, op1: string, v1: Value, op2: string, v2: Value)
    requires |field| > 0 && field[0] != ' '
    requires op1 != "IN" && op2 != "IN"
    ensures CombineOperator([Comparison(field, Member(op1, v1)), Comparison(field, Member(op2, v2))], [])
         == OkSql((field + " " + op1 + " ?") + " AND " + (field + " " + op2 + " ?"), [v1, v2], true)
  {
    var c1, c2 := Comparison(field, Member(op1, v1)), Comparison(field, Member(op2, v2));
    assert c1 == OkSql(field + " " + op1 + " ?", [v1], true);
    assert c2 == OkSql(field + " " + op2 + " ?", [v2], true);
    CombineTwo(c1, c2);
    assert [v1] + [v2] == [v1, v2];
  }

  /**
   * `{<op1>: v1, <op2>: v2, OR: {}}` on a field: the two comparisons joined
   * by AND, the empty OR side dropped.
   */
  lemma TwoComparisonsEmptyOr(field: string, op1: string, v1: Value, op2: string, v2: Value)
    requires |field| > 0 && field[0] != ' '
    requires IsAvailable(op1) && op1 != OrKey && op1 != "IN"
    requires IsAvailable(op2) && op2 != OrKey && op2 != "IN"
    ensures CompileOperator(field, Obj([Member(op1, v1), Member(op2, v2), Member(OrKey, Obj([]))]))
         == Ok(OkSql((field + " " + op1 + " ?") + " AND " + (field + " " + op2 + " ?"), [v1, v2], true))
  {
    TwoComparisonsEmptyOrCompile(field, Member(op1, v1), Member(op2, v2));
    TwoComparisonsCombine(field, op1, v1, op2, v2);
  }

  /** `{IN: xs}` with a non-empty array: `<field> IN ?` with the array wrapped once as its argument. */
  lemma SingleIn(field: string, xs: seq<Value>)
    requires |field| > 0 && field[0] != ' ' && |xs| > 0
    ensures CompileOperator(field, Obj([Member("IN", Arr(xs))])) == Ok(OkSql(field + " " + "IN" + " ?", [Arr([Arr(xs)])], true))
  {
    var m := Member("IN", Arr(xs));
    VocabularyFacts();
    OneKeyOperator(field, m);
    assert Entries(Obj([m])) == [m];
    assert OperatorKeyError(field, Obj([m]), 0) == None;
    assert OrBranches(field, Obj([m]), 1) == [];
    CombineOne(Comparison(field, m));
  }

  /** Two comparison keys and an OR side that compiles: no key throws. */
  lemma RangeOrPass(field: string, m1: Member, m2: Member, sub: Value, o: OkSql)
    requires IsAvailable(m1.key) && m1.key != OrKey && m1.key != "IN"
    requires IsAvailable(m2.key) && m2.key != OrKey && m2.key != "IN"
    requires CompileOperator(field, sub) == Ok(o)
    ensures FirstOperatorError(field, Obj([m1, m2, Member(OrKey, sub)]), 3) == None
  {
    var operator := Obj([m1, m2, Member(OrKey, sub)]);
    assert Entries(operator) == [m1, m2, Member(OrKey, sub)];
    ComparisonKeyPasses(field, operator, 0);
    ComparisonKeyPasses(field, operator, 1);
    OrKeyPasses(field, operator, 2, o);
    assert FirstOperatorError(field, operator, 1) == None;
    assert FirstOperatorError(field, operator, 2) == None;
  }

  /** Two comparison keys and an OR side: two comparisons. */
  lemma RangeOrComparisons(field: string, m1: Member, m2: Member, m3: Member)
    requires m1.key != OrKey && m2.key != OrKey && m3.key == OrKey
    ensures Comparisons(field, [m1, m2, m3]) == [Comparison(field, m1), Comparison(field, m2)]
  {
    assert [m1, m2, m3][..2] == [m1, m2] && [m1, m2][..1] == [m1] && [m1][..0] == [];
    assert Comparisons(field, [m1]) == [Comparison(field, m1)];
  }

  /** Two comparison keys and an OR side that reports a predicate: that one OR side. */
  lemma RangeOrBranches(field: string, m1: Member, m2: Member, sub: Value, o: OkSql)
    requires m1.key != OrKey && m2.key != OrKey
    requires CompileOperator(field, sub) == Ok(o) && o.ok
    ensures OrBranches(field, Obj([m1, m2, Member(OrKey, sub)]), 3) == [o]
  {
    var operator := Obj([m1, m2, Member(OrKey, sub)]);
    assert Entries(operator) == [m1, m2, Member(OrKey, sub)];
    assert OrBranches(field, operator, 1) == [];
    assert OrBranches(field, operator, 2) == [];
    OrBranchesAdd(field, operator, 2, o);
  }

  /** Two comparison keys and an OR side that reports a predicate compile to both sides. */
  lemma RangeOrCompile(field: string, m1: Member, m2: Member, sub: Value, o: OkSql)
    requires IsAvailable(m1.key) && m1.key != OrKey && m1.key != "IN"
    requires IsAvailable(m2.key) && m2.key != OrKey && m2.key != "IN"
    requires CompileOperator(field, sub) == Ok(o) && o.ok
    ensures CompileOperator(field, Obj([m1, m2, Member(OrKey, sub)]))
         == Ok(CombineOperator([Comparison(field, m1), Comparison(field, m2)], [o]))
  {
    assert Entries(Obj([m1, m2, Member(OrKey, sub)])) == [m1, m2, Member(OrKey, sub)];
    RangeOrPass(field, m1, m2, sub, o);
    RangeOrComparisons(field, m1, m2, Member(OrKey, sub));
    RangeOrBranches(field, m1, m2, sub, o);
  }

  /** Two AND fragments and one OR side: `((<c1> AND <c2>) OR (<or>))`, arguments in that order. */
  lemma CombineTwoOne(c1: OkSql, c2: OkSql, o: OkSql)
    ensures CombineOperator([c1, c2], [o]) == OkSql("((" + (c1.sql + " AND " + c2.sql) + ") OR (" + o.sql + "))", c1.args + c2.args + o.args, true)
  {
    assert [c1, c2][..1] == [c1];
    assert [c1][..0] == [] && [o][..0] == [];
    assert SqlsOf([c1]) == [c1.sql] && ArgsOf([c1]) == c1.args;
    assert SqlsOf([c1, c2]) == [c1.sql, c2.sql] && ArgsOf([c1, c2]) == c1.args + c2.args;
    assert SqlsOf([o]) == [o.sql] && ArgsOf([o]) == o.args;
    assert SqlsOf([]) == [] && ArgsOf([]) == [];
    assert Join([c1.sql, c2.sql], " AND ") == c1.sql + " AND " + c2.sql by {
      assert [c1.sql, c2.sql][..1] == [c1.sql];
    }
    var text := "((" + (c1.sql + " AND " + c2.sql) + ") OR (" + o.sql + "))";
    assert OperatorText([c1.sql, c2.sql], [o.sql]) == text;
    RewriteKeeps(text);
  }

  /** The operator map `{<op1>: v1, <op2>: v2, OR: {IN: xs}}` compiles to its two comparisons and its IN side. */
  lemma RangeOrInCompile(field: string, op1: string, v1: Value, op2: string, v2: Value, xs: seq<Value>)
    requires |field| > 0 && field[0] != ' ' && |xs| > 0
    requires IsAvailable(op1) && op1 != OrKey && op1 != "IN"
    requires IsAvailable(op2) && op2 != OrKey && op2 != "IN"
    ensures CompileOperator(field, Obj([Member(op1, v1), Member(op2, v2), Member(OrKey, Obj([Member("IN", Arr(xs))]))]))
         == Ok(CombineOperator([Comparison(field, Member(op1, v1)), Comparison(field, Member(op2, v2))],
                               [OkSql(field + " " + "IN" + " ?", [Arr([Arr(xs)])], true)]))
  {
    SingleIn(field, xs);
    RangeOrCompile(field, Member(op1, v1), Member(op2, v2), Obj([Member("IN", Arr(xs))]), OkSql(field + " " + "IN" + " ?", [Arr([Arr(xs)])], true));
  }

  /** The text and arguments of two comparisons with an IN side. */
  lemma RangeOrInCombine(field: string, op1: string, v1: Value, op2: string, v2: Value, xs: seq<Value>)
    requires op1 != "IN" && op2 != "IN"
    ensures CombineOperator([Comparison(field, Member(op1, v1)), Comparison(field, Member(op2, v2))],
                            [OkSql(field + " " + "IN" + " ?", [Arr([Arr(xs)])], true)])
         == OkSql("((" + ((field + " " + op1 + " ?") + " AND " + (field + " " + op2 + " ?")) + ") OR (" + (field + " " + "IN" + " ?") + "))",
                  [v1, v2, Arr([Arr(xs)])], true)
  {
    var c1, c2 := Comparison(field, Member(op1, v1)), Comparison(field, Member(op2, v2));
    var o := OkSql(field + " " + "IN" + " ?", [Arr([Arr(xs)])], true);
    assert c1 == OkSql(field + " " + op1 + " ?", [v1], true);
    assert c2 == OkSql(field + " " + op2 + " ?", [v2], true);
    CombineTwoOne(c1, c2, o);
    assert [v1] + [v2] + [Arr([Arr(xs)])] == [v1, v2, Arr([Arr(xs)])];
  }

  /**
   * `{<op1>: v1, <op2>: v2, OR: {IN: xs}}` on a field, the `age` condition of
   * the test "basic": `((<f> <op1> ? AND <f> <op2> ?) OR (<f> IN ?))` with the
   * arguments v1, v2 and the array wrapped once.
   */
  lemma RangeOrInExample(field: string, op1: string, v1: Value, op2: string, v2: Value, xs: seq<Value>)
    requires |field| > 0 && field[0] != ' ' && |xs| > 0
    requires IsAvailable(op1) && op1 != OrKey && op1 != "IN"
    requires IsAvailable(op2) && op2 != OrKey && op2 != "IN"
    ensures CompileOperator(field, Obj([Member(op1, v1), Member(op2, v2), Member(OrKey, Obj([Member("IN", Arr(xs))]))]))
         == Ok(OkSql("((" + ((field + " " + op1 + " ?") + " AND " + (field + " " + op2 + " ?")) + ") OR (" + (field + " " + "IN" + " ?") + "))",
                     [v1, v2, Arr([Arr(xs)])], true))
  {
    RangeOrInCompile(field, op1, v1, op2, v2, xs);
    RangeOrInCombine(field, op1, v1, op2, v2, xs);
  }

  /** A tree with one field key whose fragment is present compiles to that fragment. */
  lemma OneFieldTree(m: Member, f: OkSql)
    requires m.key != OrKey && FieldFragment(m) == Ok(f) && f.ok
    requires |f.sql| > 0 && f.sql[0] != ' '
    ensures CompileWhere(Obj([m])) == Ok(f)
  {
    OneFieldKey(m, f);
    OneKeyWhere(m);
    CombineOne(f);
  }

  /** `{<field>: {<op1>: v1, <op2>: v2, OR: {}}}` compiles to the field's two comparisons joined by AND. */
  lemma EmptyOrOperatorTree(field: string, op1: string, v1: Value, op2: string, v2: Value)
    requires field != OrKey
    requires IsAvailable(op1) && op1 != OrKey && op1 != "IN"
    requires IsAvailable(op2) && op2 != OrKey && op2 != "IN"
    ensures CompileWhere(Obj([Member(field, Obj([Member(op1, v1), Member(op2, v2), Member(OrKey, Obj([]))]))]))
         == Ok(OkSql((Quote(field) + " " + op1 + " ?") + " AND " + (Quote(field) + " " + op2 + " ?"), [v1, v2], true))
  {
    var q := Quote(field);
    var m := Member(field, Obj([Member(op1, v1), Member(op2, v2), Member(OrKey, Obj([]))]));
    var f := OkSql((q + " " + op1 + " ?") + " AND " + (q + " " + op2 + " ?"), [v1, v2], true);
    TwoComparisonsEmptyOr(q, op1, v1, op2, v2);
    assert FieldFragment(m) == Ok(f);
    OneFieldTree(m, f);
  }

  /**
   * `select` with `{<field>: {<op1>: v1, <op2>: v2, OR: {}}}` has the two
   * comparisons joined by AND as its condition, as the test "with empty or
   * operator" expects.
   */
  lemma SelectEmptyOrOperatorExample(table: string, fields: Option<string>, field: string,
                                     op1: string, v1: Value, op2: string, v2: Value)
    requires field != OrKey
    requires IsAvailable(op1) && op1 != OrKey && op1 != "IN"
    requires IsAvailable(op2) && op2 != OrKey && op2 != "IN"
    ensures SelectSql(table, fields, Obj([Member(field, Obj([Member(op1, v1), Member(op2, v2), Member(OrKey, Obj([]))]))]), None, None)
         == Ok(Sql(SelectHead(fields) + (" WHERE " + ((Quote(field) + " " + op1 + " ?") + " AND " + (Quote(field) + " " + op2 + " ?"))),
                   [Str(table), v1, v2]))
  {
    var f := OkSql((Quote(field) + " " + op1 + " ?") + " AND " + (Quote(field) + " " + op2 + " ?"), [v1, v2], true);
    EmptyOrOperatorTree(field, op1, v1, op2, v2);
    ConditionedSelect(table, fields, Obj([Member(field, Obj([Member(op1, v1), Member(op2, v2), Member(OrKey, Obj([]))]))]), f);
    assert [Str(table)] + [v1, v2] == [Str(table), v1, v2];
  }

  /** A `select` whose condition reports no predicate has no WHERE clause and only the table as argument. */
  lemma UnconditionedSelect(table: string, fields: Option<string>, where: Where, orderBy: Option<string>, limit: Option<Limit>)
    requires CompileWhere(where) == Ok(OkSql("", [], false))
    ensures SelectSql(table, fields, where, orderBy, limit)
         == Ok(Sql(SelectHead(fields) + OrderByClause(orderBy) + LimitClause(limit), [Str(table)]))
  {
    var w := OkSql("", [], false);
    assert WhereClause(w) == "" && WhereArgs(w) == [];
    assert [Str(table)] + [] == [Str(table)];
    assert SelectHead(fields) + "" == SelectHead(fields);
  }

  /** A page LIMIT with an offset renders as `LIMIT <offset>, <size>`. */
  lemma LimitPageExample(table: string, offset: nat, size: nat)
    ensures SelectSql(table, None, Null, None, Some(LimitPage(Some(offset), size)))
         == Ok(Sql("SELECT * FROM ??" + " LIMIT " + (NatToString(offset) + ", " + NatToString(size)), [Str(table)]))
  {
    assert CompileWhere(Null) == Ok(OkSql("", [], false));
    UnconditionedSelect(table, None, Null, None, Some(LimitPage(Some(offset), size)));
    assert SelectHead(None) == "SELECT * FROM ??";
    assert OrderByClause(None) == "";
    assert "SELECT * FROM ??" + "" == "SELECT * FROM ??";
    var page := NatToString(offset) + ", " + NatToString(size);
    assert LimitClause(Some(LimitPage(Some(offset), size))) == " LIMIT " + page;
    assert "SELECT * FROM ??" + (" LIMIT " + page) == "SELECT * FROM ??" + " LIMIT " + page;
  }

  /** A page LIMIT without an offset renders as `LIMIT <size>`. */
  lemma LimitSizeExample(table: string, size: nat)
    ensures SelectSql(table, None, Null, None, Some(LimitPage(None, size)))
         == Ok(Sql("SELECT * FROM ??" + " LIMIT " + NatToString(size), [Str(table)]))
  {
    assert CompileWhere(Null) == Ok(OkSql("", [], false));
    UnconditionedSelect(table, None, Null, None, Some(LimitPage(None, size)));
    assert SelectHead(None) == "SELECT * FROM ??";
    assert OrderByClause(None) == "";
    assert "SELECT * FROM ??" + "" == "SELECT * FROM ??";
    assert "" + NatToString(size) == NatToString(size);
    assert LimitClause(Some(LimitPage(None, size))) == " LIMIT " + NatToString(size);
    assert "SELECT * FROM ??" + (" LIMIT " + NatToString(size)) == "SELECT * FROM ??" + " LIMIT " + NatToString(size);
  }
}
