/**
 * Properties of the condition compiler: when it throws and which error,
 * what the compiled text looks like, when a fragment is present, and that
 * every `?` of the text is matched by exactly one argument.
 */
module HelperLemmas {
  import opened Types
  import opened Text
  import opened Helper

  // ---------------------------------------------------------------- errors

  /** An operator map every key of which passes the checks of `withOperator`, at every depth. */
  predicate OperatorValid(operator: Value)
    decreases operator, 1
  {
    forall i | 0 <= i < |Entries(operator)| :: OperatorEntryValid(operator, i)
  }

  predicate OperatorEntryValid(operator: Value, i: nat)
    requires i < |Entries(operator)|
    decreases operator, 0
  {
    var m := Entries(operator)[i];
    && IsAvailable(m.key)
    && (m.key == "IN" ==> m.value.Arr? && |m.value.items| > 0)
    && (m.key == OrKey ==> OperatorValid(m.value))
  }

  /** A condition tree whose operator maps, and whose OR branches' operator maps, are all valid. */
  predicate WhereValid(where: Value)
    decreases where, 1
  {
    forall i | 0 <= i < |Entries(where)| :: WhereEntryValid(where, i)
  }

  predicate WhereEntryValid(where: Value, i: nat)
    requires i < |Entries(where)|
    decreases where, 0
  {
    var m := Entries(where)[i];
    if m.key == OrKey then WhereValid(m.value)
    else m.value.Null? || m.value.Str? || m.value.Num? || OperatorValid(m.value)
  }

  /** No key among the first n of an operator map throws. */
  ghost predicate NoOperatorKeyError(field: string, operator: Value, n: nat)
    requires n <= |Entries(operator)|
  {
    forall i | 0 <= i < n :: OperatorKeyError(field, operator, i) == None
  }

  /** Key i is the first offending key among the first n of an operator map, and its error is the prefix's. */
  ghost predicate OperatorFirstAt(field: string, operator: Value, n: nat, i: nat)
    requires n <= |Entries(operator)|
  {
    && i < n
    && NoOperatorKeyError(field, operator, i)
    && OperatorKeyError(field, operator, i) == FirstOperatorError(field, operator, n)
  }

  /**
   * The error of a prefix of an operator map is the one of its first
   * offending key: every key before it passes.
   */
  lemma {:induction false} FirstOperatorErrorIsFirst(field: string, operator: Value, n: nat)
    requires n <= |Entries(operator)|
    ensures FirstOperatorError(field, operator, n) == None <==> NoOperatorKeyError(field, operator, n)
    ensures FirstOperatorError(field, operator, n).Some? ==> exists i :: OperatorFirstAt(field, operator, n, i)
    decreases n
  {
    if n > 0 {
      FirstOperatorErrorIsFirst(field, operator, n - 1);
      var before, last := FirstOperatorError(field, operator, n - 1), OperatorKeyError(field, operator, n - 1);
      assert FirstOperatorError(field, operator, n) == if before.Some? then before else last;
      if before.Some? {
        assert !NoOperatorKeyError(field, operator, n);
        var i :| OperatorFirstAt(field, operator, n - 1, i);
        assert OperatorFirstAt(field, operator, n, i);
      } else if last.Some? {
        assert !NoOperatorKeyError(field, operator, n) by {
          assert OperatorKeyError(field, operator, n - 1) != None;
        }
        assert OperatorFirstAt(field, operator, n, n - 1);
      } else {
        forall i | 0 <= i < n ensures OperatorKeyError(field, operator, i) == None {
          if i < n - 1 {
            assert NoOperatorKeyError(field, operator, n - 1);
          }
        }
      }
    }
  }

  /** No key among the first n of a condition tree throws. */
  ghost predicate NoWhereKeyError(where: Value, n: nat)
    requires n <= |Entries(where)|
  {
    forall i | 0 <= i < n :: WhereKeyError(where, i) == None
  }

  /** Key i is the first offending key among the first n of a condition tree, and its error is the prefix's. */
  ghost predicate WhereFirstAt(where: Value, n: nat, i: nat)
    requires n <= |Entries(where)|
  {
    && i < n
    && NoWhereKeyError(where, i)
    && WhereKeyError(where, i) == FirstWhereError(where, n)
  }

  /**
   * The error of a prefix of a condition tree is the one of its first
   * offending key: every key before it compiles.
   */
  lemma {:induction false} FirstWhereErrorIsFirst(where: Value, n: nat)
    requires n <= |Entries(where)|
    ensures FirstWhereError(where, n) == None <==> NoWhereKeyError(where, n)
    ensures FirstWhereError(where, n).Some? ==> exists i :: WhereFirstAt(where, n, i)
    decreases n
  {
    if n > 0 {
      FirstWhereErrorIsFirst(where, n - 1);
      var before, last := FirstWhereError(where, n - 1), WhereKeyError(where, n - 1);
      assert FirstWhereError(where, n) == if before.Some? then before else last;
      if before.Some? {
        assert !NoWhereKeyError(where, n);
        var i :| WhereFirstAt(where, n - 1, i);
        assert WhereFirstAt(where, n, i);
      } else if last.Some? {
        assert !NoWhereKeyError(where, n) by {
          assert WhereKeyError(where, n - 1) != None;
        }
        assert WhereFirstAt(where, n, n - 1);
      } else {
        forall i | 0 <= i < n ensures WhereKeyError(where, i) == None {
          if i < n - 1 {
            assert NoWhereKeyError(where, n - 1);
          }
        }
      }
    }
  }

  /**
   * `withOperator` throws exactly when some key, at some depth, is outside the
   * vocabulary or is an IN without a non-empty array, and then with one of
   * those two errors; the field name plays no part.
   */
  lemma {:induction false} OperatorErrors(field: string, operator: Value)
    ensures CompileOperator(field, operator).Ok? <==> OperatorValid(operator)
    ensures CompileOperator(field, operator).Err? ==>
              CompileOperator(field, operator).error in {UnknownOperator, WhereInEmptyArray}
    decreases operator, 1
  {
    var es := Entries(operator);
    var first := FirstOperatorError(field, operator, |es|);
    assert CompileOperator(field, operator).Ok? <==> first == None;
    FirstOperatorErrorIsFirst(field, operator, |es|);
    if first.Some? {
      var i :| OperatorFirstAt(field, operator, |es|, i);
      OperatorKeyErrors(field, operator, i);
      assert !OperatorEntryValid(operator, i);
    } else {
      forall i | 0 <= i < |es| ensures OperatorEntryValid(operator, i) {
        OperatorKeyErrors(field, operator, i);
      }
    }
  }

  /** The check of one key of an operator map, in terms of the validity predicate. */
  lemma {:induction false} OperatorKeyErrors(field: string, operator: Value, i: nat)
    requires i < |Entries(operator)|
    ensures OperatorKeyError(field, operator, i) == None <==> OperatorEntryValid(operator, i)
    ensures OperatorKeyError(field, operator, i).Some? ==>
              OperatorKeyError(field, operator, i).value in {UnknownOperator, WhereInEmptyArray}
    decreases operator, 0
  {
    var m := Entries(operator)[i];
    if IsAvailable(m.key) && m.key == OrKey {
      OperatorErrors(field, m.value);
    }
  }

  /**
   * `genWhere` throws exactly when one of its operator maps, or one of its OR
   * branches' operator maps, is invalid; field names themselves are never
   * checked, so the only errors are the two operator errors.
   */
  lemma {:induction false} WhereErrors(where: Value)
    ensures CompileWhere(where).Ok? <==> WhereValid(where)
    ensures CompileWhere(where).Err? ==> CompileWhere(where).error in {UnknownOperator, WhereInEmptyArray}
    decreases where, 1
  {
    if !where.Null? {
      var es := Entries(where);
      var first := FirstWhereError(where, |es|);
      assert CompileWhere(where).Ok? <==> first == None;
      FirstWhereErrorIsFirst(where, |es|);
      if first.Some? {
        var i :| WhereFirstAt(where, |es|, i);
        WhereKeyErrors(where, i);
        assert !WhereEntryValid(where, i);
      } else {
        forall i | 0 <= i < |es| ensures WhereEntryValid(where, i) {
          WhereKeyErrors(where, i);
        }
      }
    }
  }

  lemma {:induction false} WhereKeyErrors(where: Value, i: nat)
    requires i < |Entries(where)|
    ensures WhereKeyError(where, i) == None <==> WhereEntryValid(where, i)
    ensures WhereKeyError(where, i).Some? ==> WhereKeyError(where, i).value in {UnknownOperator, WhereInEmptyArray}
    decreases where, 0
  {
    var m := Entries(where)[i];
    if m.key == OrKey {
      WhereErrors(m.value);
    } else {
      OperatorErrors(Quote(m.key), m.value);
    }
  }

  // ---------------------------------------------------------------- text shape

  /** The rewrites leave a text alone unless it starts with a blank. */
  lemma RewriteKeeps(t: string)
    requires |t| == 0 || t[0] != ' '
    ensures Rewrite(t) == t
  {
    if |t| >= 4 {
      assert t[..4][0] == t[0];
    }
  }

  /** The second rewrite strips exactly one leading ` OR `. */
  lemma RewriteStrips(x: string)
    ensures Rewrite(" OR " + x) == x
  {
    assert (" OR " + x)[..4] == " OR ";
  }

  /**
   * The rewrites either leave a text alone or strip one leading ` OR `, and
   * they change it only when it starts with ` OR `.
   */
  lemma RewriteCases(t: string)
    ensures Rewrite(t) == t || t == " OR " + Rewrite(t)
    ensures Rewrite(t) != t ==> |t| >= 4 && t[..4] == " OR "
  {
    if |t| >= 4 && t[..4] == " OR " {
      assert t == t[..4] + t[4..];
    }
  }

  lemma {:induction false} SqlsOfHead(parts: seq<OkSql>)
    requires |parts| > 0
    ensures SqlsOf(parts)[0] == parts[0].sql
    decreases |parts|
  {
    if |parts| > 1 {
      SqlsOfHead(parts[..|parts| - 1]);
    }
  }

  /** The first comparison fragment starts with the field name. */
  lemma {:induction false} ComparisonsHead(field: string, es: seq<Member>)
    requires |Comparisons(field, es)| > 0
    ensures |Comparisons(field, es)[0].sql| > |field| && Comparisons(field, es)[0].sql[..|field|] == field
    decreases |es|
  {
    var init := es[..|es| - 1];
    if |Comparisons(field, init)| > 0 {
      ComparisonsHead(field, init);
    }
  }

  /**
   * The text of a compiled operator map of a quoted field: the rewrites leave
   * it alone, so it is the AND-join of its comparisons, wrapped as
   * `((<and>) OR (<or>))` when the map has a non-empty OR side (also when the
   * AND side is empty, which gives `(() OR (<or>))`); its arguments are the
   * comparison arguments followed by the OR side's. A map without any
   * fragment gives the empty text and no arguments, and a non-empty text
   * starts with the quoted field or with a parenthesis.
   */
  lemma OperatorShape(key: string, operator: Value)
    requires CompileOperator(Quote(key), operator).Ok?
    ensures var r := CompileOperator(Quote(key), operator).value;
            var es := Entries(operator);
            var ands := SqlsOf(Comparisons(Quote(key), es));
            var ors := SqlsOf(OrBranches(Quote(key), operator, |es|));
            && (|ors| > 0 ==> r.sql == "((" + Join(ands, " AND ") + ") OR (" + Join(ors, " AND ") + "))")
            && (|ors| == 0 ==> r.sql == Join(ands, " AND "))
            && r.args == ArgsOf(Comparisons(Quote(key), es)) + ArgsOf(OrBranches(Quote(key), operator, |es|))
            && (r.ok <==> |r.sql| > 0)
            && (r.ok ==> r.sql[0] == '`' || r.sql[0] == '(')
            && (!r.ok ==> r.args == [])
  {
    var field := Quote(key);
    var es := Entries(operator);
    var cs, os := Comparisons(field, es), OrBranches(field, operator, |es|);
    var ands, ors := SqlsOf(cs), SqlsOf(os);
    assert CompileOperator(field, operator) == Ok(CombineOperator(cs, os));
    var t := OperatorText(ands, ors);
    if |ors| > 0 {
      assert t[0] == '(';
    } else if |ands| > 0 {
      SqlsOfHead(cs);
      ComparisonsHead(field, es);
      JoinHead(ands, " AND ");
      assert t[0] == '`';
    }
    RewriteKeeps(t);
  }

  /** A present field fragment starts with the quoted field name or with a parenthesis. */
  lemma FieldFragmentHead(m: Member)
    requires FieldFragment(m).Ok? && FieldFragment(m).value.ok
    ensures var sql := FieldFragment(m).value.sql; |sql| > 0 && (sql[0] == '`' || sql[0] == '(')
  {
    if !(m.value.Null? || m.value.Str? || m.value.Num?) {
      OperatorShape(m.key, m.value);
    }
  }

  lemma {:induction false} FieldPartsHead(es: seq<Member>)
    requires |FieldParts(es)| > 0
    ensures var sql := FieldParts(es)[0].sql; |sql| > 0 && (sql[0] == '`' || sql[0] == '(')
    decreases |es|
  {
    var init := es[..|es| - 1];
    if |FieldParts(init)| > 0 {
      FieldPartsHead(init);
    } else {
      FieldFragmentHead(es[|es| - 1]);
    }
  }

  /**
   * The text of a compiled condition tree: the AND-join of its field
   * fragments, followed by ` OR (<branches>)` when it has a non-empty OR
   * branch; with no field fragment the leading ` OR ` is stripped, leaving
   * `(<branches>)`. Field arguments come first, then the branches'.
   */
  lemma WhereShape(where: Value)
    requires !where.Null? && CompileWhere(where).Ok?
    ensures var r := CompileWhere(where).value;
            var es := Entries(where);
            var ands := SqlsOf(FieldParts(es));
            var ors := SqlsOf(WhereBranches(where, |es|));
            && (|ors| == 0 ==> r.sql == Join(ands, " AND "))
            && (|ors| > 0 && |ands| == 0 ==> r.sql == "(" + Join(ors, " AND ") + ")")
            && (|ors| > 0 && |ands| > 0 ==> r.sql == Join(ands, " AND ") + " OR (" + Join(ors, " AND ") + ")")
            && r.args == ArgsOf(FieldParts(es)) + ArgsOf(WhereBranches(where, |es|))
  {
    var es := Entries(where);
    var fs, bs := FieldParts(es), WhereBranches(where, |es|);
    assert CompileWhere(where) == Ok(CombineWhere(fs, bs));
    if |fs| > 0 {
      SqlsOfHead(fs);
      FieldPartsHead(es);
    }
    WhereTextRewritten(SqlsOf(fs), SqlsOf(bs));
  }

  /** The rewrites on a condition-tree text only strip the ` OR ` left when there is no field fragment. */
  lemma WhereTextRewritten(ands: seq<string>, ors: seq<string>)
    requires |ands| > 0 ==> |ands[0]| > 0 && ands[0][0] != ' '
    ensures var sql := Rewrite(WhereText(ands, ors));
            && (|ors| == 0 ==> sql == Join(ands, " AND "))
            && (|ors| > 0 && |ands| == 0 ==> sql == "(" + Join(ors, " AND ") + ")")
            && (|ors| > 0 && |ands| > 0 ==> sql == Join(ands, " AND ") + " OR (" + Join(ors, " AND ") + ")")
  {
    var t := WhereText(ands, ors);
    if |ands| > 0 {
      JoinHead(ands, " AND ");
      RewriteKeeps(t);
    } else if |ors| > 0 {
      assert t == " OR " + ("(" + Join(ors, " AND ") + ")");
      RewriteStrips("(" + Join(ors, " AND ") + ")");
    }
  }

  /**
   * A compiled condition tree is present exactly when its text is non-empty,
   * and an absent one carries no argument; an absent tree (`null`) is absent.
   */
  lemma WherePresence(where: Value)
    requires CompileWhere(where).Ok?
    ensures var r := CompileWhere(where).value;
            && (r.ok <==> |r.sql| > 0)
            && (!r.ok ==> r.args == [])
            && (where.Null? ==> !r.ok)
  {
    if !where.Null? {
      WhereShape(where);
      var es := Entries(where);
      var fs := FieldParts(es);
      if |fs| > 0 {
        SqlsOfHead(fs);
        FieldPartsHead(es);
        JoinHead(SqlsOf(fs), " AND ");
      }
    }
  }

  // ---------------------------------------------------------------- placeholders

  /** Every field name of a condition tree, including those of its OR branches, avoids c. */
  predicate FieldNamesAvoid(where: Value, c: char)
    decreases where
  {
    match where
    case Obj(ms) => forall m | m in ms :: c !in m.key && (m.key == OrKey ==> FieldNamesAvoid(m.value, c))
    case _ => true
  }

  /** Dropping a leading ` OR ` removes no `?`. */
  lemma RewriteOccurrences(t: string)
    ensures Occurrences(Rewrite(t), '?') == Occurrences(t, '?')
  {
    if |t| >= 4 && t[..4] == " OR " {
      assert t == t[..4] + t[4..];
      OccurrencesAppend(t[..4], t[4..], '?');
      assert '?' !in t[..4];
    }
  }

  /** Every `?` in the texts of the fragments has its own argument. */
  ghost predicate Balanced(parts: seq<OkSql>) {
    TotalOccurrences(SqlsOf(parts), '?') == |ArgsOf(parts)|
  }

  /** A balanced fragment keeps a balanced list balanced. */
  lemma BalancedSnoc(parts: seq<OkSql>, x: OkSql)
    requires Balanced(parts)
    requires Occurrences(x.sql, '?') == |x.args|
    ensures Balanced(parts + [x])
  {
    SqlsArgsSnoc(parts, [x]);
    TotalOccurrencesAppend(SqlsOf(parts), SqlsOf([x]), '?');
  }

  lemma TotalOccurrencesAppend(parts: seq<string>, more: seq<string>, c: char)
    requires |more| <= 1
    ensures TotalOccurrences(parts + more, c)
         == TotalOccurrences(parts, c) + (if |more| == 1 then Occurrences(more[0], c) else 0)
  {
    if |more| == 1 {
      assert (parts + more)[..|parts|] == parts;
    } else {
      assert parts + more == parts;
    }
  }

  /** The text of one comparison, `<field> <op> ?`, holds a single `?`. */
  lemma ComparisonMark(field: string, key: string)
    requires '?' !in field && '?' !in key
    ensures Occurrences(field + " " + key + " ?", '?') == 1
  {
    var prefix := field + " " + key + " ";
    assert field + " " + key + " ?" == prefix + ['?'];
    OccurrencesMark(prefix, '?');
  }

  /** Each comparison fragment carries one `?` and one argument. */
  lemma {:induction false} ComparisonsPlaceholders(field: string, es: seq<Member>)
    requires '?' !in field
    requires forall i | 0 <= i < |es| :: '?' !in es[i].key
    ensures TotalOccurrences(SqlsOf(Comparisons(field, es)), '?') == |ArgsOf(Comparisons(field, es))|
    decreases |es|
  {
    if |es| > 0 {
      var init, m := es[..|es| - 1], es[|es| - 1];
      ComparisonsPlaceholders(field, init);
      var extra := if m.key == OrKey then [] else [Comparison(field, m)];
      SqlsArgsSnoc(Comparisons(field, init), extra);
      TotalOccurrencesAppend(SqlsOf(Comparisons(field, init)), SqlsOf(extra), '?');
      if m.key != OrKey {
        ComparisonMark(field, m.key);
      }
    }
  }

  /**
   * For a `?`-free field name, the text of a compiled operator map has exactly
   * one `?` per argument: one per comparison (an IN passes its whole array as
   * one argument) and those of its OR side.
   */
  lemma {:induction false} OperatorPlaceholders(field: string, operator: Value)
    requires '?' !in field
    requires CompileOperator(field, operator).Ok?
    ensures Occurrences(CompileOperator(field, operator).value.sql, '?') == |CompileOperator(field, operator).value.args|
    decreases operator, 1
  {
    var es := Entries(operator);
    var cs, os := Comparisons(field, es), OrBranches(field, operator, |es|);
    assert CompileOperator(field, operator) == Ok(CombineOperator(cs, os));
    OperatorErrors(field, operator);
    ValidKeysAvoid(operator);
    ComparisonsPlaceholders(field, es);
    OrBranchesPlaceholders(field, operator, |es|);
    OperatorTextOccurrences(SqlsOf(cs), SqlsOf(os));
    RewriteOccurrences(OperatorText(SqlsOf(cs), SqlsOf(os)));
  }

  /** The keys of a valid operator map are vocabulary words, which hold no `?`. */
  lemma ValidKeysAvoid(operator: Value)
    requires OperatorValid(operator)
    ensures forall i | 0 <= i < |Entries(operator)| :: '?' !in Entries(operator)[i].key
  {
    VocabularyFacts();
    forall i | 0 <= i < |Entries(operator)| ensures '?' !in Entries(operator)[i].key {
      assert OperatorEntryValid(operator, i);
    }
  }

  /** The text around the fragments of an operator map adds no `?`. */
  lemma OperatorTextOccurrences(ands: seq<string>, ors: seq<string>)
    ensures Occurrences(OperatorText(ands, ors), '?') == TotalOccurrences(ands, '?') + TotalOccurrences(ors, '?')
  {
    var a, b := Join(ands, " AND "), Join(ors, " AND ");
    JoinOccurrences(ands, " AND ", '?');
    JoinOccurrences(ors, " AND ", '?');
    if |ors| > 0 {
      assert OperatorText(ands, ors) == "((" + a + ") OR (" + b + "))";
      WrapOccurrences(a, b);
    } else {
      assert ors == [];
    }
  }

  lemma WrapOccurrences(a: string, b: string)
    ensures Occurrences("((" + a + ") OR (" + b + "))", '?') == Occurrences(a, '?') + Occurrences(b, '?')
  {
    OccurrencesAppend("((", a, '?');
    OccurrencesAppend("((" + a, ") OR (", '?');
    OccurrencesAppend("((" + a + ") OR (", b, '?');
    OccurrencesAppend("((" + a + ") OR (" + b, "))", '?');
    assert '?' !in "((" && '?' !in ") OR (" && '?' !in "))";
  }

  lemma {:induction false} OrBranchesPlaceholders(field: string, operator: Value, n: nat)
    requires '?' !in field
    requires n <= |Entries(operator)|
    ensures Balanced(OrBranches(field, operator, n))
    decreases operator, 0, n
  {
    if n > 0 {
      OrBranchesPlaceholders(field, operator, n - 1);
      OrBranchesPlaceholdersStep(field, operator, n);
    }
  }

  /** One more key keeps the OR sides balanced. */
  lemma OrBranchesPlaceholdersStep(field: string, operator: Value, n: nat)
    requires '?' !in field
    requires 0 < n <= |Entries(operator)| && Balanced(OrBranches(field, operator, n - 1))
    ensures Balanced(OrBranches(field, operator, n))
    decreases operator, 0, n - 1
  {
    var i := n - 1;
    var m := Entries(operator)[i];
    var r := CompileOperator(field, m.value);
    if m.key == OrKey && r.Ok? && r.value.ok {
      OrBranchesAdd(field, operator, i, r.value);
      OrValueSmaller(operator, i);
      OperatorPlaceholders(field, m.value);
      BalancedSnoc(OrBranches(field, operator, i), r.value);
    } else {
      OrBranchesSkip(field, operator, i);
    }
  }

  /** The keys `for...in` yields on a tree whose field names avoid `?` avoid it too. */
  lemma EntriesKeysAvoid(where: Value)
    requires FieldNamesAvoid(where, '?')
    ensures forall i | 0 <= i < |Entries(where)| :: '?' !in Entries(where)[i].key
  {
    var es := Entries(where);
    forall i | 0 <= i < |es| ensures '?' !in es[i].key {
      if where.Obj? {
        assert es[i] in where.members;
      } else {
        assert es[i].key == NatToString(i);
        assert !IsDigit('?');
      }
    }
  }

  /** The scalar fragments of a `?`-free field name: IS NULL has no `?`, `= ?` has one. */
  lemma ScalarFragmentOccurrences(key: string)
    requires '?' !in key
    ensures '?' !in Quote(key)
    ensures Occurrences(Quote(key) + " IS NULL", '?') == 0
    ensures Occurrences(Quote(key) + " = ?", '?') == 1
  {
    assert '?' !in " IS NULL";
    assert Quote(key) + " = ?" == (Quote(key) + " = ") + ['?'];
    OccurrencesMark(Quote(key) + " = ", '?');
  }

  /** A field fragment has one `?` per argument: none for IS NULL, one for `= ?`. */
  lemma FieldFragmentPlaceholders(m: Member)
    requires '?' !in m.key
    requires FieldFragment(m).Ok?
    ensures Occurrences(FieldFragment(m).value.sql, '?') == |FieldFragment(m).value.args|
  {
    ScalarFragmentOccurrences(m.key);
    if !(m.value.Null? || m.value.Str? || m.value.Num?) {
      OperatorPlaceholders(Quote(m.key), m.value);
    }
  }

  lemma {:induction false} FieldPartsPlaceholders(es: seq<Member>)
    requires forall i | 0 <= i < |es| :: '?' !in es[i].key
    ensures TotalOccurrences(SqlsOf(FieldParts(es)), '?') == |ArgsOf(FieldParts(es))|
    decreases |es|
  {
    if |es| > 0 {
      var init, m := es[..|es| - 1], es[|es| - 1];
      FieldPartsPlaceholders(init);
      var extra := if m.key == OrKey then [] else match FieldFragment(m)
                     case Ok(f) => if f.ok then [f] else []
                     case Err(_) => [];
      assert FieldParts(es) == FieldParts(init) + extra;
      SqlsArgsSnoc(FieldParts(init), extra);
      TotalOccurrencesAppend(SqlsOf(FieldParts(init)), SqlsOf(extra), '?');
      if |extra| == 1 {
        FieldFragmentPlaceholders(m);
      }
    }
  }

  /** The text around the fragments of a condition tree adds no `?`. */
  lemma WhereTextOccurrences(ands: seq<string>, ors: seq<string>)
    ensures Occurrences(WhereText(ands, ors), '?') == TotalOccurrences(ands, '?') + TotalOccurrences(ors, '?')
  {
    var a, b := Join(ands, " AND "), Join(ors, " AND ");
    JoinOccurrences(ands, " AND ", '?');
    JoinOccurrences(ors, " AND ", '?');
    if |ors| > 0 {
      assert WhereText(ands, ors) == a + " OR (" + b + ")";
      OrTailOccurrences(a, b);
    } else {
      assert ors == [];
    }
  }

  lemma OrTailOccurrences(a: string, b: string)
    ensures Occurrences(a + " OR (" + b + ")", '?') == Occurrences(a, '?') + Occurrences(b, '?')
  {
    OccurrencesAppend(a, " OR (", '?');
    OccurrencesAppend(a + " OR (", b, '?');
    OccurrencesAppend(a + " OR (" + b, ")", '?');
    assert '?' !in " OR (" && '?' !in ")";
  }

  /**
   * For a tree whose field names hold no `?`, the compiled text has exactly
   * one `?` per argument, so the arguments line up with the placeholders.
   */
  lemma {:induction false} WherePlaceholders(where: Value)
    requires FieldNamesAvoid(where, '?')
    requires CompileWhere(where).Ok?
    ensures Occurrences(CompileWhere(where).value.sql, '?') == |CompileWhere(where).value.args|
    decreases where, 1
  {
    if !where.Null? {
      var es := Entries(where);
      var fs, bs := FieldParts(es), WhereBranches(where, |es|);
      assert CompileWhere(where) == Ok(CombineWhere(fs, bs));
      EntriesKeysAvoid(where);
      FieldPartsPlaceholders(es);
      WhereBranchesPlaceholders(where, |es|);
      WhereTextOccurrences(SqlsOf(fs), SqlsOf(bs));
      RewriteOccurrences(WhereText(SqlsOf(fs), SqlsOf(bs)));
    }
  }

  lemma {:induction false} WhereBranchesPlaceholders(where: Value, n: nat)
    requires FieldNamesAvoid(where, '?')
    requires n <= |Entries(where)|
    ensures Balanced(WhereBranches(where, n))
    decreases where, 0, n
  {
    if n > 0 {
      WhereBranchesPlaceholders(where, n - 1);
      WhereBranchesPlaceholdersStep(where, n);
    }
  }

  /** One more key keeps the OR branches balanced. */
  lemma WhereBranchesPlaceholdersStep(where: Value, n: nat)
    requires FieldNamesAvoid(where, '?')
    requires 0 < n <= |Entries(where)| && Balanced(WhereBranches(where, n - 1))
    ensures Balanced(WhereBranches(where, n))
    decreases where, 0, n - 1
  {
    var i := n - 1;
    var m := Entries(where)[i];
    var r := CompileWhere(m.value);
    if m.key == OrKey && r.Ok? && r.value.ok {
      WhereBranchesAdd(where, i, r.value);
      assert m in where.members;
      WherePlaceholders(m.value);
      BalancedSnoc(WhereBranches(where, i), r.value);
    } else {
      WhereBranchesSkip(where, i);
    }
  }
}
