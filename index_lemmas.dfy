/**
 * Properties of the statement builders: which error each throws and in what
 * order the checks come, how `count`, `del` and `update` agree with `select`
 * on the condition, that the placeholders of every statement line up with
 * its arguments, and that a page LIMIT reads back as the numbers it was
 * built from.
 */
module SqlGenLemmas {
  import opened Types
  import opened Text
  import opened Helper
  import opened HelperLemmas
  import opened HelperFacts
  import opened SqlGen

  // ---------------------------------------------------------------- errors

  /**
   * `select` and `count` throw exactly when the condition does, with its
   * error: a key outside the vocabulary or an IN without a non-empty array,
   * at any depth; an empty condition is no error for them.
   */
  lemma QueryErrors(table: string, fields: Option<string>, where: Where, orderBy: Option<string>, limit: Option<Limit>)
    ensures SelectSql(table, fields, where, orderBy, limit).Ok? <==> WhereValid(where)
    ensures CountSql(table, where).Ok? <==> WhereValid(where)
    ensures SelectSql(table, fields, where, orderBy, limit).Err? ==>
              SelectSql(table, fields, where, orderBy, limit).error in {UnknownOperator, WhereInEmptyArray}
    ensures CountSql(table, where).Err? ==> CountSql(table, where).error in {UnknownOperator, WhereInEmptyArray}
  {
    WhereErrors(where);
  }

  /**
   * `del` succeeds exactly when the condition is valid and reports a
   * predicate; a valid condition without one (absent, `{}`, `{OR: {}}`)
   * throws `WhereNull`, an invalid one its own error.
   */
  lemma DelErrors(table: string, where: Where)
    ensures DelSql(table, where).Ok? <==> WhereValid(where) && Present(CompileWhere(where))
    ensures WhereValid(where) && !Present(CompileWhere(where)) ==> DelSql(table, where) == Err(WhereNull)
    ensures !WhereValid(where) ==>
              DelSql(table, where).Err? && DelSql(table, where).error in {UnknownOperator, WhereInEmptyArray}
  {
    WhereErrors(where);
  }

  /**
   * `update` checks the assignment map before the condition: an empty map
   * throws `SetNull` whatever the condition; otherwise it throws what `del`
   * would throw for the same condition.
   */
  lemma UpdateErrors(table: string, where: Where, setData: Data, json: Value -> string)
    ensures |setData| == 0 ==> UpdateSql(table, where, setData, json) == Err(SetNull)
    ensures |setData| > 0 ==>
              (UpdateSql(table, where, setData, json).Err? <==> DelSql(table, where).Err?)
    ensures |setData| > 0 && DelSql(table, where).Err? ==>
              UpdateSql(table, where, setData, json).error == DelSql(table, where).error
  {
  }

  // ---------------------------------------------------------------- agreement between builders

  /**
   * `count` attaches the same WHERE clause and the same arguments as a
   * `select` of every column with no ordering and no limit; only the
   * projection differs.
   */
  lemma CountMatchesSelect(table: string, where: Where)
    ensures CountSql(table, where).Ok? <==> SelectSql(table, None, where, None, None).Ok?
    ensures CountSql(table, where).Ok? ==>
              var c, s := CountSql(table, where).value, SelectSql(table, None, where, None, None).value;
              && c.args == s.args
              && c.sql == CountHead + s.sql[|SelectHead(None)|..]
  {
    if CompileWhere(where).Ok? {
      var w := CompileWhere(where).value;
      BareSelect(table, where);
      SuffixAfter(SelectHead(None), WhereClause(w));
    }
  }

  /** A `select` of every column with no ordering and no limit is the projection and the WHERE clause. */
  lemma BareSelect(table: string, where: Where)
    requires CompileWhere(where).Ok?
    ensures SelectSql(table, None, where, None, None).value.sql == SelectHead(None) + WhereClause(CompileWhere(where).value)
  {
    var clause := SelectHead(None) + WhereClause(CompileWhere(where).value);
    AppendEmpty(clause);
    AppendEmpty(clause + "");
  }

  lemma SuffixAfter(a: string, b: string)
    ensures (a + b)[|a|..] == b
  {
  }

  /** `DELETE FROM ?? WHERE` then ` <condition>` reads as the table part then ` WHERE <condition>`. */
  lemma DelText(x: string)
    ensures DelHead + (" " + x) == "DELETE FROM ??" + (" WHERE " + x)
  {
    assert DelHead == "DELETE FROM ??" + " WHERE";
  }

  lemma UpdateText(x: string)
    ensures UpdateHead + (" " + x) == "UPDATE ?? SET ?" + (" WHERE " + x)
  {
    assert UpdateHead == "UPDATE ?? SET ?" + " WHERE";
  }

  /**
   * `del` accepts exactly the conditions for which `select` adds a WHERE
   * clause, and then carries the same arguments and the same clause after the
   * table placeholder.
   */
  lemma DelMatchesSelect(table: string, where: Where)
    ensures DelSql(table, where).Ok? <==>
              SelectSql(table, None, where, None, None).Ok? && |SelectSql(table, None, where, None, None).value.sql| > |SelectHead(None)|
    ensures DelSql(table, where).Ok? ==>
              var d, s := DelSql(table, where).value, SelectSql(table, None, where, None, None).value;
              && d.args == s.args
              && d.sql == "DELETE FROM ??" + s.sql[|SelectHead(None)|..]
  {
    if CompileWhere(where).Ok? {
      var w := CompileWhere(where).value;
      BareSelect(table, where);
      SuffixAfter(SelectHead(None), WhereClause(w));
      DelText(w.sql);
    }
  }

  /**
   * Given a non-empty assignment map, `update` builds what `del` builds for
   * the same condition, with `SET ?` after the table and the serialized map
   * as the second argument.
   */
  lemma UpdateMatchesDel(table: string, where: Where, setData: Data, json: Value -> string)
    requires |setData| > 0
    ensures UpdateSql(table, where, setData, json).Ok? <==> DelSql(table, where).Ok?
    ensures DelSql(table, where).Ok? ==>
              var u, d := UpdateSql(table, where, setData, json).value, DelSql(table, where).value;
              && u.args == [Str(table), Obj(SerializeData(setData, json))] + d.args[1..]
              && u.sql == "UPDATE ?? SET ?" + d.sql[|"DELETE FROM ??"|..]
  {
    if DelSql(table, where).Ok? {
      var w := CompileWhere(where).value;
      var d := DelSql(table, where).value;
      assert d.args[1..] == w.args;
      DelText(w.sql);
      UpdateText(w.sql);
      SuffixAfter("DELETE FROM ??", " WHERE " + w.sql);
    }
  }

  // ---------------------------------------------------------------- placeholders

  /** One `?` between two texts adds one to their counts. */
  lemma MarkBetween(p: string, q: string)
    ensures Occurrences(p + "?" + q, '?') == Occurrences(p, '?') + 1 + Occurrences(q, '?')
  {
    assert p + "?" + q == (p + ['?']) + q;
    OccurrencesAppend(p + ['?'], q, '?');
    OccurrencesPush(p, '?', '?');
  }

  /** The fixed texts: the table placeholder `??` counts two `?` for its one argument. */
  lemma CountHeadMarks()
    ensures Occurrences(CountHead, '?') == 2
  {
    var prefix := "SELECT COUNT(1) AS `total` FROM ";
    assert CountHead == prefix + "?" + "" + "?" + "";
    assert '?' !in prefix;
    MarkBetween(prefix, "");
    MarkBetween(prefix + "?" + "", "");
  }

  lemma InsertTextMarks()
    ensures Occurrences(InsertText, '?') == 3
  {
    assert InsertText == "INSERT INTO " + "?" + "" + "?" + " SET " + "?" + "";
    assert '?' !in "INSERT INTO " && '?' !in " SET ";
    MarkBetween("INSERT INTO ", "");
    MarkBetween("INSERT INTO " + "?" + "", " SET ");
    MarkBetween("INSERT INTO " + "?" + "" + "?" + " SET ", "");
  }

  lemma UpdateHeadMarks()
    ensures Occurrences(UpdateHead, '?') == 3
  {
    assert UpdateHead == "UPDATE " + "?" + "" + "?" + " SET " + "?" + " WHERE";
    assert '?' !in "UPDATE " && '?' !in " SET " && '?' !in " WHERE";
    MarkBetween("UPDATE ", "");
    MarkBetween("UPDATE " + "?" + "", " SET ");
    MarkBetween("UPDATE " + "?" + "" + "?" + " SET ", " WHERE");
  }

  lemma DelHeadMarks()
    ensures Occurrences(DelHead, '?') == 2
  {
    assert DelHead == "DELETE FROM " + "?" + "" + "?" + " WHERE";
    assert '?' !in "DELETE FROM " && '?' !in " WHERE";
    MarkBetween("DELETE FROM ", "");
    MarkBetween("DELETE FROM " + "?" + "", " WHERE");
  }

  /** The projection of a `select` holds only the table's `??` when the column list has no `?`. */
  lemma SelectHeadMarks(fields: Option<string>)
    requires fields.Some? ==> '?' !in fields.value
    ensures Occurrences(SelectHead(fields), '?') == 2
  {
    GetFieldsMarks(fields);
    ProjectionMarks(GetFields(fields));
  }

  lemma ProjectionMarks(f: string)
    requires '?' !in f
    ensures Occurrences("SELECT " + f + " FROM ??", '?') == 2
  {
    var prefix := "SELECT " + f + " FROM ";
    assert "SELECT " + f + " FROM ??" == prefix + "?" + "" + "?" + "";
    assert '?' !in "SELECT " && '?' !in " FROM ";
    OccurrencesAppend("SELECT ", f, '?');
    OccurrencesAppend("SELECT " + f, " FROM ", '?');
    MarkBetween(prefix, "");
    MarkBetween(prefix + "?" + "", "");
  }

  /** A WHERE clause of a `?`-free tree holds one `?` per argument it adds. */
  lemma WhereClauseMarks(where: Where)
    requires FieldNamesAvoid(where, '?')
    requires CompileWhere(where).Ok?
    ensures Occurrences(WhereClause(CompileWhere(where).value), '?') == |WhereArgs(CompileWhere(where).value)|
    ensures Occurrences(" " + CompileWhere(where).value.sql, '?') == |CompileWhere(where).value.args|
  {
    var w := CompileWhere(where).value;
    WherePlaceholders(where);
    LeadMarks(w.sql);
  }

  /** The words put before a condition add no `?`. */
  lemma LeadMarks(x: string)
    ensures Occurrences(" WHERE " + x, '?') == Occurrences(x, '?')
    ensures Occurrences(" " + x, '?') == Occurrences(x, '?')
  {
    OccurrencesAppend(" WHERE ", x, '?');
    OccurrencesAppend(" ", x, '?');
    assert '?' !in " WHERE " && '?' !in " ";
  }

  /** A LIMIT holds no `?` unless its raw text does. */
  lemma LimitClauseMarks(limit: Option<Limit>)
    requires limit.Some? && limit.value.LimitText? ==> '?' !in limit.value.text
    ensures '?' !in LimitClause(limit)
  {
    if limit.Some? && limit.value.LimitPage? {
      var offset, size := limit.value.offset, limit.value.size;
      DigitsHaveNoMark(NatToString(size));
      if offset.Some? {
        DigitsHaveNoMark(NatToString(offset.value));
      }
    }
  }

  /** An ORDER BY holds no `?` unless the ordering does. */
  lemma OrderByClauseMarks(orderBy: Option<string>)
    requires orderBy.Some? ==> '?' !in orderBy.value
    ensures '?' !in OrderByClause(orderBy)
  {
  }

  lemma DigitsHaveNoMark(digits: string)
    requires forall i | 0 <= i < |digits| :: IsDigit(digits[i])
    ensures '?' !in digits
  {
    forall i | 0 <= i < |digits| ensures digits[i] != '?' {
      assert IsDigit(digits[i]);
    }
  }

  /**
   * When the column list, the ordering, a raw LIMIT and every field name
   * hold no `?`, the text of a `select` has one `?` per argument plus one:
   * the table's `??` takes the first argument, every other `?` the next.
   */
  lemma SelectPlaceholders(table: string, fields: Option<string>, where: Where, orderBy: Option<string>, limit: Option<Limit>)
    requires fields.Some? ==> '?' !in fields.value
    requires orderBy.Some? ==> '?' !in orderBy.value
    requires limit.Some? && limit.value.LimitText? ==> '?' !in limit.value.text
    requires FieldNamesAvoid(where, '?')
    requires SelectSql(table, fields, where, orderBy, limit).Ok?
    ensures Occurrences(SelectSql(table, fields, where, orderBy, limit).value.sql, '?')
         == |SelectSql(table, fields, where, orderBy, limit).value.args| + 1
  {
    var w := CompileWhere(where).value;
    var head, wc, oc, lc := SelectHead(fields), WhereClause(w), OrderByClause(orderBy), LimitClause(limit);
    SelectHeadMarks(fields);
    WhereClauseMarks(where);
    LimitClauseMarks(limit);
    OrderByClauseMarks(orderBy);
    OccurrencesOfFour(head, wc, oc, lc);
  }

  lemma OccurrencesOfFour(a: string, b: string, c: string, d: string)
    ensures Occurrences(a + b + c + d, '?') == Occurrences(a, '?') + Occurrences(b, '?') + Occurrences(c, '?') + Occurrences(d, '?')
  {
    OccurrencesAppend(a, b, '?');
    OccurrencesAppend(a + b, c, '?');
    OccurrencesAppend(a + b + c, d, '?');
  }

  /** The same for `count`. */
  lemma CountPlaceholders(table: string, where: Where)
    requires FieldNamesAvoid(where, '?')
    requires CountSql(table, where).Ok?
    ensures Occurrences(CountSql(table, where).value.sql, '?') == |CountSql(table, where).value.args| + 1
  {
    var w := CompileWhere(where).value;
    CountHeadMarks();
    WhereClauseMarks(where);
    OccurrencesAppend(CountHead, WhereClause(w), '?');
  }

  /** The same for `insert`: the table's `??`, then one `?` for the assignment map. */
  lemma InsertPlaceholders(table: string, data: Data, json: Value -> string)
    requires InsertSql(table, data, json).Ok?
    ensures Occurrences(InsertSql(table, data, json).value.sql, '?') == |InsertSql(table, data, json).value.args| + 1
  {
    InsertTextMarks();
  }

  /** The same for `update`: the table's `??`, the assignment map's `?`, then the condition's. */
  lemma UpdatePlaceholders(table: string, where: Where, setData: Data, json: Value -> string)
    requires FieldNamesAvoid(where, '?')
    requires UpdateSql(table, where, setData, json).Ok?
    ensures Occurrences(UpdateSql(table, where, setData, json).value.sql, '?')
         == |UpdateSql(table, where, setData, json).value.args| + 1
  {
    var w := CompileWhere(where).value;
    UpdateHeadMarks();
    WhereClauseMarks(where);
    OccurrencesAppend(UpdateHead, " " + w.sql, '?');
  }

  /** The same for `del`. */
  lemma DelPlaceholders(table: string, where: Where)
    requires FieldNamesAvoid(where, '?')
    requires DelSql(table, where).Ok?
    ensures Occurrences(DelSql(table, where).value.sql, '?') == |DelSql(table, where).value.args| + 1
  {
    var w := CompileWhere(where).value;
    DelHeadMarks();
    WhereClauseMarks(where);
    OccurrencesAppend(DelHead, " " + w.sql, '?');
  }

  // ---------------------------------------------------------------- limit

  /**
   * A page LIMIT reads back as the numbers it was built from: without an
   * offset it is the size's digits; with one (0 included) it is the offset's
   * digits, a comma, a space and the size's digits.
   */
  lemma LimitPageRoundTrip(offset: Option<nat>, size: nat)
    ensures var t := LimitValue(LimitPage(offset, size));
            offset.None? ==> (forall i | 0 <= i < |t| :: IsDigit(t[i])) && ParseNat(t) == size
    ensures var t := LimitValue(LimitPage(offset, size));
            offset.Some? ==>
              && |Split(t, ',')| == 2
              && (forall i | 0 <= i < |Split(t, ',')[0]| :: IsDigit(Split(t, ',')[0][i]))
              && ParseNat(Split(t, ',')[0]) == offset.value
              && |Split(t, ',')[1]| > 1 && Split(t, ',')[1][0] == ' '
              && (forall i | 1 <= i < |Split(t, ',')[1]| :: IsDigit(Split(t, ',')[1][i]))
              && ParseNat(Split(t, ',')[1][1..]) == size
  {
    var s := NatToString(size);
    NatToStringRoundTrip(size);
    if offset.Some? {
      var o := NatToString(offset.value);
      NatToStringRoundTrip(offset.value);
      var t := LimitValue(LimitPage(offset, size));
      assert t == o + [','] + (" " + s);
      assert ',' !in o by {
        forall i | 0 <= i < |o| ensures o[i] != ',' {
          assert IsDigit(o[i]);
        }
      }
      assert ',' !in " " + s by {
        forall i | 0 <= i < |" " + s| ensures (" " + s)[i] != ',' {
          if i > 0 {
            assert (" " + s)[i] == s[i - 1] && IsDigit(s[i - 1]);
          }
        }
      }
      SplitFree(o, ',');
      SplitAfterSeparator(o, ',', " " + s);
      assert (" " + s)[1..] == s;
    } else {
      assert LimitValue(LimitPage(offset, size)) == s;
    }
  }
}
