/**
 * Further properties of the condition compiler: exactly when a compiled
 * fragment is present, what the value kinds outside the documented ones
 * compile to, the pieces `getFields` quotes, and the shape of `genData`.
 */
module HelperFacts {
  import opened Types
  import opened Text
  import opened Helper
  import opened HelperLemmas

  /** A compile that succeeded with a fragment (`ok` is true). */
  predicate Present(r: Result<OkSql>) {
    r.Ok? && r.value.ok
  }

  /** Some index below n satisfies p, counted down from n - 1 so that no quantifier is involved. */
  ghost predicate SomeBelow(p: nat -> bool, n: nat) {
    n > 0 && (p(n - 1) || SomeBelow(p, n - 1))
  }

  /** The recursive form says the same as the existential one. */
  lemma {:induction false} SomeBelowExists(p: nat -> bool, n: nat)
    ensures SomeBelow(p, n) <==> exists i: nat | i < n :: p(i)
  {
    if n > 0 {
      SomeBelowExists(p, n - 1);
      if !p(n - 1) && exists i: nat | i < n :: p(i) {
        var i: nat :| i < n && p(i);
        assert i < n - 1;
      }
    }
  }

  /**
   * A count that starts at zero and grows by one exactly at the indices that
   * satisfy p is positive exactly when some index below n satisfies p.
   */
  lemma {:induction false} CountPositive(count: nat -> nat, p: nat -> bool, n: nat)
    requires count(0) == 0
    requires forall k: nat | 0 < k <= n :: count(k) == count(k - 1) + (if p(k - 1) then 1 else 0)
    ensures count(n) > 0 <==> SomeBelow(p, n)
  {
    if n > 0 {
      CountPositive(count, p, n - 1);
    }
  }

  // ---------------------------------------------------------------- operator maps

  /** The i-th key of an operator map is an OR side whose compile yields a fragment. */
  predicate OrSidePresent(field: string, operator: Value, i: nat)
    requires i < |Entries(operator)|
  {
    Entries(operator)[i].key == OrKey && Present(CompileOperator(field, Entries(operator)[i].value))
  }

  /** There is a comparison fragment exactly when some key is not the OR sentinel. */
  lemma {:induction false} ComparisonsPresent(field: string, es: seq<Member>)
    ensures |Comparisons(field, es)| > 0 <==> exists i | 0 <= i < |es| :: es[i].key != OrKey
    decreases |es|
  {
    if |es| > 0 {
      var init := es[..|es| - 1];
      ComparisonsPresent(field, init);
      if es[|es| - 1].key == OrKey {
        assert Comparisons(field, es) == Comparisons(field, init);
        if exists i | 0 <= i < |es| :: es[i].key != OrKey {
          var i :| 0 <= i < |es| && es[i].key != OrKey;
          assert init[i].key != OrKey;
        }
        if exists i | 0 <= i < |init| :: init[i].key != OrKey {
          var i :| 0 <= i < |init| && init[i].key != OrKey;
          assert es[i].key != OrKey;
        }
      }
    }
  }

  /** Some key among the first n of an operator map is an OR side that reports a condition. */
  ghost predicate SomeOrSidePresent(field: string, operator: Value, n: nat)
    requires n <= |Entries(operator)|
  {
    SomeBelow(OrSideFlag(field, operator), n)
  }

  /** `OrSidePresent` as a property of every index, false past the last key. */
  function OrSideFlag(field: string, operator: Value): nat -> bool {
    (i: nat) => i < |Entries(operator)| && OrSidePresent(field, operator, i)
  }

  /** The number of OR fragments among the first k keys, zero past the last key. */
  function OrBranchCount(field: string, operator: Value): nat -> nat {
    (k: nat) => if k <= |Entries(operator)| then |OrBranches(field, operator, k)| else 0
  }

  lemma OrSideFlagAt(field: string, operator: Value, i: nat)
    requires i < |Entries(operator)|
    ensures OrSideFlag(field, operator)(i) == OrSidePresent(field, operator, i)
  {
  }

  /** One more key adds an OR fragment exactly when that key is a present OR side. */
  lemma OrBranchesPresentStep(field: string, operator: Value, n: nat)
    requires 0 < n <= |Entries(operator)|
    ensures |OrBranches(field, operator, n)| == |OrBranches(field, operator, n - 1)| + (if OrSidePresent(field, operator, n - 1) then 1 else 0)
  {
    var m := Entries(operator)[n - 1];
    var r := CompileOperator(field, m.value);
    if m.key == OrKey && r.Ok? && r.value.ok {
      OrBranchesAdd(field, operator, n - 1, r.value);
    } else {
      OrBranchesSkip(field, operator, n - 1);
    }
  }

  /** Every key up to n adds one to the count exactly when it is present. */
  lemma OrBranchesPresentSteps(field: string, operator: Value, n: nat)
    requires n <= |Entries(operator)|
    ensures forall k: nat | 0 < k <= n :: OrBranchCount(field, operator)(k) == OrBranchCount(field, operator)(k - 1) + (if OrSideFlag(field, operator)(k - 1) then 1 else 0)
  {
    forall k: nat | 0 < k <= n
      ensures OrBranchCount(field, operator)(k) == OrBranchCount(field, operator)(k - 1) + (if OrSideFlag(field, operator)(k - 1) then 1 else 0)
    {
      OrBranchCountStep(field, operator, k);
    }
  }

  /** The count form of `OrBranchesPresentStep` at one index. */
  lemma OrBranchCountStep(field: string, operator: Value, k: nat)
    requires 0 < k <= |Entries(operator)|
    ensures OrBranchCount(field, operator)(k) == OrBranchCount(field, operator)(k - 1) + (if OrSideFlag(field, operator)(k - 1) then 1 else 0)
  {
    OrBranchesPresentStep(field, operator, k);
    OrSideFlagAt(field, operator, k - 1);
    assert OrBranchCount(field, operator)(k) == |OrBranches(field, operator, k)|;
    assert OrBranchCount(field, operator)(k - 1) == |OrBranches(field, operator, k - 1)|;
  }

  /** There is an OR side among the first n keys exactly when one of them compiles to a fragment. */
  lemma OrBranchesPresent(field: string, operator: Value, n: nat)
    requires n <= |Entries(operator)|
    ensures |OrBranches(field, operator, n)| > 0 <==> SomeOrSidePresent(field, operator, n)
  {
    OrBranchesPresentSteps(field, operator, n);
    assert OrBranchCount(field, operator)(0) == |OrBranches(field, operator, 0)| == 0;
    CountPositive(OrBranchCount(field, operator), OrSideFlag(field, operator), n);
  }

  /**
   * `withOperator` reports a fragment (`ok`) exactly when the map has a
   * comparison key or an OR side that itself reports one; a map whose only
   * content is an empty OR side reports none.
   */
  lemma OperatorPresent(field: string, operator: Value)
    requires CompileOperator(field, operator).Ok?
    ensures CompileOperator(field, operator).value.ok <==>
              || (exists i | 0 <= i < |Entries(operator)| :: Entries(operator)[i].key != OrKey)
              || (exists i | 0 <= i < |Entries(operator)| :: OrSidePresent(field, operator, i))
  {
    var n := |Entries(operator)|;
    ComparisonsPresent(field, Entries(operator));
    OrBranchesPresent(field, operator, n);
    SomeBelowExists(OrSideFlag(field, operator), n);
    if SomeOrSidePresent(field, operator, n) {
      var i: nat :| i < n && OrSideFlag(field, operator)(i);
      assert OrSidePresent(field, operator, i);
    }
    if exists i | 0 <= i < n :: OrSidePresent(field, operator, i) {
      var i :| 0 <= i < n && OrSidePresent(field, operator, i);
      assert OrSideFlag(field, operator)(i);
    }
  }

  /**
   * A value that is not an object has no operator keys: with no `for...in`
   * keys at all (null, a number, a boolean, an empty string or array) it
   * compiles to no fragment; otherwise its first key is a position such as
   * "0", which is not an operator.
   */
  lemma NonObjectOperator(field: string, operator: Value)
    requires !operator.Obj?
    ensures CompileOperator(field, operator)
         == if |Entries(operator)| == 0 then Ok(OkSql("", [], false)) else Err(UnknownOperator)
  {
    var es := Entries(operator);
    FirstOperatorErrorIsFirst(field, operator, |es|);
    if |es| == 0 {
      assert FirstOperatorError(field, operator, 0) == None;
      assert Comparisons(field, es) == [] && OrBranches(field, operator, 0) == [];
      assert SqlsOf([]) == [] && ArgsOf([]) == [];
      assert Rewrite(OperatorText([], [])) == "";
      assert CombineOperator([], []) == OkSql("", [], false);
      assert CompileOperator(field, operator) == Ok(CombineOperator([], []));
    } else {
      EntriesOfNonObject(operator, 0);
      assert OperatorKeyError(field, operator, 0) == Some(UnknownOperator);
      var i :| OperatorFirstAt(field, operator, |es|, i);
      EntriesOfNonObject(operator, i);
    }
  }

  // ---------------------------------------------------------------- condition trees

  /** The key is a field whose fragment is present. */
  predicate FieldPresent(m: Member) {
    m.key != OrKey && Present(FieldFragment(m))
  }

  /** The i-th key of a condition tree is an OR branch whose compile yields a fragment. */
  predicate BranchPresent(where: Value, i: nat)
    requires i < |Entries(where)|
  {
    Entries(where)[i].key == OrKey && Present(CompileWhere(Entries(where)[i].value))
  }

  /**
   * How each kind of field value compiles: null, a string and a number always
   * give a fragment; a boolean gives none and is dropped; an array gives none
   * when empty and otherwise throws `UnknownOperator`, since its keys are positions.
   */
  lemma FieldFragmentKinds(m: Member)
    ensures m.value.Null? || m.value.Str? || m.value.Num? ==> Present(FieldFragment(m))
    ensures m.value.Bool? ==> FieldFragment(m) == Ok(OkSql("", [], false))
    ensures m.value.Arr? ==>
              FieldFragment(m) == if |m.value.items| == 0 then Ok(OkSql("", [], false)) else Err(UnknownOperator)
  {
    if m.value.Bool? || m.value.Arr? {
      NonObjectOperator(Quote(m.key), m.value);
    }
  }

  /** Some key among es is a field whose fragment is present. */
  ghost predicate SomeFieldPresent(es: seq<Member>) {
    exists i | 0 <= i < |es| :: FieldPresent(es[i])
  }

  lemma {:induction false} FieldPartsPresent(es: seq<Member>)
    ensures |FieldParts(es)| > 0 <==> SomeFieldPresent(es)
    decreases |es|
  {
    if |es| > 0 {
      var init := es[..|es| - 1];
      FieldPartsPresent(init);
      FieldPartsStep(es);
      if FieldPresent(es[|es| - 1]) {
        assert SomeFieldPresent(es);
      } else {
        assert FieldParts(es) == FieldParts(init);
        if SomeFieldPresent(init) {
          var i :| 0 <= i < |init| && FieldPresent(init[i]);
          assert es[i] == init[i];
          assert SomeFieldPresent(es);
        } else {
          forall i | 0 <= i < |es| ensures !FieldPresent(es[i]) {
            if i < |init| {
              assert es[i] == init[i];
            }
          }
        }
      }
    }
  }

  /** The last key adds its fragment to the field fragments exactly when it is present. */
  lemma FieldPartsStep(es: seq<Member>)
    requires |es| > 0
    ensures var m := es[|es| - 1];
            FieldParts(es) == FieldParts(es[..|es| - 1]) + if FieldPresent(m) then [FieldFragment(m).value] else []
  {
  }

  /** Some key among the first n of a condition tree is an OR branch that reports a condition. */
  ghost predicate SomeBranchPresent(where: Value, n: nat)
    requires n <= |Entries(where)|
  {
    SomeBelow(BranchFlag(where), n)
  }

  /** `BranchPresent` as a property of every index, false past the last key. */
  function BranchFlag(where: Value): nat -> bool {
    (i: nat) => i < |Entries(where)| && BranchPresent(where, i)
  }

  /** The number of OR branch fragments among the first k keys, zero past the last key. */
  function WhereBranchCount(where: Value): nat -> nat {
    (k: nat) => if k <= |Entries(where)| then |WhereBranches(where, k)| else 0
  }

  lemma BranchFlagAt(where: Value, i: nat)
    requires i < |Entries(where)|
    ensures BranchFlag(where)(i) == BranchPresent(where, i)
  {
  }

  /** One more key adds an OR fragment exactly when that key is a present OR side. */
  lemma WhereBranchesPresentStep(where: Value, n: nat)
    requires 0 < n <= |Entries(where)|
    ensures |WhereBranches(where, n)| == |WhereBranches(where, n - 1)| + (if BranchPresent(where, n - 1) then 1 else 0)
  {
    var m := Entries(where)[n - 1];
    var r := CompileWhere(m.value);
    if m.key == OrKey && r.Ok? && r.value.ok {
      WhereBranchesAdd(where, n - 1, r.value);
    } else {
      WhereBranchesSkip(where, n - 1);
    }
  }

  /** Every key up to n adds one to the count exactly when it is present. */
  lemma WhereBranchesPresentSteps(where: Value, n: nat)
    requires n <= |Entries(where)|
    ensures forall k: nat | 0 < k <= n :: WhereBranchCount(where)(k) == WhereBranchCount(where)(k - 1) + (if BranchFlag(where)(k - 1) then 1 else 0)
  {
    forall k: nat | 0 < k <= n
      ensures WhereBranchCount(where)(k) == WhereBranchCount(where)(k - 1) + (if BranchFlag(where)(k - 1) then 1 else 0)
    {
      WhereBranchCountStep(where, k);
    }
  }

  /** The count form of `WhereBranchesPresentStep` at one index. */
  lemma WhereBranchCountStep(where: Value, k: nat)
    requires 0 < k <= |Entries(where)|
    ensures WhereBranchCount(where)(k) == WhereBranchCount(where)(k - 1) + (if BranchFlag(where)(k - 1) then 1 else 0)
  {
    WhereBranchesPresentStep(where, k);
    BranchFlagAt(where, k - 1);
    assert WhereBranchCount(where)(k) == |WhereBranches(where, k)|;
    assert WhereBranchCount(where)(k - 1) == |WhereBranches(where, k - 1)|;
  }

  /** There is an OR branch among the first n keys exactly when one of them reports a condition. */
  lemma WhereBranchesPresent(where: Value, n: nat)
    requires n <= |Entries(where)|
    ensures |WhereBranches(where, n)| > 0 <==> SomeBranchPresent(where, n)
  {
    WhereBranchesPresentSteps(where, n);
    assert WhereBranchCount(where)(0) == |WhereBranches(where, 0)| == 0;
    CountPositive(WhereBranchCount(where), BranchFlag(where), n);
  }

  /**
   * `genWhere` reports a condition (`ok`) exactly when the tree is not absent
   * and some field yields a fragment or some OR branch reports a condition;
   * `{}` and `{OR: {}}` report none.
   */
  lemma WherePresent(where: Value)
    requires CompileWhere(where).Ok?
    ensures CompileWhere(where).value.ok <==>
              && !where.Null?
              && (|| (exists i | 0 <= i < |Entries(where)| :: FieldPresent(Entries(where)[i]))
                  || (exists i | 0 <= i < |Entries(where)| :: BranchPresent(where, i)))
  {
    if !where.Null? {
      var n := |Entries(where)|;
      FieldPartsPresent(Entries(where));
      WhereBranchesPresent(where, n);
      SomeBelowExists(BranchFlag(where), n);
      if SomeBranchPresent(where, n) {
        var i: nat :| i < n && BranchFlag(where)(i);
        assert BranchPresent(where, i);
      }
      if exists i | 0 <= i < n :: BranchPresent(where, i) {
        var i :| 0 <= i < n && BranchPresent(where, i);
        assert BranchFlag(where)(i);
      }
    }
  }

  // ---------------------------------------------------------------- field lists

  /**
   * `getFields` quotes the comma-separated pieces of the list, whatever way of
   * cutting the list at its commas one names: any pieces without commas that
   * join back to the list are the ones quoted, in order, joined by ", ".
   */
  lemma GetFieldsPieces(fields: string, pieces: seq<string>)
    requires fields != "*"
    requires |pieces| >= 1 && Join(pieces, ",") == fields
    requires forall i | 0 <= i < |pieces| :: ',' !in pieces[i]
    ensures GetFields(Some(fields)) == Join(QuoteAll(pieces), ", ")
  {
    SplitOfJoin(pieces, ',');
  }

  /** An absent list and the list `*` both select every column. */
  lemma GetFieldsAll(fields: Option<string>)
    ensures GetFields(fields) == "*" <==> fields.None? || fields == Some("*")
  {
    if fields.Some? && fields.value != "*" {
      var pieces := Split(fields.value, ',');
      var quoted := QuoteAll(pieces);
      JoinHead(quoted, ", ");
      if |quoted| == 1 {
        assert GetFields(fields) == quoted[0];
      } else {
        QuotedJoinLength(quoted);
      }
    }
  }

  /** A join of at least two quoted names is at least five characters long. */
  lemma {:induction false} QuotedJoinLength(quoted: seq<string>)
    requires |quoted| >= 2
    requires forall i | 0 <= i < |quoted| :: |quoted[i]| >= 2
    ensures |Join(quoted, ", ")| >= 5
  {
    if |quoted| > 2 {
      QuotedJoinLength(quoted[..|quoted| - 1]);
    }
  }

  /** Quoting adds backticks only, so the pieces keep their count of `?`. */
  lemma {:induction false} QuoteAllOccurrences(names: seq<string>)
    ensures TotalOccurrences(QuoteAll(names), '?') == TotalOccurrences(names, '?')
    decreases |names|
  {
    if |names| > 0 {
      var init, last := names[..|names| - 1], names[|names| - 1];
      QuoteAllOccurrences(init);
      assert QuoteAll(names)[..|names| - 1] == QuoteAll(init);
      OccurrencesAppend("`", last, '?');
      OccurrencesAppend("`" + last, "`", '?');
    }
  }

  /** A column list without `?` gives a projection without `?`. */
  lemma GetFieldsMarks(fields: Option<string>)
    requires fields.Some? ==> '?' !in fields.value
    ensures '?' !in GetFields(fields)
  {
    if fields.Some? && fields.value != "*" {
      var pieces := Split(fields.value, ',');
      SplitJoin(fields.value, ',');
      JoinOccurrences(pieces, [','], '?');
      QuoteAllOccurrences(pieces);
      JoinOccurrences(QuoteAll(pieces), ", ", '?');
    }
  }

  // ---------------------------------------------------------------- assignment maps

  /** Serializing twice is serializing once: JSON texts are strings and are kept. */
  lemma SerializeDataIdempotent(data: Data, json: Value -> string)
    ensures SerializeData(SerializeData(data, json), json) == SerializeData(data, json)
  {
  }
}
