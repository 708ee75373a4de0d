# node-sql-gen in Dafny

node-sql-gen turns structured descriptions of conditions and assignments into
parameterised MySQL text plus a positional argument list. A driver later
substitutes the placeholders: `??` stands for an identifier and `?` for a
value.

This project models the generator's core and proves properties of it.

The model has three parts:

- **The condition compiler** (`src/helper.ts`).
  - `withOperator` compiles one field's operator map, such as
    `{">=": 10, "<=": 20, OR: {IN: [...]}}`.
  - `genWhere` compiles a whole condition tree, with field keys and a
    tree-level OR branch.
  - Both return an `OkSql` triple `{sql, args, ok}`. In it, `ok = false`
    means "no predicate".
  - `genData` serialises an assignment map.
  - `getFields` quotes a column list.
  - The four error messages are modelled too.
- **The statement builders** (`src/index.ts`): `select`, `count`, `insert`,
  `update` and `del`.
- **The data model** (`src/types.ts`): the OR sentinel `"Symbol(OR)"`, the
  eight-word operator vocabulary, and the `Limit`, `Sql` and `OkSql` shapes.

## How it is built

- **Runtime values.**
  - A JavaScript value is a `Value`: null, string, number, boolean, array, or
    an object kept as an ordered list of members.
  - `for...in` is `Helper.Entries`. On an object it gives the members in order.
    On an array or a string it gives the positions `"0"`, `"1"`, ….
    Otherwise it gives nothing.
  - A thrown `Error` is the `Err` case of `Result`, with one `SqlError` per
    message.
- **The compilers.**
  - `withOperator` and `genWhere` are `for...in` loops that push onto
    `sqlArr`, `args`, `orSqlArr` and `orArgs`. They are modelled as the
    methods `Helper.WithOperator` and `Helper.GenWhere`, with the same loops.
  - Each method is proved equal to a specification function,
    `Helper.CompileOperator` or `Helper.CompileWhere`. Those functions define
    the result by prefixes of the key list:
    - the first offending key;
    - the comparison or field fragments;
    - the non-empty OR fragments.
  - The loop invariant `OperatorLoop`/`WhereLoop` ties the four arrays to
    those prefixes.
- **The builders.**
  - `select`, `count`, `update` and `del` grow `sql` and `args` by conditional
    appends. They are methods, each proved equal to a function with the `Sql`
    suffix.
  - `insert` is a single guarded expression, so it is a function.
  - `genData` is a method with a loop, proved equal to `SerializeData`.
- **The proved properties** live in separate modules:
  - `HelperLemmas` and `HelperFacts`: error conditions, text shapes, the `ok`
    flag, and placeholder/argument balance.
  - `SqlGenLemmas`: the builders.
  - `Scenarios`: the cases in `src/index.test.ts`, stated for every table,
    field and value of the same shape, on the raw `{sql, args}`.

Three behaviours of the code are worth noting:

- **IN text.** An IN comparison is written `<field> IN ?`, without
  parentheses. Its single argument is the array wrapped in a one-element list
  (`src/helper.ts:31-38`). The parentheses in the expected SQL come from the
  driver's expansion of nested arrays.
- **Empty AND side.** Suppose an operator map has a non-empty OR side but no
  comparison. It renders as `(() OR (<or>))`: an empty `()` remains, and
  neither rewrite removes it (`src/helper.ts:40-46`). The lemmas
  `HelperLemmas.OperatorShape` and `Scenarios.OrOnlyOperatorExample` state
  this.
- **OR sentinel.** The sentinel is a plain string, so a field literally named
  `Symbol(OR)` is read as the OR branch.

## Model

| member | source | states |
|---|---|---|
| Types.VocabularyFacts | src/types.ts:3-5 | The vocabulary has exactly eight pairwise-distinct words, OR and IN among them; none is empty or holds `?` or a backtick |
| Text.NatToString | src/index.ts:26 | The decimal rendering of a LIMIT number is non-empty and made of digits only |
| Text.NatToStringRoundTrip | src/index.ts:26 | Reading the rendered digits back gives the number |
| Text.SplitJoin | src/helper.ts:10 | Joining the pieces of `split(",")` with the comma gives the list back |
| Text.SplitPieces | src/helper.ts:10 | No piece of a split holds the separator, and there is one more piece than separators |
| Text.SplitOfJoin | src/helper.ts:10 | Splitting a join of separator-free pieces gives those pieces back, so the pieces of a list are unique |
| Text.JoinOccurrences | src/helper.ts:40 | A separator without `?` adds no `?` to a join |
| Helper.ErrorMessagesDistinct | src/helper.ts:4-7 | The four error messages are pairwise distinct, so a caller can tell the errors apart by message |
| Helper.Quote | src/helper.ts:9 | The quoted name is the name with one backtick on each side |
| Helper.GetFields | src/helper.ts:9-10 | An absent list or `*` gives `*`; any other list gives a projection that starts with a backtick |
| Helper.Entries | src/helper.ts:17 | `for...in` on an object visits its members in order, and only an object can yield the OR key |
| Helper.IndexKeyNotAvailable | src/helper.ts:18-20 | A position key such as "0" is never an operator, so an array or a string used as an operator map throws UnknownOperator |
| Helper.CompileOperator | src/helper.ts:12-48 | A compiled operator map that reports no predicate has empty text and no arguments |
| Helper.WithOperator | src/helper.ts:12-48 | The loop returns exactly what the specification function `CompileOperator` defines, errors included, at every nesting depth |
| Helper.CompileWhere | src/helper.ts:49-93 | A compiled tree that reports no predicate has empty text and no arguments |
| Helper.GenWhere | src/helper.ts:49-93 | The loop returns exactly what `CompileWhere` defines, null trees and nested OR branches included |
| Helper.SerializeData | src/helper.ts:95-104 | Same keys in the same order; arrays and objects become their JSON text; null, strings, numbers and booleans are kept; no structured value remains |
| Helper.GenData | src/helper.ts:95-104 | The loop that overwrites the structured values of the copy yields exactly `SerializeData` of the input |
| HelperLemmas.FirstOperatorErrorIsFirst | src/helper.ts:17-36 | A prefix of an operator map throws nothing iff every key in it passes; otherwise it throws the error of a key i such that every key before i passes |
| HelperLemmas.FirstWhereErrorIsFirst | src/helper.ts:58-85 | A prefix of a condition tree throws nothing iff every key in it compiles; otherwise it throws the error of a key i such that every key before i compiles |
| HelperLemmas.OperatorErrors | src/helper.ts:17-36 | `withOperator` succeeds iff every key at every depth is in the vocabulary and every IN holds a non-empty array; it throws only UnknownOperator or WhereInEmptyArray |
| HelperLemmas.OperatorKeyErrors | src/helper.ts:18-34 | One key passes iff it is a vocabulary word, its OR sub-map is valid, and an IN holds a non-empty array |
| HelperLemmas.WhereErrors | src/helper.ts:49-93 | `genWhere` succeeds iff every operator map reached through fields and OR branches is valid; field names are never checked |
| HelperLemmas.WhereKeyErrors | src/helper.ts:59-84 | One tree key passes iff its OR branch or its field's operator map is valid |
| HelperLemmas.RewriteKeeps | src/helper.ts:45-46 | The rewrites leave a text alone when it does not start with a blank |
| HelperLemmas.RewriteStrips | src/helper.ts:91 | The rewrite strips exactly one leading ` OR ` |
| HelperLemmas.RewriteCases | src/helper.ts:45-46 | The rewrites either keep a text or strip one leading ` OR `, and change it only when it starts with ` OR ` |
| HelperLemmas.ComparisonsHead | src/helper.ts:37 | The first comparison fragment starts with the field name |
| HelperLemmas.OperatorShape | src/helper.ts:40-47 | The compiled text is the AND-join of the comparisons, or `((<and>) OR (<or>))` when there is an OR side (also `(() OR (<or>))`); arguments are the comparisons' then the OR side's; `ok` iff the text is non-empty; an absent result has no arguments |
| HelperLemmas.FieldFragmentHead | src/helper.ts:69-84 | A present field fragment starts with the quoted name or a parenthesis |
| HelperLemmas.FieldPartsHead | src/helper.ts:86 | The first field fragment starts with a backtick or a parenthesis, so the rewrites never touch it |
| HelperLemmas.WhereShape | src/helper.ts:86-92 | The tree text is the AND-join of the field fragments, then ` OR (<branches>)`; with no field fragment it is `(<branches>)`; field arguments come before branch arguments |
| HelperLemmas.WhereTextRewritten | src/helper.ts:86-91 | The rewrites change a tree text only by stripping the ` OR ` left when there is no field fragment |
| HelperLemmas.WherePresence | src/helper.ts:50-92 | A compiled tree is present iff its text is non-empty; an absent one has no arguments; a null tree is absent |
| HelperLemmas.RewriteOccurrences | src/helper.ts:91 | The rewrites remove no `?` |
| HelperLemmas.ComparisonMark | src/helper.ts:37 | A comparison text `<field> <op> ?` holds exactly one `?` |
| HelperLemmas.ComparisonsPlaceholders | src/helper.ts:30-38 | Across the comparisons, the `?` count equals the argument count (IN passes its array as one argument) |
| HelperLemmas.OperatorPlaceholders | src/helper.ts:12-48 | For a `?`-free field, a compiled operator map has exactly one `?` per argument |
| HelperLemmas.ValidKeysAvoid | src/helper.ts:18-20 | The keys of an accepted operator map hold no `?` |
| HelperLemmas.OperatorTextOccurrences | src/helper.ts:40-42 | The joins and the OR wrapping add no `?` |
| HelperLemmas.WrapOccurrences | src/helper.ts:42 | `((a) OR (b))` holds the `?` of a and b and no others |
| HelperLemmas.OrBranchesPlaceholders | src/helper.ts:21-29 | The kept OR sides of an operator map have one `?` per argument |
| HelperLemmas.ScalarFragmentOccurrences | src/helper.ts:70-78 | `IS NULL` adds no `?`, and `= ?` adds one |
| HelperLemmas.FieldFragmentPlaceholders | src/helper.ts:68-84 | Every field fragment has one `?` per argument |
| HelperLemmas.FieldPartsPlaceholders | src/helper.ts:68-85 | All field fragments together have one `?` per argument |
| HelperLemmas.WhereTextOccurrences | src/helper.ts:86-88 | The joins and the ` OR (...)` tail add no `?` |
| HelperLemmas.WherePlaceholders | src/helper.ts:49-93 | For a tree whose field names hold no `?`, the compiled text has exactly one `?` per argument |
| HelperLemmas.WhereBranchesPlaceholders | src/helper.ts:59-66 | The kept OR branches of a tree have one `?` per argument |
| HelperFacts.ComparisonsPresent | src/helper.ts:30-38 | There is a comparison fragment iff some key is not the OR sentinel |
| HelperFacts.OrBranchesPresentStep | src/helper.ts:21-28 | A key adds an OR fragment iff it is an OR side whose compile reports `ok` |
| HelperFacts.OrBranchesPresent | src/helper.ts:21-29 | The OR side is non-empty iff some OR key compiles to a present fragment |
| HelperFacts.OperatorPresent | src/helper.ts:47 | `withOperator` reports `ok` iff there is a comparison key or an OR side that reports `ok`; a map holding only an empty OR reports none |
| HelperFacts.NonObjectOperator | src/helper.ts:17-20 | A non-object operator value compiles to nothing when it has no keys, and otherwise throws UnknownOperator |
| HelperFacts.FieldFragmentKinds | src/helper.ts:68-84 | Null, string and number values always give a fragment; a boolean gives none and is dropped; an array gives none when empty and otherwise throws UnknownOperator |
| HelperFacts.FieldPartsStep | src/helper.ts:70-84 | A field key adds its fragment iff that fragment is present |
| HelperFacts.FieldPartsPresent | src/helper.ts:68-85 | There is a field fragment iff some field key yields a present fragment |
| HelperFacts.WhereBranchesPresentStep | src/helper.ts:59-65 | A key adds a branch iff it is an OR key whose tree reports `ok` |
| HelperFacts.WhereBranchesPresent | src/helper.ts:59-66 | There is a tree-level OR branch iff some OR key's tree reports `ok` |
| HelperFacts.WherePresent | src/helper.ts:92 | `genWhere` reports `ok` iff the tree is not null and some field fragment or some OR branch is present |
| HelperFacts.GetFieldsPieces | src/helper.ts:10 | A list other than `*` is cut at every comma with no trimming; the pieces are quoted and joined by `, ` |
| HelperFacts.GetFieldsAll | src/helper.ts:10 | The projection is `*` iff the list is absent or exactly `*` |
| HelperFacts.GetFieldsMarks | src/helper.ts:10 | A column list without `?` gives a projection without `?` |
| HelperFacts.SerializeDataIdempotent | src/helper.ts:99-100 | Serialising an already serialised map changes nothing |
| SqlGen.SelectSql | src/index.ts:10-30 | `select` throws exactly what the condition throws; otherwise the arguments start with the table and the text starts with the projection |
| SqlGen.Select | src/index.ts:10-30 | The conditional appends build `SelectSql`: WHERE only for a present condition, then ORDER BY, then LIMIT |
| SqlGen.CountSql | src/index.ts:32-41 | `count` throws exactly what the condition throws; otherwise it starts with the fixed COUNT projection and the table argument |
| SqlGen.Count | src/index.ts:32-41 | The conditional appends build `CountSql` |
| SqlGen.InsertSql | src/index.ts:43-51 | `insert` throws SetNull iff the map has no keys; otherwise it gives the fixed text and exactly the arguments `[table, SerializeData(data)]`, a map with as many keys as the input |
| SqlGen.UpdateSql | src/index.ts:53-69 | An empty assignment map throws SetNull whatever the condition; a result starts with `UPDATE ?? SET ? WHERE`, and its first two arguments are the table and `SerializeData(setData)` |
| SqlGen.Update | src/index.ts:53-69 | The appends build `UpdateSql`, checking the map before the condition |
| SqlGen.DelSql | src/index.ts:71-83 | A result starts with `DELETE FROM ?? WHERE` and the table argument |
| SqlGen.Del | src/index.ts:71-83 | The appends build `DelSql` |
| SqlGenLemmas.QueryErrors | src/index.ts:10-41 | `select` and `count` succeed iff the condition is valid; an empty condition is no error for them, and they throw only the two operator errors |
| SqlGenLemmas.DelErrors | src/index.ts:75-81 | `del` succeeds iff the condition is valid and present; a valid absent one (null, `{}`, `{OR: {}}`) throws WhereNull |
| SqlGenLemmas.UpdateErrors | src/index.ts:55-67 | `update` throws SetNull first for an empty map, and otherwise throws exactly when `del` would, with the same error |
| SqlGenLemmas.CountMatchesSelect | src/index.ts:32-41 | `count` has the WHERE clause and the arguments of a bare `select`; only the projection differs |
| SqlGenLemmas.DelMatchesSelect | src/index.ts:71-83 | `del` accepts exactly the conditions for which `select` adds a WHERE, with the same clause and arguments |
| SqlGenLemmas.UpdateMatchesDel | src/index.ts:53-69 | Given assignments, `update` is `del` with `SET ?` after the table and the serialised map as second argument |
| SqlGenLemmas.CountHeadMarks | src/index.ts:33 | The COUNT projection holds only the table's `??` |
| SqlGenLemmas.InsertTextMarks | src/index.ts:44 | The INSERT text holds `??` and one `?` |
| SqlGenLemmas.UpdateHeadMarks | src/index.ts:54 | The UPDATE head holds `??` and one `?` |
| SqlGenLemmas.DelHeadMarks | src/index.ts:72 | The DELETE head holds only `??` |
| SqlGenLemmas.SelectHeadMarks | src/index.ts:11 | A projection of a `?`-free column list holds only `??` |
| SqlGenLemmas.WhereClauseMarks | src/index.ts:14-17 | A WHERE clause holds one `?` per argument it adds |
| SqlGenLemmas.LimitClauseMarks | src/index.ts:21-28 | A LIMIT holds no `?` unless its raw text does |
| SqlGenLemmas.OrderByClauseMarks | src/index.ts:18-20 | An ORDER BY holds no `?` unless the ordering does |
| SqlGenLemmas.SelectPlaceholders | src/index.ts:10-30 | Without `?` in the inputs, `select` text has one `?` per argument plus one: `??` takes the table and every `?` the next argument |
| SqlGenLemmas.CountPlaceholders | src/index.ts:32-41 | The same balance for `count` |
| SqlGenLemmas.InsertPlaceholders | src/index.ts:43-51 | The same balance for `insert` |
| SqlGenLemmas.UpdatePlaceholders | src/index.ts:53-69 | The same balance for `update` |
| SqlGenLemmas.DelPlaceholders | src/index.ts:71-83 | The same balance for `del` |
| SqlGenLemmas.LimitPageRoundTrip | src/index.ts:25-26 | A page LIMIT reads back as its numbers: the size alone, or (offset 0 included) the offset, a comma, a blank and the size |
| Scenarios.EmptyTree | src/index.test.ts:144-147 | `{}` compiles to no predicate |
| Scenarios.EmptyOrTree | src/index.test.ts:148-153 | `{OR: {}}` compiles to no predicate |
| Scenarios.EmptyConditionExamples | src/index.test.ts:144-178 | `del`, and `update` with assignments, throw WhereNull for `{}` and `{OR: {}}`; `count` adds no WHERE for them |
| Scenarios.EmptyOrOperator | src/helper.ts:21-25 | An operator map holding only an empty OR side compiles to no fragment |
| Scenarios.EmptyOrOperatorExample | src/index.test.ts:40-49 | `{<field>: {OR: {}}}` is dropped, and `select` gets no WHERE |
| Scenarios.SingleComparison | src/helper.ts:30-47 | One comparison `{<op>: v}` gives `<field> <op> ?` with the single argument v |
| Scenarios.EmptyInTree | src/index.test.ts:56-59 | `{<field>: {IN: []}}` throws WhereInEmptyArray |
| Scenarios.EmptyInExample | src/index.test.ts:154-159 | Both `del` and `select` throw WhereInEmptyArray for an empty IN |
| Scenarios.UnknownOperatorTree | src/helper.ts:18-20 | A key outside the vocabulary inside a field's map throws UnknownOperator |
| Scenarios.UnknownOperatorExample | src/index.test.ts:69-71 | `select` throws UnknownOperator for `{<field>: {UNKNOWN: v}}` |
| Scenarios.OrOnlyOperatorExample | src/helper.ts:40-46 | An operator map holding only an OR side with one comparison renders as `(() OR (<field> <op> ?))` |
| Scenarios.ConditionedUpdate | src/index.ts:59-64 | With assignments and a condition that reports a predicate, `update` appends the condition after `WHERE` and its arguments after the table and the map |
| Scenarios.UpdateNullConditionExample | src/index.test.ts:184-191 | `update` with `{<field>: null}` gives `UPDATE ?? SET ? WHERE <field> IS NULL` with the table and the serialised map as arguments |
| Scenarios.FieldEqualsTree | src/helper.ts:74-77 | `{<field>: n}` compiles to `<field> = ?` with n as its argument |
| Scenarios.ConditionedDel | src/index.ts:73-78 | A condition that reports a predicate is appended after `WHERE`, its arguments after the table |
| Scenarios.DelBasicExample | src/index.test.ts:135-143 | `del` with `{<field>: n}` gives `DELETE FROM ?? WHERE <field> = ?` with the table and n |
| Scenarios.FieldWithEmptyOrTree | src/index.test.ts:61-68 | `{<field>: n, OR: {}}` compiles to the field's comparison alone; the empty OR branch is dropped |
| Scenarios.ConditionedSelect | src/index.ts:13-17 | A `select` whose condition reports a predicate has it after `WHERE`, with its arguments after the table |
| Scenarios.SelectEmptyOrExample | src/index.test.ts:61-68 | `select` with `{<field>: n, OR: {}}` gives `... WHERE <field> = ?` with the table and n |
| Scenarios.TwoComparisonsEmptyOr | src/helper.ts:17-47 | `{<op1>: v1, <op2>: v2, OR: {}}` compiles to `<field> <op1> ? AND <field> <op2> ?` with v1 and v2; the empty OR side is dropped |
| Scenarios.EmptyOrOperatorTree | src/index.test.ts:30-39 | A field whose map is two comparisons and an empty OR compiles to the two comparisons joined by AND |
| Scenarios.SelectEmptyOrOperatorExample | src/index.test.ts:30-39 | `select` with that field gives `... WHERE <field> <op1> ? AND <field> <op2> ?` with the table, v1 and v2 |
| Scenarios.SingleIn | src/helper.ts:30-38 | `{IN: xs}` with a non-empty array gives `<field> IN ?` with the array wrapped once as its argument |
| Scenarios.RangeOrInExample | src/index.test.ts:19-21 | The `age` condition of the basic test, `{">=": v1, "<=": v2, OR: {IN: xs}}`, gives `((<f> >= ? AND <f> <= ?) OR (<f> IN ?))` with v1, v2 and the wrapped array |
| Scenarios.UnconditionedSelect | src/index.ts:13-17 | A `select` whose condition reports no predicate has no WHERE, and the table is its only argument |
| Scenarios.LimitPageExample | src/index.test.ts:86-94 | A page LIMIT with an offset renders `LIMIT <offset>, <size>` |
| Scenarios.LimitSizeExample | src/index.test.ts:96-103 | A page LIMIT without an offset renders `LIMIT <size>` |

## Left out

- **Placeholder substitution.** The driver (mysql2 `format`) substitutes placeholders, escapes values, quotes `??` identifiers and expands nested arrays. All properties are stated on the raw `{sql, args}` the generator returns.
- **`JSON.stringify`.** It is the function parameter `json`. Its exact output (RFC 8259 text and JavaScript escaping rules) is not modelled.
- **Numbers.** Numbers are integers and LIMIT values are naturals. Floating point, negative or fractional LIMIT numbers, and JavaScript's number-to-text rules beyond decimal integers are not modelled.
- **`for...in` order.** An object's member order is taken as given. JavaScript's rule that integer-like keys come first is not modelled.
- **Duplicate keys.** An object is a member list, which may repeat a key. A JavaScript object cannot, so repeated keys are outside the model.
- Helper.Rewrite: models the two regular expressions only for the text the compiler builds from quoted field names. The first (` AND\s+OR ` to ` OR `) is taken as a no-op. The second strips a leading ` OR ` with exactly one blank. A field name containing ` AND` followed by blanks and `OR `, or a text starting with other white space before `OR `, is outside the model.
- **`undefined`.** The model has no separate `undefined`; it is the same as `null` wherever the source tests `== null`.
- **`cloneDeep`.** The deep copies in `genWhere` and `genData` need no model, because Dafny values cannot be changed through another name.
- **`genData(null)`.** A `null` assignment map, which makes `Object.keys` throw a `TypeError`, cannot be represented, because an assignment map is a member list.
- **Strings as condition maps.** `for...in` over a string yields one key per UTF-16 code unit; the model yields one per character of the string. The two differ only for a string outside the Basic Multilingual Plane passed where an operator map or a condition tree is expected.
- **Error objects.** Thrown `Error` objects are the four `SqlError` cases; their messages are `Helper.ErrorMessage`.
- **`export default`.** The default-export object and the `OR` re-export in `src/index.ts:85-90` only gather the builders, so they are not modelled.
