# sqlk: a verified model of the query compiler

sqlk builds SQL queries as a list of clauses, some of which embed further queries,
condition groups and joins, and compiles them for several dialects into placeholder
SQL with an ordered argument list.  This project models that pipeline in Dafny and
proves what it is for: the text and the arguments fit each other, validation makes
the printing pass total, the rewrites keep the meaning, the dialects print the same
rows, and the printed statements mean what the builder verbs asked for.

## How the model is laid out

| files | what they model |
|---|---|
| `Ast`, `Dialects`, `Emit`, `Statements` | the clause tree as a value, and what every query prints and binds: a token sequence and, separately, an argument sequence, for all eight compiler variants |
| `Compiling`, `Validating`, `Variables` | the compiler as it runs: methods on a result object whose argument sequence grows in place, validation loops that grow an error list, the walk up the scope chain; each is proved against the specification above |
| `Placeholders`, `Alignment`, `StatementAlignment`, `RepeatedTargets` | placeholders against arguments |
| `Validation`, `Soundness`, `StatementSoundness` | what validation reports, and that printing an accepted query finds everything it asks for |
| `Scoping`, `Substitution`, `Agreement`, `SubstitutionExact` | engine scopes, and variables replaced by their definitions |
| `Ctes`, `CteOrder` | the stateful search for CTEs, its closure, and exactly when its order is right |
| `Conditions` | a search-condition grammar with SQL precedence and three-valued logic, and the round trip from clause flags through the printed text |
| `Filters`, `FilterMeaning`, `FilterAnswers`, `WireQuery` | the JSON filter tree, the query description around it, hooks, what the compiled WHERE means, and what the operator codes ask of the data |
| `Aggregates`, `DistinctCounting`, `CountingWitnesses` | the aggregate rewrite evaluated on rows |
| `Paging`, `PagedQueries`, `Keywords`, `Windows`, `Pages`, `Chunks` | a reader for every pagination form, whole printed pages read back as windows, and the paging loop |
| `Building`, `Programs`, `Builder` | builder verbs as programs on values, and the object graph (queries, clauses, joins, faces, arrays) that refines them |
| `Sections`, `JoinMeaning`, `JoinVerbs`, `VerbMeaning`, `ListVerbs`, `SelectMeaning`, `SingleAggregates`, `AggregateColumns` | a reader of printed SELECTs, section by section: joins evaluated on rows, conditions, lists and aggregates against the verbs of the program |
| `TestMeaning`, `DateMeaning`, `TableMeaning`, `WithMeaning` | single tests, date comparisons, ad-hoc tables and WITH lists read back |
| `Executing`, `UpdateMeaning`, `InsertMeaning`, `Upserts`, `DeleteMeaning` | write statements executed with their arguments, and what they do to rows |
| `WireMeaning`, `WireSources` | what a converted wire query asks for, stated on its fields |
| `Strings`, `OrderingText` | quoting, alias splitting and marker substitution as string loops, and where text is substituted twice |

A printed placeholder carries a slot that records which value the printing code
meant by it.  The text only shows a question mark, and the arguments are appended by
other statements, so that slots and arguments agree is a theorem about two
sequences, not a definition.  In the same way a `Fault` token marks each place where
the program would print nothing, panic or bind a missing value; that accepted
queries print none is a theorem.

## What turned out to hold only under a condition

- The guards of a multi-column COUNT bind to the last AND-run only.  The count is
  exact if and only if no row without a target value satisfies an earlier run of an
  OR-joined WHERE (`Aggregates.CountExact`, witness `CountingWitnesses.OrEscapesGuards`).
  An OR alone is no harm (`CountingWitnesses.OrMayBeHarmless`).
- A clone taken inside a For block keeps the block's scope (`Builder.CloneInside`), so
  clauses that a rewrite appends to it are invisible to any other dialect.  The COUNT
  then counts every row of the original query (`Aggregates.StampedCountExact`, witness
  `CountingWitnesses.StampedCountsTooMany`), and the legacy page filters on a row number
  that is not there (`Pages.PrintedPageIsWindow`, witness `StampedPageIsUnread`).
- The offset of a page is computed in int64: page 2^62 + 1 of four rows each is the
  first page (`Chunks.FarPageIsFirst`), and with two rows each its offset is
  negative (`Chunks.FarOffsetIsNegative`), which dialects answer differently
  (`Paging.NegativeOffset`).  Chunking itself never gets that far
  (`Chunks.PageIsPiece`).
- The legacy forms compute bounds in int64, too.  A page is the window if and only if
  limit + offset (for ROW_NUMBER without a limit, offset + 1) stays below 2^63 or the
  page lies behind the last row (`Paging.OneWindow`, witnesses
  `Paging.OverflowEmptiesThePage` and `OverflowSkipsNothing`).  The other dialects
  compute no sum and need no bound.
- The legacy ROW_NUMBER form numbers rows before DISTINCT, which then removes
  nothing: the page is one of the rows before deduplication
  (`Pages.DistinctPageIsOfAllRows`).
- The WITH list is in dependency order if and only if no listed definition
  redeclares, inside its body, an alias that is still pending at an enclosing level
  (`CteOrder.OrderIsExact`).  Unique aliases are enough, and sibling scopes may
  repeat an alias (`CteOrder.SiblingsMayRepeat`).
- A joined DELETE and Oracle's multi-row INSERT print a raw target more often than
  they bind it.  Such a statement is aligned only when the bindings happen to repeat
  in the order of the placeholders (`RepeatedTargets.RepeatedTargetAligned`).
- References may be replaced by their definitions if and only if those that reach the
  output are plain values and, in Oracle's date and time comparisons, both get the
  same text around them: the form is chosen before the variable is resolved
  (`SubstitutionExact.SubstitutionIsExact`, witness `OracleMustLookAlike`).
- SQLite prints a negated comparison of an unmapped date part without its NOT
  (`Conditions.DroppedNotAgreesOnUnknown`).
- Raw orderings and raw columns keep the caller's slice of bindings, while raw
  sources copy it; the comments in `internal/core/clauses.go:98-110` and
  `internal/core/clauses.go:187-197` only speak of copying when cloning
  (`Builder.CallerWrites`).
- SQL Server's legacy form substitutes markers in ordering text that was already
  substituted; `OrderingText.SecondPassIsHarmless` says exactly for which queries
  that is harmless, and `EscapedBraceIsLost` shows one for which it is not.
- The rows of several visible insert clauses share the column list of the first one,
  except in Oracle's multi-row form.  The printed records are the ones asked for if and
  only if all rows have the same list (`InsertMeaning.RowsMean`, witness
  `SecondRowLandsInFirstColumn`).
- An increment by the least int64 amount is negated, wraps around and is subtracted
  (`UpdateMeaning.IncrementIsExact`).
- The text operators of a filter do not escape wildcards in their data: they are
  prefix, suffix and substring if and only if the data has none
  (`FilterAnswers.PlainPieces`, witness `PercentIsWild`).

## Model

| member | source | states |
|---|---|---|
| `RepeatedTargets.AlignmentIsExact` | compiler/compiler.go:254-284 | for every query the builder can make and every dialect, the placeholders of the whole statement (WITH list, subqueries, TOP, legacy wrappers, write tails), read left to right, stand for exactly the arguments if and only if every raw expression and value table that reaches the output is balanced; for a write that prints a bound target more than once, if and only if what its parts ask for is what they bind |
| `StatementAlignment.RepeatedBindingsMisalign` | compiler/write.go:150-166 | a joined DELETE or an Oracle multi-row INSERT that repeats a bound target has more placeholders than arguments when every part of it, the target included, is balanced by itself |
| `RepeatedTargets.RepeatedTargetAligned` | compiler/write.go:150-166 | such a write, balanced around its target, is aligned if and only if its bindings, bound once, are the values its printed placeholders ask for: for a DELETE the placeholder values written twice, for an Oracle INSERT the target values in front of the values of every row |
| `RepeatedTargets.DeleteFitsTwice` | compiler/write.go:150-166 | for a raw target with n question marks the condition is 2n bindings whose halves are equal |
| `RepeatedTargets.TwiceBoundTarget` | compiler/write.go:150-166 | witness: a joined DELETE from the target ? bound to v twice is aligned, bound to v once it is not |
| `StatementAlignment.InsertStands` | compiler/write.go:26-49 | an insert is aligned exactly when it is balanced; one that repeats the bindings of its target and is otherwise balanced never is |
| `StatementAlignment.RemainingStands` | compiler/oracle.go:155-167 | the rows after the first are aligned unless Oracle repeats a table with placeholders, which adds placeholders without arguments |
| `StatementAlignment.DeleteStands` | compiler/write.go:150-166 | a delete is aligned exactly when its target, joins and WHERE are balanced, unless a joined form repeats target bindings |
| `StatementAlignment.UpdateStands` | compiler/write.go:117-144 | an update is aligned exactly when its target and its WHERE are balanced |
| `StatementAlignment.WithStands` | compiler/cte.go:75-89 | prepending the WITH list and its arguments keeps a statement aligned exactly when the collected CTEs are balanced |
| `Alignment.ClauseStands` | compiler/compiler.go:586-742 | every clause form is aligned exactly when what it embeds is balanced, and otherwise no later output can bring it back into line |
| `Alignment.ShapeStands` | compiler/compiler.go:838-915 | the same for every condition shape |
| `Alignment.QueryStands` | compiler/compiler.go:490-517 | the same for a whole SELECT, through the legacy wrappers of Oracle and SQL Server |
| `Placeholders.RawStands` | compiler/compiler.go:1104-1107 | a raw expression is aligned exactly when it has as many question marks as bindings after marker substitution |
| `Alignment.TableStands` | compiler/cte.go:119-136 | a value table is aligned exactly when every row has one bound value for each column, so an inlined literal breaks it |
| `StatementSoundness.ValidationSound` | compiler/compiler.go:254-284 | if validation reports no problem, printing the statement meets no missing source table, operator off the whitelist, unresolved variable, missing insert row, update or value anywhere, although it runs on rewritten aggregates, EXISTS copies and hoisted CTE bodies |
| `StatementSoundness.AllReady` | compiler/cte.go:96-113 | every CTE of an accepted scope, at any depth, is in order as a root of its own |
| `StatementSoundness.TransformOk` | internal/core/aggregate.go:172-200 | the aggregate rewrite of an accepted query is accepted |
| `StatementSoundness.OneForm` | compiler/write.go:297-308 | accepted insert clauses are all rows or all queries, so the type assertions of the insert form hold |
| `StatementSoundness.UpdateClean` | compiler/write.go:117-144 | an accepted update prints without a gap: the assertion on its clause holds and every column has a value |
| `Soundness.QueryClean` | compiler/compiler.go:490-517 | an accepted scope prints without a gap on the scope chain in force, also through the recompiled clone |
| `Soundness.ExistsCopyOk` | internal/core/conditions.go:381-394 | the copy printed for EXISTS is as acceptable as the original subquery |
| `Soundness.RewrittenScope` | compiler/sqlserver.go:71-108 | dropping sections other than FROM and appending harmless clauses keeps a scope acceptable |
| `Validation.ScopeAccepted` | compiler/compiler.go:310-387 | a scope is reported without problems exactly when it has a visible source table (if it needs one) and every clause of it, at any depth, is in order |
| `Scoping.Noninterference` | compiler/compiler.go:1055-1062 | compiling for a dialect gives the same statement and arguments as compiling the recursive restriction to the clauses that dialect sees |
| `Scoping.AcceptanceCarriesOver` | compiler/compiler.go:310-387 | a query the compiler accepts is still accepted after that restriction |
| `Scoping.TransformOfRestricted` | internal/core/aggregate.go:172-200 | the aggregate rewrite sees the same query before and after the restriction |
| `Scoping.FindOfRestricted` | compiler/cte.go:33-70 | the CTE search collects the restrictions of the same CTEs in the same order |
| `SubstitutionExact.SubstitutionIsExact` | compiler/compiler.go:480-496 | replacing every variable by its nearest definition (own query, then parents, CTE bodies anew, groups and joins without a level of their own) and dropping all definitions leaves the statement and its arguments unchanged if and only if every reference that reaches the output meets a definition that is neither a literal nor a reference, and Oracle date and time comparisons look alike |
| `SubstitutionExact.ParameterAgrees` | compiler/compiler.go:1031-1042 | a single value prints and binds the same after the replacement if it is stable, and otherwise starts with another token |
| `SubstitutionExact.DateAgrees` | compiler/oracle.go:109-149 | the same for date and time comparisons, whose text Oracle chooses by the value before resolving it |
| `Agreement.AgreeCat` | compiler/compiler.go:490-517 | fragments that are the same or told apart by a token pass exactly that on to what they are part of |
| `SubstitutionExact.LookingAlikeIsExact` | compiler/oracle.go:109-139 | the condition on Oracle date and time comparisons holds exactly when both values get the same text around them |
| `SubstitutionExact.OracleMustLookAlike` | compiler/oracle.go:109-149 | witness: a variable defined as 10:30 is printed in another time format than 10:30 itself |
| `Ctes.Finder.FindClauses` | compiler/cte.go:33-63 | the stateful traversal returns the specified list and leaves the specified set of seen aliases, whatever it had seen before |
| `Ctes.FindDistinct` | compiler/cte.go:33-63 | aliases in the WITH list are pairwise distinct and new; the seen set only grows by them |
| `Ctes.FirstDefinitionWins` | compiler/cte.go:33-63 | each collected CTE is the first definition of its alias in the order of reaching, one for each alias |
| `Ctes.FindCloses` | compiler/cte.go:33-63 | every alias declared in the query or inside any collected body has a definition in the list |
| `Ctes.FindWithin` | compiler/cte.go:33-63 | nothing but visible CTE clauses of the tree is collected |
| `Ctes.OrderNeedsUniqueAliases` | compiler/cte.go:33-63 | witness: a, then x whose body defines w whose body defines a again, are listed as w, a, x, so the inner a does not precede w |
| `CteOrder.OrderIsExact` | compiler/cte.go:33-63 | for every clause tree, the WITH list has every alias that a listed definition may refer to in front of it if and only if no listed definition redeclares, inside its body, an alias that was collected at an enclosing level or is being searched |
| `CteOrder.CollectedInsidePrecedes` | compiler/cte.go:33-63 | with no assumption on aliases: whatever is first collected while the body of a listed definition is searched stands before it |
| `CteOrder.SameLevelOrderKept` | compiler/cte.go:36-48 | the definitions a level keeps stand together in declaration order, behind everything their bodies define; one is missing only when its alias was met before |
| `CteOrder.UniqueAliasesAreClear` | compiler/cte.go:33-63 | unique aliases meet the condition |
| `CteOrder.SiblingsMayRepeat` | compiler/cte.go:33-63 | so do trees without nested definitions, however often sibling scopes define the same alias |
| `CteOrder.NestedRedeclarationIsNotClear` | compiler/cte.go:33-63 | a; x whose body defines w whose body defines a again does not meet it |
| `Ctes.CteBody` | compiler/cte.go:96-113 | the searched body of a CTE is smaller than the clause, so the search ends |
| `Conditions.SectionMeans` | compiler/compiler.go:759-833 | a printed WHERE or HAVING section, read by the search-condition grammar (section 8.12 of SQL-92) to its end, has one term for each maximal AND-run and the three-valued truth that groups, connectives and NOT flags say (except for the one flag SQLite does not print, see DroppedNotAgreesOnUnknown); it is absent exactly when every condition is omitted |
| `Conditions.ListParses` | compiler/compiler.go:816-833 | the same for a list nested at any depth, up to a closing parenthesis |
| `Conditions.ShapeReads` | compiler/compiler.go:838-915 | every condition shape without a group is read back as one factor with the truth its printed NOT flag says |
| `Conditions.OmittedPrintsNothing` | compiler/compiler.go:899-915 | a condition prints nothing exactly when it is an empty raw expression or a group whose conditions are all omitted |
| `Conditions.DroppedNotAgreesOnUnknown` | compiler/sqlite.go:56-68 | a negated comparison of a date part SQLite does not map is read back without its NOT and agrees with the flag only where the comparison is unknown |
| `Filters.Validate` | qdata/filter.go:81-122 | the error list grown by the loops over rules and subgroups is the specified one, in order |
| `Filters.RunChain` | qdata/qdata.go:244-282 | a hook chain hands each value to the next hook and stops at the first error |
| `Filters.ResolveFilter` | qdata/filter.go:154-178 | the resolving loops return the specified tree of surviving rules and groups, or the first error |
| `Filters.ResolvedReady` | qdata/filter.go:154-178 | whatever the hooks rewrite, every surviving rule has an operator and data that its builder accepts |
| `Filters.Land` | qdata/filter.go:185-202 | rules before subgroups, each group as a callback on a blank query, appended behind what the query already has |
| `FilterMeaning.FilterPreserved` | qdata/filter.go:139-202 | for a filter tree of any depth, the WHERE section the compiler prints binds the data of the surviving rules in pre-order, is absent exactly when nothing survives, and read back by the grammar has the truth of the tree: each level joined by its group operator, skipped rules and emptied groups dropped |
| `FilterAnswers.FilterAnswered` | qdata/filter.go:139-202 | end to end for plain data: the printed WHERE binds the data of the surviving rules in pre-order and, evaluated on a record, is true exactly as the operator codes ask on that data, level by level; it is absent exactly when nothing is asked |
| `FilterAnswers.RuleAnswers` | qdata/filter.go:208-290 | each operator code against a meaning given on the data directly (comparison, range, membership, prefix, suffix, substring, null), independent of the condition it is turned into |
| `FilterAnswers.PlainPieces` | qdata/filter.go:208-290 | for all texts, the text operators are prefix, suffix and substring if and only if the data has no wildcard |
| `FilterAnswers.PercentIsWild` | qdata/filter.go:208-290 | witness: asked for texts that contain 5%, 500 is an answer |
| `FilterAnswers.RecordReadingIsLawful` | compiler/compiler.go:838-915 | the reading of printed conditions on records obeys what the grammar results assume |
| `FilterMeaning.FilterItems` | qdata/filter.go:185-202 | the landed conditions of a filter are its surviving members in order, all joined by its group operator |
| `FilterMeaning.FilterArgs` | qdata/filter.go:185-202 | a landed filter binds the data of its surviving rules, rules before subgroups |
| `FilterMeaning.PlainBound` | compiler/compiler.go:1031-1042 | plain data is bound as it is, on any scope chain |
| `FilterMeaning.TaggedMeaning` | compiler/compiler.go:816-833 | conditions that all carry one connective mean their disjunction or their conjunction |
| `WireQuery.Validate` | qdata/qdata.go:129-145 | the error list grown step by step is the specified one: source, orderings, filter, then paging |
| `WireQuery.Convert` | qdata/qdata.go:168-235 | the conversion loops return the specified query or the problems of the first failing stage; what that query asks for is stated on the wire fields by ConvertedReads, ConvertedPages, ConvertedCounts, ConvertedJoins and FilterAnswered |
| `WireQuery.DropNil` | qdata/qdata.go:168-235 | missing hooks are skipped, the others keep their order |
| `WireQuery.JoinAll` | qdata/qdata.go:168-235 | the first table is the source, every other one an inner join on the naming convention |
| `WireQuery.HooksOnlyTighten` | qdata/qdata.go:129-235 | what is accepted through hooks is valid, and without hooks validity is all it takes |
| `WireQuery.ConvertedWhere` | qdata/qdata.go:168-235 | the WHERE list of a converted query is its landed filter and nothing else, for every dialect |
| `WireQuery.ConvertedCompiles` | qdata/qdata.go:168-235 | a converted query passes validation in every dialect, the rewrites of the hooks included, if no data value is a variable or a literal |
| `Aggregates.CountExact` | internal/core/aggregate.go:172-200 | the rewritten multi-column COUNT never counts too few rows, and counts exactly the rows that satisfy the original WHERE with all target columns non-null if and only if no row is overcounted: one that lacks a target value and satisfies an earlier AND-run while the guards bind only to the last one, or, where the dialect does not see the guards, satisfies the WHERE |
| `Aggregates.GuardedRow` | internal/core/aggregate.go:172-200 | row by row: a row is counted exactly when it was intended or is overcounted |
| `Aggregates.CountPreserved` | internal/core/aggregate.go:172-200 | without OR among the printed top-level conditions, and with guards that are seen, the count is exact |
| `CountingWitnesses.OrEscapesGuards` | internal/core/aggregate.go:172-200 | witness: counted over x and z under an OR, a row without x is counted |
| `CountingWitnesses.OrMayBeHarmless` | internal/core/aggregate.go:172-200 | x IN () OR y IS NULL is counted exactly on all rows, so an OR alone does not make the count wrong |
| `CountingWitnesses.NullRowIsSound` | internal/core/aggregate.go:172-200 | rows of nullable cells read null tests as the guards assume |
| `Aggregates.StampedCountExact` | internal/core/aggregate.go:172-200 | a query cloned inside a For block and counted by another dialect counts every row that passes the original WHERE: the intended rows if and only if none of these lacks a target value |
| `CountingWitnesses.StampedCountsTooMany` | internal/core/query.go:298-303 | witness: the count of x and z over t, cloned in a block for MySQL, counts a row without x in every other dialect |
| `Aggregates.OuterPrints` | compiler/compiler.go:573-582 | the rewritten aggregate prints COUNT(*) over exactly one embedded query |
| `Aggregates.CountPrints` | internal/core/aggregate.go:172-200 | that query is SELECT 1 over the original source and the guarded WHERE, without ordering, limit or grouping |
| `Aggregates.DistinctPrints` | internal/core/aggregate.go:172-200 | the distinct form projects exactly the target columns in order, or * when there are none or they are invisible, over the original source and the original WHERE |
| `DistinctCounting.DistinctCountPreserved` | internal/core/aggregate.go:172-200 | for every dialect and database, the printed COUNT over SELECT DISTINCT, read back, counts exactly the set of tuples of target values, null included and * as the whole row, among the rows of the original source that pass the original WHERE |
| `DistinctCounting.CountReadsBack` | internal/core/aggregate.go:172-200 | the printed multi-column COUNT, read back, counts the very rows that CountExact compares with the intended ones |
| `DistinctCounting.DistinctIsSet` | internal/core/aggregate.go:172-200 | SELECT DISTINCT returns every tuple once |
| `Paging.OneWindow` | compiler/compiler.go:967-978 | for all limits and offsets from zero up to int64 and all rows: LIMIT/OFFSET, the 2^64-1 ceiling of MySQL, the negative limit of SQLite, TOP, OFFSET-FETCH, nested ROWNUM and ROW_NUMBER BETWEEN, read back from the printed text, select the same window if and only if no bound that the form computes wraps around, unless the page lies behind the last row; what they select otherwise is stated too |
| `Pages.PrintedPageIsWindow` | compiler/compiler.go:490-517 | for every dialect: the text a query prints, read back, returns the window its limit and offset describe of the rows that the query without them returns if and only if no bound wraps around and, for the form that numbers rows in a clone, the clone shows its number, is not in aggregate shape and projects something; without such a number nothing is returned |
| `Pages.RunsPage` | internal/core/query.go:298-384 | the same for whatever program built the query, and for clones taken in a For block |
| `Pages.StampedPageIsUnread` | compiler/sqlserver.go:71-108 | witness: from the second row of t on, cloned in a block for MySQL, the legacy wrapper filters on a number that nothing inside projects |
| `Pages.DistinctPageIsOfAllRows` | compiler/sqlserver.go:71-108 | a distinct query in that form returns the window of the rows of the same query without DISTINCT |
| `Windows.NumberedPrints` | compiler/sqlserver.go:71-108 | the numbered inner query prints the projection, the number column and the sections of the query without its ordering |
| `Windows.NumberedInnerReads` | compiler/sqlserver.go:71-108 | taking the number column out and putting the ordering back gives the text of the unpaged query |
| `Keywords.QuietClause` | compiler/compiler.go:586-742 | what a clause inside a SELECT prints holds no keyword that could be taken for the start of a later section |
| `Paging.OverflowEmptiesThePage` | compiler/oracle.go:83-99 | witness: with the largest limit and offset 1 the window of two rows is the second one, and both legacy forms return none |
| `Paging.OverflowSkipsNothing` | compiler/sqlserver.go:71-108 | witness: with the largest offset and no limit the window of one row is empty, and the ROW_NUMBER form returns the row |
| `Paging.NegativeOffset` | compiler/compiler.go:942-978 | for an offset below zero every dialect gives the first page where the database reads it as zero, SQL Server is not told the offset at all, and the nested ROWNUM form returns limit + offset rows |
| `Paging.NumbersDefeatDistinct` | compiler/sqlserver.go:71-108 | with a row number in the projection no two rows are equal, so the legacy page of a distinct query is a page of the rows before deduplication |
| `PagedQueries.PagedPrints` | compiler/compiler.go:490-517 | a limit and an offset add TOP behind SELECT and a section at the end; the rest of the text and of the arguments is the same as without them |
| `PagedQueries.RownumPrints` | compiler/oracle.go:83-99 | Oracle's legacy form wraps exactly the query without pagination |
| `PagedQueries.RowNumberConserves` | compiler/sqlserver.go:71-108 | for a query without an aggregate the legacy wrap binds what the plain query binds, with the bindings of the ordering moved to the end of the projection, followed by the row bounds; as a multiset nothing is lost or doubled |
| `Emit.RowNumberedSize` | compiler/sqlserver.go:71-108 | the recompiled clone is smaller: its offset is gone and at most two columns came in, so the recursion ends |
| `Chunks.HasMoreIsProduct` | exec/paginate.go:35-45 | the divided form decides page * perPage < total without computing the product |
| `Chunks.Result.Paginate` | exec/paginate.go:52-70 | one page in the offset arithmetic of the source; no list query when nothing is counted |
| `Chunks.PaginateExact` | exec/paginate.go:52-70 | the page is the one asked for exactly when the int64 offset did not wrap around, or wrapped beyond the rows, or there are no rows; an offset that wrapped to a negative number gives the first page |
| `Chunks.FarPageIsFirst` | internal/core/query.go:342-348 | witness: page 2^62 + 1 of four rows each wraps around to the first page |
| `Chunks.FarOffsetIsNegative` | internal/core/query.go:342-348 | witness: with pages of two rows the offset of the same page is -2^63 |
| `Chunks.PageIsPiece` | exec/paginate.go:77-93 | the i-th page is the i-th piece of the rows, and none of the offsets on the way wraps around |
| `Chunks.PiecesCover` | exec/paginate.go:77-93 | the pieces concatenate to all rows in order, number max(1, ceil(total / size)), and all but the last are full |
| `Chunks.Chunk` | exec/paginate.go:77-93 | the loop ends and yields the pieces up to the first one its consumer refuses; a size below 1 is rejected |
| `Chunks.PatientConsumer` | exec/paginate.go:77-93 | a consumer that never stops is given every piece |
| `Chunks.TakenIsPrefix` | exec/paginate.go:77-93 | at every step the yielded chunks concatenate to a prefix of the rows |
| `Ast.Components` | internal/core/clause.go:71-83 | the visible clauses of a section, in order |
| `Ast.One` | internal/core/clause.go:87-100 | a clause of the section that the engine sees, if there is one to prefer |
| `Ast.UnscopedIsFound` | internal/core/clause.go:87-100 | a section with an unscoped clause has a single clause for every engine |
| `Ast.SubQueryOf` | internal/core/clauses.go:136-156 | an embedded SELECT is smaller than its clause |
| `Ast.GroupOf` | internal/core/clauses.go:221-229 | an embedded group is smaller than its clause |
| `Ast.JoinOf` | internal/core/clauses.go:234-239 | a join scope is smaller than its clause |
| `Ast.ExistsCopy` | internal/core/conditions.go:381-394 | replacing the projection by the constant 1 adds at most one clause |
| `Building.StepRefines` | internal/core/query.go:357-384 | every verb, nested For blocks included, keeps one clause for each (section, engine scope) slot and does to the clause list what it does to the map of last writes; For resets the scope to unrestricted |
| `Building.OneIsLookup` | internal/core/clause.go:87-100 | reading the single clause of a section is looking up its slot, with the unscoped slot as fallback |
| `Building.LastWriteWins` | internal/core/query.go:357-384 | after any sequence of verbs inside and outside nested For blocks every slot holds at most one clause, and what the compiler reads is the last write to the dialect slot or else to the unscoped one |
| `Programs.ProgramsAreBuilt` | internal/core/query.go:298-384 | whatever sequence of verbs built it, a query meets the assumptions that the alignment, soundness and window results make about builder output, join kinds included |
| `Programs.ClonesAreBuilt` | internal/core/query.go:231-303 | so does a clone taken in a For block, whatever is built on it |
| `Programs.RunsAreSound` | compiler/compiler.go:254-284 | build by any sequence of verbs, compile without a reported problem, and nothing is missing from the output |
| `Builder.QueryObject.constructor` | internal/core/query.go:53-63 | a new query is empty and owns only itself |
| `Builder.Table.Define` | internal/core/query.go:309-315 | the definition of one name is overwritten in place, the others stay |
| `Builder.Table.Clone` | internal/core/query.go:231-243 | a fresh table with the same definitions |
| `Builder.QueryObject.AddClause` | internal/core/query.go:357-360 | the clause object is stamped with the current scope and appended; nothing else changes |
| `Builder.QueryObject.AddCondition` | internal/core/condition.go:36-43 | the face stamps connective, negation and section on the condition and appends it to its host |
| `Builder.QueryObject.SetOrReplace` | internal/core/query.go:365-374 | the first clause of the same section and scope is replaced in place, otherwise the new one is appended |
| `Builder.QueryObject.DropInScope` | internal/core/query.go:380-384 | exactly the clauses of the section in the current scope go |
| `Builder.QueryObject.For` | internal/core/query.go:298-303 | the callback runs in the given scope, and the scope is unrestricted afterwards |
| `Builder.QueryObject.Execute` | internal/core/query.go:357-384 | any sequence of verbs changes the objects as the specified program changes the abstract query, and adds only fresh objects |
| `Builder.QueryObject.Perform` | internal/core/query.go:105-327 | the same for each verb |
| `Builder.QueryObject.Rewrite` | internal/core/write.go:171-276 | a write verb switches the method, drops what the current scope wrote and adds its clauses |
| `Builder.QueryObject.DefineVariable` | internal/core/query.go:309-315 | the own definition is overwritten |
| `Builder.QueryObject.Components` | internal/core/clause.go:71-83 | the loop finds the objects of exactly the specified clauses, in order |
| `Builder.QueryObject.One` | internal/core/clause.go:87-100 | an object of exactly the specified single clause, or null |
| `Builder.QueryObject.DropClauses` | internal/core/aggregate.go:206-210 | the clauses of the given sections go in every scope |
| `Builder.QueryObject.Clone` | internal/core/query.go:231-243 | the copy has the same abstract value, shares no object with the original, its variable table included, and has its faces turned to itself (part of validity) |
| `Builder.QueryObject.HasWhere` | internal/core/condition.go:49-55 | whether a group callback left a condition |
| `Builder.ClauseObject.Clone` | internal/core/clauses.go:18-65 | every clause form copies its lists, rows, embedded query and members afresh |
| `Builder.ClauseObject.CopyLists` | internal/core/conditions.go:77-417 | what a clause object holds is copied, with equal contents |
| `Builder.ClauseObject.SetEngine` | internal/core/clause.go:57-65 | only the engine scope changes |
| `Builder.ClauseObject.Stamp` | internal/core/conditions.go:33-55 | only flags and section change |
| `Builder.ClauseObject.AddMember` | internal/core/join.go:39-41 | the condition is appended to the join that the face belongs to |
| `Builder.MakeJoin` | internal/core/join.go:91-96 | the join holds its unscoped table or raw target and the conditions of the callback, in order |
| `Builder.MakeJoinSub` | internal/core/join.go:99-103 | the join holds a fresh copy of the subquery, which keeps its own alias, and the conditions of the callback, in order |
| `Builder.StartJoin` | internal/core/join.go:91-111 | a join starts with its target and nothing else |
| `Builder.AddConditions` | internal/core/join.go:70-87 | each ON verb appends one condition to the join through its face |
| `Builder.NewJoin` | internal/core/join.go:27-34 | a join names itself the host of its face |
| `Builder.MakeClause` | internal/core/condition.go:49-55 | an adding verb makes the specified clause out of fresh objects; a group without conditions makes none; what the clause then says, its connective, negation and nesting included, is VerbMeaning.VerbsMean |
| `Builder.MakeFiltered` | internal/core/aggregate.go:107-155 | an aggregate column keeps its filter scope only when the callback was given |
| `Builder.Embed` | internal/core/query.go:129-135 | embedding copies the query and renames the copy unless the alias is empty |
| `Builder.Scratch` | internal/core/query.go:95-101 | a callback builds on a blank query |
| `Builder.CloneThenBuild` | internal/core/query.go:231-243 | after cloning, any verbs on either side give what they would give alone: the other side, and so everything compiled from it, is unaffected, and the object graphs stay disjoint |
| `Builder.CloneInside` | internal/core/query.go:298-303 | a clone taken in the callback of a For block stays in the scope of the block, while the original leaves it, and shares no object with it |
| `Builder.EmbedThenBuild` | internal/core/query.go:120-135 | what is later done to an embedded query does not reach the query that embeds it |
| `Builder.NewRawFrom` | internal/core/clauses.go:35-45 | raw sources copy the bindings of the caller |
| `Builder.NewRawOrder` | internal/core/clauses.go:187-197 | raw orderings keep the slice of the caller itself |
| `Builder.CallerWrites` | internal/core/clauses.go:98-189 | witness: a later write by the caller reaches a raw ordering and not a raw source |
| `Builder.TransformAggregate` | internal/core/aggregate.go:172-200 | the rewrite works on a copy and gives the specified query; a query that is not in aggregate shape is returned itself |
| `Builder.ExistsSubQuery` | internal/core/conditions.go:381-394 | the copy printed for EXISTS is fresh and has the constant projection |
| `Compiling.Outcome.Compile` | compiler/compiler.go:254-284 | the entry point: the reported problems, or the specified statement and arguments when there are none |
| `Compiling.CompileStatement` | compiler/compiler.go:254-284 | the second pass gives the specified statement for every method, the rewritten aggregate included |
| `Compiling.CompileSelect` | compiler/compiler.go:480-482 | a SELECT on a pushed scope level gives the specified text and arguments on a fresh result |
| `Compiling.CompileSections` | compiler/compiler.go:490-517 | the sections and the legacy wrap of the dialect, the recompiled clone included |
| `Compiling.CompileBody` | compiler/compiler.go:490-517 | nine sections in order: texts and arguments appended in the same order |
| `Compiling.CompileSubQuery` | compiler/compiler.go:662-666 | the embedded SELECT sees the chain in force and its arguments are appended |
| `Compiling.CompileColumns` | compiler/compiler.go:542-582 | the SELECT head, in plain and in aggregate shape, with the TOP fragment |
| `Compiling.CompileAggregateColumn` | compiler/compiler.go:609-625 | an aggregate column with its filter in either form |
| `Compiling.CompileJoin` | compiler/compiler.go:734-742 | a join with its target and, when anything is printed, its ON conditions, as specified; read back, it is the join of its kind (JoinMeaning.PrintedJoinsMean) |
| `Compiling.CompileTable` | compiler/compiler.go:679-699 | the single visible source table |
| `Compiling.CompileConditions` | compiler/compiler.go:816-833 | omitted conditions bind but print nothing, and the first printed one has no connective |
| `Compiling.CompileCondition` | compiler/compiler.go:838-915 | every condition shape prints and binds as specified |
| `Compiling.CompileLike` | compiler/compiler.go:1001-1024 | LIKE with wildcards, lowered operands and the escape text by dialect |
| `Compiling.CompileDate` | compiler/compiler.go:988-994 | date-part comparisons, one value bound |
| `Compiling.CompileParts` | compiler/compiler.go:713-810 | one text and one run of arguments for each clause of a list, in order |
| `Compiling.CompileOrders` | compiler/compiler.go:786-810 | the ordering section |
| `Compiling.CompileParameter` | compiler/compiler.go:1031-1042 | a literal is inlined, a variable resolved on the chain, anything else bound |
| `Compiling.CompileRaw` | compiler/compiler.go:1104-1107 | the substituted text, and all bindings appended |
| `Compiling.CompileLimitOffset` | compiler/compiler.go:942-978 | the pagination section of every dialect |
| `Compiling.CompileTop` | compiler/sqlserver.go:116-122 | the argument of TOP goes before all others |
| `Compiling.CompileRowNumber` | compiler/sqlserver.go:71-108 | the wrapped text and the row bounds appended behind the arguments of the clone |
| `Compiling.CompileRownum` | compiler/oracle.go:83-99 | the nested ROWNUM text and its bounds |
| `Compiling.CompileCte` | compiler/cte.go:96-113 | a CTE is compiled with itself as the root scope |
| `Compiling.CompileRows` | compiler/cte.go:119-136 | the placeholders and, separately, the values of a value table |
| `Compiling.WithCtesBefore` | compiler/cte.go:75-89 | the WITH list goes before the text and its arguments before the arguments |
| `Compiling.CompileInsert` | compiler/write.go:26-49 | the insert forms with conflict tail, remaining rows and returned id, as specified; read back, they are the records of InsertMeaning.RowsMean and SelectMeans |
| `Compiling.CompileRemaining` | compiler/write.go:82-88 | the rows after the first in the form of the dialect |
| `Compiling.CompileValues` | compiler/write.go:105-111 | one placeholder and one argument for each plain value, in order |
| `Compiling.CompileUpdate` | compiler/write.go:117-144 | the update, with increments, as specified; read back and applied to a row, it is the change of UpdateMeaning.UpdateMeans |
| `Compiling.CompileDelete` | compiler/write.go:150-166 | the delete, with the target repeated when joined |
| `Variables.Lookup` | internal/core/variable.go:66-73 | the walk up the chain finds the nearest definition, if there is any |
| `Validating.ValidateScope` | compiler/compiler.go:310-387 | the problems of a scope in the order the checks run |
| `Validating.ValidateClause` | compiler/compiler.go:355-387 | joins and groups reuse the level, subqueries push one, CTE bodies start anew |
| `Validating.CheckVariables` | compiler/compiler.go:395-435 | one problem for each value of a clause that is a variable without a definition on the chain |
| `Validating.CheckCondition` | compiler/compiler.go:310-350 | operators off the whitelist and ill-formed escapes |
| `Validating.CheckCte` | compiler/cte.go:140-163 | blank aliases and ragged value tables |
| `Validating.ValidateWrite` | compiler/write.go:198-282 | the problems of a write in order |
| `Validating.MixesForms` | compiler/write.go:297-308 | whether rows and an insert from a query meet in one list |
| `Sections.SelectReads` | compiler/compiler.go:490-517 | cutting a printed SELECT at the keywords that open its sections, inside the legacy wrappers too, recovers what the clauses of each of the nine sections printed |
| `JoinMeaning.PrintedJoinsMean` | compiler/compiler.go:711-742 | for every built query: the text after FROM, read as a table and a list of joins and evaluated on any rows, is the source table joined in order with the visible joins, each of its own kind, with its own target, on the three-valued truth of its own conditions |
| `JoinMeaning.PairsAre` | compiler/compiler.go:734-742 | INNER and CROSS keep exactly the pairs of rows whose condition is true |
| `JoinMeaning.LeftPairsAre` | compiler/compiler.go:734-742 | LEFT keeps these pairs and, beside nulls, exactly the left rows without a partner |
| `JoinMeaning.UnpartneredAre` | compiler/compiler.go:734-742 | RIGHT adds to the pairs exactly the rows of the joined table without a partner, beside nulls |
| `JoinVerbs.JoinVerbsMean` | internal/core/join.go:91-191 | for every program: the printed joins are those of its join verbs that the dialect sees, in order, with their kinds, their targets and the truth of the conditions built in their callbacks |
| `VerbMeaning.VerbsMean` | internal/core/condition.go:33-135 | for every program, groups nested at any depth: the truth read from the printed WHERE, and from the printed HAVING, is that of the program itself, defined by recursion on its verbs: AND-runs under OR by the connective of each verb, NOT by its negation, a group as the truth of its own program, an empty group left out |
| `TestMeaning.TestReads` | compiler/compiler.go:838-915 | every printed test, read back, compares the operands that its condition names, in their places: column, operator, bounds, list, pattern with its wildcards, escape, embedded query |
| `TestMeaning.TestDecides` | compiler/compiler.go:838-915 | a reading of tests on these operands decides what a condition says, negated exactly when it is |
| `DateMeaning.DateReads` | compiler/compiler.go:988-994 | in every dialect a date comparison extracts the named part of the column and compares it with the value |
| `SelectMeaning.OrderingReads` | compiler/compiler.go:786-810 | the printed ordering, read back, is the list of visible orderings, each with its direction |
| `SelectMeaning.GroupingReads` | compiler/compiler.go:770-780 | the printed grouping is the list of visible grouping columns and expressions |
| `SelectMeaning.CombinedReads` | compiler/compiler.go:634-656 | the combined queries, read back: their operations in order, ALL exactly where it was asked for, and the query that each embeds |
| `SelectMeaning.DistinctVerb` | internal/core/query.go:247-256 | what is printed for a program removes duplicates exactly when a verb of it says so |
| `SelectMeaning.EmbeddedReads` | compiler/compiler.go:686-709 | an embedded query reads back as its text and its alias, in whatever form the dialect writes aliases |
| `ListVerbs.ListVerbsMean` | internal/core/query.go:149-208 | for every program: the grouping, the ordering and the combined queries read from its printed query are those its verbs ask for, in the order of the verbs |
| `ListVerbs.ListsAreAsked` | internal/core/query.go:139-208 | for columns, groupings, orderings, combined queries and CTEs a dialect sees exactly what the verbs added, in their order |
| `SingleAggregates.CallIs` | compiler/compiler.go:573-582 | a query in the shape of an aggregate over one column, inlined or not, prints the call of its function on that column, with DISTINCT exactly when duplicates are removed |
| `SingleAggregates.SingleAggregateReads` | internal/core/aggregate.go:172-200 | rewritten and printed, it is that call over the tables, joins, conditions and combined queries that the query prints without the rewrite, and is not grouped |
| `AggregateColumns.AggregateMeans` | compiler/compiler.go:609-625 | a projected aggregate computes its function of its column over the rows that pass its filter scope, in the FILTER form and in the CASE form |
| `WithMeaning.DefinitionsRead` | compiler/cte.go:75-113 | for every built statement: the printed WITH list, read back, has one definition for each collected CTE, in order, with its alias and its body compiled as a root; what is behind it is the statement |
| `WithMeaning.PrintedOrderIsExact` | compiler/cte.go:75-89 | the printed list has every alias that a definition may refer to in front of it if and only if no definition redeclares a pending alias |
| `TableMeaning.RowsRead` | compiler/cte.go:119-136 | in every dialect the text of an ad-hoc table denotes exactly its rows, in order, duplicates kept, each value under its column |
| `UpdateMeaning.UpdateMeans` | compiler/write.go:117-144 | for every accepted update: the executed statement, read back and applied to a row, sets each listed column to its resolved value or moves the incremented cell, leaves every other column, and leaves every row that does not pass the WHERE |
| `UpdateMeaning.ProgramUpdates` | internal/core/write.go:257-299 | the same for programs, with the rows that their condition verbs ask for |
| `UpdateMeaning.IncrementIsExact` | compiler/write.go:120-128 | an increment adds its amount for every int64 amount but the least one; negating that one wraps around, so it is subtracted instead |
| `InsertMeaning.RowsMean` | compiler/write.go:26-111 | for every accepted insert of rows: the executed statement, read back, puts one record for each visible row into the table if and only if every row has a column list of its own (Oracle with several rows) or all rows have the same; what it puts otherwise is stated too |
| `InsertMeaning.SharedIsExact` | compiler/write.go:34-43 | under one shared column list the records are the ones asked for exactly when all rows have that list |
| `InsertMeaning.SecondRowLandsInFirstColumn` | compiler/write.go:34-43 | witness: (a) 1 for every dialect and (b) 2 for MySQL, both visible to MySQL, puts both values into a |
| `InsertMeaning.SelectMeans` | compiler/write.go:30-34 | an insert from a query reads back as its table, its columns in order, and the text of the query |
| `InsertMeaning.EndingReads` | compiler/write.go:70-78 | what ends an insert, read back: each conflict column takes its own inserted value, and the last id is asked for exactly behind a single row that wants it |
| `InsertMeaning.IgnoresConflicts` | compiler/write.go:55-63 | an accepted insert ignores rows that cannot be inserted exactly when it has a conflict clause |
| `ListVerbs.VariablesAre` | internal/core/query.go:309-315 | a program leaves the last definition of each variable, also across For blocks |
| `ListVerbs.RowVerbsMean` | internal/core/write.go:171-241 | for every accepted program whose last write verb inserts rows: the records read from the executed statement are those of the last insert verbs of the scopes the dialect sees, under the same condition |
| `Upserts.UpsertReads` | compiler/mysql.go:45-56 | on a conflict every listed column takes the inserted value of that column |
| `DeleteMeaning.DeleteMeans` | compiler/write.go:150-166 | the executed DELETE takes out exactly the rows of its table that begin a joined row passing its conditions |
| `Executing.ExecutedIs` | compiler/compiler.go:254-284 | an aligned write, executed with its arguments from left to right, has every value in the place it was printed for |
| `WireMeaning.ConvertedReads` | qdata/qdata.go:200-228 | stated on the wire fields: the printed projection of a converted query is the selected columns behind the hooks in order, or everything, and its ordering is the hooked columns in order, descending exactly for desc |
| `WireMeaning.ConvertedPages` | qdata/qdata.go:230-234 | in every dialect the printed page is top rows from skip on if top is positive (exactly where no bound wraps around), and all rows otherwise |
| `WireMeaning.ConvertedCounts` | qdata/qdata.go:196-198 | a count asks for COUNT(*) and is not grouped, ordered, paged or combined |
| `WireSources.ConvertedJoins` | qdata/qdata.go:177-190 | the printed sources are the first table and an inner join with each further one on the conventional key columns, in order |
| `Strings.ReplaceUnlessEscapedLoop` | compiler/compiler.go:1122-1140 | the index loop computes the recursive substitution |
| `Strings.MarkerRoundTrip` | compiler/compiler.go:1113-1140 | escaping the four markers of any string and running the four passes of any dialect returns the string |
| `Strings.MarkersAreQuotes` | compiler/compiler.go:1113-1118 | one scan that replaces every unescaped opening marker by the opening quote and every closing one by the closing quote gives what the four passes give, for the quotes of every dialect |
| `Strings.UnmarkedIsKept` | compiler/compiler.go:1113-1118 | a string without markers is unchanged |
| `Strings.WrapKeepsPlaceholders` | compiler/compiler.go:1104-1118 | marker substitution neither adds nor removes a placeholder |
| `Strings.SecondSubstitution` | compiler/sqlserver.go:71-108 | substituting already printed ordering text again changes nothing exactly when it holds no brace and no escaped bracket |
| `OrderingText.SecondPassIsHarmless` | compiler/sqlserver.go:71-108 | for a whole query, substituting the text of the numbered column again changes nothing if and only if no visible ordering, as printed, holds a brace or an escaped bracket |
| `OrderingText.EscapedBraceIsLost` | compiler/sqlserver.go:71-108 | witness: an escaped brace in a raw ordering does not survive the second pass |
| `Strings.SplitAlias` | compiler/compiler.go:1082-1087 | an alias split loses only the four characters of its separator |
| `Strings.QuotingRoundTrip` | compiler/compiler.go:1066-1099 | a reader of delimited identifiers (section 5.2 of SQL-92) recovers exactly the dotted segments from a wrapped name without an alias split, for every quote pair |
| `Strings.ReadBodyUndoubles` | compiler/compiler.go:1091-1099 | doubling the closing quote is undone by reading, whatever follows |

## Left out

- RepeatedTargets.RepeatedTargetAligned: the condition on the target and the rows alone needs the rest of the statement to be balanced; AlignmentIsExact drops that and compares what the parts ask for with what they bind, because with unbalanced parts equal values can bring the two back into line by accident.
- StatementAlignment.RepeatedBindingsMisalign: requires every part to be balanced, the target included; AlignmentIsExact and RepeatedTargetAligned are the exact forms.
- StatementSoundness.ValidationSound: only soundness; validation also rejects clauses that are scoped to other dialects, so completeness is false.
- SubstitutionExact.SubstitutionIsExact: for queries whose CTE section holds CTE clauses only, as every builder program leaves it (Programs.ProgramsAreBuilt).
- Strings.QuotingRoundTrip: characters are compared as characters; lower-casing outside ASCII is not modelled.
- Pages.PrintedPageIsWindow: limits and offsets from zero on; offsets below zero are in Paging.NegativeOffset. Combined queries are excluded, because the program prints the pagination of the first member before them. The database is any function from the text of the unpaged query to rows; only pagination, numbering and the removal of the number column are evaluated. A projection with a column of its own that is called like the row number is not evaluated.
- Paging.OneWindow: limits below zero are not modelled as pages; the program passes them on as they are.
- Chunks.PaginateExact: a negative offset is taken as zero, as SQLite, Oracle and the printed TOP form do; PostgreSQL and MySQL reject it.
- Aggregates.CountExact: rows are read through the printed WHERE and an arbitrary source, so the exact condition is one on rows; the condition on the query alone, CountPreserved, is sufficient, because whether an earlier run can hold at all depends on what its conditions mean.
- Aggregates.CountPrints: without an offset, HAVING and combined queries, which the rewrite keeps in the counted query as they are.
- Aggregates.DistinctPrints: under the same exclusions.
- DistinctCounting.DistinctCountPreserved: under the same exclusions; what these sections return is not evaluated.
- DistinctCounting.CountReadsBack: under the same exclusions.
- OrderingText.SecondPassIsHarmless: where the second substitution does change the numbered column, the printed model keeps the text of the first.
- PagedQueries.PagedPrints: combined queries are excluded, for the same reason.
- FilterAnswers.FilterAnswered: data is plain and ordered by a parameter; values of one record are compared by that order, without collations or implicit conversions.
- Conditions.SectionMeans: raw conditions count as atoms; the text of an expression with OR inside it is not looked into.
- Filters.ResolveFilter: the default text of a value and the widening of slices are a parameter and an opaque constructor.
- Sections.SelectReads: combined queries are joined by UNION, EXCEPT or INTERSECT, as the named verbs do; other operations and raw combined text are not cut, and neither is the text of raw expressions.
- JoinMeaning.PrintedJoinsMean: under the same premise. A CROSS JOIN with an ON condition is evaluated as MySQL and SQLite do, on the pairs that pass it. The database is any function from the text of a table to rows, with any lawful reading of conditions.
- JoinVerbs.JoinVerbsMean: under the same premise.
- VerbMeaning.VerbsMean: under the same premise; a group printed inside is read as it was built, while the text of a raw condition is an atom.
- SelectMeaning.OrderingReads: without the legacy clone, whose ordering moves into its row number; Windows.NumberedInnerReads puts it back.
- ListVerbs.ListVerbsMean: under both premises.
- ListVerbs.ListsAreAsked: the query built in a callback is taken as the value it is built to; what it prints in turn is stated by the same results.
- SelectMeaning.CombinedReads: combined by UNION, EXCEPT or INTERSECT.
- SelectMeaning.GroupingReads: under the same premise.
- SelectMeaning.DistinctVerb: outside aggregate shape, whose head is SingleAggregates.CallIs, and under the same premise.
- SingleAggregates.CallIs: under the same premise.
- SingleAggregates.SingleAggregateReads: under the same premise; an offset stays in the rewritten statement, as the program leaves it there.
- TestMeaning.TestReads: date comparisons are in DateMeaning.DateReads, groups in Conditions.SectionMeans, raw conditions are atoms; a variable without definition is excluded, as validation does (TestMeaning.AcceptedIsPrintable).
- DateMeaning.DateReads: for the parts that the dialect maps; for others the program prints the bare column.
- TableMeaning.RowsRead: for rows of plain values, one for each column; a literal inside shifts the placeholders (Alignment.TableStands).
- WithMeaning.DefinitionsRead: ad-hoc tables under the condition of TableMeaning.RowsRead.
- UpdateMeaning.UpdateMeans: for aligned statements, which RepeatedTargets.AlignmentIsExact characterises. Assignments see the row as it was; adding to a cell that is no number gives null; of a column that is listed twice the last value counts.
- UpdateMeaning.ProgramUpdates: under the same conditions.
- InsertMeaning.RowsMean: for aligned statements; values are stored as they are bound, without defaults, keys or conversions.
- InsertMeaning.SelectMeans: for aligned statements, with the premise of Sections.SelectReads on the embedded query; only the first of several visible query clauses is printed.
- InsertMeaning.IgnoresConflicts: for aligned statements.
- ListVerbs.RowVerbsMean: for aligned statements.
- DeleteMeaning.DeleteMeans: for aligned statements.
- WireMeaning.ConvertedPages: top and skip are int64 values.
- The white space between tokens, the layout of lists and the text of error messages.
- Whether a question mark inside a quoted name or a string literal is a placeholder to the driver; the program itself counts every question mark of a raw expression.
- The roughly 120 Where, Having, On and Join verbs: one builder step for each clause shape, with the connective and the negation as parameters.
- Callbacks of the builder are sequences of verbs on the query they are handed; a callback that keeps a reference to it and writes later is not modelled.
- The backing arrays of Go slices: lists of values, names and rows are arrays that can be shared, clause lists are not.
- Values are opaque; a pointer bound as a value is not copied by Clone and is not modelled.
- Boolean literals, date functions, random calls and last-insert-id texts are read as the texts each dialect writes; what a database computes for them is not modelled.
- Executors, transactions, scanning, contexts and JSON decoding: the database is a fixed row sequence, counting it gives its length and a page its window.
