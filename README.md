# maracuya filter builder, in Dafny

maracuya builds parameterised SQL `WHERE` clauses. A `Filter` knows whether it
applies (`canApply`). When applied, it appends its text to a `StringBuilder` and
puts its parameter values into a `Map<String, Object>`. `FilterFactory` holds the
absence policy (`isNullOrEmpty`) and the required-name check (`required`). It also
has one constructor per predicate shape (comparisons, `LIKE` variants, `IN`,
`IS NULL`, `BETWEEN`, raw literals, bare parameters, `none()`) and the `AND`/`OR`
composite (`Logical`). A `Filterable` query puts the pieces together as
`select + from [+ where + filter] [+ group by] [+ having] [+ order by]`. It hands
that text to a query factory, then hands every binding to a parameter setter.

The project is split into these modules:

- `wrappers.dfy` (`Wrappers`): `Option` and `Result`.
- `java_lang.dfy` (`JavaLang`): the parts of the Java platform the builder relies on.
  - `Value`: a Java object, reduced to what the absence policy looks at.
  - `String.trim`, and `String.toLowerCase` on ASCII letters.
  - The classes `StringBuilder` and `ParameterMap`, whose methods update their
    fields in place.
  - `Store`: the map after a sequence of `put`s, and what it binds.
- `filter.dfy` (`Filters`): the factory's filters as a closed datatype. It defines
  what each variant means:
  - `CanApply`: whether it applies;
  - `Render`: the text it appends;
  - `Writes`: the puts it performs, in order.

  The module then proves what a logical filter promises against an independent
  description (join of the applying children's pieces, concatenation of their
  puts).
- `filter_factory.dfy` (`FilterFactory`): the factory.
  - The constructors are functions returning `Result<Filter, Error>`; a missing
    name is the `NullPointerException` outcome.
  - Each constructor's contract states the check order, the error message, and
    the exact text and puts of the filter it builds.
  - `canApply` and `apply` of the built filters are imperative methods. They
    append to a `StringBuilder` and put into a `ParameterMap` in place, and are
    proved against `Render` and `Writes`.
- `filterable.dfy` (`Filterables`): the `Filterable` interface with its default
  clauses, and `apply`. `apply` is proved to send the specified statement text to
  the query factory, and to call the setter once per binding of the filter's puts.
- `scenarios.dfy` (`Scenarios`): the repository's unit tests and its example
  `PersonFilter`, restated as lemmas.

## Model

All FilterFactory/Filter/Filterable paths are under `src/main/java/org/habv/maracuya/`; test paths under `src/test/java/org/habv/maracuya/`.

| member | source | states |
|---|---|---|
| JavaLang.TrimEmptyIffBlank | src/main/java/org/habv/maracuya/FilterFactory.java:683-687 | `s.trim().isEmpty()` holds exactly when every character of `s` is at most U+0020 |
| JavaLang.Trim | src/main/java/org/habv/maracuya/FilterFactory.java:684 | `trim()` returns the infix of `s` left after cutting off a run of characters up to U+0020 at each end; a non-empty result starts and ends with a character above U+0020 |
| JavaLang.ToLowerCase | src/main/java/org/habv/maracuya/FilterFactory.java:785 | lower-casing keeps the length, maps each ASCII upper-case letter to the letter 32 code points above it, leaves no upper-case ASCII letter and changes no other character |
| JavaLang.ToLowerCaseIdempotent | src/main/java/org/habv/maracuya/FilterFactory.java:785 | lower-casing twice is lower-casing once |
| JavaLang.StoreAppend | src/main/java/org/habv/maracuya/Filter.java:23-29 | two runs of puts in a row act like one run of their concatenation |
| JavaLang.StoreLookup | src/main/java/org/habv/maracuya/Filter.java:23-29 | after a run of puts a name is bound iff it was bound before or was put; its value is its last put, or the old value if it was not put |
| JavaLang.StoreKeys | src/main/java/org/habv/maracuya/Filter.java:23-29 | puts never remove a key: the keys afterwards are the old keys plus the names put |
| JavaLang.StoreOverEmpty | src/main/java/org/habv/maracuya/Filter.java:23-29 | putting into a filled map equals the old map overridden by the same puts on an empty map, so what a filter binds does not depend on what was there |
| JavaLang.StringBuilder.Append | src/main/java/org/habv/maracuya/FilterFactory.java:745 | `append` extends the text by its argument |
| JavaLang.ParameterMap.Put | src/main/java/org/habv/maracuya/FilterFactory.java:749 | `put` binds the name to the value and leaves every other binding alone |
| Filters.CanApply | src/main/java/org/habv/maracuya/Filter.java:19-21 | what `canApply()` answers: false for `none()` (`FilterFactory.java:713-716`), true for every leaf (the interface default), and for a logical filter true iff some child applies (`FilterFactory.java:866-874`) |
| Filters.Render | src/main/java/org/habv/maracuya/Filter.java:23-29 | the text each variant's `apply` appends: `column op :param` for single filters, the optionally `LOWER`-wrapped column for pattern filters, `column op :left AND :right` for pairs, `column IS [NOT] NULL ` for null checks, the literal verbatim, nothing for parameters and `none()`, the children's walk for logical filters |
| Filters.Piece | src/main/java/org/habv/maracuya/FilterFactory.java:885-892 | how a child appears inside a logical filter: in parentheses iff it is itself logical |
| Filters.RenderChildren | src/main/java/org/habv/maracuya/FilterFactory.java:877-895 | the logical filter's loop: skip children that do not apply; before each applying child put the operator once one was found |
| Filters.Writes | src/main/java/org/habv/maracuya/Filter.java:23-29 | the puts each variant's `apply` performs, in order: its parameter with its value (the prepared pattern for pattern filters, left then right for pairs), none for null checks and `none()`, the children's puts for logical filters |
| Filters.WritesChildren | src/main/java/org/habv/maracuya/FilterFactory.java:877-895 | the puts of the applying children, child after child |
| Filters.RenderChildrenIsJoin | src/main/java/org/habv/maracuya/FilterFactory.java:877-895 | a logical filter's text is the pieces of its applying children, in order, with the operator exactly between consecutive ones (and once in front when an earlier child was already rendered) |
| Filters.WritesChildrenIsConcat | src/main/java/org/habv/maracuya/FilterFactory.java:877-895 | a logical filter performs exactly the puts of its applying children, child after child, so a later child's put of the same name wins |
| Filters.SilentWhenNotApplying | src/main/java/org/habv/maracuya/FilterFactory.java:706-728 | a filter that does not apply appends no text and puts nothing |
| Filters.SkipsSilentChildren | src/main/java/org/habv/maracuya/FilterFactory.java:877-895 | children that do not apply contribute neither text nor operator nor puts |
| Filters.PatternOnlyInBinding | src/main/java/org/habv/maracuya/FilterFactory.java:768-789 | a pattern filter's text does not depend on the pattern or the wildcard flags; its bound value has a `%` first if a left wildcard is asked for and one last if a right one is, and between the requested wildcards it is the pattern, lower-cased iff case is ignored |
| Filters.StoreChildrenStep | src/main/java/org/habv/maracuya/FilterFactory.java:879-893 | putting the current child's writes and then the rest's equals putting the remaining walk's |
| Filters.Applying | src/main/java/org/habv/maracuya/FilterFactory.java:880 | exactly the children that apply are kept: a filter is in the result iff it is one of the children and applies; the result is no longer than the children |
| FilterFactory.IsNullOrEmpty | src/main/java/org/habv/maracuya/FilterFactory.java:659-673 | a value is absent iff it is null, an empty string, an empty collection or an empty map |
| FilterFactory.Required | src/main/java/org/habv/maracuya/FilterFactory.java:683-687 | fails iff the name is null or blank after trimming, with the message `<label> must not be null or empty`; succeeds with the name otherwise |
| FilterFactory.SingleFilter | src/main/java/org/habv/maracuya/FilterFactory.java:741-751 | checks the column, then the parameter name; builds a filter appending `column op :param` and binding `param` to the value |
| FilterFactory.TextFilter | src/main/java/org/habv/maracuya/FilterFactory.java:768-789 | checks the names; appends `LOWER(column)` iff case is ignored (otherwise `column`), then `op :param`; binds the pattern, lower-cased iff case is ignored, with `%` on each requested side |
| FilterFactory.PairFilter | src/main/java/org/habv/maracuya/FilterFactory.java:804-819 | checks column, left and right names in that order; appends `column op :left AND :right` and binds left then right |
| FilterFactory.Equal | src/main/java/org/habv/maracuya/FilterFactory.java:127-131 | absent value gives `none()` whatever the names; otherwise the first missing name's error, or a filter appending `column = :param` and binding the value |
| FilterFactory.NotEqual | src/main/java/org/habv/maracuya/FilterFactory.java:148-152 | as `Equal`, with ` <> ` |
| FilterFactory.Greater | src/main/java/org/habv/maracuya/FilterFactory.java:168-172 | as `Equal`, with ` > ` |
| FilterFactory.GreaterOrEqual | src/main/java/org/habv/maracuya/FilterFactory.java:188-192 | as `Equal`, with ` >= ` |
| FilterFactory.Less | src/main/java/org/habv/maracuya/FilterFactory.java:208-212 | as `Equal`, with ` < ` |
| FilterFactory.LessOrEqual | src/main/java/org/habv/maracuya/FilterFactory.java:228-232 | as `Equal`, with ` <= ` |
| FilterFactory.In | src/main/java/org/habv/maracuya/FilterFactory.java:419-423 | a null or empty collection gives `none()`; otherwise the names' error or `column IN :param` binding the collection |
| FilterFactory.NotIn | src/main/java/org/habv/maracuya/FilterFactory.java:442-446 | as `In`, with ` NOT IN ` |
| FilterFactory.Like | src/main/java/org/habv/maracuya/FilterFactory.java:248-252 | a null or empty pattern gives `none()`; otherwise the names' error or `LOWER(column) LIKE :param` binding `%` + lower-cased pattern + `%` |
| FilterFactory.LikeCaseSensitive | src/main/java/org/habv/maracuya/FilterFactory.java:269-273 | as `Like`, without `LOWER` and without lower-casing |
| FilterFactory.NotLike | src/main/java/org/habv/maracuya/FilterFactory.java:290-294 | as `Like`, with ` NOT LIKE ` |
| FilterFactory.NotLikeCaseSensitive | src/main/java/org/habv/maracuya/FilterFactory.java:311-315 | as `LikeCaseSensitive`, with ` NOT LIKE ` |
| FilterFactory.StartsWith | src/main/java/org/habv/maracuya/FilterFactory.java:332-336 | as `Like`, binding the lower-cased pattern followed by `%` only |
| FilterFactory.StartsWithCaseSensitive | src/main/java/org/habv/maracuya/FilterFactory.java:353-357 | as `LikeCaseSensitive`, binding the pattern followed by `%` only |
| FilterFactory.EndsWith | src/main/java/org/habv/maracuya/FilterFactory.java:374-378 | as `Like`, binding `%` followed by the lower-cased pattern only |
| FilterFactory.EndsWithCaseSensitive | src/main/java/org/habv/maracuya/FilterFactory.java:395-399 | as `LikeCaseSensitive`, binding `%` followed by the pattern only |
| FilterFactory.IsNull | src/main/java/org/habv/maracuya/FilterFactory.java:462-467 | the column is checked first, whatever the flag; then the flag alone decides: `none()`, or a filter appending `column IS NULL ` (trailing space) that binds nothing |
| FilterFactory.IsNotNull | src/main/java/org/habv/maracuya/FilterFactory.java:483-488 | as `IsNull`, appending `column IS NOT NULL ` |
| FilterFactory.Between | src/main/java/org/habv/maracuya/FilterFactory.java:510-514 | either bound absent gives `none()`; otherwise the names' error or `column BETWEEN :left AND :right` binding both bounds |
| FilterFactory.NotBetween | src/main/java/org/habv/maracuya/FilterFactory.java:536-540 | as `Between`, with ` NOT BETWEEN ` |
| FilterFactory.And | src/main/java/org/habv/maracuya/FilterFactory.java:556-560 | no filters give `none()`; otherwise the result is the ` AND ` logical filter over exactly the given filters; it applies iff some filter applies; its text is the applying filters' pieces joined by ` AND `; its puts are theirs, in order |
| FilterFactory.AndCollection | src/main/java/org/habv/maracuya/FilterFactory.java:569-573 | a null collection gives `none()`; otherwise the same filter as `And` over its elements (so an empty one gives `none()` too) |
| FilterFactory.Or | src/main/java/org/habv/maracuya/FilterFactory.java:589-593 | as `And`: `none()` for no filters, else the ` OR ` logical filter over them, its text the pieces joined by ` OR ` |
| FilterFactory.OrCollection | src/main/java/org/habv/maracuya/FilterFactory.java:602-606 | as `AndCollection`, for `Or` |
| FilterFactory.Parameter | src/main/java/org/habv/maracuya/FilterFactory.java:619-624 | the name is checked first, whatever the value; then `none()` for an absent value, or a filter that appends nothing and binds the value |
| FilterFactory.LiteralFilter | src/main/java/org/habv/maracuya/FilterFactory.java:638-647 | the literal, then the name, are checked first; then `none()` for an absent value, or a filter appending the literal verbatim and binding the value |
| FilterFactory.NoneFilter | src/main/java/org/habv/maracuya/FilterFactory.java:695-728 | `none()` never applies, appends nothing and puts nothing |
| FilterFactory.CanApplyOf | src/main/java/org/habv/maracuya/Filter.java:19-21 | a filter's `canApply()` is `CanApply`: false for `none()`, true for every leaf, the children's verdict for a logical filter |
| FilterFactory.LogicalCanApply | src/main/java/org/habv/maracuya/FilterFactory.java:866-874 | the loop with early return answers true iff some child applies |
| FilterFactory.Apply | src/main/java/org/habv/maracuya/Filter.java:23-29 | `apply` extends the query by exactly the filter's text (so the old text is a prefix) and performs exactly its puts on the map |
| FilterFactory.ApplySingle | src/main/java/org/habv/maracuya/FilterFactory.java:744-750 | the `single` lambda appends `column op :param` and puts the value |
| FilterFactory.ApplyText | src/main/java/org/habv/maracuya/FilterFactory.java:771-788 | the `text` lambda appends the (optionally `LOWER`-wrapped) column, `op :param`, and puts the prepared pattern |
| FilterFactory.ApplyPair | src/main/java/org/habv/maracuya/FilterFactory.java:808-818 | the `pair` lambda appends `column op :left AND :right` and puts left then right |
| FilterFactory.ApplyLogical | src/main/java/org/habv/maracuya/FilterFactory.java:877-895 | the loop with its found-one flag appends `RenderChildren` and performs `WritesChildren` (see `RenderChildrenIsJoin`, `WritesChildrenIsConcat`) |
| FilterFactory.ApplyChild | src/main/java/org/habv/maracuya/FilterFactory.java:880-892 | one applying child: the operator iff one was already found, then the child, parenthesised iff it is logical |
| Filterables.Apply | src/main/java/org/habv/maracuya/Filterable.java:81-98 | the query factory receives exactly the specified statement text; the setter receives every binding of the filter's parameter map exactly once and nothing else; the result is the created query after those calls |
| Filterables.Assemble | src/main/java/org/habv/maracuya/Filterable.java:82-93 | from a fresh buffer and map: text is select, from, then where and the filter's text iff it applies, then group by, having, order by when present; bindings are the filter's puts iff it applies |
| Filterables.SetAll | src/main/java/org/habv/maracuya/Filterable.java:96 | in any iteration order, the setter is called once per binding with its name and value, and with nothing else |
| Filterables.WithDefaults | src/main/java/org/habv/maracuya/Filterable.java:41-70 | an implementation that overrides only `select`, `from` and `filter`: WHERE keyword ` WHERE `, no GROUP BY, HAVING or ORDER BY (see `DefaultStatement`) |
| Filterables.StatementText | src/main/java/org/habv/maracuya/Filterable.java:82-93 | the statement text `apply` builds: select, from, the where keyword and the filter text iff the filter applies, then the optional clauses |
| Filterables.StatementBindings | src/main/java/org/habv/maracuya/Filterable.java:82-93 | the parameter map `apply` builds: the filter's puts on an empty map iff it applies, else empty |
| Filterables.BindingsAreFilterPuts | src/main/java/org/habv/maracuya/Filterable.java:83-90 | the bindings are the filter's puts on an empty map; a name is bound iff the filter puts it, to its last put's value; with a non-applying filter the map is empty |
| Filterables.DefaultStatement | src/main/java/org/habv/maracuya/Filterable.java:41-70 | with the default clauses the statement is `select + from + " WHERE " + filter text` when the filter applies, `select + from` otherwise |
| Filterables.EnumerationsAgree | src/main/java/org/habv/maracuya/Filterable.java:96 | any two iteration orders hand the setter the same calls (as a multiset), one per binding |
| Filterables.EnumerationCounts | src/main/java/org/habv/maracuya/Filterable.java:96 | an enumeration holds each binding exactly once and nothing else |
| Scenarios.EqualOnIsbn | src/test/java/org/habv/maracuya/FilterFactoryTest.java:23-37 | `equal("book.isbn", "isbn", "978-3-16-148410-0")` applies, renders `book.isbn = :isbn` and binds only `isbn` |
| Scenarios.AbsenceExamples | src/test/java/org/habv/maracuya/FilterFactoryTest.java:579-592 | the absence policy on the values the unit test tries, including a string of spaces |
| Scenarios.AbsentValueBeforeNames | src/main/java/org/habv/maracuya/FilterFactory.java:127-131 | an absent value gives `none()` even when names are null or blank |
| Scenarios.NullCheckNamesFirst | src/main/java/org/habv/maracuya/FilterFactory.java:462-467 | `isNull(" ", false)` fails with `columnName must not be null or empty`; `isNull("book.isbn", false)` is `none()` |
| Scenarios.AndOfLiterals | src/test/java/org/habv/maracuya/FilterFactoryTest.java:433-454 | `literal("first", "first", true)` and the two others build the literal filters; `and` over them with a `none()` second renders `first AND second AND third` and binds the three names to true |
| Scenarios.NoneSkipped | src/main/java/org/habv/maracuya/FilterFactory.java:877-895 | a non-applying second child of four adds neither text nor operator nor puts |
| Scenarios.NestedComposite | src/main/java/org/habv/maracuya/FilterFactory.java:877-895 | `or(and(a, b), c)` over applying leaves applies, renders `(a AND b) OR c` (only the nested composite is parenthesised) and performs the puts of a, b and c in order |
| Scenarios.ParameterLeavesBareOperator | src/main/java/org/habv/maracuya/FilterFactory.java:877-895 | an applying `parameter(...)` renders nothing yet counts as found, so `and(parameter, g)` renders the operator followed by `g` with nothing before it and puts the parameter then `g`'s puts; as the whole filter of a default query it leaves the WHERE keyword with nothing after it (`Filterable.java:87-89`) |
| Scenarios.ParameterThenEqual | src/main/java/org/habv/maracuya/FilterFactory.java:880-889 | `and(parameter("active", true), equal("x", "x", 1))` renders ` AND x = :x`, with the operator first |
| Scenarios.PersonFilter | src/test/java/org/habv/maracuya/PersonFilter.java:31-37 | the example's `filter()`: `and(like("p.name", "name", name), or(greater("p.age", "age", age), between("p.date", "start", "end", start, end)), in("p.hobbies", "hobbies", hobbies))`, built by the factory functions |
| Scenarios.PersonFilterParts | src/test/java/org/habv/maracuya/PersonFilter.java:31-37 | the example filter is `and(like name, or(greater age, between dates), in hobbies)`, each criterion becoming `none()` when absent |
| Scenarios.PersonSearchWithoutCriteria | src/test/java/org/habv/maracuya/PersonFilterTest.java:36-40 | with no criterion the statement is `SELECT p FROM Person p ORDER BY p.name ASC` with no WHERE and no bindings |
| Scenarios.PersonSearchByNameAndHobbies | src/test/java/org/habv/maracuya/PersonFilterTest.java:52-60 | name and hobbies only: the OR group vanishes; the statement is `... WHERE LOWER(p.name) LIKE :name AND p.hobbies IN :hobbies ORDER BY p.name ASC`, binding the lower-cased `%name%` pattern and the hobbies |
| Scenarios.MiddleChildSilent | src/main/java/org/habv/maracuya/FilterFactory.java:877-895 | a logical filter whose middle child does not apply renders and puts only the outer two, joined by the operator |

## Left out

- Filters written by users: `Filter` is a functional interface, so callers may supply their own lambdas. The model covers only the closed set of filters the factory builds.
- `QueryFactory` and `ParameterSetter` are function parameters (`create`, `setter`). Java's `set` mutates the created query and returns nothing. Here `setter` returns the updated query, and `Filterables.Apply` returns the query after the calls (`Replay`). Aliasing of the query object is not modelled.
- `Filterables.Apply`: `filter()` is called twice (`Filterable.java:87` and `:89`). The model takes one filter value for both calls, so an implementation returning a different filter each time is not modelled.
- `HashMap` iteration order is unspecified. `Filterables.SetAll` picks any pending name, and the contracts speak per binding (`Enumerates`, `EnumerationsAgree`), not about one fixed order.
- `JavaLang.ToLowerCase`: lower-cases ASCII letters only. Locale rules and Unicode case mapping of `String.toLowerCase()` are left out.
- Java runtime types: `Object` values are the `Value` datatype (`Null`, strings, collections, maps, booleans, integers, opaque others). `Double` and `LocalDate` are opaque `Other` payloads, and no arithmetic is done on them.
- `NullPointerException` is the `Failure(MissingName(message))` outcome of a constructor. A `null` varargs array, `null` elements inside a filter array or collection, and the exception thrown by `apply` on such an element are not modelled: filter sequences hold filters only.
- FilterFactory.And: the model takes a snapshot of the children as a value. The Java array overload `and(Filter...)` keeps the caller's array itself (`FilterFactory.java:844-847`), so a write to that array after construction changes what the filter applies, appends and binds; that sharing is not modelled. The collection overload copies with `toArray` (`FilterFactory.java:855-858`), which the snapshot matches. Both of `Logical`'s constructors become the `Logical(op, children)` variant.
- FilterFactory.Or: as for `FilterFactory.And`, the children are a snapshot, while the array overload `or(Filter...)` shares the caller's array.
- The private constructor of `FilterFactory` that throws (`FilterFactory.java:108-110`) has no counterpart.
- `PersonFilterTest.main`, `QueryObject.print` and the example's getters and setters are console I/O and plumbing. The example's field values are the parameters of `Scenarios.PersonSearch`.
- The doc comments of `isNull`/`isNotNull` mention a bound parameter. The code binds nothing and appends a trailing space, and the model follows the code.
