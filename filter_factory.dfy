/** The filter factory: the absence policy, the required-name check, one constructor per
    predicate shape, the AND/OR composites, and the bodies of the filters' `canApply`
    and `apply`, which append to a query buffer and put into a parameter map in place. */
module FilterFactory {
  import opened Wrappers
  import opened JavaLang
  import opened Filters

  /** The `NullPointerException` a constructor throws for a missing name. */
  datatype Error = MissingName(message: string)

  /** A Java `String` reference; `None` is `null`. */
  type StringRef = Option<string>

  /** The object a `String` reference denotes, as the absence policy sees it. */
  function StringValue(s: StringRef): Value {
    if s.None? then Null else Str(s.value)
  }

  /** The object a `Collection` reference denotes. */
  function CollectionValue(c: Option<seq<Value>>): Value {
    if c.None? then Null else Coll(c.value)
  }

  /** The characters of a reference, for stating contracts; "" for null. */
  function Chars(s: StringRef): string {
    s.GetOr("")
  }

  /** A name passes `required`: it is not null and not blank. */
  predicate Present(name: StringRef) {
    name.Some? && !Blank(name.value)
  }

  function MissingMessage(what: string): string {
    what + " must not be null or empty"
  }

  /** `isNullOrEmpty`: the absence policy. Only null and emptiness count as absent, not
      falsiness: zero, false and whitespace-only strings are supplied values. */
  function IsNullOrEmpty(value: Value): (r: bool)
    ensures r <==> value in {Null, Str(""), Coll([]), MapV([])}
  {
    match value
    case Null => true
    case Str(chars) => |chars| == 0
    case Coll(elems) => |elems| == 0
    case MapV(entries) => |entries| == 0
    case _ => false
  }

  /** `required`: fails with the labelled message when the name is null or blank after
      trimming, and otherwise yields the name. */
  function Required(name: StringRef, what: string): (r: Result<string, Error>)
    ensures r.Ok? <==> Present(name)
    ensures r.Ok? ==> r.value == name.value
    ensures r.Failure? ==> r.error == MissingName(MissingMessage(what))
  {
    TrimEmptyIffBlank(Chars(name));
    if name.None? || |Trim(name.value)| == 0 then Failure(MissingName(MissingMessage(what)))
    else Ok(name.value)
  }

  /** The error of the first missing name, checking `names` in order, if any is missing. */
  function FirstMissing(names: seq<(StringRef, string)>): Option<Error> {
    if names == [] then None
    else if !Present(names[0].0) then MissingError(names[0])
    else FirstMissing(names[1..])
  }

  /** The error `required` raises for a missing name. */
  function MissingError(name: (StringRef, string)): Option<Error> {
    Some(MissingName(MissingMessage(name.1)))
  }

  lemma FirstMissingOfOne(a: (StringRef, string))
    ensures FirstMissing([a]) == if !Present(a.0) then MissingError(a) else None
  {
    assert [a][1..] == [];
  }

  lemma FirstMissingOfTwo(a: (StringRef, string), b: (StringRef, string))
    ensures FirstMissing([a, b])
         == if !Present(a.0) then MissingError(a) else if !Present(b.0) then MissingError(b) else None
  {
    assert [a, b][1..] == [b];
    assert [b][1..] == [];
    assert FirstMissing([b]) == if !Present(b.0) then MissingError(b) else FirstMissing([]);
  }

  lemma FirstMissingOfThree(a: (StringRef, string), b: (StringRef, string), c: (StringRef, string))
    ensures FirstMissing([a, b, c]) == if !Present(a.0) then MissingError(a) else FirstMissing([b, c])
  {
    assert [a, b, c][1..] == [b, c];
  }

  /** The filter was built, is a leaf (so a logical filter around it does not
      parenthesise it), applies, appends `text` and performs the puts `writes`. */
  ghost predicate Applies(r: Result<Filter, Error>, text: string, writes: seq<Binding>) {
    r.Ok? && !r.value.Logical? && CanApply(r.value) && Render(r.value) == text && Writes(r.value) == writes
  }

  /** What a value-driven constructor promises: an absent value gives the no-op filter
      whatever the names; a supplied value gives the error of the first missing name,
      or else a filter that applies, appends `text` and performs `writes`. */
  ghost predicate Builds(r: Result<Filter, Error>, absent: bool, names: seq<(StringRef, string)>,
                         text: string, writes: seq<Binding>)
  {
    if absent then r == Ok(NoOp)
    else match FirstMissing(names)
      case Some(e) => r == Failure(e)
      case None => Applies(r, text, writes)
  }

  /** What a name-first constructor promises: the error of the first missing name
      whatever the value; otherwise the no-op filter for an absent value, or else a
      filter that applies, appends `text` and performs `writes`. */
  ghost predicate BuildsNamesFirst(r: Result<Filter, Error>, names: seq<(StringRef, string)>,
                                   absent: bool, text: string, writes: seq<Binding>)
  {
    match FirstMissing(names)
    case Some(e) => r == Failure(e)
    case None => if absent then r == Ok(NoOp) else Applies(r, text, writes)
  }

  /** What each leaf filter appends and puts, spelled out per variant. */
  lemma LeafApplies(f: Filter)
    requires !f.NoOp? && !f.Logical?
    ensures CanApply(f)
    ensures f.Single? ==> Render(f) == f.column + f.op + Prefix + f.param && Writes(f) == [(f.param, f.value)]
    ensures f.Text? ==>
      Render(f) == (if f.ignoreCase then LowerToken + LeftParenthesis + f.column + RightParenthesis else f.column)
                   + f.op + Prefix + f.param
      && Writes(f) == [(f.param, Str(Prepared(f.pattern, f.left, f.right, f.ignoreCase)))]
    ensures f.Pair? ==>
      Render(f) == f.column + f.op + Prefix + f.leftParam + AndToken + Prefix + f.rightParam
      && Writes(f) == [(f.leftParam, f.leftValue), (f.rightParam, f.rightValue)]
    ensures f.NullCheck? ==> Render(f) == f.column + f.token && Writes(f) == []
    ensures f.Literal? ==> Render(f) == f.literal && Writes(f) == [(f.param, f.value)]
    ensures f.Param? ==> Render(f) == "" && Writes(f) == [(f.param, f.value)]
  {
  }

  // ----- The private builders -----

  /** `single`: `column op :param`, binding `param` to `value`. */
  function SingleFilter(column: StringRef, op: string, param: StringRef, value: Value): (r: Result<Filter, Error>)
    ensures Builds(r, false, [(column, "columnName"), (param, "paramName")],
                   Chars(column) + op + Prefix + Chars(param), [(Chars(param), value)])
  {
    FirstMissingOfTwo((column, "columnName"), (param, "paramName"));
    match (Required(column, "columnName"), Required(param, "paramName"))
    case (Failure(e), _) => Failure(e)
    case (Ok(_), Failure(e)) => Failure(e)
    case (Ok(c), Ok(p)) =>
      LeafApplies(Single(c, op, p, value));
      Ok(Single(c, op, p, value))
  }

  /** `text`: `[LOWER(]column[)] op :param`, binding `param` to the pattern lower-cased
      when `ignoreCase` and with `%` on the requested sides. */
  function TextFilter(column: StringRef, op: string, param: StringRef, pattern: string,
                      left: bool, right: bool, ignoreCase: bool): (r: Result<Filter, Error>)
    ensures Builds(r, false, [(column, "columnName"), (param, "paramName")],
                   (if ignoreCase then LowerToken + LeftParenthesis + Chars(column) + RightParenthesis else Chars(column)) + op + Prefix + Chars(param),
                   [(Chars(param), Str(Prepared(pattern, left, right, ignoreCase)))])
  {
    FirstMissingOfTwo((column, "columnName"), (param, "paramName"));
    match (Required(column, "columnName"), Required(param, "paramName"))
    case (Failure(e), _) => Failure(e)
    case (Ok(_), Failure(e)) => Failure(e)
    case (Ok(c), Ok(p)) =>
      LeafApplies(Text(c, op, p, pattern, left, right, ignoreCase));
      Ok(Text(c, op, p, pattern, left, right, ignoreCase))
  }

  /** `pair`: `column op :leftParam AND :rightParam`, binding both names in that order. */
  function PairFilter(column: StringRef, op: string, leftParam: StringRef, rightParam: StringRef,
                      leftValue: Value, rightValue: Value): (r: Result<Filter, Error>)
    ensures Builds(r, false, [(column, "columnName"), (leftParam, "leftParamName"), (rightParam, "rightParamName")],
                   Chars(column) + op + Prefix + Chars(leftParam) + AndToken + Prefix + Chars(rightParam),
                   [(Chars(leftParam), leftValue), (Chars(rightParam), rightValue)])
  {
    FirstMissingOfThree((column, "columnName"), (leftParam, "leftParamName"), (rightParam, "rightParamName"));
    FirstMissingOfTwo((leftParam, "leftParamName"), (rightParam, "rightParamName"));
    match (Required(column, "columnName"), Required(leftParam, "leftParamName"), Required(rightParam, "rightParamName"))
    case (Failure(e), _, _) => Failure(e)
    case (Ok(_), Failure(e), _) => Failure(e)
    case (Ok(_), Ok(_), Failure(e)) => Failure(e)
    case (Ok(c), Ok(lp), Ok(rp)) =>
      LeafApplies(Pair(c, op, lp, rp, leftValue, rightValue));
      Ok(Pair(c, op, lp, rp, leftValue, rightValue))
  }

  // ----- Comparisons and membership -----

  function Equal(column: StringRef, param: StringRef, value: Value): (r: Result<Filter, Error>)
    ensures Builds(r, IsNullOrEmpty(value), [(column, "columnName"), (param, "paramName")],
                   Chars(column) + EqualsToken + Prefix + Chars(param), [(Chars(param), value)])
  {
    if IsNullOrEmpty(value) then Ok(NoneFilter()) else SingleFilter(column, EqualsToken, param, value)
  }

  function NotEqual(column: StringRef, param: StringRef, value: Value): (r: Result<Filter, Error>)
    ensures Builds(r, IsNullOrEmpty(value), [(column, "columnName"), (param, "paramName")],
                   Chars(column) + NotEqualsToken + Prefix + Chars(param), [(Chars(param), value)])
  {
    if IsNullOrEmpty(value) then Ok(NoneFilter()) else SingleFilter(column, NotEqualsToken, param, value)
  }

  function Greater(column: StringRef, param: StringRef, value: Value): (r: Result<Filter, Error>)
    ensures Builds(r, IsNullOrEmpty(value), [(column, "columnName"), (param, "paramName")],
                   Chars(column) + GreaterToken + Prefix + Chars(param), [(Chars(param), value)])
  {
    if IsNullOrEmpty(value) then Ok(NoneFilter()) else SingleFilter(column, GreaterToken, param, value)
  }

  function GreaterOrEqual(column: StringRef, param: StringRef, value: Value): (r: Result<Filter, Error>)
    ensures Builds(r, IsNullOrEmpty(value), [(column, "columnName"), (param, "paramName")],
                   Chars(column) + GreaterOrEqualToken + Prefix + Chars(param), [(Chars(param), value)])
  {
    if IsNullOrEmpty(value) then Ok(NoneFilter()) else SingleFilter(column, GreaterOrEqualToken, param, value)
  }

  function Less(column: StringRef, param: StringRef, value: Value): (r: Result<Filter, Error>)
    ensures Builds(r, IsNullOrEmpty(value), [(column, "columnName"), (param, "paramName")],
                   Chars(column) + LessToken + Prefix + Chars(param), [(Chars(param), value)])
  {
    if IsNullOrEmpty(value) then Ok(NoneFilter()) else SingleFilter(column, LessToken, param, value)
  }

  function LessOrEqual(column: StringRef, param: StringRef, value: Value): (r: Result<Filter, Error>)
    ensures Builds(r, IsNullOrEmpty(value), [(column, "columnName"), (param, "paramName")],
                   Chars(column) + LessOrEqualToken + Prefix + Chars(param), [(Chars(param), value)])
  {
    if IsNullOrEmpty(value) then Ok(NoneFilter()) else SingleFilter(column, LessOrEqualToken, param, value)
  }

  function In(column: StringRef, param: StringRef, values: Option<seq<Value>>): (r: Result<Filter, Error>)
    ensures Builds(r, IsNullOrEmpty(CollectionValue(values)), [(column, "columnName"), (param, "paramName")],
                   Chars(column) + InToken + Prefix + Chars(param), [(Chars(param), CollectionValue(values))])
  {
    var value := CollectionValue(values);
    if IsNullOrEmpty(value) then Ok(NoneFilter()) else SingleFilter(column, InToken, param, value)
  }

  function NotIn(column: StringRef, param: StringRef, values: Option<seq<Value>>): (r: Result<Filter, Error>)
    ensures Builds(r, IsNullOrEmpty(CollectionValue(values)), [(column, "columnName"), (param, "paramName")],
                   Chars(column) + NotInToken + Prefix + Chars(param), [(Chars(param), CollectionValue(values))])
  {
    var value := CollectionValue(values);
    if IsNullOrEmpty(value) then Ok(NoneFilter()) else SingleFilter(column, NotInToken, param, value)
  }

  // ----- Pattern matches -----

  function Like(column: StringRef, param: StringRef, value: StringRef): (r: Result<Filter, Error>)
    ensures Builds(r, IsNullOrEmpty(StringValue(value)), [(column, "columnName"), (param, "paramName")],
                   LowerToken + LeftParenthesis + Chars(column) + RightParenthesis + LikeToken + Prefix + Chars(param),
                   [(Chars(param), Str(PercentageSign + ToLowerCase(Chars(value)) + PercentageSign))])
  {
    if IsNullOrEmpty(StringValue(value)) then Ok(NoneFilter())
    else TextFilter(column, LikeToken, param, value.value, true, true, true)
  }

  function LikeCaseSensitive(column: StringRef, param: StringRef, value: StringRef): (r: Result<Filter, Error>)
    ensures Builds(r, IsNullOrEmpty(StringValue(value)), [(column, "columnName"), (param, "paramName")],
                   Chars(column) + LikeToken + Prefix + Chars(param),
                   [(Chars(param), Str(PercentageSign + Chars(value) + PercentageSign))])
  {
    if IsNullOrEmpty(StringValue(value)) then Ok(NoneFilter())
    else TextFilter(column, LikeToken, param, value.value, true, true, false)
  }

  function NotLike(column: StringRef, param: StringRef, value: StringRef): (r: Result<Filter, Error>)
    ensures Builds(r, IsNullOrEmpty(StringValue(value)), [(column, "columnName"), (param, "paramName")],
                   LowerToken + LeftParenthesis + Chars(column) + RightParenthesis + NotLikeToken + Prefix + Chars(param),
                   [(Chars(param), Str(PercentageSign + ToLowerCase(Chars(value)) + PercentageSign))])
  {
    if IsNullOrEmpty(StringValue(value)) then Ok(NoneFilter())
    else TextFilter(column, NotLikeToken, param, value.value, true, true, true)
  }

  function NotLikeCaseSensitive(column: StringRef, param: StringRef, value: StringRef): (r: Result<Filter, Error>)
    ensures Builds(r, IsNullOrEmpty(StringValue(value)), [(column, "columnName"), (param, "paramName")],
                   Chars(column) + NotLikeToken + Prefix + Chars(param),
                   [(Chars(param), Str(PercentageSign + Chars(value) + PercentageSign))])
  {
    if IsNullOrEmpty(StringValue(value)) then Ok(NoneFilter())
    else TextFilter(column, NotLikeToken, param, value.value, true, true, false)
  }

  function StartsWith(column: StringRef, param: StringRef, value: StringRef): (r: Result<Filter, Error>)
    ensures Builds(r, IsNullOrEmpty(StringValue(value)), [(column, "columnName"), (param, "paramName")],
                   LowerToken + LeftParenthesis + Chars(column) + RightParenthesis + LikeToken + Prefix + Chars(param),
                   [(Chars(param), Str(ToLowerCase(Chars(value)) + PercentageSign))])
  {
    if IsNullOrEmpty(StringValue(value)) then Ok(NoneFilter())
    else
      assert EmptyString + ToLowerCase(value.value) == ToLowerCase(value.value);
      TextFilter(column, LikeToken, param, value.value, false, true, true)
  }

  function StartsWithCaseSensitive(column: StringRef, param: StringRef, value: StringRef): (r: Result<Filter, Error>)
    ensures Builds(r, IsNullOrEmpty(StringValue(value)), [(column, "columnName"), (param, "paramName")],
                   Chars(column) + LikeToken + Prefix + Chars(param),
                   [(Chars(param), Str(Chars(value) + PercentageSign))])
  {
    if IsNullOrEmpty(StringValue(value)) then Ok(NoneFilter())
    else
      assert EmptyString + value.value == value.value;
      TextFilter(column, LikeToken, param, value.value, false, true, false)
  }

  function EndsWith(column: StringRef, param: StringRef, value: StringRef): (r: Result<Filter, Error>)
    ensures Builds(r, IsNullOrEmpty(StringValue(value)), [(column, "columnName"), (param, "paramName")],
                   LowerToken + LeftParenthesis + Chars(column) + RightParenthesis + LikeToken + Prefix + Chars(param),
                   [(Chars(param), Str(PercentageSign + ToLowerCase(Chars(value))))])
  {
    if IsNullOrEmpty(StringValue(value)) then Ok(NoneFilter())
    else
      assert PercentageSign + ToLowerCase(value.value) + EmptyString == PercentageSign + ToLowerCase(value.value);
      TextFilter(column, LikeToken, param, value.value, true, false, true)
  }

  function EndsWithCaseSensitive(column: StringRef, param: StringRef, value: StringRef): (r: Result<Filter, Error>)
    ensures Builds(r, IsNullOrEmpty(StringValue(value)), [(column, "columnName"), (param, "paramName")],
                   Chars(column) + LikeToken + Prefix + Chars(param),
                   [(Chars(param), Str(PercentageSign + Chars(value)))])
  {
    if IsNullOrEmpty(StringValue(value)) then Ok(NoneFilter())
    else
      assert PercentageSign + value.value + EmptyString == PercentageSign + value.value;
      TextFilter(column, LikeToken, param, value.value, true, false, false)
  }

  // ----- Null checks and ranges -----

  /** `isNull`: the column name is checked first; the flag alone decides whether the
      filter applies; it appends `column IS NULL ` (with a trailing space) and binds
      nothing. */
  function IsNull(column: StringRef, apply: bool): (r: Result<Filter, Error>)
    ensures BuildsNamesFirst(r, [(column, "columnName")], !apply, Chars(column) + IsNullToken, [])
  {
    FirstMissingOfOne((column, "columnName"));
    match Required(column, "columnName")
    case Failure(e) => Failure(e)
    case Ok(c) =>
      if apply then
        LeafApplies(NullCheck(c, IsNullToken));
        Ok(NullCheck(c, IsNullToken))
      else Ok(NoneFilter())
  }

  /** `isNotNull`: as `IsNull`, appending `column IS NOT NULL `. */
  function IsNotNull(column: StringRef, apply: bool): (r: Result<Filter, Error>)
    ensures BuildsNamesFirst(r, [(column, "columnName")], !apply, Chars(column) + IsNotNullToken, [])
  {
    FirstMissingOfOne((column, "columnName"));
    match Required(column, "columnName")
    case Failure(e) => Failure(e)
    case Ok(c) =>
      if apply then
        LeafApplies(NullCheck(c, IsNotNullToken));
        Ok(NullCheck(c, IsNotNullToken))
      else Ok(NoneFilter())
  }

  /** `between`: no-op when either bound is absent. */
  function Between(column: StringRef, leftParam: StringRef, rightParam: StringRef,
                   leftValue: Value, rightValue: Value): (r: Result<Filter, Error>)
    ensures Builds(r, IsNullOrEmpty(leftValue) || IsNullOrEmpty(rightValue),
                   [(column, "columnName"), (leftParam, "leftParamName"), (rightParam, "rightParamName")],
                   Chars(column) + BetweenToken + Prefix + Chars(leftParam) + AndToken + Prefix + Chars(rightParam),
                   [(Chars(leftParam), leftValue), (Chars(rightParam), rightValue)])
  {
    if IsNullOrEmpty(leftValue) || IsNullOrEmpty(rightValue) then Ok(NoneFilter())
    else PairFilter(column, BetweenToken, leftParam, rightParam, leftValue, rightValue)
  }

  function NotBetween(column: StringRef, leftParam: StringRef, rightParam: StringRef,
                      leftValue: Value, rightValue: Value): (r: Result<Filter, Error>)
    ensures Builds(r, IsNullOrEmpty(leftValue) || IsNullOrEmpty(rightValue),
                   [(column, "columnName"), (leftParam, "leftParamName"), (rightParam, "rightParamName")],
                   Chars(column) + NotBetweenToken + Prefix + Chars(leftParam) + AndToken + Prefix + Chars(rightParam),
                   [(Chars(leftParam), leftValue), (Chars(rightParam), rightValue)])
  {
    if IsNullOrEmpty(leftValue) || IsNullOrEmpty(rightValue) then Ok(NoneFilter())
    else PairFilter(column, NotBetweenToken, leftParam, rightParam, leftValue, rightValue)
  }

  // ----- Logical composites -----

  /** `and(Filter...)`: applies iff some filter applies; renders the applying filters'
      pieces joined by ` AND ` and performs their puts in order; no filters give `none()`. */
  function And(filters: seq<Filter>): (r: Filter)
    ensures |filters| == 0 ==> r == NoOp
    ensures |filters| > 0 ==> r == Logical(AndToken, filters)
    ensures CanApply(r) <==> exists i | 0 <= i < |filters| :: CanApply(filters[i])
    ensures Render(r) == Join(" AND ", Pieces(Applying(filters)))
    ensures Writes(r) == ConcatWrites(Applying(filters))
  {
    RenderChildrenIsJoin(AndToken, filters, false);
    WritesChildrenIsConcat(filters);
    if |filters| == 0 then NoneFilter() else Logical(AndToken, filters)
  }

  /** `or(Filter...)`: as `And`, joined by ` OR `. */
  function Or(filters: seq<Filter>): (r: Filter)
    ensures |filters| == 0 ==> r == NoOp
    ensures |filters| > 0 ==> r == Logical(OrToken, filters)
    ensures CanApply(r) <==> exists i | 0 <= i < |filters| :: CanApply(filters[i])
    ensures Render(r) == Join(" OR ", Pieces(Applying(filters)))
    ensures Writes(r) == ConcatWrites(Applying(filters))
  {
    RenderChildrenIsJoin(OrToken, filters, false);
    WritesChildrenIsConcat(filters);
    if |filters| == 0 then NoneFilter() else Logical(OrToken, filters)
  }

  /** `and(Collection)`: a null or empty collection gives `none()`; otherwise the same
      filter as the array overload. */
  function AndCollection(filters: Option<seq<Filter>>): (r: Filter)
    ensures filters.None? ==> r == NoOp
    ensures filters.Some? ==> r == And(filters.value)
  {
    if filters.None? || |filters.value| == 0 then NoneFilter() else Logical(AndToken, filters.value)
  }

  /** `or(Collection)`: as `AndCollection`, for `Or`. */
  function OrCollection(filters: Option<seq<Filter>>): (r: Filter)
    ensures filters.None? ==> r == NoOp
    ensures filters.Some? ==> r == Or(filters.value)
  {
    if filters.None? || |filters.value| == 0 then NoneFilter() else Logical(OrToken, filters.value)
  }

  // ----- Raw text, bare parameters, nothing -----

  /** `parameter`: the name is checked first; binds the value and appends nothing. */
  function Parameter(param: StringRef, value: Value): (r: Result<Filter, Error>)
    ensures BuildsNamesFirst(r, [(param, "paramName")], IsNullOrEmpty(value), "", [(Chars(param), value)])
  {
    FirstMissingOfOne((param, "paramName"));
    match Required(param, "paramName")
    case Failure(e) => Failure(e)
    case Ok(p) =>
      if IsNullOrEmpty(value) then Ok(NoneFilter())
      else
        LeafApplies(Param(p, value));
        Ok(Param(p, value))
  }

  /** `literal`: the literal and the name are checked first; appends the literal
      verbatim and binds the value. */
  function LiteralFilter(literal: StringRef, param: StringRef, value: Value): (r: Result<Filter, Error>)
    ensures BuildsNamesFirst(r, [(literal, "literal"), (param, "paramName")], IsNullOrEmpty(value),
                             Chars(literal), [(Chars(param), value)])
  {
    FirstMissingOfTwo((literal, "literal"), (param, "paramName"));
    match (Required(literal, "literal"), Required(param, "paramName"))
    case (Failure(e), _) => Failure(e)
    case (Ok(_), Failure(e)) => Failure(e)
    case (Ok(l), Ok(p)) =>
      if IsNullOrEmpty(value) then Ok(NoneFilter())
      else
        LeafApplies(Literal(l, p, value));
        Ok(Literal(l, p, value))
  }

  /** `none()`: never applies, appends nothing, puts nothing. */
  function NoneFilter(): (r: Filter)
    ensures !CanApply(r) && Render(r) == "" && Writes(r) == []
  {
    NoOp
  }

  // ----- canApply and apply, as the filters run them -----

  /** A filter's `canApply()`. */
  method CanApplyOf(f: Filter) returns (b: bool)
    ensures b == CanApply(f)
    decreases f, 1
  {
    match f
    case NoOp => b := false;
    case Logical(_, children) => b := LogicalCanApply(children);
    case _ => b := true;
  }

  /** `Logical.canApply()`: the children in order, stopping at the first that applies. */
  method LogicalCanApply(children: seq<Filter>) returns (b: bool)
    ensures b <==> exists i | 0 <= i < |children| :: CanApply(children[i])
    decreases children, 0
  {
    for i := 0 to |children|
      invariant forall j | 0 <= j < i :: !CanApply(children[j])
    {
      var applies := CanApplyOf(children[i]);
      if applies {
        return true;
      }
    }
    return false;
  }

  /** A filter's `apply(query, parameters)`: appends its text to the query and performs
      its puts on the parameter map, in place. */
  method Apply(f: Filter, query: StringBuilder, parameters: ParameterMap)
    modifies query, parameters
    ensures query.text == old(query.text) + Render(f)
    ensures parameters.entries == Store(old(parameters.entries), Writes(f))
    decreases f, 1
  {
    match f
    case NoOp =>
    case Single(column, op, param, value) => ApplySingle(column, op, param, value, query, parameters);
    case Text(column, op, param, pattern, left, right, ignoreCase) =>
      ApplyText(column, op, param, pattern, left, right, ignoreCase, query, parameters);
    case Pair(column, op, leftParam, rightParam, leftValue, rightValue) =>
      ApplyPair(column, op, leftParam, rightParam, leftValue, rightValue, query, parameters);
    case NullCheck(column, token) =>
      query.Append(column);
      query.Append(token);
    case Literal(literal, param, value) =>
      query.Append(literal);
      parameters.Put(param, value);
    case Param(param, value) =>
      parameters.Put(param, value);
    case Logical(op, children) =>
      ApplyLogical(op, children, query, parameters);
  }

  /** The filter `single` returns: `column op :param`, then one put. */
  method ApplySingle(column: string, op: string, param: string, value: Value,
                     query: StringBuilder, parameters: ParameterMap)
    modifies query, parameters
    ensures query.text == old(query.text) + Render(Single(column, op, param, value))
    ensures parameters.entries == Store(old(parameters.entries), Writes(Single(column, op, param, value)))
  {
    query.Append(column);
    query.Append(op);
    query.Append(Prefix);
    query.Append(param);
    parameters.Put(param, value);
  }

  /** The filter `text` returns: `[LOWER(]column[)] op :param`, then one put of the
      prepared pattern. */
  method ApplyText(column: string, op: string, param: string, pattern: string,
                   left: bool, right: bool, ignoreCase: bool,
                   query: StringBuilder, parameters: ParameterMap)
    modifies query, parameters
    ensures query.text == old(query.text) + Render(Text(column, op, param, pattern, left, right, ignoreCase))
    ensures parameters.entries
         == Store(old(parameters.entries), Writes(Text(column, op, param, pattern, left, right, ignoreCase)))
  {
    ghost var start := query.text;
    ghost var target := if ignoreCase then LowerToken + LeftParenthesis + column + RightParenthesis else column;
    if ignoreCase {
      query.Append(LowerToken);
      query.Append(LeftParenthesis);
    }
    query.Append(column);
    if ignoreCase {
      query.Append(RightParenthesis);
    }
    assert query.text == start + target;
    query.Append(op);
    query.Append(Prefix);
    query.Append(param);
    assert query.text == start + (target + op + Prefix + param);
    var prepared := Prepared(pattern, left, right, ignoreCase);
    parameters.Put(param, Str(prepared));
    LeafApplies(Text(column, op, param, pattern, left, right, ignoreCase));
  }

  /** The filter `pair` returns: `column op :leftParam AND :rightParam`, then two puts. */
  method ApplyPair(column: string, op: string, leftParam: string, rightParam: string,
                   leftValue: Value, rightValue: Value,
                   query: StringBuilder, parameters: ParameterMap)
    modifies query, parameters
    ensures query.text
         == old(query.text) + Render(Pair(column, op, leftParam, rightParam, leftValue, rightValue))
    ensures parameters.entries
         == Store(old(parameters.entries), Writes(Pair(column, op, leftParam, rightParam, leftValue, rightValue)))
  {
    query.Append(column);
    query.Append(op);
    query.Append(Prefix);
    query.Append(leftParam);
    query.Append(AndToken);
    query.Append(Prefix);
    query.Append(rightParam);
    parameters.Put(leftParam, leftValue);
    parameters.Put(rightParam, rightValue);
    StoreAppend(old(parameters.entries), [(leftParam, leftValue)], [(rightParam, rightValue)]);
    LeafApplies(Pair(column, op, leftParam, rightParam, leftValue, rightValue));
  }

  /** `Logical.apply`: walks the children in order with a found-one flag; skips those
      that do not apply, appends the operator before every applying child but the first,
      and wraps nested logical filters in parentheses. */
  method ApplyLogical(op: string, children: seq<Filter>, query: StringBuilder, parameters: ParameterMap)
    modifies query, parameters
    ensures query.text == old(query.text) + RenderChildren(op, children, false)
    ensures parameters.entries == Store(old(parameters.entries), WritesChildren(children))
    decreases children, 0
  {
    var foundOne := false;
    for i := 0 to |children|
      invariant query.text + RenderChildren(op, children[i..], foundOne)
             == old(query.text) + RenderChildren(op, children, false)
      invariant Store(parameters.entries, WritesChildren(children[i..]))
             == Store(old(parameters.entries), WritesChildren(children))
    {
      ghost var text0, entries0, foundOne0 := query.text, parameters.entries, foundOne;
      var applies := CanApplyOf(children[i]);
      if applies {
        ApplyChild(op, children[i], foundOne, query, parameters);
        foundOne := true;
      }
      TextChildrenStep(op, children, i, foundOne0, text0, query.text);
      StoreChildrenStep(children, i, entries0, parameters.entries);
    }
    assert children[|children|..] == [];
  }

  /** One applying child of a logical filter: the operator first unless it is the first
      applying child, then the child, parenthesised when it is itself logical. */
  method ApplyChild(op: string, filter: Filter, foundOne: bool, query: StringBuilder, parameters: ParameterMap)
    modifies query, parameters
    ensures query.text == old(query.text) + (if foundOne then op else "") + Piece(filter)
    ensures parameters.entries == Store(old(parameters.entries), Writes(filter))
    decreases filter, 2
  {
    if foundOne {
      query.Append(op);
    }
    var parenthesis := filter.Logical?;
    if parenthesis {
      query.Append(LeftParenthesis);
    }
    Apply(filter, query, parameters);
    if parenthesis {
      query.Append(RightParenthesis);
    }
  }
}
