/** Concrete uses of the filter builder, taken from the repository's unit tests and from
    its example `PersonFilter`. */
module Scenarios {
  import opened Wrappers
  import opened JavaLang
  import opened Filters
  import opened FilterFactory
  import opened Filterables

  /** An equality filter on a supplied value renders `column = :param` and binds it. */
  lemma EqualOnIsbn()
    ensures var r := Equal(Some("book.isbn"), Some("isbn"), Str("978-3-16-148410-0"));
      r.Ok? && CanApply(r.value)
      && Render(r.value) == "book.isbn = :isbn"
      && Store(map[], Writes(r.value)) == map["isbn" := Str("978-3-16-148410-0")]
  {
    IsbnNames();
    FirstMissingOfTwo((Some("book.isbn"), "columnName"), (Some("isbn"), "paramName"));
    IsbnText();
    OnePut(("isbn", Str("978-3-16-148410-0")));
  }

  lemma IsbnNames()
    ensures Present(Some("book.isbn")) && Present(Some("isbn"))
  {
    assert "book.isbn"[0] > ' ';
    assert "isbn"[0] > ' ';
  }

  // Spells out the expected text; kept apart so the solver sees only string literals.
  lemma IsbnText()
    ensures "book.isbn" + EqualsToken + Prefix + "isbn" == "book.isbn = :isbn"
  {
  }

  lemma OnePut(b: Binding)
    ensures Store(map[], [b]) == map[b.0 := b.1]
  {
    assert [b][1..] == [];
  }

  /** The absence policy on the values the unit tests try: null and empty strings,
      collections and maps are absent; a number, a one-character string, a singleton
      collection or map, and a string of spaces are supplied. */
  lemma AbsenceExamples()
    ensures IsNullOrEmpty(Null) && IsNullOrEmpty(Str("")) && IsNullOrEmpty(Coll([])) && IsNullOrEmpty(MapV([]))
    ensures !IsNullOrEmpty(Int(1)) && !IsNullOrEmpty(Str("1")) && !IsNullOrEmpty(Coll([Int(1)]))
    ensures !IsNullOrEmpty(MapV([(Str("1"), Int(1))])) && !IsNullOrEmpty(Str(" "))
  {
  }

  /** An absent value gives the no-op filter even when the names are blank: the value is
      checked before the names. */
  lemma AbsentValueBeforeNames()
    ensures Equal(None, Some("  "), Null) == Ok(NoOp)
    ensures Like(Some(""), None, Some("")) == Ok(NoOp)
    ensures Between(None, None, None, Int(1), Null) == Ok(NoOp)
  {
  }

  /** `isNull` checks its column even when it is switched off. */
  lemma NullCheckNamesFirst()
    ensures IsNull(Some(" "), false) == Failure(MissingName("columnName must not be null or empty"))
    ensures IsNull(Some("book.isbn"), false) == Ok(NoOp)
  {
    FirstMissingOfOne((Some(" "), "columnName"));
    FirstMissingOfOne((Some("book.isbn"), "columnName"));
    BlankColumn();
    IsbnNames();
  }

  lemma BlankColumn()
    ensures !Present(Some(" "))
    ensures MissingMessage("columnName") == "columnName must not be null or empty"
  {
  }

  /** AND over three literals and a `none()`: the `none()` is skipped, the operator goes
      only between the applying literals, and every literal binds its name. */
  lemma AndOfLiterals()
    ensures LiteralFilter(Some("first"), Some("first"), Bool(true)) == Ok(Literal("first", "first", Bool(true)))
    ensures LiteralFilter(Some("second"), Some("second"), Bool(true)) == Ok(Literal("second", "second", Bool(true)))
    ensures LiteralFilter(Some("third"), Some("third"), Bool(true)) == Ok(Literal("third", "third", Bool(true)))
    ensures var f := And([Literal("first", "first", Bool(true)), NoneFilter(),
                          Literal("second", "second", Bool(true)), Literal("third", "third", Bool(true))]);
      CanApply(f)
      && Render(f) == "first" + (" AND " + "second" + (" AND " + "third"))
      && Store(map[], Writes(f)) == map["first" := Bool(true), "second" := Bool(true), "third" := Bool(true)]
  {
    LiteralNames();
    LiteralBuilt("first", Bool(true));
    LiteralBuilt("second", Bool(true));
    LiteralBuilt("third", Bool(true));
    AndOfThreeLiterals("first", "second", "third", Bool(true));
    ThreeTruePuts();
  }

  /** `and(x, none(), y, z)` over three literals that bind their own names. */
  lemma AndOfThreeLiterals(x: string, y: string, z: string, v: Value)
    ensures var f := And([Literal(x, x, v), NoneFilter(), Literal(y, y, v), Literal(z, z, v)]);
      CanApply(f)
      && Render(f) == x + (AndToken + y + (AndToken + z))
      && Writes(f) == [(x, v), (y, v), (z, v)]
  {
    var a, b, c := Literal(x, x, v), Literal(y, y, v), Literal(z, z, v);
    assert And([a, NoneFilter(), b, c]) == Logical(AndToken, [a, NoOp, b, c]);
    NoneSkipped(AndToken, a, b, c);
    assert Writes(a) + (Writes(b) + Writes(c)) == [(x, v), (y, v), (z, v)];
  }

  lemma ThreeTruePuts()
    ensures Store(map[], [("first", Bool(true)), ("second", Bool(true)), ("third", Bool(true))])
         == map["first" := Bool(true), "second" := Bool(true), "third" := Bool(true)]
  {
    var writes := [("first", Bool(true)), ("second", Bool(true)), ("third", Bool(true))];
    assert Store(map[], writes) == Store(map["first" := Bool(true)], writes[1..]);
    assert writes[1..] == [("second", Bool(true)), ("third", Bool(true))];
    assert writes[1..][1..] == [("third", Bool(true))];
  }

  lemma LiteralNames()
    ensures Present(Some("first")) && Present(Some("second")) && Present(Some("third"))
  {
    assert "first"[0] > ' ';
    assert "second"[0] > ' ';
    assert "third"[0] > ' ';
  }

  /** `literal(name, name, value)` with a present name and a supplied value. */
  lemma LiteralBuilt(name: string, value: Value)
    requires Present(Some(name)) && !IsNullOrEmpty(value)
    ensures LiteralFilter(Some(name), Some(name), value) == Ok(Literal(name, name, value))
  {
    FirstMissingOfTwo((Some(name), "literal"), (Some(name), "paramName"));
  }

  /** Nesting: `or(and(a, b), c)` over applying leaves renders `(a AND b) OR c`; only the
      nested composite is parenthesised, and the puts are those of a, b and c in order. */
  lemma NestedComposite(a: Filter, b: Filter, c: Filter)
    requires CanApply(a) && CanApply(b) && CanApply(c)
    requires !a.Logical? && !b.Logical? && !c.Logical?
    ensures var f := Or([And([a, b]), c]);
      CanApply(f)
      && Render(f) == LeftParenthesis + Render(a) + AndToken + Render(b) + RightParenthesis + OrToken + Render(c)
      && Writes(f) == Writes(a) + Writes(b) + Writes(c)
  {
    assert And([a, b]) == Logical(AndToken, [a, b]);
    assert Or([Logical(AndToken, [a, b]), c]) == Logical(OrToken, [Logical(AndToken, [a, b]), c]);
    NestedLogical(a, b, c);
  }

  lemma NestedLogical(a: Filter, b: Filter, c: Filter)
    requires CanApply(a) && CanApply(b) && CanApply(c)
    requires !a.Logical? && !b.Logical? && !c.Logical?
    ensures var f := Logical(OrToken, [Logical(AndToken, [a, b]), c]);
      CanApply(f)
      && Render(f) == LeftParenthesis + Render(a) + AndToken + Render(b) + RightParenthesis + OrToken + Render(c)
      && Writes(f) == Writes(a) + Writes(b) + Writes(c)
  {
    var inner := Logical(AndToken, [a, b]);
    assert CanApply(inner) by { assert CanApply([a, b][0]); }
    assert CanApply(Logical(OrToken, [inner, c])) by { assert CanApply([inner, c][0]); }
    NestedText(a, b, c);
    NestedPuts(a, b, c);
  }

  lemma NestedText(a: Filter, b: Filter, c: Filter)
    requires CanApply(a) && CanApply(b) && CanApply(c)
    requires !a.Logical? && !b.Logical? && !c.Logical?
    requires CanApply(Logical(AndToken, [a, b]))
    ensures Render(Logical(OrToken, [Logical(AndToken, [a, b]), c]))
         == LeftParenthesis + Render(a) + AndToken + Render(b) + RightParenthesis + OrToken + Render(c)
  {
    var inner := Logical(AndToken, [a, b]);
    InnerPiece(a, b);
    TwoApplying(OrToken, inner, c);
    Parenthesized(Render(a), AndToken, Render(b), OrToken, Render(c));
  }

  /** The inner conjunction of two applying leaves, as a piece of an outer logical filter. */
  lemma InnerPiece(a: Filter, b: Filter)
    requires CanApply(a) && CanApply(b)
    requires !a.Logical? && !b.Logical?
    ensures Piece(Logical(AndToken, [a, b])) == LeftParenthesis + (Render(a) + AndToken + Render(b)) + RightParenthesis
  {
    TwoApplying(AndToken, a, b);
  }

  // Regroups a concatenation; kept apart so the solver sees only strings.
  lemma Parenthesized(x: string, inner: string, y: string, outer: string, z: string)
    ensures LeftParenthesis + (x + inner + y) + RightParenthesis + outer + z
         == LeftParenthesis + x + inner + y + RightParenthesis + outer + z
  {
  }

  lemma NestedPuts(a: Filter, b: Filter, c: Filter)
    requires CanApply(a) && CanApply(b) && CanApply(c)
    requires CanApply(Logical(AndToken, [a, b]))
    ensures Writes(Logical(OrToken, [Logical(AndToken, [a, b]), c])) == Writes(a) + Writes(b) + Writes(c)
  {
    var inner := Logical(AndToken, [a, b]);
    TwoApplying(AndToken, a, b);
    TwoApplying(OrToken, inner, c);
  }

  /** A bare parameter applies but renders nothing, so it still counts as the first
      applying child: `and(parameter(...), g)` renders the operator before `g` with
      nothing in front of it, and as the whole filter it leaves the WHERE keyword
      followed by nothing. */
  lemma ParameterLeavesBareOperator(name: string, value: Value, g: Filter, select: string, from: string)
    requires CanApply(g) && !g.Logical?
    ensures Render(And([Param(name, value), g])) == AndToken + Render(g)
    ensures Writes(And([Param(name, value), g])) == [(name, value)] + Writes(g)
    ensures StatementText(WithDefaults(select, from, Param(name, value))) == select + from + DefaultWhere
  {
    var p := Param(name, value);
    TwoApplying(AndToken, p, g);
    assert Render(p) == "";
    DefaultStatement(select, from, p);
  }

  /** `and(parameter("active", true), equal("x", "x", 1))` renders ` AND x = :x`. */
  lemma ParameterThenEqual()
    ensures Render(And([Param("active", Bool(true)), Single("x", EqualsToken, "x", Int(1))])) == " AND x = :x"
  {
    var g := Single("x", EqualsToken, "x", Int(1));
    ParameterLeavesBareOperator("active", Bool(true), g, "", "");
    assert Render(g) == "x" + EqualsToken + Prefix + "x";
  }

  /** Two applying children: the first piece, the operator, the second piece. */
  lemma TwoApplying(op: string, x: Filter, y: Filter)
    requires CanApply(x) && CanApply(y)
    ensures RenderChildren(op, [x, y], false) == Piece(x) + op + Piece(y)
    ensures WritesChildren([x, y]) == Writes(x) + Writes(y)
  {
    assert [x, y][1..] == [y];
    assert [y][1..] == [];
    assert RenderChildren(op, [y], true) == op + Piece(y) + "";
    assert op + Piece(y) + "" == op + Piece(y);
    assert RenderChildren(op, [x, y], false) == "" + Piece(x) + RenderChildren(op, [y], true);
    assert "" + Piece(x) == Piece(x);
    assert WritesChildren([y]) == Writes(y) + [];
    assert Writes(y) + [] == Writes(y);
  }

  /** A `none()` among three applying leaves adds nothing: not even an operator. */
  lemma NoneSkipped(op: string, a: Filter, b: Filter, c: Filter)
    requires CanApply(a) && CanApply(b) && CanApply(c)
    requires !a.Logical? && !b.Logical? && !c.Logical?
    ensures var f := Logical(op, [a, NoOp, b, c]);
      CanApply(f)
      && Render(f) == Render(a) + (op + Render(b) + (op + Render(c)))
      && Writes(f) == Writes(a) + (Writes(b) + Writes(c))
  {
    NoneSkippedText(op, a, b, c);
    NoneSkippedPuts(a, b, c);
    assert CanApply([a, NoOp, b, c][0]);
  }

  lemma NoneSkippedText(op: string, a: Filter, b: Filter, c: Filter)
    requires CanApply(a) && CanApply(b) && CanApply(c)
    requires !a.Logical? && !b.Logical? && !c.Logical?
    ensures RenderChildren(op, [a, NoOp, b, c], false) == Render(a) + (op + Render(b) + (op + Render(c)))
  {
    assert [c][1..] == [];
    assert RenderChildren(op, [c], true) == op + Piece(c) + "";
    assert op + Piece(c) + "" == op + Piece(c);
    assert [b, c][1..] == [c];
    assert RenderChildren(op, [b, c], true) == op + Piece(b) + RenderChildren(op, [c], true);
    assert [NoOp, b, c][1..] == [b, c];
    assert RenderChildren(op, [NoOp, b, c], true) == RenderChildren(op, [b, c], true);
    assert [a, NoOp, b, c][1..] == [NoOp, b, c];
    assert RenderChildren(op, [a, NoOp, b, c], false) == "" + Piece(a) + RenderChildren(op, [NoOp, b, c], true);
    assert "" + Piece(a) == Piece(a);
  }

  lemma NoneSkippedPuts(a: Filter, b: Filter, c: Filter)
    requires CanApply(a) && CanApply(b) && CanApply(c)
    ensures WritesChildren([a, NoOp, b, c]) == Writes(a) + (Writes(b) + Writes(c))
  {
    assert [c][1..] == [];
    assert WritesChildren([c]) == Writes(c) + [];
    assert Writes(c) + [] == Writes(c);
    assert [b, c][1..] == [c];
    assert WritesChildren([b, c]) == Writes(b) + WritesChildren([c]);
    assert [NoOp, b, c][1..] == [b, c];
    assert WritesChildren([NoOp, b, c]) == [] + WritesChildren([b, c]);
    assert [] + WritesChildren([b, c]) == WritesChildren([b, c]);
    assert [a, NoOp, b, c][1..] == [NoOp, b, c];
    assert WritesChildren([a, NoOp, b, c]) == Writes(a) + WritesChildren([NoOp, b, c]);
  }

  /** The example `PersonFilter`: people by name, by age or by a date range, and by
      hobbies, ordered by name. `None` and `Null` stand for unset fields. */
  function PersonSearch(name: StringRef, age: Value, start: Value, end: Value,
                        hobbies: Option<seq<Value>>): Filterable
  {
    PersonQuery(PersonFilter(name, age, start, end, hobbies))
  }

  /** The clauses of the search around a given filter. */
  function PersonQuery(f: Filter): Filterable {
    Filterable("SELECT p ", "FROM Person p", f, DefaultWhere, None, None, Some(" ORDER BY p.name ASC"))
  }

  /** Its `filter()`. The column and parameter names are fixed and never missing, so
      every constructor succeeds. */
  function PersonFilter(name: StringRef, age: Value, start: Value, end: Value,
                        hobbies: Option<seq<Value>>): Filter
  {
    assert Present(Some("p.name")) by { assert "p.name"[0] > ' '; }
    assert Present(Some("name")) by { assert "name"[0] > ' '; }
    assert Present(Some("p.age")) by { assert "p.age"[0] > ' '; }
    assert Present(Some("age")) by { assert "age"[0] > ' '; }
    assert Present(Some("p.date")) by { assert "p.date"[0] > ' '; }
    assert Present(Some("start")) by { assert "start"[0] > ' '; }
    assert Present(Some("end")) by { assert "end"[0] > ' '; }
    assert Present(Some("p.hobbies")) by { assert "p.hobbies"[0] > ' '; }
    assert Present(Some("hobbies")) by { assert "hobbies"[0] > ' '; }
    FirstMissingOfTwo((Some("p.name"), "columnName"), (Some("name"), "paramName"));
    FirstMissingOfTwo((Some("p.age"), "columnName"), (Some("age"), "paramName"));
    FirstMissingOfThree((Some("p.date"), "columnName"), (Some("start"), "leftParamName"), (Some("end"), "rightParamName"));
    FirstMissingOfTwo((Some("start"), "leftParamName"), (Some("end"), "rightParamName"));
    FirstMissingOfTwo((Some("p.hobbies"), "columnName"), (Some("hobbies"), "paramName"));
    var byName := Like(Some("p.name"), Some("name"), name).value;
    var byAge := Greater(Some("p.age"), Some("age"), age).value;
    var byDate := Between(Some("p.date"), Some("start"), Some("end"), start, end).value;
    var byHobbies := In(Some("p.hobbies"), Some("hobbies"), hobbies).value;
    And([byName, Or([byAge, byDate]), byHobbies])
  }

  /** What each of the search's criteria becomes: the factory's filter for a supplied
      value, `none()` for an absent one. */
  lemma PersonFilterParts(name: StringRef, age: Value, start: Value, end: Value, hobbies: Option<seq<Value>>)
    ensures PersonFilter(name, age, start, end, hobbies)
         == And([ByName(name), Or([ByAge(age), ByDate(start, end)]), ByHobbies(hobbies)])
  {
    ByNameIsLike(name);
    ByAgeIsGreater(age);
    ByDateIsBetween(start, end);
    ByHobbiesIsIn(hobbies);
  }

  lemma ByNameIsLike(name: StringRef)
    ensures Like(Some("p.name"), Some("name"), name) == Ok(ByName(name))
  {
    assert Present(Some("p.name")) by { assert "p.name"[0] > ' '; }
    assert Present(Some("name")) by { assert "name"[0] > ' '; }
    FirstMissingOfTwo((Some("p.name"), "columnName"), (Some("name"), "paramName"));
  }

  lemma ByAgeIsGreater(age: Value)
    ensures Greater(Some("p.age"), Some("age"), age) == Ok(ByAge(age))
  {
    assert Present(Some("p.age")) by { assert "p.age"[0] > ' '; }
    assert Present(Some("age")) by { assert "age"[0] > ' '; }
    FirstMissingOfTwo((Some("p.age"), "columnName"), (Some("age"), "paramName"));
  }

  lemma ByDateIsBetween(start: Value, end: Value)
    ensures Between(Some("p.date"), Some("start"), Some("end"), start, end) == Ok(ByDate(start, end))
  {
    assert Present(Some("p.date")) by { assert "p.date"[0] > ' '; }
    assert Present(Some("start")) by { assert "start"[0] > ' '; }
    assert Present(Some("end")) by { assert "end"[0] > ' '; }
    FirstMissingOfThree((Some("p.date"), "columnName"), (Some("start"), "leftParamName"), (Some("end"), "rightParamName"));
    FirstMissingOfTwo((Some("start"), "leftParamName"), (Some("end"), "rightParamName"));
  }

  lemma ByHobbiesIsIn(hobbies: Option<seq<Value>>)
    ensures In(Some("p.hobbies"), Some("hobbies"), hobbies) == Ok(ByHobbies(hobbies))
  {
    assert Present(Some("p.hobbies")) by { assert "p.hobbies"[0] > ' '; }
    assert Present(Some("hobbies")) by { assert "hobbies"[0] > ' '; }
    FirstMissingOfTwo((Some("p.hobbies"), "columnName"), (Some("hobbies"), "paramName"));
  }

  // The filter each criterion yields, as the factory builds it.

  function ByName(name: StringRef): Filter {
    if IsNullOrEmpty(StringValue(name)) then NoOp else Text("p.name", LikeToken, "name", name.value, true, true, true)
  }

  function ByAge(age: Value): Filter {
    if IsNullOrEmpty(age) then NoOp else Single("p.age", GreaterToken, "age", age)
  }

  function ByDate(start: Value, end: Value): Filter {
    if IsNullOrEmpty(start) || IsNullOrEmpty(end) then NoOp else Pair("p.date", BetweenToken, "start", "end", start, end)
  }

  function ByHobbies(hobbies: Option<seq<Value>>): Filter {
    if IsNullOrEmpty(CollectionValue(hobbies)) then NoOp
    else Single("p.hobbies", InToken, "hobbies", CollectionValue(hobbies))
  }

  /** With no criterion supplied, the search has no WHERE clause and no parameters. */
  lemma PersonSearchWithoutCriteria(name: StringRef, age: Value, start: Value, end: Value,
                                    hobbies: Option<seq<Value>>)
    requires IsNullOrEmpty(StringValue(name)) && IsNullOrEmpty(age)
    requires IsNullOrEmpty(start) || IsNullOrEmpty(end)
    requires IsNullOrEmpty(CollectionValue(hobbies))
    ensures var fa := PersonSearch(name, age, start, end, hobbies);
      StatementText(fa) == "SELECT p " + "FROM Person p" + " ORDER BY p.name ASC"
      && StatementBindings(fa) == map[]
  {
    var f := PersonFilter(name, age, start, end, hobbies);
    PersonFilterParts(name, age, start, end, hobbies);
    NoCriterion(name, age, start, end, hobbies);
    PersonStatement(f);
    DropEmpty("SELECT p " + "FROM Person p", " ORDER BY p.name ASC");
  }

  lemma NoCriterion(name: StringRef, age: Value, start: Value, end: Value, hobbies: Option<seq<Value>>)
    requires IsNullOrEmpty(StringValue(name)) && IsNullOrEmpty(age)
    requires IsNullOrEmpty(start) || IsNullOrEmpty(end)
    requires IsNullOrEmpty(CollectionValue(hobbies))
    ensures !CanApply(And([ByName(name), Or([ByAge(age), ByDate(start, end)]), ByHobbies(hobbies)]))
  {
    var either := Or([ByAge(age), ByDate(start, end)]);
    assert !CanApply(either) by {
      assert either == Logical(OrToken, [NoOp, NoOp]);
      assert !CanApply([NoOp, NoOp][0]) && !CanApply([NoOp, NoOp][1]);
    }
    var fs := [NoOp, either, NoOp];
    assert !CanApply(fs[0]) && !CanApply(fs[1]) && !CanApply(fs[2]);
  }

  // Drops the empty optional clauses; kept apart so the solver sees only strings.
  lemma DropEmpty(head: string, tail: string)
    ensures head + "" + "" + "" + tail == head + tail
  {
    assert head + "" + "" + "" == head;
  }

  /** A name and some hobbies, without an age and without a complete date range: the
      age-or-date group is dropped entirely, and the name and hobbies conditions are
      joined by AND after the WHERE keyword; the name is bound as a lower-cased pattern
      with a wildcard on each side. */
  lemma PersonSearchByNameAndHobbies(name: string, age: Value, start: Value, end: Value, hobbies: seq<Value>)
    requires name != [] && hobbies != []
    requires IsNullOrEmpty(age) && (IsNullOrEmpty(start) || IsNullOrEmpty(end))
    ensures var fa := PersonSearch(Some(name), age, start, end, Some(hobbies));
      StatementText(fa)
        == "SELECT p " + "FROM Person p" + " WHERE " + "LOWER(p.name) LIKE :name" + " AND " + "p.hobbies IN :hobbies"
           + " ORDER BY p.name ASC"
      && StatementBindings(fa)
        == map["name" := Str("%" + ToLowerCase(name) + "%"), "hobbies" := Coll(hobbies)]
  {
    var f := PersonFilter(Some(name), age, start, end, Some(hobbies));
    PersonFilterParts(Some(name), age, start, end, Some(hobbies));
    NameAndHobbiesFilter(name, age, start, end, hobbies);
    NameCondition(name);
    HobbiesCondition(hobbies);
    PersonStatement(f);
    Regroup("SELECT p ", "FROM Person p", " WHERE ", "LOWER(p.name) LIKE :name", AndToken, "p.hobbies IN :hobbies",
            " ORDER BY p.name ASC");
    BindingsAreFilterPuts(PersonSearch(Some(name), age, start, end, Some(hobbies)));
    TwoPuts(("name", Str("%" + ToLowerCase(name) + "%")), ("hobbies", Coll(hobbies)));
  }

  /** The statement of the search for a given filter. */
  lemma PersonStatement(f: Filter)
    ensures StatementText(PersonQuery(f))
         == "SELECT p " + "FROM Person p" + (if CanApply(f) then " WHERE " + Render(f) else "") + "" + "" + " ORDER BY p.name ASC"
  {
  }

  // Regroups a concatenation; kept apart so the solver sees only strings.
  lemma Regroup(a: string, b: string, c: string, d: string, e: string, f: string, g: string)
    ensures a + b + (c + (d + e + f)) + "" + "" + g == a + b + c + d + e + f + g
  {
  }

  lemma TwoPuts(first: Binding, second: Binding)
    ensures Store(map[], [first] + [second]) == map[first.0 := first.1][second.0 := second.1]
  {
    var writes := [first] + [second];
    assert writes[0] == first && writes[1..] == [second];
    assert Store(map[], writes) == Store(map[first.0 := first.1], [second]);
    assert [second][0] == second && |[second][1..]| == 0;
    assert Store(map[first.0 := first.1], [second]) == Store(map[first.0 := first.1][second.0 := second.1], [second][1..]);
  }

  /** The filter of that search: the name condition and the hobbies condition. */
  lemma NameAndHobbiesFilter(name: string, age: Value, start: Value, end: Value, hobbies: seq<Value>)
    requires name != [] && hobbies != []
    requires IsNullOrEmpty(age) && (IsNullOrEmpty(start) || IsNullOrEmpty(end))
    ensures var f := And([ByName(Some(name)), Or([ByAge(age), ByDate(start, end)]), ByHobbies(Some(hobbies))]);
      CanApply(f)
      && Render(f) == Render(ByName(Some(name))) + AndToken + Render(ByHobbies(Some(hobbies)))
      && Writes(f) == Writes(ByName(Some(name))) + Writes(ByHobbies(Some(hobbies)))
  {
    var byName, byHobbies := ByName(Some(name)), ByHobbies(Some(hobbies));
    var either := Or([ByAge(age), ByDate(start, end)]);
    assert !CanApply(either) by {
      assert either == Logical(OrToken, [NoOp, NoOp]);
      assert !CanApply([NoOp, NoOp][0]) && !CanApply([NoOp, NoOp][1]);
    }
    MiddleChildSilent(AndToken, byName, either, byHobbies);
  }

  lemma NameCondition(name: string)
    requires name != []
    ensures Render(ByName(Some(name))) == "LOWER(p.name) LIKE :name"
    ensures Writes(ByName(Some(name))) == [("name", Str("%" + ToLowerCase(name) + "%"))]
  {
    NameText();
  }

  // Spells out the expected text; kept apart so the solver sees only string literals.
  lemma NameText()
    ensures LowerToken + LeftParenthesis + "p.name" + RightParenthesis + LikeToken + Prefix + "name"
         == "LOWER(p.name) LIKE :name"
  {
  }

  lemma HobbiesCondition(hobbies: seq<Value>)
    requires hobbies != []
    ensures Render(ByHobbies(Some(hobbies))) == "p.hobbies IN :hobbies"
    ensures Writes(ByHobbies(Some(hobbies))) == [("hobbies", Coll(hobbies))]
  {
  }

  /** A logical filter whose middle child of three does not apply renders and puts only
      the outer two, joined by the operator. */
  lemma MiddleChildSilent(op: string, first: Filter, middle: Filter, last: Filter)
    requires CanApply(first) && !CanApply(middle) && CanApply(last)
    requires !first.Logical? && !last.Logical?
    ensures var f := Logical(op, [first, middle, last]);
      CanApply(f)
      && Render(f) == Render(first) + op + Render(last)
      && Writes(f) == Writes(first) + Writes(last)
  {
    assert [first, middle, last][1..] == [middle, last];
    SilentThenLast(op, middle, last);
    assert RenderChildren(op, [first, middle, last], false)
        == "" + Piece(first) + RenderChildren(op, [middle, last], true);
    assert "" + Piece(first) == Piece(first);
    assert WritesChildren([first, middle, last]) == Writes(first) + WritesChildren([middle, last]);
  }

  lemma SilentThenLast(op: string, middle: Filter, last: Filter)
    requires !CanApply(middle) && CanApply(last)
    ensures RenderChildren(op, [middle, last], true) == op + Piece(last)
    ensures WritesChildren([middle, last]) == Writes(last)
  {
    assert [middle, last][1..] == [last];
    assert [last][1..] == [];
    assert WritesChildren([last]) == Writes(last) + [];
    assert Writes(last) + [] == Writes(last);
    assert RenderChildren(op, [last], true) == op + Piece(last) + "";
    assert op + Piece(last) + "" == op + Piece(last);
  }
}
