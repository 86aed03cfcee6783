/** A filterable query: a SELECT and a FROM clause, a filter, and optional trailing
    clauses. `Apply` assembles the statement text in a buffer, renders the filter into it
    and into a parameter map, hands the text to a query factory and then hands every
    binding of the map, one by one, to a parameter setter. */
module Filterables {
  import opened Wrappers
  import opened JavaLang
  import opened Filters
  import FilterFactory

  /** The WHERE keyword an implementation gets unless it overrides `where()`. */
  const DefaultWhere := " WHERE "

  /** What an implementation of the interface supplies: its own `select()`, `from()`
      and `filter()`, and `where()`, `groupBy()`, `having()` and `orderBy()`, which it
      may override. */
  datatype Filterable = Filterable(
    select: string,
    from: string,
    filter: Filter,
    where: string,
    groupBy: Option<string>,
    having: Option<string>,
    orderBy: Option<string>)

  /** An implementation that overrides only the three abstract methods: the WHERE
      keyword is the default one and there are no GROUP BY, HAVING or ORDER BY clauses. */
  function WithDefaults(select: string, from: string, filter: Filter): Filterable {
    Filterable(select, from, filter, DefaultWhere, None, None, None)
  }

  /** The text an optional clause contributes: the clause itself, or nothing. */
  function OrEmpty(clause: Option<string>): string {
    clause.GetOr("")
  }

  /** The statement handed to the query factory. */
  function StatementText(fa: Filterable): string {
    fa.select + fa.from
    + (if CanApply(fa.filter) then fa.where + Render(fa.filter) else "")
    + OrEmpty(fa.groupBy) + OrEmpty(fa.having) + OrEmpty(fa.orderBy)
  }

  /** The parameter map after the filter was rendered into a fresh one. */
  function StatementBindings(fa: Filterable): map<string, Value> {
    if CanApply(fa.filter) then Store(map[], Writes(fa.filter)) else map[]
  }

  /** The query object after the parameter setter was called with each of `calls`, in
      order, starting from `q`. The setter is modelled as returning the updated object. */
  function Replay<Q>(setter: (Q, string, Value) -> Q, q: Q, calls: seq<Binding>): Q
    decreases |calls|
  {
    if calls == [] then q
    else
      var last := calls[|calls| - 1];
      setter(Replay(setter, q, calls[..|calls| - 1]), last.0, last.1)
  }

  /** `calls` hands over every binding of `m` exactly once, in some order. */
  predicate Enumerates(calls: seq<Binding>, m: map<string, Value>) {
    (forall i | 0 <= i < |calls| :: calls[i].0 in m && m[calls[i].0] == calls[i].1)
    && (forall i, j | 0 <= i < j < |calls| :: calls[i].0 != calls[j].0)
    && (forall name | name in m :: exists i | 0 <= i < |calls| :: calls[i].0 == name)
  }

  /** `apply(qfi, psi)`: the statement is the SELECT and FROM clauses, then, only when
      the filter applies, the WHERE keyword and the filter's text, then the clauses that
      are present. The query object is created from that text, and the setter is called
      once per binding of the filter's parameter map. `create` and `setter` stand for the
      query factory and the parameter setter; `sent` is the text handed to `create` and
      `calls` the arguments handed to `setter`, in order. */
  method Apply<Q>(fa: Filterable, create: string -> Q, setter: (Q, string, Value) -> Q)
    returns (instance: Q, sent: string, calls: seq<Binding>)
    ensures sent == StatementText(fa)
    ensures Enumerates(calls, StatementBindings(fa))
    ensures instance == Replay(setter, create(sent), calls)
  {
    var bindings;
    sent, bindings := Assemble(fa);
    instance, calls := SetAll(create(sent), bindings, setter);
  }

  /** The first half of `apply`: the statement text in a fresh buffer and the filter's
      bindings in a fresh map. */
  method Assemble(fa: Filterable) returns (text: string, bindings: map<string, Value>)
    ensures text == StatementText(fa)
    ensures bindings == StatementBindings(fa)
  {
    var query := new StringBuilder();
    var parameters := new ParameterMap();
    query.Append(fa.select);
    query.Append(fa.from);
    var applies := FilterFactory.CanApplyOf(fa.filter);
    if applies {
      query.Append(fa.where);
      FilterFactory.Apply(fa.filter, query, parameters);
    }
    ghost var body := query.text;
    assert body == fa.select + fa.from + (if CanApply(fa.filter) then fa.where + Render(fa.filter) else "");
    assert parameters.entries == StatementBindings(fa);
    if fa.groupBy.Some? {
      query.Append(fa.groupBy.value);
    }
    assert query.text == body + OrEmpty(fa.groupBy);
    if fa.having.Some? {
      query.Append(fa.having.value);
    }
    assert query.text == body + OrEmpty(fa.groupBy) + OrEmpty(fa.having);
    if fa.orderBy.Some? {
      query.Append(fa.orderBy.value);
    }
    text, bindings := query.text, parameters.entries;
  }

  /** `parameters.forEach(...)`: the setter is called once per binding, starting from
      `q`. The map's iteration order is unspecified: any pending name may come next. */
  method SetAll<Q>(q: Q, bindings: map<string, Value>, setter: (Q, string, Value) -> Q)
    returns (instance: Q, calls: seq<Binding>)
    ensures Enumerates(calls, bindings)
    ensures instance == Replay(setter, q, calls)
  {
    instance := q;
    var pending := bindings.Keys;
    calls := [];
    while pending != {}
      invariant pending <= bindings.Keys
      invariant forall i | 0 <= i < |calls| ::
        calls[i].0 in bindings && calls[i].0 !in pending && bindings[calls[i].0] == calls[i].1
      invariant forall i, j | 0 <= i < j < |calls| :: calls[i].0 != calls[j].0
      invariant forall name | name in bindings && name !in pending ::
        exists i | 0 <= i < |calls| :: calls[i].0 == name
      invariant instance == Replay(setter, q, calls)
      decreases pending
    {
      var name :| name in pending;
      var value := bindings[name];
      ghost var before := calls;
      instance := setter(instance, name, value);
      calls := calls + [(name, value)];
      pending := pending - {name};
      assert calls[|before|].0 == name;
      assert forall i | 0 <= i < |before| :: calls[i] == before[i];
    }
  }

  // ----- What a statement is made of -----

  /** The bindings handed to the setter are the filter's puts on an empty map whether or
      not the filter applies (one that does not apply puts nothing): a name is bound iff
      the filter puts it, to the value of its last put. With no applying filter the map
      is empty. */
  lemma {:induction false} BindingsAreFilterPuts(fa: Filterable)
    ensures StatementBindings(fa) == Store(map[], Writes(fa.filter))
    ensures StatementBindings(fa).Keys == Names(Writes(fa.filter))
    ensures forall name | name in StatementBindings(fa) ::
      LastWrite(Writes(fa.filter), name) == Some(StatementBindings(fa)[name])
    ensures !CanApply(fa.filter) ==> StatementBindings(fa) == map[]
  {
    if !CanApply(fa.filter) {
      SilentWhenNotApplying(fa.filter);
    }
    StoreKeys(map[], Writes(fa.filter));
    forall name | name in StatementBindings(fa)
      ensures LastWrite(Writes(fa.filter), name) == Some(StatementBindings(fa)[name])
    {
      StoreLookup(map[], Writes(fa.filter), name);
    }
  }

  /** With the default clauses, the statement is the SELECT and FROM clauses, followed by
      ` WHERE ` and the filter's text exactly when the filter applies. */
  lemma DefaultStatement(select: string, from: string, filter: Filter)
    ensures CanApply(filter) ==>
      StatementText(WithDefaults(select, from, filter)) == select + from + DefaultWhere + Render(filter)
    ensures !CanApply(filter) ==>
      StatementText(WithDefaults(select, from, filter)) == select + from
  {
  }

  // ----- The setter calls -----

  /** Whatever order the map yields its bindings in, the setter receives the same calls:
      any two enumerations of a map are permutations of each other, one call per binding. */
  lemma EnumerationsAgree(m: map<string, Value>, calls1: seq<Binding>, calls2: seq<Binding>)
    requires Enumerates(calls1, m) && Enumerates(calls2, m)
    ensures multiset(calls1) == multiset(calls2)
    ensures |calls1| == |calls2| == |m|
  {
    EnumerationCounts(m, calls1);
    EnumerationCounts(m, calls2);
    assert multiset(calls1) == multiset(calls2) by {
      forall b: Binding ensures multiset(calls1)[b] == multiset(calls2)[b] {
      }
    }
    assert |calls1| == |calls2| == |m| by {
      assert |multiset(calls1)| == |calls1|;
    }
  }

  /** An enumeration of `m` holds each binding of `m` once and nothing else. */
  lemma EnumerationCounts(m: map<string, Value>, calls: seq<Binding>)
    requires Enumerates(calls, m)
    ensures forall b: Binding :: multiset(calls)[b] == if b.0 in m && m[b.0] == b.1 then 1 else 0
    ensures |calls| == |m|
  {
    DistinctCounts(calls);
    forall b: Binding ensures multiset(calls)[b] == if b.0 in m && m[b.0] == b.1 then 1 else 0 {
      if b.0 in m && m[b.0] == b.1 {
        var i :| 0 <= i < |calls| && calls[i].0 == b.0;
        assert calls[i] == b;
      }
    }
    assert Names(calls) == m.Keys;
    DistinctNamesCard(calls);
  }

  lemma {:induction false} DistinctCounts(calls: seq<Binding>)
    requires forall i, j | 0 <= i < j < |calls| :: calls[i].0 != calls[j].0
    ensures forall b: Binding :: multiset(calls)[b] == if b in calls then 1 else 0
  {
    if calls != [] {
      var init, last := calls[..|calls| - 1], calls[|calls| - 1];
      assert calls == init + [last];
      DistinctCounts(init);
      assert last !in init by {
        forall i | 0 <= i < |init| ensures init[i] != last {
          assert init[i].0 == calls[i].0 != calls[|calls| - 1].0;
        }
      }
    }
  }

  lemma {:induction false} DistinctNamesCard(calls: seq<Binding>)
    requires forall i, j | 0 <= i < j < |calls| :: calls[i].0 != calls[j].0
    ensures |Names(calls)| == |calls|
  {
    if calls != [] {
      var init, last := calls[..|calls| - 1], calls[|calls| - 1];
      DistinctNamesCard(init);
      NamesOfSnoc(init, last);
      assert calls == init + [last];
      assert last.0 !in Names(init) by {
        forall i | 0 <= i < |init| ensures init[i].0 != last.0 {
          assert init[i].0 == calls[i].0;
        }
      }
    }
  }

  lemma NamesOfSnoc(init: seq<Binding>, last: Binding)
    ensures Names(init + [last]) == Names(init) + {last.0}
  {
    var calls := init + [last];
    forall name | name in Names(calls) ensures name in Names(init) + {last.0} {
      var i :| 0 <= i < |calls| && calls[i].0 == name;
      if i < |init| { assert init[i].0 == name; }
    }
    forall name | name in Names(init) ensures name in Names(calls) {
      var i :| 0 <= i < |init| && init[i].0 == name;
      assert calls[i].0 == name;
    }
    assert calls[|init|].0 == last.0;
  }
}
