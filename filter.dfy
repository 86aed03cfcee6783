/** A filter: a piece of a SQL WHERE clause that may or may not apply and that, when
    applied, appends its text to the query and puts its parameter values into the
    parameter map. The factory's filters form a closed set of variants; this module
    fixes what each one means (`CanApply`, the text `Render` appends, the puts `Writes`
    performs, in order) and proves what every filter promises. */
module Filters {
  import opened Wrappers
  import opened JavaLang

  // SQL tokens, as the factory spells them.
  const EqualsToken := " = "
  const NotEqualsToken := " <> "
  const GreaterToken := " > "
  const GreaterOrEqualToken := " >= "
  const LessToken := " < "
  const LessOrEqualToken := " <= "
  const LikeToken := " LIKE "
  const NotLikeToken := " NOT LIKE "
  const InToken := " IN "
  const NotInToken := " NOT IN "
  const IsNullToken := " IS NULL "
  const IsNotNullToken := " IS NOT NULL "
  const BetweenToken := " BETWEEN "
  const NotBetweenToken := " NOT BETWEEN "
  const Prefix := ":"
  const AndToken := " AND "
  const OrToken := " OR "
  const LowerToken := "LOWER"
  const LeftParenthesis := "("
  const RightParenthesis := ")"
  const PercentageSign := "%"
  const EmptyString := ""

  /** Every kind of filter the factory builds. */
  datatype Filter =
    | NoOp                              // the factory's `None`: never applies
    | Single(column: string, op: string, param: string, value: Value)
    | Text(column: string, op: string, param: string, pattern: string,
           left: bool, right: bool, ignoreCase: bool)
    | Pair(column: string, op: string, leftParam: string, rightParam: string,
           leftValue: Value, rightValue: Value)
    | NullCheck(column: string, token: string)
    | Literal(literal: string, param: string, value: Value)
    | Param(param: string, value: Value)
    | Logical(op: string, children: seq<Filter>)

  /** `canApply()`: false for the no-op filter, true for every leaf (the interface's
      default), and for a logical filter true iff some child applies. */
  function CanApply(f: Filter): bool {
    match f
    case NoOp => false
    case Logical(_, children) => exists i | 0 <= i < |children| :: CanApply(children[i])
    case _ => true
  }

  /** The value a pattern filter binds: the pattern, lower-cased when the match ignores
      case, with a `%` wildcard on each requested side. */
  function Prepared(pattern: string, left: bool, right: bool, ignoreCase: bool): string {
    (if left then PercentageSign else EmptyString)
    + (if ignoreCase then ToLowerCase(pattern) else pattern)
    + (if right then PercentageSign else EmptyString)
  }

  /** The text `apply` appends to the query. */
  function Render(f: Filter): string
    decreases f, 1
  {
    match f
    case NoOp => ""
    case Single(column, op, param, _) => column + op + Prefix + param
    case Text(column, op, param, _, _, _, ignoreCase) =>
      (if ignoreCase then LowerToken + LeftParenthesis + column + RightParenthesis else column)
      + op + Prefix + param
    case Pair(column, op, leftParam, rightParam, _, _) =>
      column + op + Prefix + leftParam + AndToken + Prefix + rightParam
    case NullCheck(column, token) => column + token
    case Literal(literal, _, _) => literal
    case Param(_, _) => ""
    case Logical(op, children) => RenderChildren(op, children, false)
  }

  /** How a logical filter shows one applying child: nested logical filters are
      parenthesised, leaves are not. */
  function Piece(f: Filter): string
    decreases f, 2
  {
    if f.Logical? then LeftParenthesis + Render(f) + RightParenthesis else Render(f)
  }

  /** The text a logical filter appends for `children`, walking them in order: children
      that do not apply are skipped, and the operator goes before every applying child
      once one has been found. */
  function RenderChildren(op: string, children: seq<Filter>, foundOne: bool): string
    decreases children, 0
  {
    if children == [] then ""
    else if !CanApply(children[0]) then RenderChildren(op, children[1..], foundOne)
    else (if foundOne then op else "") + Piece(children[0]) + RenderChildren(op, children[1..], true)
  }

  /** The puts `apply` performs on the parameter map, in order. */
  function Writes(f: Filter): seq<Binding>
    decreases f, 1
  {
    match f
    case NoOp => []
    case Single(_, _, param, value) => [(param, value)]
    case Text(_, _, param, pattern, left, right, ignoreCase) =>
      [(param, Str(Prepared(pattern, left, right, ignoreCase)))]
    case Pair(_, _, leftParam, rightParam, leftValue, rightValue) =>
      [(leftParam, leftValue), (rightParam, rightValue)]
    case NullCheck(_, _) => []
    case Literal(_, param, value) => [(param, value)]
    case Param(param, value) => [(param, value)]
    case Logical(_, children) => WritesChildren(children)
  }

  /** The puts of the applying children, child after child. */
  function WritesChildren(children: seq<Filter>): seq<Binding>
    decreases children, 0
  {
    if children == [] then []
    else (if CanApply(children[0]) then Writes(children[0]) else []) + WritesChildren(children[1..])
  }

  /** One step of a logical filter's walk over its children, at position `i`. */
  lemma RenderChildrenStep(op: string, children: seq<Filter>, i: nat, foundOne: bool)
    requires i < |children|
    ensures RenderChildren(op, children[i..], foundOne)
         == if CanApply(children[i])
            then (if foundOne then op else "") + Piece(children[i]) + RenderChildren(op, children[i + 1..], true)
            else RenderChildren(op, children[i + 1..], foundOne)
    ensures WritesChildren(children[i..])
         == (if CanApply(children[i]) then Writes(children[i]) else []) + WritesChildren(children[i + 1..])
  {
    assert children[i..][1..] == children[i + 1..];
  }

  /** The same step for the parameter map: putting the child's writes (when it applies)
      and then the rest's is putting the writes of the whole remaining walk. */
  lemma StoreChildrenStep(children: seq<Filter>, i: nat, before: map<string, Value>, after: map<string, Value>)
    requires i < |children|
    requires after == Store(before, if CanApply(children[i]) then Writes(children[i]) else [])
    ensures Store(after, WritesChildren(children[i + 1..])) == Store(before, WritesChildren(children[i..]))
  {
    RenderChildrenStep("", children, i, false);
    StoreAppend(before, if CanApply(children[i]) then Writes(children[i]) else [], WritesChildren(children[i + 1..]));
  }

  /** The same step for the query text: appending the child's piece (when it applies)
      and then the rest's text is appending the text of the whole remaining walk. */
  lemma TextChildrenStep(op: string, children: seq<Filter>, i: nat, foundOne: bool, before: string, after: string)
    requires i < |children|
    requires after == if CanApply(children[i]) then before + (if foundOne then op else "") + Piece(children[i]) else before
    ensures after + RenderChildren(op, children[i + 1..], foundOne || CanApply(children[i]))
         == before + RenderChildren(op, children[i..], foundOne)
  {
    RenderChildrenStep(op, children, i, foundOne);
    if CanApply(children[i]) {
      Regrouped(before, if foundOne then op else "", Piece(children[i]), RenderChildren(op, children[i + 1..], true));
    }
  }

  // Regroups a concatenation; kept apart so the solver sees only strings.
  lemma Regrouped(before: string, sep: string, piece: string, rest: string)
    ensures before + sep + piece + rest == before + (sep + piece + rest)
  {
  }

  // ----- A reference description of a logical filter -----

  /** The children that apply, in their original order. */
  function Applying(children: seq<Filter>): (r: seq<Filter>)
    ensures |r| <= |children|
    ensures forall f :: f in r <==> f in children && CanApply(f)
  {
    if children == [] then []
    else if CanApply(children[0]) then [children[0]] + Applying(children[1..])
    else Applying(children[1..])
  }

  function Pieces(fs: seq<Filter>): (r: seq<string>)
    ensures |r| == |fs|
  {
    if fs == [] then [] else [Piece(fs[0])] + Pieces(fs[1..])
  }

  /** `parts` with `sep` between each two consecutive ones. */
  function Join(sep: string, parts: seq<string>): string {
    if parts == [] then ""
    else if |parts| == 1 then parts[0]
    else parts[0] + sep + Join(sep, parts[1..])
  }

  /** The puts of each filter, one filter after the other. */
  function ConcatWrites(fs: seq<Filter>): seq<Binding> {
    if fs == [] then [] else Writes(fs[0]) + ConcatWrites(fs[1..])
  }

  /** A logical filter's text is the pieces of its applying children, in order, with the
      operator exactly between consecutive ones (and once more in front when an earlier
      applying child was already rendered). */
  lemma {:induction false} RenderChildrenIsJoin(op: string, children: seq<Filter>, foundOne: bool)
    ensures RenderChildren(op, children, foundOne)
         == (if foundOne && Applying(children) != [] then op else "")
            + Join(op, Pieces(Applying(children)))
  {
    if children != [] {
      var rest := children[1..];
      if CanApply(children[0]) {
        RenderChildrenIsJoin(op, rest, true);
        var p, ps := Piece(children[0]), Pieces(Applying(rest));
        assert Pieces(Applying(children)) == [p] + ps;
        assert ps == [] <==> Applying(rest) == [];
        JoinCons(op, if foundOne then op else "", p, ps);
      } else {
        RenderChildrenIsJoin(op, rest, foundOne);
      }
    }
  }

  /** Joining one more part in front: the separator goes between it and the rest. */
  lemma JoinCons(op: string, sep: string, p: string, ps: seq<string>)
    ensures sep + p + ((if ps != [] then op else "") + Join(op, ps)) == sep + Join(op, [p] + ps)
  {
    if ps != [] {
      assert ([p] + ps)[1..] == ps;
      assert sep + p + (op + Join(op, ps)) == sep + (p + op + Join(op, ps));
    }
  }

  /** A logical filter puts exactly what its applying children put, child after child. */
  lemma {:induction false} WritesChildrenIsConcat(children: seq<Filter>)
    ensures WritesChildren(children) == ConcatWrites(Applying(children))
  {
    if children != [] {
      WritesChildrenIsConcat(children[1..]);
      if CanApply(children[0]) {
        assert ([children[0]] + Applying(children[1..]))[1..] == Applying(children[1..]);
      }
    }
  }

  /** A filter that does not apply appends no text and puts nothing. */
  lemma {:induction false} SilentWhenNotApplying(f: Filter)
    requires !CanApply(f)
    ensures Render(f) == "" && Writes(f) == []
  {
    if f.Logical? {
      SkipsSilentChildren(f.op, f.children);
    }
  }

  lemma {:induction false} SkipsSilentChildren(op: string, children: seq<Filter>)
    requires forall i | 0 <= i < |children| :: !CanApply(children[i])
    ensures forall b: bool :: RenderChildren(op, children, b) == ""
    ensures WritesChildren(children) == []
  {
    if children != [] {
      SkipsSilentChildren(op, children[1..]);
    }
  }

  /** Where a pattern filter's wildcards and case folding go: into the bound value only.
      The rendered text does not depend on the pattern or the wildcard flags; the bound
      value starts with `%` when a left wildcard is asked for, ends with one when a right
      wildcard is, and between them holds the pattern, lower-cased iff case is ignored. */
  lemma PatternOnlyInBinding(f: Filter, pattern: string, left: bool, right: bool)
    requires f.Text?
    ensures Render(f.(pattern := pattern, left := left, right := right)) == Render(f)
    ensures var v := Prepared(f.pattern, f.left, f.right, f.ignoreCase);
            |v| == |f.pattern| + (if f.left then 1 else 0) + (if f.right then 1 else 0)
            && (f.left ==> v[0] == '%') && (f.right ==> v[|v| - 1] == '%')
    ensures var v := Prepared(f.pattern, f.left, f.right, f.ignoreCase);
            v[(if f.left then 1 else 0)..|v| - (if f.right then 1 else 0)]
            == if f.ignoreCase then ToLowerCase(f.pattern) else f.pattern
  {
  }
}
