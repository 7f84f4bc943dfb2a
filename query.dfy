/**
 * The filter-to-query compiler of the audience builder: an ordered list of
 * filter rules is folded, left to right, into one Mongo-style query document.
 *
 * Query documents are modelled as a tree:
 *   MatchAll               the empty document `{}`
 *   Equals(f, v)           `{ f: v }`
 *   Compare(f, op, v)      `{ f: { $gt | $lt | $gte | $lte | $ne : v } }`
 *   And(cs) / Or(cs)       `{ $and: cs }` / `{ $or: cs }`
 */
module QueryCompiler {

  datatype Option<T> = None | Some(value: T)

  /** A JSON scalar as it can appear as the `value` of a filter rule. */
  datatype Scalar = Num(n: int) | Text(s: string) | Flag(b: bool) | Null

  /** One filter rule as posted by the client. An absent `logic` is any string other than "AND" and "OR". */
  datatype Filter = Filter(field: string, operator: string, value: Scalar, logic: string)

  datatype Comparator = Gt | Lt | Gte | Lte | Ne

  datatype Query =
    | MatchAll
    | Equals(field: string, value: Scalar)
    | Compare(field: string, cmp: Comparator, value: Scalar)
    | And(children: seq<Query>)
    | Or(children: seq<Query>)

  const AND := "AND"
  const OR := "OR"

  /** The six operator names the compiler recognises. */
  const Operators: set<string> :=
    {"greater_then", "less_then", "greater_then_or_equal_to", "less_then_or_equal_to", "equal_to", "not_equal_to"}

  /** A leaf of a query tree: anything but a combinator. */
  predicate IsCondition(q: Query) {
    !q.And? && !q.Or?
  }

  /** The condition document built for one rule; an unrecognised operator leaves it empty. */
  function Condition(f: Filter): (c: Query)
    ensures IsCondition(c)
    ensures c == MatchAll <==> f.operator !in Operators
  {
    match f.operator
    case "greater_then" => Compare(f.field, Gt, f.value)
    case "less_then" => Compare(f.field, Lt, f.value)
    case "greater_then_or_equal_to" => Compare(f.field, Gte, f.value)
    case "less_then_or_equal_to" => Compare(f.field, Lte, f.value)
    case "equal_to" => Equals(f.field, f.value)
    case "not_equal_to" => Compare(f.field, Ne, f.value)
    case _ => MatchAll
  }

  /** Reads a condition document back as the (field, operator, value) triple that produces it. */
  function Decompile(c: Query): (r: Option<(string, string, Scalar)>)
    ensures r.Some? ==> r.value.1 in Operators
    ensures r.None? <==> !(c.Equals? || c.Compare?)
  {
    match c
    case Equals(f, v) => Some((f, "equal_to", v))
    case Compare(f, Gt, v) => Some((f, "greater_then", v))
    case Compare(f, Lt, v) => Some((f, "less_then", v))
    case Compare(f, Gte, v) => Some((f, "greater_then_or_equal_to", v))
    case Compare(f, Lte, v) => Some((f, "less_then_or_equal_to", v))
    case Compare(f, Ne, v) => Some((f, "not_equal_to", v))
    case _ => None
  }

  /** One step of the fold: join the query built so far with the next rule's condition. */
  function Combine(q: Query, f: Filter): Query {
    if f.logic == AND then And((if q.And? then q.children else [q]) + [Condition(f)])
    else if f.logic == OR then Or((if q.Or? then q.children else [q]) + [Condition(f)])
    else q
  }

  /**
   * The shape every compiled query has: a combinator has at least two children,
   * every child but the first is a condition, and the first child is a condition
   * or a combinator of the OTHER kind (runs of one logic are flattened).
   */
  predicate LeftSpine(q: Query) {
    match q
    case And(cs) =>
      |cs| >= 2 && (forall i :: 1 <= i < |cs| ==> IsCondition(cs[i])) && !cs[0].And? && LeftSpine(cs[0])
    case Or(cs) =>
      |cs| >= 2 && (forall i :: 1 <= i < |cs| ==> IsCondition(cs[i])) && !cs[0].Or? && LeftSpine(cs[0])
    case _ => true
  }

  /** buildQuery: the left fold of Combine over the rules, starting from the first rule's condition. */
  function BuildQuery(filters: seq<Filter>): (r: Query)
    ensures LeftSpine(r)
    decreases |filters|
  {
    if |filters| == 0 then MatchAll
    else if |filters| == 1 then Condition(filters[0])
    else Combine(BuildQuery(filters[..|filters| - 1]), filters[|filters| - 1])
  }

  /** The conditions of a left-spine query, from left to right. */
  function Leaves(q: Query): seq<Query> {
    match q
    case And(cs) => if |cs| == 0 then [] else Leaves(cs[0]) + cs[1..]
    case Or(cs) => if |cs| == 0 then [] else Leaves(cs[0]) + cs[1..]
    case _ => [q]
  }

  /** The conditions of the rules the compiler keeps: the first, and every later one joined by AND or OR. */
  function KeptConditions(filters: seq<Filter>): seq<Query>
    decreases |filters|
  {
    if |filters| == 0 then []
    else if |filters| == 1 then [Condition(filters[0])]
    else
      var last := filters[|filters| - 1];
      KeptConditions(filters[..|filters| - 1]) + (if last.logic == AND || last.logic == OR then [Condition(last)] else [])
  }

  /**
   * The meaning of a query for one record, given the meaning `leaf` of its
   * conditions: `$and` is conjunction, `$or` disjunction, `{}` matches everything.
   */
  function Eval(q: Query, leaf: Query -> bool): bool {
    match q
    case MatchAll => true
    case And(cs) => forall i :: 0 <= i < |cs| ==> Eval(cs[i], leaf)
    case Or(cs) => exists i :: 0 <= i < |cs| && Eval(cs[i], leaf)
    case _ => leaf(q)
  }

  /**
   * Reference meaning of a rule list, independent of the tree: the boolean
   * left fold `((c0 op1 c1) op2 c2) ...`, where a rule with another logic is skipped.
   */
  function FoldEval(filters: seq<Filter>, leaf: Query -> bool): bool
    decreases |filters|
  {
    if |filters| == 0 then true
    else if |filters| == 1 then Eval(Condition(filters[0]), leaf)
    else
      var prior := FoldEval(filters[..|filters| - 1], leaf);
      var last := filters[|filters| - 1];
      if last.logic == AND then prior && Eval(Condition(last), leaf)
      else if last.logic == OR then prior || Eval(Condition(last), leaf)
      else prior
  }

  // ---------------------------------------------------------------------------
  // Lemmas
  // ---------------------------------------------------------------------------

  /** The operator mapping is invertible on the six known operators; any other operator gives `{}`. */
  lemma ConditionRoundTrip(f: Filter)
    ensures f.operator in Operators ==> Decompile(Condition(f)) == Some((f.field, f.operator, f.value))
    ensures f.operator !in Operators ==> Condition(f) == MatchAll && Decompile(Condition(f)) == None
  {
  }

  /** No rules compile to `{}`; one rule compiles to its own condition, whatever its logic says. */
  lemma EmptyAndSingle(f: Filter)
    ensures BuildQuery([]) == MatchAll
    ensures BuildQuery([f]) == Condition(f) && IsCondition(BuildQuery([f]))
  {
  }

  /** The logic of the first rule never matters. */
  lemma {:induction false} FirstLogicIgnored(filters: seq<Filter>, logic: string)
    requires |filters| >= 1
    ensures BuildQuery(filters[0 := filters[0].(logic := logic)]) == BuildQuery(filters)
    decreases |filters|
  {
    var g := filters[0 := filters[0].(logic := logic)];
    if |filters| > 1 {
      var n := |filters|;
      assert g[..n - 1] == filters[..n - 1][0 := filters[0].(logic := logic)];
      FirstLogicIgnored(filters[..n - 1], logic);
      assert g[n - 1] == filters[n - 1];
    }
  }

  /** Appending a rule is one Combine step on the query compiled so far. */
  lemma AppendStep(filters: seq<Filter>, f: Filter)
    requires |filters| >= 1
    ensures BuildQuery(filters + [f]) == Combine(BuildQuery(filters), f)
  {
  }

  /** A later rule whose logic is neither AND nor OR is dropped: the query is unchanged. */
  lemma UnknownLogicDropped(filters: seq<Filter>, f: Filter)
    requires |filters| >= 1
    requires f.logic != AND && f.logic != OR
    ensures BuildQuery(filters + [f]) == BuildQuery(filters)
  {
  }

  /** A switch of logic wraps the whole prior query as the first child of a new two-child combinator. */
  lemma SwitchWraps(filters: seq<Filter>, f: Filter)
    requires |filters| >= 1
    ensures f.logic == AND && !BuildQuery(filters).And? ==>
      BuildQuery(filters + [f]) == And([BuildQuery(filters), Condition(f)])
    ensures f.logic == OR && !BuildQuery(filters).Or? ==>
      BuildQuery(filters + [f]) == Or([BuildQuery(filters), Condition(f)])
  {
    var q := BuildQuery(filters);
    AppendStep(filters, f);
    assert [q] + [Condition(f)] == [q, Condition(f)];
  }

  /** Staying with the same logic appends the new condition to the existing combinator's children. */
  lemma SameLogicExtends(filters: seq<Filter>, f: Filter)
    requires |filters| >= 1
    ensures f.logic == AND && BuildQuery(filters).And? ==>
      BuildQuery(filters + [f]) == And(BuildQuery(filters).children + [Condition(f)])
    ensures f.logic == OR && BuildQuery(filters).Or? ==>
      BuildQuery(filters + [f]) == Or(BuildQuery(filters).children + [Condition(f)])
  {
  }

  /** The worked example `[A, B(AND), C(OR)]` compiles to `{$or: [{$and: [A, B]}, C]}`. */
  lemma MixedLogicExample(a: Filter, b: Filter, c: Filter)
    requires b.logic == AND && c.logic == OR
    ensures BuildQuery([a, b, c]) == Or([And([Condition(a), Condition(b)]), Condition(c)])
  {
    AppendStep([a], b);
    assert [a] + [b] == [a, b];
    var ab := And([Condition(a)] + [Condition(b)]);
    assert ab == And([Condition(a), Condition(b)]);
    assert BuildQuery([a, b]) == ab;
    AppendStep([a, b], c);
    assert [a, b] + [c] == [a, b, c];
    assert [ab] + [Condition(c)] == [ab, Condition(c)];
  }

  /** The conditions of the rules in input order. */
  function Conditions(filters: seq<Filter>): (cs: seq<Query>)
    ensures |cs| == |filters|
    ensures forall i :: 0 <= i < |filters| ==> cs[i] == Condition(filters[i])
  {
    seq(|filters|, i requires 0 <= i < |filters| => Condition(filters[i]))
  }

  /**
   * A run of two or more rules all joined by one logic compiles to a single
   * flat combinator of that kind whose children are the rules' conditions, in order.
   */
  lemma {:induction false} FlatRun(filters: seq<Filter>, logic: string)
    requires |filters| >= 2
    requires logic == AND || logic == OR
    requires forall i :: 1 <= i < |filters| ==> filters[i].logic == logic
    ensures BuildQuery(filters) == (if logic == AND then And(Conditions(filters)) else Or(Conditions(filters)))
    decreases |filters|
  {
    var n := |filters|;
    var init := filters[..n - 1];
    assert Conditions(filters) == Conditions(init) + [Condition(filters[n - 1])];
    if n > 2 {
      FlatRun(init, logic);
    } else {
      assert Conditions(init) == [Condition(filters[0])];
    }
  }

  /** Combine adds exactly the new rule's condition at the right end of the leaves, or nothing. */
  lemma CombineLeaves(q: Query, f: Filter)
    requires LeftSpine(q)
    ensures Leaves(Combine(q, f)) ==
      Leaves(q) + (if f.logic == AND || f.logic == OR then [Condition(f)] else [])
  {
  }

  /** No kept condition is lost, duplicated or reordered: the leaves are the kept rules' conditions in input order. */
  lemma {:induction false} LeavesAreKeptConditions(filters: seq<Filter>)
    requires |filters| >= 1
    ensures Leaves(BuildQuery(filters)) == KeptConditions(filters)
    decreases |filters|
  {
    var n := |filters|;
    if n > 1 {
      LeavesAreKeptConditions(filters[..n - 1]);
      CombineLeaves(BuildQuery(filters[..n - 1]), filters[n - 1]);
    }
  }

  /** A conjunction over a list that ends in one more element. */
  lemma EvalAndAppend(cs: seq<Query>, c: Query, leaf: Query -> bool)
    ensures Eval(And(cs + [c]), leaf) == (Eval(And(cs), leaf) && Eval(c, leaf))
  {
    var ds := cs + [c];
    assert ds[|cs|] == c;
    if Eval(And(cs), leaf) && Eval(c, leaf) {
      forall i | 0 <= i < |ds| ensures Eval(ds[i], leaf) {
        if i < |cs| { assert ds[i] == cs[i]; }
      }
    }
    if Eval(And(ds), leaf) {
      forall i | 0 <= i < |cs| ensures Eval(cs[i], leaf) {
        assert ds[i] == cs[i];
      }
    }
  }

  /** A disjunction over a list that ends in one more element. */
  lemma EvalOrAppend(cs: seq<Query>, c: Query, leaf: Query -> bool)
    ensures Eval(Or(cs + [c]), leaf) == (Eval(Or(cs), leaf) || Eval(c, leaf))
  {
    var ds := cs + [c];
    assert ds[|cs|] == c;
    if Eval(Or(cs), leaf) {
      var i :| 0 <= i < |cs| && Eval(cs[i], leaf);
      assert ds[i] == cs[i];
    }
    if Eval(Or(ds), leaf) {
      var i :| 0 <= i < |ds| && Eval(ds[i], leaf);
      if i < |cs| { assert ds[i] == cs[i]; }
    }
  }

  /** Flattening and wrapping never change meaning: each Combine step is `&&`, `||` or nothing. */
  lemma CombineMeaning(q: Query, f: Filter, leaf: Query -> bool)
    ensures Eval(Combine(q, f), leaf) ==
      if f.logic == AND then Eval(q, leaf) && Eval(Condition(f), leaf)
      else if f.logic == OR then Eval(q, leaf) || Eval(Condition(f), leaf)
      else Eval(q, leaf)
  {
    if f.logic == AND {
      if q.And? {
        EvalAndAppend(q.children, Condition(f), leaf);
      } else {
        EvalAndAppend([q], Condition(f), leaf);
        assert [q][0] == q;
      }
    } else if f.logic == OR {
      if q.Or? {
        EvalOrAppend(q.children, Condition(f), leaf);
      } else {
        EvalOrAppend([q], Condition(f), leaf);
        assert [q][0] == q;
      }
    }
  }

  /**
   * The compiled query means exactly the left-to-right boolean fold of the
   * rules, for every interpretation of the individual conditions.
   */
  lemma {:induction false} CompiledMeaning(filters: seq<Filter>, leaf: Query -> bool)
    ensures Eval(BuildQuery(filters), leaf) == FoldEval(filters, leaf)
    decreases |filters|
  {
    var n := |filters|;
    if n > 1 {
      CompiledMeaning(filters[..n - 1], leaf);
      CombineMeaning(BuildQuery(filters[..n - 1]), filters[n - 1], leaf);
    }
  }
}
