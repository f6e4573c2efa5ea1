/**
 Cross-field rules: a whitelist over syntax trees and an evaluator over partly known fields.
 What floats, comparisons and the built-in functions compute is a parameter.
 */
module Rules {
  import opened Common

  // ---- syntax ---------------------------------------------------------------------------------------------

  datatype UnaryOperator = Not | Minus | Plus | OtherUnary
  datatype BinaryOperator = Add | Sub | Mult | Div | Mod | OtherBinary
  datatype Comparison = Eq | NotEq | Lt | LtE | Gt | GtE | In | NotIn | OtherComparison

  /** Any tree the parser may return; `Other` stands for every syntax that is not listed. */
  datatype Expr =
    | Constant(value: Value)
    | Name(id: string)
    | Display(items: Exprs)
    | Unary(unary: UnaryOperator, operand: Expr)
    | All(parts: Exprs)
    | Any(parts: Exprs)
    | Binary(left: Expr, binary: BinaryOperator, right: Expr)
    | Compare(first: Expr, links: Links)
    | Call(callee: Expr, args: Exprs, keywords: Exprs)
    | Other(children: Exprs)

  datatype Exprs = Nil | Cons(head: Expr, tail: Exprs)

  /** The rest of a chained comparison. */
  datatype Links = End | Link(comparison: Comparison, right: Expr, tail: Links)

  /** Values at run time; a float stands for its bit pattern, and `Foreign` for a constant of
      a type that rules may not use. */
  datatype Value = Null | Truth(b: bool) | Number(n: int) | Text(s: string) | List(elements: seq<Value>)
    | Function(name: string) | Foreign

  const FUNCTIONS: set<string> := {"sum", "len", "min", "max", "abs", "round"}

  // ---- the whitelist ----------------------------------------------------------------------------------------

  /** What the check asks of one node. */
  predicate NodeAllowed(e: Expr, fields: set<string>) {
    match e
    case Constant(value) => !value.Foreign? && !value.List? && !value.Function?
    case Name(id) => id in FUNCTIONS || id in fields
    case Display(_) => true
    case Unary(op, _) => !op.OtherUnary?
    case All(_) => true
    case Any(_) => true
    case Binary(_, op, _) => !op.OtherBinary?
    case Compare(_, links) => LinksAllowed(links)
    case Call(callee, _, keywords) => callee.Name? && callee.id in FUNCTIONS && keywords.Nil?
    case Other(_) => false
  }

  predicate LinksAllowed(links: Links) {
    links.Link? ==> !links.comparison.OtherComparison? && LinksAllowed(links.tail)
  }

  /** A tree is accepted when all of its nodes are. */
  predicate Accepted(e: Expr, fields: set<string>) {
    NodeAllowed(e, fields) &&
    match e
    case Constant(_) => true
    case Name(_) => true
    case Display(items) => AllAccepted(items, fields)
    case Unary(_, operand) => Accepted(operand, fields)
    case All(parts) => AllAccepted(parts, fields)
    case Any(parts) => AllAccepted(parts, fields)
    case Binary(left, _, right) => Accepted(left, fields) && Accepted(right, fields)
    case Compare(first, links) => Accepted(first, fields) && LinkedAccepted(links, fields)
    case Call(callee, args, keywords) => Accepted(callee, fields) && AllAccepted(args, fields)
      && AllAccepted(keywords, fields)
    case Other(children) => AllAccepted(children, fields)
  }

  predicate AllAccepted(es: Exprs, fields: set<string>) {
    es.Cons? ==> Accepted(es.head, fields) && AllAccepted(es.tail, fields)
  }

  predicate LinkedAccepted(links: Links, fields: set<string>) {
    links.Link? ==> Accepted(links.right, fields) && LinkedAccepted(links.tail, fields)
  }

  function Children(e: Expr): seq<Expr> {
    match e
    case Constant(_) => []
    case Name(_) => []
    case Display(items) => Listed(items)
    case Unary(_, operand) => [operand]
    case All(parts) => Listed(parts)
    case Any(parts) => Listed(parts)
    case Binary(left, _, right) => [left, right]
    case Compare(first, links) => [first] + Linked(links)
    case Call(callee, args, keywords) => [callee] + Listed(args) + Listed(keywords)
    case Other(children) => Listed(children)
  }

  function Listed(es: Exprs): seq<Expr> {
    if es.Nil? then [] else [es.head] + Listed(es.tail)
  }

  function Linked(links: Links): seq<Expr> {
    if links.End? then [] else [links.right] + Linked(links.tail)
  }

  function Size(e: Expr): nat {
    match e
    case Constant(_) => 1
    case Name(_) => 1
    case Display(items) => 1 + SizeListed(items)
    case Unary(_, operand) => 1 + Size(operand)
    case All(parts) => 1 + SizeListed(parts)
    case Any(parts) => 1 + SizeListed(parts)
    case Binary(left, _, right) => 1 + Size(left) + Size(right)
    case Compare(first, links) => 1 + Size(first) + SizeLinked(links)
    case Call(callee, args, keywords) => 1 + Size(callee) + SizeListed(args) + SizeListed(keywords)
    case Other(children) => 1 + SizeListed(children)
  }

  function SizeListed(es: Exprs): nat {
    if es.Nil? then 0 else Size(es.head) + SizeListed(es.tail)
  }

  function SizeLinked(links: Links): nat {
    if links.End? then 0 else Size(links.right) + SizeLinked(links.tail)
  }

  function Sizes(es: seq<Expr>): nat {
    if es == [] then 0 else Size(es[0]) + Sizes(es[1..])
  }

  ghost predicate EachAccepted(es: seq<Expr>, fields: set<string>) {
    forall i :: 0 <= i < |es| ==> Accepted(es[i], fields)
  }

  lemma {:induction false} SizesJoin(a: seq<Expr>, b: seq<Expr>)
    ensures Sizes(a + b) == Sizes(a) + Sizes(b)
  {
    if a == [] {
      assert a + b == b;
    } else {
      SizesJoin(a[1..], b);
      assert (a + b)[1..] == a[1..] + b;
    }
  }

  lemma {:induction false} ListedFacts(es: Exprs, fields: set<string>)
    ensures Sizes(Listed(es)) == SizeListed(es)
    ensures AllAccepted(es, fields) <==> EachAccepted(Listed(es), fields)
  {
    if es.Cons? {
      ListedFacts(es.tail, fields);
      assert Listed(es)[1..] == Listed(es.tail);
      assert EachAccepted(Listed(es), fields) ==> Accepted(Listed(es)[0], fields);
      assert EachAccepted(Listed(es), fields) ==> EachAccepted(Listed(es)[1..], fields);
    }
  }

  lemma {:induction false} LinkedFacts(links: Links, fields: set<string>)
    ensures Sizes(Linked(links)) == SizeLinked(links)
    ensures LinkedAccepted(links, fields) <==> EachAccepted(Linked(links), fields)
  {
    if links.Link? {
      LinkedFacts(links.tail, fields);
      assert Linked(links)[1..] == Linked(links.tail);
      assert EachAccepted(Linked(links), fields) ==> Accepted(Linked(links)[0], fields);
      assert EachAccepted(Linked(links), fields) ==> EachAccepted(Linked(links)[1..], fields);
    }
  }

  lemma {:induction false} JoinAccepted(a: seq<Expr>, b: seq<Expr>, fields: set<string>)
    ensures EachAccepted(a + b, fields) <==> EachAccepted(a, fields) && EachAccepted(b, fields)
  {
    assert forall i :: 0 <= i < |a| ==> (a + b)[i] == a[i];
    assert forall i :: 0 <= i < |b| ==> (a + b)[|a| + i] == b[i];
  }

  /** A tree is its top node and its children, for the whitelist as for the size. */
  lemma {:induction false} TreeFacts(e: Expr, fields: set<string>)
    ensures Accepted(e, fields) <==> NodeAllowed(e, fields) && EachAccepted(Children(e), fields)
    ensures Sizes(Children(e)) + 1 == Size(e)
  {
    match e
    case Constant(_) =>
    case Name(_) =>
    case Display(items) => ListedFacts(items, fields);
    case Unary(_, operand) => PairFacts(operand, operand, fields);
    case All(parts) => ListedFacts(parts, fields);
    case Any(parts) => ListedFacts(parts, fields);
    case Binary(left, _, right) => PairFacts(left, right, fields);
    case Compare(first, links) =>
      LinkedFacts(links, fields);
      PairFacts(first, first, fields);
      JoinAccepted([first], Linked(links), fields);
      SizesJoin([first], Linked(links));
    case Call(callee, args, keywords) =>
      ListedFacts(args, fields);
      ListedFacts(keywords, fields);
      PairFacts(callee, callee, fields);
      JoinAccepted([callee] + Listed(args), Listed(keywords), fields);
      JoinAccepted([callee], Listed(args), fields);
      SizesJoin([callee] + Listed(args), Listed(keywords));
      SizesJoin([callee], Listed(args));
    case Other(children) => ListedFacts(children, fields);
  }

  lemma {:induction false} PairFacts(a: Expr, b: Expr, fields: set<string>)
    ensures Sizes([a]) == Size(a) && Sizes([a, b]) == Size(a) + Size(b)
    ensures EachAccepted([a], fields) <==> Accepted(a, fields)
    ensures EachAccepted([a, b], fields) <==> Accepted(a, fields) && Accepted(b, fields)
  {
    assert [a][1..] == [] && [a, b][1..] == [b] && [b][1..] == [];
    assert EachAccepted([a], fields) ==> Accepted([a][0], fields);
    assert EachAccepted([a, b], fields) ==> Accepted([a, b][0], fields) && Accepted([a, b][1], fields);
  }

  /** A node is part of a tree: the tree itself, or part of one of its children. */
  ghost predicate PartOf(node: Expr, e: Expr)
    decreases Size(e)
  {
    TreeFacts(e, {});
    node == e || exists i :: 0 <= i < |Children(e)| && (ChildShrinks(Children(e), i); PartOf(node, Children(e)[i]))
  }

  lemma {:induction false} ChildShrinks(es: seq<Expr>, i: nat)
    requires i < |es|
    ensures Size(es[i]) <= Sizes(es)
  {
    if i > 0 {
      ChildShrinks(es[1..], i - 1);
    }
  }

  /** What a rule may not hold: syntax that is not listed, operators that are not, a constant that is not
      a number, a truth value, a text or null, a name that is neither a field nor a function, and a call
      of anything but a function by name, or with keywords. */
  ghost predicate Offends(node: Expr, fields: set<string>) {
    || node.Other?
    || (node.Unary? && node.unary == OtherUnary)
    || (node.Binary? && node.binary == OtherBinary)
    || (node.Compare? && OtherComparison in Comparisons(node.links))
    || (node.Constant? && (node.value.Foreign? || node.value.List? || node.value.Function?))
    || (node.Name? && node.id !in fields && node.id !in {"sum", "len", "min", "max", "abs", "round"})
    || (node.Call? && !(node.callee.Name? && node.callee.id in {"sum", "len", "min", "max", "abs", "round"}))
    || (node.Call? && node.keywords != Nil)
  }

  function Comparisons(links: Links): seq<Comparison> {
    if links.End? then [] else [links.comparison] + Comparisons(links.tail)
  }

  lemma {:induction false} LinksOffend(links: Links)
    ensures LinksAllowed(links) <==> OtherComparison !in Comparisons(links)
  {
    if links.Link? {
      LinksOffend(links.tail);
    }
  }

  lemma {:induction false} NodeOffends(node: Expr, fields: set<string>)
    ensures NodeAllowed(node, fields) <==> !Offends(node, fields)
  {
    if node.Compare? {
      LinksOffend(node.links);
    }
  }

  /** A tree is accepted exactly if no node of it offends. */
  lemma {:induction false} AcceptedIff(e: Expr, fields: set<string>)
    ensures Accepted(e, fields) <==> forall node :: PartOf(node, e) ==> !Offends(node, fields)
    decreases Size(e)
  {
    hide Accepted, NodeAllowed, Offends;
    TreeFacts(e, fields);
    NodeOffends(e, fields);
    assert PartOf(e, e);
    var children := Children(e);
    forall i: nat | i < |children|
      ensures Accepted(children[i], fields) <==> forall node :: PartOf(node, children[i]) ==> !Offends(node, fields)
      ensures forall node :: PartOf(node, children[i]) ==> PartOf(node, e)
    {
      ChildShrinks(children, i);
      AcceptedIff(children[i], fields);
    }
  }

  const MAX_RULE_CHARS := 300

  /** The check walks the tree breadth first; a rule passes exactly when it is short enough,
      parses, and its tree is accepted. */
  method CompileRule(length: nat, parsed: Option<Expr>, fields: set<string>) returns (tree: Option<Expr>)
    ensures tree == if length <= 300 && parsed.Some? && Accepted(parsed.value, fields) then parsed else None
  {
    if length > MAX_RULE_CHARS || parsed.None? {
      return None;
    }
    var todo := [parsed.value];
    PairFacts(parsed.value, parsed.value, fields);
    while todo != []
      invariant Accepted(parsed.value, fields) <==> EachAccepted(todo, fields)
      decreases Sizes(todo)
    {
      var node, rest := todo[0], todo[1..];
      TreeFacts(node, fields);
      JoinAccepted([node], rest, fields);
      PairFacts(node, node, fields);
      JoinAccepted(rest, Children(node), fields);
      SizesJoin(rest, Children(node));
      assert todo == [node] + rest;
      if !NodeAllowed(node, fields) {
        return None;
      }
      todo := rest + Children(node);
    }
    tree := parsed;
  }

  // ---- evaluation ---------------------------------------------------------------------------------------------

  datatype Fault = Unsupported | Raised

  /** A value, a missing operand, or an error. */
  datatype Outcome = Known(value: Value) | Unknown | Failed(fault: Fault)

  datatype Outcomes = AllKnown(values: seq<Value>) | Stopped(outcome: Outcome)

  /** What the host language computes; None is an exception. */
  datatype Host = Host(
    parse: string -> Option<int>,
    isZero: int -> bool,
    fromTruth: bool -> int,
    negate: int -> int,
    arithmetic: (BinaryOperator, int, int) -> int,
    relate: (Comparison, Value, Value) -> Option<bool>,
    member: (Value, Value) -> Option<bool>,
    apply: (string, seq<Value>) -> Option<Value>)

  function Truthy(host: Host, v: Value): bool {
    match v
    case Null => false
    case Truth(b) => b
    case Number(n) => !host.isZero(n)
    case Text(s) => s != ""
    case List(elements) => elements != []
    case Function(_) => true
    case Foreign => true
  }

  /** A float, or unknown when there is none to be made. */
  function Num(host: Host, v: Value): Outcome {
    match v
    case Truth(b) => Known(Number(host.fromTruth(b)))
    case Number(n) => Known(v)
    case Text(s) => if host.parse(s).Some? then Known(Number(host.parse(s).value)) else Unknown
    case Null => Unknown
    case List(_) => Unknown
    case Function(_) => Unknown
    case Foreign => Unknown
  }

  function OfTruth(b: Option<bool>): Outcome {
    if b.Some? then Known(Truth(b.value)) else Failed(Raised)
  }

  function Compared(host: Host, op: Comparison, a: Value, b: Value): Outcome {
    if op.In? then OfTruth(host.member(a, b))
    else if op.NotIn? then
      var found := host.member(a, b);
      if found.Some? then Known(Truth(!found.value)) else Failed(Raised)
    else if op.OtherComparison? && ((a.Text? && b.Text?) || a.List? || b.List?) then Failed(Unsupported)
    else if (a.Text? && b.Text?) || a.List? || b.List? then OfTruth(host.relate(op, a, b))
    else
      var x := Num(host, a);
      if !x.Known? then x
      else
        var y := Num(host, b);
        if !y.Known? then y
        else if op.OtherComparison? then Failed(Unsupported)
        else OfTruth(host.relate(op, x.value, y.value))
  }

  function Combined(host: Host, op: BinaryOperator, a: Value, b: Value): Outcome {
    if op.Add? && a.Text? && b.Text? then Known(Text(a.s + b.s))
    else
      var x := Num(host, a);
      if !x.Known? then x
      else
        var y := Num(host, b);
        if !y.Known? then y
        else if op.OtherBinary? then Failed(Unsupported)
        else if x.value.Number? && y.value.Number? then Known(Number(host.arithmetic(op, x.value.n, y.value.n)))
        else Failed(Raised)
  }

  function Applied(host: Host, name: string, args: seq<Value>): Outcome {
    if host.apply(name, args).Some? then Known(host.apply(name, args).value) else Failed(Raised)
  }

  function Negated(host: Host, v: Value): Outcome {
    var x := Num(host, v);
    if x.Known? && x.value.Number? then Known(Number(host.negate(x.value.n))) else x
  }

  /** A missing field and one that is null are the same. */
  function Field(fields: map<string, Value>, id: string): Option<Value> {
    if id in fields && !fields[id].Null? then Some(fields[id]) else None
  }

  function Eval(e: Expr, fields: map<string, Value>, host: Host): Outcome
    decreases e
  {
    match e
    case Constant(value) => Known(value)
    case Name(id) =>
      if id in FUNCTIONS then Known(Function(id))
      else if Field(fields, id).Some? then Known(Field(fields, id).value)
      else Unknown
    case Display(items) =>
      var all := EvalAll(items, fields, host);
      if all.AllKnown? then Known(List(all.values)) else all.outcome
    case Unary(op, operand) =>
      if op.OtherUnary? then Failed(Unsupported)
      else
        var v := Eval(operand, fields, host);
        if !v.Known? then v
        else if op.Not? then Known(Truth(!Truthy(host, v.value)))
        else if op.Minus? then Negated(host, v.value)
        else Num(host, v.value)
    case All(parts) => EvalEvery(parts, fields, host)
    case Any(parts) => EvalSome(parts, fields, host)
    case Binary(left, op, right) =>
      var a := Eval(left, fields, host);
      if !a.Known? then a
      else
        var b := Eval(right, fields, host);
        if !b.Known? then b else Combined(host, op, a.value, b.value)
    case Compare(first, links) =>
      var v := Eval(first, fields, host);
      if !v.Known? then v else EvalChain(v.value, links, fields, host)
    case Call(callee, args, keywords) =>
      if !callee.Name? then Failed(Unsupported)
      else if callee.id !in FUNCTIONS then Failed(Raised)
      else
        var all := EvalAll(args, fields, host);
        if all.AllKnown? then Applied(host, callee.id, all.values) else all.outcome
    case Other(_) => Failed(Unsupported)
  }

  function EvalAll(es: Exprs, fields: map<string, Value>, host: Host): Outcomes
    decreases es
  {
    if es.Nil? then AllKnown([])
    else
      var v := Eval(es.head, fields, host);
      if !v.Known? then Stopped(v)
      else
        var rest := EvalAll(es.tail, fields, host);
        if rest.AllKnown? then AllKnown([v.value] + rest.values) else rest
  }

  /** Conjunction stops at the first part that is false, or not known. */
  function EvalEvery(es: Exprs, fields: map<string, Value>, host: Host): Outcome
    decreases es
  {
    if es.Nil? then Known(Truth(true))
    else
      var v := Eval(es.head, fields, host);
      if !v.Known? then v
      else if !Truthy(host, v.value) then Known(Truth(false))
      else EvalEvery(es.tail, fields, host)
  }

  function EvalSome(es: Exprs, fields: map<string, Value>, host: Host): Outcome
    decreases es
  {
    if es.Nil? then Known(Truth(false))
    else
      var v := Eval(es.head, fields, host);
      if !v.Known? then v
      else if Truthy(host, v.value) then Known(Truth(true))
      else EvalSome(es.tail, fields, host)
  }

  /** A chain evaluates each operand once and stops at the first link that fails. */
  function EvalChain(current: Value, links: Links, fields: map<string, Value>, host: Host): Outcome
    decreases links
  {
    if links.End? then Known(Truth(true))
    else
      var other := Eval(links.right, fields, host);
      if !other.Known? then other
      else
        var held := Compared(host, links.comparison, current, other.value);
        if !held.Known? then held
        else if held.value == Truth(true) then EvalChain(other.value, links.tail, fields, host)
        else Known(Truth(false))
  }

  /** The verdict of a rule: true, false, unknown or an error. */
  datatype Verdict = Holds(holds: bool) | Undecided | Broken(fault: Fault)

  function EvaluateRule(tree: Expr, fields: map<string, Value>, host: Host): Verdict {
    var v := Eval(tree, fields, host);
    if v.Known? then Holds(Truthy(host, v.value)) else if v.Unknown? then Undecided else Broken(v.fault)
  }

  // ---- what the connectives mean ------------------------------------------------------------------------------

  /** The part is known, and counts as b. */
  ghost predicate Counts(host: Host, fields: map<string, Value>, e: Expr, b: bool) {
    Eval(e, fields, host).Known? && Truthy(host, Eval(e, fields, host).value) == b
  }

  /** Every one of the first n parts counts as b. */
  ghost predicate CountUpTo(host: Host, fields: map<string, Value>, parts: seq<Expr>, n: nat, b: bool)
    requires n <= |parts|
  {
    forall i :: 0 <= i < n ==> Counts(host, fields, parts[i], b)
  }

  /** Part n settles a connective whose other parts are passed while they count as b. */
  ghost predicate Settles(host: Host, fields: map<string, Value>, parts: seq<Expr>, n: nat, b: bool, outcome: Outcome) {
    && n < |parts| && CountUpTo(host, fields, parts, n, b)
    && if Eval(parts[n], fields, host).Known?
       then Truthy(host, Eval(parts[n], fields, host).value) != b && outcome == Known(Truth(!b))
       else outcome == Eval(parts[n], fields, host)
  }

  /** A conjunction is true exactly if every part is, and else what its first part that is not true
      makes it: false, unknown or an error. */
  lemma {:induction false} ConjunctionIff(parts: Exprs, fields: map<string, Value>, host: Host)
    ensures var es, outcome := Listed(parts), Eval(All(parts), fields, host);
            && (outcome == Known(Truth(true)) <==> CountUpTo(host, fields, es, |es|, true))
            && (outcome == Known(Truth(true)) || exists n: nat :: Settles(host, fields, es, n, true, outcome))
  {
    EveryMeans(parts, fields, host);
  }

  lemma {:induction false} EveryMeans(parts: Exprs, fields: map<string, Value>, host: Host)
    ensures var es, outcome := Listed(parts), EvalEvery(parts, fields, host);
            && (outcome == Known(Truth(true)) <==> CountUpTo(host, fields, es, |es|, true))
            && (outcome == Known(Truth(true)) || exists n: nat :: Settles(host, fields, es, n, true, outcome))
    decreases parts
  {
    if parts.Cons? {
      var es, outcome := Listed(parts), EvalEvery(parts, fields, host);
      assert es[0] == parts.head;
      if Counts(host, fields, parts.head, true) {
        EveryMeans(parts.tail, fields, host);
        OneMore(host, fields, es, Listed(parts.tail), true, outcome);
      } else {
        assert Settles(host, fields, es, 0, true, outcome);
      }
    }
  }

  lemma {:induction false} OneMore(host: Host, fields: map<string, Value>, es: seq<Expr>, rest: seq<Expr>, b: bool,
                                   outcome: Outcome)
    requires es != [] && rest == es[1..] && Counts(host, fields, es[0], b)
    ensures CountUpTo(host, fields, es, |es|, b) <==> CountUpTo(host, fields, rest, |rest|, b)
    ensures (exists n: nat :: Settles(host, fields, rest, n, b, outcome)) ==>
              exists n: nat :: Settles(host, fields, es, n, b, outcome)
  {
    if CountUpTo(host, fields, es, |es|, b) {
      forall i | 0 <= i < |rest| ensures Counts(host, fields, rest[i], b) {
        assert Counts(host, fields, es[i + 1], b);
      }
    }
    if n: nat :| Settles(host, fields, rest, n, b, outcome) {
      forall i | 0 <= i < n + 1 ensures Counts(host, fields, es[i], b) {
        assert i > 0 ==> Counts(host, fields, rest[i - 1], b);
      }
      assert Settles(host, fields, es, n + 1, b, outcome);
    }
  }

  /** A disjunction is false exactly if every part is, and else what its first part that is not false
      makes it: true, unknown or an error. */
  lemma {:induction false} DisjunctionIff(parts: Exprs, fields: map<string, Value>, host: Host)
    ensures var es, outcome := Listed(parts), Eval(Any(parts), fields, host);
            && (outcome == Known(Truth(false)) <==> CountUpTo(host, fields, es, |es|, false))
            && (outcome == Known(Truth(false)) || exists n: nat :: Settles(host, fields, es, n, false, outcome))
  {
    SomeMeans(parts, fields, host);
  }

  lemma {:induction false} SomeMeans(parts: Exprs, fields: map<string, Value>, host: Host)
    ensures var es, outcome := Listed(parts), EvalSome(parts, fields, host);
            && (outcome == Known(Truth(false)) <==> CountUpTo(host, fields, es, |es|, false))
            && (outcome == Known(Truth(false)) || exists n: nat :: Settles(host, fields, es, n, false, outcome))
    decreases parts
  {
    if parts.Cons? {
      var es, outcome := Listed(parts), EvalSome(parts, fields, host);
      assert es[0] == parts.head;
      if Counts(host, fields, parts.head, false) {
        SomeMeans(parts.tail, fields, host);
        OneMore(host, fields, es, Listed(parts.tail), false, outcome);
      } else {
        assert Settles(host, fields, es, 0, false, outcome);
      }
    }
  }

  /** Both operands are known and the comparison between them is true. */
  ghost predicate Compares(host: Host, fields: map<string, Value>, left: Expr, op: Comparison, right: Expr) {
    && Eval(left, fields, host).Known? && Eval(right, fields, host).Known?
    && Compared(host, op, Eval(left, fields, host).value, Eval(right, fields, host).value) == Known(Truth(true))
  }

  ghost predicate AllCompare(host: Host, fields: map<string, Value>, operands: seq<Expr>, ops: seq<Comparison>)
    requires |operands| == |ops| + 1
  {
    forall i :: 0 <= i < |ops| ==> Compares(host, fields, operands[i], ops[i], operands[i + 1])
  }

  /** A chain is true exactly if its first operand is known and each operand compares with the next. */
  lemma {:induction false} ChainIff(first: Expr, links: Links, fields: map<string, Value>, host: Host)
    ensures var operands, ops := [first] + Linked(links), Comparisons(links);
            && |operands| == |ops| + 1
            && (Eval(Compare(first, links), fields, host) == Known(Truth(true)) <==>
                Eval(first, fields, host).Known? && AllCompare(host, fields, operands, ops))
    decreases links
  {
    if links.Link? {
      var right, tail := links.right, links.tail;
      ChainIff(right, tail, fields, host);
      OneLink(host, fields, first, links.comparison, [right] + Linked(tail), Comparisons(tail));
      assert [first] + Linked(links) == [first] + ([right] + Linked(tail));
    }
  }

  lemma {:induction false} OneLink(host: Host, fields: map<string, Value>, first: Expr, op: Comparison,
                                   operands: seq<Expr>, ops: seq<Comparison>)
    requires |operands| == |ops| + 1
    ensures AllCompare(host, fields, [first] + operands, [op] + ops) <==>
              Compares(host, fields, first, op, operands[0]) && AllCompare(host, fields, operands, ops)
  {
    var longer, more := [first] + operands, [op] + ops;
    forall i | 0 <= i < |ops|
      ensures Compares(host, fields, longer[i + 1], more[i + 1], longer[i + 2]) <==>
              Compares(host, fields, operands[i], ops[i], operands[i + 1])
    {
    }
    if AllCompare(host, fields, longer, more) {
      assert Compares(host, fields, longer[0], more[0], longer[1]);
      forall i | 0 <= i < |ops| ensures Compares(host, fields, operands[i], ops[i], operands[i + 1]) {
        assert Compares(host, fields, longer[i + 1], more[i + 1], longer[i + 2]);
      }
    }
    if Compares(host, fields, first, op, operands[0]) && AllCompare(host, fields, operands, ops) {
      forall i | 0 <= i < |more| ensures Compares(host, fields, longer[i], more[i], longer[i + 1]) {
        assert i > 0 ==> Compares(host, fields, operands[i - 1], ops[i - 1], operands[i]);
      }
    }
  }

  /** What reads as a number: a number itself, a truth value as one, a text that spells one. */
  ghost predicate ReadsAs(host: Host, v: Value, n: int) {
    match v
    case Number(m) => m == n
    case Truth(b) => n == host.fromTruth(b)
    case Text(s) => host.parse(s) == Some(n)
    case Null => false
    case List(_) => false
    case Function(_) => false
    case Foreign => false
  }

  /** Operators on known operands: texts are joined and compared as texts and anything else as numbers
      (membership aside); an operand that reads as no number leaves the rule undecided. */
  lemma {:induction false} OperatorsMean(host: Host, a: Value, b: Value, op: BinaryOperator, rel: Comparison, x: int,
                                         y: int)
    requires op != OtherBinary && rel != OtherComparison
    ensures a.Text? && b.Text? ==>
              && Combined(host, Add, a, b) == Known(Text(a.s + b.s))
              && (rel != In && rel != NotIn ==> Compared(host, rel, a, b) == OfTruth(host.relate(rel, a, b)))
    ensures ReadsAs(host, a, x) && ReadsAs(host, b, y) && !(a.Text? && b.Text?) ==>
              && Combined(host, op, a, b) == Known(Number(host.arithmetic(op, x, y)))
              && (rel != In && rel != NotIn ==>
                  Compared(host, rel, a, b) == OfTruth(host.relate(rel, Number(x), Number(y))))
    ensures (forall n :: !ReadsAs(host, a, n)) && !(a.Text? && b.Text?) ==>
              && Combined(host, op, a, b) == Unknown
              && (rel != In && rel != NotIn && !a.List? && !b.List? ==> Compared(host, rel, a, b) == Unknown)
    ensures Compared(host, In, a, b) == OfTruth(host.member(a, b))
    ensures host.member(a, b).Some? ==>
              Compared(host, NotIn, a, b) == Known(Truth(!host.member(a, b).value))
  {
    match a
    case Number(n) => assert ReadsAs(host, a, n);
    case Truth(t) => assert ReadsAs(host, a, host.fromTruth(t));
    case Text(s) => assert host.parse(s).Some? ==> ReadsAs(host, a, host.parse(s).value);
    case Null =>
    case List(_) =>
    case Function(_) =>
    case Foreign =>
  }

  /** A negation is known exactly when its operand is, and then it is the opposite; operands of an
      operator are needed both, the left one first; a list is the list of its items. */
  lemma {:induction false} NodesMean(e: Expr, f: Expr, op: BinaryOperator, items: Exprs, fields: map<string, Value>,
                                     host: Host)
    ensures forall b :: Eval(Unary(Not, e), fields, host) == Known(Truth(b)) <==> Counts(host, fields, e, !b)
    ensures Eval(e, fields, host).Known? && Eval(f, fields, host).Known? ==>
              Eval(Binary(e, op, f), fields, host)
              == Combined(host, op, Eval(e, fields, host).value, Eval(f, fields, host).value)
    ensures !Eval(e, fields, host).Known? ==> Eval(Binary(e, op, f), fields, host) == Eval(e, fields, host)
    ensures Eval(e, fields, host).Known? && !Eval(f, fields, host).Known? ==>
              Eval(Binary(e, op, f), fields, host) == Eval(f, fields, host)
    ensures forall values ::
              Eval(Display(items), fields, host) == Known(List(values)) <==>
              AreValues(Listed(items), values, fields, host)
  {
    AllMeans(items, fields, host);
  }

  ghost predicate AreValues(es: seq<Expr>, values: seq<Value>, fields: map<string, Value>, host: Host) {
    |values| == |es| && forall i :: 0 <= i < |es| ==> Eval(es[i], fields, host) == Known(values[i])
  }

  lemma {:induction false} AllMeans(items: Exprs, fields: map<string, Value>, host: Host)
    ensures forall values ::
              EvalAll(items, fields, host) == AllKnown(values) <==> AreValues(Listed(items), values, fields, host)
    ensures EvalAll(items, fields, host).Stopped? ==> !EvalAll(items, fields, host).outcome.Known?
    decreases items
  {
    var es := Listed(items);
    if items.Cons? {
      AllMeans(items.tail, fields, host);
      var rest := Listed(items.tail);
      forall values ensures EvalAll(items, fields, host) == AllKnown(values) <==> AreValues(es, values, fields, host) {
        if AreValues(es, values, fields, host) {
          assert values == [values[0]] + values[1..] && es[0] == items.head;
          assert AreValues(rest, values[1..], fields, host) by {
            forall i | 0 <= i < |rest| ensures Eval(rest[i], fields, host) == Known(values[1..][i]) {
              assert rest[i] == es[i + 1];
            }
          }
        }
        if EvalAll(items, fields, host) == AllKnown(values) {
          assert AreValues(rest, values[1..], fields, host);
        }
      }
    } else {
      forall values ensures AreValues(es, values, fields, host) <==> values == [] {
      }
    }
  }

  // ---- main results -----------------------------------------------------------------------------------------

  lemma {:induction false} NeverUnsupported(e: Expr, names: set<string>, fields: map<string, Value>, host: Host)
    requires Accepted(e, names)
    ensures Eval(e, fields, host) != Failed(Unsupported)
    decreases e
  {
    match e
    case Constant(_) =>
    case Name(_) =>
    case Display(items) => AllSupported(items, names, fields, host);
    case Unary(_, operand) => NeverUnsupported(operand, names, fields, host);
    case All(parts) => EverySupported(parts, names, fields, host);
    case Any(parts) => SomeSupported(parts, names, fields, host);
    case Binary(left, _, right) =>
      NeverUnsupported(left, names, fields, host);
      NeverUnsupported(right, names, fields, host);
    case Compare(first, links) =>
      NeverUnsupported(first, names, fields, host);
      if Eval(first, fields, host).Known? {
        ChainSupported(Eval(first, fields, host).value, links, names, fields, host);
      }
    case Call(_, args, _) => AllSupported(args, names, fields, host);
    case Other(_) =>
  }

  lemma {:induction false} AllSupported(es: Exprs, names: set<string>, fields: map<string, Value>, host: Host)
    requires AllAccepted(es, names)
    ensures EvalAll(es, fields, host) != Stopped(Failed(Unsupported))
    decreases es
  {
    if es.Cons? {
      NeverUnsupported(es.head, names, fields, host);
      AllSupported(es.tail, names, fields, host);
    }
  }

  lemma {:induction false} EverySupported(es: Exprs, names: set<string>, fields: map<string, Value>, host: Host)
    requires AllAccepted(es, names)
    ensures EvalEvery(es, fields, host) != Failed(Unsupported)
    decreases es
  {
    if es.Cons? {
      NeverUnsupported(es.head, names, fields, host);
      EverySupported(es.tail, names, fields, host);
    }
  }

  lemma {:induction false} SomeSupported(es: Exprs, names: set<string>, fields: map<string, Value>, host: Host)
    requires AllAccepted(es, names)
    ensures EvalSome(es, fields, host) != Failed(Unsupported)
    decreases es
  {
    if es.Cons? {
      NeverUnsupported(es.head, names, fields, host);
      SomeSupported(es.tail, names, fields, host);
    }
  }

  lemma {:induction false} ChainSupported(v: Value, links: Links, names: set<string>, fields: map<string, Value>,
                                          host: Host)
    requires LinksAllowed(links) && LinkedAccepted(links, names)
    ensures EvalChain(v, links, fields, host) != Failed(Unsupported)
    decreases links
  {
    if links.Link? {
      NeverUnsupported(links.right, names, fields, host);
      if Eval(links.right, fields, host).Known? {
        ChainSupported(Eval(links.right, fields, host).value, links.tail, names, fields, host);
      }
    }
  }

  /** What the whitelist is for: an accepted rule never runs into the evaluator's errors for
      syntax it does not support, whatever the fields hold. */
  lemma {:induction false} AcceptedRulesRun(tree: Expr, names: set<string>, fields: map<string, Value>, host: Host)
    requires Accepted(tree, names)
    ensures EvaluateRule(tree, fields, host) != Broken(Unsupported)
  {
    NeverUnsupported(tree, names, fields, host);
  }

  /** More is known: every field that had a value has it still. */
  ghost predicate Extends(more: map<string, Value>, fields: map<string, Value>) {
    forall id :: Field(fields, id).Some? ==> Field(more, id) == Field(fields, id)
  }

  lemma {:induction false} Stable(e: Expr, fields: map<string, Value>, more: map<string, Value>, host: Host)
    requires Extends(more, fields) && !Eval(e, fields, host).Unknown?
    ensures Eval(e, more, host) == Eval(e, fields, host)
    decreases e
  {
    match e
    case Constant(_) =>
    case Name(_) =>
    case Display(items) => AllStable(items, fields, more, host);
    case Unary(op, operand) =>
      if !op.OtherUnary? {
        Stable(operand, fields, more, host);
      }
    case All(parts) => EveryStable(parts, fields, more, host);
    case Any(parts) => SomeStable(parts, fields, more, host);
    case Binary(left, _, right) =>
      Stable(left, fields, more, host);
      if Eval(left, fields, host).Known? {
        Stable(right, fields, more, host);
      }
    case Compare(first, links) =>
      Stable(first, fields, more, host);
      if Eval(first, fields, host).Known? {
        ChainStable(Eval(first, fields, host).value, links, fields, more, host);
      }
    case Call(callee, args, _) =>
      if callee.Name? && callee.id in FUNCTIONS {
        AllStable(args, fields, more, host);
      }
    case Other(_) =>
  }

  lemma {:induction false} AllStable(es: Exprs, fields: map<string, Value>, more: map<string, Value>, host: Host)
    requires Extends(more, fields) && EvalAll(es, fields, host) != Stopped(Unknown)
    ensures EvalAll(es, more, host) == EvalAll(es, fields, host)
    decreases es
  {
    if es.Cons? {
      Stable(es.head, fields, more, host);
      if Eval(es.head, fields, host).Known? {
        AllStable(es.tail, fields, more, host);
      }
    }
  }

  lemma {:induction false} EveryStable(es: Exprs, fields: map<string, Value>, more: map<string, Value>, host: Host)
    requires Extends(more, fields) && !EvalEvery(es, fields, host).Unknown?
    ensures EvalEvery(es, more, host) == EvalEvery(es, fields, host)
    decreases es
  {
    if es.Cons? {
      Stable(es.head, fields, more, host);
      var v := Eval(es.head, fields, host);
      if v.Known? && Truthy(host, v.value) {
        EveryStable(es.tail, fields, more, host);
      }
    }
  }

  lemma {:induction false} SomeStable(es: Exprs, fields: map<string, Value>, more: map<string, Value>, host: Host)
    requires Extends(more, fields) && !EvalSome(es, fields, host).Unknown?
    ensures EvalSome(es, more, host) == EvalSome(es, fields, host)
    decreases es
  {
    if es.Cons? {
      Stable(es.head, fields, more, host);
      var v := Eval(es.head, fields, host);
      if v.Known? && !Truthy(host, v.value) {
        SomeStable(es.tail, fields, more, host);
      }
    }
  }

  lemma {:induction false} ChainStable(v: Value, links: Links, fields: map<string, Value>, more: map<string, Value>,
                                       host: Host)
    requires Extends(more, fields) && !EvalChain(v, links, fields, host).Unknown?
    ensures EvalChain(v, links, more, host) == EvalChain(v, links, fields, host)
    decreases links
  {
    if links.Link? {
      Stable(links.right, fields, more, host);
      var other := Eval(links.right, fields, host);
      if other.Known? && Compared(host, links.comparison, v, other.value) == Known(Truth(true)) {
        ChainStable(other.value, links.tail, fields, more, host);
      }
    }
  }

  /** A verdict other than unknown is final: filling in missing fields never changes it, for all
      the short-circuiting and chaining. */
  lemma {:induction false} VerdictIsFinal(tree: Expr, fields: map<string, Value>, more: map<string, Value>, host: Host)
    requires Extends(more, fields) && !EvaluateRule(tree, fields, host).Undecided?
    ensures EvaluateRule(tree, more, host) == EvaluateRule(tree, fields, host)
  {
    Stable(tree, fields, more, host);
  }
}
