/** The grammar of activation expressions as functions on tokens, and the printer it undoes. */
module ActivationGrammar {
  import opened Common
  import opened Activation

  /** Tokens, with the text of numbers and strings already read. */
  datatype Token =
    | Word(text: string)
    | Whole(number: int)
    | Decimal(fraction: real)
    | Quoted(text: string)
    | Operator(comparator: Comparator)
    | LParen | RParen | LBracket | RBracket | Comma
    | Eof

  /** What the tokenizer produces: the end of the text is a token of its own. */
  predicate Terminated(ts: seq<Token>) { ts != [] && ts[|ts| - 1] == Eof }

  datatype Parsed<T> = Got(value: T, rest: seq<Token>) | Fails

  const RESERVED := {"and", "or", "in", "not"}
  const CONSTANTS := {"always", "true", "false"}

  predicate Scalar(v: Json) { v.Null? || v.Bool? || v.Int? || v.Float? || v.Str? }

  predicate Printable(v: Value) {
    match v
    case Reference(_) => false
    case Literal(value) => Scalar(value)
    case ListLiteral(items) => forall x | x in items :: Scalar(x)
  }

  /** The trees the grammar can express. */
  predicate Expressible(e: Expr) {
    match e
    case Constant(_) => true
    case Compare(left, operator, right) => left !in RESERVED && left !in CONSTANTS && Printable(right)
    case Join(_, first, second) => Expressible(first) && Expressible(second)
  }

  // ----- the grammar, as functions from tokens to a tree and the tokens left -----

  function WordValue(text: string): Json {
    if text == "null" then Null else if text == "true" then Bool(true) else if text == "false" then Bool(false)
      else Str(text)
  }

  function ParseValue(ts: seq<Token>): (r: Parsed<Value>)
    requires Terminated(ts)
    ensures r.Got? ==> Terminated(r.rest) && |r.rest| < |ts| && Printable(r.value)
    decreases |ts|, 0
  {
    match ts[0]
    case Whole(n) => Got(Literal(Int(n)), ts[1..])
    case Decimal(x) => Got(Literal(Float(x)), ts[1..])
    case Quoted(text) => Got(Literal(Str(text)), ts[1..])
    case Word(text) => Got(Literal(WordValue(text)), ts[1..])
    case LBracket => if ts[1] == RBracket then Got(ListLiteral([]), ts[2..]) else ParseItems(ts[1..], [])
    case _ => Fails
  }

  function ParseItems(ts: seq<Token>, items: seq<Json>): (r: Parsed<Value>)
    requires Terminated(ts) && forall x :: x in items ==> Scalar(x)
    ensures r.Got? ==> Terminated(r.rest) && |r.rest| < |ts| && Printable(r.value)
    decreases |ts|, 1
  {
    var item := ParseValue(ts);
    if item.Fails? || !item.value.Literal? then Fails
    else if item.rest[0] == Comma then ParseItems(item.rest[1..], items + [item.value.value])
    else if item.rest[0] == RBracket then Got(ListLiteral(items + [item.value.value]), item.rest[1..])
    else Fails
  }

  function ParseComparator(ts: seq<Token>): (r: Parsed<Comparator>)
    requires Terminated(ts)
    ensures r.Got? ==> Terminated(r.rest) && |r.rest| < |ts|
  {
    if ts[0].Operator? then Got(ts[0].comparator, ts[1..])
    else if ts[0] == Word("in") then Got(In, ts[1..])
    else if ts[0] == Word("not") && ts[1] == Word("in") then Got(NotIn, ts[2..])
    else Fails
  }

  function ParseComparison(ts: seq<Token>): (r: Parsed<Expr>)
    requires Terminated(ts)
    ensures r.Got? ==> Terminated(r.rest) && |r.rest| < |ts|
    ensures r.Got? && !(ts[0].Word? && ts[0].text in CONSTANTS) ==> Expressible(r.value)
  {
    if !ts[0].Word? || ts[0].text in RESERVED then Fails
    else
      var operator := ParseComparator(ts[1..]);
      if operator.Fails? then Fails
      else
        var right := ParseValue(operator.rest);
        if right.Fails? then Fails else Got(Compare(ts[0].text, operator.value, right.value), right.rest)
  }

  function ParsePrimary(ts: seq<Token>): (r: Parsed<Expr>)
    requires Terminated(ts)
    ensures r.Got? ==> Terminated(r.rest) && |r.rest| < |ts| && Expressible(r.value)
    decreases |ts|, 0
  {
    if ts[0] == LParen then
      var inner := ParseOr(ts[1..]);
      if inner.Fails? || inner.rest[0] != RParen then Fails else Got(inner.value, inner.rest[1..])
    else if ts[0].Word? && ts[0].text in CONSTANTS then Got(Constant(ts[0].text != "false"), ts[1..])
    else ParseComparison(ts)
  }

  function ParseAnd(ts: seq<Token>): (r: Parsed<Expr>)
    requires Terminated(ts)
    ensures r.Got? ==> Terminated(r.rest) && |r.rest| < |ts| && Expressible(r.value)
    decreases |ts|, 1
  {
    var first := ParsePrimary(ts);
    if first.Fails? then Fails else AndTail(first.value, first.rest)
  }

  /** A conjunction so far, continued as long as `and` follows. */
  function AndTail(left: Expr, ts: seq<Token>): (r: Parsed<Expr>)
    requires Terminated(ts) && Expressible(left)
    ensures r.Got? ==> Terminated(r.rest) && |r.rest| <= |ts| && Expressible(r.value)
    decreases |ts|, 0
  {
    if ts[0] != Word("and") then Got(left, ts)
    else
      var next := ParsePrimary(ts[1..]);
      if next.Fails? then Fails else AndTail(Join(And, left, next.value), next.rest)
  }

  function ParseOr(ts: seq<Token>): (r: Parsed<Expr>)
    requires Terminated(ts)
    ensures r.Got? ==> Terminated(r.rest) && |r.rest| < |ts| && Expressible(r.value)
    decreases |ts|, 2
  {
    var first := ParseAnd(ts);
    if first.Fails? then Fails else OrTail(first.value, first.rest)
  }

  function OrTail(left: Expr, ts: seq<Token>): (r: Parsed<Expr>)
    requires Terminated(ts) && Expressible(left)
    ensures r.Got? ==> Terminated(r.rest) && |r.rest| <= |ts| && Expressible(r.value)
    decreases |ts|, 0
  {
    if ts[0] != Word("or") then Got(left, ts)
    else
      var next := ParseAnd(ts[1..]);
      if next.Fails? then Fails else OrTail(Join(Or, left, next.value), next.rest)
  }

  /** A whole expression: nothing may follow it. */
  function Parse(ts: seq<Token>): (r: Option<Expr>)
    requires Terminated(ts)
    ensures r.Some? ==> Expressible(r.value)
  {
    var result := ParseOr(ts);
    if result.Fails? || result.rest[0] != Eof then None else Some(result.value)
  }

  // ----- printing with as few parentheses as the grammar allows -----

  function PrintScalar(v: Json): Token
    requires Scalar(v)
  {
    match v
    case Null => Word("null")
    case Bool(b) => Word(if b then "true" else "false")
    case Int(n) => Whole(n)
    case Float(x) => Decimal(x)
    case Str(text) => Quoted(text)
  }

  /** The items after the first, each behind its comma, and the closing bracket. */
  function PrintItems(items: seq<Json>): seq<Token>
    requires forall x :: x in items ==> Scalar(x)
  {
    if items == [] then [RBracket] else [Comma, PrintScalar(items[0])] + PrintItems(items[1..])
  }

  function PrintValue(v: Value): seq<Token>
    requires Printable(v)
  {
    match v
    case Literal(value) => [PrintScalar(value)]
    case ListLiteral(items) =>
      if items == [] then [LBracket, RBracket] else [LBracket, PrintScalar(items[0])] + PrintItems(items[1..])
  }

  function PrintComparator(c: Comparator): seq<Token> {
    match c
    case In => [Word("in")]
    case NotIn => [Word("not"), Word("in")]
    case _ => [Operator(c)]
  }

  function PrintPrimary(e: Expr): seq<Token>
    requires Expressible(e)
    decreases e, 0
  {
    match e
    case Constant(value) => [Word(if value then "true" else "false")]
    case Compare(left, operator, right) => [Word(left)] + PrintComparator(operator) + PrintValue(right)
    case Join(c, first, second) =>
      [LParen] +
        (if c.Or? then PrintOr(first) + [Word("or")] + PrintAnd(second)
         else PrintAnd(first) + [Word("and")] + PrintPrimary(second)) + [RParen]
  }

  function PrintAnd(e: Expr): seq<Token>
    requires Expressible(e)
    decreases e, 1
  {
    if e.Join? && e.connective.And? then PrintAnd(e.first) + [Word("and")] + PrintPrimary(e.second) else PrintPrimary(e)
  }

  function PrintOr(e: Expr): seq<Token>
    requires Expressible(e)
    decreases e, 2
  {
    if e.Join? && e.connective.Or? then PrintOr(e.first) + [Word("or")] + PrintAnd(e.second) else PrintAnd(e)
  }

  function Print(e: Expr): seq<Token>
    requires Expressible(e)
  {
    PrintOr(e) + [Eof]
  }

  // ----- the round trip -----

  lemma Behind(a: seq<Token>, post: seq<Token>)
    requires Terminated(post)
    ensures Terminated(a + post)
  {
  }

  lemma ScalarBack(v: Json, post: seq<Token>)
    requires Scalar(v) && Terminated(post)
    ensures Terminated([PrintScalar(v)] + post) && ParseValue([PrintScalar(v)] + post) == Got(Literal(v), post)
  {
    assert ([PrintScalar(v)] + post)[1..] == post;
  }

  lemma ItemsEnd(ts: seq<Token>, done: seq<Json>, v: Json, post: seq<Token>)
    requires Terminated(ts) && (forall x :: x in done ==> Scalar(x)) && Terminated(post)
    requires ParseValue(ts) == Got(Literal(v), [RBracket] + post)
    ensures ParseItems(ts, done) == Got(ListLiteral(done + [v]), post)
  {
    hide ParseValue, Terminated;
    assert ([RBracket] + post)[1..] == post;
  }

  lemma ItemsMore(ts: seq<Token>, done: seq<Json>, v: Json, post: seq<Token>)
    requires Terminated(ts) && (forall x :: x in done ==> Scalar(x)) && Scalar(v) && Terminated(post)
    requires ParseValue(ts) == Got(Literal(v), [Comma] + post)
    ensures ParseItems(ts, done) == ParseItems(post, done + [v])
  {
    hide ParseValue, Terminated;
    assert ([Comma] + post)[1..] == post;
  }

  lemma {:induction false} ItemsBack(first: Json, items: seq<Json>, done: seq<Json>, post: seq<Token>)
    requires Scalar(first) && (forall x :: x in items ==> Scalar(x)) && (forall x :: x in done ==> Scalar(x))
      && Terminated(post)
    ensures var ts := [PrintScalar(first)] + (PrintItems(items) + post);
            Terminated(ts) && ParseItems(ts, done) == Got(ListLiteral(done + [first] + items), post)
    decreases |items|
  {
    hide ParseValue, ParseItems, Scalar, PrintScalar, Terminated;
    var tail := PrintItems(items) + post;
    Behind(PrintItems(items), post);
    ScalarBack(first, tail);
    if items == [] {
      ItemsEnd([PrintScalar(first)] + tail, done, first, post);
      assert done + [first] + items == done + [first];
    } else {
      var more := [PrintScalar(items[0])] + (PrintItems(items[1..]) + post);
      ItemsBack(items[0], items[1..], done + [first], post);
      assert tail == [Comma] + more;
      ItemsMore([PrintScalar(first)] + tail, done, first, more);
      assert done + [first] + [items[0]] + items[1..] == done + [first] + items;
    }
  }

  lemma ListOpens(ts: seq<Token>)
    requires Terminated(ts) && ts[0] == LBracket && Terminated(ts[1..]) && ts[1] != RBracket
    ensures ParseValue(ts) == ParseItems(ts[1..], [])
  {
    hide ParseItems;
  }

  lemma ValueBack(v: Value, post: seq<Token>)
    requires Printable(v) && Terminated(post)
    ensures Terminated(PrintValue(v) + post) && ParseValue(PrintValue(v) + post) == Got(v, post)
  {
    hide ParseItems, PrintItems, Terminated;
    Behind(PrintValue(v), post);
    if v.Literal? {
      ScalarBack(v.value, post);
    } else if v.items == [] {
      assert (PrintValue(v) + post)[2..] == post;
    } else {
      var ts := PrintValue(v) + post;
      ItemsBack(v.items[0], v.items[1..], [], post);
      assert ts[1..] == [PrintScalar(v.items[0])] + (PrintItems(v.items[1..]) + post);
      assert [] + [v.items[0]] + v.items[1..] == v.items;
      ListOpens(ts);
    }
  }

  lemma ComparatorBack(c: Comparator, post: seq<Token>)
    requires Terminated(post)
    ensures Terminated(PrintComparator(c) + post) && ParseComparator(PrintComparator(c) + post) == Got(c, post)
  {
    var ts := PrintComparator(c) + post;
    assert ts[|PrintComparator(c)|..] == post;
  }

  lemma ComparisonBack(left: string, c: Comparator, v: Value, post: seq<Token>)
    requires left !in RESERVED && left !in CONSTANTS && Printable(v) && Terminated(post)
    ensures var ts := [Word(left)] + PrintComparator(c) + PrintValue(v) + post;
            Terminated(ts) && ParsePrimary(ts) == Got(Compare(left, c, v), post)
  {
    hide ParseComparator, PrintComparator, ParseValue, PrintValue, Terminated, Printable, ParseOr;
    var ts := [Word(left)] + PrintComparator(c) + PrintValue(v) + post;
    var tail := PrintValue(v) + post;
    ValueBack(v, post);
    ComparatorBack(c, tail);
    assert ts[1..] == PrintComparator(c) + tail;
    Behind([Word(left)], PrintComparator(c) + tail);
    assert ts == [Word(left)] + (PrintComparator(c) + tail);
  }

  lemma Enclosed(e: Expr, inner: seq<Token>, post: seq<Token>)
    requires Expressible(e) && Terminated(post) && Terminated(inner + ([RParen] + post))
    requires ParseOr(inner + ([RParen] + post)) == Got(e, [RParen] + post)
    ensures Terminated([LParen] + inner + [RParen] + post)
      && ParsePrimary([LParen] + inner + [RParen] + post) == Got(e, post)
  {
    hide ParseOr, ParseComparison;
    var ts := [LParen] + inner + [RParen] + post;
    assert ts[1..] == inner + ([RParen] + post);
    assert ([RParen] + post)[1..] == post;
  }

  lemma AndStops(e: Expr, post: seq<Token>)
    requires Expressible(e) && Terminated(post)
    ensures post[0] != Word("and") ==> AndTail(e, post) == Got(e, post)
    ensures post[0] != Word("or") ==> OrTail(e, post) == Got(e, post)
  {
    hide ParsePrimary, ParseAnd;
  }

  lemma OrStarts(ts: seq<Token>, e: Expr, post: seq<Token>)
    requires Terminated(ts) && Terminated(post) && Expressible(e) && ParseAnd(ts) == Got(e, post)
    ensures ParseOr(ts) == OrTail(e, post)
  {
    hide ParseAnd, OrTail;
  }

  lemma AndStarts(ts: seq<Token>, e: Expr, post: seq<Token>)
    requires Terminated(ts) && Terminated(post) && Expressible(e) && ParsePrimary(ts) == Got(e, post)
    ensures ParseAnd(ts) == AndTail(e, post)
  {
    hide ParsePrimary, AndTail;
  }

  lemma {:induction false} PrimaryBack(e: Expr, post: seq<Token>)
    requires Expressible(e) && Terminated(post)
    ensures Terminated(PrintPrimary(e) + post) && ParsePrimary(PrintPrimary(e) + post) == Got(e, post)
    decreases e, 1
  {
    hide ParseOr, ParseAnd, ParsePrimary, OrTail, AndTail, Terminated, PrintOr, PrintAnd;
    match e {
      case Constant(_) =>
        ConstantBack(e.value, post);
      case Compare(left, c, right) =>
        ComparisonBack(left, c, right, post);
      case Join(c, first, second) =>
        var close := [RParen] + post;
        Behind([RParen], post);
        if c.Or? {
          OrBack(e, close);
          PrintedOr(e);
          AndStops(e, close);
          Enclosed(e, PrintOr(e), post);
        } else {
          AndBack(e, close);
          PrintedAnd(e);
          AndStops(e, close);
          OrStarts(PrintAnd(e) + close, e, close);
          Enclosed(e, PrintAnd(e), post);
        }
    }
  }

  lemma PrintedOr(e: Expr)
    requires Expressible(e) && e.Join? && e.connective.Or?
    ensures PrintPrimary(e) == [LParen] + PrintOr(e) + [RParen]
  {
  }

  lemma PrintedAnd(e: Expr)
    requires Expressible(e) && e.Join? && e.connective.And?
    ensures PrintPrimary(e) == [LParen] + PrintAnd(e) + [RParen]
  {
  }

  lemma ConstantBack(value: bool, post: seq<Token>)
    requires Terminated(post)
    ensures var ts := PrintPrimary(Constant(value)) + post;
      Terminated(ts) && ParsePrimary(ts) == Got(Constant(value), post)
  {
    hide ParseOr, ParseComparison;
    assert (PrintPrimary(Constant(value)) + post)[1..] == post;
  }

  /** Behind a printed conjunction the parser stands where `AndTail` continues it. */
  lemma {:induction false} AndBack(e: Expr, post: seq<Token>)
    requires Expressible(e) && Terminated(post)
    ensures Terminated(PrintAnd(e) + post) && ParseAnd(PrintAnd(e) + post) == AndTail(e, post)
    decreases e, if e.Join? && e.connective.And? then 0 else 2
  {
    hide ParseOr, ParseAnd, ParsePrimary, OrTail, AndTail, Terminated, PrintOr, PrintPrimary;
    if e.Join? && e.connective.And? {
      var next := [Word("and")] + (PrintPrimary(e.second) + post);
      Behind(PrintPrimary(e.second), post);
      Behind([Word("and")], PrintPrimary(e.second) + post);
      AndBack(e.first, next);
      PrimaryBack(e.second, post);
      AndStep(e.first, e.second, post);
      assert PrintAnd(e) + post == PrintAnd(e.first) + next;
    } else {
      PrimaryBack(e, post);
      AndStarts(PrintAnd(e) + post, e, post);
    }
  }

  lemma {:induction false} OrBack(e: Expr, post: seq<Token>)
    requires Expressible(e) && Terminated(post) && post[0] != Word("and")
    ensures Terminated(PrintOr(e) + post) && ParseOr(PrintOr(e) + post) == OrTail(e, post)
    decreases e, if e.Join? && e.connective.Or? then 0 else 3
  {
    hide ParseOr, ParseAnd, ParsePrimary, OrTail, AndTail, Terminated, PrintAnd, PrintPrimary;
    if e.Join? && e.connective.Or? {
      var next := [Word("or")] + (PrintAnd(e.second) + post);
      Behind(PrintAnd(e.second), post);
      Behind([Word("or")], PrintAnd(e.second) + post);
      OrBack(e.first, next);
      AndBack(e.second, post);
      AndStops(e.second, post);
      OrStep(e.first, e.second, post);
      assert PrintOr(e) + post == PrintOr(e.first) + next;
    } else {
      AndBack(e, post);
      AndStops(e, post);
      OrStarts(PrintOr(e) + post, e, post);
    }
  }

  lemma AndStep(first: Expr, second: Expr, post: seq<Token>)
    requires Expressible(first) && Expressible(second) && Terminated(post)
    requires Terminated(PrintPrimary(second) + post) && ParsePrimary(PrintPrimary(second) + post) == Got(second, post)
    ensures Terminated([Word("and")] + (PrintPrimary(second) + post))
    ensures AndTail(first, [Word("and")] + (PrintPrimary(second) + post)) == AndTail(Join(And, first, second), post)
  {
    hide ParsePrimary, PrintPrimary;
    assert ([Word("and")] + (PrintPrimary(second) + post))[1..] == PrintPrimary(second) + post;
  }

  lemma OrStep(first: Expr, second: Expr, post: seq<Token>)
    requires Expressible(first) && Expressible(second) && Terminated(post)
    requires Terminated(PrintAnd(second) + post) && ParseAnd(PrintAnd(second) + post) == Got(second, post)
    ensures Terminated([Word("or")] + (PrintAnd(second) + post))
    ensures OrTail(first, [Word("or")] + (PrintAnd(second) + post)) == OrTail(Join(Or, first, second), post)
  {
    hide ParseAnd, PrintAnd;
    assert ([Word("or")] + (PrintAnd(second) + post))[1..] == PrintAnd(second) + post;
  }

  /** Every expressible tree parses back from its printed tokens. */
  lemma RoundTrip(e: Expr)
    requires Expressible(e)
    ensures Terminated(Print(e)) && Parse(Print(e)) == Some(e)
  {
    OrBack(e, [Eof]);
  }

  /** And what parses is expressible, so printing and parsing again changes nothing. */
  lemma Reprint(ts: seq<Token>)
    requires Terminated(ts) && Parse(ts).Some?
    ensures Terminated(Print(Parse(ts).value)) && Parse(Print(Parse(ts).value)) == Parse(ts)
  {
    RoundTrip(Parse(ts).value);
  }
}
