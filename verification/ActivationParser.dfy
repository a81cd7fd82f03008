/** The recursive-descent parser: an index moving over the tokens, each method against its grammar function. */
module ActivationParser {
  import opened Common
  import opened Activation
  import opened G = ActivationGrammar

  lemma Joined(c: Connective, first: Expr, second: Expr)
    requires Expressible(first) && Expressible(second)
    ensures Expressible(Join(c, first, second))
  {
  }

  class Parser {
    const tokens: seq<Token>
    var index: nat

    /** The current token exists: no method reads past the end. */
    predicate Ready()
      reads this
    {
      index < |tokens| && tokens[|tokens| - 1] == Eof
    }

    function Rest(): seq<Token>
      requires index <= |tokens|
      reads this
    {
      tokens[index..]
    }

    constructor (tokens: seq<Token>)
      requires Terminated(tokens)
      ensures Ready() && this.tokens == tokens && Rest() == tokens
    {
      this.tokens := tokens;
      index := 0;
    }

    /** A result of one grammar function, reached by moving the index. */
    predicate Follows<T(==)>(start: nat, r: Option<T>, parsed: Parsed<T>)
      reads this
    {
      && Ready() && start <= index
      && if parsed.Fails? then r.None? else r == Some(parsed.value) && Rest() == parsed.rest
    }

    method Accept(token: Token) returns (accepted: bool)
      requires Ready() && token != Eof
      modifies this`index
      ensures accepted <==> old(Rest())[0] == token
      ensures Ready() && Rest() == if accepted then old(Rest())[1..] else old(Rest())
      ensures index == old(index) + if accepted then 1 else 0
    {
      accepted := tokens[index] == token;
      if accepted { index := index + 1; }
    }

    method ParseValue() returns (r: Option<Value>)
      requires Ready()
      modifies this`index
      ensures Follows(old(index), r, G.ParseValue(old(Rest())))
      decreases |tokens| - index, 0
    {
      hide G.ParseItems, Printable, WordValue;
      var token := tokens[index];
      match token {
        case Whole(n) => index := index + 1; r := Some(Literal(Int(n)));
        case Decimal(x) => index := index + 1; r := Some(Literal(Float(x)));
        case Quoted(text) => index := index + 1; r := Some(Literal(Str(text)));
        case Word(text) => index := index + 1; r := Some(Literal(WordValue(text)));
        case LBracket =>
          var begun := Accept(LBracket);
          var empty := Accept(RBracket);
          if empty { r := Some(ListLiteral([])); } else { r := ParseItems(); }
        case _ => r := None;
      }
    }

    /** The loop over a list's items: scalars separated by commas. */
    method ParseItems() returns (r: Option<Value>)
      requires Ready()
      modifies this`index
      ensures Follows(old(index), r, G.ParseItems(old(Rest()), []))
      decreases |tokens| - index, 1
    {
      hide G.ParseValue;
      var items: seq<Json> := [];
      while true
        invariant Ready() && old(index) <= index && forall x :: x in items ==> Scalar(x)
        invariant G.ParseItems(old(Rest()), []) == G.ParseItems(Rest(), items)
        decreases |tokens| - index
      {
        ghost var start := index;
        var item := ParseValue();
        if item.None? || !item.value.Literal? { return None; }
        var comma := Accept(Comma);
        if comma {
          items := items + [item.value.value];
        } else {
          var closed := Accept(RBracket);
          return if closed then Some(ListLiteral(items + [item.value.value])) else None;
        }
      }
    }

    method ParseComparator() returns (r: Option<Comparator>)
      requires Ready()
      modifies this`index
      ensures Follows(old(index), r, G.ParseComparator(old(Rest())))
    {
      if tokens[index].Operator? {
        r := Some(tokens[index].comparator);
        index := index + 1;
        return;
      }
      var isIn := Accept(Word("in"));
      if isIn { return Some(In); }
      var isNot := Accept(Word("not"));
      if !isNot { return None; }
      isIn := Accept(Word("in"));
      r := if isIn then Some(NotIn) else None;
    }

    method ParseComparison() returns (r: Option<Expr>)
      requires Ready()
      modifies this`index
      ensures Follows(old(index), r, G.ParseComparison(old(Rest())))
      decreases |tokens| - index, 2
    {
      hide G.ParseComparator, G.ParseValue, Expressible;
      if !tokens[index].Word? || tokens[index].text in RESERVED { return None; }
      var left := tokens[index].text;
      index := index + 1;
      var operator := ParseComparator();
      if operator.None? { return None; }
      var right := ParseValue();
      r := if right.None? then None else Some(Compare(left, operator.value, right.value));
    }

    method ParsePrimary() returns (r: Option<Expr>)
      requires Ready()
      modifies this`index
      ensures Follows(old(index), r, G.ParsePrimary(old(Rest())))
      decreases |tokens| - index, 3
    {
      hide G.ParseOr, G.ParseComparison, Expressible;
      var begun := Accept(LParen);
      if begun {
        var inner := ParseOr();
        if inner.None? { return None; }
        var closed := Accept(RParen);
        return if closed then inner else None;
      }
      if tokens[index].Word? && tokens[index].text in CONSTANTS {
        var value := tokens[index].text;
        index := index + 1;
        return Some(Constant(value != "false"));
      }
      r := ParseComparison();
    }

    method ParseAnd() returns (r: Option<Expr>)
      requires Ready()
      modifies this`index
      ensures Follows(old(index), r, G.ParseAnd(old(Rest())))
      decreases |tokens| - index, 4
    {
      hide G.ParsePrimary, Expressible;
      var left := ParsePrimary();
      if left.None? { return None; }
      while true
        invariant Ready() && old(index) <= index && left.Some? && Expressible(left.value)
        invariant G.ParseAnd(old(Rest())) == AndTail(left.value, Rest())
        decreases |tokens| - index
      {
        var more := Accept(Word("and"));
        if !more { return left; }
        var next := ParsePrimary();
        if next.None? { return None; }
        Joined(And, left.value, next.value);
        left := Some(Join(And, left.value, next.value));
      }
    }

    method ParseOr() returns (r: Option<Expr>)
      requires Ready()
      modifies this`index
      ensures Follows(old(index), r, G.ParseOr(old(Rest())))
      decreases |tokens| - index, 5
    {
      hide G.ParseAnd, Expressible;
      var left := ParseAnd();
      if left.None? { return None; }
      while true
        invariant Ready() && old(index) <= index && left.Some? && Expressible(left.value)
        invariant G.ParseOr(old(Rest())) == OrTail(left.value, Rest())
        decreases |tokens| - index
      {
        var more := Accept(Word("or"));
        if !more { return left; }
        var next := ParseAnd();
        if next.None? { return None; }
        Joined(Or, left.value, next.value);
        left := Some(Join(Or, left.value, next.value));
      }
    }

    /** The whole token list, up to the end token. */
    method Parse() returns (r: Option<Expr>)
      requires Ready() && index == 0
      modifies this`index
      ensures r == G.Parse(tokens)
    {
      hide G.ParseOr;
      assert Rest() == tokens;
      var result := ParseOr();
      if result.None? || tokens[index] != Eof { return None; }
      index := index + 1;
      r := result;
    }
  }
}
