/**
 * The oma compiler's syntax tree, the conversion of an expression into a
 * pattern (a `case` arm's head, the left side of `=`), and the identifiers a
 * pattern binds.
 */
module OmaAst {
  import opened Wrappers
  import opened Bytes
  import opened Source
  import Tokens

  /** An identifier: its span and its text. */
  datatype Ident = Ident(span: Span, content: seq<u8>)

  /**
   * A literal. A number is kept as the bit pattern of the `f64` it was parsed
   * to; floating point is not part of this model.
   */
  datatype Lit = NumberLit(span: Span, bits: nat) | BoolLit(span: Span, value: bool) | StringLit(span: Span, text: seq<u8>) | NullLit(span: Span)

  datatype BinaryOp = Add | Subtract | Multiply | Divide | And | Or | Equal | NotEqual | Greater | GreaterEqual | Less | LessEqual

  datatype UnaryOp = Negate | Not

  datatype Expr =
    // Values
    | Literal(lit: Lit)
    | Name(ident: Ident)
    | Map(span: Span, pairs: seq<MapExprPair>)
    | Array(span: Span, items: seq<ArrayExprItem>)
    | Lambda(span: Span, parameters: seq<LambdaExprParameter>, body: Expr)
    | Tag(span: Span, tag: Ident, expr: Expr)
    // Execution
    | Block(span: Span, exprs: seq<Expr>, hasSemi: bool)
    | Binary(op: BinaryOp, left: Expr, right: Expr)
    | Unary(span: Span, uop: UnaryOp, operand: Expr)
    | Bind(bindee: Pat, value: Expr)
    | Assign(assignee: Assignee, value: Expr)
    | Call(receiver: Expr, arguments: seq<CallExprArgument>)
    | Access(access: AccessExpr)
    // Control flow and loops
    | If(span: Span, condition: Expr, body: Expr, otherwise: Option<Expr>)
    | Case(span: Span, subject: Expr, arms: seq<Arm>)
    | For(span: Span, item: Pat, iterable: Expr, body: Expr)
    | While(span: Span, condition: Expr, body: Expr)

  datatype MapExprPair = PairSpread(spread: Expr) | PairExpr(key: Expr, value: Expr) | PairIdent(field: Ident, value: Expr)

  datatype ArrayExprItem = ItemSpread(spread: Expr) | ItemExpr(expr: Expr)

  datatype LambdaExprParameter = ParamSpread(ident: Ident) | ParamPat(pat: Pat)

  datatype CallExprArgument = ArgSpread(spread: Expr) | ArgExpr(expr: Expr)

  datatype AccessExpr = AccessExpr(receiver: Expr, field: AccessField)

  datatype AccessField = FieldIdent(ident: Ident) | FieldExpr(expr: Expr)

  datatype Assignee = AssigneePat(pat: Pat) | AssigneeAccess(access: AccessExpr)

  datatype Arm = Arm(pat: Pat, body: Expr)

  datatype Pat =
    | LitPat(lit: Lit)
    | IdentPat(ident: Ident)
    | TagPat(span: Span, tag: Ident, pat: Pat)
    | MapPat(span: Span, pairs: seq<MapPatPair>)
    | ArrayPat(span: Span, items: seq<ArrayPatItem>)

  datatype MapPatPair = PatSpread(ident: Ident) | PatField(field: Ident, pat: Pat)

  datatype ArrayPatItem = ItemSpreadPat(ident: Ident) | ItemPat(pat: Pat)

  datatype Module = Module(body: Expr)

  /** `BinaryOp::from_token`: the twelve operator tokens, and None for any other. */
  function BinaryOpOf(t: Tokens.Token): (r: Option<BinaryOp>)
    ensures r.Some? <==> t in {Tokens.And, Tokens.Or, Tokens.EqualEqual, Tokens.BangEqual, Tokens.Greater, Tokens.GreaterEqual,
      Tokens.Less, Tokens.LessEqual, Tokens.Plus, Tokens.Dash, Tokens.Star, Tokens.Slash}
  {
    match t
    case And => Some(And)
    case Or => Some(Or)
    case EqualEqual => Some(Equal)
    case BangEqual => Some(NotEqual)
    case Greater => Some(Greater)
    case GreaterEqual => Some(GreaterEqual)
    case Less => Some(Less)
    case LessEqual => Some(LessEqual)
    case Plus => Some(Add)
    case Dash => Some(Subtract)
    case Star => Some(Multiply)
    case Slash => Some(Divide)
    case _ => None
  }

  /** `UnaryOp::from_token`: `-` negates, `!` is logical not. */
  function UnaryOpOf(t: Tokens.Token): (r: Option<UnaryOp>)
    ensures r == Some(Negate) <==> t == Tokens.Dash
    ensures r == Some(Not) <==> t == Tokens.Bang
    ensures r.Some? <==> t in {Tokens.Dash, Tokens.Bang}
  {
    match t
    case Dash => Some(Negate)
    case Bang => Some(Not)
    case _ => None
  }

  /** Distinct operator tokens give distinct operators. */
  lemma BinaryOpOfInjective(t: Tokens.Token, u: Tokens.Token)
    requires BinaryOpOf(t).Some? && BinaryOpOf(t) == BinaryOpOf(u)
    ensures t == u
  {
  }

  // Patterns from expressions

  /**
   * `Pat::from_expr`: literals, identifiers, tags, maps and arrays convert
   * recursively; a map pair `[e]: v`, a spread of anything but an identifier,
   * or any other kind of expression makes the whole conversion fail.
   */
  function PatOf(e: Expr): Option<Pat>
    decreases e, 1
  {
    match e
    case Literal(lit) => Some(LitPat(lit))
    case Name(ident) => Some(IdentPat(ident))
    case Tag(span, tag, inner) =>
      var p := PatOf(inner);
      if p.Some? then Some(TagPat(span, tag, p.value)) else None
    case Map(span, pairs) =>
      var ps := MapPatPairsOf(pairs);
      if ps.Some? then Some(MapPat(span, ps.value)) else None
    case Array(span, items) =>
      var ps := ArrayPatItemsOf(items);
      if ps.Some? then Some(ArrayPat(span, ps.value)) else None
    case _ => None
  }

  /** The loop over a map literal's pairs, in order, stopping at the first that does not convert. */
  function MapPatPairsOf(pairs: seq<MapExprPair>): Option<seq<MapPatPair>>
    decreases pairs, 0
  {
    if pairs == [] then Some([])
    else
      var pair := pairs[0];
      assert pair in pairs;
      var first :=
        match pair
        case PairSpread(Name(ident)) => Some(PatSpread(ident))
        case PairIdent(field, value) =>
          assert value < pair;
          var p := PatOf(value);
          if p.Some? then Some(PatField(field, p.value)) else None
        case _ => None;
      if first.None? then None
      else
        var rest := MapPatPairsOf(pairs[1..]);
        if rest.Some? then Some([first.value] + rest.value) else None
  }

  /** The loop over an array literal's items. */
  function ArrayPatItemsOf(items: seq<ArrayExprItem>): Option<seq<ArrayPatItem>>
    decreases items, 0
  {
    if items == [] then Some([])
    else
      var item := items[0];
      assert item in items;
      var first :=
        match item
        case ItemSpread(Name(ident)) => Some(ItemSpreadPat(ident))
        case ItemExpr(value) =>
          assert value < item;
          var p := PatOf(value);
          if p.Some? then Some(ItemPat(p.value)) else None
        case _ => None;
      if first.None? then None
      else
        var rest := ArrayPatItemsOf(items[1..]);
        if rest.Some? then Some([first.value] + rest.value) else None
  }

  /** `AssignExprAssignee::from_expr`: an access stays an access, anything else must be a pattern. */
  function AssigneeOf(e: Expr): (r: Option<Assignee>)
    ensures e.Access? ==> r == Some(AssigneeAccess(e.access))
    ensures !e.Access? ==> (r.Some? <==> PatOf(e).Some?)
    ensures !e.Access? && r.Some? ==> r.value == AssigneePat(PatOf(e).value)
  {
    if e.Access? then Some(AssigneeAccess(e.access))
    else
      var p := PatOf(e);
      if p.Some? then Some(AssigneePat(p.value)) else None
  }

  /** The expression a pattern is written as: the inverse of `PatOf`. */
  function ExprOf(p: Pat): Expr
    decreases p, 1
  {
    match p
    case LitPat(lit) => Literal(lit)
    case IdentPat(ident) => Name(ident)
    case TagPat(span, tag, inner) => Tag(span, tag, ExprOf(inner))
    case MapPat(span, pairs) => Map(span, MapPairsExpr(pairs))
    case ArrayPat(span, items) => Array(span, ArrayItemsExpr(items))
  }

  function MapPairsExpr(pairs: seq<MapPatPair>): (r: seq<MapExprPair>)
    ensures |r| == |pairs|
    decreases pairs, 0
  {
    if pairs == [] then []
    else
      var pair := pairs[0];
      assert pair in pairs;
      var first := match pair
        case PatSpread(ident) => PairSpread(Name(ident))
        case PatField(field, p) => assert p < pair; PairIdent(field, ExprOf(p));
      [first] + MapPairsExpr(pairs[1..])
  }

  function ArrayItemsExpr(items: seq<ArrayPatItem>): (r: seq<ArrayExprItem>)
    ensures |r| == |items|
    decreases items, 0
  {
    if items == [] then []
    else
      var item := items[0];
      assert item in items;
      var first := match item
        case ItemSpreadPat(ident) => ItemSpread(Name(ident))
        case ItemPat(p) => assert p < item; ItemExpr(ExprOf(p));
      [first] + ArrayItemsExpr(items[1..])
  }

  /** Every pattern converts back from the expression it is written as. */
  lemma {:induction false} PatOfExprOf(p: Pat)
    ensures PatOf(ExprOf(p)) == Some(p)
    decreases p, 1
  {
    match p
    case LitPat(_) =>
    case IdentPat(_) =>
    case TagPat(span, tag, inner) => PatOfExprOf(inner);
    case MapPat(span, pairs) => MapPairsRoundTrip(pairs);
    case ArrayPat(span, items) => ArrayItemsRoundTrip(items);
  }

  lemma {:induction false} MapPairsRoundTrip(pairs: seq<MapPatPair>)
    ensures MapPatPairsOf(MapPairsExpr(pairs)) == Some(pairs)
    decreases pairs, 0
  {
    if pairs != [] {
      var es := MapPairsExpr(pairs);
      assert es[1..] == MapPairsExpr(pairs[1..]);
      match pairs[0] {
        case PatSpread(_) =>
        case PatField(_, q) => assert pairs[0] in pairs && q < pairs[0]; PatOfExprOf(q);
      }
      MapPairsRoundTrip(pairs[1..]);
      assert [pairs[0]] + pairs[1..] == pairs;
    }
  }

  lemma {:induction false} ArrayItemsRoundTrip(items: seq<ArrayPatItem>)
    ensures ArrayPatItemsOf(ArrayItemsExpr(items)) == Some(items)
    decreases items, 0
  {
    if items != [] {
      var es := ArrayItemsExpr(items);
      assert es[1..] == ArrayItemsExpr(items[1..]);
      match items[0] {
        case ItemSpreadPat(_) =>
        case ItemPat(q) => assert items[0] in items && q < items[0]; PatOfExprOf(q);
      }
      ArrayItemsRoundTrip(items[1..]);
      assert [items[0]] + items[1..] == items;
    }
  }

  /** A conversion that succeeds loses nothing: the expression is the pattern's own. */
  lemma {:induction false} ExprOfPatOf(e: Expr)
    requires PatOf(e).Some?
    ensures ExprOf(PatOf(e).value) == e
    decreases e, 1
  {
    match e
    case Literal(_) =>
    case Name(_) =>
    case Tag(span, tag, inner) => ExprOfPatOf(inner);
    case Map(span, pairs) => MapPairsBack(pairs);
    case Array(span, items) => ArrayItemsBack(items);
  }

  lemma {:induction false} MapPairsBack(pairs: seq<MapExprPair>)
    requires MapPatPairsOf(pairs).Some?
    ensures MapPairsExpr(MapPatPairsOf(pairs).value) == pairs
    decreases pairs, 0
  {
    if pairs != [] {
      var ps := MapPatPairsOf(pairs).value;
      MapPairsBack(pairs[1..]);
      assert ps[1..] == MapPatPairsOf(pairs[1..]).value;
      match pairs[0] {
        case PairSpread(_) =>
        case PairIdent(_, value) => assert pairs[0] in pairs && value < pairs[0]; ExprOfPatOf(value);
      }
      assert [pairs[0]] + pairs[1..] == pairs;
    }
  }

  lemma {:induction false} ArrayItemsBack(items: seq<ArrayExprItem>)
    requires ArrayPatItemsOf(items).Some?
    ensures ArrayItemsExpr(ArrayPatItemsOf(items).value) == items
    decreases items, 0
  {
    if items != [] {
      var ps := ArrayPatItemsOf(items).value;
      ArrayItemsBack(items[1..]);
      assert ps[1..] == ArrayPatItemsOf(items[1..]).value;
      match items[0] {
        case ItemSpread(_) =>
        case ItemExpr(value) => assert items[0] in items && value < items[0]; ExprOfPatOf(value);
      }
      assert [items[0]] + items[1..] == items;
    }
  }

  /** A map pair `[e]: v` is never a pattern, wherever it stands among the pairs. */
  lemma {:induction false} ComputedKeyIsNoPattern(span: Span, pairs: seq<MapExprPair>, i: nat)
    requires i < |pairs| && pairs[i].PairExpr?
    ensures PatOf(Map(span, pairs)) == None
    decreases i
  {
    MapPairsFail(pairs, i);
  }

  lemma {:induction false} MapPairsFail(pairs: seq<MapExprPair>, i: nat)
    requires i < |pairs| && pairs[i].PairExpr?
    ensures MapPatPairsOf(pairs) == None
    decreases i
  {
    if i > 0 {
      MapPairsFail(pairs[1..], i - 1);
    }
  }

  // The identifiers a pattern binds

  /**
   * `Pat::idents`: the bound identifiers, left to right; None where the
   * source reaches `unimplemented!` (an array pattern, a map spread).
   */
  function Idents(p: Pat): (r: Option<seq<Ident>>)
    decreases p, 1
  {
    match p
    case LitPat(_) => Some([])
    case IdentPat(ident) => Some([ident])
    case TagPat(_, _, inner) => Idents(inner)
    case MapPat(_, pairs) => PairIdents(pairs)
    case ArrayPat(_, _) => None
  }

  function PairIdents(pairs: seq<MapPatPair>): Option<seq<Ident>>
    decreases pairs, 0
  {
    if pairs == [] then Some([])
    else if pairs[0].PatSpread? then None
    else
      assert pairs[0] in pairs && pairs[0].pat < pairs[0];
      var first := Idents(pairs[0].pat);
      var rest := PairIdents(pairs[1..]);
      if first.Some? && rest.Some? then Some(first.value + rest.value) else None
  }

  /** The patterns the slot counter and `Pat::idents` handle: no array pattern, no map spread. */
  predicate Supported(p: Pat)
    decreases p, 1
  {
    match p
    case LitPat(_) => true
    case IdentPat(_) => true
    case TagPat(_, _, inner) => Supported(inner)
    case MapPat(_, pairs) => PairsSupported(pairs)
    case ArrayPat(_, _) => false
  }

  predicate PairsSupported(pairs: seq<MapPatPair>)
    decreases pairs, 0
  {
    pairs == [] || (pairs[0].PatField? && (assert pairs[0] in pairs && pairs[0].pat < pairs[0]; Supported(pairs[0].pat)) && PairsSupported(pairs[1..]))
  }

  /**
   * `count_pat_locals`: one slot per identifier, through tags, summed over a
   * map's pairs, none for a literal.
   */
  function PatLocals(p: Pat): nat
    requires Supported(p)
    decreases p, 1
  {
    match p
    case LitPat(_) => 0
    case IdentPat(_) => 1
    case TagPat(_, _, inner) => PatLocals(inner)
    case MapPat(_, pairs) => PairLocals(pairs)
  }

  function PairLocals(pairs: seq<MapPatPair>): nat
    requires PairsSupported(pairs)
    decreases pairs, 0
  {
    if pairs == [] then 0
    else
      assert pairs[0] in pairs && pairs[0].pat < pairs[0];
      PatLocals(pairs[0].pat) + PairLocals(pairs[1..])
  }

  /**
   * `Pat::idents` is defined exactly on the supported patterns, and lists as
   * many identifiers as the slot counter counts for them.
   */
  lemma {:induction false} IdentsCount(p: Pat)
    ensures Idents(p).Some? <==> Supported(p)
    ensures Supported(p) ==> |Idents(p).value| == PatLocals(p)
    decreases p, 1
  {
    match p
    case LitPat(_) =>
    case IdentPat(_) =>
    case TagPat(_, _, inner) => IdentsCount(inner);
    case MapPat(_, pairs) => PairIdentsCount(pairs);
    case ArrayPat(_, _) =>
  }

  lemma {:induction false} PairIdentsCount(pairs: seq<MapPatPair>)
    ensures PairIdents(pairs).Some? <==> PairsSupported(pairs)
    ensures PairsSupported(pairs) ==> |PairIdents(pairs).value| == PairLocals(pairs)
    decreases pairs, 0
  {
    if pairs != [] && pairs[0].PatField? {
      assert pairs[0] in pairs && pairs[0].pat < pairs[0];
      IdentsCount(pairs[0].pat);
      PairIdentsCount(pairs[1..]);
    }
  }

  // Spans

  function PatSpan(p: Pat): Span {
    match p
    case LitPat(lit) => lit.span
    case IdentPat(ident) => ident.span
    case TagPat(span, _, _) => span
    case MapPat(span, _) => span
    case ArrayPat(span, _) => span
  }

  /**
   * `Expr::span`: the recorded span, or for the kinds that record none the
   * span over their parts; an access takes its receiver's span.
   */
  function ExprSpan(e: Expr): Span
    decreases e, 1
  {
    match e
    case Literal(lit) => lit.span
    case Name(ident) => ident.span
    case Map(span, _) => span
    case Array(span, _) => span
    case Lambda(span, _, _) => span
    case Tag(span, _, _) => span
    case Block(span, _, _) => span
    case Binary(_, left, right) => Combine(ExprSpan(left), ExprSpan(right))
    case Unary(span, _, _) => span
    case Bind(bindee, value) => Combine(PatSpan(bindee), ExprSpan(value))
    case Assign(assignee, value) =>
      var left := match assignee
        case AssigneePat(p) => PatSpan(p)
        case AssigneeAccess(access) => ExprSpan(access.receiver);
      Combine(left, ExprSpan(value))
    case Call(receiver, arguments) => ArgumentsSpan(ExprSpan(receiver), arguments)
    case Access(access) => ExprSpan(access.receiver)
    case If(span, _, _, _) => span
    case Case(span, _, _) => span
    case For(span, _, _, _) => span
    case While(span, _, _) => span
  }

  /** `CallExpr::span`'s loop: the span widened by each argument in turn. */
  function ArgumentsSpan(span: Span, arguments: seq<CallExprArgument>): Span
    decreases arguments, 0
  {
    if arguments == [] then span
    else
      var argument := arguments[0];
      assert argument in arguments;
      var inner := match argument
        case ArgSpread(e) => e
        case ArgExpr(e) => e;
      assert inner < argument;
      ArgumentsSpan(Combine(span, ExprSpan(inner)), arguments[1..])
  }
}
