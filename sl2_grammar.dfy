/**
 * What scripting-language-2's parser computes, stated on expression trees.
 *
 * `Tokens` prints a tree; `Emit` is the chunk a tree compiles to, with the
 * chunk operations as written: operands before operators, constants handed
 * out left to right, every Load carrying the identifier table's size at that
 * point, and an assignment's target loaded, taken back (its position stays)
 * and stored by the index its Load carried. For every tree
 * the grammar can print without parentheses (`WellFormed`: and/or, +/- and
 * * and / group to the left, ^ to the right, prefix operators bind tightest),
 * parsing the printed tokens yields exactly the emitted chunk. The parser's
 * precedence and associativity are therefore the tree's.
 */
module Sl2Grammar {
  import opened Wrappers
  import Sl2Token
  import opened Sl2Chunk
  import opened Sl2Parser

  datatype Expr =
    | Literal(bits: nat, pos: Sl2Token.Pos)
    | Variable(name: string, pos: Sl2Token.Pos)
    | Prefix(op: Sl2Token.TokenKind, pos: Sl2Token.Pos, operand: Expr)
    | Infix(op: Sl2Token.TokenKind, pos: Sl2Token.Pos, left: Expr, right: Expr)
    | AssignTo(name: string, namePos: Sl2Token.Pos, pos: Sl2Token.Pos, value: Expr)

  /** How tightly an infix operator binds: `=` 0, and/or 1, +/- 2, * and / 3, ^ 4. */
  function InfixGrade(kind: Sl2Token.TokenKind): Option<nat> {
    match kind
    case Assign => Some(0)
    case And => Some(1)
    case Or => Some(1)
    case Add => Some(2)
    case Subtract => Some(2)
    case Multiply => Some(3)
    case Divide => Some(3)
    case Power => Some(4)
    case _ => None
  }

  /** How tightly a tree's top operator binds; prefix operators 5, leaves 6. */
  function Grade(e: Expr): nat {
    match e
    case Literal(_, _) => 6
    case Variable(_, _) => 6
    case Prefix(_, _, _) => 5
    case Infix(op, _, _, _) => if InfixGrade(op).Some? then InfixGrade(op).value else 0
    case AssignTo(_, _, _, _) => 0
  }

  /** The trees the grammar prints without parentheses. */
  predicate WellFormed(e: Expr) {
    match e
    case Literal(_, _) => true
    case Variable(_, _) => true
    case Prefix(op, _, x) => (op == Sl2Token.Not || op == Sl2Token.Subtract) && Grade(x) >= 5 && WellFormed(x)
    case Infix(op, _, l, r) =>
      && InfixGrade(op).Some? && 1 <= InfixGrade(op).value
      && (if op == Sl2Token.Power then Grade(l) >= 5 && Grade(r) >= 4
          else Grade(l) >= InfixGrade(op).value && Grade(r) > InfixGrade(op).value)
      && WellFormed(l) && WellFormed(r)
    case AssignTo(_, _, _, v) => WellFormed(v)
  }

  /** The tokens a tree prints as. */
  function Tokens(e: Expr): (r: seq<Sl2Token.Token>)
    ensures |r| > 0
  {
    match e
    case Literal(bits, pos) => [Sl2Token.Token(pos, Sl2Token.Number(bits))]
    case Variable(name, pos) => [Sl2Token.Token(pos, Sl2Token.Identifier(name))]
    case Prefix(op, pos, x) => [Sl2Token.Token(pos, op)] + Tokens(x)
    case Infix(op, pos, l, r) => Tokens(l) + [Sl2Token.Token(pos, op)] + Tokens(r)
    case AssignTo(name, namePos, pos, v) =>
      [Sl2Token.Token(namePos, Sl2Token.Identifier(name)), Sl2Token.Token(pos, Sl2Token.Assign)] + Tokens(v)
  }

  /** The chunk a tree compiles to, appended to st. */
  function Emit(e: Expr, st: ChunkState): (r: ChunkState)
    ensures |r.instructions| > |st.instructions|
  {
    match e
    case Literal(bits, pos) => PushedConstant(st, Number(bits), pos)
    case Variable(name, pos) => LoadedAsWritten(st, name, pos)
    case Prefix(op, pos, x) =>
      Pushed(Emit(x, st), if op == Sl2Token.Subtract then Negate else Not, pos)
    case Infix(op, pos, l, r) =>
      var operands := Emit(r, Emit(l, st));
      var instruction := if InstructionOf(Sl2Token.Token(pos, op)).Some? then InstructionOf(Sl2Token.Token(pos, op)).value else Pop;
      Pushed(operands, instruction, pos)
    case AssignTo(name, namePos, pos, v) =>
      var loaded := LoadedAsWritten(st, name, namePos);
      Pushed(Emit(v, PoppedAsWritten(loaded)), Store(|st.identifiers|), pos)
  }

  /** The tokens from p on start with ts. */
  predicate At(tokens: seq<Sl2Token.Token>, p: nat, ts: seq<Sl2Token.Token>)
    decreases |ts|
  {
    |ts| == 0 || (p < |tokens| && tokens[p] == ts[0] && At(tokens, p + 1, ts[1..]))
  }

  /** The token at q, if any, is no infix operator binding at grade g or tighter, so a parse at grade g stops there. */
  predicate Stops(tokens: seq<Sl2Token.Token>, q: nat, g: nat) {
    match KindAt(tokens, q)
    case None => true
    case Some(kind) => InfixGrade(kind).None? || InfixGrade(kind).value < g
  }

  lemma {:induction false} AtSplit(tokens: seq<Sl2Token.Token>, p: nat, a: seq<Sl2Token.Token>, t: Sl2Token.Token, b: seq<Sl2Token.Token>)
    requires At(tokens, p, a + [t] + b)
    ensures At(tokens, p, a) && p + |a| < |tokens| && tokens[p + |a|] == t && At(tokens, p + |a| + 1, b)
    decreases |a|
  {
    var all := a + [t] + b;
    if |a| == 0 {
      assert all == [t] + b;
      assert all[1..] == b;
    } else {
      assert all[0] == a[0];
      assert all[1..] == a[1..] + [t] + b;
      AtSplit(tokens, p + 1, a[1..], t, b);
    }
  }

  /** A sequence starts, from each of its positions k, with the rest of its prefix. */
  lemma {:induction false} AtPrefix(xs: seq<Sl2Token.Token>, ys: seq<Sl2Token.Token>, k: nat)
    requires k <= |xs|
    ensures At(xs + ys, k, xs[k..])
    decreases |xs| - k
  {
    if k < |xs| {
      assert xs[k..][1..] == xs[k + 1..];
      AtPrefix(xs, ys, k + 1);
    }
  }

  lemma AtHead(tokens: seq<Sl2Token.Token>, p: nat, t: Sl2Token.Token, b: seq<Sl2Token.Token>)
    requires At(tokens, p, [t] + b)
    ensures tokens[p] == t && At(tokens, p + 1, b)
  {
    AtSplit(tokens, p, [], t, b);
  }

  /** The left-associative level of grade g (1 to 3), or the power level (4). */
  function LevelOf(g: nat): Level
    requires 1 <= g <= 4
  {
    if g == 1 then Logical else if g == 2 then Additive else if g == 3 then Multiplicative else Exponential
  }

  /** The grade-g level, its loop and its operands' level. */
  lemma LevelFacts(g: nat)
    requires 1 <= g <= 3
    ensures IsLeftAssociative(LevelOf(g)) && IsLoop(LoopOf(LevelOf(g)))
    ensures Operand(LevelOf(g)) == LevelOf(g + 1) && Operand(LoopOf(LevelOf(g))) == LevelOf(g + 1)
    ensures forall kind :: LoopOperator(LoopOf(LevelOf(g)), Some(kind)) <==> InfixGrade(kind) == Some(g)
    ensures !LoopOperator(LoopOf(LevelOf(g)), None)
  {
  }

  // Single steps of the parser. Each is stated on the parses of the
  // operands; `whole` and `end` name the resulting chunk and position.

  lemma UnaryStep(tokens: seq<Sl2Token.Token>, path: string, p: nat, st: ChunkState, operand: ChunkState, n: nat, whole: ChunkState, end: nat)
    requires (KindAt(tokens, p) == Some(Sl2Token.Not) || KindAt(tokens, p) == Some(Sl2Token.Subtract))
    requires ParseLevel(Unary, tokens, path, p + 1, st) == Parsed(operand, n, None)
    requires whole == Pushed(operand, if tokens[p].kind == Sl2Token.Subtract then Negate else Not, tokens[p].pos) && end == n
    ensures ParseLevel(Unary, tokens, path, p, st) == Parsed(whole, end, None)
  {
    assert tokens[p].kind == Sl2Token.Not ==> InstructionOf(tokens[p]) == Some(Not);
    assert UnaryOperation(tokens, path, p, st) == Parsed(whole, end, None);
  }

  lemma UnaryTerm(tokens: seq<Sl2Token.Token>, path: string, p: nat, st: ChunkState)
    requires KindAt(tokens, p) != Some(Sl2Token.Not) && KindAt(tokens, p) != Some(Sl2Token.Subtract)
    ensures ParseLevel(Unary, tokens, path, p, st) == ParseLevel(Term, tokens, path, p, st)
  {
  }

  lemma PowerStep(tokens: seq<Sl2Token.Token>, path: string, p: nat, st: ChunkState, left: ChunkState, q: nat, right: ChunkState, n: nat, whole: ChunkState, end: nat)
    requires ParseLevel(Unary, tokens, path, p, st) == Parsed(left, q, None)
    requires KindAt(tokens, q) == Some(Sl2Token.Power)
    requires ParseLevel(Exponential, tokens, path, q + 1, left) == Parsed(right, n, None)
    requires InstructionOf(tokens[q]).Some? && whole == Pushed(right, InstructionOf(tokens[q]).value, tokens[q].pos) && end == n
    ensures ParseLevel(Exponential, tokens, path, p, st) == Parsed(whole, end, None)
  {
    assert PowerOperation(tokens, path, p, st) == Parsed(whole, end, None);
  }

  lemma PowerStop(tokens: seq<Sl2Token.Token>, path: string, p: nat, st: ChunkState, left: ChunkState, q: nat)
    requires ParseLevel(Unary, tokens, path, p, st) == Parsed(left, q, None)
    requires KindAt(tokens, q) != Some(Sl2Token.Power)
    ensures ParseLevel(Exponential, tokens, path, p, st) == Parsed(left, q, None)
  {
    assert PowerOperation(tokens, path, p, st) == Parsed(left, q, None);
  }

  lemma ChainStart(level: Level, tokens: seq<Sl2Token.Token>, path: string, p: nat, st: ChunkState, left: ChunkState, q: nat)
    requires IsLeftAssociative(level)
    requires ParseLevel(Operand(level), tokens, path, p, st) == Parsed(left, q, None)
    ensures ParseLevel(level, tokens, path, p, st) == ParseLevel(LoopOf(level), tokens, path, q, left)
  {
    assert LeftAssociative(level, tokens, path, p, st) == ParseLevel(LoopOf(level), tokens, path, q, left);
  }

  lemma LoopStep(level: Level, tokens: seq<Sl2Token.Token>, path: string, q: nat, st: ChunkState, right: ChunkState, n: nat)
    requires IsLoop(level) && LoopOperator(level, KindAt(tokens, q))
    requires ParseLevel(Operand(level), tokens, path, q + 1, st) == Parsed(right, n, None)
    ensures InstructionOf(tokens[q]).Some?
    ensures ParseLevel(level, tokens, path, q, st)
      == ParseLevel(level, tokens, path, n, Pushed(right, InstructionOf(tokens[q]).value, tokens[q].pos))
  {
    assert OperatorLoop(level, tokens, path, q, st)
      == ParseLevel(level, tokens, path, n, Pushed(right, InstructionOf(tokens[q]).value, tokens[q].pos));
  }

  lemma LoopStop(level: Level, tokens: seq<Sl2Token.Token>, path: string, q: nat, st: ChunkState)
    requires IsLoop(level) && !LoopOperator(level, KindAt(tokens, q))
    ensures ParseLevel(level, tokens, path, q, st) == Parsed(st, q, None)
  {
    assert OperatorLoop(level, tokens, path, q, st) == Parsed(st, q, None);
  }

  lemma AssignStep(tokens: seq<Sl2Token.Token>, path: string, p: nat, st: ChunkState, left: ChunkState, q: nat, right: ChunkState, n: nat, whole: ChunkState, end: nat)
    requires ParseLevel(Logical, tokens, path, p, st) == Parsed(left, q, None)
    requires KindAt(tokens, q) == Some(Sl2Token.Assign)
    requires |left.instructions| > 0 && left.instructions[|left.instructions| - 1].Load?
    requires ParseLevel(Assignment, tokens, path, q + 1, PoppedAsWritten(left)) == Parsed(right, n, None)
    requires whole == Pushed(right, Store(left.instructions[|left.instructions| - 1].index), tokens[q].pos) && end == n
    ensures ParseLevel(Assignment, tokens, path, p, st) == Parsed(whole, end, None)
  {
    assert AssignmentOperation(tokens, path, p, st) == Parsed(whole, end, None);
  }

  lemma AssignStop(tokens: seq<Sl2Token.Token>, path: string, p: nat, st: ChunkState, left: ChunkState, q: nat)
    requires ParseLevel(Logical, tokens, path, p, st) == Parsed(left, q, None)
    requires KindAt(tokens, q) != Some(Sl2Token.Assign)
    ensures ParseLevel(Assignment, tokens, path, p, st) == Parsed(left, q, None)
  {
    assert AssignmentOperation(tokens, path, p, st) == Parsed(left, q, None);
  }

  /** The grade-g level starts with its operand, then runs its loop. */
  lemma ChainStartAt(g: nat, tokens: seq<Sl2Token.Token>, path: string, p: nat, st: ChunkState, left: ChunkState, q: nat)
    requires 1 <= g <= 3
    requires ParseLevel(LevelOf(g + 1), tokens, path, p, st) == Parsed(left, q, None)
    ensures ParseLevel(LevelOf(g), tokens, path, p, st) == ParseLevel(LoopOf(LevelOf(g)), tokens, path, q, left)
  {
    LevelFacts(g);
    ChainStart(LevelOf(g), tokens, path, p, st, left, q);
  }

  /** One round of the grade-g loop on an operator of grade g. */
  lemma ChainStepAt(g: nat, tokens: seq<Sl2Token.Token>, path: string, q: nat, st: ChunkState, right: ChunkState, n: nat, whole: ChunkState, end: nat)
    requires 1 <= g <= 3 && q < |tokens| && InfixGrade(tokens[q].kind) == Some(g)
    requires ParseLevel(LevelOf(g + 1), tokens, path, q + 1, st) == Parsed(right, n, None)
    requires InstructionOf(tokens[q]).Some? && whole == Pushed(right, InstructionOf(tokens[q]).value, tokens[q].pos) && end == n
    ensures ParseLevel(LoopOf(LevelOf(g)), tokens, path, q, st) == ParseLevel(LoopOf(LevelOf(g)), tokens, path, end, whole)
  {
    LevelFacts(g);
    LoopStep(LoopOf(LevelOf(g)), tokens, path, q, st, right, n);
  }

  /** The grade-g loop ends before any operator looser than g. */
  lemma ChainStopAt(g: nat, tokens: seq<Sl2Token.Token>, path: string, q: nat, st: ChunkState)
    requires 1 <= g <= 3 && Stops(tokens, q, g)
    ensures ParseLevel(LoopOf(LevelOf(g)), tokens, path, q, st) == Parsed(st, q, None)
  {
    LevelFacts(g);
    LoopStop(LoopOf(LevelOf(g)), tokens, path, q, st);
  }

  /** An infix tree's left operand: its tokens come first and stop at the tree's operator. */
  lemma InfixLeft(e: Expr, tokens: seq<Sl2Token.Token>, p: nat)
    requires e.Infix? && WellFormed(e) && At(tokens, p, Tokens(e))
    ensures WellFormed(e.left) && At(tokens, p, Tokens(e.left)) && Stops(tokens, p + |Tokens(e.left)|, Grade(e) + 1)
    ensures Grade(e) == 4 ==> Grade(e.left) >= 5
    ensures Grade(e) < 4 ==> Grade(e.left) >= Grade(e)
  {
    AtSplit(tokens, p, Tokens(e.left), Sl2Token.Token(e.pos, e.op), Tokens(e.right));
  }

  /** An infix tree's operator, at q, and its right operand, which ends where the tree ends. */
  lemma InfixRight(e: Expr, tokens: seq<Sl2Token.Token>, p: nat, st: ChunkState, k: nat) returns (q: nat)
    requires e.Infix? && WellFormed(e) && At(tokens, p, Tokens(e)) && Stops(tokens, p + |Tokens(e)|, k)
    ensures q == p + |Tokens(e.left)| && q < |tokens| && InfixGrade(tokens[q].kind) == Some(Grade(e))
    ensures KindAt(tokens, q) == Some(e.op) && 1 <= Grade(e) <= 4 && (e.op == Sl2Token.Power <==> Grade(e) == 4)
    ensures WellFormed(e.right) && At(tokens, q + 1, Tokens(e.right)) && Stops(tokens, q + 1 + |Tokens(e.right)|, k)
    ensures p + |Tokens(e)| == q + 1 + |Tokens(e.right)|
    ensures Grade(e) == 4 ==> Grade(e.right) >= 4
    ensures Grade(e) < 4 ==> Grade(e.right) > Grade(e)
    ensures InstructionOf(tokens[q]).Some?
    ensures Emit(e, st) == Pushed(Emit(e.right, Emit(e.left, st)), InstructionOf(tokens[q]).value, tokens[q].pos)
  {
    q := p + |Tokens(e.left)|;
    AtSplit(tokens, p, Tokens(e.left), Sl2Token.Token(e.pos, e.op), Tokens(e.right));
  }

  // The round trip, level by level.

  /** A leaf is one term: a Load of its name or a Push of its constant. */
  lemma TermRoundTrip(e: Expr, tokens: seq<Sl2Token.Token>, path: string, p: nat, st: ChunkState)
    requires e.Literal? || e.Variable?
    requires At(tokens, p, Tokens(e))
    ensures ParseLevel(Term, tokens, path, p, st) == Parsed(Emit(e, st), p + |Tokens(e)|, None)
  {
    assert tokens[p] == Tokens(e)[0];
    assert TermOperation(tokens, path, p, st) == Parsed(Emit(e, st), p + |Tokens(e)|, None);
  }

  /** A leaf or prefix tree parses at the unary level to its chunk. */
  lemma {:induction false} UnaryRoundTrip(e: Expr, tokens: seq<Sl2Token.Token>, path: string, p: nat, st: ChunkState)
    requires WellFormed(e) && Grade(e) >= 5
    requires At(tokens, p, Tokens(e))
    ensures ParseLevel(Unary, tokens, path, p, st) == Parsed(Emit(e, st), p + |Tokens(e)|, None)
    decreases e, 0
  {
    hide ParseLevel;
    match e
    case Prefix(op, pos, x) =>
      AtHead(tokens, p, Sl2Token.Token(pos, op), Tokens(x));
      assert KindAt(tokens, p) == Some(op);
      UnaryRoundTrip(x, tokens, path, p + 1, st);
      UnaryStep(tokens, path, p, st, Emit(x, st), p + 1 + |Tokens(x)|, Emit(e, st), p + |Tokens(e)|);
    case Literal(_, _) =>
      assert tokens[p] == Tokens(e)[0];
      UnaryTerm(tokens, path, p, st);
      TermRoundTrip(e, tokens, path, p, st);
    case Variable(_, _) =>
      assert tokens[p] == Tokens(e)[0];
      UnaryTerm(tokens, path, p, st);
      TermRoundTrip(e, tokens, path, p, st);
  }

  /** A `^` tree: its left operand at the unary level, then the power level again on its right operand. */
  lemma {:induction false} PowerInfixRoundTrip(e: Expr, tokens: seq<Sl2Token.Token>, path: string, p: nat, st: ChunkState)
    requires e.Infix? && WellFormed(e) && Grade(e) >= 4
    requires At(tokens, p, Tokens(e)) && Stops(tokens, p + |Tokens(e)|, 4)
    ensures ParseLevel(Exponential, tokens, path, p, st) == Parsed(Emit(e, st), p + |Tokens(e)|, None)
    decreases e, 1
  {
    hide *;
    InfixLeft(e, tokens, p);
    var l, r := e.left, e.right;
    var q := InfixRight(e, tokens, p, st, 4);
    UnaryRoundTrip(l, tokens, path, p, st);
    PowerRoundTrip(r, tokens, path, q + 1, Emit(l, st));
    PowerStep(tokens, path, p, st, Emit(l, st), q, Emit(r, Emit(l, st)), q + 1 + |Tokens(r)|, Emit(e, st), p + |Tokens(e)|);
  }

  /** A tree of grade 4 or tighter, followed by no `^`, parses at the power level to its chunk. */
  lemma {:induction false} PowerRoundTrip(e: Expr, tokens: seq<Sl2Token.Token>, path: string, p: nat, st: ChunkState)
    requires WellFormed(e) && Grade(e) >= 4
    requires At(tokens, p, Tokens(e)) && Stops(tokens, p + |Tokens(e)|, 4)
    ensures ParseLevel(Exponential, tokens, path, p, st) == Parsed(Emit(e, st), p + |Tokens(e)|, None)
    decreases e, 2
  {
    hide ParseLevel;
    if e.Infix? {
      PowerInfixRoundTrip(e, tokens, path, p, st);
    } else {
      assert Grade(e) >= 5;
      assert KindAt(tokens, p + |Tokens(e)|) != Some(Sl2Token.Power);
      UnaryRoundTrip(e, tokens, path, p, st);
      PowerStop(tokens, path, p, st, Emit(e, st), p + |Tokens(e)|);
    }
  }

  /** A grade-g operator at the top: the chain of its left operand, then one round of the loop. */
  lemma {:induction false} ChainInfixRoundTrip(g: nat, e: Expr, tokens: seq<Sl2Token.Token>, path: string, p: nat, st: ChunkState)
    requires 1 <= g <= 3 && e.Infix? && WellFormed(e) && Grade(e) == g
    requires At(tokens, p, Tokens(e)) && Stops(tokens, p + |Tokens(e)|, g + 1)
    ensures ParseLevel(LevelOf(g), tokens, path, p, st)
      == ParseLevel(LoopOf(LevelOf(g)), tokens, path, p + |Tokens(e)|, Emit(e, st))
    decreases e, 13 - 3 * g
  {
    hide *;
    InfixLeft(e, tokens, p);
    ChainRoundTrip(g, e.left, tokens, path, p, st);
    ChainRightRoundTrip(g, e, tokens, path, p, st);
  }

  /** The loop's round on a grade-g tree's operator and right operand ends after the tree, with the tree's chunk. */
  lemma {:induction false} ChainRightRoundTrip(g: nat, e: Expr, tokens: seq<Sl2Token.Token>, path: string, p: nat, st: ChunkState)
    requires 1 <= g <= 3 && e.Infix? && WellFormed(e) && Grade(e) == g
    requires At(tokens, p, Tokens(e)) && Stops(tokens, p + |Tokens(e)|, g + 1)
    ensures ParseLevel(LoopOf(LevelOf(g)), tokens, path, p + |Tokens(e.left)|, Emit(e.left, st))
      == ParseLevel(LoopOf(LevelOf(g)), tokens, path, p + |Tokens(e)|, Emit(e, st))
    decreases e, 0
  {
    hide *;
    var l, r := e.left, e.right;
    var q := InfixRight(e, tokens, p, st, g + 1);
    LevelRoundTrip(g + 1, r, tokens, path, q + 1, Emit(l, st));
    ChainStepAt(g, tokens, path, q, Emit(l, st), Emit(r, Emit(l, st)), q + 1 + |Tokens(r)|, Emit(e, st), p + |Tokens(e)|);
  }

  /**
   * A tree of grade g or tighter (g from 1 to 3): parsing its operand and
   * running the loop from p reaches the loop after the whole tree, with the
   * tree's chunk.
   */
  lemma {:induction false} ChainRoundTrip(g: nat, e: Expr, tokens: seq<Sl2Token.Token>, path: string, p: nat, st: ChunkState)
    requires 1 <= g <= 3 && WellFormed(e) && Grade(e) >= g
    requires At(tokens, p, Tokens(e)) && Stops(tokens, p + |Tokens(e)|, g + 1)
    ensures ParseLevel(LevelOf(g), tokens, path, p, st)
      == ParseLevel(LoopOf(LevelOf(g)), tokens, path, p + |Tokens(e)|, Emit(e, st))
    decreases e, 14 - 3 * g
  {
    hide ParseLevel;
    if Grade(e) == g {
      ChainInfixRoundTrip(g, e, tokens, path, p, st);
    } else {
      LevelRoundTrip(g + 1, e, tokens, path, p, st);
      ChainStartAt(g, tokens, path, p, st, Emit(e, st), p + |Tokens(e)|);
    }
  }

  /** A tree of grade g or tighter, followed by no operator of its grade or tighter, parses at level g to its chunk. */
  lemma {:induction false} LevelRoundTrip(g: nat, e: Expr, tokens: seq<Sl2Token.Token>, path: string, p: nat, st: ChunkState)
    requires 1 <= g <= 4 && WellFormed(e) && Grade(e) >= g
    requires At(tokens, p, Tokens(e)) && Stops(tokens, p + |Tokens(e)|, g)
    ensures ParseLevel(LevelOf(g), tokens, path, p, st) == Parsed(Emit(e, st), p + |Tokens(e)|, None)
    decreases e, 15 - 3 * g
  {
    hide ParseLevel;
    if g == 4 {
      assert LevelOf(g) == Exponential;
      PowerRoundTrip(e, tokens, path, p, st);
    } else {
      ChainRoundTrip(g, e, tokens, path, p, st);
      ChainStopAt(g, tokens, path, p + |Tokens(e)|, Emit(e, st));
    }
  }

  /** `name = value`: the target loads, is taken back, and is stored after the value. */
  lemma {:induction false} AssignToRoundTrip(e: Expr, tokens: seq<Sl2Token.Token>, path: string, p: nat, st: ChunkState)
    requires e.AssignTo? && WellFormed(e)
    requires At(tokens, p, Tokens(e)) && Stops(tokens, p + |Tokens(e)|, 0)
    ensures ParseLevel(Assignment, tokens, path, p, st) == Parsed(Emit(e, st), p + |Tokens(e)|, None)
    decreases e, 13
  {
    hide ParseLevel;
    var v := e.value;
    var target := Variable(e.name, e.namePos);
    AtHead(tokens, p, Sl2Token.Token(e.namePos, Sl2Token.Identifier(e.name)), [Sl2Token.Token(e.pos, Sl2Token.Assign)] + Tokens(v));
    AtHead(tokens, p + 1, Sl2Token.Token(e.pos, Sl2Token.Assign), Tokens(v));
    var loaded := LoadedAsWritten(st, e.name, e.namePos);
    assert Emit(target, st) == loaded && |Tokens(target)| == 1 && At(tokens, p, Tokens(target));
    assert KindAt(tokens, p + 1) == Some(Sl2Token.Assign) && Stops(tokens, p + |Tokens(target)|, 1);
    assert LevelOf(1) == Logical;
    LevelRoundTrip(1, target, tokens, path, p, st);
    AssignmentRoundTrip(v, tokens, path, p + 1 + 1, PoppedAsWritten(loaded));
    AssignStep(tokens, path, p, st, loaded, p + 1, Emit(v, PoppedAsWritten(loaded)), p + 1 + 1 + |Tokens(v)|, Emit(e, st), p + |Tokens(e)|);
  }

  /** Any well-formed tree followed by no infix operator parses at the assignment level to its chunk. */
  lemma {:induction false} AssignmentRoundTrip(e: Expr, tokens: seq<Sl2Token.Token>, path: string, p: nat, st: ChunkState)
    requires WellFormed(e)
    requires At(tokens, p, Tokens(e)) && Stops(tokens, p + |Tokens(e)|, 0)
    ensures ParseLevel(Assignment, tokens, path, p, st) == Parsed(Emit(e, st), p + |Tokens(e)|, None)
    decreases e, 14
  {
    hide ParseLevel;
    if e.AssignTo? {
      AssignToRoundTrip(e, tokens, path, p, st);
    } else {
      assert KindAt(tokens, p + |Tokens(e)|) != Some(Sl2Token.Assign);
      assert LevelOf(1) == Logical;
      LevelRoundTrip(1, e, tokens, path, p, st);
      AssignStop(tokens, path, p, st, Emit(e, st), p + |Tokens(e)|);
    }
  }

  /** `parse_declaration` on a printed tree: the tree's chunk, ending after the tree. */
  lemma DeclarationRoundTrip(e: Expr, tokens: seq<Sl2Token.Token>, path: string, p: nat)
    requires WellFormed(e) && At(tokens, p, Tokens(e)) && Stops(tokens, p + |Tokens(e)|, 0)
    ensures Declaration(tokens, path, p) == Parsed(Emit(e, Empty(path)), p + |Tokens(e)|, None)
  {
    hide ParseLevel;
    AssignmentRoundTrip(e, tokens, path, 0 + p, Empty(path));
  }

  /** `parse` on one printed tree and end of file: exactly that tree's chunk. */
  lemma ParseRoundTrip(e: Expr, path: string, end: Sl2Token.Pos)
    requires WellFormed(e)
    ensures Chunks(Tokens(e) + [Sl2Token.Token(end, Sl2Token.EndOfFile)], path, 0) == [Ok(Emit(e, Empty(path)))]
  {
    hide ParseLevel;
    var tokens := Tokens(e) + [Sl2Token.Token(end, Sl2Token.EndOfFile)];
    AtPrefix(Tokens(e), [Sl2Token.Token(end, Sl2Token.EndOfFile)], 0);
    assert Tokens(e)[0..] == Tokens(e);
    assert tokens[|Tokens(e)|].kind == Sl2Token.EndOfFile;
    assert tokens[0] == Tokens(e)[0];
    DeclarationRoundTrip(e, tokens, path, 0);
  }
}
