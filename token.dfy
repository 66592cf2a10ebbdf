/**
 * `src/compiler/token.rs`: token kinds and how they are shown, source spans
 * and their conversions to and from `Range<usize>`, and tokens with the
 * source text they cover.
 *
 * Source text is a sequence of characters indexed by the span's offsets.
 */
module Tokens {

  import opened Prims

  datatype TokenKind =
    // single character tokens
    | LParen | RParen | LBrace | RBrace | Comma | Dot | Add | Sub | Mul | Div | Semicolon
    // one or two character tokens
    | Not | Neq | Assign | Eq | Gt | Gte | Lt | Lte
    // literals
    | Number | String | Ident
    // keywords
    | And | Class | Else | False | For | Fun | If | Nil | Or | Print | Return
    | Super | This | True | Var | While
    | Error | Eof

  /**
   * `Display for TokenKind`. The braces are written `{{` and `}}` in the
   * format strings, which print as a single `{` and `}`.
   */
  function KindText(k: TokenKind): (s: string)
    ensures |s| >= 1
  {
    match k
    case LParen => "("
    case RParen => ")"
    case LBrace => "{"
    case RBrace => "}"
    case Comma => ","
    case Dot => "."
    case Add => "+"
    case Sub => "-"
    case Mul => "*"
    case Div => "/"
    case Semicolon => ";"
    case Not => "!"
    case Neq => "!="
    case Assign => "="
    case Eq => "=="
    case Gt => ">"
    case Gte => ">="
    case Lt => "<"
    case Lte => "<="
    case Number => "Number"
    case String => "String"
    case Ident => "Ident"
    case And => "and"
    case Class => "class"
    case Else => "else"
    case False => "false"
    case For => "for"
    case Fun => "fun"
    case If => "if"
    case Nil => "nil"
    case Or => "or"
    case Print => "print"
    case Return => "return"
    case Super => "super"
    case This => "this"
    case True => "true"
    case Var => "var"
    case While => "while"
    case Error => "Error"
    case Eof => "EOF"
  }

  /**
   * The exact text a `#[token(...)]` attribute makes the lexer match for a
   * kind; the literal kinds are matched by regular expressions, `Error` is
   * the lexer's fallback and `Eof` has no attribute.
   */
  function TokenAttribute(k: TokenKind): Option<string>
  {
    match k
    case LParen => Some("(")
    case RParen => Some(")")
    case LBrace => Some("{")
    case RBrace => Some("}")
    case Comma => Some(",")
    case Dot => Some(".")
    case Add => Some("+")
    case Sub => Some("-")
    case Mul => Some("*")
    case Div => Some("/")
    case Semicolon => Some(";")
    case Not => Some("!")
    case Neq => Some("!=")
    case Assign => Some("=")
    case Eq => Some("==")
    case Gt => Some(">")
    case Gte => Some(">=")
    case Lt => Some("<")
    case Lte => Some("<=")
    case And => Some("and")
    case Class => Some("class")
    case Else => Some("else")
    case False => Some("false")
    case For => Some("for")
    case Fun => Some("fun")
    case If => Some("if")
    case Nil => Some("nil")
    case Or => Some("or")
    case Print => Some("print")
    case Return => Some("return")
    case Super => Some("super")
    case This => Some("this")
    case True => Some("true")
    case Var => Some("var")
    case While => Some("while")
    case _ => None
  }

  /** The kind whose display is `s`, if any: the inverse of `KindText`. */
  function KindOfText(s: string): Option<TokenKind>
  {
    match s
    case "(" => Some(LParen)
    case ")" => Some(RParen)
    case "{" => Some(LBrace)
    case "}" => Some(RBrace)
    case "," => Some(Comma)
    case "." => Some(Dot)
    case "+" => Some(Add)
    case "-" => Some(Sub)
    case "*" => Some(Mul)
    case "/" => Some(Div)
    case ";" => Some(Semicolon)
    case "!" => Some(Not)
    case "!=" => Some(Neq)
    case "=" => Some(Assign)
    case "==" => Some(Eq)
    case ">" => Some(Gt)
    case ">=" => Some(Gte)
    case "<" => Some(Lt)
    case "<=" => Some(Lte)
    case "Number" => Some(Number)
    case "String" => Some(String)
    case "Ident" => Some(Ident)
    case "and" => Some(And)
    case "class" => Some(Class)
    case "else" => Some(Else)
    case "false" => Some(False)
    case "for" => Some(For)
    case "fun" => Some(Fun)
    case "if" => Some(If)
    case "nil" => Some(Nil)
    case "or" => Some(Or)
    case "print" => Some(Print)
    case "return" => Some(Return)
    case "super" => Some(Super)
    case "this" => Some(This)
    case "true" => Some(True)
    case "var" => Some(Var)
    case "while" => Some(While)
    case "Error" => Some(Error)
    case "EOF" => Some(Eof)
    case _ => None
  }

  /** Every kind's display reads back as that kind. */
  lemma KindTextRoundTrip(k: TokenKind)
    ensures KindOfText(KindText(k)) == Some(k)
  {
  }

  /** No two kinds display the same. */
  lemma KindTextInjective(a: TokenKind, b: TokenKind)
    requires KindText(a) == KindText(b)
    ensures a == b
  {
    KindTextRoundTrip(a);
    KindTextRoundTrip(b);
  }

  /** A punctuation, operator or keyword kind displays as the text the lexer matches for it. */
  lemma KindTextIsTokenText(k: TokenKind)
    requires TokenAttribute(k).Some?
    ensures KindText(k) == TokenAttribute(k).value
  {
  }

  /** The other kinds display as the name of their category. */
  lemma CategoryKindText(k: TokenKind)
    requires TokenAttribute(k).None?
    ensures k in {Number, String, Ident, Error, Eof}
    ensures KindText(k) == match k
      case Number => "Number"
      case String => "String"
      case Ident => "Ident"
      case Error => "Error"
      case _ => "EOF"
  {
  }

  /** A source range of offsets: `start` inclusive, `end` exclusive. */
  datatype Span = Span(start: U32, end: U32)

  /** `Range<usize>` */
  datatype Range = Range(start: USize, end: USize)

  /** `Span::new` */
  function NewSpan(start: U32, end: U32): (s: Span)
    ensures s.start == start && s.end == end
  {
    Span(start, end)
  }

  /** `From<Range<usize>> for Span`: each bound is cast with `as u32`, keeping its low 32 bits. */
  function SpanOfRange(r: Range): (s: Span)
    ensures s.start == r.start <==> r.start < U32_LIMIT
    ensures s.end == r.end <==> r.end < U32_LIMIT
    ensures (r.start - s.start) % U32_LIMIT == 0 && (r.end - s.end) % U32_LIMIT == 0
  {
    Span(r.start % U32_LIMIT, r.end % U32_LIMIT)
  }

  /** `From<Span> for Range<usize>`: `as usize` widens without loss. */
  function RangeOfSpan(s: Span): (r: Range)
    ensures r.start == s.start && r.end == s.end
  {
    Range(s.start, s.end)
  }

  /** Span to range and back is the identity. */
  lemma SpanRangeRoundTrip(s: Span)
    ensures SpanOfRange(RangeOfSpan(s)) == s
  {
  }

  /** Range to span and back is the identity exactly when both bounds fit in 32 bits. */
  lemma RangeSpanRoundTrip(r: Range)
    ensures RangeOfSpan(SpanOfRange(r)) == r <==> r.start < U32_LIMIT && r.end < U32_LIMIT
  {
  }

  /**
   * `Index<Span> for str`: the text between the span's bounds. Slicing
   * outside the text or with `start > end` panics; callers keep within it.
   */
  function Slice(src: string, span: Span): (t: string)
    requires span.start <= span.end <= |src|
    ensures |t| == span.end - span.start
    ensures src == src[..span.start] + t + src[span.end..]
  {
    var r := RangeOfSpan(span);
    src[r.start..r.end]
  }

  datatype Token = Token(kind: TokenKind, span: Span)

  /** `Token::new` */
  function NewToken(kind: TokenKind, span: Span): (t: Token)
    ensures t.kind == kind && t.span == span
  {
    Token(kind, span)
  }

  /** `Token::lit`: the source text the token covers. */
  function Lit(tok: Token, src: string): (t: string)
    requires tok.span.start <= tok.span.end <= |src|
    ensures |t| == tok.span.end - tok.span.start
    ensures forall i :: 0 <= i < |t| ==> t[i] == src[tok.span.start + i]
  {
    Slice(src, tok.span)
  }
}
