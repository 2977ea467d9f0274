/**
 * The lexer: `lexer_next` moves a cursor over the source text and leaves
 * one token behind.  `Lex` is the reference definition of one step; the
 * class `Lexer` is the cursor object the parser advances, and its method
 * `Next` is proved to take exactly that step.
 */
module Lexical {
  import opened Wrappers

  datatype Token =
    | Eof
    | Number(value: real)
    | Ident(name: string)
    | LParen | RParen | Comma | Question | Colon
    | Plus | Minus | Star | Slash | Percent
    | Tilde | Bang
    | Less | Greater | LessEq | GreaterEq | EqEq | BangEq
    | AmpAmp | BarBar | Amp | Bar | Caret
    | ShiftL | ShiftR | ShiftRU

  /** `isspace` in the C locale: blank, tab, newline, vertical tab, form feed, return. */
  predicate IsSpace(c: char) {
    c == ' ' || '\t' <= c <= '\r'
  }

  predicate IsDigit(c: char) {
    '0' <= c <= '9'
  }

  predicate IsIdentStart(c: char) {
    'a' <= c <= 'z' || 'A' <= c <= 'Z' || c == '_'
  }

  predicate IsIdentChar(c: char) {
    IsIdentStart(c) || IsDigit(c)
  }

  /** The end of the run of white space starting at `i`. */
  function SpaceEnd(src: string, i: nat): (r: nat)
    requires i <= |src|
    ensures i <= r <= |src|
    ensures forall k :: i <= k < r ==> IsSpace(src[k])
    ensures r < |src| ==> !IsSpace(src[r])
    decreases |src| - i
  {
    if i < |src| && IsSpace(src[i]) then SpaceEnd(src, i + 1) else i
  }

  /** The end of the run of decimal digits starting at `i`. */
  function DigitEnd(src: string, i: nat): (r: nat)
    requires i <= |src|
    ensures i <= r <= |src|
    ensures forall k :: i <= k < r ==> IsDigit(src[k])
    ensures r < |src| ==> !IsDigit(src[r])
    decreases |src| - i
  {
    if i < |src| && IsDigit(src[i]) then DigitEnd(src, i + 1) else i
  }

  /** The end of the run of identifier characters starting at `i`. */
  function IdentEnd(src: string, i: nat): (r: nat)
    requires i <= |src|
    ensures i <= r <= |src|
    ensures forall k :: i <= k < r ==> IsIdentChar(src[k])
    ensures r < |src| ==> !IsIdentChar(src[r])
    decreases |src| - i
  {
    if i < |src| && IsIdentChar(src[i]) then IdentEnd(src, i + 1) else i
  }

  function DigitValue(c: char): nat
    requires IsDigit(c)
  {
    (c - '0') as nat
  }

  /** The value of the decimal digits `src[i..j]`, read left to right. */
  function DigitsValue(src: string, i: nat, j: nat): nat
    requires i <= j <= |src| && forall k :: i <= k < j ==> IsDigit(src[k])
    decreases j
  {
    if j == i then 0 else 10 * DigitsValue(src, i, j - 1) + DigitValue(src[j - 1])
  }

  function Pow10(n: nat): (r: nat)
    ensures r >= 1
  {
    if n == 0 then 1 else 10 * Pow10(n - 1)
  }

  /**
   * The part of `strtod` the model keeps: digits, then optionally a point
   * and more digits.  Returns the value and the end of the literal.
   */
  function ScanNumber(src: string, i: nat): (r: (real, nat))
    requires i < |src| && IsDigit(src[i])
    ensures i < r.1 <= |src|
    ensures r.0 >= 0.0
  {
    var e1 := DigitEnd(src, i);
    var whole := DigitsValue(src, i, e1) as real;
    if e1 < |src| && src[e1] == '.' then
      var e2 := DigitEnd(src, e1 + 1);
      (whole + DigitsValue(src, e1 + 1, e2) as real / Pow10(e2 - e1 - 1) as real, e2)
    else
      (whole, e1)
  }

  predicate StartsAt(src: string, i: nat, s: string) {
    i + |s| <= |src| && src[i..i + |s|] == s
  }

  /** The single-character tokens. */
  function Punct(c: char): Option<Token> {
    match c
    case '(' => Some(LParen)
    case ')' => Some(RParen)
    case ',' => Some(Comma)
    case '?' => Some(Question)
    case ':' => Some(Colon)
    case '+' => Some(Plus)
    case '-' => Some(Minus)
    case '*' => Some(Star)
    case '/' => Some(Slash)
    case '%' => Some(Percent)
    case '~' => Some(Tilde)
    case '!' => Some(Bang)
    case '<' => Some(Less)
    case '>' => Some(Greater)
    case '&' => Some(Amp)
    case '|' => Some(Bar)
    case '^' => Some(Caret)
    case _ => None
  }

  /** The character at `k`, or NUL past the end, as the C string has it. */
  function Peek(src: string, k: nat): char {
    if k < |src| then src[k] else 0 as char
  }

  /**
   * The multi-character operator at `i`, if any, and its length.  `>>>`
   * is tried before `>>`, so the longest operator wins (see `LongestFirst`
   * for the order in which `lexer_next` tries them).
   */
  function MultiCharOperator(src: string, i: nat): (r: Option<(Token, nat)>)
    ensures r.Some? ==> 2 <= r.value.1 <= 3 && i + r.value.1 <= |src|
  {
    var c0, c1, c2 := Peek(src, i), Peek(src, i + 1), Peek(src, i + 2);
    if c0 == '>' && c1 == '>' && c2 == '>' then Some((ShiftRU, 3))
    else if c0 == '<' && c1 == '<' then Some((ShiftL, 2))
    else if c0 == '>' && c1 == '>' then Some((ShiftR, 2))
    else if c0 == '<' && c1 == '=' then Some((LessEq, 2))
    else if c0 == '>' && c1 == '=' then Some((GreaterEq, 2))
    else if c0 == '=' && c1 == '=' then Some((EqEq, 2))
    else if c0 == '!' && c1 == '=' then Some((BangEq, 2))
    else if c0 == '&' && c1 == '&' then Some((AmpAmp, 2))
    else if c0 == '|' && c1 == '|' then Some((BarBar, 2))
    else None
  }

  /** The result of one lexer step: the token, the new position and the character it rejected, if any. */
  datatype Lexed = Lexed(tok: Token, pos: nat, bad: Option<char>)

  /**
   * One step of `lexer_next` from position `pos`: skip white space, then
   * a number, an identifier, a multi-character operator (longest first) or
   * a single character.  A character that starts no token is consumed and
   * yields `Eof`, with that character reported in `bad`.
   */
  function Lex(src: string, pos: nat): (r: Lexed)
    requires pos <= |src|
    ensures pos <= r.pos <= |src|
    ensures r.pos == pos ==> r.tok == Eof && pos == |src|
    ensures r.tok == Eof && r.bad.None? ==> r.pos == |src| && forall k :: pos <= k < |src| ==> IsSpace(src[k])
    ensures r.bad.Some? ==> r.tok == Eof
  {
    var p := SpaceEnd(src, pos);
    if p == |src| then Lexed(Eof, p, None)
    else
      var c := src[p];
      if IsDigit(c) then
        var (v, e) := ScanNumber(src, p);
        Lexed(Number(v), e, None)
      else if IsIdentStart(c) then
        var e := IdentEnd(src, p);
        Lexed(Ident(src[p..e]), e, None)
      else
        match MultiCharOperator(src, p)
        case Some((t, n)) => Lexed(t, p + n, None)
        case None =>
          match Punct(c)
          case Some(t) => Lexed(t, p + 1, None)
          case None => Lexed(Eof, p + 1, Some(c))
  }

  function UnexpectedCharacter(c: char): string {
    "Unexpected character '" + [c] + "'"
  }

  /** The cursor the parser advances: source text, position, current token, last error. */
  class Lexer {
    const src: string
    var pos: nat
    var tok: Token
    var err: string

    ghost predicate Valid()
      reads this
    {
      pos <= |src|
    }

    constructor (src: string)
      ensures Valid()
      ensures this.src == src && pos == 0 && tok == Eof && err == ""
    {
      this.src := src;
      pos := 0;
      tok := Eof;
      err := "";
    }

    /** `lexer_skip_ws`. */
    method SkipWhitespace()
      requires Valid()
      modifies this`pos
      ensures Valid()
      ensures pos == SpaceEnd(src, old(pos))
    {
      while pos < |src| && IsSpace(src[pos])
        invariant old(pos) <= pos <= |src|
        invariant SpaceEnd(src, pos) == SpaceEnd(src, old(pos))
        decreases |src| - pos
      {
        pos := pos + 1;
      }
    }

    /** `lexer_starts_with`. */
    method StartsWith(s: string) returns (b: bool)
      requires Valid()
      ensures b == StartsAt(src, pos, s)
    {
      var i := 0;
      while i < |s|
        invariant 0 <= i <= |s|
        invariant pos + i <= |src| && src[pos..pos + i] == s[..i]
      {
        if pos + i >= |src| || src[pos + i] != s[i] {
          return false;
        }
        i := i + 1;
      }
      return true;
    }

    /** `lexer_next`. */
    method Next()
      requires Valid()
      modifies this
      ensures Valid()
      ensures var l := Lex(src, old(pos));
        && tok == l.tok && pos == l.pos
        && err == (if l.bad.Some? then UnexpectedCharacter(l.bad.value) else old(err))
    {
      SkipWhitespace();
      tok := Eof;
      if pos == |src| {
        return;
      }
      var c := src[pos];
      if IsDigit(c) {
        var (v, e) := ScanNumber(src, pos);
        pos := e;
        tok := Number(v);
        return;
      }
      if IsIdentStart(c) {
        var start := pos;
        while pos < |src| && IsIdentChar(src[pos])
          invariant start <= pos <= |src|
          invariant IdentEnd(src, pos) == IdentEnd(src, start)
          invariant err == old(err)
          decreases |src| - pos
        {
          pos := pos + 1;
        }
        tok := Ident(src[start..pos]);
        return;
      }
      LongestFirst(src, pos);
      var m := StartsWith(">>>");
      if m { tok := ShiftRU; pos := pos + 3; return; }
      m := StartsWith("<<");
      if m { tok := ShiftL; pos := pos + 2; return; }
      m := StartsWith(">>");
      if m { tok := ShiftR; pos := pos + 2; return; }
      m := StartsWith("<=");
      if m { tok := LessEq; pos := pos + 2; return; }
      m := StartsWith(">=");
      if m { tok := GreaterEq; pos := pos + 2; return; }
      m := StartsWith("==");
      if m { tok := EqEq; pos := pos + 2; return; }
      m := StartsWith("!=");
      if m { tok := BangEq; pos := pos + 2; return; }
      m := StartsWith("&&");
      if m { tok := AmpAmp; pos := pos + 2; return; }
      m := StartsWith("||");
      if m { tok := BarBar; pos := pos + 2; return; }
      pos := pos + 1;
      match Punct(c)
      case Some(t) =>
        tok := t;
      case None =>
        err := UnexpectedCharacter(c);
        tok := Eof;
    }
  }

  // ---------------------------------------------------------------------
  // The lexer against its inverse: spelling a token and lexing it back.
  // ---------------------------------------------------------------------

  /** The tokens with a fixed spelling (all but end of input, numbers and identifiers). */
  predicate IsFixed(t: Token) {
    !(t.Eof? || t.Number? || t.Ident?)
  }

  function Spelling(t: Token): (s: string)
    requires IsFixed(t)
    ensures 1 <= |s| <= 3
  {
    match t
    case LParen => "(" case RParen => ")" case Comma => "," case Question => "?"
    case Colon => ":" case Plus => "+" case Minus => "-" case Star => "*"
    case Slash => "/" case Percent => "%" case Tilde => "~" case Bang => "!"
    case Less => "<" case Greater => ">" case LessEq => "<=" case GreaterEq => ">="
    case EqEq => "==" case BangEq => "!=" case AmpAmp => "&&" case BarBar => "||"
    case Amp => "&" case Bar => "|" case Caret => "^"
    case ShiftL => "<<" case ShiftR => ">>" case ShiftRU => ">>>"
  }

  /**
   * Whether the character `c` written right after the spelling of `t`
   * would make the lexer read a longer operator instead.
   */
  predicate Glues(t: Token, c: char) {
    match t
    case Less => c == '<' || c == '='
    case Greater => c == '>' || c == '='
    case ShiftR => c == '>'
    case Bang => c == '='
    case Amp => c == '&'
    case Bar => c == '|'
    case _ => false
  }

  /** The character after position `i`, unless it would glue onto `t`. */
  predicate Separated(src: string, j: nat, t: Token) {
    j < |src| ==> !Glues(t, src[j])
  }

  /**
   * Lexing the spelling of a fixed token gives back that token, as long
   * as the next character does not extend it: the longest-first order of
   * `lexer_next` never splits `>>>` into `>>` `>` or `<=` into `<` `=`.
   */
  lemma LexSpelling(src: string, i: nat, t: Token)
    requires IsFixed(t) && StartsAt(src, i, Spelling(t))
    requires Separated(src, i + |Spelling(t)|, t)
    ensures Lex(src, i) == Lexed(t, i + |Spelling(t)|, None)
  {
    var s := Spelling(t);
    StartsAtChars(src, i, s);
    assert Peek(src, i) == s[0];
    assert |s| >= 2 ==> Peek(src, i + 1) == s[1];
    assert |s| == 3 ==> Peek(src, i + 2) == s[2];
    assert |s| < 3 ==> !Glues(t, Peek(src, i + |s|));
    LexOperator(src, i);
    if |s| == 1 {
      LexSingle(src, i, t);
    } else {
      LexMulti(src, i, t);
    }
  }

  /** At an operator character, `lexer_next` goes straight to the operators. */
  lemma LexOperator(src: string, i: nat)
    requires i < |src| && !IsSpace(src[i]) && !IsDigit(src[i]) && !IsIdentStart(src[i])
    ensures Lex(src, i) ==
      match MultiCharOperator(src, i)
      case Some((t, n)) => Lexed(t, i + n, None)
      case None =>
        match Punct(src[i])
        case Some(t) => Lexed(t, i + 1, None)
        case None => Lexed(Eof, i + 1, Some(src[i]))
  {
    assert SpaceEnd(src, i) == i;
  }

  /** A one-character token not glued to the next character is no multi-character operator. */
  lemma LexSingle(src: string, i: nat, t: Token)
    requires IsFixed(t) && |Spelling(t)| == 1 && i < |src| && src[i] == Spelling(t)[0]
    requires !Glues(t, Peek(src, i + 1))
    ensures MultiCharOperator(src, i).None? && Punct(src[i]) == Some(t)
  {
  }

  /** A multi-character token's characters are read as that operator. */
  lemma LexMulti(src: string, i: nat, t: Token)
    requires IsFixed(t) && |Spelling(t)| >= 2
    requires Peek(src, i) == Spelling(t)[0] && Peek(src, i + 1) == Spelling(t)[1]
    requires |Spelling(t)| == 3 ==> Peek(src, i + 2) == Spelling(t)[2]
    requires |Spelling(t)| == 2 ==> !Glues(t, Peek(src, i + 2))
    ensures MultiCharOperator(src, i) == Some((t, |Spelling(t)|))
  {
  }

  /**
   * `lexer_next` tries the multi-character operators with
   * `lexer_starts_with` in this order, the three-character one first.
   */
  lemma LongestFirst(src: string, i: nat)
    ensures MultiCharOperator(src, i) ==
      if StartsAt(src, i, ">>>") then Some((ShiftRU, 3))
      else if StartsAt(src, i, "<<") then Some((ShiftL, 2))
      else if StartsAt(src, i, ">>") then Some((ShiftR, 2))
      else if StartsAt(src, i, "<=") then Some((LessEq, 2))
      else if StartsAt(src, i, ">=") then Some((GreaterEq, 2))
      else if StartsAt(src, i, "==") then Some((EqEq, 2))
      else if StartsAt(src, i, "!=") then Some((BangEq, 2))
      else if StartsAt(src, i, "&&") then Some((AmpAmp, 2))
      else if StartsAt(src, i, "||") then Some((BarBar, 2))
      else None
  {
    StartsAtTriple(src, i, '>', '>', '>');
    StartsAtPair(src, i, '<', '<');
    StartsAtPair(src, i, '>', '>');
    StartsAtPair(src, i, '<', '=');
    StartsAtPair(src, i, '>', '=');
    StartsAtPair(src, i, '=', '=');
    StartsAtPair(src, i, '!', '=');
    StartsAtPair(src, i, '&', '&');
    StartsAtPair(src, i, '|', '|');
  }

  /** A two-character operator starts at `i` exactly when `Peek` sees its characters. */
  lemma StartsAtPair(src: string, i: nat, a: char, b: char)
    requires a != 0 as char && b != 0 as char
    ensures StartsAt(src, i, [a, b]) <==> Peek(src, i) == a && Peek(src, i + 1) == b
  {
    StartsAtChars(src, i, [a, b]);
  }

  lemma StartsAtTriple(src: string, i: nat, a: char, b: char, c: char)
    requires a != 0 as char && b != 0 as char && c != 0 as char
    ensures StartsAt(src, i, [a, b, c]) <==> Peek(src, i) == a && Peek(src, i + 1) == b && Peek(src, i + 2) == c
  {
    StartsAtChars(src, i, [a, b, c]);
  }

  lemma StartsAtChars(src: string, i: nat, s: string)
    ensures StartsAt(src, i, s) <==> i + |s| <= |src| && forall k :: 0 <= k < |s| ==> src[i + k] == s[k]
  {
    if i + |s| <= |src| && forall k :: 0 <= k < |s| ==> src[i + k] == s[k] {
      assert src[i..i + |s|] == s;
    }
    if StartsAt(src, i, s) {
      forall k | 0 <= k < |s|
        ensures src[i + k] == s[k]
      {
        assert src[i + k] == src[i..i + |s|][k];
      }
    }
  }

  /** A run of digits from `i` to `j` that stops there is what DigitEnd finds. */
  lemma {:induction false} DigitEndIs(src: string, i: nat, j: nat)
    requires i <= j <= |src|
    requires forall k :: i <= k < j ==> IsDigit(src[k])
    requires j < |src| ==> !IsDigit(src[j])
    ensures DigitEnd(src, i) == j
    decreases j - i
  {
    if i < j {
      DigitEndIs(src, i + 1, j);
    }
  }

  /** A run of identifier characters from `i` to `j` that stops there is what IdentEnd finds. */
  lemma {:induction false} IdentEndIs(src: string, i: nat, j: nat)
    requires i <= j <= |src|
    requires forall k :: i <= k < j ==> IsIdentChar(src[k])
    requires j < |src| ==> !IsIdentChar(src[j])
    ensures IdentEnd(src, i) == j
    decreases j - i
  {
    if i < j {
      IdentEndIs(src, i + 1, j);
    }
  }

  /** The decimal digits of a natural number, most significant first. */
  function NatString(n: nat): (s: string)
    ensures |s| >= 1 && forall k :: 0 <= k < |s| ==> IsDigit(s[k])
  {
    var d := ['0' + (n % 10) as char];
    if n < 10 then d else NatString(n / 10) + d
  }

  /** Reading the digits of `n` back, wherever they are written, gives `n`. */
  lemma {:induction false} NatStringValue(src: string, i: nat, n: nat)
    requires StartsAt(src, i, NatString(n))
    ensures forall k :: i <= k < i + |NatString(n)| ==> IsDigit(src[k])
    ensures DigitsValue(src, i, i + |NatString(n)|) == n
  {
    var s := NatString(n);
    var j := i + |s|;
    forall k | i <= k < j
      ensures src[k] == s[k - i]
    {
      assert src[k] == src[i..j][k - i];
    }
    if n >= 10 {
      var s' := NatString(n / 10);
      assert s == s' + ['0' + (n % 10) as char];
      assert src[i..i + |s'|] == src[i..j][..|s'|] == s';
      NatStringValue(src, i, n / 10);
    }
  }

  /**
   * A natural number written in decimal and not followed by another digit
   * or a point lexes back to the same number.
   */
  lemma LexNatString(src: string, i: nat, n: nat)
    requires StartsAt(src, i, NatString(n))
    requires var j := i + |NatString(n)|; j < |src| ==> !IsDigit(src[j]) && src[j] != '.'
    ensures Lex(src, i) == Lexed(Number(n as real), i + |NatString(n)|, None)
  {
    var s := NatString(n);
    var j := i + |s|;
    NatStringValue(src, i, n);
    assert SpaceEnd(src, i) == i;
    DigitEndIs(src, i, j);
  }

  /** A well-formed identifier: a letter or `_`, then letters, digits or `_`. */
  predicate IsName(name: string) {
    |name| >= 1 && IsIdentStart(name[0]) && forall k :: 0 <= k < |name| ==> IsIdentChar(name[k])
  }

  /** An identifier not followed by another identifier character lexes back to itself. */
  lemma LexName(src: string, i: nat, name: string)
    requires IsName(name) && StartsAt(src, i, name)
    requires var j := i + |name|; j < |src| ==> !IsIdentChar(src[j])
    ensures Lex(src, i) == Lexed(Ident(name), i + |name|, None)
  {
    var j := i + |name|;
    assert src[i] == name[0];
    assert SpaceEnd(src, i) == i;
    forall k | i <= k < j
      ensures IsIdentChar(src[k])
    {
      assert src[k] == src[i..j][k - i] == name[k - i];
    }
    IdentEndIs(src, i, j);
  }
}
