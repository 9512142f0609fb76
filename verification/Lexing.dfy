/**
 The lexer as a function of the remaining source: maximal munch over words,
 numbers, operators, raw and cooked strings (with `{expr}` slots), and the trivia
 between them. A token is its kind and its exact source spelling.
 */
module Lexing {
  import opened Options

  datatype Kind =
    | IntLit | FloatLit | StrLit | InterpLit | Ident | VarRef | Keyword | Punct
    | LineComment | Shebang | BlockComment | BlankLine

  datatype Lexeme = Lexeme(kind: Kind, text: string)

  const MAX_NAME := 64
  const MAX_NESTING := 1000

  const KEYWORDS := {
    "def", "func", "as", "init", "const", "include", "import", "use", "return", "if", "elseif", "else", "while", "for",
    "repeat", "until", "match", "when", "break", "continue", "exit", "try", "catch", "throw", "defer", "errdefer", "true",
    "false", "null", "and", "or", "not", "int", "float", "string", "bool", "bytes", "list", "map", "of", "to", "in", "struct",
    "enum", "len", "task", "spawn", "export" }

  predicate Digit(c: char) { '0' <= c <= '9' }
  predicate Letter(c: char) { 'a' <= c <= 'z' || 'A' <= c <= 'Z' }
  predicate IdentPart(c: char) { Letter(c) || Digit(c) }
  predicate Loose(c: char) { Letter(c) || Digit(c) || c == '_' }
  predicate Blank(c: char) { c == ' ' || c == '\t' || c == '\r' || c == '\n' }
  predicate HexDigit(c: char) { Digit(c) || 'a' <= c <= 'f' || 'A' <= c <= 'F' }

  /** Character classes a run is scanned over. */
  datatype Class = Spaces | NotNewline | NameChars | WordChars | Digits

  predicate In(cls: Class, c: char) {
    match cls
    case Spaces => Blank(c)
    case NotNewline => c != '\n'
    case NameChars => IdentPart(c)
    case WordChars => Loose(c)
    case Digits => Digit(c)
  }

  /** Length of the longest prefix in the class. */
  function Run(cls: Class, s: string): (n: nat)
    ensures n <= |s|
  {
    if s == [] || !In(cls, s[0]) then 0 else 1 + Run(cls, s[1..])
  }

  // ----- numbers -----

  datatype Base = Dec | Hex | Oct | Bin

  predicate InBase(b: Base, c: char) {
    match b
    case Dec => Digit(c)
    case Hex => HexDigit(c)
    case Oct => '0' <= c <= '7'
    case Bin => c == '0' || c == '1'
  }

  /** Digits with single `_` separators inside; None is a misplaced separator. */
  function Separated(b: Base, s: string, afterUnderscore: bool): (r: Option<nat>)
    ensures r.Some? ==> r.value <= |s|
  {
    if s != [] && InBase(b, s[0]) then Bump(Separated(b, s[1..], false))
    else if s != [] && s[0] == '_' then
      if afterUnderscore then None else Bump(Separated(b, s[1..], true))
    else if afterUnderscore then None else Some(0)
  }

  function Bump(r: Option<nat>): Option<nat> {
    match r
    case None => None
    case Some(n) => Some(n + 1)
  }

  datatype Scanned = Scanned(kind: Kind, len: nat)

  function BaseOf(s: string): Option<Base> {
    if |s| < 2 || s[0] != '0' then None
    else if s[1] == 'x' || s[1] == 'X' then Some(Hex)
    else if s[1] == 'o' || s[1] == 'O' then Some(Oct)
    else if s[1] == 'b' || s[1] == 'B' then Some(Bin)
    else None
  }

  function Based(b: Base, s: string): (r: Option<Scanned>)
    requires |s| >= 2
    ensures r.Some? ==> 2 <= r.value.len <= |s| && r.value.kind.IntLit?
  {
    if |s| == 2 || !InBase(b, s[2]) then None
    else match Separated(b, s[2..], false)
      case None => None
      case Some(n) => Some(Scanned(IntLit, n + 2))
  }

  /** Length of an optional fraction; None is a malformed one. */
  function Fraction(s: string): (r: Option<nat>)
    ensures r.Some? ==> r.value <= |s|
  {
    if |s| >= 2 && s[0] == '.' && Digit(s[1]) then Bump(Separated(Dec, s[1..], false)) else Some(0)
  }

  /** Length of an optional exponent; None is one without digits. */
  function Exponent(s: string): (r: Option<nat>)
    ensures r.Some? ==> r.value <= |s|
  {
    if s == [] || !(s[0] == 'e' || s[0] == 'E') then Some(0)
    else
      var k := if |s| >= 2 && (s[1] == '+' || s[1] == '-') then 2 else 1;
      var n := Run(Digits, s[k..]);
      if n == 0 then None else Some(k + n)
  }

  function Decimal(s: string): (r: Option<Scanned>)
    ensures r.Some? ==> r.value.len <= |s| && (r.value.kind.IntLit? || r.value.kind.FloatLit?)
  {
    match Separated(Dec, s, false)
    case None => None
    case Some(n) =>
      match Fraction(s[n..])
      case None => None
      case Some(m) =>
        match Exponent(s[n + m..])
        case None => None
        case Some(k) => Some(Scanned(if m + k > 0 then FloatLit else IntLit, n + m + k))
  }

  function Number(s: string): (r: Option<Scanned>)
    ensures r.Some? ==> r.value.len <= |s| && (r.value.kind.IntLit? || r.value.kind.FloatLit?)
  {
    match BaseOf(s)
    case Some(b) => Based(b, s)
    case None => Decimal(s)
  }

  // ----- strings -----

  /** Past the opening `'`: length through the closing one. */
  function RawRest(s: string): (r: Option<nat>)
    ensures r.Some? ==> 1 <= r.value <= |s|
  {
    if s == [] then None else if s[0] == '\'' then Some(1) else Bump(RawRest(s[1..]))
  }

  /** A nested literal inside a slot, past its opening quote: escapes hide quotes in the cooked form. */
  function NestedRest(quote: char, s: string): (r: Option<nat>)
    ensures r.Some? ==> 1 <= r.value <= |s|
  {
    if s == [] then None
    else if quote != '\'' && s[0] == '\\' then
      if |s| == 1 then None else Bump(Bump(NestedRest(quote, s[2..])))
    else if s[0] == quote then Some(1)
    else Bump(NestedRest(quote, s[1..]))
  }

  /** Past a slot's `{`: length through its matching `}`. */
  function SlotRest(s: string, depth: nat): (r: Option<nat>)
    ensures r.Some? ==> 1 <= r.value <= |s|
    decreases |s|
  {
    if s == [] then None
    else if s[0] == '{' then
      if depth + 1 > MAX_NESTING then None else Bump(SlotRest(s[1..], depth + 1))
    else if s[0] == '}' then
      if depth <= 1 then Some(1) else Bump(SlotRest(s[1..], depth - 1))
    else if s[0] == '"' || s[0] == '\'' then
      match NestedRest(s[0], s[1..])
      case None => None
      case Some(n) => Plus(n + 1, SlotRest(s[n + 1..], depth))
    else if s[0] == '\\' && |s| > 1 then Bump(Bump(SlotRest(s[2..], depth)))
    else Bump(SlotRest(s[1..], depth))
  }

  lemma SlotUnfold(s: string, depth: nat)
    requires s != []
    ensures SlotRest(s, depth) ==
              if s[0] == '{' then (if depth + 1 > MAX_NESTING then None else Bump(SlotRest(s[1..], depth + 1)))
              else if s[0] == '}' then (if depth <= 1 then Some(1) else Bump(SlotRest(s[1..], depth - 1)))
              else if s[0] == '"' || s[0] == '\'' then
                match NestedRest(s[0], s[1..]) { case None => None case Some(n) => Plus(n + 1, SlotRest(s[n + 1..], depth)) }
              else if s[0] == '\\' && |s| > 1 then Bump(Bump(SlotRest(s[2..], depth)))
              else Bump(SlotRest(s[1..], depth))
  {
    hide NestedRest;
  }

  function Plus(k: nat, r: Option<nat>): Option<nat> {
    match r
    case None => None
    case Some(n) => Some(k + n)
  }

  function HexValue(c: char): nat
    requires HexDigit(c)
  {
    if Digit(c) then c as int - '0' as int else if 'a' <= c <= 'f' then c as int - 'a' as int + 10 else c as int - 'A' as int + 10
  }

  function HexRun(s: string, n: nat, acc: nat): Option<nat>
    decreases n
  {
    if n == 0 then Some(acc)
    else if s == [] || !HexDigit(s[0]) then None
    else HexRun(s[1..], n - 1, acc * 16 + HexValue(s[0]))
  }

  predicate CodePoint(v: nat) { v <= 0x10FFFF && !(0xD800 <= v <= 0xDFFF) }

  datatype Escaped = Escaped(c: char, len: nat)

  /** Past a backslash: the decoded character and how much it took. */
  function Escape(s: string): (r: Option<Escaped>)
    ensures r.Some? ==> 1 <= r.value.len <= |s|
  {
    if s == [] then None
    else if s[0] == 'n' then Some(Escaped('\n', 1))
    else if s[0] == 'r' then Some(Escaped('\r', 1))
    else if s[0] == 't' then Some(Escaped('\t', 1))
    else if s[0] in {'\\', '"', '\'', '{', '}'} then Some(Escaped(s[0], 1))
    else if s[0] == '0' then Some(Escaped('\0', 1))
    else if s[0] == 'u' then Unicode(s, 4)
    else if s[0] == 'U' then Unicode(s, 8)
    else None
  }

  function Unicode(s: string, width: nat): (r: Option<Escaped>)
    requires s != [] && width >= 1
    ensures r.Some? ==> r.value.len == width + 1 <= |s|
  {
    if |s| < width + 1 then None
    else match HexRun(s[1..], width, 0)
      case None => None
      case Some(v) => if CodePoint(v) then Some(Escaped(v as char, width + 1)) else None
  }

  /** What a cooked string is made of. */
  datatype Part = Char(c: char) | Slot(src: string)

  datatype Cooked = Cooked(parts: seq<Part>, len: nat)

  function AddPart(p: Part, k: nat, r: Option<Cooked>): Option<Cooked> {
    match r
    case None => None
    case Some(c) => Some(Cooked([p] + c.parts, c.len + k))
  }

  /** Past the opening `"`: the parts, and the length through the closing quote. */
  function CookedRest(s: string): (r: Option<Cooked>)
    ensures r.Some? ==> 1 <= r.value.len <= |s|
    decreases |s|
  {
    if s == [] then None
    else if s[0] == '"' then Some(Cooked([], 1))
    else if s[0] == '\\' then
      match Escape(s[1..])
      case None => None
      case Some(e) => AddPart(Char(e.c), e.len + 1, CookedRest(s[e.len + 1..]))
    else if s[0] == '{' then
      match SlotRest(s[1..], 1)
      case None => None
      case Some(n) => AddPart(Slot(s[1..n]), n + 1, CookedRest(s[n + 1..]))
    else if s[0] == '}' then None
    else AddPart(Char(s[0]), 1, CookedRest(s[1..]))
  }

  predicate HasSlot(parts: seq<Part>) { exists i :: 0 <= i < |parts| && parts[i].Slot? }

  // ----- one token -----

  predicate Single(c: char) {
    || c == '{' || c == '}' || c == '(' || c == ')' || c == '[' || c == ']' || c == ';' || c == ':' || c == ','
    || c == '&' || c == '|' || c == '^' || c == '~' || c == '+' || c == '-' || c == '*' || c == '%'
  }

  predicate Operator(c: char) { c == '=' || c == '<' || c == '>' || c == '/' || c == '.' }

  /** The operator character c takes d into a two-character token. */
  predicate Continues(c: char, d: char) {
    match c
    case '=' => d == '='
    case '<' => d == '=' || d == '<'
    case '>' => d == '=' || d == '>'
    case '/' => d == '/'
    case '.' => d == '.'
    case _ => false
  }

  function Word(s: string): (r: Option<Scanned>)
    requires s != []
    ensures r.Some? ==> r.value.len <= |s| && (r.value.kind.Ident? || r.value.kind.Keyword?)
  {
    var n := Run(WordChars, s);
    if n == 0 || n > MAX_NAME then None
    else if s[..n] in KEYWORDS then Some(Scanned(Keyword, n))
    else if s[n - 1] == '_' then None
    else Some(Scanned(Ident, n))
  }

  function Munch(s: string): nat
    requires s != []
  {
    if |s| > 1 && Continues(s[0], s[1]) then 2 else 1
  }

  function Scan(s: string): (r: Option<Scanned>)
    requires s != []
    ensures r.Some? ==> 1 <= r.value.len <= |s| && !Trivia(r.value.kind)
  {
    var c := s[0];
    if Single(c) then Some(Scanned(Punct, 1))
    else if c == '!' then if |s| > 1 && s[1] == '=' then Some(Scanned(Punct, 2)) else None
    else if Operator(c) then Some(Scanned(Punct, Munch(s)))
    else if c == '\'' then
      match RawRest(s[1..]) { case None => None case Some(n) => Some(Scanned(StrLit, n + 1)) }
    else if c == '"' then
      match CookedRest(s[1..])
      case None => None
      case Some(k) => Some(Scanned(if HasSlot(k.parts) then InterpLit else StrLit, k.len + 1))
    else if c == '$' then
      if |s| == 1 || !Letter(s[1]) || Run(NameChars, s[1..]) > MAX_NAME then None
      else Some(Scanned(VarRef, 1 + Run(NameChars, s[1..])))
    else if Digit(c) then
      match Number(s) { case None => None case Some(k) => if k.len == 0 then None else Some(k) }
    else if Letter(c) then
      match Word(s) { case None => None case Some(k) => if k.len == 0 then None else Some(k) }
    else None
  }

  // ----- trivia -----

  /** Past a block comment's opener: length through the closer that matches it. */
  function CommentRest(s: string, depth: nat): (r: Option<nat>)
    ensures r.Some? ==> r.value <= |s|
    decreases |s|
  {
    if depth == 0 then Some(0)
    else if |s| == 0 then None
    else if |s| >= 2 && s[0] == '/' && s[1] == '*' then
      if depth + 1 > MAX_NESTING then None else Bump(Bump(CommentRest(s[2..], depth + 1)))
    else if |s| >= 2 && s[0] == '*' && s[1] == '/' then Bump(Bump(CommentRest(s[2..], depth - 1)))
    else Bump(CommentRest(s[1..], depth))
  }

  predicate OpensComment(s: string) { |s| >= 2 && s[0] == '/' && s[1] == '*' }

  function Newlines(s: string): nat {
    if s == [] then 0 else (if s[0] == '\n' then 1 else 0) + Newlines(s[1..])
  }

  function Cons(l: Lexeme, r: Option<seq<Lexeme>>): Option<seq<Lexeme>> {
    match r
    case None => None
    case Some(ls) => Some([l] + ls)
  }

  /** tokenizeAll from here on; `head` marks the first character of the file. */
  function Lex(s: string, head: bool): Option<seq<Lexeme>>
    decreases |s|
  {
    var n := Run(Spaces, s);
    if Newlines(s[..n]) >= 2 then
      RunsHaveLength(s); Cons(Lexeme(BlankLine, ""), Lex(s[n..], false))
    else if n == |s| then Some([])
    else
      var t := s[n..];
      if t[0] == '#' then
        var k := Run(NotNewline, t);
        CommentsAdvance(t);
        Cons(Lexeme(if head && n == 0 && |t| > 1 && t[1] == '!' then Shebang else LineComment, t[..k]), Lex(t[k..], false))
      else if OpensComment(t) then
        match CommentRest(t[2..], 1)
        case None => None
        case Some(k) => Cons(Lexeme(BlockComment, t[..k + 2]), Lex(t[k + 2..], false))
      else
        match Scan(t)
        case None => None
        case Some(k) => Cons(Lexeme(k.kind, t[..k.len]), Lex(t[k.len..], false))
  }

  lemma RunsHaveLength(s: string)
    requires Newlines(s[..Run(Spaces, s)]) >= 2
    ensures Run(Spaces, s) > 0
  {
  }

  lemma CommentsAdvance(s: string)
    requires s != [] && s[0] == '#'
    ensures Run(NotNewline, s) > 0
  {
  }

  predicate Trivia(k: Kind) { k.LineComment? || k.Shebang? || k.BlockComment? || k.BlankLine? }

  /** codeTokens: the tokens without comments and blank lines. */
  function Code(ls: seq<Lexeme>): seq<Lexeme> {
    if ls == [] then [] else (if Trivia(ls[0].kind) then [] else [ls[0]]) + Code(ls[1..])
  }
}
