/** The shell's grammar (user/sh.c): what its tokenizer and recursive-descent
    parser compute, as functions of the text and a position in it. */
module ShellGrammar {
  import opened Basics

  const MAXARGS := 10

  datatype Span = Span(q: nat, eq: nat)

  datatype Kind = In | Out | Append

  /** Command trees, over words given as spans of the text or as strings. */
  datatype Cmd<W> =
    | Exec(args: seq<W>)
    | Redir(cmd: Cmd<W>, file: W, kind: Kind)
    | Pipe(left: Cmd<W>, right: Cmd<W>)
    | List(left: Cmd<W>, right: Cmd<W>)
    | Back(cmd: Cmd<W>)

  datatype Result<T> = Ok(value: T, next: nat) | Err

  predicate IsSpace(c: char) { c == ' ' || c == '\t' || c == '\r' || c == '\n' || c == '\U{0B}' }

  predicate IsSymbol(c: char) { c == '<' || c == '|' || c == '>' || c == '&' || c == ';' || c == '(' || c == ')' }

  predicate IsWordChar(c: char) { !IsSpace(c) && !IsSymbol(c) && c != '\0' }

  // ----- tokens

  /** The first position from i on that is not white space. */
  function SkipSpace(s: CString, i: nat): (r: nat)
    requires i <= |s|
    ensures i <= r <= |s| && (r < |s| ==> !IsSpace(s[r])) && forall j :: i <= j < r ==> IsSpace(s[j])
    decreases |s| - i
  {
    if i < |s| && IsSpace(s[i]) then SkipSpace(s, i + 1) else i
  }

  function WordEnd(s: CString, i: nat): (r: nat)
    requires i <= |s|
    ensures i <= r <= |s| && (r < |s| ==> !IsWordChar(s[r])) && forall j :: i <= j < r ==> IsWordChar(s[j])
    decreases |s| - i
  {
    if i < |s| && IsWordChar(s[i]) then WordEnd(s, i + 1) else i
  }

  /** gettoken's return value, the token's extent and the new position. */
  datatype Token = Token(kind: char, q: nat, eq: nat, next: nat)

  function TokenEnd(s: CString, q: nat): (r: (char, nat))
    requires q <= |s| && (q < |s| ==> !IsSpace(s[q]))
    ensures q <= r.1 <= |s| && (q < |s| ==> q < r.1) && (q == |s| ==> r.0 == '\0') && (q < |s| ==> r.0 != '\0')
  {
    if q == |s| then ('\0', q)
    else if s[q] == '>' then (if q + 1 < |s| && s[q + 1] == '>' then ('+', q + 2) else ('>', q + 1))
    else if IsSymbol(s[q]) then (s[q], q + 1)
    else ('a', WordEnd(s, q))
  }

  function GetToken(s: CString, i: nat): (t: Token)
    requires i <= |s|
    ensures i <= t.q <= t.eq <= t.next <= |s| && (t.kind != '\0' ==> t.q < t.eq)
  {
    var q := SkipSpace(s, i);
    var e := TokenEnd(s, q);
    Token(e.0, q, e.1, SkipSpace(s, e.1))
  }

  predicate Peek(s: CString, i: nat, toks: string)
    requires i <= |s|
  {
    SkipSpace(s, i) < |s| && s[SkipSpace(s, i)] in toks
  }

  // ----- parsing

  function KindOf(tok: char): Kind {
    if tok == '<' then In else if tok == '>' then Out else Append
  }

  /** parseredirs: the redirections from i on. */
  function ParseRedirs(s: CString, i: nat): (r: Result<seq<(Span, Kind)>>)
    requires i <= |s|
    ensures r.Ok? ==> i <= r.next <= |s|
    decreases |s| - i
  {
    if !Peek(s, i, "<>") then Ok([], SkipSpace(s, i))
    else
      var op := GetToken(s, i);
      var file := GetToken(s, op.next);
      if file.kind != 'a' then Err
      else
        var rest := ParseRedirs(s, file.next);
        if rest.Err? then Err else Ok([(Span(file.q, file.eq), KindOf(op.kind))] + rest.value, rest.next)
  }

  /** redircmd, applied once per redirection in order. */
  function Wrap<W>(c: Cmd<W>, rs: seq<(W, Kind)>): Cmd<W>
    decreases |rs|
  {
    if rs == [] then c else Wrap(Redir(c, rs[0].0, rs[0].1), rs[1..])
  }

  /** parseexec's loop: more arguments and redirections after those read. */
  function ParseArgs(s: CString, i: nat, args: seq<Span>, rs: seq<(Span, Kind)>): (r: Result<Cmd<Span>>)
    requires i <= |s|
    ensures r.Ok? ==> i <= r.next <= |s|
    decreases |s| - i
  {
    if Peek(s, i, "|)&;") then Ok(Wrap(Exec(args), rs), SkipSpace(s, i))
    else
      var t := GetToken(s, i);
      if t.kind == '\0' then Ok(Wrap(Exec(args), rs), t.next)
      else if t.kind != 'a' || |args| + 1 >= MAXARGS then Err
      else
        var more := ParseRedirs(s, t.next);
        if more.Err? then Err else ParseArgs(s, more.next, args + [Span(t.q, t.eq)], rs + more.value)
  }

  function ParseBlock(s: CString, i: nat): (r: Result<Cmd<Span>>)
    requires i <= |s|
    ensures r.Ok? ==> i <= r.next <= |s|
    decreases |s| - i, 0
  {
    if !Peek(s, i, "(") then Err
    else
      var inner := ParseLine(s, GetToken(s, i).next);
      if inner.Err? || !Peek(s, inner.next, ")") then Err
      else
        var rs := ParseRedirs(s, GetToken(s, inner.next).next);
        if rs.Err? then Err else Ok(Wrap(inner.value, rs.value), rs.next)
  }

  function ParseExec(s: CString, i: nat): (r: Result<Cmd<Span>>)
    requires i <= |s|
    ensures r.Ok? ==> i <= r.next <= |s|
    decreases |s| - i, 1
  {
    if Peek(s, i, "(") then ParseBlock(s, i)
    else
      var rs := ParseRedirs(s, i);
      if rs.Err? then Err else ParseArgs(s, rs.next, [], rs.value)
  }

  function ParsePipe(s: CString, i: nat): (r: Result<Cmd<Span>>)
    requires i <= |s|
    ensures r.Ok? ==> i <= r.next <= |s|
    decreases |s| - i, 2
  {
    var l := ParseExec(s, i);
    if l.Err? || !Peek(s, l.next, "|") then (if l.Err? then Err else Ok(l.value, SkipSpace(s, l.next)))
    else
      var r := ParsePipe(s, GetToken(s, l.next).next);
      if r.Err? then Err else Ok(Pipe(l.value, r.value), r.next)
  }

  /** The `&` loop of parseline. */
  function ParseBacks(s: CString, i: nat, c: Cmd<Span>): (r: Result<Cmd<Span>>)
    requires i <= |s|
    ensures r.Ok? && i <= r.next <= |s|
    decreases |s| - i
  {
    if Peek(s, i, "&") then ParseBacks(s, GetToken(s, i).next, Back(c)) else Ok(c, SkipSpace(s, i))
  }

  function ParseLine(s: CString, i: nat): (r: Result<Cmd<Span>>)
    requires i <= |s|
    ensures r.Ok? ==> i <= r.next <= |s|
    decreases |s| - i, 3
  {
    var l := ParsePipe(s, i);
    if l.Err? then Err
    else
      var b := ParseBacks(s, l.next, l.value);
      if !Peek(s, b.next, ";") then Ok(b.value, SkipSpace(s, b.next))
      else
        var r := ParseLine(s, GetToken(s, b.next).next);
        if r.Err? then Err else Ok(List(b.value, r.value), r.next)
  }

  /** parsecmd before nulterminate: the whole text must be used up. */
  function ParseCmd(s: CString): (r: Result<Cmd<Span>>)
    ensures r.Ok? ==> r.next == |s|
  {
    var c := ParseLine(s, 0);
    if c.Err? || SkipSpace(s, c.next) != |s| then Err else Ok(c.value, |s|)
  }

  // ----- printing

  predicate LegalWord(w: string) { w != "" && forall j :: 0 <= j < |w| ==> IsWordChar(w[j]) }

  /** Trees the shell can express: proper words, at most nine arguments. */
  predicate Legal(t: Cmd<string>) {
    match t
    case Exec(args) => |args| < MAXARGS && forall j :: 0 <= j < |args| ==> LegalWord(args[j])
    case Redir(c, f, _) => Legal(c) && LegalWord(f)
    case Pipe(l, r) => Legal(l) && Legal(r)
    case List(l, r) => Legal(l) && Legal(r)
    case Back(c) => Legal(c)
  }

  function Op(k: Kind): string {
    match k case In => "<" case Out => ">" case Append => ">>"
  }

  /** A command below its redirections, and the redirections, innermost first. */
  function Core<W>(t: Cmd<W>): Cmd<W> { if t.Redir? then Core(t.cmd) else t }

  function Redirs<W>(t: Cmd<W>): seq<(W, Kind)> { if t.Redir? then Redirs(t.cmd) + [(t.file, t.kind)] else [] }

  function RedirToks(rs: seq<(string, Kind)>): seq<string> {
    if rs == [] then [] else [Op(rs[0].1), rs[0].0] + RedirToks(rs[1..])
  }

  lemma {:induction false} CoreSmaller<W>(t: Cmd<W>)
    ensures !Core(t).Redir? && (t.Redir? ==> Core(t) < t)
  {
    if t.Redir? { CoreSmaller(t.cmd); }
  }

  /** The tokens of a tree, with parentheses only where the grammar needs them. */
  function LineToks(t: Cmd<string>): seq<string>
    decreases t, 4
  {
    if t.List? then BackToks(t.left) + [";"] + LineToks(t.right) else BackToks(t)
  }

  function BackToks(t: Cmd<string>): seq<string>
    decreases t, 3
  {
    if t.Back? then BackToks(t.cmd) + ["&"] else PipeToks(t)
  }

  function PipeToks(t: Cmd<string>): seq<string>
    decreases t, 2
  {
    if t.Pipe? then ExecToks(t.left) + ["|"] + PipeToks(t.right) else ExecToks(t)
  }

  function ExecToks(t: Cmd<string>): seq<string>
    decreases t, 1
  {
    CoreToks(t) + RedirToks(Redirs(t))
  }

  /** The tokens of a command without its redirections. */
  function CoreToks(t: Cmd<string>): seq<string>
    decreases t, 0
  {
    match t
    case Redir(c, _, _) => CoreToks(c)
    case Exec(args) => args
    case Pipe(l, r) => ["("] + (ExecToks(l) + ["|"] + PipeToks(r)) + [")"]
    case List(l, r) => ["("] + (BackToks(l) + [";"] + LineToks(r)) + [")"]
    case Back(c) => ["("] + (BackToks(c) + ["&"]) + [")"]
  }

  /** Tokens as text, each behind a space. */
  function Flat(ts: seq<string>): string {
    if ts == [] then "" else " " + ts[0] + Flat(ts[1..])
  }

  function Print(t: Cmd<string>): string { Flat(LineToks(t)) }

  // ----- from spans back to words

  function Text(s: string, w: Span): string {
    if w.q <= w.eq <= |s| then s[w.q..w.eq] else ""
  }

  function Words(s: string, t: Cmd<Span>): Cmd<string> {
    match t
    case Exec(args) => Exec(seq(|args|, i requires 0 <= i < |args| => Text(s, args[i])))
    case Redir(c, f, k) => Redir(Words(s, c), Text(s, f), k)
    case Pipe(l, r) => Pipe(Words(s, l), Words(s, r))
    case List(l, r) => List(Words(s, l), Words(s, r))
    case Back(c) => Back(Words(s, c))
  }
}
