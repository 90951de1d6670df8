/** The shell's tokenizer, parser and nulterminate (user/sh.c). */
module ShellCode {
  import opened Basics
  import opened ShellGrammar
  import opened ShellRoundTrip

  // ----- what the parser stores

  /** A span that is a whole word of the text. */
  predicate Proper(s: string, w: Span) {
    && w.q < w.eq <= |s| && (forall j :: w.q <= j < w.eq ==> IsWordChar(s[j]))
    && (w.eq < |s| ==> !IsWordChar(s[w.eq]))
  }

  predicate ProperRedirs(s: string, rs: seq<(Span, Kind)>) { forall j :: 0 <= j < |rs| ==> Proper(s, rs[j].0) }

  predicate ProperCmd(s: string, t: Cmd<Span>) {
    match t
    case Exec(args) => |args| < MAXARGS && forall j :: 0 <= j < |args| ==> Proper(s, args[j])
    case Redir(c, f, _) => ProperCmd(s, c) && Proper(s, f)
    case Pipe(l, r) => ProperCmd(s, l) && ProperCmd(s, r)
    case List(l, r) => ProperCmd(s, l) && ProperCmd(s, r)
    case Back(c) => ProperCmd(s, c)
  }

  lemma WordProper(s: CString, i: nat)
    requires i <= |s| && GetToken(s, i).kind == 'a'
    ensures Proper(s, Span(GetToken(s, i).q, GetToken(s, i).eq))
  {
  }

  lemma {:induction false} RedirsProper(s: CString, i: nat)
    requires i <= |s| && ParseRedirs(s, i).Ok?
    ensures ProperRedirs(s, ParseRedirs(s, i).value)
    decreases |s| - i
  {
    hide GetToken, Peek, Proper;
    if Peek(s, i, "<>") {
      var op := GetToken(s, i);
      WordProper(s, op.next);
      PeekMoves(s, i, "<>");
      RedirsProper(s, GetToken(s, op.next).next);
    }
  }

  lemma PeekMoves(s: CString, i: nat, toks: string)
    requires i <= |s| && Peek(s, i, toks)
    ensures GetToken(s, i).next > i && GetToken(s, i).kind != '\0'
  {
  }

  lemma {:induction false} WrapProper(s: string, c: Cmd<Span>, rs: seq<(Span, Kind)>)
    requires ProperCmd(s, c) && ProperRedirs(s, rs)
    ensures ProperCmd(s, Wrap(c, rs))
    decreases |rs|
  {
    hide Proper;
    if rs != [] { WrapProper(s, Redir(c, rs[0].0, rs[0].1), rs[1..]); }
  }

  lemma {:induction false} ArgsProper(s: CString, i: nat, args: seq<Span>, rs: seq<(Span, Kind)>)
    requires i <= |s| && ParseArgs(s, i, args, rs).Ok? && ProperCmd(s, Exec(args)) && ProperRedirs(s, rs)
    ensures ProperCmd(s, ParseArgs(s, i, args, rs).value)
    decreases |s| - i
  {
    hide GetToken, Peek, Proper, SkipSpace;
    WrapProper(s, Exec(args), rs);
    if !Peek(s, i, "|)&;") {
      var t := GetToken(s, i);
      if t.kind != '\0' {
        WordProper(s, i);
        RedirsProper(s, t.next);
        var more := ParseRedirs(s, t.next);
        ArgsProper(s, more.next, args + [Span(t.q, t.eq)], rs + more.value);
      }
    }
  }

  lemma {:induction false} BacksProper(s: CString, i: nat, c: Cmd<Span>)
    requires i <= |s| && ProperCmd(s, c)
    ensures ProperCmd(s, ParseBacks(s, i, c).value)
    decreases |s| - i
  {
    hide GetToken, Peek, Proper, SkipSpace;
    if Peek(s, i, "&") {
      PeekMoves(s, i, "&");
      BacksProper(s, GetToken(s, i).next, Back(c));
    }
  }

  lemma {:induction false} ExecProper(s: CString, i: nat)
    requires i <= |s| && ParseExec(s, i).Ok?
    ensures ProperCmd(s, ParseExec(s, i).value)
    decreases |s| - i, 1
  {
    hide GetToken, Peek, Proper, SkipSpace;
    if Peek(s, i, "(") {
      PeekMoves(s, i, "(");
      var inner := ParseLine(s, GetToken(s, i).next);
      LineProper(s, GetToken(s, i).next);
      var k := GetToken(s, inner.next).next;
      RedirsProper(s, k);
      WrapProper(s, inner.value, ParseRedirs(s, k).value);
    } else {
      RedirsProper(s, i);
      var rs := ParseRedirs(s, i);
      ArgsProper(s, rs.next, [], rs.value);
    }
  }

  lemma {:induction false} PipeProper(s: CString, i: nat)
    requires i <= |s| && ParsePipe(s, i).Ok?
    ensures ProperCmd(s, ParsePipe(s, i).value)
    decreases |s| - i, 2
  {
    hide GetToken, Peek, Proper, SkipSpace;
    ExecProper(s, i);
    var l := ParseExec(s, i);
    if Peek(s, l.next, "|") {
      PeekMoves(s, l.next, "|");
      PipeProper(s, GetToken(s, l.next).next);
    }
  }

  /** Every parse, of any text, yields proper words and at most nine arguments. */
  lemma {:induction false} LineProper(s: CString, i: nat)
    requires i <= |s| && ParseLine(s, i).Ok?
    ensures ProperCmd(s, ParseLine(s, i).value)
    decreases |s| - i, 3
  {
    hide GetToken, Peek, Proper, SkipSpace;
    PipeProper(s, i);
    var l := ParsePipe(s, i);
    BacksProper(s, l.next, l.value);
    var b := ParseBacks(s, l.next, l.value);
    if Peek(s, b.next, ";") {
      PeekMoves(s, b.next, ";");
      LineProper(s, GetToken(s, b.next).next);
    }
  }

  lemma ProperText(s: string, w: Span)
    requires Proper(s, w)
    ensures LegalWord(Text(s, w))
  {
  }

  lemma {:induction false} ProperLegal(s: string, t: Cmd<Span>)
    requires ProperCmd(s, t)
    ensures Legal(Words(s, t))
  {
    hide Proper, LegalWord, Text;
    match t
    case Exec(args) =>
      forall j | 0 <= j < |args| ensures LegalWord(Text(s, args[j])) { ProperText(s, args[j]); }
    case Redir(c, f, _) =>
      ProperLegal(s, c);
      ProperText(s, f);
    case Pipe(l, r) =>
      ProperLegal(s, l);
      ProperLegal(s, r);
    case List(l, r) =>
      ProperLegal(s, l);
      ProperLegal(s, r);
    case Back(c) => ProperLegal(s, c);
  }

  /** Whatever a text parses to, printing that and parsing again agrees with it. */
  lemma ReprintAgrees(s: CString)
    requires ParseCmd(s).Ok?
    ensures var t := Words(s, ParseCmd(s).value);
      '\0' !in Print(t) && ParseCmd(Print(t)).Ok? && Words(Print(t), ParseCmd(Print(t)).value) == t
  {
    hide Legal, Words, ProperCmd, ParseLine, Print, SkipSpace;
    LineProper(s, 0);
    ProperLegal(s, ParseCmd(s).value);
    RoundTrip(Words(s, ParseCmd(s).value));
  }

  // ----- the code

  /** The loop that moves the cursor over white space. */
  method SkipBlank(s: CString, i: nat) returns (j: nat)
    requires i <= |s|
    ensures j == SkipSpace(s, i)
  {
    j := i;
    while j < |s| && IsSpace(s[j])
      invariant i <= j <= |s| && SkipSpace(s, j) == SkipSpace(s, i)
    {
      j := j + 1;
    }
  }

  method SkipWord(s: CString, i: nat) returns (j: nat)
    requires i <= |s|
    ensures j == WordEnd(s, i)
  {
    j := i;
    while j < |s| && !IsSpace(s[j]) && !IsSymbol(s[j])
      invariant i <= j <= |s| && WordEnd(s, j) == WordEnd(s, i)
    {
      assert s[j] in s;
      j := j + 1;
    }
  }

  /** peek: the cursor moves over white space. */
  method PeekTok(s: CString, i: nat, toks: string) returns (found: bool, j: nat)
    requires i <= |s| && '\0' !in toks
    ensures j == SkipSpace(s, i) && found == Peek(s, i, toks)
  {
    j := SkipBlank(s, i);
    found := j < |s| && s[j] in toks;
  }

  method GetTok(s: CString, i: nat) returns (kind: char, q: nat, eq: nat, j: nat)
    requires i <= |s|
    ensures Token(kind, q, eq, j) == GetToken(s, i)
  {
    q := SkipBlank(s, i);
    eq := q;
    kind := if q < |s| then s[q] else '\0';
    if q == |s| {
    } else if s[q] == '>' {
      eq := q + 1;
      if eq < |s| && s[eq] == '>' {
        kind := '+';
        eq := eq + 1;
      }
    } else if IsSymbol(s[q]) {
      eq := q + 1;
    } else {
      kind := 'a';
      eq := SkipWord(s, q);
    }
    j := SkipBlank(s, eq);
  }

  function Prepend(rs: seq<(Span, Kind)>, r: Result<seq<(Span, Kind)>>): Result<seq<(Span, Kind)>> {
    if r.Err? then Err else Ok(rs + r.value, r.next)
  }

  lemma PrependNil(r: Result<seq<(Span, Kind)>>)
    ensures Prepend([], r) == r
  {
    if r.Ok? { assert [] + r.value == r.value; }
  }

  lemma PrependOne(rs: seq<(Span, Kind)>, w: (Span, Kind), r: Result<seq<(Span, Kind)>>)
    ensures Prepend(rs, Prepend([w], r)) == Prepend(rs + [w], r)
  {
    if r.Ok? { assert rs + ([w] + r.value) == rs + [w] + r.value; }
  }

  method Parseredirs(s: CString, i: nat) returns (r: Result<seq<(Span, Kind)>>)
    requires i <= |s|
    ensures r == ParseRedirs(s, i)
  {
    hide GetToken, Peek, SkipSpace;
    var rs: seq<(Span, Kind)> := [];
    var j := i;
    PrependNil(ParseRedirs(s, i));
    var found, k := PeekTok(s, j, "<>");
    while found
      invariant j <= |s| && found == Peek(s, j, "<>") && k == SkipSpace(s, j)
      invariant ParseRedirs(s, i) == Prepend(rs, ParseRedirs(s, j))
      decreases |s| - j
    {
      PeekSkipped(s, j, "<>");
      var op, q0, eq0, j1 := GetTok(s, k);
      PeekMoves(s, j, "<>");
      var kind, q, eq, j2 := GetTok(s, j1);
      if kind != 'a' { return Err; }
      assert ParseRedirs(s, j) == Prepend([(Span(q, eq), KindOf(op))], ParseRedirs(s, j2));
      PrependOne(rs, (Span(q, eq), KindOf(op)), ParseRedirs(s, j2));
      rs := rs + [(Span(q, eq), KindOf(op))];
      j := j2;
      found, k := PeekTok(s, j, "<>");
    }
    assert rs + [] == rs;
    return Ok(rs, k);
  }

  lemma PeekSkipped(s: CString, i: nat, toks: string)
    requires i <= |s|
    ensures GetToken(s, SkipSpace(s, i)) == GetToken(s, i) && Peek(s, SkipSpace(s, i), toks) == Peek(s, i, toks)
  {
    var q := SkipSpace(s, i);
    SkipStops(s, q, q);
  }

  /** parseexec's loop. */
  method Parseargs(s: CString, i: nat, rs0: seq<(Span, Kind)>) returns (r: Result<Cmd<Span>>)
    requires i <= |s|
    ensures r == ParseArgs(s, i, [], rs0)
  {
    hide GetToken, Peek, Wrap;
    var args: seq<Span> := [];
    var rs, j := rs0, i;
    var found, k := PeekTok(s, j, "|)&;");
    while !found
      invariant j <= |s| && found == Peek(s, j, "|)&;") && k == SkipSpace(s, j)
      invariant ParseArgs(s, i, [], rs0) == ParseArgs(s, j, args, rs)
      decreases |s| - j
    {
      PeekSkipped(s, j, "|)&;");
      var kind, q, eq, j1 := GetTok(s, k);
      if kind == '\0' { return Ok(Wrap(Exec(args), rs), j1); }
      if kind != 'a' { return Err; }
      args := args + [Span(q, eq)];
      if |args| >= MAXARGS { return Err; }
      var more := Parseredirs(s, j1);
      if more.Err? { return Err; }
      rs, j := rs + more.value, more.next;
      found, k := PeekTok(s, j, "|)&;");
    }
    return Ok(Wrap(Exec(args), rs), k);
  }

  method Parseblock(s: CString, i: nat) returns (r: Result<Cmd<Span>>)
    requires i <= |s|
    ensures r == ParseBlock(s, i)
    decreases |s| - i, 0
  {
    hide GetToken, Peek, Wrap;
    var found, k := PeekTok(s, i, "(");
    if !found { return Err; }
    PeekSkipped(s, i, "(");
    PeekMoves(s, i, "(");
    var kind, q, eq, j := GetTok(s, k);
    var inner := Parseline(s, j);
    if inner.Err? { return Err; }
    found, k := PeekTok(s, inner.next, ")");
    if !found { return Err; }
    PeekSkipped(s, inner.next, ")");
    kind, q, eq, j := GetTok(s, k);
    var rs := Parseredirs(s, j);
    if rs.Err? { return Err; }
    return Ok(Wrap(inner.value, rs.value), rs.next);
  }

  method Parseexec(s: CString, i: nat) returns (r: Result<Cmd<Span>>)
    requires i <= |s|
    ensures r == ParseExec(s, i)
    decreases |s| - i, 1
  {
    hide GetToken, Peek;
    var found, k := PeekTok(s, i, "(");
    if found {
      r := Parseblock(s, i);
      return;
    }
    var rs := Parseredirs(s, i);
    if rs.Err? { return Err; }
    r := Parseargs(s, rs.next, rs.value);
  }

  method Parsepipe(s: CString, i: nat) returns (r: Result<Cmd<Span>>)
    requires i <= |s|
    ensures r == ParsePipe(s, i)
    decreases |s| - i, 2
  {
    hide GetToken, Peek;
    var l := Parseexec(s, i);
    if l.Err? { return Err; }
    var found, k := PeekTok(s, l.next, "|");
    if !found { return Ok(l.value, k); }
    PeekSkipped(s, l.next, "|");
    PeekMoves(s, l.next, "|");
    var kind, q, eq, j := GetTok(s, k);
    var right := Parsepipe(s, j);
    if right.Err? { return Err; }
    return Ok(Pipe(l.value, right.value), right.next);
  }

  method Parseline(s: CString, i: nat) returns (r: Result<Cmd<Span>>)
    requires i <= |s|
    ensures r == ParseLine(s, i)
    decreases |s| - i, 3
  {
    hide GetToken, Peek;
    var l := Parsepipe(s, i);
    if l.Err? { return Err; }
    var cmd, j := l.value, l.next;
    var found, k := PeekTok(s, j, "&");
    while found
      invariant l.next <= j <= |s| && found == Peek(s, j, "&") && k == SkipSpace(s, j)
      invariant ParseBacks(s, l.next, l.value) == ParseBacks(s, j, cmd)
      decreases |s| - j
    {
      PeekSkipped(s, j, "&");
      PeekMoves(s, j, "&");
      var kind, q, eq, j1 := GetTok(s, k);
      cmd, j := Back(cmd), j1;
      found, k := PeekTok(s, j, "&");
    }
    j := k;
    found, k := PeekTok(s, j, ";");
    if !found { return Ok(cmd, k); }
    PeekSkipped(s, j, ";");
    PeekMoves(s, j, ";");
    var kind, q, eq, j1 := GetTok(s, k);
    var right := Parseline(s, j1);
    if right.Err? { return Err; }
    return Ok(List(cmd, right.value), right.next);
  }

  // ----- nulterminate

  /** The positions nulterminate overwrites. */
  function Ends(t: Cmd<Span>): set<nat> {
    match t
    case Exec(args) => set j | 0 <= j < |args| :: args[j].eq
    case Redir(c, f, _) => Ends(c) + {f.eq}
    case Pipe(l, r) => Ends(l) + Ends(r)
    case List(l, r) => Ends(l) + Ends(r)
    case Back(c) => Ends(c)
  }

  predicate Stores(t: Cmd<Span>, w: Span) {
    match t
    case Exec(args) => w in args
    case Redir(c, f, _) => w == f || Stores(c, w)
    case Pipe(l, r) => Stores(l, w) || Stores(r, w)
    case List(l, r) => Stores(l, w) || Stores(r, w)
    case Back(c) => Stores(c, w)
  }

  method NulTerminate(buf: array<char>, t: Cmd<Span>, ghost s: string)
    requires ProperCmd(s, t) && buf.Length == |s| + 1
    modifies buf
    ensures forall i :: 0 <= i < buf.Length ==> buf[i] == if i in Ends(t) then '\0' else old(buf[i])
  {
    hide Proper;
    match t
    case Exec(args) =>
      var i := 0;
      while i < |args|
        invariant 0 <= i <= |args|
        invariant forall p :: 0 <= p < buf.Length ==> buf[p] == if p in Ends(Exec(args[..i])) then '\0' else old(buf[p])
      {
        ProperEnd(s, args[i]);
        buf[args[i].eq] := '\0';
        EndsSnoc(args, i);
        i := i + 1;
      }
      assert args[..i] == args;
    case Redir(c, f, _) =>
      NulTerminate(buf, c, s);
      ProperEnd(s, f);
      buf[f.eq] := '\0';
    case Pipe(l, r) =>
      NulTerminate(buf, l, s);
      NulTerminate(buf, r, s);
    case List(l, r) =>
      NulTerminate(buf, l, s);
      NulTerminate(buf, r, s);
    case Back(c) =>
      NulTerminate(buf, c, s);
  }

  lemma ProperEnd(s: string, w: Span)
    requires Proper(s, w)
    ensures w.eq <= |s|
  {
  }

  lemma EndsSnoc(args: seq<Span>, i: nat)
    requires i < |args|
    ensures Ends(Exec(args[..i + 1])) == Ends(Exec(args[..i])) + {args[i].eq}
  {
    var a, b := args[..i], args[..i + 1];
    forall x | x in Ends(Exec(b)) ensures x in Ends(Exec(a)) + {args[i].eq} {
      var j :| 0 <= j < |b| && b[j].eq == x;
      if j < i { assert a[j].eq == x; }
    }
    forall x | x in Ends(Exec(a)) ensures x in Ends(Exec(b)) {
      var j :| 0 <= j < |a| && a[j].eq == x;
      assert b[j].eq == x;
    }
    assert b[i].eq == args[i].eq;
  }

  /** The C string that starts at p. */
  function ReadAt(b: seq<char>, p: nat): string
    decreases |b| - p
  {
    if p >= |b| || b[p] == '\0' then "" else [b[p]] + ReadAt(b, p + 1)
  }

  lemma {:induction false} ReadsTo(b: seq<char>, p: nat, e: nat)
    requires p <= e < |b| && b[e] == '\0' && forall j :: p <= j < e ==> b[j] != '\0'
    ensures ReadAt(b, p) == b[p..e]
    decreases e - p
  {
    if p < e {
      ReadsTo(b, p + 1, e);
      assert b[p..e] == [b[p]] + b[p + 1..e];
    }
  }

  /** No word contains the end of another. */
  lemma {:induction false} EndsOutside(s: string, t: Cmd<Span>, x: nat)
    requires ProperCmd(s, t) && x in Ends(t)
    ensures x <= |s| && (x < |s| ==> !IsWordChar(s[x]))
  {
    match t
    case Exec(args) =>
      var j :| 0 <= j < |args| && args[j].eq == x;
      assert Proper(s, args[j]);
    case Redir(c, f, _) => if x != f.eq { EndsOutside(s, c, x); }
    case Pipe(l, r) => if x in Ends(l) { EndsOutside(s, l, x); } else { EndsOutside(s, r, x); }
    case List(l, r) => if x in Ends(l) { EndsOutside(s, l, x); } else { EndsOutside(s, r, x); }
    case Back(c) => EndsOutside(s, c, x);
  }

  lemma {:induction false} StoredEnd(s: string, t: Cmd<Span>, w: Span)
    requires ProperCmd(s, t) && Stores(t, w)
    ensures w.eq in Ends(t) && Proper(s, w)
  {
    hide Proper;
    match t
    case Exec(args) => var j :| 0 <= j < |args| && args[j] == w;
    case Redir(c, f, _) => if w != f { StoredEnd(s, c, w); }
    case Pipe(l, r) => if Stores(l, w) { StoredEnd(s, l, w); } else { StoredEnd(s, r, w); }
    case List(l, r) => if Stores(l, w) { StoredEnd(s, l, w); } else { StoredEnd(s, r, w); }
    case Back(c) => StoredEnd(s, c, w);
  }

  /** After nulterminate every stored word reads back as its token text. */
  lemma WordsReadBack(s: CString, t: Cmd<Span>, b: seq<char>, w: Span)
    requires ProperCmd(s, t) && Stores(t, w) && |b| == |s| + 1
    requires forall i :: 0 <= i < |b| ==> b[i] == if i in Ends(t) then '\0' else (s + ['\0'])[i]
    ensures ReadAt(b, w.q) == Text(s, w)
  {
    StoredEnd(s, t, w);
    forall j | w.q <= j < w.eq ensures b[j] == s[j] && b[j] != '\0' {
      assert IsWordChar(s[j]);
      if j in Ends(t) { EndsOutside(s, t, j); }
    }
    ReadsTo(b, w.q, w.eq);
    assert b[w.q..w.eq] == s[w.q..w.eq];
  }

  /** parsecmd. */
  method Parsecmd(buf: array<char>, s: CString) returns (r: Result<Cmd<Span>>)
    requires buf.Length == |s| + 1 && buf[..] == s + ['\0']
    modifies buf
    ensures r == ParseCmd(s)
    ensures r.Err? ==> buf[..] == old(buf[..])
    ensures r.Ok? ==> forall w :: Stores(r.value, w) ==> ReadAt(buf[..], w.q) == Text(s, w)
  {
    hide Proper, ProperCmd, ReadAt, Text, Stores, Ends;
    var c := Parseline(s, 0);
    if c.Err? { return Err; }
    var found, k := PeekTok(s, c.next, "");
    if k != |s| { return Err; }
    LineProper(s, 0);
    NulTerminate(buf, c.value, s);
    forall w | Stores(c.value, w) ensures ReadAt(buf[..], w.q) == Text(s, w) { WordsReadBack(s, c.value, buf[..], w); }
    return Ok(c.value, k);
  }
}
