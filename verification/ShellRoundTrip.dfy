/** Parsing a printed command tree gives the tree back. */
module ShellRoundTrip {
  import opened Basics
  import opened ShellGrammar

  // ----- tokens in text

  predicate IsOp(w: string) {
    w == "|" || w == "(" || w == ")" || w == ";" || w == "&" || w == "<" || w == ">" || w == ">>"
  }

  predicate Clean(w: string) { IsOp(w) || LegalWord(w) }

  predicate AllClean(ts: seq<string>) { forall j :: 0 <= j < |ts| ==> Clean(ts[j]) }

  function KindOfTok(w: string): char
    requires Clean(w)
  {
    if LegalWord(w) then 'a' else if w == ">>" then '+' else w[0]
  }

  function Joined(ts: seq<string>): string { if ts == [] then "" else ts[0] + Flat(ts[1..]) }

  /** What is left to read from position i on is the tokens ts. */
  predicate Rest(s: CString, i: nat, ts: seq<string>) {
    i <= |s| && s[SkipSpace(s, i)..] == Joined(ts) && AllClean(ts)
  }

  lemma CleanStart(w: string)
    requires Clean(w)
    ensures w != "" && !IsSpace(w[0]) && w[0] != '\0' && (LegalWord(w) <==> !IsSymbol(w[0]))
  {
    if LegalWord(w) { assert IsWordChar(w[0]); }
  }

  lemma {:induction false} FlatNoNul(ts: seq<string>)
    requires AllClean(ts)
    ensures '\0' !in Flat(ts)
  {
    if ts != [] {
      assert Clean(ts[0]);
      assert '\0' !in ts[0] by { if LegalWord(ts[0]) { assert forall j :: 0 <= j < |ts[0]| ==> IsWordChar(ts[0][j]); } }
      FlatNoNul(ts[1..]);
    }
  }

  lemma {:induction false} SkipStops(s: CString, i: nat, r: nat)
    requires i <= r <= |s| && (r < |s| ==> !IsSpace(s[r])) && forall j :: i <= j < r ==> IsSpace(s[j])
    ensures SkipSpace(s, i) == r
    decreases r - i
  {
    if i < r { SkipStops(s, i + 1, r); }
  }

  lemma {:induction false} WordStops(s: CString, i: nat, r: nat)
    requires i <= r <= |s| && (r < |s| ==> !IsWordChar(s[r])) && forall j :: i <= j < r ==> IsWordChar(s[j])
    ensures WordEnd(s, i) == r
    decreases r - i
  {
    if i < r { WordStops(s, i + 1, r); }
  }

  lemma FlatShape(ts: seq<string>)
    requires ts != [] && AllClean(ts)
    ensures |Flat(ts)| >= 2 && Flat(ts)[0] == ' ' && Flat(ts)[1..] == Joined(ts) && Flat(ts)[1] == ts[0][0]
      && !IsSpace(ts[0][0])
  {
    hide LegalWord, IsOp;
    CleanStart(ts[0]);
    assert Flat(ts) == " " + (ts[0] + Flat(ts[1..]));
  }

  /** Printed tokens follow a single space. */
  lemma FlatRest(s: CString, i: nat, ts: seq<string>)
    requires i <= |s| && s[i..] == Flat(ts) && AllClean(ts)
    ensures Rest(s, i, ts)
  {
    hide Flat, Joined, AllClean, IsSpace;
    if ts == [] {
      FlatNothing();
      SkipStops(s, i, i);
    } else {
      FlatShape(ts);
      assert s[i] == s[i..][0] && s[i + 1] == s[i..][1];
      BlankIsSpace();
      SkipStops(s, i, i + 1);
      assert s[i + 1..] == s[i..][1..];
    }
  }

  lemma FlatNothing()
    ensures Flat([]) == "" && Joined([]) == ""
  {
  }

  lemma BlankIsSpace()
    ensures IsSpace(' ')
  {
  }

  lemma Skipped(s: CString, i: nat, ts: seq<string>)
    requires Rest(s, i, ts)
    ensures Rest(s, SkipSpace(s, i), ts)
  {
    var q := SkipSpace(s, i);
    SkipStops(s, q, q);
  }

  /** The next token ends where its text does. */
  lemma TokenEndAt(s: CString, q: nat, w: string, tail: string)
    requires q <= |s| && s[q..] == w + tail && Clean(w) && (tail == "" || tail[0] == ' ')
    ensures q < |s| && !IsSpace(s[q]) && TokenEnd(s, q) == (KindOfTok(w), q + |w|) && s[q..q + |w|] == w
  {
    CleanStart(w);
    assert s[q..q + |w|] == s[q..][..|w|] == w;
    assert s[q] == s[q..][0] == w[0];
    forall j | 0 <= j < |w| ensures s[q + j] == w[j] { assert s[q + j] == s[q..][j]; }
    if q + |w| < |s| { assert s[q + |w|] == s[q..][|w|] == tail[0] == ' '; }
    if LegalWord(w) {
      forall j | q <= j < q + |w| ensures IsWordChar(s[j]) { assert s[j] == w[j - q]; }
      WordStops(s, q, q + |w|);
    }
  }

  lemma FlatBlank(ts: seq<string>)
    ensures Flat(ts) == "" || Flat(ts)[0] == ' '
  {
  }

  lemma TokenAt(s: CString, i: nat, ts: seq<string>)
    requires Rest(s, i, ts) && ts != []
    ensures var t := GetToken(s, i);
      && t.kind == KindOfTok(ts[0]) && Text(s, Span(t.q, t.eq)) == ts[0] && Rest(s, t.next, ts[1..])
  {
    var q := SkipSpace(s, i);
    var w, tail := ts[0], Flat(ts[1..]);
    assert Clean(w);
    hide Clean, KindOfTok, TokenEnd, Rest;
    FlatBlank(ts[1..]);
    TokenEndAt(s, q, w, tail);
    assert s[q + |w|..] == s[q..][|w|..] == tail;
    FlatRest(s, q + |w|, ts[1..]);
    Skipped(s, q + |w|, ts[1..]);
  }

  lemma NoToken(s: CString, i: nat)
    requires Rest(s, i, [])
    ensures GetToken(s, i).kind == '\0' && Rest(s, GetToken(s, i).next, [])
  {
    assert SkipSpace(s, i) == |s|;
  }

  predicate Starts(ts: seq<string>, toks: string) { ts != [] && ts[0] != "" && ts[0][0] in toks }

  lemma PeekAt(s: CString, i: nat, ts: seq<string>, toks: string)
    requires Rest(s, i, ts)
    ensures Peek(s, i, toks) <==> Starts(ts, toks)
  {
    var q := SkipSpace(s, i);
    if ts != [] {
      CleanStart(ts[0]);
      assert s[q] == s[q..][0] == ts[0][0];
    }
  }

  lemma WordKind(w: string)
    requires LegalWord(w)
    ensures Clean(w) && KindOfTok(w) == 'a' && !Starts([w], "|)&;<>(")
  {
    CleanStart(w);
  }

  lemma OpKind(k: Kind)
    ensures Clean(Op(k)) && KindOf(KindOfTok(Op(k))) == k && Op(k)[0] in "<>"
  {
    assert !LegalWord(Op(k)) by { assert IsSymbol(Op(k)[0]); }
  }

  // ----- redirections

  function RedirWords(s: string, rs: seq<(Span, Kind)>): seq<(string, Kind)> {
    if rs == [] then [] else [(Text(s, rs[0].0), rs[0].1)] + RedirWords(s, rs[1..])
  }

  predicate LegalRedirs(rs: seq<(string, Kind)>) { forall j :: 0 <= j < |rs| ==> LegalWord(rs[j].0) }

  lemma {:induction false} RedirsBack(s: CString, i: nat, rs: seq<(string, Kind)>, rest: seq<string>)
    requires Rest(s, i, RedirToks(rs) + rest) && LegalRedirs(rs) && !Starts(rest, "<>")
    ensures var r := ParseRedirs(s, i); r.Ok? && RedirWords(s, r.value) == rs && Rest(s, r.next, rest)
    decreases |rs|
  {
    hide Rest, GetToken, Peek, Clean, KindOfTok, LegalWord, Text, SkipSpace, KindOf;
    var ts := RedirToks(rs) + rest;
    RestAt(s, i, ts);
    PeekAt(s, i, ts, "<>");
    if rs == [] {
      assert ts == rest;
      Skipped(s, i, rest);
    } else {
      var op := GetToken(s, i);
      assert ts[0] == Op(rs[0].1) && ts[1] == rs[0].0;
      OpKind(rs[0].1);
      WordKind(rs[0].0);
      TokenAt(s, i, ts);
      TokenAt(s, op.next, ts[1..]);
      assert ts[1..][1..] == RedirToks(rs[1..]) + rest;
      var file := GetToken(s, op.next);
      RedirsBack(s, file.next, rs[1..], rest);
      var more := ParseRedirs(s, file.next);
      RedirWordsCons(s, Span(file.q, file.eq), KindOf(op.kind), more.value);
    }
  }

  lemma RestAt(s: CString, i: nat, ts: seq<string>)
    requires Rest(s, i, ts)
    ensures i <= |s|
  {
  }

  lemma RedirWordsCons(s: string, w: Span, k: Kind, rs: seq<(Span, Kind)>)
    ensures RedirWords(s, [(w, k)] + rs) == [(Text(s, w), k)] + RedirWords(s, rs)
  {
    assert ([(w, k)] + rs)[1..] == rs;
  }

  lemma {:induction false} WrapWords(s: string, c: Cmd<Span>, rs: seq<(Span, Kind)>)
    ensures Words(s, Wrap(c, rs)) == Wrap(Words(s, c), RedirWords(s, rs))
    decreases |rs|
  {
    if rs != [] { WrapWords(s, Redir(c, rs[0].0, rs[0].1), rs[1..]); }
  }

  lemma {:induction false} WrapSnoc<W>(c: Cmd<W>, rs: seq<(W, Kind)>, w: W, k: Kind)
    ensures Wrap(c, rs + [(w, k)]) == Redir(Wrap(c, rs), w, k)
    decreases |rs|
  {
    if rs == [] {
      assert rs + [(w, k)] == [(w, k)] && [(w, k)][1..] == [];
    } else {
      assert (rs + [(w, k)])[1..] == rs[1..] + [(w, k)];
      WrapSnoc(Redir(c, rs[0].0, rs[0].1), rs[1..], w, k);
    }
  }

  /** A command is its core with its redirections around it. */
  lemma {:induction false} CoreRedirs<W>(t: Cmd<W>)
    ensures Wrap(Core(t), Redirs(t)) == t
  {
    if t.Redir? {
      CoreRedirs(t.cmd);
      WrapSnoc(Core(t.cmd), Redirs(t.cmd), t.file, t.kind);
    }
  }

  lemma {:induction false} LegalParts(t: Cmd<string>)
    requires Legal(t)
    ensures LegalRedirs(Redirs(t)) && Legal(Core(t)) && !Core(t).Redir?
  {
    if t.Redir? { LegalParts(t.cmd); }
  }

  lemma {:induction false} CoreToksOf(t: Cmd<string>)
    ensures CoreToks(t) == CoreToks(Core(t))
  {
    if t.Redir? { CoreToksOf(t.cmd); }
  }

  // ----- simple commands

  function Texts(s: string, ws: seq<Span>): seq<string> {
    seq(|ws|, i requires 0 <= i < |ws| => Text(s, ws[i]))
  }

  /** The tokens that can follow a simple command. */
  predicate Follows(rest: seq<string>, toks: string) { rest == [] || Starts(rest, toks) }

  lemma FollowsNot(rest: seq<string>)
    requires Follows(rest, "|)&;")
    ensures !Starts(rest, "<>") && !Starts(rest, "(")
  {
  }

  lemma {:induction false} ArgsBack(s: CString, i: nat, done: seq<Span>, args: seq<string>, rs: seq<(string, Kind)>,
      rest: seq<string>)
    requires args != [] && Rest(s, i, args + RedirToks(rs) + rest) && Follows(rest, "|)&;")
    requires |done| + |args| < MAXARGS && LegalRedirs(rs) && forall j :: 0 <= j < |args| ==> LegalWord(args[j])
    ensures var r := ParseArgs(s, i, done, []);
      r.Ok? && Words(s, r.value) == Wrap(Exec(Texts(s, done) + args), rs) && Rest(s, r.next, rest)
    decreases |args|
  {
    hide Rest, GetToken, Peek, Clean, KindOfTok, Text, SkipSpace, KindOf, Wrap, Words, RedirWords;
    var ts := args + RedirToks(rs) + rest;
    RestAt(s, i, ts);
    assert LegalWord(args[0]) && ts[0] == args[0];
    hide LegalWord;
    WordKind(args[0]);
    PeekAt(s, i, ts, "|)&;");
    TokenAt(s, i, ts);
    FollowsNot(rest);
    var t := GetToken(s, i);
    var done' := done + [Span(t.q, t.eq)];
    TextsSnoc(s, done, Span(t.q, t.eq));
    if |args| == 1 {
      assert ts[1..] == RedirToks(rs) + rest;
      assert args == [args[0]];
      RedirsBack(s, t.next, rs, rest);
      var more := ParseRedirs(s, t.next);
      assert [] + more.value == more.value;
      ArgsEnd(s, more.next, done', more.value, rest);
    } else {
      assert ts[1..] == args[1..] + RedirToks(rs) + rest;
      WordKind(args[1]);
      NoRedirs(s, t.next, ts[1..]);
      var more := ParseRedirs(s, t.next);
      assert [] + more.value == [];
      ArgsBack(s, more.next, done', args[1..], rs, rest);
      assert Texts(s, done) + [args[0]] + args[1..] == Texts(s, done) + args;
    }
  }

  lemma TextsSnoc(s: string, ws: seq<Span>, w: Span)
    ensures Texts(s, ws + [w]) == Texts(s, ws) + [Text(s, w)]
  {
  }

  lemma NoRedirs(s: CString, i: nat, ts: seq<string>)
    requires Rest(s, i, ts) && !Starts(ts, "<>")
    ensures var r := ParseRedirs(s, i); r.Ok? && r.value == [] && Rest(s, r.next, ts)
  {
    PeekAt(s, i, ts, "<>");
    Skipped(s, i, ts);
  }

  lemma ArgsEnd(s: CString, i: nat, args: seq<Span>, rs: seq<(Span, Kind)>, rest: seq<string>)
    requires Rest(s, i, rest) && Follows(rest, "|)&;")
    ensures var r := ParseArgs(s, i, args, rs);
      r.Ok? && Words(s, r.value) == Wrap(Exec(Texts(s, args)), RedirWords(s, rs)) && Rest(s, r.next, rest)
  {
    WrapWords(s, Exec(args), rs);
    assert Words(s, Exec(args)) == Exec(Texts(s, args));
    hide Rest, Wrap, Words;
    PeekAt(s, i, rest, "|)&;");
    Skipped(s, i, rest);
    if rest == [] { NoToken(s, i); }
  }

  lemma SimpleBack(s: CString, i: nat, args: seq<string>, rs: seq<(string, Kind)>, rest: seq<string>)
    requires Rest(s, i, args + RedirToks(rs) + rest) && Follows(rest, "|)&;")
    requires |args| < MAXARGS && LegalRedirs(rs) && forall j :: 0 <= j < |args| ==> LegalWord(args[j])
    ensures var r := ParseExec(s, i); r.Ok? && Words(s, r.value) == Wrap(Exec(args), rs) && Rest(s, r.next, rest)
  {
    hide Rest, GetToken, Peek, Clean, KindOfTok, Text, SkipSpace, KindOf, Wrap, Words, RedirWords;
    var ts := args + RedirToks(rs) + rest;
    RestAt(s, i, ts);
    FollowsNot(rest);
    PeekAt(s, i, ts, "(");
    if args == [] {
      assert ts == RedirToks(rs) + rest;
      if rs != [] { OpKind(rs[0].1); }
      RedirsBack(s, i, rs, rest);
      var more := ParseRedirs(s, i);
      ArgsEnd(s, more.next, [], more.value, rest);
      assert Texts(s, []) == [];
    } else {
      assert LegalWord(args[0]) && ts[0] == args[0];
      hide LegalWord;
      WordKind(args[0]);
      NoRedirs(s, i, ts);
      var more := ParseRedirs(s, i);
      ArgsBack(s, more.next, [], args, rs, rest);
      assert Texts(s, []) + args == args;
    }
  }

  // ----- whole lines

  function Amps(n: nat): seq<string> { if n == 0 then [] else ["&"] + Amps(n - 1) }

  function Backs<W>(c: Cmd<W>, n: nat): Cmd<W>
    decreases n
  {
    if n == 0 then c else Backs(Back(c), n - 1)
  }

  lemma {:induction false} AmpsSnoc(n: nat)
    ensures Amps(n) + ["&"] == Amps(n + 1)
  {
    if n > 0 {
      AmpsSnoc(n - 1);
      assert Amps(n) + ["&"] == ["&"] + (Amps(n - 1) + ["&"]);
    }
  }

  lemma {:induction false} BacksSnoc<W>(c: Cmd<W>, n: nat)
    ensures Backs(c, n + 1) == Back(Backs(c, n))
    decreases n
  {
    if n > 0 { BacksSnoc(Back(c), n - 1); }
  }

  /** A command in the background is n ampersands behind a pipeline. */
  lemma {:induction false} BackForm(t: Cmd<string>) returns (c: Cmd<string>, n: nat)
    requires Legal(t)
    ensures t == Backs(c, n) && BackToks(t) == PipeToks(c) + Amps(n) && Legal(c)
  {
    if t.Back? {
      var m;
      c, m := BackForm(t.cmd);
      n := m + 1;
      AmpsSnoc(m);
      BacksSnoc(c, m);
      assert PipeToks(c) + Amps(m) + ["&"] == PipeToks(c) + (Amps(m) + ["&"]);
    } else {
      c, n := t, 0;
      assert PipeToks(c) + [] == PipeToks(c);
    }
  }

  lemma SymbolAt(s: CString, i: nat, ts: seq<string>)
    requires Rest(s, i, ts) && ts != []
    ensures i <= |s| && GetToken(s, i).next > i && Rest(s, GetToken(s, i).next, ts[1..])
  {
    TokenAt(s, i, ts);
    CleanStart(ts[0]);
    assert GetToken(s, i).kind != '\0';
  }

  lemma {:induction false} AmpsBack(s: CString, i: nat, c: Cmd<Span>, n: nat, rest: seq<string>)
    requires Rest(s, i, Amps(n) + rest) && !Starts(rest, "&")
    ensures i <= |s| && var r := ParseBacks(s, i, c);
      Words(s, r.value) == Backs(Words(s, c), n) && Rest(s, r.next, rest)
    decreases n
  {
    hide Rest, GetToken, Peek, SkipSpace;
    RestAt(s, i, Amps(n) + rest);
    PeekAt(s, i, Amps(n) + rest, "&");
    if n == 0 {
      assert Amps(n) + rest == rest;
      Skipped(s, i, rest);
    } else {
      SymbolAt(s, i, Amps(n) + rest);
      assert (Amps(n) + rest)[1..] == Amps(n - 1) + rest;
      AmpsBack(s, GetToken(s, i).next, Back(c), n - 1, rest);
    }
  }

  lemma BlockToks(t: Cmd<string>)
    requires !t.Exec? && !t.Redir?
    ensures CoreToks(t) == ["("] + LineToks(t) + [")"]
  {
    match t
    case Pipe(l, r) => assert LineToks(t) == BackToks(t) == PipeToks(t);
    case List(l, r) => assert LineToks(t) == BackToks(l) + [";"] + LineToks(r);
    case Back(c) => assert LineToks(t) == BackToks(t);
  }

  /** The tokens of a block, in the order the parser meets them. */
  lemma BlockOrder(t: Cmd<string>, rest: seq<string>)
    requires !Core(t).Exec? && !Core(t).Redir?
    ensures ExecToks(t) + rest == ["("] + (LineToks(Core(t)) + ([")"] + (RedirToks(Redirs(t)) + rest)))
  {
    CoreToksOf(t);
    BlockToks(Core(t));
  }

  lemma {:induction false} BlockBack(s: CString, i: nat, t: Cmd<string>, rest: seq<string>)
    requires Legal(t) && !Core(t).Exec? && Rest(s, i, ExecToks(t) + rest) && Follows(rest, "|)&;")
    ensures i <= |s| && var r := ParseBlock(s, i); r.Ok? && Words(s, r.value) == t && Rest(s, r.next, rest)
    decreases |s| - i, 0
  {
    hide Rest, GetToken, Peek, SkipSpace, Wrap, Words, LineToks, RedirToks, Redirs, ExecToks, Legal, Core;
    LegalParts(t);
    BlockOrder(t, rest);
    var rs := Redirs(t);
    var ts := ExecToks(t) + rest;
    var end := [")"] + (RedirToks(rs) + rest);
    PeekAt(s, i, ts, "(");
    SymbolAt(s, i, ts);
    var j := GetToken(s, i).next;
    assert ts[1..] == LineToks(Core(t)) + end;
    LineBack(s, j, Core(t), end);
    var inner := ParseLine(s, j);
    PeekAt(s, inner.next, end, ")");
    SymbolAt(s, inner.next, end);
    assert end[1..] == RedirToks(rs) + rest;
    FollowsNot(rest);
    var k := GetToken(s, inner.next).next;
    RedirsBack(s, k, rs, rest);
    WrapWords(s, inner.value, ParseRedirs(s, k).value);
    CoreRedirs(t);
  }

  lemma {:induction false} ExecBack(s: CString, i: nat, t: Cmd<string>, rest: seq<string>)
    requires Legal(t) && Rest(s, i, ExecToks(t) + rest) && Follows(rest, "|)&;")
    ensures i <= |s| && var r := ParseExec(s, i); r.Ok? && Words(s, r.value) == t && Rest(s, r.next, rest)
    decreases |s| - i, 1
  {
    hide Rest, GetToken, Peek, SkipSpace, Wrap, Words, LineToks, RedirToks, Redirs, Core;
    RestAt(s, i, ExecToks(t) + rest);
    LegalParts(t);
    CoreToksOf(t);
    CoreRedirs(t);
    if Core(t).Exec? {
      SimpleBack(s, i, Core(t).args, Redirs(t), rest);
    } else {
      hide ExecToks;
      BlockOrder(t, rest);
      PeekAt(s, i, ExecToks(t) + rest, "(");
      BlockBack(s, i, t, rest);
    }
  }

  lemma {:induction false} PipeBack(s: CString, i: nat, t: Cmd<string>, rest: seq<string>)
    requires Legal(t) && Rest(s, i, PipeToks(t) + rest) && Follows(rest, ")&;")
    ensures i <= |s| && var r := ParsePipe(s, i); r.Ok? && Words(s, r.value) == t && Rest(s, r.next, rest)
    decreases |s| - i, 2
  {
    hide Rest, GetToken, Peek, SkipSpace, ExecToks;
    RestAt(s, i, PipeToks(t) + rest);
    if t.Pipe? {
      var tail := ["|"] + (PipeToks(t.right) + rest);
      assert PipeToks(t) + rest == ExecToks(t.left) + tail;
      ExecBack(s, i, t.left, tail);
      var l := ParseExec(s, i);
      PeekAt(s, l.next, tail, "|");
      SymbolAt(s, l.next, tail);
      assert tail[1..] == PipeToks(t.right) + rest;
      PipeBack(s, GetToken(s, l.next).next, t.right, rest);
    } else {
      ExecBack(s, i, t, rest);
      var l := ParseExec(s, i);
      PeekAt(s, l.next, rest, "|");
      Skipped(s, l.next, rest);
    }
  }

  lemma {:induction false} BackBack(s: CString, i: nat, t: Cmd<string>, rest: seq<string>)
    requires Legal(t) && Rest(s, i, BackToks(t) + rest) && Follows(rest, ");")
    ensures i <= |s| && ParsePipe(s, i).Ok?
    ensures var l := ParsePipe(s, i); var b := ParseBacks(s, l.next, l.value);
      Words(s, b.value) == t && Rest(s, b.next, rest)
    decreases |s| - i, 3
  {
    hide Rest, GetToken, Peek, SkipSpace, PipeToks, BackToks, Legal;
    RestAt(s, i, BackToks(t) + rest);
    var c, n := BackForm(t);
    assert BackToks(t) + rest == PipeToks(c) + (Amps(n) + rest);
    PipeBack(s, i, c, Amps(n) + rest);
    var l := ParsePipe(s, i);
    AmpsBack(s, l.next, l.value, n, rest);
  }

  lemma {:induction false} LineBack(s: CString, i: nat, t: Cmd<string>, rest: seq<string>)
    requires Legal(t) && Rest(s, i, LineToks(t) + rest) && Follows(rest, ")")
    ensures i <= |s| && var r := ParseLine(s, i); r.Ok? && Words(s, r.value) == t && Rest(s, r.next, rest)
    decreases |s| - i, 4
  {
    hide Rest, GetToken, Peek, SkipSpace, BackToks;
    RestAt(s, i, LineToks(t) + rest);
    if t.List? {
      var tail := [";"] + (LineToks(t.right) + rest);
      assert LineToks(t) + rest == BackToks(t.left) + tail;
      BackBack(s, i, t.left, tail);
      var l := ParsePipe(s, i);
      var b := ParseBacks(s, l.next, l.value);
      PeekAt(s, b.next, tail, ";");
      SymbolAt(s, b.next, tail);
      assert tail[1..] == LineToks(t.right) + rest;
      LineBack(s, GetToken(s, b.next).next, t.right, rest);
    } else {
      BackBack(s, i, t, rest);
      var l := ParsePipe(s, i);
      var b := ParseBacks(s, l.next, l.value);
      PeekAt(s, b.next, rest, ";");
      Skipped(s, b.next, rest);
    }
  }

  // ----- the theorem

  lemma {:induction false} RedirToksClean(rs: seq<(string, Kind)>)
    requires LegalRedirs(rs)
    ensures AllClean(RedirToks(rs))
  {
    if rs != [] {
      OpKind(rs[0].1);
      assert Clean(rs[0].0);
      RedirToksClean(rs[1..]);
    }
  }

  lemma CleanConcat(a: seq<string>, b: seq<string>)
    requires AllClean(a) && AllClean(b)
    ensures AllClean(a + b)
  {
  }

  lemma CleanOp(w: string)
    requires IsOp(w)
    ensures AllClean([w])
  {
  }

  lemma CleanInfix(a: seq<string>, w: string, b: seq<string>)
    requires AllClean(a) && AllClean(b) && IsOp(w)
    ensures AllClean(a + [w] + b)
  {
    hide AllClean;
    CleanOp(w);
    CleanConcat(a, [w]);
    CleanConcat(a + [w], b);
  }

  lemma CleanBlock(ts: seq<string>)
    requires AllClean(ts)
    ensures AllClean(["("] + ts + [")"])
  {
    hide AllClean;
    CleanOp("(");
    CleanOp(")");
    CleanConcat(["("], ts);
    CleanConcat(["("] + ts, [")"]);
  }

  lemma {:induction false} CoreClean(t: Cmd<string>)
    requires Legal(t)
    ensures AllClean(CoreToks(t))
    decreases t, 0
  {
    hide AllClean;
    match t
    case Exec(args) => ArgsClean(args);
    case Redir(c, _, _) => CoreClean(c);
    case Pipe(l, r) =>
      ExecClean(l);
      PipeClean(r);
      CleanInfix(ExecToks(l), "|", PipeToks(r));
      CleanBlock(ExecToks(l) + ["|"] + PipeToks(r));
    case List(l, r) =>
      BackClean(l);
      LineClean(r);
      CleanInfix(BackToks(l), ";", LineToks(r));
      CleanBlock(BackToks(l) + [";"] + LineToks(r));
    case Back(c) =>
      BackClean(c);
      CleanOp("&");
      CleanConcat(BackToks(c), ["&"]);
      CleanBlock(BackToks(c) + ["&"]);
  }

  lemma ArgsClean(args: seq<string>)
    requires forall j :: 0 <= j < |args| ==> LegalWord(args[j])
    ensures AllClean(args)
  {
    forall j | 0 <= j < |args| ensures Clean(args[j]) { assert LegalWord(args[j]); }
  }

  lemma {:induction false} ExecClean(t: Cmd<string>)
    requires Legal(t)
    ensures AllClean(ExecToks(t))
    decreases t, 1
  {
    hide AllClean, CoreToks;
    LegalParts(t);
    RedirToksClean(Redirs(t));
    CoreClean(t);
    CleanConcat(CoreToks(t), RedirToks(Redirs(t)));
  }

  lemma {:induction false} PipeClean(t: Cmd<string>)
    requires Legal(t)
    ensures AllClean(PipeToks(t))
    decreases t, 2
  {
    hide AllClean, ExecToks;
    if t.Pipe? {
      ExecClean(t.left);
      PipeClean(t.right);
      CleanInfix(ExecToks(t.left), "|", PipeToks(t.right));
    } else {
      ExecClean(t);
    }
  }

  lemma {:induction false} BackClean(t: Cmd<string>)
    requires Legal(t)
    ensures AllClean(BackToks(t))
    decreases t, 3
  {
    hide AllClean, PipeToks;
    if t.Back? {
      BackClean(t.cmd);
      CleanOp("&");
      CleanConcat(BackToks(t.cmd), ["&"]);
    } else {
      PipeClean(t);
    }
  }

  lemma {:induction false} LineClean(t: Cmd<string>)
    requires Legal(t)
    ensures AllClean(LineToks(t))
    decreases t, 4
  {
    hide AllClean, BackToks;
    if t.List? {
      BackClean(t.left);
      LineClean(t.right);
      CleanInfix(BackToks(t.left), ";", LineToks(t.right));
    } else {
      BackClean(t);
    }
  }

  /** For every legal command tree, the printed text parses, wholly, to a tree
      whose words are the original's. */
  lemma RoundTrip(t: Cmd<string>)
    requires Legal(t)
    ensures '\0' !in Print(t)
    ensures var r := ParseCmd(Print(t)); r.Ok? && Words(Print(t), r.value) == t
  {
    hide LineToks, Legal, AllClean, Words, ParseLine, Rest, SkipSpace, Flat;
    LineClean(t);
    FlatNoNul(LineToks(t));
    var s: CString := Print(t);
    assert s[0..] == s;
    FlatRest(s, 0, LineToks(t));
    assert LineToks(t) + [] == LineToks(t);
    LineBack(s, 0, t, []);
    AtEnd(s, ParseLine(s, 0).next);
  }

  lemma AtEnd(s: CString, i: nat)
    requires Rest(s, i, [])
    ensures i <= |s| && SkipSpace(s, i) == |s|
  {
  }
}
