/** The regular-expression matcher of user/grep.c, and what its patterns mean. */
module Grep {
  import opened Basics

  // ----- the matcher

  function MatchHere(re: CString, text: CString): bool
    decreases |re|, |text|, 0
  {
    if re == "" then true
    else if |re| > 1 && re[1] == '*' then MatchStar(re[0], re[2..], text)
    else if re == "$" then text == ""
    else text != "" && (re[0] == '.' || re[0] == text[0]) && MatchHere(re[1..], text[1..])
  }

  function MatchStar(c: char, re: CString, text: CString): bool
    decreases |re|, |text|, 1
  {
    MatchHere(re, text) || (text != "" && (text[0] == c || c == '.') && MatchStar(c, re, text[1..]))
  }

  function Match(re: CString, text: CString): bool {
    if re != "" && re[0] == '^' then MatchHere(re[1..], text)
    else MatchFrom(re, text)
  }

  /** match's loop: here, or at a later position, the end included. */
  function MatchFrom(re: CString, text: CString): bool
    decreases |text|
  {
    MatchHere(re, text) || (text != "" && MatchFrom(re, text[1..]))
  }

  // ----- the meaning of a pattern

  /** One character, any character, any number of one character, or the end. */
  datatype Item = Lit(c: char) | Any | Star(c: char) | End

  function Items(re: string): seq<Item> {
    if re == "" then []
    else if |re| > 1 && re[1] == '*' then [Star(re[0])] + Items(re[2..])
    else if re == "$" then [End]
    else [if re[0] == '.' then Any else Lit(re[0])] + Items(re[1..])
  }

  predicate Covers(c: char, x: char) { c == '.' || c == x }

  /** The strings an item stands for. */
  predicate Spells(it: Item, w: string) {
    match it
    case Lit(c) => w == [c]
    case Any => |w| == 1
    case Star(c) => forall j :: 0 <= j < |w| ==> Covers(c, w[j])
    case End => w == ""
  }

  function Concat(parts: seq<string>): string { if parts == [] then "" else parts[0] + Concat(parts[1..]) }

  /** The parts spell the items one by one, together they are a prefix of the
      text, and all of it if the pattern ends with End. */
  predicate Explains(items: seq<Item>, parts: seq<string>, text: string) {
    && |parts| == |items| && (forall k :: 0 <= k < |items| ==> Spells(items[k], parts[k]))
    && Concat(parts) <= text && (End in items ==> Concat(parts) == text)
  }

  /** The text starts with a match. */
  ghost predicate Denotes(re: string, text: string) { exists parts :: Explains(Items(re), parts, text) }

  /** Some part of the text matches: from the start if the pattern says so. */
  ghost predicate Found(re: string, text: string) {
    if re != "" && re[0] == '^' then Denotes(re[1..], text)
    else exists i :: 0 <= i <= |text| && Denotes(re, text[i..])
  }

  // ----- the matcher finds what the pattern means

  lemma ConcatCons(w: string, parts: seq<string>)
    ensures Concat([w] + parts) == w + Concat(parts)
  {
    assert ([w] + parts)[1..] == parts;
  }

  /** A part for the first item in front of an explanation of the rest. */
  lemma ExplainsCons(it: Item, items: seq<Item>, w: string, parts: seq<string>, rest: string)
    requires Spells(it, w) && Explains(items, parts, rest) && (it == End ==> items == [] && rest == "")
    ensures Explains([it] + items, [w] + parts, w + rest)
  {
    ConcatCons(w, parts);
  }

  /** And the other way round. */
  lemma ExplainsTail(it: Item, items: seq<Item>, parts: seq<string>, text: string)
    requires Explains([it] + items, parts, text)
    ensures parts != [] && Spells(it, parts[0]) && parts[0] <= text && Explains(items, parts[1..], text[|parts[0]|..])
  {
    var all := [it] + items;
    assert all[0] == it && Spells(all[0], parts[0]);
    forall k | 0 <= k < |items| ensures Spells(items[k], parts[1..][k]) { assert all[k + 1] == items[k]; }
    var w, tail := parts[0], Concat(parts[1..]);
    assert Concat(parts) == w + tail;
    assert text[..|w + tail|] == w + tail;
    assert text[..|w|] == w;
    assert text[|w|..][..|tail|] == tail;
    if End in items {
      var k :| 0 <= k < |items| && items[k] == End;
      assert all[k + 1] == End;
    }
  }

  lemma {:induction false} HereSound(re: CString, text: CString) returns (parts: seq<string>)
    requires MatchHere(re, text)
    ensures Explains(Items(re), parts, text)
    decreases |re|, |text|, 0
  {
    hide Explains;
    if re == "" {
      parts := [];
      NothingExplains(text);
    } else if |re| > 1 && re[1] == '*' {
      parts := StarSound(re[0], re[2..], text);
    } else if re == "$" {
      parts := [""];
      EndExplains();
    } else {
      var more := HereSound(re[1..], text[1..]);
      var w := text[..1];
      parts := [w] + more;
      assert w + text[1..] == text;
      ExplainsCons(if re[0] == '.' then Any else Lit(re[0]), Items(re[1..]), w, more, text[1..]);
    }
  }

  lemma NothingExplains(text: string)
    ensures Explains([], [], text)
  {
  }

  lemma EndExplains()
    ensures Explains([End], [""], "")
  {
    assert [""][1..] == [];
  }

  lemma {:induction false} StarSound(c: char, re: CString, text: CString) returns (parts: seq<string>)
    requires MatchStar(c, re, text)
    ensures Explains([Star(c)] + Items(re), parts, text)
    decreases |re|, |text|, 1
  {
    hide Explains;
    if MatchHere(re, text) {
      var more := HereSound(re, text);
      parts := [""] + more;
      assert "" + text == text;
      ExplainsCons(Star(c), Items(re), "", more, text);
    } else {
      var more := StarSound(c, re, text[1..]);
      parts := LongerStar(c, Items(re), more, text);
    }
  }

  /** One more character for the star. */
  lemma LongerStar(c: char, items: seq<Item>, more: seq<string>, text: string) returns (parts: seq<string>)
    requires text != "" && Covers(c, text[0]) && Explains([Star(c)] + items, more, text[1..])
    ensures Explains([Star(c)] + items, parts, text)
  {
    ExplainsTail(Star(c), items, more, text[1..]);
    var w := more[0];
    var longer := [text[0]] + w;
    assert Spells(Star(c), longer);
    assert text == longer + text[1..][|w|..] by { assert text == [text[0]] + text[1..];
      assert text[1..] == w + text[1..][|w|..]; }
    parts := [longer] + more[1..];
    hide Explains;
    ExplainsCons(Star(c), items, longer, more[1..], text[1..][|w|..]);
  }

  lemma {:induction false} HereComplete(re: CString, text: CString, parts: seq<string>)
    requires Explains(Items(re), parts, text)
    ensures MatchHere(re, text)
    decreases |re|, |text|, 0
  {
    if re == "" {
    } else if |re| > 1 && re[1] == '*' {
      StarComplete(re[0], re[2..], text, parts);
    } else if re == "$" {
      assert parts == [""] && [""][1..] == [] by { assert Spells(Items(re)[0], parts[0]); }
      assert End in Items(re);
    } else {
      var it := if re[0] == '.' then Any else Lit(re[0]);
      hide Explains;
      ExplainsTail(it, Items(re[1..]), parts, text);
      HereComplete(re[1..], text[1..], parts[1..]);
    }
  }

  lemma {:induction false} StarComplete(c: char, re: CString, text: CString, parts: seq<string>)
    requires Explains([Star(c)] + Items(re), parts, text)
    ensures MatchStar(c, re, text)
    decreases |re|, |text|, 1
  {
    hide Explains;
    ExplainsTail(Star(c), Items(re), parts, text);
    var w, rest := parts[0], parts[1..];
    if w == "" {
      assert text[0..] == text;
      HereComplete(re, text, rest);
    } else {
      assert Covers(c, w[0]) && w[0] == text[0];
      assert text[1..][|w| - 1..] == text[|w|..];
      assert text[1..] == w[1..] + text[|w|..];
      ExplainsCons(Star(c), Items(re), w[1..], rest, text[|w|..]);
      StarComplete(c, re, text[1..], [w[1..]] + rest);
    }
  }

  lemma HereExact(re: CString, text: CString)
    ensures MatchHere(re, text) <==> Denotes(re, text)
  {
    if MatchHere(re, text) { var parts := HereSound(re, text); }
    if Denotes(re, text) {
      var parts :| Explains(Items(re), parts, text);
      HereComplete(re, text, parts);
    }
  }

  lemma {:induction false} FromExact(re: CString, text: CString)
    ensures MatchFrom(re, text) <==> exists i :: 0 <= i <= |text| && Denotes(re, text[i..])
    decreases |text|
  {
    hide Denotes, MatchHere;
    HereExact(re, text);
    assert text[0..] == text;
    if text != "" {
      FromExact(re, text[1..]);
      forall i | 0 <= i <= |text[1..]| ensures text[1..][i..] == text[i + 1..] {}
      if exists i :: 0 <= i <= |text| && Denotes(re, text[i..]) {
        var i :| 0 <= i <= |text| && Denotes(re, text[i..]);
        if i > 0 { assert text[1..][i - 1..] == text[i..]; }
      }
      if exists i :: 0 <= i <= |text[1..]| && Denotes(re, text[1..][i..]) {
        var i :| 0 <= i <= |text[1..]| && Denotes(re, text[1..][i..]);
        assert Denotes(re, text[i + 1..]);
      }
    }
  }

  /** match is true exactly when the pattern's meaning is found in the text. */
  lemma MatchExact(re: CString, text: CString)
    ensures Match(re, text) <==> Found(re, text)
  {
    if re != "" && re[0] == '^' { HereExact(re[1..], text); } else { FromExact(re, text); }
  }

  // ----- the code

  /** matchhere: true exactly when the pattern's meaning holds at the start of the text. */
  method Matchhere(re: CString, text: CString) returns (r: bool)
    ensures r == MatchHere(re, text) && (r <==> Denotes(re, text))
    decreases |re|, |text|, 0
  {
    HereExact(re, text);
    hide Denotes;
    if re == "" { return true; }
    if |re| > 1 && re[1] == '*' {
      r := Matchstar(re[0], re[2..], text);
      return;
    }
    if re == "$" { return text == ""; }
    if text != "" && (re[0] == '.' || re[0] == text[0]) {
      r := Matchhere(re[1..], text[1..]);
      return;
    }
    return false;
  }

  method Matchstar(c: char, re: CString, text: CString) returns (r: bool)
    ensures r == MatchStar(c, re, text)
    decreases |re|, |text|, 1
  {
    var i := 0;
    assert text[0..] == text;
    while true
      invariant 0 <= i <= |text| && MatchStar(c, re, text[i..]) == MatchStar(c, re, text)
      decreases |text| - i
    {
      var here := Matchhere(re, text[i..]);
      if here { return true; }
      if i == |text| { return false; }
      if !(text[i] == c || c == '.') { return false; }
      assert text[i..][1..] == text[i + 1..];
      i := i + 1;
    }
  }

  /** match: the anchored case, or a scan over every position. */
  method MatchLine(re: CString, text: CString) returns (r: bool)
    ensures r <==> Found(re, text)
  {
    MatchExact(re, text);
    if re != "" && re[0] == '^' {
      r := Matchhere(re[1..], text);
      return;
    }
    hide Found, MatchHere;
    var i := 0;
    assert text[0..] == text;
    while true
      invariant 0 <= i <= |text| && MatchFrom(re, text[i..]) == MatchFrom(re, text)
      decreases |text| - i
    {
      var here := Matchhere(re, text[i..]);
      if here { return true; }
      if i == |text| { return false; }
      assert text[i..][1..] == text[i + 1..];
      i := i + 1;
    }
  }
}
