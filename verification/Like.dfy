/** internal/store/events.go, escapeLike, against SQLite's LIKE with ESCAPE '\': a
    search finds exactly the texts that contain it. */
module Like {

  const ESCAPE := '\\'

  /** SQLite folds the case of ASCII letters only. */
  function Fold(c: char): char {
    if 'A' <= c <= 'Z' then (c as int + 32) as char else c
  }

  /** text LIKE pattern ESCAPE '\'. An escape with nothing after it matches nothing. */
  predicate Matches(pattern: string, text: string)
    decreases |pattern| + |text|
  {
    if pattern == "" then text == ""
    else if pattern[0] == '%' then
      Matches(pattern[1..], text) || (text != "" && Matches(pattern, text[1..]))
    else if pattern[0] == '_' then
      text != "" && Matches(pattern[1..], text[1..])
    else if pattern[0] == ESCAPE then
      |pattern| > 1 && text != "" && Fold(pattern[1]) == Fold(text[0]) && Matches(pattern[2..], text[1..])
    else
      text != "" && Fold(pattern[0]) == Fold(text[0]) && Matches(pattern[1..], text[1..])
  }

  function EscapeChar(c: char): string {
    if c == ESCAPE || c == '%' || c == '_' then [ESCAPE, c] else [c]
  }

  function EscapeLike(s: string): string {
    if s == "" then "" else EscapeChar(s[0]) + EscapeLike(s[1..])
  }

  /** The two strings are the same but for the case of letters. */
  predicate SameFolded(a: string, b: string) {
    |a| == |b| && forall i :: 0 <= i < |a| ==> Fold(a[i]) == Fold(b[i])
  }

  ghost predicate OccursAt(q: string, text: string, i: nat) {
    i + |q| <= |text| && SameFolded(text[i..i + |q|], q)
  }

  ghost predicate Occurs(q: string, text: string) {
    exists i: nat :: OccursAt(q, text, i)
  }

  /** An escaped string matches itself and nothing else. */
  lemma {:induction false} EscapedMatchesItself(q: string, rest: string, text: string)
    ensures Matches(EscapeLike(q) + rest, text) <==> OccursAt(q, text, 0) && Matches(rest, text[|q|..])
    decreases |q|
  {
    if q == "" {
      assert EscapeLike(q) + rest == rest && text[0..] == text;
    } else {
      var tail := EscapeLike(q[1..]) + rest;
      assert EscapeLike(q) + rest == EscapeChar(q[0]) + tail;
      assert (EscapeChar(q[0]) + tail)[|EscapeChar(q[0])|..] == tail;
      if text != "" {
        EscapedMatchesItself(q[1..], rest, text[1..]);
        if |q| <= |text| {
          assert text[1..][|q[1..]|..] == text[|q|..];
        }
        FirstAndRest(q, text);
      }
    }
  }

  lemma FirstAndRest(q: string, text: string)
    requires q != "" && text != ""
    ensures OccursAt(q, text, 0) <==> Fold(q[0]) == Fold(text[0]) && OccursAt(q[1..], text[1..], 0)
  {
    if |q| <= |text| {
      var a, b := text[0..|q|], text[1..][0..|q[1..]|];
      assert a == [text[0]] + b && q == [q[0]] + q[1..];
    }
  }

  lemma {:induction false} PercentMatchesAll(text: string)
    ensures Matches("%", text)
  {
    if text != "" {
      PercentMatchesAll(text[1..]);
    }
  }

  /** A leading percent sign skips any number of characters. */
  lemma {:induction false} PercentSkips(pattern: string, text: string)
    ensures Matches("%" + pattern, text) <==> exists i :: 0 <= i <= |text| && Matches(pattern, text[i..])
    decreases |text|
  {
    var p := "%" + pattern;
    assert p[1..] == pattern;
    assert text[0..] == text;
    if text != "" {
      PercentSkips(pattern, text[1..]);
      if Matches(p, text[1..]) {
        var i :| 0 <= i <= |text[1..]| && Matches(pattern, text[1..][i..]);
        assert text[1..][i..] == text[i + 1..];
      }
      if i :| 1 <= i <= |text| && Matches(pattern, text[i..]) {
        assert text[1..][i - 1..] == text[i..];
      }
    }
  }

  /** Searching for `q` finds a text exactly when `q` occurs in it, whatever
      wildcards and escapes `q` is made of. */
  lemma SearchIsLiteral(q: string, text: string)
    ensures Matches("%" + EscapeLike(q) + "%", text) <==> Occurs(q, text)
  {
    var pattern := EscapeLike(q) + "%";
    assert "%" + EscapeLike(q) + "%" == "%" + pattern;
    PercentSkips(pattern, text);
    forall i | 0 <= i <= |text| ensures Matches(pattern, text[i..]) <==> OccursAt(q, text, i) {
      EscapedMatchesItself(q, "%", text[i..]);
      if |q| <= |text[i..]| {
        PercentMatchesAll(text[i..][|q|..]);
        assert text[i..][0..|q|] == text[i..i + |q|];
      }
    }
  }
}
