/** String operations of JavaScript's library that the URL form relies on. Strings
    are sequences of Unicode scalar values. */
module Strings {
  // ---- Splitting and joining ----

  function IndexOf(s: string, c: char): (i: nat)
    ensures i <= |s| && c !in s[..i] && (i < |s| ==> s[i] == c)
  {
    if s == "" || s[0] == c then 0 else IndexOf(s[1..], c) + 1
  }

  lemma {:induction false} IndexOfAfter(a: string, c: char, b: string)
    requires c !in a
    ensures IndexOf(a + [c] + b, c) == |a|
  {
    if a == "" {
      assert (a + [c] + b)[0] == c;
    } else {
      assert (a + [c] + b)[1..] == a[1..] + [c] + b;
      IndexOfAfter(a[1..], c, b);
    }
  }

  lemma IndexOfNone(s: string, c: char)
    ensures IndexOf(s, c) == |s| <==> c !in s
  {
    assert s[..|s|] == s;
  }

  /** Text joined by a character is cut at the first one. */
  lemma CutAt(a: string, c: char, b: string)
    requires c !in a
    ensures IndexOf(a + [c] + b, c) == |a| < |a + [c] + b|
    ensures (a + [c] + b)[..|a|] == a && (a + [c] + b)[|a| + 1..] == b
  {
    IndexOfAfter(a, c, b);
  }

  /** And text that has the character is so joined. */
  lemma CutUp(s: string, c: char)
    ensures
      var i := IndexOf(s, c);
      if i == |s| then c !in s && s[..i] == s else c !in s[..i] && s == s[..i] + [c] + s[i + 1..]
  {
    IndexOfNone(s, c);
  }

  lemma Regroup(a: string, b: string, c: string)
    ensures (a + b) + c == a + (b + c)
  {
  }

  function Split(s: string, c: char): (r: seq<string>)
    ensures r != [] && forall p :: p in r ==> c !in p
    decreases |s|
  {
    var i := IndexOf(s, c);
    if i == |s| then [s] else [s[..i]] + Split(s[i + 1..], c)
  }

  function Join(parts: seq<string>, c: char): string {
    if parts == [] then "" else if |parts| == 1 then parts[0] else parts[0] + [c] + Join(parts[1..], c)
  }

  lemma {:induction false} SplitJoin(parts: seq<string>, c: char)
    requires parts != [] && forall p :: p in parts ==> c !in p
    ensures Split(Join(parts, c), c) == parts
  {
    var s := Join(parts, c);
    assert parts[0] in parts && parts == [parts[0]] + parts[1..];
    if |parts| == 1 {
      IndexOfNone(s, c);
    } else {
      CutAt(parts[0], c, Join(parts[1..], c));
      SplitJoin(parts[1..], c);
    }
  }

  lemma {:induction false} JoinSplit(s: string, c: char)
    ensures Join(Split(s, c), c) == s
    decreases |s|
  {
    var i := IndexOf(s, c);
    if i < |s| {
      var rest := Split(s[i + 1..], c);
      JoinSplit(s[i + 1..], c);
      var parts := [s[..i]] + rest;
      assert Split(s, c) == parts && |parts| > 1 && parts[1..] == rest;
    }
  }

  /** The non-empty ones. */
  function NonEmpty(parts: seq<string>): (r: seq<string>)
    ensures forall p :: p in r <==> p in parts && p != ""
  {
    if parts == [] then []
    else if parts[0] == "" then NonEmpty(parts[1..])
    else [parts[0]] + NonEmpty(parts[1..])
  }

  lemma {:induction false} NonEmptyAll(parts: seq<string>)
    requires "" !in parts
    ensures NonEmpty(parts) == parts
  {
    if parts != [] {
      assert parts == [parts[0]] + parts[1..];
      NonEmptyAll(parts[1..]);
    }
  }

  /** The parts of a path written with a leading slash, or not at all if there are none. */
  function Slashed(parts: seq<string>): string {
    if parts == [] then "" else "/" + Join(parts, '/')
  }

  lemma PartsOfSlashed(parts: seq<string>)
    requires "" !in parts && forall p :: p in parts ==> '/' !in p
    ensures NonEmpty(Split(Slashed(parts), '/')) == parts
  {
    if parts != [] {
      var s := Slashed(parts);
      assert s[0] == '/';
      assert s[1..] == Join(parts, '/');
      assert Split(s, '/') == [""] + Split(s[1..], '/');
      SplitJoin(parts, '/');
      NonEmptyAll(parts);
    } else {
      assert Split("", '/') == [""];
    }
  }

  lemma {:induction false} JoinChars(parts: seq<string>, c: char, x: char)
    requires x in Join(parts, c)
    ensures x == c || exists p :: p in parts && x in p
  {
    if |parts| > 1 && x !in parts[0] && x != c {
      JoinChars(parts[1..], c, x);
    } else if parts != [] && x in parts[0] {
      assert parts[0] in parts;
    }
  }

  lemma {:induction false} JoinEnds(parts: seq<string>, c: char)
    requires parts != [] && "" !in parts
    ensures
      var s, last := Join(parts, c), parts[|parts| - 1];
      s != "" && s[0] == parts[0][0] && last != "" && s[|s| - 1] == last[|last| - 1]
  {
    assert parts[0] in parts && parts[|parts| - 1] in parts;
    if |parts| > 1 {
      JoinEnds(parts[1..], c);
    }
  }

  // ---- Trimming ----

  /** What String.prototype.trim removes: white space and line terminators. */
  predicate IsSpace(c: char) {
    || '\U{9}' <= c <= '\U{d}' || c == ' ' || c == '\U{a0}' || c == '\U{1680}'
    || '\U{2000}' <= c <= '\U{200a}' || c == '\U{2028}' || c == '\U{2029}' || c == '\U{202f}'
    || c == '\U{205f}' || c == '\U{3000}' || c == '\U{feff}'
  }

  function TrimLeft(s: string): (r: string)
    ensures r == "" || !IsSpace(r[0])
    ensures s != "" ==> if IsSpace(s[0]) then |r| < |s| else r == s
    ensures r == "" || (s != "" && r[|r| - 1] == s[|s| - 1])
    ensures |r| <= |s|
  {
    if s != "" && IsSpace(s[0]) then TrimLeft(s[1..]) else s
  }

  function TrimRight(s: string): (r: string)
    ensures r == "" || !IsSpace(r[|r| - 1])
    ensures s != "" ==> if IsSpace(s[|s| - 1]) then |r| < |s| else r == s
    ensures |r| <= |s| && r == s[..|r|]
  {
    if s != "" && IsSpace(s[|s| - 1]) then TrimRight(s[..|s| - 1]) else s
  }

  function Trim(s: string): string {
    TrimRight(TrimLeft(s))
  }

  predicate IsTrimmed(s: string) {
    s == "" || (!IsSpace(s[0]) && !IsSpace(s[|s| - 1]))
  }

  /** Trimming changes exactly the strings that have space at an end, and leaves none. */
  lemma TrimIsTrimmed(s: string)
    ensures IsTrimmed(Trim(s)) && (Trim(s) == s <==> IsTrimmed(s)) && (!IsTrimmed(s) ==> |Trim(s)| < |s|)
    ensures Trim(Trim(s)) == Trim(s)
  {
  }
}
