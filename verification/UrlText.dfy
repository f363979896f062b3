/** The URL pattern of web/src/lib/shoutrrr.ts, URL_RE: how a target's text is cut
    into parts. */
module UrlText {
  import opened Wrappers
  import opened Strings

  /** Parts that are absent are empty; `path` keeps its leading slash, `query` has
      lost its question mark. */
  datatype Parts = Parts(scheme: string, user: string, pass: string, hostPort: string, path: string, query: string)

  predicate IsLetter(c: char) {
    'a' <= c <= 'z' || 'A' <= c <= 'Z'
  }

  predicate IsSchemeChar(c: char) {
    IsLetter(c) || '0' <= c <= '9' || c == '+' || c == '.' || c == '-'
  }

  predicate IsScheme(s: string) {
    s != "" && IsLetter(s[0]) && forall c :: c in s ==> IsSchemeChar(c)
  }

  function LowerChar(c: char): char {
    if 'A' <= c <= 'Z' then (c as int + 32) as char else c
  }

  /** toLowerCase, on the letters a scheme may have. */
  function Lower(s: string): string {
    seq(|s|, i requires 0 <= i < |s| => LowerChar(s[i]))
  }

  /** Where the first of two characters is. */
  function IndexOfEither(s: string, c: char, d: char): (i: nat)
    ensures i <= |s| && (forall k :: 0 <= k < i ==> s[k] != c && s[k] != d) && (i < |s| ==> s[i] == c || s[i] == d)
  {
    if s == "" || s[0] == c || s[0] == d then 0 else IndexOfEither(s[1..], c, d) + 1
  }

  lemma {:induction false} IndexOfEitherAfter(a: string, s: string, c: char, d: char)
    requires c !in a && d !in a && (s == "" || s[0] == c || s[0] == d)
    ensures IndexOfEither(a + s, c, d) == |a|
  {
    if a == "" {
      assert a + s == s;
    } else {
      assert (a + s)[0] == a[0] && (a + s)[1..] == a[1..] + s;
      IndexOfEitherAfter(a[1..], s, c, d);
    }
  }

  // ---- Cutting ----

  /** user, password and host of an authority. */
  function CutAuthority(a: string): (string, string, string) {
    var at := IndexOf(a, '@');
    if at == |a| then ("", "", a)
    else
      var info := a[..at];
      var colon := IndexOf(info, ':');
      (info[..colon], if colon < |info| then info[colon + 1..] else "", a[at + 1..])
  }

  /** path and query of what follows an authority. */
  function CutTail(t: string): (string, string) {
    var q := IndexOf(t, '?');
    (t[..q], if q < |t| then t[q + 1..] else "")
  }

  function CutRest(scheme: string, rest: string): Parts {
    var end := IndexOfEither(rest, '/', '?');
    var (user, pass, hostPort) := CutAuthority(rest[..end]);
    var (path, query) := CutTail(rest[end..]);
    Parts(scheme, user, pass, hostPort, path, query)
  }

  function Cut(s: string): Option<Parts> {
    var colon := IndexOf(s, ':');
    if !IsScheme(s[..colon]) || |s| < colon + 3 || s[colon..colon + 3] != "://" || '#' in s[colon + 3..] then None
    else Some(CutRest(s[..colon], s[colon + 3..]))
  }

  // ---- What the pattern says ----

  /** The optional user, and the optional password with it. */
  type Userinfo = Option<(string, Option<string>)>

  function UserText(user: string, pass: Option<string>): string {
    if pass.Some? then user + [':'] + pass.value else user
  }

  /** Characters that may appear in an authority. */
  predicate InAuthority(s: string) {
    '/' !in s && '?' !in s && '#' !in s
  }

  /** The parts are made of the characters the pattern allows them. A user and
      password are tried for before a host may contain an at sign. */
  ghost predicate Allowed(p: Parts, info: Userinfo, asked: bool) {
    && IsScheme(p.scheme)
    && p.user == (if info.Some? then info.value.0 else "")
    && p.pass == (if info.Some? && info.value.1.Some? then info.value.1.value else "")
    && InAuthority(p.user) && ':' !in p.user && '@' !in p.user
    && InAuthority(p.pass) && '@' !in p.pass
    && InAuthority(p.hostPort) && (info.None? ==> '@' !in p.hostPort)
    && (p.path != "" ==> p.path[0] == '/') && '?' !in p.path && '#' !in p.path
    && '#' !in p.query && (!asked ==> p.query == "")
  }

  function Authority(p: Parts, info: Userinfo): string {
    if info.Some? then UserText(info.value.0, info.value.1) + ['@'] + p.hostPort else p.hostPort
  }

  function Tail(p: Parts, asked: bool): string {
    if asked then p.path + ['?'] + p.query else p.path
  }

  /** The text is put together from these parts as the pattern describes it. */
  ghost predicate Reads(s: string, p: Parts, info: Userinfo, asked: bool) {
    Allowed(p, info, asked) && s == p.scheme + "://" + (Authority(p, info) + Tail(p, asked))
  }

  lemma CutUserOf(user: string, pass: Option<string>)
    requires ':' !in user
    ensures
      var text := UserText(user, pass);
      var colon := IndexOf(text, ':');
      text[..colon] == user && (if colon < |text| then text[colon + 1..] else "") == if pass.Some? then pass.value else ""
  {
    if pass.Some? {
      CutAt(user, ':', pass.value);
    } else {
      CutUp(user, ':');
    }
  }

  lemma NoAtInUser(info: Userinfo, p: Parts, asked: bool)
    requires Allowed(p, info, asked) && info.Some?
    ensures '@' !in UserText(info.value.0, info.value.1)
  {
  }

  lemma CutAuthorityOf(info: Userinfo, p: Parts, asked: bool)
    requires Allowed(p, info, asked)
    ensures CutAuthority(Authority(p, info)) == (p.user, p.pass, p.hostPort)
  {
    if info.Some? {
      NoAtInUser(info, p, asked);
      CutAt(UserText(info.value.0, info.value.1), '@', p.hostPort);
      CutUserOf(p.user, info.value.1);
    } else {
      CutUp(p.hostPort, '@');
    }
  }

  lemma CutTailOf(info: Userinfo, p: Parts, asked: bool)
    requires Allowed(p, info, asked)
    ensures CutTail(Tail(p, asked)) == (p.path, p.query)
  {
    if asked {
      CutAt(p.path, '?', p.query);
    } else {
      CutUp(p.path, '?');
    }
  }

  lemma CutRestOf(p: Parts, authority: string, tail: string)
    requires InAuthority(authority) && (tail == "" || tail[0] == '/' || tail[0] == '?')
    requires CutAuthority(authority) == (p.user, p.pass, p.hostPort) && CutTail(tail) == (p.path, p.query)
    ensures CutRest(p.scheme, authority + tail) == p
  {
    IndexOfEitherAfter(authority, tail, '/', '?');
    assert (authority + tail)[..|authority|] == authority && (authority + tail)[|authority|..] == tail;
  }

  lemma SchemeHasNoColon(scheme: string)
    requires IsScheme(scheme)
    ensures ':' !in scheme
  {
  }

  lemma CutScheme(scheme: string, rest: string)
    requires IsScheme(scheme) && '#' !in rest
    ensures Cut(scheme + "://" + rest) == Some(CutRest(scheme, rest))
  {
    var s := scheme + "://" + rest;
    SchemeHasNoColon(scheme);
    assert s == scheme + [':'] + ("//" + rest);
    IndexOfAfter(scheme, ':', "//" + rest);
    assert s[..|scheme|] == scheme && s[|scheme|..|scheme| + 3] == "://" && s[|scheme| + 3..] == rest;
  }

  lemma AuthorityAllowed(p: Parts, info: Userinfo, asked: bool)
    requires Allowed(p, info, asked)
    ensures InAuthority(Authority(p, info))
    ensures var t := Tail(p, asked); (t == "" || t[0] == '/' || t[0] == '?') && '#' !in t
  {
  }

  /** Text put together as the pattern describes is cut back into its parts. */
  lemma ReadingIsCut(s: string, p: Parts, info: Userinfo, asked: bool)
    requires Reads(s, p, info, asked)
    ensures Cut(s) == Some(p)
  {
    CutAuthorityOf(info, p, asked);
    CutTailOf(info, p, asked);
    AuthorityAllowed(p, info, asked);
    CutRestOf(p, Authority(p, info), Tail(p, asked));
    CutScheme(p.scheme, Authority(p, info) + Tail(p, asked));
  }

  lemma SubAuthority(a: string, i: nat, j: nat)
    requires InAuthority(a) && i <= j <= |a|
    ensures InAuthority(a[i..j])
  {
  }

  lemma CutUserReads(text: string) returns (pass: Option<string>)
    ensures
      var colon := IndexOf(text, ':');
      && text == UserText(text[..colon], pass) && ':' !in text[..colon]
      && (if colon < |text| then text[colon + 1..] else "") == if pass.Some? then pass.value else ""
  {
    CutUp(text, ':');
    var colon := IndexOf(text, ':');
    pass := if colon < |text| then Some(text[colon + 1..]) else None;
  }

  /** An authority cut into user, password and host is put together from them. */
  ghost predicate AuthorityReads(a: string, p: Parts, info: Userinfo) {
    && a == Authority(p, info)
    && p.user == (if info.Some? then info.value.0 else "")
    && p.pass == (if info.Some? && info.value.1.Some? then info.value.1.value else "")
    && InAuthority(p.user) && ':' !in p.user && '@' !in p.user && InAuthority(p.pass) && '@' !in p.pass
    && InAuthority(p.hostPort) && (info.None? ==> '@' !in p.hostPort)
  }

  lemma CutAuthorityReads(a: string, p: Parts) returns (info: Userinfo)
    requires InAuthority(a) && CutAuthority(a) == (p.user, p.pass, p.hostPort)
    ensures AuthorityReads(a, p, info)
  {
    CutUp(a, '@');
    var at := IndexOf(a, '@');
    if at == |a| {
      info := None;
    } else {
      var pass := CutUserReads(a[..at]);
      info := Some((p.user, pass));
      SubAuthority(a, 0, at);
      SubAuthority(a, at + 1, |a|);
      var colon := IndexOf(a[..at], ':');
      SubAuthority(a[..at], 0, colon);
      if colon < at {
        SubAuthority(a[..at], colon + 1, at);
      }
    }
  }

  ghost predicate TailReads(t: string, p: Parts, asked: bool) {
    && t == Tail(p, asked) && (!asked ==> p.query == "")
    && (p.path != "" ==> p.path[0] == '/') && '?' !in p.path && '#' !in p.path && '#' !in p.query
  }

  lemma CutTailReads(t: string, p: Parts) returns (asked: bool)
    requires '#' !in t && (t == "" || t[0] == '/' || t[0] == '?') && CutTail(t) == (p.path, p.query)
    ensures TailReads(t, p, asked)
  {
    CutUp(t, '?');
    asked := IndexOf(t, '?') < |t|;
  }

  lemma CutRestReads(scheme: string, rest: string) returns (info: Userinfo, asked: bool)
    requires IsScheme(scheme) && '#' !in rest
    ensures Allowed(CutRest(scheme, rest), info, asked)
    ensures rest == Authority(CutRest(scheme, rest), info) + Tail(CutRest(scheme, rest), asked)
  {
    var p := CutRest(scheme, rest);
    var a, t := CutInTwo(scheme, rest, p);
    info := CutAuthorityReads(a, p);
    asked := CutTailReads(t, p);
    PutTogether(a, t, p, info, asked);
  }

  lemma CutInTwo(scheme: string, rest: string, p: Parts) returns (a: string, t: string)
    requires '#' !in rest && p == CutRest(scheme, rest)
    ensures rest == a + t && p.scheme == scheme && InAuthority(a) && '#' !in t
    ensures CutAuthority(a) == (p.user, p.pass, p.hostPort) && CutTail(t) == (p.path, p.query)
    ensures t == "" || t[0] == '/' || t[0] == '?'
  {
    var end := IndexOfEither(rest, '/', '?');
    AuthorityOf(rest, end);
    a, t := rest[..end], rest[end..];
  }

  lemma PutTogether(a: string, t: string, p: Parts, info: Userinfo, asked: bool)
    requires IsScheme(p.scheme) && AuthorityReads(a, p, info) && TailReads(t, p, asked)
    ensures Allowed(p, info, asked) && a + t == Authority(p, info) + Tail(p, asked)
  {
  }

  lemma AuthorityOf(rest: string, end: nat)
    requires '#' !in rest && end == IndexOfEither(rest, '/', '?')
    ensures InAuthority(rest[..end]) && '#' !in rest[end..]
  {
  }

  /** Only such text is cut at all. */
  lemma CutIsReading(s: string) returns (info: Userinfo, asked: bool)
    requires Cut(s).Some?
    ensures Reads(s, Cut(s).value, info, asked)
  {
    var colon := IndexOf(s, ':');
    var rest := s[colon + 3..];
    assert s == s[..colon] + s[colon..colon + 3] + rest;
    info, asked := CutRestReads(s[..colon], rest);
  }
}
