/** What the form of a notification target prints, it reads back. */
module FormRoundTrip {
  import opened Wrappers
  import opened Strings
  import opened Percent
  import opened Query
  import opened UrlText
  import opened Services
  import opened TargetForm

  // ---- Which targets ----

  /** isComplete: no required input is empty. */
  ghost predicate Complete(s: Service, values: Values) {
    forall f :: f in s.fields && f.required ==> Value(values, f.name) != ""
  }

  /** Host and port are free of the characters that end them. */
  ghost predicate PlainHost(s: Service, values: Values) {
    var host, port := SlotValue(s, values, Host), SlotValue(s, values, Port);
    && InAuthority(host) && '@' !in host && InAuthority(port) && '@' !in port && ':' !in port
    && (FieldFor(s.fields, Port).Some? && port == "" ==> ':' !in host)
  }

  /** A colon pair does not end in its only colon. */
  ghost predicate WholePair(s: Service, values: Values) {
    forall f :: f in s.fields && f.colonPair ==>
      var v := Value(values, f.name); IndexOf(v, ':') == |v| || IndexOf(v, ':') + 1 < |v|
  }

  predicate DistinctKeys(q: Params) {
    q == [] || (q[0].0 !in Keys(q[1..]) && DistinctKeys(q[1..]))
  }

  /** The extra parameters are none that the form has an input for. */
  ghost predicate ForeignExtra(s: Service, extra: Params) {
    DistinctKeys(extra) && forall p :: p in extra ==> p.0 !in KnownKeys(s.fields)
  }

  ghost predicate Clean(s: Service, t: Target) {
    && Complete(s, t.values)
    && PlainHost(s, t.values) && WholePair(s, t.values) && ForeignExtra(s, t.extra)
  }

  // ---- What is printed is cut back into the same parts ----

  ghost predicate AllSafe(s: string) {
    forall c :: c in s ==> IsSafe(c)
  }

  lemma SafeIsPlain(s: string)
    requires AllSafe(s)
    ensures InAuthority(s) && ':' !in s && '@' !in s
    ensures s != "" ==> !IsSpace(s[|s| - 1])
  {
    if s != "" {
      SafeIsNoSpace(s[|s| - 1]);
      assert s[|s| - 1] in s;
    }
  }

  lemma SafeIsNoSpace(c: char)
    ensures IsSafe(c) ==> !IsSpace(c)
  {
  }

  lemma LowerCaseIsScheme(s: string)
    requires s != "" && IsLowerCase(s)
    ensures IsScheme(s) && Lower(s) == s && !IsSpace(s[0])
  {
    forall c | c in s ensures IsSchemeChar(c) {
      var i :| 0 <= i < |s| && s[i] == c;
    }
    assert forall i :: 0 <= i < |s| ==> LowerChar(s[i]) == s[i];
  }

  lemma {:induction false} EncodedSegments(segments: seq<string>)
    requires "" !in segments
    ensures "" !in EncodeEach(segments)
    ensures forall e :: e in EncodeEach(segments) ==> AllSafe(e)
    ensures DecodeEach(EncodeEach(segments)) == segments
  {
    if segments != [] {
      assert segments[0] in segments && segments == [segments[0]] + segments[1..];
      EncodedSegments(segments[1..]);
      EncodedIsSafe(segments[0]);
      EncodeRoundTrip(segments[0]);
      assert EncodeEach(segments)[1..] == EncodeEach(segments[1..]);
    }
  }

  lemma SegmentsOfNonEmpty(f: Field, values: Values)
    ensures "" !in SegmentsOf(f, values)
  {
  }

  lemma {:induction false} SegmentsNonEmpty(paths: seq<Field>, values: Values)
    ensures "" !in Segments(paths, values)
  {
    if paths != [] {
      SegmentsNonEmpty(paths[1..], values);
      SegmentsOfNonEmpty(paths[0], values);
    }
  }

  lemma SlashedChars(each: seq<string>)
    requires forall e :: e in each ==> AllSafe(e)
    ensures '?' !in Slashed(each) && '#' !in Slashed(each)
  {
    assert !IsSafe('?') && !IsSafe('#');
    forall c | c in Slashed(each) ensures c == '/' || IsSafe(c) {
      if each != [] && c != '/' {
        assert c in Join(each, '/');
        JoinChars(each, '/', c);
      }
    }
  }

  lemma SlashedEnd(each: seq<string>)
    requires "" !in each && each != []
    requires forall e :: e in each ==> AllSafe(e)
    ensures var path := Slashed(each); path[0] == '/' && !IsSpace(path[|path| - 1])
  {
    JoinEnds(each, '/');
    SafeIsPlain(each[|each| - 1]);
    EndsOf('/', Join(each, '/'), Slashed(each));
  }

  lemma EndsOf(c: char, rest: string, s: string)
    requires rest != "" && s == [c] + rest
    ensures s[0] == c && s[|s| - 1] == rest[|rest| - 1]
  {
  }

  /** What becomes of the segments of a path. */
  lemma PathIsPlain(segments: seq<string>)
    requires "" !in segments
    ensures
      var path := Slashed(EncodeEach(segments));
      && (path != "" ==> path[0] == '/' && !IsSpace(path[|path| - 1])) && '?' !in path && '#' !in path
      && SegmentsIn(path) == segments
  {
    EncodedSegments(segments);
    var each := EncodeEach(segments);
    var path := Slashed(each);
    SlashedChars(each);
    forall e | e in each ensures '/' !in e {
      SafeIsPlain(e);
    }
    PartsOfSlashed(each);
    if each != [] {
      SlashedEnd(each);
    }
  }

  // ---- The printed text ----

  lemma PrintedParts(s: Service, t: Target)
    requires IsWellDesigned(s) && PlainHost(s, t.values)
    ensures
      var p := PartsFor(s, t);
      Allowed(p, InfoOf(Credentials(s, t.values)), p.query != "")
  {
    var (user, pass) := Credentials(s, t.values);
    LowerCaseIsScheme(s.scheme);
    EncodedIsSafe(user);
    EncodedIsSafe(pass);
    SafeIsPlain(Encode(user));
    SafeIsPlain(Encode(pass));
    SegmentsNonEmpty(PathFields(s.fields), t.values);
    PathIsPlain(Segments(PathFields(s.fields), t.values));
    QueryHasNoHash(QueryFor(s, t));
  }

  lemma QueryHasNoHash(q: Params)
    ensures '#' !in Serialize(q)
    ensures Serialize(q) != "" ==> !IsSpace(Serialize(q)[|Serialize(q)| - 1])
  {
    SerializedChars(q, bs => "");
    if Serialize(q) != "" {
      var c := Serialize(q)[|Serialize(q)| - 1];
      assert c in Serialize(q);
      SafeIsNoSpace(c);
    }
  }

  /** Printing is undone by cutting. */
  lemma PrintedIsCut(s: Service, t: Target)
    requires IsWellDesigned(s) && PlainHost(s, t.values)
    ensures Cut(BuildFor(s, t)) == Some(PartsFor(s, t))
  {
    var p := PartsFor(s, t);
    PrintedParts(s, t);
    ReadingIsCut(BuildFor(s, t), p, InfoOf(Credentials(s, t.values)), p.query != "");
  }

  lemma {:induction false} FieldForSlot(fields: seq<Field>, slot: Slot)
    ensures FieldFor(fields, slot).Some? ==> FieldFor(fields, slot).value in fields && FieldFor(fields, slot).value.slot == slot
    ensures FieldFor(fields, slot).None? ==> forall f :: f in fields ==> f.slot != slot
  {
    if fields != [] {
      FieldForSlot(fields[1..], slot);
      assert fields == [fields[0]] + fields[1..];
    }
  }

  lemma TheField(s: Service, f: Field)
    requires IsWellDesigned(s) && f in s.fields
    ensures FieldFor(s.fields, f.slot) == Some(f) && Suits(s, f)
  {
    FieldForSlot(s.fields, f.slot);
    var g := FieldFor(s.fields, f.slot).value;
    var i :| 0 <= i < |s.fields| && s.fields[i] == f;
    var j :| 0 <= j < |s.fields| && s.fields[j] == g;
    assert Suits(s, s.fields[i]);
    if i < j {
      FieldsCompatible(s, i, j);
    } else if j < i {
      FieldsCompatible(s, j, i);
    }
  }

  lemma ValueIsTrimmed(values: Values, name: Input)
    ensures IsTrimmed(Value(values, name))
  {
    if name in values {
      TrimIsTrimmed(values[name]);
    }
  }

  lemma HostIsGiven(s: Service, values: Values)
    requires IsWellDesigned(s) && Complete(s, values)
    ensures SlotValue(s, values, Host) != ""
  {
    FieldForSlot(s.fields, Host);
    HasSlotAt(s.fields, Host, 0);
    if s.host.None? {
      TheField(s, FieldFor(s.fields, Host).value);
    }
  }

  lemma HostIsSolid(s: Service, values: Values)
    requires IsWellDesigned(s)
    ensures IsTrimmed(SlotValue(s, values, Host)) && IsTrimmed(SlotValue(s, values, Port))
  {
    FieldForSlot(s.fields, Host);
    FieldForSlot(s.fields, Port);
    if s.host.None? && FieldFor(s.fields, Host).Some? {
      ValueIsTrimmed(values, FieldFor(s.fields, Host).value.name);
    }
    if FieldFor(s.fields, Port).Some? {
      ValueIsTrimmed(values, FieldFor(s.fields, Port).value.name);
    }
  }

  predicate EndsSolid(s: string) {
    s != "" && !IsSpace(s[|s| - 1])
  }

  lemma SolidSum(a: string, b: string)
    requires EndsSolid(b) || (b == "" && EndsSolid(a))
    ensures EndsSolid(a + b)
  {
    if b == "" {
      assert a + b == a;
    }
  }

  lemma PrintedHostEnd(s: Service, values: Values)
    requires IsWellDesigned(s) && SlotValue(s, values, Host) != ""
    ensures EndsSolid(HostPort(SlotValue(s, values, Host), SlotValue(s, values, Port)))
  {
    HostIsSolid(s, values);
    var host, port := SlotValue(s, values, Host), SlotValue(s, values, Port);
    if port != "" {
      SolidSum(host + ":", port);
    }
  }

  lemma PrintedTailEnd(s: Service, t: Target)
    ensures var p := PartsFor(s, t); Tail(p, p.query != "") == "" || EndsSolid(Tail(p, p.query != ""))
  {
    var p := PartsFor(s, t);
    var segments := Segments(PathFields(s.fields), t.values);
    SegmentsNonEmpty(PathFields(s.fields), t.values);
    PathIsPlain(segments);
    QueryHasNoHash(QueryFor(s, t));
    if p.query != "" {
      SolidSum(p.path + ['?'], p.query);
    } else {
      assert Tail(p, false) == p.path;
    }
  }

  lemma PrintedEnd(s: Service, t: Target)
    requires IsWellDesigned(s) && SlotValue(s, t.values, Host) != ""
    ensures EndsSolid(BuildFor(s, t))
  {
    var p := PartsFor(s, t);
    var info := InfoOf(Credentials(s, t.values));
    PrintedHostEnd(s, t.values);
    PrintedTailEnd(s, t);
    if info.Some? {
      SolidSum(UserText(info.value.0, info.value.1) + ['@'], p.hostPort);
    }
    SolidSum(Authority(p, info), Tail(p, p.query != ""));
    SolidSum(p.scheme + "://", Authority(p, info) + Tail(p, p.query != ""));
  }

  /** A URL the form prints is not changed by trimming it. */
  lemma PrintedIsTrimmed(s: Service, t: Target)
    requires IsWellDesigned(s) && SlotValue(s, t.values, Host) != ""
    ensures Trim(BuildFor(s, t)) == BuildFor(s, t)
  {
    LowerCaseIsScheme(s.scheme);
    PrintedEnd(s, t);
    TrimIsTrimmed(BuildFor(s, t));
  }

  // ---- Reading user, password, host and port ----

  lemma {:induction false} PairFieldIs(fields: seq<Field>)
    ensures PairField(fields).Some? ==> PairField(fields).value in fields && PairField(fields).value.colonPair
    ensures PairField(fields).None? ==> forall f :: f in fields ==> !f.colonPair
  {
    if fields != [] {
      PairFieldIs(fields[1..]);
      assert fields == [fields[0]] + fields[1..];
    }
  }

  lemma NoPassWithPair(s: Service, f: Field, g: Field)
    requires IsWellDesigned(s) && f in s.fields && g in s.fields && f.colonPair
    ensures g.slot != Pass
  {
    var i :| 0 <= i < |s.fields| && s.fields[i] == f;
    var j :| 0 <= j < |s.fields| && s.fields[j] == g;
    assert Suits(s, s.fields[i]);
    if i < j {
      FieldsCompatible(s, i, j);
    } else if j < i {
      FieldsCompatible(s, j, i);
    }
  }

  /** Who gets the user and the password of a URL. */
  lemma CredentialsOf(s: Service, values: Values, f: Field)
    requires IsWellDesigned(s) && f in s.fields
    ensures f.slot == User && !f.colonPair ==> Credentials(s, values).0 == Value(values, f.name)
    ensures f.slot == Pass ==> Credentials(s, values).1 == Value(values, f.name)
    ensures f.colonPair ==>
      var v := Value(values, f.name);
      var colon := IndexOf(v, ':');
      Credentials(s, values) == (v[..colon], if colon < |v| then v[colon + 1..] else "")
  {
    PairFieldIs(s.fields);
    TheField(s, f);
    if PairField(s.fields).Some? {
      var g := PairField(s.fields).value;
      TheField(s, g);
      NoPassWithPair(s, g, f);
    }
  }

  lemma CredentialsDecode(s: Service, t: Target)
    ensures
      var p := PartsFor(s, t);
      (DecodeOrRaw(p.user), DecodeOrRaw(p.pass)) == Credentials(s, t.values)
      && (p.pass != "" <==> Credentials(s, t.values).1 != "")
  {
    var (user, pass) := Credentials(s, t.values);
    EncodeRoundTrip(user);
    EncodeRoundTrip(pass);
    EncodeRoundTrip("");
    EncodedIsSafe(pass);
  }

  lemma PairReads(s: Service, f: Field, p: Parts, v: string)
    requires f.slot == User && f.colonPair && (IndexOf(v, ':') == |v| || IndexOf(v, ':') + 1 < |v|)
    requires
      var colon := IndexOf(v, ':');
      DecodeOrRaw(p.user) == v[..colon] && DecodeOrRaw(p.pass) == (if colon < |v| then v[colon + 1..] else "")
    requires p.pass != "" <==> IndexOf(v, ':') < |v|
    ensures AuthorityValue(s, f, p) == v
  {
    CutUp(v, ':');
    var colon := IndexOf(v, ':');
    assert colon < |v| ==> v[..colon] + ":" + v[colon + 1..] == v;
  }

  lemma UserReads(s: Service, t: Target, f: Field)
    requires IsWellDesigned(s) && WholePair(s, t.values) && f in s.fields && f.slot == User
    ensures AuthorityValue(s, f, PartsFor(s, t)) == Value(t.values, f.name)
  {
    CredentialsOf(s, t.values, f);
    CredentialsDecode(s, t);
    var p := PartsFor(s, t);
    if f.colonPair {
      PairReads(s, f, p, Value(t.values, f.name));
    }
  }

  /** A colon pair that ends in its only colon loses it; any other reads back. */
  lemma PairReadsBackIfWhole(s: Service, t: Target, f: Field)
    requires IsWellDesigned(s) && f in s.fields && f.colonPair
    ensures
      var v := Value(t.values, f.name);
      AuthorityValue(s, f, PartsFor(s, t)) == v <==> IndexOf(v, ':') == |v| || IndexOf(v, ':') + 1 < |v|
  {
    TheField(s, f);
    var v := Value(t.values, f.name);
    var colon := IndexOf(v, ':');
    CredentialsOf(s, t.values, f);
    CredentialsDecode(s, t);
    if colon + 1 == |v| {
      assert |v[..colon]| < |v|;
    } else {
      PairReads(s, f, PartsFor(s, t), v);
    }
  }

  lemma PassReads(s: Service, t: Target, f: Field)
    requires IsWellDesigned(s) && f in s.fields && f.slot == Pass
    ensures AuthorityValue(s, f, PartsFor(s, t)) == Value(t.values, f.name)
  {
    CredentialsOf(s, t.values, f);
    CredentialsDecode(s, t);
  }

  lemma {:induction false} LastIndexOfIs(s: string, c: char, k: nat)
    requires k < |s| && s[k] == c && c !in s[k + 1..]
    ensures LastIndexOf(s, c) == Some(k)
  {
    if k < |s| - 1 {
      assert s[k + 1..][|s| - k - 2] == s[|s| - 1];
      assert s[..|s| - 1][k + 1..] == s[k + 1..][..|s| - k - 2];
      LastIndexOfIs(s[..|s| - 1], c, k);
    }
  }

  lemma LastIndexOfSum(a: string, b: string, c: char)
    requires c !in b
    ensures LastIndexOf(a + [c] + b, c) == Some(|a|)
  {
    assert (a + [c] + b)[|a| + 1..] == b;
    LastIndexOfIs(a + [c] + b, c, |a|);
  }

  lemma PortSplits(s: Service, host: string, port: string)
    requires ':' !in port && (FieldFor(s.fields, Port).None? ==> port == "")
    requires FieldFor(s.fields, Port).Some? && port == "" ==> ':' !in host
    ensures SplitPort(s, HostPort(host, port)) == (host, port)
  {
    if port != "" {
      LastIndexOfSum(host, port, ':');
      assert host + ":" + port == host + [':'] + port;
      assert (host + [':'] + port)[..|host|] == host && (host + [':'] + port)[|host| + 1..] == port;
    } else if FieldFor(s.fields, Port).Some? {
      assert LastIndexOf(host, ':').None?;
    }
  }

  lemma HostReads(s: Service, t: Target, f: Field)
    requires IsWellDesigned(s) && PlainHost(s, t.values) && f in s.fields && f.slot in {Host, Port}
    ensures AuthorityValue(s, f, PartsFor(s, t)) == Value(t.values, f.name)
  {
    TheField(s, f);
    PortSplits(s, SlotValue(s, t.values, Host), SlotValue(s, t.values, Port));
  }

  // ---- Reading the query ----

  /** Parameters without a value are not printed. */
  function Valued(extra: Params): Params {
    if extra == [] then []
    else if extra[0].1 == "" then Valued(extra[1..])
    else [extra[0]] + Valued(extra[1..])
  }

  function FieldPairs(fields: seq<Field>, values: Values): Params {
    if fields == [] then []
    else
      var f := fields[0];
      if f.slot.Query? && Value(values, f.name) != ""
      then [(KeyText(f.slot.key), Value(values, f.name))] + FieldPairs(fields[1..], values)
      else FieldPairs(fields[1..], values)
  }

  predicate KeysApart(fields: seq<Field>) {
    fields == [] ||
    ((fields[0].slot.Query? ==> KeyText(fields[0].slot.key) !in KnownKeys(fields[1..])) && KeysApart(fields[1..]))
  }

  lemma {:induction false} DesignedKeysApart(s: Service, i: nat)
    requires IsWellDesigned(s) && i <= |s.fields|
    ensures KeysApart(s.fields[i..])
    decreases |s.fields| - i
  {
    if i < |s.fields| {
      DesignedKeysApart(s, i + 1);
      assert s.fields[i..][1..] == s.fields[i + 1..];
      if s.fields[i].slot.Query? && KeyText(s.fields[i].slot.key) in KnownKeys(s.fields[i + 1..]) {
        var f :| f in s.fields[i + 1..] && f.slot.Query? && KeyText(f.slot.key) == KeyText(s.fields[i].slot.key);
        var j :| i < j < |s.fields| && s.fields[j] == f;
        FieldsCompatible(s, i, j);
        KeyTextInjective(s.fields[i].slot.key, f.slot.key);
      }
    }
  }

  lemma KeysOfSum(a: Params, b: Params)
    ensures Keys(a + b) == Keys(a) + Keys(b)
  {
    forall k | k in Keys(a) + Keys(b) ensures k in Keys(a + b) {
      var p :| (p in a || p in b) && p.0 == k;
      assert p in a + b;
    }
  }

  lemma KeysOfFirst(q: Params)
    requires q != []
    ensures Keys(q) == {q[0].0} + Keys(q[1..])
  {
    assert q == [q[0]] + q[1..];
    KeysOfSum([q[0]], q[1..]);
    assert q[0] in [q[0]];
  }

  lemma KeysAfter(q: Params, p: (string, string))
    ensures Keys(q + [p]) == Keys(q) + {p.0}
  {
    KeysOfSum(q, [p]);
    KeysOfFirst([p]);
  }

  lemma RegroupPairs(q: Params, p: (string, string), rest: Params)
    ensures (q + [p]) + rest == q + ([p] + rest)
  {
  }

  lemma {:induction false} WithExtraIs(q: Params, extra: Params)
    requires DistinctKeys(extra) && Keys(q) !! Keys(extra)
    ensures WithExtra(q, extra) == q + Valued(extra)
    decreases |extra|
  {
    if extra != [] {
      KeysOfFirst(extra);
      var first := extra[0];
      if first.1 == "" {
        WithExtraIs(q, extra[1..]);
      } else {
        SetAbsent(q, first.0, first.1);
        KeysAfter(q, first);
        WithExtraIs(q + [first], extra[1..]);
        RegroupPairs(q, first, Valued(extra[1..]));
      }
    }
  }

  lemma KnownKeysOf(fields: seq<Field>)
    requires fields != []
    ensures KnownKeys(fields) == KnownKeys(fields[1..]) + if fields[0].slot.Query? then {KeyText(fields[0].slot.key)} else {}
  {
    assert fields == [fields[0]] + fields[1..];
    assert fields[0] in fields;
  }

  lemma {:induction false} WithFieldsIs(q: Params, fields: seq<Field>, values: Values)
    requires KeysApart(fields) && Keys(q) !! KnownKeys(fields)
    ensures WithFields(q, fields, values) == q + FieldPairs(fields, values)
    decreases |fields|
  {
    if fields != [] {
      var f := fields[0];
      var v := Value(values, f.name);
      KnownKeysOf(fields);
      if f.slot.Query? && v != "" {
        var pair := (KeyText(f.slot.key), v);
        SetAbsent(q, pair.0, v);
        KeysAfter(q, pair);
        WithFieldsIs(q + [pair], fields[1..], values);
        RegroupPairs(q, pair, FieldPairs(fields[1..], values));
      } else {
        if f.slot.Query? {
          DeleteAbsent(q, KeyText(f.slot.key));
        }
        WithFieldsIs(q, fields[1..], values);
        assert FieldPairs(fields, values) == FieldPairs(fields[1..], values);
      }
    }
  }

  lemma {:induction false} ValuedKeys(extra: Params)
    ensures Keys(Valued(extra)) <= Keys(extra)
    ensures DistinctKeys(extra) ==> DistinctKeys(Valued(extra))
  {
    if extra != [] {
      ValuedKeys(extra[1..]);
      KeysOfFirst(extra);
      if extra[0].1 != "" {
        KeysOfFirst(Valued(extra));
        assert Valued(extra)[1..] == Valued(extra[1..]);
      }
    }
  }

  lemma {:induction false} ValuedTwice(extra: Params)
    ensures Valued(Valued(extra)) == Valued(extra)
  {
    if extra != [] {
      ValuedTwice(extra[1..]);
      if extra[0].1 != "" {
        assert Valued(extra)[1..] == Valued(extra[1..]);
      }
    }
  }

  lemma ForeignKeys(s: Service, extra: Params)
    requires ForeignExtra(s, extra)
    ensures Keys(extra) !! KnownKeys(s.fields)
  {
  }

  /** The query of a URL is the extra parameters that have a value, then the inputs that do. */
  lemma QueryIs(s: Service, t: Target)
    requires IsWellDesigned(s) && ForeignExtra(s, t.extra)
    ensures QueryFor(s, t) == Valued(t.extra) + FieldPairs(s.fields, t.values)
  {
    WithExtraIs([], t.extra);
    ValuedKeys(t.extra);
    ForeignKeys(s, t.extra);
    DesignedKeysApart(s, 0);
    assert s.fields[0..] == s.fields;
    WithFieldsIs(Valued(t.extra), s.fields, t.values);
    assert [] + Valued(t.extra) == Valued(t.extra);
  }

  lemma {:induction false} FieldPairsGet(fields: seq<Field>, values: Values, f: Field)
    requires KeysApart(fields) && f in fields && f.slot.Query?
    ensures QueryValue(FieldPairs(fields, values), f.slot.key) == Value(values, f.name)
  {
    var g, rest, k := fields[0], FieldPairs(fields[1..], values), KeyText(f.slot.key);
    FieldPairsKeys(fields[1..], values);
    if f == g {
      GetFrom(rest, [], k);
    } else {
      assert f in fields[1..];
      FieldPairsGet(fields[1..], values, f);
      assert k in KnownKeys(fields[1..]);
      assert g.slot.Query? ==> KeyText(g.slot.key) != k;
      assert FieldPairs(fields, values) == rest || FieldPairs(fields, values)[1..] == rest;
    }
  }

  lemma {:induction false} FieldPairsKeys(fields: seq<Field>, values: Values)
    ensures Keys(FieldPairs(fields, values)) <= KnownKeys(fields)
  {
    if fields != [] {
      KnownKeysOf(fields);
      FieldPairsKeys(fields[1..], values);
    }
  }

  lemma QueryReads(s: Service, t: Target, f: Field, platform: Platform)
    requires IsWellDesigned(s) && ForeignExtra(s, t.extra) && f in s.fields && f.slot.Query?
    ensures QueryValue(Query.Parse(PartsFor(s, t).query, platform.repair), f.slot.key) == Value(t.values, f.name)
  {
    QueryIs(s, t);
    SerializeRoundTrip(QueryFor(s, t), platform.repair);
    DesignedKeysApart(s, 0);
    assert s.fields[0..] == s.fields;
    FieldPairsGet(s.fields, t.values, f);
    ValuedKeys(t.extra);
    ForeignKeys(s, t.extra);
    assert KeyText(f.slot.key) in KnownKeys(s.fields);
    GetFrom(Valued(t.extra), FieldPairs(s.fields, t.values), KeyText(f.slot.key));
  }

  lemma {:induction false} ExtraFromKnown(extra: Params, a: Params, b: Params, known: set<string>)
    requires Keys(b) <= known
    ensures ExtraFrom(extra, a + b, known) == ExtraFrom(extra, a, known)
    decreases |a|, |b|
  {
    if a != [] {
      assert (a + b)[0] == a[0] && (a + b)[1..] == a[1..] + b;
      ExtraFromKnown(if a[0].0 in known then extra else Put(extra, a[0].0, a[0].1), a[1..], b, known);
    } else if b != [] {
      assert a + b == b && [] + b[1..] == b[1..];
      KeysOfFirst(b);
      ExtraFromKnown(extra, [], b[1..], known);
    }
  }

  lemma {:induction false} PutNew(extra: Params, k: string, v: string)
    requires k !in Keys(extra)
    ensures Put(extra, k, v) == extra + [(k, v)]
  {
    if extra != [] {
      KeysOfFirst(extra);
      PutNew(extra[1..], k, v);
    }
  }

  lemma {:induction false} ExtraFromForeign(extra: Params, q: Params, known: set<string>)
    requires DistinctKeys(q) && Keys(q) !! known && Keys(extra) !! Keys(q)
    ensures ExtraFrom(extra, q, known) == extra + q
    decreases |q|
  {
    if q != [] {
      KeysOfFirst(q);
      PutNew(extra, q[0].0, q[0].1);
      KeysAfter(extra, q[0]);
      ExtraFromForeign(extra + [q[0]], q[1..], known);
      RegroupPairs(extra, q[0], q[1..]);
      assert q == [q[0]] + q[1..];
    }
  }

  lemma ExtraReads(s: Service, t: Target, platform: Platform)
    requires IsWellDesigned(s) && ForeignExtra(s, t.extra)
    ensures ExtraFrom([], Query.Parse(PartsFor(s, t).query, platform.repair), KnownKeys(s.fields)) == Valued(t.extra)
  {
    QueryIs(s, t);
    SerializeRoundTrip(QueryFor(s, t), platform.repair);
    FieldPairsKeys(s.fields, t.values);
    ExtraFromKnown([], Valued(t.extra), FieldPairs(s.fields, t.values), KnownKeys(s.fields));
    ValuedKeys(t.extra);
    ForeignKeys(s, t.extra);
    ExtraFromForeign([], Valued(t.extra), KnownKeys(s.fields));
  }

  // ---- Reading the path ----

  ghost predicate PathsAgree(f: Field, g: Field) {
    IsPath(f.slot) && IsPath(g.slot) && f.slot != g.slot && InOrder(f, g)
  }

  /** Of the path inputs, at most one is variadic, and only the last may be empty
      besides, if none is. */
  ghost predicate Shaped(paths: seq<Field>) {
    forall k, l :: 0 <= k < l < |paths| ==> PathsAgree(paths[k], paths[l])
  }

  lemma {:induction false} PathFieldsAreFields(fields: seq<Field>, f: Field)
    ensures f in PathFields(fields) <==> f in fields && IsPath(f.slot)
  {
    if fields != [] {
      PathFieldsAreFields(fields[1..], f);
      assert fields == [fields[0]] + fields[1..];
    }
  }

  lemma {:induction false} DesignedPaths(s: Service, i: nat)
    requires IsWellDesigned(s) && i <= |s.fields|
    ensures Shaped(PathFields(s.fields[i..]))
    decreases |s.fields| - i
  {
    if i < |s.fields| {
      DesignedPaths(s, i + 1);
      assert s.fields[i..][1..] == s.fields[i + 1..];
      var f, rest := s.fields[i], PathFields(s.fields[i + 1..]);
      if IsPath(f.slot) {
        forall l | 0 <= l < |rest| ensures PathsAgree(f, rest[l]) {
          PathFieldsAreFields(s.fields[i + 1..], rest[l]);
          var j :| i < j < |s.fields| && s.fields[j] == rest[l];
          FieldsCompatible(s, i, j);
        }
        assert PathFields(s.fields[i..]) == [f] + rest;
      }
    }
  }

  lemma {:induction false} SegmentsConcat(a: seq<Field>, b: seq<Field>, values: Values)
    ensures Segments(a + b, values) == Segments(a, values) + Segments(b, values)
  {
    if a == [] {
      assert a + b == b;
    } else {
      assert (a + b)[0] == a[0] && (a + b)[1..] == a[1..] + b;
      SegmentsConcat(a[1..], b, values);
    }
  }

  /** These inputs give one segment each. */
  ghost predicate AllFull(paths: seq<Field>, values: Values) {
    forall k :: 0 <= k < |paths| ==> paths[k].slot != Path && Value(values, paths[k].name) != ""
  }

  lemma {:induction false} FullSegments(paths: seq<Field>, values: Values)
    requires AllFull(paths, values)
    ensures |Segments(paths, values)| == |paths|
    ensures forall k :: 0 <= k < |paths| ==> Segments(paths, values)[k] == Value(values, paths[k].name)
  {
    if paths != [] {
      FullSegments(paths[1..], values);
      assert SegmentsOf(paths[0], values) == [Value(values, paths[0].name)];
    }
  }

  /** What reading gives back for a path input: the variadic one in its plain form. */
  function Plain(f: Field, values: Values): string {
    if f.slot == Path then Slashed(SegmentsOf(f, values)) else Value(values, f.name)
  }

  lemma LeadingAreFull(paths: seq<Field>, values: Values, v: nat)
    requires Shaped(paths) && v == Variadic(paths) < |paths|
    requires forall f :: f in paths && f.required ==> Value(values, f.name) != ""
    ensures AllFull(paths[..v], values) && AllFull(paths[v + 1..], values)
  {
    var leading, trailing := paths[..v], paths[v + 1..];
    forall j | 0 <= j < v ensures leading[j].slot != Path && Value(values, leading[j].name) != "" {
      assert PathsAgree(paths[j], paths[v]) && paths[j] in paths;
    }
    forall j | 0 <= j < |trailing| ensures trailing[j].slot != Path && Value(values, trailing[j].name) != "" {
      assert trailing[j] == paths[v + 1 + j] && PathsAgree(paths[v], paths[v + 1 + j]);
      assert paths[v + 1 + j] in paths;
    }
  }

  lemma VariadicSplits(paths: seq<Field>, values: Values, v: nat)
    requires v < |paths|
    ensures Segments(paths, values) ==
      Segments(paths[..v], values) + (SegmentsOf(paths[v], values) + Segments(paths[v + 1..], values))
  {
    var leading, trailing := paths[..v], paths[v + 1..];
    assert paths == leading + ([paths[v]] + trailing);
    SegmentsConcat(leading, [paths[v]] + trailing, values);
    assert ([paths[v]] + trailing)[1..] == trailing;
  }

  /** `all` is `a`, `b` and `c` put together. */
  ghost predicate InThree(a: seq<string>, b: seq<string>, c: seq<string>, all: seq<string>) {
    && |all| - |c| == |a| + |b| && Slice(all, |a|, |a| + |b|) == b
    && (forall k :: 0 <= k < |a| ==> At(all, k) == a[k])
    && (forall k :: 0 <= k < |c| ==> At(all, |a| + |b| + k) == c[k])
  }

  lemma PutInThree(a: seq<string>, b: seq<string>, c: seq<string>)
    ensures InThree(a, b, c, a + (b + c))
  {
    assert (a + (b + c))[|a|..|a| + |b|] == b;
  }

  lemma SegmentValueInThree(n: nat, k: nat, a: seq<string>, b: seq<string>, c: seq<string>, all: seq<string>)
    requires k < n && |c| == n - |a| - 1 && InThree(a, b, c, all)
    ensures SegmentValue(|a|, n, k, all) == if k < |a| then a[k] else if k == |a| then Slashed(b) else c[k - |a| - 1]
  {
  }

  lemma VariadicPathReads(paths: seq<Field>, values: Values, k: nat)
    requires Shaped(paths) && k < |paths| && Variadic(paths) < |paths|
    requires forall f :: f in paths && f.required ==> Value(values, f.name) != ""
    ensures PathValue(paths, k, Segments(paths, values)) == Plain(paths[k], values)
  {
    var v := Variadic(paths);
    var a, b, c := Segments(paths[..v], values), SegmentsOf(paths[v], values), Segments(paths[v + 1..], values);
    LeadingAreFull(paths, values, v);
    VariadicSplits(paths, values, v);
    FullSegments(paths[..v], values);
    FullSegments(paths[v + 1..], values);
    PutInThree(a, b, c);
    SegmentValueInThree(|paths|, k, a, b, c, Segments(paths, values));
    if k < v {
      assert paths[..v][k] == paths[k] && paths[..v][k].slot != Path;
    } else if k > v {
      assert paths[v + 1..][k - v - 1] == paths[k] && paths[v + 1..][k - v - 1].slot != Path;
    }
  }

  lemma FixedPathReads(paths: seq<Field>, values: Values, k: nat)
    requires Shaped(paths) && k < |paths| && Variadic(paths) == |paths|
    requires forall f :: f in paths && f.required ==> Value(values, f.name) != ""
    ensures PathValue(paths, k, Segments(paths, values)) == Plain(paths[k], values)
  {
    var n := |paths| - 1;
    var init, last := paths[..n], paths[n];
    assert paths == init + [last];
    SegmentsConcat(init, [last], values);
    forall j | 0 <= j < n ensures init[j].slot != Path && Value(values, init[j].name) != "" {
      assert PathsAgree(paths[j], paths[n]);
    }
    FullSegments(init, values);
    assert Segments([last], values) == SegmentsOf(last, values);
  }

  lemma PathReads(s: Service, t: Target, i: nat, platform: Platform)
    requires IsWellDesigned(s) && Complete(s, t.values) && i < |s.fields| && IsPath(s.fields[i].slot)
    ensures FieldValue(s, i, PartsFor(s, t), platform) == Plain(s.fields[i], t.values)
  {
    var paths := PathFields(s.fields);
    SegmentsNonEmpty(paths, t.values);
    PathIsPlain(Segments(paths, t.values));
    PathIndexBound(s.fields, i);
    DesignedPaths(s, 0);
    assert s.fields[0..] == s.fields;
    forall f | f in paths && f.required ensures Value(t.values, f.name) != "" {
      PathFieldsAreFields(s.fields, f);
    }
    var k := |PathFields(s.fields[..i])|;
    if Variadic(paths) < |paths| {
      VariadicPathReads(paths, t.values, k);
    } else {
      FixedPathReads(paths, t.values, k);
    }
  }

  // ---- The round trip ----

  /** Every input reads back as what was printed for it. */
  lemma FieldReads(s: Service, t: Target, i: nat, platform: Platform)
    requires IsWellDesigned(s) && Clean(s, t) && i < |s.fields|
    ensures FieldValue(s, i, PartsFor(s, t), platform) == Plain(s.fields[i], t.values)
  {
    var f := s.fields[i];
    if IsPath(f.slot) {
      PathReads(s, t, i, platform);
    } else if f.slot.Query? {
      QueryReads(s, t, f, platform);
    } else if f.slot == User {
      UserReads(s, t, f);
    } else if f.slot == Pass {
      PassReads(s, t, f);
    } else {
      HostReads(s, t, f);
    }
  }

  lemma {:induction false} ReadValuesAt(s: Service, n: nat, p: Parts, platform: Platform, i: nat)
    requires IsWellDesigned(s) && i < n <= |s.fields|
    ensures s.fields[i].name in ReadValues(s, n, p, platform)
    ensures ReadValues(s, n, p, platform)[s.fields[i].name] == FieldValue(s, i, p, platform)
  {
    if i < n - 1 {
      ReadValuesAt(s, n - 1, p, platform, i);
      FieldsCompatible(s, i, n - 1);
    }
  }

  /** Two sets of values that print alike, but perhaps for the variadic path. */
  ghost predicate SameValues(s: Service, values: Values, values': Values) {
    forall f :: f in s.fields && f.slot != Path ==> Value(values', f.name) == Value(values, f.name)
  }

  lemma SameSlots(s: Service, values: Values, values': Values, slot: Slot)
    requires SameValues(s, values, values') && slot != Path
    ensures SlotValue(s, values', slot) == SlotValue(s, values, slot)
  {
    FieldForSlot(s.fields, slot);
  }

  lemma SameCredentials(s: Service, values: Values, values': Values)
    requires IsWellDesigned(s) && SameValues(s, values, values')
    ensures Credentials(s, values') == Credentials(s, values)
  {
    SameSlots(s, values, values', User);
    SameSlots(s, values, values', Pass);
    PairFieldIs(s.fields);
    if PairField(s.fields).Some? {
      TheField(s, PairField(s.fields).value);
    }
  }

  lemma {:induction false} SameFieldPairs(fields: seq<Field>, values: Values, values': Values)
    requires forall f :: f in fields && f.slot != Path ==> Value(values', f.name) == Value(values, f.name)
    ensures FieldPairs(fields, values') == FieldPairs(fields, values)
  {
    if fields != [] {
      assert fields == [fields[0]] + fields[1..];
      assert fields[0] in fields;
      SameFieldPairs(fields[1..], values, values');
    }
  }

  lemma SameQuery(s: Service, t: Target, t': Target)
    requires IsWellDesigned(s) && SameValues(s, t.values, t'.values)
    requires ForeignExtra(s, t.extra) && t'.extra == Valued(t.extra)
    ensures QueryFor(s, t') == QueryFor(s, t)
  {
    QueryIs(s, t);
    ValuedKeys(t.extra);
    ValuedTwice(t.extra);
    forall p | p in t'.extra ensures p.0 !in KnownKeys(s.fields) {
      assert p.0 in Keys(t'.extra);
      ForeignKeys(s, t.extra);
    }
    QueryIs(s, t');
    SameFieldPairs(s.fields, t.values, t'.values);
  }

  /** The parts printed differ at most in the path. */
  lemma SameParts(s: Service, t: Target, t': Target)
    requires IsWellDesigned(s) && SameValues(s, t.values, t'.values)
    requires ForeignExtra(s, t.extra) && t'.extra == Valued(t.extra)
    ensures PartsFor(s, t') == PartsFor(s, t).(path := PartsFor(s, t').path)
  {
    SameCredentials(s, t.values, t'.values);
    SameSlots(s, t.values, t'.values, Host);
    SameSlots(s, t.values, t'.values, Port);
    SameQuery(s, t, t');
  }

  // ---- The variadic path ----

  /** The plain form of the variadic path is not changed by trimming it. */
  ghost predicate Tidy(s: Service, values: Values) {
    forall f :: f in s.fields && f.slot == Path ==> IsTrimmed(Plain(f, values))
  }

  function TotalLength(parts: seq<string>): nat {
    if parts == [] then 0 else 1 + |parts[0]| + TotalLength(parts[1..])
  }

  lemma {:induction false} SlashedLength(parts: seq<string>)
    ensures |Slashed(parts)| == TotalLength(parts)
  {
    if |parts| > 1 {
      SlashedLength(parts[1..]);
    }
  }

  lemma {:induction false} NonEmptyShorter(parts: seq<string>)
    ensures TotalLength(NonEmpty(parts)) <= TotalLength(parts)
  {
    if parts != [] {
      NonEmptyShorter(parts[1..]);
    }
  }

  lemma PlainNotLonger(x: string)
    requires x != "" && x[0] == '/'
    ensures |Slashed(NonEmpty(Split(x, '/')))| <= |x|
  {
    var parts := Split(x[1..], '/');
    assert Split(x, '/') == [""] + parts;
    JoinSplit(x[1..], '/');
    NonEmptyShorter(parts);
    SlashedLength(parts);
    SlashedLength(NonEmpty(parts));
  }

  lemma SegmentsOfAreParts(f: Field, values: Values)
    requires f.slot == Path
    ensures "" !in SegmentsOf(f, values) && forall p :: p in SegmentsOf(f, values) ==> '/' !in p
  {
  }

  /** Reading the plain form again gives the same segments exactly when it is tidy. */
  lemma PathRereads(f: Field, values: Values, values': Values)
    requires f.slot == Path && f.name in values' && values'[f.name] == Plain(f, values)
    ensures SegmentsOf(f, values') == SegmentsOf(f, values) <==> IsTrimmed(Plain(f, values))
  {
    var plain, parts := Plain(f, values), SegmentsOf(f, values);
    SegmentsOfAreParts(f, values);
    PartsOfSlashed(parts);
    TrimIsTrimmed(plain);
    if IsTrimmed(plain) {
      assert Trim(plain) == plain;
    } else {
      assert plain[0] == '/' && !IsSpace('/');
      assert TrimLeft(plain) == plain;
      var v := Trim(plain);
      assert v == plain[..|v|];
      if v != "" {
        PlainNotLonger(v);
      }
    }
  }

  lemma {:induction false} SameSegments(paths: seq<Field>, values: Values, values': Values)
    requires forall f :: f in paths ==> SegmentsOf(f, values') == SegmentsOf(f, values)
    ensures Segments(paths, values') == Segments(paths, values)
  {
    if paths != [] {
      assert paths == [paths[0]] + paths[1..];
      assert paths[0] in paths;
      SameSegments(paths[1..], values, values');
    }
  }

  lemma CancelAround(a: seq<string>, m: seq<string>, m': seq<string>, c: seq<string>)
    ensures a + (m' + c) == a + (m + c) <==> m' == m
  {
    if a + (m' + c) == a + (m + c) {
      assert |m'| == |m|;
      assert m' == (a + (m' + c))[|a|..|a| + |m'|];
      assert m == (a + (m + c))[|a|..|a| + |m|];
    }
  }

  lemma VariadicDecides(s: Service, paths: seq<Field>, values: Values, values': Values, v: nat)
    requires IsWellDesigned(s) && paths == PathFields(s.fields) && v < |paths| && paths[v].slot == Path
    requires forall f :: f in paths && f.slot != Path ==> SegmentsOf(f, values') == SegmentsOf(f, values)
    ensures Segments(paths, values') == Segments(paths, values) <==> SegmentsOf(paths[v], values') == SegmentsOf(paths[v], values)
  {
    VariadicSplits(paths, values, v);
    VariadicSplits(paths, values', v);
    OthersSame(s, paths, values, values', v);
    CancelAround(Segments(paths[..v], values), SegmentsOf(paths[v], values), SegmentsOf(paths[v], values'), Segments(paths[v + 1..], values));
  }

  lemma SegmentsReread(s: Service, values: Values, values': Values)
    requires IsWellDesigned(s) && SameValues(s, values, values')
    requires forall f :: f in s.fields ==> f.name in values' && values'[f.name] == Plain(f, values)
    ensures Segments(PathFields(s.fields), values') == Segments(PathFields(s.fields), values) <==> Tidy(s, values)
  {
    var paths := PathFields(s.fields);
    forall f | f in paths && f.slot != Path ensures SegmentsOf(f, values') == SegmentsOf(f, values) {
      PathFieldsAreFields(s.fields, f);
      assert Value(values', f.name) == Value(values, f.name);
    }
    var v := Variadic(paths);
    if v < |paths| {
      PathFieldsAreFields(s.fields, paths[v]);
      PathRereads(paths[v], values, values');
      OnlyVariadic(s, paths[v]);
      VariadicDecides(s, paths, values, values', v);
    } else {
      SameSegments(paths, values, values');
      forall f | f in s.fields && f.slot == Path ensures false {
        PathFieldsAreFields(s.fields, f);
      }
    }
  }

  lemma OnlyVariadic(s: Service, f: Field)
    requires IsWellDesigned(s) && f in s.fields && f.slot == Path
    ensures forall g :: g in s.fields && g.slot == Path ==> g == f
  {
    forall g | g in s.fields && g.slot == Path ensures g == f {
      TheField(s, f);
      TheField(s, g);
    }
  }

  lemma OthersSame(s: Service, paths: seq<Field>, values: Values, values': Values, v: nat)
    requires IsWellDesigned(s) && paths == PathFields(s.fields) && v < |paths| && paths[v].slot == Path
    requires forall f :: f in paths && f.slot != Path ==> SegmentsOf(f, values') == SegmentsOf(f, values)
    ensures Segments(paths[..v], values') == Segments(paths[..v], values)
    ensures Segments(paths[v + 1..], values') == Segments(paths[v + 1..], values)
  {
    DesignedPaths(s, 0);
    assert s.fields[0..] == s.fields;
    forall f | f in paths[..v] ensures SegmentsOf(f, values') == SegmentsOf(f, values) {
      var k :| 0 <= k < v && paths[k] == f;
      assert PathsAgree(paths[k], paths[v]);
    }
    forall f | f in paths[v + 1..] ensures SegmentsOf(f, values') == SegmentsOf(f, values) {
      var k :| v < k < |paths| && paths[k] == f;
      assert PathsAgree(paths[v], paths[k]);
    }
    SameSegments(paths[..v], values, values');
    SameSegments(paths[v + 1..], values, values');
  }

  // ---- The main results ----

  lemma CancelPath(a: string, path: string, path': string, c: string)
    ensures a + path' + c == a + path + c <==> path' == path
  {
    if a + path' + c == a + path + c {
      assert |path'| == |path|;
      assert path' == (a + path' + c)[|a|..|a| + |path'|];
      assert path == (a + path + c)[|a|..|a| + |path|];
    }
  }

  /** Parts that differ in the path alone are alike in canonical form exactly if the
      paths have the same segments. */
  lemma CanonicalByPath(p: Parts, segments: seq<string>, segments': seq<string>, platform: Platform)
    requires "" !in segments && "" !in segments' && p.path == Slashed(EncodeEach(segments))
    ensures
      var p' := p.(path := Slashed(EncodeEach(segments')));
      CanonicalParts(p', platform) == CanonicalParts(p, platform) <==> segments' == segments
  {
    var p' := p.(path := Slashed(EncodeEach(segments')));
    PathIsPlain(segments);
    PathIsPlain(segments');
    var auth := if p.user != "" || p.pass != "" then Reencode(p.user) + ":" + Reencode(p.pass) + "@" else "";
    var qs := Join(PairsText(platform.sort(Query.Parse(p.query, platform.repair))), '&');
    CancelPath(Lower(p.scheme) + "://" + auth + p.hostPort, p.path, p'.path, if qs == "" then "" else "?" + qs);
  }

  /** Everything the form shows comes back: each input's value, trimmed, the variadic
      path in its plain form, and the extra parameters that have a value. */
  ghost predicate ReadBack(s: Service, t: Target, t': Target) {
    && t'.scheme == s.scheme && t'.extra == Valued(t.extra)
    && forall f :: f in s.fields ==> f.name in t'.values && t'.values[f.name] == Plain(f, t.values)
  }

  lemma PrintedIsRead(s: Service, t: Target, platform: Platform)
    requires IsWellDesigned(s) && Clean(s, t)
    ensures ReadBack(s, t, TargetOf(s, PartsFor(s, t), BuildFor(s, t), platform))
  {
    var p := PartsFor(s, t);
    ExtraReads(s, t, platform);
    forall f | f in s.fields
      ensures f.name in ReadValues(s, |s.fields|, p, platform) && ReadValues(s, |s.fields|, p, platform)[f.name] == Plain(f, t.values)
    {
      var i :| 0 <= i < |s.fields| && s.fields[i] == f;
      ReadValuesAt(s, |s.fields|, p, platform, i);
      FieldReads(s, t, i, platform);
    }
  }

  lemma ReadBackIsSame(s: Service, t: Target, t': Target)
    requires ReadBack(s, t, t')
    ensures SameValues(s, t.values, t'.values)
  {
    forall f | f in s.fields && f.slot != Path ensures Value(t'.values, f.name) == Value(t.values, f.name) {
      ValueIsTrimmed(t.values, f.name);
      TrimIsTrimmed(Value(t.values, f.name));
    }
  }

  /** What was read back prints the same URL, up to canonical form, exactly when the
      variadic path is tidy; and then it prints the very same URL. */
  lemma Reprinted(s: Service, t: Target, t': Target, platform: Platform)
    requires IsWellDesigned(s) && Clean(s, t) && ReadBack(s, t, t')
    ensures Canonical(BuildFor(s, t'), platform) == Canonical(BuildFor(s, t), platform) <==> Tidy(s, t.values)
    ensures Tidy(s, t.values) ==> BuildFor(s, t') == BuildFor(s, t)
  {
    var paths := PathFields(s.fields);
    ReadBackIsSame(s, t, t');
    SameParts(s, t, t');
    SameCredentials(s, t.values, t'.values);
    SameSlots(s, t.values, t'.values, Host);
    SameSlots(s, t.values, t'.values, Port);
    HostIsGiven(s, t.values);
    PrintedIsTrimmed(s, t);
    PrintedIsTrimmed(s, t');
    PrintedIsCut(s, t);
    PrintedIsCut(s, t');
    SegmentsNonEmpty(paths, t.values);
    SegmentsNonEmpty(paths, t'.values);
    CanonicalByPath(PartsFor(s, t), Segments(paths, t.values), Segments(paths, t'.values), platform);
    SegmentsReread(s, t.values, t'.values);
  }

  lemma BuildsFor(s: Service, t: Target)
    requires IsWellDesigned(s) && t.scheme == s.scheme && ServiceFor(s.scheme) == Some(s)
    ensures BuildURL(t) == BuildFor(s, t)
  {
    NoCustomService(s);
  }

  lemma ParsesFor(s: Service, p: Parts, raw: string, platform: Platform)
    requires IsWellDesigned(s) && Trim(raw) == raw && Cut(raw) == Some(p)
    requires Lower(p.scheme) == s.scheme && ServiceFor(s.scheme) == Some(s)
    ensures
      var t := TargetOf(s, p, raw, platform);
      ParseURL(raw, platform) == if Canonical(BuildFor(s, t), platform) != Canonical(raw, platform) then Custom(raw) else t
  {
    BuildsFor(s, TargetOf(s, p, raw, platform));
  }

  /** The form round trip. A complete target with a delimiter-free host and port, a
      whole colon pair and foreign extra parameters never falls back to raw text
      unless the last part of its variadic path ends in white space; then it always
      does. Otherwise everything is read back and prints the same URL again. */
  lemma RoundTrip(s: Service, t: Target, platform: Platform)
    requires s in TABLE && t.scheme == s.scheme && Clean(s, t)
    ensures
      var back := ParseURL(BuildURL(t), platform);
      if Tidy(s, t.values) then ReadBack(s, t, back) && BuildURL(back) == BuildURL(t)
      else back == Custom(BuildURL(t))
  {
    TableIsWellDesigned(s);
    var i :| 0 <= i < |TABLE| && TABLE[i] == s;
    ServiceForItsScheme(i);
    LowerCaseIsScheme(s.scheme);
    HostIsGiven(s, t.values);
    PrintedIsTrimmed(s, t);
    PrintedIsCut(s, t);
    var p, raw := PartsFor(s, t), BuildFor(s, t);
    var back := TargetOf(s, p, raw, platform);
    BuildsFor(s, t);
    ParsesFor(s, p, raw, platform);
    PrintedIsRead(s, t, platform);
    Reprinted(s, t, back, platform);
    BuildsFor(s, back);
  }

  lemma NoCustomService(s: Service)
    requires IsWellDesigned(s)
    ensures s.scheme != CUSTOM_SCHEME
  {
    assert 'a' <= s.scheme[0] <= 'z' && CUSTOM_SCHEME[0] == '_';
  }

  // ---- Three families of targets ----

  /** A Pushbullet target with a plain token. */
  predicate IsPushbullet(s: Service, t: Target, token: string, targets: string) {
    && s == PUSHBULLET && t.scheme == s.scheme && t.values == map[Token := token, Targets := targets] && t.extra == []
    && token != "" && IsTrimmed(token) && InAuthority(token) && '@' !in token
  }

  lemma PushbulletIsClean(s: Service, t: Target, token: string, targets: string)
    requires IsPushbullet(s, t, token, targets)
    ensures s in TABLE && Clean(s, t)
  {
    TrimIsTrimmed(token);
    assert s.fields[0] == Need(Token, Host) && s.fields[1] == In(Targets, Path);
    assert FieldFor(s.fields, Host) == Some(s.fields[0]);
    assert FieldFor(s.fields, Port) == None;
    assert TABLE[15] == s;
  }

  lemma PushbulletPath(s: Service, t: Target, token: string, targets: string)
    requires IsPushbullet(s, t, token, targets)
    ensures Tidy(s, t.values) <==> IsTrimmed(Plain(In(Targets, Path), t.values))
    ensures Value(t.values, Targets) == Trim(targets)
  {
    var f := In(Targets, Path);
    assert s.fields[1] == f;
    forall g | g in s.fields && g.slot == Path ensures g == f {
    }
  }

  lemma OnePart(part: string)
    requires part != "" && '/' !in part
    ensures NonEmpty(Split(part, '/')) == [part] && Slashed([part]) == "/" + part
  {
    IndexOfNone(part, '/');
    assert NonEmpty([part]) == [part];
  }

  lemma PartBeforeSlash(part: string, v: string)
    requires part != "" && '/' !in part && v == part + ['/']
    ensures NonEmpty(Split(v, '/')) == [part]
  {
    assert part + ['/'] + "" == v;
    CutAt(part, '/', "");
    IndexOfNone("", '/');
    assert Split(v, '/') == [part, ""] && [part, ""][1..] == [""];
    assert NonEmpty([""]) == [];
  }

  lemma SlashedTrim(part: string)
    requires part != ""
    ensures IsTrimmed("/" + part) <==> !IsSpace(part[|part| - 1])
  {
    assert ("/" + part)[0] == '/' && !IsSpace('/');
  }

  lemma SpaceBeforeSlashIsTrimmed(part: string, v: string)
    requires part != "" && !IsSpace(part[0]) && v == part + ['/']
    ensures IsTrimmed(v) && Trim(v) == v
  {
    assert v[0] == part[0] && v[|v| - 1] == '/' && !IsSpace('/');
    TrimIsTrimmed(v);
  }

  /** A path of one part that is trimmed reads back. */
  lemma ATidyPathReads(s: Service, t: Target, token: string, part: string, platform: Platform)
    requires IsPushbullet(s, t, token, part) && part != "" && '/' !in part && IsTrimmed(part)
    ensures ReadBack(s, t, ParseURL(BuildURL(t), platform))
  {
    PushbulletIsClean(s, t, token, part);
    PushbulletPath(s, t, token, part);
    TrimIsTrimmed(part);
    OnePart(part);
    SlashedTrim(part);
    RoundTrip(s, t, platform);
  }

  /** A path whose last part ends in space, as in "a /", is built, and then not recognized. */
  lemma AnUntidyPathFallsBack(s: Service, t: Target, token: string, part: string, v: string, platform: Platform)
    requires part != "" && '/' !in part && !IsSpace(part[0]) && IsSpace(part[|part| - 1])
    requires v == part + ['/'] && IsPushbullet(s, t, token, v)
    ensures ParseURL(BuildURL(t), platform) == Custom(BuildURL(t))
  {
    PushbulletIsClean(s, t, token, v);
    PushbulletPath(s, t, token, v);
    SpaceBeforeSlashIsTrimmed(part, v);
    PartBeforeSlash(part, v);
    OnePart(part);
    SlashedTrim(part);
    RoundTrip(s, t, platform);
  }

  lemma ColonIsLast(part: string, v: string)
    requires part != "" && ':' !in part && !IsSpace(part[0]) && v == part + [':']
    ensures IndexOf(v, ':') == |v| - 1 && Trim(v) == v
  {
    assert part + [':'] + "" == v;
    CutAt(part, ':', "");
    assert v[0] == part[0] && v[|v| - 1] == ':' && !IsSpace(':');
    TrimIsTrimmed(v);
  }

  /** A token that ends in its only colon comes back without it. */
  lemma ABrokenPair(s: Service, t: Target, f: Field, part: string, v: string)
    requires IsWellDesigned(s) && f in s.fields && f.colonPair
    requires part != "" && ':' !in part && !IsSpace(part[0]) && v == part + [':']
    requires f.name in t.values && t.values[f.name] == v
    ensures AuthorityValue(s, f, PartsFor(s, t)) != v
  {
    ColonIsLast(part, v);
    PairReadsBackIfWhole(s, t, f);
  }
}
