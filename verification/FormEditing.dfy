/** web/src/lib/shoutrrr.ts, buildURL and parseURL, the way they run: lists and values
    filled in by loops. */
module FormEditing {
  import opened Wrappers
  import opened Strings
  import opened Percent
  import opened Query
  import opened UrlText
  import opened Services
  import opened TargetForm
  import opened FormRoundTrip

  lemma {:induction false} EncodeEachConcat(a: seq<string>, b: seq<string>)
    ensures EncodeEach(a + b) == EncodeEach(a) + EncodeEach(b)
  {
    if a == [] {
      assert a + b == b;
    } else {
      assert (a + b)[0] == a[0] && (a + b)[1..] == a[1..] + b;
      EncodeEachConcat(a[1..], b);
    }
  }

  lemma {:induction false} NonEmptyNext(parts: seq<string>, part: string)
    ensures NonEmpty(parts + [part]) == if part == "" then NonEmpty(parts) else NonEmpty(parts) + [part]
  {
    if parts != [] {
      assert (parts + [part])[0] == parts[0] && (parts + [part])[1..] == parts[1..] + [part];
      NonEmptyNext(parts[1..], part);
    }
  }

  lemma NextPart(parts: seq<string>, part: string)
    ensures EncodeEach(NonEmpty(parts + [part])) == if part == "" then EncodeEach(NonEmpty(parts)) else EncodeEach(NonEmpty(parts)) + [Encode(part)]
  {
    NonEmptyNext(parts, part);
    if part != "" {
      EncodeEachConcat(NonEmpty(parts), [part]);
      assert EncodeEach([part]) == [Encode(part)];
    }
  }

  method AddParts(segments: seq<string>, parts: seq<string>) returns (r: seq<string>)
    ensures r == segments + EncodeEach(NonEmpty(parts))
  {
    r := segments;
    for i := 0 to |parts|
      invariant r == segments + EncodeEach(NonEmpty(parts[..i]))
    {
      assert parts[..i+1] == parts[..i] + [parts[i]];
      NextPart(parts[..i], parts[i]);
      if parts[i] != "" {
        r := r + [Encode(parts[i])];
      }
    }
    assert parts[..|parts|] == parts;
  }

  /** The encoded segments of one path input, added to those before. */
  method AddSegments(segments: seq<string>, f: Field, values: Values) returns (r: seq<string>)
    ensures r == segments + EncodeEach(SegmentsOf(f, values))
  {
    r := segments;
    var v := Value(values, f.name);
    if v == "" {
      return;
    }
    if f.slot == Path {
      r := AddParts(segments, Split(v, '/'));
    } else {
      assert EncodeEach([v]) == [Encode(v)];
      r := r + [Encode(v)];
    }
  }

  lemma OneMorePath(paths: seq<Field>, i: nat, values: Values)
    requires i < |paths|
    ensures EncodeEach(Segments(paths[..i+1], values)) ==
            EncodeEach(Segments(paths[..i], values)) + EncodeEach(SegmentsOf(paths[i], values))
  {
    assert paths[..i+1] == paths[..i] + [paths[i]];
    SegmentsConcat(paths[..i], [paths[i]], values);
    assert Segments([paths[i]], values) == SegmentsOf(paths[i], values);
    EncodeEachConcat(Segments(paths[..i], values), SegmentsOf(paths[i], values));
  }

  method BuildSegments(fields: seq<Field>, values: Values) returns (segments: seq<string>)
    ensures segments == EncodeEach(Segments(PathFields(fields), values))
  {
    segments := [];
    var paths := PathFields(fields);
    for i := 0 to |paths|
      invariant segments == EncodeEach(Segments(paths[..i], values))
    {
      OneMorePath(paths, i, values);
      segments := AddSegments(segments, paths[i], values);
    }
    assert paths[..|paths|] == paths;
  }

  method BuildQuery(s: Service, t: Target) returns (q: Params)
    ensures q == QueryFor(s, t)
  {
    q := [];
    for i := 0 to |t.extra|
      invariant WithExtra(q, t.extra[i..]) == WithExtra([], t.extra)
    {
      assert t.extra[i..][1..] == t.extra[i + 1..];
      var (k, v) := t.extra[i];
      if v != "" {
        q := Set(q, k, v);
      }
    }
    assert t.extra[|t.extra|..] == [];
    ghost var q0 := q;
    for i := 0 to |s.fields|
      invariant WithFields(q, s.fields[i..], t.values) == WithFields(q0, s.fields, t.values)
    {
      assert s.fields[i..][1..] == s.fields[i + 1..];
      var f := s.fields[i];
      if f.slot.Query? {
        var v := Value(t.values, f.name);
        q := if v != "" then Set(q, KeyText(f.slot.key), v) else Delete(q, KeyText(f.slot.key));
      }
    }
  }

  method BuildAuthority(s: Service, t: Target) returns (authority: string)
    ensures authority == Authority(PartsFor(s, t), InfoOf(Credentials(s, t.values)))
  {
    var (user, pass) := Credentials(s, t.values);
    authority := HostPort(SlotValue(s, t.values, Host), SlotValue(s, t.values, Port));
    if user != "" || pass != "" {
      var userinfo := Encode(user);
      if pass != "" {
        userinfo := userinfo + [':'] + Encode(pass);
      }
      authority := userinfo + ['@'] + authority;
    }
  }

  /** buildURL. */
  method Build(t: Target) returns (url: string)
    ensures url == BuildURL(t)
  {
    if t.scheme == CUSTOM_SCHEME {
      return Trim(t.raw);
    }
    var service := ServiceFor(t.scheme);
    if service.None? {
      return Trim(t.raw);
    }
    var s := service.value;
    var authority := BuildAuthority(s, t);
    var segments := BuildSegments(s.fields, t.values);
    var q := BuildQuery(s, t);
    var qs := Serialize(q);
    var path := Slashed(segments);
    if qs != "" {
      path := path + ['?'] + qs;
    }
    url := s.scheme + "://" + (authority + path);
  }

  ghost predicate HasInput(s: Service, name: Input, n: nat) {
    exists i :: 0 <= i < n <= |s.fields| && s.fields[i].name == name
  }

  /** The values are those read, for the inputs before `n` that are not path inputs. */
  ghost predicate PlainRead(s: Service, p: Parts, platform: Platform, values: Values, n: nat)
    requires n <= |s.fields|
  {
    && (forall name :: name in values ==> HasInput(s, name, n))
    && forall i :: 0 <= i < n && !IsPath(s.fields[i].slot) ==>
         s.fields[i].name in values && values[s.fields[i].name] == FieldValue(s, i, p, platform)
  }

  lemma OneMoreRead(s: Service, p: Parts, platform: Platform, values: Values, values': Values, i: nat)
    requires IsWellDesigned(s) && i < |s.fields| && PlainRead(s, p, platform, values, i)
    requires values' == if IsPath(s.fields[i].slot) then values else values[s.fields[i].name := FieldValue(s, i, p, platform)]
    ensures PlainRead(s, p, platform, values', i + 1)
  {
    assert HasInput(s, s.fields[i].name, i + 1);
    assert forall name :: HasInput(s, name, i) ==> HasInput(s, name, i + 1);
    forall j | 0 <= j < i ensures s.fields[j].name != s.fields[i].name {
      FieldsCompatible(s, j, i);
    }
  }

  /** The values a URL gives to the inputs before the path and in the query. */
  method ReadPlain(s: Service, p: Parts, platform: Platform) returns (values: Values)
    requires IsWellDesigned(s)
    ensures PlainRead(s, p, platform, values, |s.fields|)
  {
    values := map[];
    var params := Query.Parse(p.query, platform.repair);
    for i := 0 to |s.fields|
      invariant PlainRead(s, p, platform, values, i)
    {
      var f := s.fields[i];
      ghost var before := values;
      if f.slot.Query? {
        values := values[f.name := QueryValue(params, f.slot.key)];
      } else if !IsPath(f.slot) {
        values := values[f.name := AuthorityValue(s, f, p)];
      }
      OneMoreRead(s, p, platform, before, values, i);
    }
  }

  /** All inputs have been read but for path inputs from the `i`-th on. */
  ghost predicate PathsRead(s: Service, p: Parts, platform: Platform, values: Values, i: nat) {
    && (forall name :: name in values ==> HasInput(s, name, |s.fields|))
    && (forall j :: 0 <= j < |s.fields| && (j < i || !IsPath(s.fields[j].slot)) ==>
          s.fields[j].name in values && values[s.fields[j].name] == FieldValue(s, j, p, platform))
  }

  lemma OneMoreField(fields: seq<Field>, i: nat)
    requires i < |fields|
    ensures |PathFields(fields[..i+1])| == |PathFields(fields[..i])| + if IsPath(fields[i].slot) then 1 else 0
  {
    assert fields[..i+1] == fields[..i] + [fields[i]];
    PathFieldsConcat(fields[..i], [fields[i]]);
    assert PathFields([fields[i]]) == if IsPath(fields[i].slot) then [fields[i]] else [];
  }

  lemma OneMorePathRead(s: Service, p: Parts, platform: Platform, before: Values, after: Values, i: nat)
    requires IsWellDesigned(s) && i < |s.fields| && PathsRead(s, p, platform, before, i)
    requires after == if IsPath(s.fields[i].slot) then before[s.fields[i].name := FieldValue(s, i, p, platform)] else before
    ensures PathsRead(s, p, platform, after, i + 1)
  {
    forall j | 0 <= j < |s.fields| && j != i ensures s.fields[j].name != s.fields[i].name {
      if j < i {
        FieldsCompatible(s, j, i);
      } else {
        FieldsCompatible(s, i, j);
      }
    }
    assert HasInput(s, s.fields[i].name, |s.fields|);
  }

  /** The values of the path inputs, on top of the others. */
  method ReadPaths(s: Service, p: Parts, platform: Platform, plain: Values) returns (values: Values)
    requires IsWellDesigned(s)
    requires PlainRead(s, p, platform, plain, |s.fields|)
    ensures values == ReadValues(s, |s.fields|, p, platform)
  {
    values := plain;
    var segments := SegmentsIn(p.path);
    var paths := PathFields(s.fields);
    var k := 0;
    for i := 0 to |s.fields|
      invariant k == |PathFields(s.fields[..i])|
      invariant PathsRead(s, p, platform, values, i)
    {
      ghost var before := values;
      OneMoreField(s.fields, i);
      if IsPath(s.fields[i].slot) {
        PathIndexBound(s.fields, i);
        values := values[s.fields[i].name := PathValue(paths, k, segments)];
        k := k + 1;
      }
      OneMorePathRead(s, p, platform, before, values, i);
    }
    SameAsRead(s, p, platform, values);
  }

  lemma {:induction false} ReadValuesKeys(s: Service, n: nat, p: Parts, platform: Platform, name: Input)
    requires n <= |s.fields|
    ensures name in ReadValues(s, n, p, platform) ==> exists i :: 0 <= i < n && s.fields[i].name == name
  {
    if n > 0 {
      ReadValuesKeys(s, n - 1, p, platform, name);
    }
  }

  lemma SameAsRead(s: Service, p: Parts, platform: Platform, values: Values)
    requires IsWellDesigned(s)
    requires forall name :: name in values ==> HasInput(s, name, |s.fields|)
    requires forall i :: 0 <= i < |s.fields| ==>
      s.fields[i].name in values && values[s.fields[i].name] == FieldValue(s, i, p, platform)
    ensures values == ReadValues(s, |s.fields|, p, platform)
  {
    var read := ReadValues(s, |s.fields|, p, platform);
    forall n ensures n in values <==> n in read
      ensures n in values && n in read ==> values[n] == read[n]
    {
      ReadValuesKeys(s, |s.fields|, p, platform, n);
      if n in values || n in read {
        var i :| 0 <= i < |s.fields| && s.fields[i].name == n;
        ReadValuesAt(s, |s.fields|, p, platform, i);
      }
    }
  }

  method ReadExtra(q: Params, known: set<string>) returns (extra: Params)
    ensures extra == ExtraFrom([], q, known)
  {
    extra := [];
    for i := 0 to |q|
      invariant ExtraFrom(extra, q[i..], known) == ExtraFrom([], q, known)
    {
      assert q[i..][1..] == q[i + 1..];
      var (k, v) := q[i];
      if k !in known {
        extra := Put(extra, k, v);
      }
    }
  }

  lemma FoundIsListed(table: seq<Service>, scheme: string)
    ensures Find(table, scheme).Some? ==> Find(table, scheme).value in table
  {
  }

  /** parseURL. */
  method Parse(url: string, platform: Platform) returns (t: Target)
    ensures t == ParseURL(url, platform)
  {
    var raw := Trim(url);
    var cut := Cut(raw);
    if cut.None? {
      return Custom(raw);
    }
    var p := cut.value;
    var service := ServiceFor(Lower(p.scheme));
    if service.None? {
      return Custom(raw);
    }
    var s := service.value;
    FoundIsListed(TABLE, Lower(p.scheme));
    TableIsWellDesigned(s);
    var plain := ReadPlain(s, p, platform);
    var values := ReadPaths(s, p, platform, plain);
    var extra := ReadExtra(Query.Parse(p.query, platform.repair), KnownKeys(s.fields));
    t := Target(s.scheme, values, extra, raw);
    var again := Build(t);
    if Canonical(again, platform) != Canonical(raw, platform) {
      t := Custom(raw);
    }
  }
}
