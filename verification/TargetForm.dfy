/** web/src/lib/shoutrrr.ts, buildURL, parseURL and canonical: printing the form of a
    notification target as a URL, and reading one back. */
module TargetForm {
  import opened Wrappers
  import opened Strings
  import opened Percent
  import opened Query
  import opened UrlText
  import opened Services

  const CUSTOM_SCHEME := "__custom"

  type Values = map<Input, string>

  /** `extra` are the query parameters no input covers, in the order they are kept;
      `raw` the text of a target that is not shown as a form. */
  datatype Target = Target(scheme: string, values: Values, extra: Params, raw: string)

  /** What the platform does in its own way: decoding bytes that are not UTF-8, and
      ordering strings for the locale. */
  datatype Platform = Platform(repair: Repair, sort: Params -> Params)

  // ---- Building ----

  function Value(values: Values, name: Input): string {
    if name in values then Trim(values[name]) else ""
  }

  function FieldFor(fields: seq<Field>, slot: Slot): Option<Field> {
    if fields == [] then None
    else if fields[0].slot == slot then Some(fields[0])
    else FieldFor(fields[1..], slot)
  }

  function SlotValue(s: Service, values: Values, slot: Slot): string {
    if slot == User && s.user.Some? then s.user.value
    else if slot == Host && s.host.Some? then s.host.value
    else match FieldFor(s.fields, slot)
      case Some(f) => Value(values, f.name)
      case None => ""
  }

  function PairField(fields: seq<Field>): Option<Field> {
    if fields == [] then None
    else if fields[0].colonPair then Some(fields[0])
    else PairField(fields[1..])
  }

  /** The user and password a URL is to carry. */
  function Credentials(s: Service, values: Values): (string, string) {
    match PairField(s.fields)
    case Some(f) =>
      if f.slot == User then
        var v := Value(values, f.name);
        var colon := IndexOf(v, ':');
        (v[..colon], if colon < |v| then v[colon + 1..] else "")
      else (SlotValue(s, values, User), SlotValue(s, values, Pass))
    case None => (SlotValue(s, values, User), SlotValue(s, values, Pass))
  }

  function InfoOf(credentials: (string, string)): Userinfo {
    var (user, pass) := credentials;
    if user == "" && pass == "" then None
    else Some((Encode(user), if pass == "" then None else Some(Encode(pass))))
  }

  function HostPort(host: string, port: string): string {
    if port == "" then host else host + ":" + port
  }

  function PathFields(fields: seq<Field>): seq<Field> {
    if fields == [] then []
    else if IsPath(fields[0].slot) then [fields[0]] + PathFields(fields[1..])
    else PathFields(fields[1..])
  }

  /** The segments one path input gives, before encoding. */
  function SegmentsOf(f: Field, values: Values): seq<string> {
    var v := Value(values, f.name);
    if v == "" then [] else if f.slot == Path then NonEmpty(Split(v, '/')) else [v]
  }

  function Segments(paths: seq<Field>, values: Values): seq<string> {
    if paths == [] then [] else SegmentsOf(paths[0], values) + Segments(paths[1..], values)
  }

  function EncodeEach(segments: seq<string>): (r: seq<string>)
    ensures |r| == |segments| && forall i :: 0 <= i < |r| ==> r[i] == Encode(segments[i])
  {
    if segments == [] then [] else [Encode(segments[0])] + EncodeEach(segments[1..])
  }

  function WithExtra(q: Params, extra: Params): Params
    decreases |extra|
  {
    if extra == [] then q
    else WithExtra(if extra[0].1 == "" then q else Set(q, extra[0].0, extra[0].1), extra[1..])
  }

  function WithFields(q: Params, fields: seq<Field>, values: Values): Params
    decreases |fields|
  {
    if fields == [] then q
    else
      var f := fields[0];
      var q' :=
        if !f.slot.Query? then q
        else
          var v := Value(values, f.name);
          if v == "" then Delete(q, KeyText(f.slot.key)) else Set(q, KeyText(f.slot.key), v);
      WithFields(q', fields[1..], values)
  }

  function QueryFor(s: Service, t: Target): Params {
    WithFields(WithExtra([], t.extra), s.fields, t.values)
  }

  /** The parts of the URL, already encoded. */
  function PartsFor(s: Service, t: Target): Parts {
    var info := InfoOf(Credentials(s, t.values));
    Parts(
      s.scheme,
      if info.Some? then info.value.0 else "",
      if info.Some? && info.value.1.Some? then info.value.1.value else "",
      HostPort(SlotValue(s, t.values, Host), SlotValue(s, t.values, Port)),
      Slashed(EncodeEach(Segments(PathFields(s.fields), t.values))),
      Serialize(QueryFor(s, t)))
  }

  function BuildFor(s: Service, t: Target): string {
    var p := PartsFor(s, t);
    p.scheme + "://" + (Authority(p, InfoOf(Credentials(s, t.values))) + Tail(p, p.query != ""))
  }

  function BuildURL(t: Target): string {
    if t.scheme == CUSTOM_SCHEME then Trim(t.raw)
    else match ServiceFor(t.scheme)
      case Some(s) => BuildFor(s, t)
      case None => Trim(t.raw)
  }

  // ---- Reading ----

  function LastIndexOf(s: string, c: char): (r: Option<nat>)
    ensures r.Some? ==> r.value < |s| && s[r.value] == c && c !in s[r.value + 1..]
    ensures r.None? ==> c !in s
  {
    if s == "" then None
    else if s[|s| - 1] == c then Some(|s| - 1)
    else LastIndexOf(s[..|s| - 1], c)
  }

  /** Host and port; a service that asks for no port keeps both in the host. */
  function SplitPort(s: Service, hostPort: string): (string, string) {
    if FieldFor(s.fields, Port).None? then (hostPort, "")
    else match LastIndexOf(hostPort, ':')
      case Some(colon) => (hostPort[..colon], hostPort[colon + 1..])
      case None => (hostPort, "")
  }

  function DecodeEach(segments: seq<string>): seq<string> {
    if segments == [] then [] else [DecodeOrRaw(segments[0])] + DecodeEach(segments[1..])
  }

  function SegmentsIn(path: string): seq<string> {
    DecodeEach(NonEmpty(Split(path, '/')))
  }

  /** Where the variadic path input is, or the number of path inputs. */
  function Variadic(paths: seq<Field>): (v: nat)
    ensures v <= |paths| && (forall k :: 0 <= k < v ==> paths[k].slot != Path) && (v < |paths| ==> paths[v].slot == Path)
  {
    if paths == [] || paths[0].slot == Path then 0 else Variadic(paths[1..]) + 1
  }

  function At(segments: seq<string>, i: int): string {
    if 0 <= i < |segments| then segments[i] else ""
  }

  /** Array.prototype.slice; a negative end counts from the back. */
  function Slice(segments: seq<string>, from: nat, end: int): seq<string> {
    var n := |segments|;
    var start := if from < n then from else n;
    var stop := if end >= n then n else if end >= 0 then end else if n + end > 0 then n + end else 0;
    if start < stop then segments[start..stop] else []
  }

  /** The `k`-th path input: those before the variadic one count segments from the
      front, those after it from the back, and it takes the rest. */
  function PathValue(paths: seq<Field>, k: nat, segments: seq<string>): string
    requires k < |paths|
  {
    SegmentValue(Variadic(paths), |paths|, k, segments)
  }

  /** The same for `n` path inputs of which the one at `v` is variadic. */
  function SegmentValue(v: nat, n: nat, k: nat, segments: seq<string>): string
    requires v <= n && k < n
  {
    if k < v then At(segments, k)
    else
      var trailing := n - v - 1;
      if k == v then Slashed(Slice(segments, v, |segments| - trailing))
      else At(segments, |segments| - trailing + (k - v - 1))
  }

  /** The value of an input whose place is before the path. */
  function AuthorityValue(s: Service, f: Field, p: Parts): string {
    match f.slot
    case User =>
      if f.colonPair && p.pass != "" then DecodeOrRaw(p.user) + ":" + DecodeOrRaw(p.pass) else DecodeOrRaw(p.user)
    case Pass => DecodeOrRaw(p.pass)
    case Host => SplitPort(s, p.hostPort).0
    case Port => SplitPort(s, p.hostPort).1
    case _ => ""
  }

  function QueryValue(q: Params, key: Input): string {
    match Get(q, KeyText(key))
    case Some(v) => v
    case None => ""
  }

  function FieldValue(s: Service, i: nat, p: Parts, platform: Platform): string
    requires i < |s.fields|
  {
    var f := s.fields[i];
    if IsPath(f.slot) then
      PathIndexBound(s.fields, i);
      PathValue(PathFields(s.fields), |PathFields(s.fields[..i])|, SegmentsIn(p.path))
    else if f.slot.Query? then QueryValue(Query.Parse(p.query, platform.repair), f.slot.key)
    else AuthorityValue(s, f, p)
  }

  lemma PathFieldsConcat(a: seq<Field>, b: seq<Field>)
    ensures PathFields(a + b) == PathFields(a) + PathFields(b)
  {
    if a == [] {
      assert a + b == b;
    } else {
      assert (a + b)[0] == a[0] && (a + b)[1..] == a[1..] + b;
      PathFieldsConcat(a[1..], b);
    }
  }

  /** A path input is the one its number among the path inputs says it is. */
  lemma PathIndexBound(fields: seq<Field>, i: nat)
    requires i < |fields| && IsPath(fields[i].slot)
    ensures
      var k := |PathFields(fields[..i])|;
      k < |PathFields(fields)| && PathFields(fields)[k] == fields[i]
      && PathFields(fields) == PathFields(fields[..i]) + [fields[i]] + PathFields(fields[i + 1..])
  {
    assert fields == fields[..i] + ([fields[i]] + fields[i + 1..]);
    PathFieldsConcat(fields[..i], [fields[i]] + fields[i + 1..]);
    assert PathFields([fields[i]] + fields[i + 1..]) == [fields[i]] + PathFields(fields[i + 1..]);
  }

  /** The values of the first `n` inputs. */
  function ReadValues(s: Service, n: nat, p: Parts, platform: Platform): Values
    requires n <= |s.fields|
  {
    if n == 0 then map[] else ReadValues(s, n - 1, p, platform)[s.fields[n - 1].name := FieldValue(s, n - 1, p, platform)]
  }

  function KnownKeys(fields: seq<Field>): set<string> {
    set f | f in fields && f.slot.Query? :: KeyText(f.slot.key)
  }

  /** Assigning a property: an existing one keeps its place. */
  function Put(extra: Params, k: string, v: string): Params {
    if extra == [] then [(k, v)]
    else if extra[0].0 == k then [(k, v)] + extra[1..]
    else [extra[0]] + Put(extra[1..], k, v)
  }

  /** The parameters no input covers, on top of `extra`. */
  function ExtraFrom(extra: Params, q: Params, known: set<string>): Params
    decreases |q|
  {
    if q == [] then extra
    else ExtraFrom(if q[0].0 in known then extra else Put(extra, q[0].0, q[0].1), q[1..], known)
  }

  function TargetOf(s: Service, p: Parts, raw: string, platform: Platform): Target {
    Target(s.scheme, ReadValues(s, |s.fields|, p, platform), ExtraFrom([], Query.Parse(p.query, platform.repair), KnownKeys(s.fields)), raw)
  }

  function PairsText(q: Params): seq<string> {
    if q == [] then [] else [q[0].0 + "=" + Encode(q[0].1)] + PairsText(q[1..])
  }

  function Reencode(s: string): string {
    Encode(DecodeOrRaw(s))
  }

  function CanonicalParts(p: Parts, platform: Platform): string {
    var auth := if p.user != "" || p.pass != "" then Reencode(p.user) + ":" + Reencode(p.pass) + "@" else "";
    var qs := Join(PairsText(platform.sort(Query.Parse(p.query, platform.repair))), '&');
    (Lower(p.scheme) + "://" + auth + p.hostPort) + Slashed(EncodeEach(SegmentsIn(p.path))) + (if qs == "" then "" else "?" + qs)
  }

  /** Re-encoded, with the query sorted: what a round-trip check compares. */
  function Canonical(url: string, platform: Platform): string {
    match Cut(Trim(url))
    case None => Trim(url)
    case Some(p) => CanonicalParts(p, platform)
  }

  function Custom(raw: string): Target {
    Target(CUSTOM_SCHEME, map[], [], raw)
  }

  /** Reads a URL into the form of its service, or keeps it as raw text if there is
      none or the form would not give the same URL back. */
  function ParseURL(url: string, platform: Platform): Target {
    var raw := Trim(url);
    match Cut(raw)
    case None => Custom(raw)
    case Some(p) =>
      match ServiceFor(Lower(p.scheme))
      case None => Custom(raw)
      case Some(s) =>
        var t := TargetOf(s, p, raw, platform);
        if Canonical(BuildURL(t), platform) != Canonical(raw, platform) then Custom(raw) else t
  }
}
