/** URLSearchParams (URL Standard, section 6.2): an ordered list of name-value pairs
    and its text form. */
module Query {
  import opened Wrappers
  import opened Strings
  import opened Percent

  type Params = seq<(string, string)>
  type Repair = seq<Byte> -> string

  function PairText(p: (string, string)): string {
    FormEncode(p.0) + "=" + FormEncode(p.1)
  }

  function Texts(q: Params): seq<string> {
    if q == [] then [] else [PairText(q[0])] + Texts(q[1..])
  }

  function Serialize(q: Params): string {
    Join(Texts(q), '&')
  }

  function ReadPair(text: string, repair: Repair): (string, string) {
    var i := IndexOf(text, '=');
    (FormDecode(text[..i], repair), if i < |text| then FormDecode(text[i + 1..], repair) else "")
  }

  function ReadPairs(texts: seq<string>, repair: Repair): Params {
    if texts == [] then [] else [ReadPair(texts[0], repair)] + ReadPairs(texts[1..], repair)
  }

  function Parse(text: string, repair: Repair): Params {
    var body := if text != "" && text[0] == '?' then text[1..] else text;
    ReadPairs(NonEmpty(Split(body, '&')), repair)
  }

  predicate IsQueryChar(c: char) {
    IsSafe(c) || c == '+' || c == '='
  }

  lemma PairRoundTrip(p: (string, string), repair: Repair)
    ensures ReadPair(PairText(p), repair) == p
    ensures PairText(p) != "" && forall c :: c in PairText(p) ==> IsQueryChar(c)
  {
    var k, v := FormEncode(p.0), FormEncode(p.1);
    FormEncodedIsSafe(p.0);
    FormEncodedIsSafe(p.1);
    IndexOfAfter(k, '=', v);
    FormRoundTrip(p.0, repair);
    FormRoundTrip(p.1, repair);
    assert PairText(p) == k + ['='] + v;
    assert PairText(p)[..|k|] == k && PairText(p)[|k| + 1..] == v;
  }

  lemma {:induction false} TextsRoundTrip(q: Params, repair: Repair)
    ensures ReadPairs(Texts(q), repair) == q
    ensures "" !in Texts(q) && forall t :: t in Texts(q) ==> forall c :: c in t ==> IsQueryChar(c)
    ensures |Texts(q)| == |q|
  {
    if q != [] {
      TextsRoundTrip(q[1..], repair);
      PairRoundTrip(q[0], repair);
      assert Texts(q)[1..] == Texts(q[1..]);
    }
  }

  lemma SerializedChars(q: Params, repair: Repair)
    ensures forall c :: c in Serialize(q) ==> IsQueryChar(c) || c == '&'
  {
    TextsRoundTrip(q, repair);
    forall c | c in Serialize(q) ensures IsQueryChar(c) || c == '&' {
      JoinChars(Texts(q), '&', c);
    }
  }

  lemma SerializeRoundTrip(q: Params, repair: Repair)
    ensures Parse(Serialize(q), repair) == q
    ensures Serialize(q) == "" <==> q == []
  {
    TextsRoundTrip(q, repair);
    if q == [] {
      assert Split("", '&') == [""] && NonEmpty([""]) == [];
    } else {
      SerializedFits(q, repair);
      SplitJoin(Texts(q), '&');
      NonEmptyAll(Texts(q));
      assert Split(Serialize(q), '&') == Texts(q);
      assert NonEmpty(Texts(q)) == Texts(q);
    }
  }

  lemma SerializedFits(q: Params, repair: Repair)
    requires q != []
    ensures Serialize(q) != "" && Serialize(q)[0] != '?' && forall t :: t in Texts(q) ==> '&' !in t
  {
    TextsRoundTrip(q, repair);
    JoinEnds(Texts(q), '&');
    SerializedChars(q, repair);
    assert Serialize(q)[0] in Serialize(q);
    assert !IsQueryChar('?') && !IsQueryChar('&');
  }

  // ---- Editing ----

  function Get(q: Params, k: string): Option<string> {
    if q == [] then None else if q[0].0 == k then Some(q[0].1) else Get(q[1..], k)
  }

  function Delete(q: Params, k: string): Params {
    if q == [] then []
    else if q[0].0 == k then Delete(q[1..], k)
    else [q[0]] + Delete(q[1..], k)
  }

  /** Replaces the first value of `k` and drops the others, or adds one at the end. */
  function Set(q: Params, k: string, v: string): Params {
    if q == [] then [(k, v)]
    else if q[0].0 == k then [(k, v)] + Delete(q[1..], k)
    else [q[0]] + Set(q[1..], k, v)
  }

  function Keys(q: Params): set<string> {
    set p | p in q :: p.0
  }

  lemma {:induction false} DeleteAbsent(q: Params, k: string)
    requires k !in Keys(q)
    ensures Delete(q, k) == q
  {
    if q != [] {
      assert q[0] in q;
      assert Keys(q[1..]) <= Keys(q);
      DeleteAbsent(q[1..], k);
    }
  }

  lemma {:induction false} SetAbsent(q: Params, k: string, v: string)
    requires k !in Keys(q)
    ensures Set(q, k, v) == q + [(k, v)]
  {
    if q != [] {
      assert q[0] in q;
      assert Keys(q[1..]) <= Keys(q);
      SetAbsent(q[1..], k, v);
    }
  }

  lemma {:induction false} GetFrom(a: Params, b: Params, k: string)
    ensures Get(a + b, k) == (if k in Keys(a) then Get(a, k) else Get(b, k))
    ensures Get(a, k).Some? <==> k in Keys(a)
  {
    if a == [] {
      assert a + b == b;
    } else {
      GetFrom(a[1..], b, k);
      assert (a + b)[1..] == a[1..] + b;
      assert Keys(a) == Keys(a[1..]) + {a[0].0} by {
        assert a == [a[0]] + a[1..];
      }
    }
  }
}
