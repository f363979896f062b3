/** web/src/lib/rrule.ts, buildRRule and parseBuilder: the simple schedule form and
    the recurrence rule it stands for (RFC 5545, section 3.3.10). */
module RRuleBuilder {
  import opened Wrappers
  import opened Strings
  import opened Numbers

  datatype Freq = Daily | Weekly | Monthly

  datatype Builder = Builder(freq: Freq, weekdays: seq<string>, monthday: nat, hour: nat, minute: nat)

  const WEEKDAYS := ["SU", "MO", "TU", "WE", "TH", "FR", "SA"]

  function FreqText(f: Freq): string {
    match f
    case Daily => "DAILY"
    case Weekly => "WEEKLY"
    case Monthly => "MONTHLY"
  }

  function Part(key: string, value: string): (r: string)
    ensures r != "" && (value != "" ==> r[|r| - 1] == value[|value| - 1])
  {
    key + "=" + value
  }

  method BuildRRule(b: Builder) returns (rule: string)
    ensures rule == Join(Parts(b), ';')
  {
    var parts := [Part("FREQ", FreqText(b.freq))];
    if b.freq == Weekly && b.weekdays != [] {
      parts := parts + [Part("BYDAY", Join(b.weekdays, ','))];
    }
    if b.freq == Monthly {
      parts := parts + [Part("BYMONTHDAY", DigitsOf(b.monthday))];
    }
    parts := parts + [Part("BYHOUR", DigitsOf(b.hour)), Part("BYMINUTE", DigitsOf(b.minute))];
    assert parts == Parts(b);
    rule := Join(parts, ';');
  }

  function Parts(b: Builder): seq<string> {
    [Part("FREQ", FreqText(b.freq))]
    + (if b.freq == Weekly && b.weekdays != [] then [Part("BYDAY", Join(b.weekdays, ','))] else [])
    + (if b.freq == Monthly then [Part("BYMONTHDAY", DigitsOf(b.monthday))] else [])
    + [Part("BYHOUR", DigitsOf(b.hour)), Part("BYMINUTE", DigitsOf(b.minute))]
  }

  // ---- Reading ----

  function UpperChar(c: char): char {
    if 'a' <= c <= 'z' then (c as int - 32) as char else c
  }

  function Upper(s: string): string {
    seq(|s|, i requires 0 <= i < |s| => UpperChar(s[i]))
  }

  /** Name and value of an attribute; what follows a second equals sign is dropped. */
  function Attribute(attr: string): (string, string) {
    var pieces := Split(attr, '=');
    (pieces[0], if |pieces| > 1 then pieces[1] else "")
  }

  function MatchStr(attrs: seq<string>, key: string): Option<string> {
    if attrs == [] then None
    else
      var (k, v) := Attribute(attrs[0]);
      if Upper(k) == key && v != "" then Some(v) else MatchStr(attrs[1..], key)
  }

  /** The digits at the front. */
  function DigitPrefix(s: string): string {
    if s != "" && '0' <= s[0] <= '9' then [s[0]] + DigitPrefix(s[1..]) else ""
  }

  /** parseInt(s, 10); None for NaN. */
  function LeadingInt(s: string): Option<int> {
    var t := TrimLeft(s);
    var (sign, rest) :=
      if t != "" && t[0] == '-' then (-1, t[1..])
      else if t != "" && t[0] == '+' then (1, t[1..])
      else (1, t);
    var digits := DigitPrefix(rest);
    if digits == "" then None
    else match FromDigits(digits)
      case Some(n) => Some(sign * n)
      case None => None
  }

  function MatchInt(attrs: seq<string>, key: string): Option<int> {
    if attrs == [] then None
    else
      var (k, v) := Attribute(attrs[0]);
      var n := LeadingInt(Split(v, ',')[0]);
      if Upper(k) == key && v != "" && n.Some? then n else MatchInt(attrs[1..], key)
  }

  function ReadFreq(s: string): Option<Freq> {
    if Upper(s) == "DAILY" then Some(Daily)
    else if Upper(s) == "WEEKLY" then Some(Weekly)
    else if Upper(s) == "MONTHLY" then Some(Monthly)
    else None
  }

  function UpperEach(days: seq<string>): seq<string> {
    if days == [] then [] else [Upper(days[0])] + UpperEach(days[1..])
  }

  /** The fields of the form; numbers as the rule has them. */
  datatype Fields = Fields(freq: Freq, weekdays: seq<string>, monthday: int, hour: int, minute: int)

  function ParseAttrs(attrs: seq<string>): Option<Fields> {
    var freq := match MatchStr(attrs, "FREQ") case Some(s) => ReadFreq(s) case None => None;
    var hour := MatchInt(attrs, "BYHOUR");
    var days := match MatchStr(attrs, "BYDAY") case Some(s) => UpperEach(Split(s, ',')) case None => [];
    if freq.None? || hour.None? || exists d :: d in days && d !in WEEKDAYS then None
    else
      var minute := match MatchInt(attrs, "BYMINUTE") case Some(n) => n case None => 0;
      var monthday := match MatchInt(attrs, "BYMONTHDAY") case Some(n) => n case None => 1;
      Some(Fields(freq.value, days, monthday, hour.value, minute))
  }

  const PREFIX := "RRULE:"

  function StripPrefix(rule: string): string {
    Trim(if |rule| >= |PREFIX| && Upper(rule[..|PREFIX|]) == PREFIX then rule[|PREFIX|..] else rule)
  }

  function ParseBuilder(rule: string): Option<Fields> {
    ParseAttrs(Split(StripPrefix(rule), ';'))
  }

  // ---- What is built is read ----

  /** The days are those of the form's buttons. */
  ghost predicate KnownDays(days: seq<string>) {
    forall d :: d in days ==> d in WEEKDAYS
  }

  lemma AttributeOf(key: string, value: string)
    requires '=' !in key && '=' !in value
    ensures Attribute(Part(key, value)) == (key, value)
  {
    assert Part(key, value) == Join([key, value], '=');
    SplitJoin([key, value], '=');
  }

  lemma {:induction false} DigitPrefixOf(s: string)
    requires forall c :: c in s ==> '0' <= c <= '9'
    ensures DigitPrefix(s) == s
  {
    if s != "" {
      assert s[0] in s && forall c :: c in s[1..] ==> c in s;
      DigitPrefixOf(s[1..]);
    }
  }

  lemma WholePiece(s: string, c: char)
    requires c !in s
    ensures Split(s, c) == [s]
  {
    IndexOfNone(s, c);
  }

  lemma NumberReads(n: nat)
    ensures LeadingInt(Split(DigitsOf(n), ',')[0]) == Some(n)
    ensures '=' !in DigitsOf(n) && ';' !in DigitsOf(n)
  {
    var s := DigitsOf(n);
    DigitsAreDigits(n);
    DigitsRoundTrip(n);
    DigitPrefixOf(s);
    WholePiece(s, ',');
    assert s[0] in s;
    assert !IsSpace(s[0]);
  }

  lemma {:induction false} DaysRead(days: seq<string>)
    requires KnownDays(days)
    ensures UpperEach(days) == days
    ensures forall d :: d in days ==> ',' !in d && '=' !in d && ';' !in d && d != ""
  {
    if days != [] {
      assert days == [days[0]] + days[1..];
      assert days[0] in days;
      DaysRead(days[1..]);
      DayIsPlain(days[0]);
    }
  }

  lemma DayIsPlain(d: string)
    requires d in WEEKDAYS
    ensures Upper(d) == d && ',' !in d && '=' !in d && ';' !in d && d != ""
  {
    assert |d| == 2 && UpperChar(d[0]) == d[0] && UpperChar(d[1]) == d[1];
  }

  /** The attributes of a rule, as names and values. */
  function Pairs(b: Builder): seq<(string, string)> {
    [("FREQ", FreqText(b.freq))]
    + (if b.freq == Weekly && b.weekdays != [] then [("BYDAY", Join(b.weekdays, ','))] else [])
    + (if b.freq == Monthly then [("BYMONTHDAY", DigitsOf(b.monthday))] else [])
    + [("BYHOUR", DigitsOf(b.hour)), ("BYMINUTE", DigitsOf(b.minute))]
  }

  function Texts(pairs: seq<(string, string)>): seq<string> {
    if pairs == [] then [] else [Part(pairs[0].0, pairs[0].1)] + Texts(pairs[1..])
  }

  function Lookup(pairs: seq<(string, string)>, key: string): Option<string> {
    if pairs == [] then None else if pairs[0].0 == key then Some(pairs[0].1) else Lookup(pairs[1..], key)
  }

  predicate IsPlainPair(p: (string, string)) {
    Upper(p.0) == p.0 && '=' !in p.0 && ';' !in p.0 && '=' !in p.1 && ';' !in p.1 && p.1 != ""
  }

  ghost predicate ArePlain(pairs: seq<(string, string)>) {
    forall p :: p in pairs ==> IsPlainPair(p)
  }

  lemma {:induction false} MatchStrLooksUp(pairs: seq<(string, string)>, key: string)
    requires ArePlain(pairs)
    ensures MatchStr(Texts(pairs), key) == Lookup(pairs, key)
    ensures forall t :: t in Texts(pairs) ==> ';' !in t
  {
    if pairs != [] {
      assert pairs == [pairs[0]] + pairs[1..];
      assert pairs[0] in pairs;
      AttributeOf(pairs[0].0, pairs[0].1);
      MatchStrLooksUp(pairs[1..], key);
      assert Texts(pairs)[1..] == Texts(pairs[1..]);
    }
  }

  /** Under a key whose first value is a number, that number is found. */
  lemma {:induction false} MatchIntLooksUp(pairs: seq<(string, string)>, key: string)
    requires ArePlain(pairs)
    requires Lookup(pairs, key).Some? ==> LeadingInt(Split(Lookup(pairs, key).value, ',')[0]).Some?
    ensures MatchInt(Texts(pairs), key) ==
      match Lookup(pairs, key) case Some(v) => LeadingInt(Split(v, ',')[0]) case None => None
  {
    if pairs != [] {
      assert pairs == [pairs[0]] + pairs[1..];
      assert pairs[0] in pairs;
      AttributeOf(pairs[0].0, pairs[0].1);
      if pairs[0].0 != key {
        MatchIntLooksUp(pairs[1..], key);
      }
      assert Texts(pairs)[1..] == Texts(pairs[1..]);
    }
  }

  ghost predicate IsCapital(s: string) {
    forall i :: 0 <= i < |s| ==> 'A' <= s[i] <= 'Z'
  }

  lemma CapitalsArePlain(s: string)
    requires IsCapital(s)
    ensures Upper(s) == s && '=' !in s && ';' !in s
  {
    assert forall i :: 0 <= i < |s| ==> Upper(s)[i] == s[i];
  }

  lemma KeysArePlain()
    ensures IsCapital("FREQ") && IsCapital("BYDAY") && IsCapital("BYMONTHDAY") && IsCapital("BYHOUR") && IsCapital("BYMINUTE")
    ensures IsCapital("DAILY") && IsCapital("WEEKLY") && IsCapital("MONTHLY")
  {
  }

  lemma DaysArePlain(days: seq<string>)
    requires KnownDays(days) && days != []
    ensures '=' !in Join(days, ',') && ';' !in Join(days, ',') && Join(days, ',') != "" && Split(Join(days, ','), ',') == days
  {
    DaysRead(days);
    forall c | c in Join(days, ',') ensures c != '=' && c != ';' {
      JoinChars(days, ',', c);
    }
    assert "" !in days;
    JoinEnds(days, ',');
    SplitJoin(days, ',');
  }

  lemma {:induction false} TextsConcat(a: seq<(string, string)>, b: seq<(string, string)>)
    ensures Texts(a + b) == Texts(a) + Texts(b)
  {
    if a == [] {
      assert a + b == b;
    } else {
      assert (a + b)[0] == a[0] && (a + b)[1..] == a[1..] + b;
      TextsConcat(a[1..], b);
    }
  }

  lemma {:induction false} LookupConcat(a: seq<(string, string)>, b: seq<(string, string)>, key: string)
    ensures Lookup(a + b, key) == if Lookup(a, key).Some? then Lookup(a, key) else Lookup(b, key)
  {
    if a == [] {
      assert a + b == b;
    } else {
      assert (a + b)[0] == a[0] && (a + b)[1..] == a[1..] + b;
      LookupConcat(a[1..], b, key);
    }
  }

  lemma PlainPair(key: string, value: string)
    requires IsCapital(key) && '=' !in value && ';' !in value && value != ""
    ensures IsPlainPair((key, value))
  {
    CapitalsArePlain(key);
  }

  lemma PairsArePlain(b: Builder)
    requires KnownDays(b.weekdays)
    ensures ArePlain(Pairs(b))
  {
    KeysArePlain();
    NumberReads(b.hour);
    NumberReads(b.minute);
    NumberReads(b.monthday);
    CapitalsArePlain(FreqText(b.freq));
    PlainPair("FREQ", FreqText(b.freq));
    PlainPair("BYHOUR", DigitsOf(b.hour));
    PlainPair("BYMINUTE", DigitsOf(b.minute));
    PlainPair("BYMONTHDAY", DigitsOf(b.monthday));
    if b.weekdays != [] {
      DaysArePlain(b.weekdays);
      PlainPair("BYDAY", Join(b.weekdays, ','));
    }
  }

  lemma PairsArePrinted(b: Builder)
    ensures Texts(Pairs(b)) == Parts(b)
  {
    var days := if b.freq == Weekly && b.weekdays != [] then [("BYDAY", Join(b.weekdays, ','))] else [];
    var monthday := if b.freq == Monthly then [("BYMONTHDAY", DigitsOf(b.monthday))] else [];
    var time := [("BYHOUR", DigitsOf(b.hour)), ("BYMINUTE", DigitsOf(b.minute))];
    var freq := [("FREQ", FreqText(b.freq))];
    TextsConcat(freq, days);
    TextsConcat(freq + days, monthday);
    TextsConcat(freq + days + monthday, time);
    assert Texts(time[1..]) == [Part("BYMINUTE", DigitsOf(b.minute))];
  }

  lemma LookupInPairs(b: Builder, key: string)
    requires key in ["FREQ", "BYDAY", "BYMONTHDAY", "BYHOUR", "BYMINUTE"]
    ensures Lookup(Pairs(b), key) ==
      if key == "FREQ" then Some(FreqText(b.freq))
      else if key == "BYDAY" then if b.freq == Weekly && b.weekdays != [] then Some(Join(b.weekdays, ',')) else None
      else if key == "BYMONTHDAY" then if b.freq == Monthly then Some(DigitsOf(b.monthday)) else None
      else if key == "BYHOUR" then Some(DigitsOf(b.hour))
      else Some(DigitsOf(b.minute))
  {
    var days := if b.freq == Weekly && b.weekdays != [] then [("BYDAY", Join(b.weekdays, ','))] else [];
    var monthday := if b.freq == Monthly then [("BYMONTHDAY", DigitsOf(b.monthday))] else [];
    var time := [("BYHOUR", DigitsOf(b.hour)), ("BYMINUTE", DigitsOf(b.minute))];
    var freq := [("FREQ", FreqText(b.freq))];
    LookupConcat(freq, days, key);
    LookupConcat(freq + days, monthday, key);
    LookupConcat(freq + days + monthday, time, key);
    assert Lookup(time[1..], key) == if key == "BYMINUTE" then Some(DigitsOf(b.minute)) else None;
  }

  lemma RuleIsBare(b: Builder)
    ensures StripPrefix(Join(Parts(b), ';')) == Join(Parts(b), ';')
  {
    var rule, last := Join(Parts(b), ';'), Part("BYMINUTE", DigitsOf(b.minute));
    assert "" !in Parts(b);
    JoinEnds(Parts(b), ';');
    DigitsAreDigits(b.minute);
    assert last[|last| - 1] in DigitsOf(b.minute);
    BareIfOther(rule);
  }

  lemma BareIfOther(rule: string)
    requires IsTrimmed(rule) && rule != "" && rule[0] == 'F'
    ensures StripPrefix(rule) == rule
  {
    if |rule| >= |PREFIX| {
      assert Upper(rule[..|PREFIX|])[0] == 'F';
    }
    TrimIsTrimmed(rule);
  }

  /** A form prefilled from the rule it built shows the same fields, but for the
      weekdays and the day of the month that its frequency does not use. */
  lemma BuiltRuleReads(b: Builder)
    requires KnownDays(b.weekdays)
    ensures ParseBuilder(Join(Parts(b), ';')) ==
      Some(Fields(b.freq, if b.freq == Weekly then b.weekdays else [], if b.freq == Monthly then b.monthday else 1, b.hour, b.minute))
  {
    RuleIsBare(b);
    PartsSplit(b);
    AttrsRead(b);
  }

  lemma PartsSplit(b: Builder)
    requires KnownDays(b.weekdays)
    ensures Split(Join(Parts(b), ';'), ';') == Parts(b)
  {
    PairsArePlain(b);
    PairsArePrinted(b);
    MatchStrLooksUp(Pairs(b), "");
    SplitJoin(Parts(b), ';');
  }

  lemma AttrReads(b: Builder, key: string)
    requires KnownDays(b.weekdays) && key in ["FREQ", "BYDAY", "BYMONTHDAY", "BYHOUR", "BYMINUTE"]
    ensures MatchStr(Parts(b), key) == Lookup(Pairs(b), key)
    ensures key == "BYHOUR" ==> MatchInt(Parts(b), key) == Some(b.hour)
    ensures key == "BYMINUTE" ==> MatchInt(Parts(b), key) == Some(b.minute)
    ensures key == "BYMONTHDAY" ==> MatchInt(Parts(b), key) == if b.freq == Monthly then Some(b.monthday) else None
  {
    PairsArePlain(b);
    PairsArePrinted(b);
    MatchStrLooksUp(Pairs(b), key);
    LookupInPairs(b, key);
    if |key| > 5 {
      NumberReads(b.hour);
      NumberReads(b.minute);
      NumberReads(b.monthday);
      MatchIntLooksUp(Pairs(b), key);
    }
  }

  lemma AttrsRead(b: Builder)
    requires KnownDays(b.weekdays)
    ensures ParseAttrs(Parts(b)) ==
      Some(Fields(b.freq, if b.freq == Weekly then b.weekdays else [], if b.freq == Monthly then b.monthday else 1, b.hour, b.minute))
  {
    AttrReads(b, "FREQ");
    AttrReads(b, "BYDAY");
    AttrReads(b, "BYMONTHDAY");
    AttrReads(b, "BYHOUR");
    AttrReads(b, "BYMINUTE");
    LookupInPairs(b, "FREQ");
    LookupInPairs(b, "BYDAY");
    FreqReads(b.freq);
    DaysRead(b.weekdays);
    if b.weekdays != [] {
      DaysArePlain(b.weekdays);
    }
  }

  lemma FreqReads(f: Freq)
    ensures ReadFreq(FreqText(f)) == Some(f)
  {
    KeysArePlain();
    CapitalsArePlain(FreqText(f));
  }
}
