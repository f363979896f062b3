/** The services of web/src/lib/shoutrrr.ts, SERVICES: which inputs each form has and
    where in a target URL each input goes. */
module Services {
  import opened Wrappers

  /** The inputs of all forms, by the name their values are kept under. */
  datatype Input =
    | Token | Id | Username | Avatar | HostInput | Topic | UserInput | PassInput | Priority | Tags | Scheme | Type
    | Channel | Botname | Color | Icon | ThreadTs | Chats | Parsemode | Notification | Subpath | Disabletls
    | Userkey | Devices | Rooms | PortInput | From | To | Auth | Starttls | Encryption | PathInput | Template
    | Titlekey | Messagekey | Contenttype | Method | Devicekey | Sound | Group | TokenA | TokenB | Tenant | Altid
    | Groupowner | Whhost | Botmail | Botkey | Stream | Apikey | Responders | Targets | Key | Webhookid | Events
    | Value1 | Value2 | Value3

  /** Where in the URL an input goes. A query input has the key its value is set under. */
  datatype Slot = User | Pass | Host | Port | Path | Path1 | Path2 | Path3 | Query(key: Input)

  /** `colonPair` marks a value "id:secret" that goes to both user and password. */
  datatype Field = Field(name: Input, slot: Slot, required: bool, colonPair: bool)

  /** What the service fixes has no input: a user or a host. */
  datatype Service = Service(scheme: string, user: Option<string>, host: Option<string>, fields: seq<Field>)

  predicate IsPath(slot: Slot) {
    slot.Path? || slot.Path1? || slot.Path2? || slot.Path3?
  }

  function In(name: Input, slot: Slot): Field {
    Field(name, slot, false, false)
  }

  function Need(name: Input, slot: Slot): Field {
    Field(name, slot, true, false)
  }

  function Ask(key: Input): Field {
    In(key, Query(key))
  }

  function Demand(key: Input): Field {
    Need(key, Query(key))
  }

  // ---- The table ----

  const DISCORD := Service("discord", None, None, [
    Need(Token, User), Need(Id, Host), Ask(Username), Ask(Avatar)])

  const NTFY := Service("ntfy", None, None, [
    Need(HostInput, Host), Need(Topic, Path), In(UserInput, User), In(PassInput, Pass), Ask(Priority),
    Ask(Tags), Ask(Scheme)])

  const SLACK := Service("slack", None, None, [
    Need(Type, User), Need(Token, Pass), Need(Channel, Host), Ask(Botname), Ask(Color), Ask(Icon),
    Ask(ThreadTs)])

  const TELEGRAM := Service("telegram", None, Some("telegram"), [
    Field(Token, User, true, true), Demand(Chats), Ask(Parsemode), Ask(Notification)])

  const GOTIFY := Service("gotify", None, None, [
    Need(HostInput, Host), In(Subpath, Path), Need(Token, Path2), Ask(Priority), Ask(Disabletls)])

  const PUSHOVER := Service("pushover", Some("shoutrrr"), None, [
    Need(Token, Pass), Need(Userkey, Host), Ask(Devices), Ask(Priority)])

  const MATRIX := Service("matrix", None, None, [
    Need(HostInput, Host), Need(PassInput, Pass), In(UserInput, User), Ask(Rooms)])

  const SMTP := Service("smtp", None, None, [
    Need(HostInput, Host), In(PortInput, Port), Demand(From), Demand(To), In(UserInput, User),
    In(PassInput, Pass), Ask(Auth), Ask(Starttls), Ask(Encryption)])

  const GENERIC := Service("generic", None, None, [
    Need(HostInput, Host), In(PathInput, Path), In(UserInput, User), In(PassInput, Pass), Ask(Template),
    Ask(Titlekey), Ask(Messagekey), Ask(Contenttype), Ask(Method), Ask(Disabletls)])

  const BARK := Service("bark", None, None, [
    Need(Devicekey, Pass), Need(HostInput, Host), In(PathInput, Path), Ask(Sound), Ask(Group), Ask(Scheme)])

  const MATTERMOST := Service("mattermost", None, None, [
    Need(HostInput, Host), Need(Token, Path1), In(Channel, Path2), In(UserInput, User), Ask(Icon)])

  const ROCKETCHAT := Service("rocketchat", None, None, [
    Need(HostInput, Host), Need(TokenA, Path1), Need(TokenB, Path2), In(Channel, Path3), In(UserInput, User)])

  const TEAMS := Service("teams", None, None, [
    Need(Group, User), Need(Tenant, Host), Need(Altid, Path1), Need(Groupowner, Path2),
    Need(Whhost, Query(HostInput)), Ask(Color)])

  const ZULIP := Service("zulip", None, None, [
    Need(Botmail, User), Need(Botkey, Pass), Need(HostInput, Host), Ask(Stream), Ask(Topic)])

  const OPSGENIE := Service("opsgenie", None, None, [
    Need(HostInput, Host), Need(Apikey, Path), Ask(Responders), Ask(Priority), Ask(Tags)])

  const PUSHBULLET := Service("pushbullet", None, None, [
    Need(Token, Host), In(Targets, Path)])

  const JOIN := Service("join", Some("shoutrrr"), Some("join"), [
    Need(Apikey, Pass), Demand(Devices), Ask(Icon)])

  const GOOGLECHAT := Service("googlechat", None, Some("chat.googleapis.com"), [
    Need(PathInput, Path), Demand(Key), Demand(Token)])

  const IFTTT := Service("ifttt", None, None, [
    Need(Webhookid, Host), Demand(Events), Ask(Value1), Ask(Value2), Ask(Value3)])

  const TABLE: seq<Service> := [
    DISCORD, NTFY, SLACK, TELEGRAM, GOTIFY, PUSHOVER, MATRIX, SMTP,
    GENERIC, BARK, MATTERMOST, ROCKETCHAT, TEAMS, ZULIP, OPSGENIE,
    PUSHBULLET, JOIN, GOOGLECHAT, IFTTT]

  // ---- How names are spelled ----

  /** The spelling of a name, which is also that of the key it is set under. */
  function KeyText(key: Input): string {
    match key
    case Token => "token"
    case Id => "id"
    case Username => "username"
    case Avatar => "avatar"
    case HostInput => "host"
    case Topic => "topic"
    case UserInput => "user"
    case PassInput => "pass"
    case Priority => "priority"
    case Tags => "tags"
    case Scheme => "scheme"
    case Type => "type"
    case Channel => "channel"
    case Botname => "botname"
    case Color => "color"
    case Icon => "icon"
    case ThreadTs => "thread_ts"
    case Chats => "chats"
    case Parsemode => "parsemode"
    case Notification => "notification"
    case Subpath => "subpath"
    case Disabletls => "disabletls"
    case Userkey => "userkey"
    case Devices => "devices"
    case Rooms => "rooms"
    case PortInput => "port"
    case From => "from"
    case To => "to"
    case Auth => "auth"
    case Starttls => "starttls"
    case Encryption => "encryption"
    case PathInput => "path"
    case Template => "template"
    case Titlekey => "titlekey"
    case Messagekey => "messagekey"
    case Contenttype => "contenttype"
    case Method => "method"
    case Devicekey => "devicekey"
    case Sound => "sound"
    case Group => "group"
    case TokenA => "tokenA"
    case TokenB => "tokenB"
    case Tenant => "tenant"
    case Altid => "altid"
    case Groupowner => "groupowner"
    case Whhost => "whhost"
    case Botmail => "botmail"
    case Botkey => "botkey"
    case Stream => "stream"
    case Apikey => "apikey"
    case Responders => "responders"
    case Targets => "targets"
    case Key => "key"
    case Webhookid => "webhookid"
    case Events => "events"
    case Value1 => "value1"
    case Value2 => "value2"
    case Value3 => "value3"
  }

  /** Spellings tell names apart: this reads a name off its length and a few letters. */
  function KeySpelled(t: string): Input {
    match |t|
    case 2 => if t[0] == 'i' then Id else To
    case 3 => Key
    case 4 =>
      if t[0] == 'h' then HostInput else if t[0] == 'u' then UserInput else if t[0] == 'p' then (if t[2] ==
      's' then PassInput else if t[2] == 'r' then PortInput else PathInput) else if t[0] == 't' then (if t[1]
      == 'a' then Tags else Type) else if t[0] == 'i' then Icon else if t[0] == 'f' then From else Auth
    case 5 =>
      if t[2] == 'k' then Token else if t[2] == 'p' then Topic else if t[2] == 'l' then Color else if t[2] ==
      'a' then Chats else if t[2] == 'o' then (if t[0] == 'r' then Rooms else Group) else if t[2] == 'u' then
      Sound else Altid
    case 6 =>
      if t[5] == 'r' then Avatar else if t[5] == 'e' then Scheme else if t[5] == 'd' then Method else if t[5]
      == 'A' then TokenA else if t[5] == 'B' then TokenB else if t[5] == 't' then (if t[0] == 't' then Tenant
      else Whhost) else if t[5] == 'y' then (if t[0] == 'b' then Botkey else Apikey) else if t[5] == 'm' then
      Stream else if t[5] == 's' then Events else if t[5] == '1' then Value1 else if t[5] == '2' then Value2
      else Value3
    case 7 =>
      if t[0] == 'c' then Channel else if t[0] == 'b' then (if t[3] == 'n' then Botname else Botmail) else if
      t[0] == 's' then Subpath else if t[0] == 'u' then Userkey else if t[0] == 'd' then Devices else Targets
    case 8 =>
      if t[1] == 's' then Username else if t[1] == 'r' then Priority else if t[1] == 't' then Starttls else if
      t[1] == 'e' then Template else Titlekey
    case 9 =>
      if t[0] == 't' then ThreadTs else if t[0] == 'p' then Parsemode else if t[0] == 'd' then Devicekey else
      Webhookid
    case 10 =>
      if t[0] == 'd' then Disabletls else if t[0] == 'e' then Encryption else if t[0] == 'm' then Messagekey
      else if t[0] == 'g' then Groupowner else Responders
    case 11 => Contenttype
    case 12 => Notification
    case _ => Id
  }

  lemma FirstInputsSpeltApart(key: Input)
    requires key.Token? || key.Id? || key.Username? || key.Avatar? || key.HostInput? || key.Topic?
    ensures KeySpelled(KeyText(key)) == key
  {
  }

  lemma SecondInputsSpeltApart(key: Input)
    requires key.UserInput? || key.PassInput? || key.Priority? || key.Tags? || key.Scheme? || key.Type?
    ensures KeySpelled(KeyText(key)) == key
  {
  }

  lemma ThirdInputsSpeltApart(key: Input)
    requires key.Channel? || key.Botname? || key.Color? || key.Icon? || key.ThreadTs? || key.Chats?
    ensures KeySpelled(KeyText(key)) == key
  {
  }

  lemma FourthInputsSpeltApart(key: Input)
    requires key.Parsemode? || key.Notification? || key.Subpath? || key.Disabletls? || key.Userkey? || key.Devices?
    ensures KeySpelled(KeyText(key)) == key
  {
  }

  lemma FifthInputsSpeltApart(key: Input)
    requires key.Rooms? || key.PortInput? || key.From? || key.To? || key.Auth? || key.Starttls?
    ensures KeySpelled(KeyText(key)) == key
  {
  }

  lemma SixthInputsSpeltApart(key: Input)
    requires key.Encryption? || key.PathInput? || key.Template? || key.Titlekey? || key.Messagekey? || key.Contenttype?
    ensures KeySpelled(KeyText(key)) == key
  {
  }

  lemma SeventhInputsSpeltApart(key: Input)
    requires key.Method? || key.Devicekey? || key.Sound? || key.Group? || key.TokenA? || key.TokenB?
    ensures KeySpelled(KeyText(key)) == key
  {
  }

  lemma EighthInputsSpeltApart(key: Input)
    requires key.Tenant? || key.Altid? || key.Groupowner? || key.Whhost? || key.Botmail? || key.Botkey?
    ensures KeySpelled(KeyText(key)) == key
  {
  }

  lemma NinthInputsSpeltApart(key: Input)
    requires key.Stream? || key.Apikey? || key.Responders? || key.Targets? || key.Key? || key.Webhookid?
    ensures KeySpelled(KeyText(key)) == key
  {
  }

  lemma TenthInputsSpeltApart(key: Input)
    requires key.Events? || key.Value1? || key.Value2? || key.Value3?
    ensures KeySpelled(KeyText(key)) == key
  {
  }

  lemma InputsSpeltApart(key: Input)
    ensures KeySpelled(KeyText(key)) == key
  {
    match key
    case Token | Id | Username | Avatar | HostInput | Topic => FirstInputsSpeltApart(key);
    case UserInput | PassInput | Priority | Tags | Scheme | Type => SecondInputsSpeltApart(key);
    case Channel | Botname | Color | Icon | ThreadTs | Chats => ThirdInputsSpeltApart(key);
    case Parsemode | Notification | Subpath | Disabletls | Userkey | Devices => FourthInputsSpeltApart(key);
    case Rooms | PortInput | From | To | Auth | Starttls => FifthInputsSpeltApart(key);
    case Encryption | PathInput | Template | Titlekey | Messagekey | Contenttype => SixthInputsSpeltApart(key);
    case Method | Devicekey | Sound | Group | TokenA | TokenB => SeventhInputsSpeltApart(key);
    case Tenant | Altid | Groupowner | Whhost | Botmail | Botkey => EighthInputsSpeltApart(key);
    case Stream | Apikey | Responders | Targets | Key | Webhookid => NinthInputsSpeltApart(key);
    case Events | Value1 | Value2 | Value3 => TenthInputsSpeltApart(key);
  }

  lemma KeyTextInjective(a: Input, b: Input)
    requires KeyText(a) == KeyText(b)
    ensures a == b
  {
    InputsSpeltApart(a);
    InputsSpeltApart(b);
  }

  // ---- Finding a service ----

  function Find(table: seq<Service>, scheme: string): Option<Service> {
    if table == [] then None
    else if table[0].scheme == scheme then Some(table[0])
    else Find(table[1..], scheme)
  }

  function ServiceFor(scheme: string): Option<Service> {
    Find(TABLE, scheme)
  }

  /** Where in the table the service of a scheme is, from its length and first letter. */
  function Position(t: string): nat {
    match |t|
    case 4 => if t[0] == 'n' then 1 else if t[0] == 's' then 7 else if t[0] == 'b' then 9 else 16
    case 5 => if t[0] == 's' then 2 else if t[0] == 't' then 12 else if t[0] == 'z' then 13 else 18
    case 6 => if t[0] == 'g' then 4 else 6
    case 7 => if t[0] == 'd' then 0 else 8
    case 8 => if t[0] == 't' then 3 else if t[0] == 'p' then 5 else 14
    case 10 => if t[0] == 'm' then 10 else if t[0] == 'r' then 11 else if t[0] == 'p' then 15 else 17
    case _ => 0
  }

  lemma SchemesApart(i: nat)
    requires i < |TABLE|
    ensures Position(TABLE[i].scheme) == i
  {
  }

  lemma {:induction false} FindAt(table: seq<Service>, i: nat)
    requires i < |table| && forall j :: 0 <= j < i ==> table[j].scheme != table[i].scheme
    ensures Find(table, table[i].scheme) == Some(table[i])
  {
    if i > 0 {
      FindAt(table[1..], i - 1);
    }
  }

  lemma ServiceForItsScheme(i: nat)
    requires i < |TABLE|
    ensures ServiceFor(TABLE[i].scheme) == Some(TABLE[i])
  {
    SchemesApart(i);
    forall j | 0 <= j < i ensures TABLE[j].scheme != TABLE[i].scheme {
      SchemesApart(j);
    }
    FindAt(TABLE, i);
  }

  // ---- What the table is like ----

  predicate IsLowerCase(s: string) {
    forall i :: 0 <= i < |s| ==> 'a' <= s[i] <= 'z'
  }

  predicate IsPlainHost(s: string) {
    forall i :: 0 <= i < |s| ==> 'a' <= s[i] <= 'z' || s[i] == '.'
  }

  /** Of two path inputs, in order, it is never in doubt which segment is whose: one
      that may be empty comes last, unless one takes all segments the others leave. */
  predicate InOrder(f: Field, g: Field) {
    IsPath(f.slot) && IsPath(g.slot) ==> (f.required || f.slot == Path) && (g.slot == Path || g.required || f.slot != Path)
  }

  /** Two inputs, in order, have names and places of their own; a colon pair takes up
      the password too. */
  predicate Compatible(f: Field, g: Field) {
    && f.name != g.name && f.slot != g.slot && InOrder(f, g)
    && (f.colonPair ==> g.slot != Pass) && (g.colonPair ==> f.slot != Pass)
  }

  predicate AllCompatible(fields: seq<Field>) {
    forall i, j {:trigger Compatible(fields[i], fields[j])} :: 0 <= i < j < |fields| ==> Compatible(fields[i], fields[j])
  }

  /** An input suits what its service fixes. */
  predicate Suits(s: Service, f: Field) {
    && (f.slot == User ==> s.user.None?) && (f.slot == Host ==> s.host.None? && f.required)
    && (f.colonPair ==> f.slot == User)
  }

  predicate AllSuit(s: Service) {
    forall i {:trigger Suits(s, s.fields[i])} :: 0 <= i < |s.fields| ==> Suits(s, s.fields[i])
  }

  predicate HasSlotFrom(fields: seq<Field>, slot: Slot, i: nat)
    decreases |fields| - i
  {
    i < |fields| && (fields[i].slot == slot || HasSlotFrom(fields, slot, i + 1))
  }

  lemma {:induction false} HasSlotAt(fields: seq<Field>, slot: Slot, i: nat)
    ensures HasSlotFrom(fields, slot, i) <==> exists k :: i <= k < |fields| && fields[k].slot == slot
    decreases |fields| - i
  {
    if i < |fields| {
      HasSlotAt(fields, slot, i + 1);
    }
  }

  predicate HostAndScheme(s: Service) {
    && s.scheme != "" && IsLowerCase(s.scheme)
    && (s.host.Some? || HasSlotFrom(s.fields, Host, 0))
    && (s.host.Some? ==> s.host.value != "" && IsPlainHost(s.host.value))
    && (s.user.Some? ==> s.user.value != "" && IsLowerCase(s.user.value))
  }

  /** Every input has its own name and place, path inputs are in order, all suit what
      the service fixes, and a host is either asked for or fixed. */
  predicate IsWellDesigned(s: Service) {
    AllCompatible(s.fields) && AllSuit(s) && HostAndScheme(s)
  }

  lemma FieldsCompatible(s: Service, i: nat, j: nat)
    requires IsWellDesigned(s) && i < j < |s.fields|
    ensures Compatible(s.fields[i], s.fields[j])
  {
  }

  lemma DiscordIsWellDesigned(s: Service)
    requires s == DISCORD
    ensures IsWellDesigned(s)
  {
    assert AllCompatible(s.fields) by {
      forall i, j | 0 <= i < j < |s.fields| ensures Compatible(s.fields[i], s.fields[j]) {
      }
    }
    assert AllSuit(s) && HostAndScheme(s);
  }

  lemma NtfyIsWellDesigned(s: Service)
    requires s == NTFY
    ensures IsWellDesigned(s)
  {
    assert AllCompatible(s.fields) by {
      forall i, j | 0 <= i < j < |s.fields| ensures Compatible(s.fields[i], s.fields[j]) {
      }
    }
    assert AllSuit(s) && HostAndScheme(s);
  }

  lemma SlackIsWellDesigned(s: Service)
    requires s == SLACK
    ensures IsWellDesigned(s)
  {
    assert AllCompatible(s.fields) by {
      forall i, j | 0 <= i < j < |s.fields| ensures Compatible(s.fields[i], s.fields[j]) {
      }
    }
    assert AllSuit(s) && HostAndScheme(s);
  }

  lemma TelegramIsWellDesigned(s: Service)
    requires s == TELEGRAM
    ensures IsWellDesigned(s)
  {
    assert AllCompatible(s.fields) by {
      forall i, j | 0 <= i < j < |s.fields| ensures Compatible(s.fields[i], s.fields[j]) {
      }
    }
    assert AllSuit(s) && HostAndScheme(s);
  }

  lemma GotifyIsWellDesigned(s: Service)
    requires s == GOTIFY
    ensures IsWellDesigned(s)
  {
    assert AllCompatible(s.fields) by {
      forall i, j | 0 <= i < j < |s.fields| ensures Compatible(s.fields[i], s.fields[j]) {
      }
    }
    assert AllSuit(s) && HostAndScheme(s);
  }

  lemma PushoverIsWellDesigned(s: Service)
    requires s == PUSHOVER
    ensures IsWellDesigned(s)
  {
    assert AllCompatible(s.fields) by {
      forall i, j | 0 <= i < j < |s.fields| ensures Compatible(s.fields[i], s.fields[j]) {
      }
    }
    assert AllSuit(s) && HostAndScheme(s);
  }

  lemma MatrixIsWellDesigned(s: Service)
    requires s == MATRIX
    ensures IsWellDesigned(s)
  {
    assert AllCompatible(s.fields) by {
      forall i, j | 0 <= i < j < |s.fields| ensures Compatible(s.fields[i], s.fields[j]) {
      }
    }
    assert AllSuit(s) && HostAndScheme(s);
  }

  lemma SmtpIsWellDesigned(s: Service)
    requires s == SMTP
    ensures IsWellDesigned(s)
  {
    assert AllCompatible(s.fields) by {
      forall i, j | 0 <= i < j < |s.fields| ensures Compatible(s.fields[i], s.fields[j]) {
      }
    }
    assert AllSuit(s) && HostAndScheme(s);
  }

  lemma GenericIsWellDesigned(s: Service)
    requires s == GENERIC
    ensures IsWellDesigned(s)
  {
    assert AllCompatible(s.fields) by {
      forall i, j | 0 <= i < j < |s.fields| ensures Compatible(s.fields[i], s.fields[j]) {
      }
    }
    assert AllSuit(s) && HostAndScheme(s);
  }

  lemma BarkIsWellDesigned(s: Service)
    requires s == BARK
    ensures IsWellDesigned(s)
  {
    assert AllCompatible(s.fields) by {
      forall i, j | 0 <= i < j < |s.fields| ensures Compatible(s.fields[i], s.fields[j]) {
      }
    }
    assert AllSuit(s) && HostAndScheme(s);
  }

  lemma MattermostIsWellDesigned(s: Service)
    requires s == MATTERMOST
    ensures IsWellDesigned(s)
  {
    assert AllCompatible(s.fields) by {
      forall i, j | 0 <= i < j < |s.fields| ensures Compatible(s.fields[i], s.fields[j]) {
      }
    }
    assert AllSuit(s) && HostAndScheme(s);
  }

  lemma RocketchatIsWellDesigned(s: Service)
    requires s == ROCKETCHAT
    ensures IsWellDesigned(s)
  {
    assert AllCompatible(s.fields) by {
      forall i, j | 0 <= i < j < |s.fields| ensures Compatible(s.fields[i], s.fields[j]) {
      }
    }
    assert AllSuit(s) && HostAndScheme(s);
  }

  lemma TeamsIsWellDesigned(s: Service)
    requires s == TEAMS
    ensures IsWellDesigned(s)
  {
    assert AllCompatible(s.fields) by {
      forall i, j | 0 <= i < j < |s.fields| ensures Compatible(s.fields[i], s.fields[j]) {
      }
    }
    assert AllSuit(s) && HostAndScheme(s);
  }

  lemma ZulipIsWellDesigned(s: Service)
    requires s == ZULIP
    ensures IsWellDesigned(s)
  {
    assert AllCompatible(s.fields) by {
      forall i, j | 0 <= i < j < |s.fields| ensures Compatible(s.fields[i], s.fields[j]) {
      }
    }
    assert AllSuit(s) && HostAndScheme(s);
  }

  lemma OpsgenieIsWellDesigned(s: Service)
    requires s == OPSGENIE
    ensures IsWellDesigned(s)
  {
    assert AllCompatible(s.fields) by {
      forall i, j | 0 <= i < j < |s.fields| ensures Compatible(s.fields[i], s.fields[j]) {
      }
    }
    assert AllSuit(s) && HostAndScheme(s);
  }

  lemma PushbulletIsWellDesigned(s: Service)
    requires s == PUSHBULLET
    ensures IsWellDesigned(s)
  {
    assert AllCompatible(s.fields) by {
      forall i, j | 0 <= i < j < |s.fields| ensures Compatible(s.fields[i], s.fields[j]) {
      }
    }
    assert AllSuit(s) && HostAndScheme(s);
  }

  lemma JoinIsWellDesigned(s: Service)
    requires s == JOIN
    ensures IsWellDesigned(s)
  {
    assert AllCompatible(s.fields) by {
      forall i, j | 0 <= i < j < |s.fields| ensures Compatible(s.fields[i], s.fields[j]) {
      }
    }
    assert AllSuit(s) && HostAndScheme(s);
  }

  lemma GooglechatIsWellDesigned(s: Service)
    requires s == GOOGLECHAT
    ensures IsWellDesigned(s)
  {
    assert AllCompatible(s.fields) by {
      forall i, j | 0 <= i < j < |s.fields| ensures Compatible(s.fields[i], s.fields[j]) {
      }
    }
    assert AllSuit(s) && HostAndScheme(s);
  }

  lemma IftttIsWellDesigned(s: Service)
    requires s == IFTTT
    ensures IsWellDesigned(s)
  {
    assert AllCompatible(s.fields) by {
      forall i, j | 0 <= i < j < |s.fields| ensures Compatible(s.fields[i], s.fields[j]) {
      }
    }
    assert AllSuit(s) && HostAndScheme(s);
  }

  lemma TableIsWellDesigned(s: Service)
    requires s in TABLE
    ensures IsWellDesigned(s)
  {
    if s == DISCORD {
      DiscordIsWellDesigned(s);
    } else if s == NTFY {
      NtfyIsWellDesigned(s);
    } else if s == SLACK {
      SlackIsWellDesigned(s);
    } else if s == TELEGRAM {
      TelegramIsWellDesigned(s);
    } else if s == GOTIFY {
      GotifyIsWellDesigned(s);
    } else if s == PUSHOVER {
      PushoverIsWellDesigned(s);
    } else if s == MATRIX {
      MatrixIsWellDesigned(s);
    } else if s == SMTP {
      SmtpIsWellDesigned(s);
    } else if s == GENERIC {
      GenericIsWellDesigned(s);
    } else if s == BARK {
      BarkIsWellDesigned(s);
    } else if s == MATTERMOST {
      MattermostIsWellDesigned(s);
    } else if s == ROCKETCHAT {
      RocketchatIsWellDesigned(s);
    } else if s == TEAMS {
      TeamsIsWellDesigned(s);
    } else if s == ZULIP {
      ZulipIsWellDesigned(s);
    } else if s == OPSGENIE {
      OpsgenieIsWellDesigned(s);
    } else if s == PUSHBULLET {
      PushbulletIsWellDesigned(s);
    } else if s == JOIN {
      JoinIsWellDesigned(s);
    } else if s == GOOGLECHAT {
      GooglechatIsWellDesigned(s);
    } else if s == IFTTT {
      IftttIsWellDesigned(s);
    }
  }
}
