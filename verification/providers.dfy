/**
 * The three channel providers. Each `send` validates the channel's address
 * parameter, shapes or truncates the entity's template parameters in place,
 * and hands the notification to the producer's topic for its channel. The
 * functions `EmailChecked`, `SmsChecked` and `PushChecked` say what one call
 * does to the row; each provider's `Send` is proved to do exactly that and to
 * publish only the rows they call `Ready`.
 */
module Providers {
  import opened Common
  import opened Entity
  import opened KafkaProducer

  /** What a provider's checks make of a row before anything is published. */
  datatype Checked =
    | Rejected(row: Notification)   // `send` returns false and publishes nothing
    | NullValue(row: Notification)  // `toString()` on a null parameter throws a NullPointerException
    | Ready(row: Notification)      // the row handed to the producer

  /** How `send` ends. */
  datatype SendOutcome = Returned(ok: bool) | ThrewNullPointer

  /** A permanent failure with message `m`: only status and error message change. */
  function PermanentlyFailed(n: Notification, m: string): Notification {
    n.(status := PermanentFailure, errorMessage := Some(m))
  }

  /**
   * `%s` of a parameter map: "{}" when it is empty. The entries of a
   * non-empty map are not rendered; their order is a hash map's.
   */
  function MapText(m: map<string, Value>): string {
    if |m| == 0 then "{}" else "{...}"
  }

  /**
   * `put(k, toString().substring(0, limit))` when the value under `k` is
   * longer than `limit` UTF-16 code units; every other entry, and a short value,
   * stays as it was.
   */
  function Truncated(p: map<string, Value>, k: string, limit: nat): (r: map<string, Value>)
    requires k in p ==> !p[k].Null?
    ensures r.Keys == p.Keys
    ensures forall k' :: k' in p && k' != k ==> r[k'] == p[k']
    ensures k in p ==> Text(r[k]) == Some(Truncate(Text(p[k]).value, limit))
    ensures k in p ==> (r[k] == p[k] <==> Utf16Length(Text(p[k]).value) <= limit)
  {
    if k in p && Utf16Length(Text(p[k]).value) > limit then p[k := Str(Truncate(Text(p[k]).value, limit))] else p
  }

  /** `setStatus(PERMANENT_FAILURE)` then `setErrorMessage(m)` on the entity. */
  method MarkPermanentlyFailed(e: NotificationEntity, m: string)
    modifies e
    ensures e.Row() == PermanentlyFailed(old(e.Row()), m)
  {
    e.SetStatus(PermanentFailure);
    e.SetErrorMessage(Some(m));
  }

  /** The in-place cut of the parameter `k` to its first `limit` UTF-16 code units, when it is longer. */
  method TruncateParam(e: NotificationEntity, k: string, limit: nat)
    requires e.templateParams.Some? && (k in e.TemplateParams() ==> !e.TemplateParams()[k].Null?)
    modifies e
    ensures e.Row() == old(e.Row()).(templateParams := Some(Truncated(old(e.TemplateParams()), k, limit)))
  {
    var p := e.TemplateParams();
    if k in p {
      var text := Text(p[k]).value;
      if Utf16Length(text) > limit {
        e.PutParam(k, Str(Truncate(text, limit)));
      }
    }
  }

  // ---------------------------------------------------------------- email

  const MaxSubjectLength := 255

  predicate IsAsciiAlnum(c: char) {
    'a' <= c <= 'z' || 'A' <= c <= 'Z' || '0' <= c <= '9'
  }

  /** The character class before the '@' in the address regex. */
  predicate IsLocalChar(c: char) {
    IsAsciiAlnum(c) || c in "_!#$%&'*+/=?`{|}~^.-"
  }

  /** The character class after the '@': letters, digits, '.' and '-'. */
  predicate IsDomainChar(c: char) {
    IsAsciiAlnum(c) || c == '.' || c == '-'
  }

  /** The address regex, matched against the whole string: local characters, '@', domain characters, neither side empty. */
  predicate MatchesEmailRegex(s: string) {
    exists i :: 0 < i < |s| - 1 && s[i] == '@'
      && (forall j :: 0 <= j < i ==> IsLocalChar(s[j]))
      && (forall j :: i < j < |s| ==> IsDomainChar(s[j]))
  }

  /**
   * An accepted address holds exactly one '@', and every '@' in it is the
   * split point: a non-empty run of local characters before it and a
   * non-empty run of domain characters after it.
   */
  lemma AcceptedAddressHasOneAt(s: string)
    requires MatchesEmailRegex(s)
    ensures multiset(s)['@'] == 1
    ensures forall j :: 0 <= j < |s| && s[j] == '@' ==>
      (0 < j < |s| - 1 && (forall k :: 0 <= k < j ==> IsLocalChar(s[k]))
       && (forall k :: j < k < |s| ==> IsDomainChar(s[k])))
  {
    var i :| 0 < i < |s| - 1 && s[i] == '@'
      && (forall j :: 0 <= j < i ==> IsLocalChar(s[j]))
      && (forall j :: i < j < |s| ==> IsDomainChar(s[j]));
    forall j | 0 <= j < |s| && s[j] == '@'
      ensures j == i
    {
    }
    assert s == s[..i] + [s[i]] + s[i + 1..];
    assert '@' !in s[..i] by {
      forall k | 0 <= k < i
        ensures s[..i][k] != '@'
      {
        assert IsLocalChar(s[k]);
      }
    }
    var domain := s[i + 1..];
    assert '@' !in domain by {
      forall k | 0 <= k < |domain|
        ensures domain[k] != '@'
      {
        assert domain[k] == s[i + 1 + k] && IsDomainChar(s[i + 1 + k]);
      }
    }
    assert multiset(s) == multiset(s[..i]) + multiset{'@'} + multiset(domain);
  }

  /**
   * The regex is looser than the addr-spec of RFC 5322 section 3.4.1: it
   * takes a local part with a leading dot or two dots in a row and a domain
   * that is a lone hyphen.
   */
  lemma RegexIsNotTheRfcGrammar()
    ensures MatchesEmailRegex("a..b@-")
    ensures MatchesEmailRegex(".a@b")
  {
    var s := "a..b@-";
    assert s[4] == '@' && (forall j :: 0 <= j < 4 ==> IsLocalChar(s[j]));
    var t := ".a@b";
    assert t[2] == '@' && (forall j :: 0 <= j < 2 ==> IsLocalChar(t[j]));
  }

  /** An address with two or more '@' is refused. */
  lemma SecondAtIsRefused(s: string)
    requires multiset(s)['@'] >= 2
    ensures !MatchesEmailRegex(s)
  {
    if MatchesEmailRegex(s) {
      AcceptedAddressHasOneAt(s);
    }
  }

  function MissingEmailMessage(n: Notification): string {
    "Missing email address in templateParams for notification " + OrNull(n.id) + ". templateParams: "
      + MapText(ParamsOf(n))
  }

  function InvalidEmailMessage(n: Notification, address: string): string {
    "Invalid email address format for notification " + OrNull(n.id) + ". Provided: " + address
  }

  /** The "subject" after `send`: a String longer than 255 UTF-16 code units is cut to its first 255; any other value is kept. */
  function SubjectTruncated(p: map<string, Value>): (r: map<string, Value>)
    ensures r.Keys == p.Keys
    ensures forall k :: k in p && k != "subject" ==> r[k] == p[k]
    ensures "subject" in p && p["subject"].Str? ==>
      r["subject"] == Str(Truncate(p["subject"].s, MaxSubjectLength))
    ensures "subject" in p && !p["subject"].Str? ==> r["subject"] == p["subject"]
  {
    if "subject" in p && p["subject"].Str? then Truncated(p, "subject", MaxSubjectLength) else p
  }

  /**
   * What the email `send` does to a row. A missing "email" key or an
   * address the regex refuses is a permanent failure with a message; a
   * null address throws; otherwise only the subject may change, and the
   * status is left alone.
   */
  function EmailChecked(n: Notification): (r: Checked)
    ensures var p := ParamsOf(n);
      r.Rejected? <==> "email" !in p || (!p["email"].Null? && !MatchesEmailRegex(Text(p["email"]).value))
    ensures r.NullValue? <==> "email" in ParamsOf(n) && ParamsOf(n)["email"].Null?
    ensures r.Rejected? ==>
      (r.row.status == PermanentFailure && r.row.errorMessage.Some?
       && r.row == n.(status := r.row.status, errorMessage := r.row.errorMessage))
    ensures r.NullValue? ==> r.row == n
    ensures r.Ready? ==> r.row == n.(templateParams := Some(SubjectTruncated(ParamsOf(n))))
  {
    var p := ParamsOf(n);
    if "email" !in p then Rejected(PermanentlyFailed(n, MissingEmailMessage(n)))
    else if p["email"].Null? then NullValue(n)
    else
      var address := Text(p["email"]).value;
      if !MatchesEmailRegex(address) then Rejected(PermanentlyFailed(n, InvalidEmailMessage(n, address)))
      else Ready(n.(templateParams := Some(SubjectTruncated(p))))
  }

  /** On the valid path the status, error message and every parameter but the subject are those of the input row. */
  lemma EmailValidPathKeepsStatus(n: Notification)
    requires EmailChecked(n).Ready?
    ensures var row := EmailChecked(n).row;
      row.status == n.status && row.errorMessage == n.errorMessage
      && ParamsOf(row).Keys == ParamsOf(n).Keys
      && (forall k :: k in ParamsOf(n) && k != "subject" ==> ParamsOf(row)[k] == ParamsOf(n)[k])
      && ("subject" in ParamsOf(n) && ParamsOf(n)["subject"].Str? ==>
            Utf16Length(ParamsOf(row)["subject"].s) <= MaxSubjectLength && ParamsOf(row)["subject"].s <= ParamsOf(n)["subject"].s)
  {
  }

  class EmailNotificationProvider {
    const producer: KafkaProducerService

    constructor (producer: KafkaProducerService)
      ensures this.producer == producer
    {
      this.producer := producer;
    }

    function Type(): NotificationType {
      Email
    }

    /** `send`: the checks of `EmailChecked`, then `sendToEmailTopic` of the row they leave when it is `Ready`. */
    method Send(e: NotificationEntity, ctx: SendContext) returns (r: SendOutcome)
      modifies e, producer
      ensures var c := EmailChecked(old(e.Row()));
        e.Row() == c.row
        && (c.Rejected? ==> r == Returned(false))
        && (c.NullValue? ==> r == ThrewNullPointer)
        && (!c.Ready? ==> producer.sent == old(producer.sent) && producer.pending == old(producer.pending)
                          && producer.errors == old(producer.errors))
        && (c.Ready? ==> r.Returned? && SentOnce(MessageFor(c.row, producer.topics.emailTopic, None), ctx, r.ok,
                                                 old(producer.sent), old(producer.pending), old(producer.errors),
                                                 producer.sent, producer.pending, producer.errors))
    {
      var c := ApplyEmailChecks(e);
      match c
      case Rejected(_) =>
        r := Returned(false);
      case NullValue(_) =>
        r := ThrewNullPointer;
      case Ready(row) =>
        var ok := producer.SendToEmailTopic(e.Row(), ctx);
        r := Returned(ok);
    }

    /** The checks at the head of `send`, as they change the entity: the verdict `EmailChecked` gives. */
    method ApplyEmailChecks(e: NotificationEntity) returns (c: Checked)
      modifies e
      ensures c == EmailChecked(old(e.Row())) && e.Row() == c.row
    {
      var n := e.Row();
      var p := e.TemplateParams();
      if "email" !in p {
        MarkPermanentlyFailed(e, MissingEmailMessage(n));
        return Rejected(e.Row());
      }
      if p["email"].Null? {
        return NullValue(n);
      }
      var address := Text(p["email"]).value;
      if !MatchesEmailRegex(address) {
        MarkPermanentlyFailed(e, InvalidEmailMessage(n, address));
        return Rejected(e.Row());
      }
      if "subject" in p && p["subject"].Str? {
        TruncateParam(e, "subject", MaxSubjectLength);
      }
      c := Ready(e.Row());
    }
  }

  // ---------------------------------------------------------------- SMS

  const SmsCharacterLimit := 160

  predicate IsDigit(c: char) {
    '0' <= c <= '9'
  }

  /** The phone regex: an optional '+', a digit 1-9, then 1 to 14 further ASCII digits. */
  predicate MatchesPhoneRegex(s: string) {
    var digits := if |s| > 0 && s[0] == '+' then s[1..] else s;
    2 <= |digits| <= 15 && '1' <= digits[0] <= '9' && forall j :: 0 <= j < |digits| ==> IsDigit(digits[j])
  }

  /**
   * An accepted number is 2 to 15 digits, the first not '0', with at most
   * one '+' and only in front.
   */
  lemma AcceptedNumberShape(s: string)
    requires MatchesPhoneRegex(s)
    ensures var d := if s[0] == '+' then 1 else 0;
      2 <= |s| - d <= 15 && '1' <= s[d] <= '9'
      && (forall j :: d <= j < |s| ==> IsDigit(s[j]))
      && multiset(s)['+'] == d
  {
    var d := if s[0] == '+' then 1 else 0;
    assert s == s[..d] + s[d..];
    assert '+' !in s[d..] by {
      forall k | 0 <= k < |s| - d
        ensures s[d..][k] != '+'
      {
        assert IsDigit(s[d..][k]);
      }
    }
    assert multiset(s) == multiset(s[..d]) + multiset(s[d..]);
  }

  lemma PhoneRegexExamples()
    ensures MatchesPhoneRegex("+14155552671") && MatchesPhoneRegex("12")
    ensures !MatchesPhoneRegex("+1") && !MatchesPhoneRegex("0123") && !MatchesPhoneRegex("++12")
    ensures !MatchesPhoneRegex("1234567890123456")
  {
    var d := "+14155552671"[1..];
    assert d == "14155552671";
    forall j | 0 <= j < |d|
      ensures IsDigit(d[j])
    {
    }
    var e := "12";
    forall j | 0 <= j < |e|
      ensures IsDigit(e[j])
    {
    }
    assert "++12"[1..] == "+12";
  }

  function MissingPhoneMessage(n: Notification): string {
    "Missing phone number in templateParams for notification " + OrNull(n.id) + ". templateParams: "
      + MapText(ParamsOf(n))
  }

  function InvalidPhoneMessage(n: Notification, number: string): string {
    "Invalid phone number format for notification " + OrNull(n.id) + ". Provided: " + number
  }

  /**
   * What the SMS `send` does to a row: a missing "phoneNumber" or a number
   * the regex refuses is a permanent failure; a null number or a null
   * "content" throws; otherwise content longer than 160 UTF-16 code units is
   * cut to its first 160 and nothing else changes.
   */
  function SmsChecked(n: Notification): (r: Checked)
    ensures var p := ParamsOf(n);
      r.Rejected? <==> "phoneNumber" !in p || (!p["phoneNumber"].Null? && !MatchesPhoneRegex(Text(p["phoneNumber"]).value))
    ensures var p := ParamsOf(n);
      r.Ready? <==>
        ("phoneNumber" in p && !p["phoneNumber"].Null? && MatchesPhoneRegex(Text(p["phoneNumber"]).value)
         && !("content" in p && p["content"].Null?))
    ensures r.Rejected? ==>
      (r.row.status == PermanentFailure && r.row.errorMessage.Some?
       && r.row == n.(status := r.row.status, errorMessage := r.row.errorMessage))
    ensures r.NullValue? ==> r.row == n
    ensures r.Ready? ==> r.row == n.(templateParams := Some(Truncated(ParamsOf(n), "content", SmsCharacterLimit)))
    ensures var p := ParamsOf(n);
      r.Ready? && "content" in p ==>
        "content" in ParamsOf(r.row) && Text(ParamsOf(r.row)["content"]) == Some(Truncate(Text(p["content"]).value, SmsCharacterLimit))
  {
    var p := ParamsOf(n);
    if "phoneNumber" !in p then Rejected(PermanentlyFailed(n, MissingPhoneMessage(n)))
    else if p["phoneNumber"].Null? then NullValue(n)
    else
      var number := Text(p["phoneNumber"]).value;
      if !MatchesPhoneRegex(number) then Rejected(PermanentlyFailed(n, InvalidPhoneMessage(n, number)))
      else if "content" in p && p["content"].Null? then NullValue(n)
      else Ready(n.(templateParams := Some(Truncated(p, "content", SmsCharacterLimit))))
  }

  /** Content of at most 160 UTF-16 code units, and every other parameter, reach the producer as they were. */
  lemma SmsShortContentUnchanged(n: Notification)
    requires SmsChecked(n).Ready?
    requires "content" in ParamsOf(n) ==> Utf16Length(Text(ParamsOf(n)["content"]).value) <= SmsCharacterLimit
    ensures SmsChecked(n).row == n
  {
    var p := ParamsOf(n);
    assert n.templateParams == Some(p);
  }

  class SmsNotificationProvider {
    const producer: KafkaProducerService

    constructor (producer: KafkaProducerService)
      ensures this.producer == producer
    {
      this.producer := producer;
    }

    function Type(): NotificationType {
      Sms
    }

    /** `send`: the checks of `SmsChecked`, then `sendToSmsTopic` of the row they leave when it is `Ready`. */
    method Send(e: NotificationEntity, ctx: SendContext) returns (r: SendOutcome)
      modifies e, producer
      ensures var c := SmsChecked(old(e.Row()));
        e.Row() == c.row
        && (c.Rejected? ==> r == Returned(false))
        && (c.NullValue? ==> r == ThrewNullPointer)
        && (!c.Ready? ==> producer.sent == old(producer.sent) && producer.pending == old(producer.pending)
                          && producer.errors == old(producer.errors))
        && (c.Ready? ==> r.Returned? && SentOnce(MessageFor(c.row, producer.topics.smsTopic, None), ctx, r.ok,
                                                 old(producer.sent), old(producer.pending), old(producer.errors),
                                                 producer.sent, producer.pending, producer.errors))
    {
      var c := ApplySmsChecks(e);
      match c
      case Rejected(_) =>
        r := Returned(false);
      case NullValue(_) =>
        r := ThrewNullPointer;
      case Ready(row) =>
        var ok := producer.SendToSmsTopic(e.Row(), ctx);
        r := Returned(ok);
    }

    /** The checks at the head of `send`, as they change the entity: the verdict `SmsChecked` gives. */
    method ApplySmsChecks(e: NotificationEntity) returns (c: Checked)
      modifies e
      ensures c == SmsChecked(old(e.Row())) && e.Row() == c.row
    {
      var n := e.Row();
      var p := e.TemplateParams();
      if "phoneNumber" !in p {
        MarkPermanentlyFailed(e, MissingPhoneMessage(n));
        return Rejected(e.Row());
      }
      if p["phoneNumber"].Null? {
        return NullValue(n);
      }
      var number := Text(p["phoneNumber"]).value;
      if !MatchesPhoneRegex(number) {
        MarkPermanentlyFailed(e, InvalidPhoneMessage(n, number));
        return Rejected(e.Row());
      }
      if "content" in p && p["content"].Null? {
        return NullValue(n);
      }
      TruncateParam(e, "content", SmsCharacterLimit);
      c := Ready(e.Row());
    }
  }

  // ---------------------------------------------------------------- push

  const MaxPayloadSize := 4096
  const SupportedPlatforms: set<string> := {"IOS", "ANDROID", "WEB"}

  /** The platform parameter when it is a String, else "UNKNOWN". */
  function Platform(p: map<string, Value>): string {
    if "platform" in p && p["platform"].Str? then p["platform"].s else "UNKNOWN"
  }

  /** The platform check: the upper-cased platform is one of the three supported ones. */
  predicate PlatformSupported(p: map<string, Value>) {
    UpperAscii(Platform(p)) in SupportedPlatforms
  }

  /** An absent or non-String platform is "UNKNOWN" and refused; letter case does not matter. */
  lemma PlatformExamples(p: map<string, Value>)
    ensures "platform" !in p ==> !PlatformSupported(p)
    ensures "platform" in p && !p["platform"].Str? ==> !PlatformSupported(p)
    ensures PlatformSupported(map["platform" := Str("ios")])
    ensures PlatformSupported(map["platform" := Str("Android")])
    ensures !PlatformSupported(map["platform" := Str("windows")])
  {
    assert UpperAscii("UNKNOWN") == "UNKNOWN";
    assert UpperAscii("ios") == "IOS";
    assert UpperAscii("Android") == "ANDROID";
    assert UpperAscii("windows")[0] == 'W' && |UpperAscii("windows")| == 7;
  }

  /** The APNS dictionary of an IOS payload. */
  function ApsPayload(p: map<string, Value>): Value {
    Obj(map["alert" := GetOrDefault(p, "title", Str("")), "sound" := Str("default")])
  }

  /** The web-push dictionary of a WEB payload. */
  function WebPayload(p: map<string, Value>): Value {
    Obj(map["title" := GetOrDefault(p, "title", Str("")), "body" := GetOrDefault(p, "body", Str(""))])
  }

  /**
   * `formatPlatformSpecificPayload` on values. It only adds the platform's
   * key when that key is absent, so no existing entry is ever overwritten:
   * IOS adds "aps", ANDROID adds "data" (a copy of the parameters as they
   * were), WEB adds "notification"; any other platform changes nothing.
   */
  function Formatted(p: map<string, Value>, platform: string): (r: map<string, Value>)
    ensures forall k :: k in p ==> k in r && r[k] == p[k]
    ensures r.Keys <= p.Keys + {"aps", "data", "notification"}
    ensures platform == "IOS" && "aps" !in p ==> r == p["aps" := ApsPayload(p)]
    ensures platform == "ANDROID" && "data" !in p ==> r == p["data" := Obj(p)]
    ensures platform == "WEB" && "notification" !in p ==> r == p["notification" := WebPayload(p)]
    ensures platform !in SupportedPlatforms ==> r == p
  {
    if platform == "IOS" && "aps" !in p then p["aps" := ApsPayload(p)]
    else if platform == "ANDROID" && "data" !in p then p["data" := Obj(p)]
    else if platform == "WEB" && "notification" !in p then p["notification" := WebPayload(p)]
    else p
  }

  /** `send` puts "priority" = "high" for a HIGH notification and leaves the key alone otherwise. */
  function WithPriority(p: map<string, Value>, priority: Priority): map<string, Value> {
    if priority == High then p["priority" := Str("high")] else p
  }

  /**
   * What the push `send` does to a row. A null token throws; a missing or
   * empty token, or an unsupported platform, returns false and leaves the
   * row, status included, as it was. Otherwise the payload is shaped for
   * the platform, then a null "content" throws, or content longer than 4096
   * UTF-16 code units is cut to its first 4096, and HIGH adds "priority" = "high".
   */
  function PushChecked(n: Notification): (r: Checked)
    ensures var p := ParamsOf(n);
      r.Rejected? <==> ("deviceToken" !in p || (!p["deviceToken"].Null? && |Text(p["deviceToken"]).value| == 0)
                        || (!p["deviceToken"].Null? && !PlatformSupported(p)))
    ensures var p := ParamsOf(n);
      r.Ready? <==>
        ("deviceToken" in p && !p["deviceToken"].Null? && |Text(p["deviceToken"]).value| > 0
         && PlatformSupported(p) && !("content" in p && p["content"].Null?))
    ensures r.Rejected? ==> r.row == n
    ensures r.row == n.(templateParams := r.row.templateParams)
    ensures var p := ParamsOf(n);
      r.Ready? ==>
        var q := ParamsOf(r.row);
        (forall k :: k in p && k != "content" && k != "priority" ==> k in q && q[k] == p[k])
        && ("content" in p ==> "content" in q && Text(q["content"]) == Some(Truncate(Text(p["content"]).value, MaxPayloadSize)))
        && (n.priority == High ==> "priority" in q && q["priority"] == Str("high"))
        && (n.priority != High ==> ("priority" in q <==> "priority" in p) && ("priority" in p ==> q["priority"] == p["priority"]))
  {
    var p := ParamsOf(n);
    if "deviceToken" in p && p["deviceToken"].Null? then NullValue(n)
    else if "deviceToken" !in p || |Text(p["deviceToken"]).value| == 0 then Rejected(n)
    else if !PlatformSupported(p) then Rejected(n)
    else
      var shaped := Formatted(p, UpperAscii(Platform(p)));
      if "content" in shaped && shaped["content"].Null? then NullValue(n.(templateParams := Some(shaped)))
      else Ready(n.(templateParams := Some(WithPriority(Truncated(shaped, "content", MaxPayloadSize), n.priority))))
  }

  /**
   * The payload a ready push row carries: the platform's entry is added when
   * it was absent (the APNS dictionary, a copy of the parameters, or the
   * web-push dictionary), and the only new keys are that entry and, for a
   * HIGH notification, "priority".
   */
  lemma PushPlatformPayload(n: Notification)
    requires PushChecked(n).Ready?
    ensures var p := ParamsOf(n);
      var platform := UpperAscii(Platform(p));
      var q := ParamsOf(PushChecked(n).row);
      (platform == "IOS" && "aps" !in p ==> "aps" in q && q["aps"] == ApsPayload(p))
      && (platform == "ANDROID" && "data" !in p ==> "data" in q && q["data"] == Obj(p))
      && (platform == "WEB" && "notification" !in p ==> "notification" in q && q["notification"] == WebPayload(p))
      && (forall k :: k in q && k !in p ==>
            (k == "aps" && platform == "IOS") || (k == "data" && platform == "ANDROID")
            || (k == "notification" && platform == "WEB") || (k == "priority" && n.priority == High))
  {
    var p := ParamsOf(n);
    var platform := UpperAscii(Platform(p));
    var shaped := Formatted(p, platform);
    assert ParamsOf(PushChecked(n).row) == WithPriority(Truncated(shaped, "content", MaxPayloadSize), n.priority);
  }

  /**
   * For ANDROID the "data" copy is taken before the content is truncated:
   * it holds the content as the caller sent it, while the top-level
   * "content" is cut to 4096 UTF-16 code units.
   */
  lemma AndroidDataPrecedesTruncation(n: Notification)
    requires PushChecked(n).Ready?
    requires UpperAscii(Platform(ParamsOf(n))) == "ANDROID" && "data" !in ParamsOf(n)
    ensures var p := ParamsOf(n);
      var q := ParamsOf(PushChecked(n).row);
      q["data"] == Obj(p)
      && ("content" in p ==> q["data"].fields["content"] == p["content"]
                             && Text(q["content"]) == Some(Truncate(Text(p["content"]).value, MaxPayloadSize)))
  {
    var p := ParamsOf(n);
    var shaped := Formatted(p, "ANDROID");
    assert shaped == p["data" := Obj(p)];
  }

  class PushNotificationProvider {
    const producer: KafkaProducerService

    constructor (producer: KafkaProducerService)
      ensures this.producer == producer
    {
      this.producer := producer;
    }

    function Type(): NotificationType {
      Push
    }

    /** `formatPlatformSpecificPayload`: the entity's parameters become `Formatted` of them. */
    method FormatPlatformSpecificPayload(e: NotificationEntity, platform: string)
      modifies e
      ensures e.TemplateParams() == Formatted(old(e.TemplateParams()), platform)
      ensures e.Row() == old(e.Row()).(templateParams := e.templateParams)
    {
      var p := e.TemplateParams();
      if platform == "IOS" {
        if "aps" !in p {
          e.PutParam("aps", ApsPayload(p));
        }
      } else if platform == "ANDROID" {
        if "data" !in p {
          e.PutParam("data", Obj(p));
        }
      } else if platform == "WEB" {
        if "notification" !in p {
          e.PutParam("notification", WebPayload(p));
        }
      }
    }

    /** `send`: the checks of `PushChecked`, then `sendToPushTopic` of the row they leave when it is `Ready`. */
    method Send(e: NotificationEntity, ctx: SendContext) returns (r: SendOutcome)
      modifies e, producer
      ensures var c := PushChecked(old(e.Row()));
        e.Row() == c.row
        && (c.Rejected? ==> r == Returned(false))
        && (c.NullValue? ==> r == ThrewNullPointer)
        && (!c.Ready? ==> producer.sent == old(producer.sent) && producer.pending == old(producer.pending)
                          && producer.errors == old(producer.errors))
        && (c.Ready? ==> r.Returned? && SentOnce(MessageFor(c.row, producer.topics.pushTopic, None), ctx, r.ok,
                                                 old(producer.sent), old(producer.pending), old(producer.errors),
                                                 producer.sent, producer.pending, producer.errors))
    {
      var c := ApplyPushChecks(e);
      match c
      case Rejected(_) =>
        r := Returned(false);
      case NullValue(_) =>
        r := ThrewNullPointer;
      case Ready(row) =>
        var ok := producer.SendToPushTopic(e.Row(), ctx);
        r := Returned(ok);
    }

    /** The checks and payload shaping at the head of `send`, as they change the entity: the verdict `PushChecked` gives. */
    method ApplyPushChecks(e: NotificationEntity) returns (c: Checked)
      modifies e
      ensures c == PushChecked(old(e.Row())) && e.Row() == c.row
    {
      var n := e.Row();
      var p := e.TemplateParams();
      if "deviceToken" in p && p["deviceToken"].Null? {
        return NullValue(n);
      }
      if "deviceToken" !in p || |Text(p["deviceToken"]).value| == 0 {
        return Rejected(n);
      }
      var platform := Platform(p);
      if UpperAscii(platform) !in SupportedPlatforms {
        return Rejected(n);
      }
      FormatPlatformSpecificPayload(e, UpperAscii(platform));
      var shaped := e.TemplateParams();
      if "content" in shaped && shaped["content"].Null? {
        return NullValue(e.Row());
      }
      TruncateParam(e, "content", MaxPayloadSize);
      if e.priority == High {
        e.PutParam("priority", Str("high"));
      }
      c := Ready(e.Row());
    }
  }
}
