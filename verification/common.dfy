/**
 * Shared vocabulary of the notification service: the enums, the open
 * `templateParams` value type, the persisted notification row, and the few
 * java.lang.String operations the core relies on (decimal formatting, ASCII
 * case mapping, blank tests, truncation).
 */
module Common {

  datatype Option<T> = None | Some(value: T)

  datatype NotificationType = Email | Sms | Push

  datatype Priority = Low | Medium | High

  datatype Status = Pending | Retrying | Sent | Failed | PermanentFailure

  /** `Enum.toString()` of a notification type. */
  function TypeName(t: NotificationType): string {
    match t
    case Email => "EMAIL"
    case Sms => "SMS"
    case Push => "PUSH"
  }

  /** `Enum.toString()` of a priority. */
  function PriorityName(p: Priority): string {
    match p
    case Low => "LOW"
    case Medium => "MEDIUM"
    case High => "HIGH"
  }

  /**
   * A value stored under a key of the open `Map<String, Object>` of template
   * parameters. A JSON object sent by a caller arrives as a `Scalar` carrying
   * its text; `Obj` is a nested map built by the push provider.
   */
  datatype Value =
    | Null
    | Str(s: string)
    | Scalar(text: string)
    | Obj(fields: map<string, Value>)

  /** `Object.toString()` of a value; `None` is the NullPointerException of calling it on null. */
  function Text(v: Value): (r: Option<string>)
    ensures r.None? <==> v.Null?
    ensures v.Str? ==> r == Some(v.s)
  {
    match v
    case Null => None
    case Str(s) => Some(s)
    case Scalar(t) => Some(t)
    case Obj(_) => Some("{...}")
  }

  /** The persisted notification row; Java's nullable columns are `Option`s. */
  datatype Notification = Notification(
    id: Option<string>,
    userId: string,
    notificationType: NotificationType,
    templateId: string,
    templateParams: Option<map<string, Value>>,
    priority: Priority,
    correlationId: Option<string>,
    status: Status,
    createdAt: Option<int>,
    updatedAt: Option<int>,
    lastAttemptedAt: Option<int>,
    deliveryAttempts: int,
    errorMessage: Option<string>,
    idempotencyKey: Option<string>,
    version: Option<int>)

  /** The template parameters as `getTemplateParams` returns them: never null, an empty map for a null column. */
  function ParamsOf(n: Notification): (r: map<string, Value>)
    ensures n.templateParams.None? ==> r == map[]
    ensures n.templateParams.Some? ==> r == n.templateParams.value
  {
    if n.templateParams.None? then map[] else n.templateParams.value
  }

  /** `Map.getOrDefault`: the stored value (even a null one) when the key is present, else the default. */
  function GetOrDefault(m: map<string, Value>, k: string, d: Value): (r: Value)
    ensures k in m ==> r == m[k]
    ensures k !in m ==> r == d
  {
    if k in m then m[k] else d
  }

  // ---------------------------------------------------------------- text

  function DigitChar(d: nat): char
    requires d < 10
  {
    ('0' as int + d) as char
  }

  /** The value of a decimal digit character. */
  function DigitValue(c: char): int {
    c as int - '0' as int
  }

  /** The number a string of decimal digits denotes, read left to right. */
  function DecimalValue(s: string): int {
    if |s| == 0 then 0 else 10 * DecimalValue(s[..|s| - 1]) + DigitValue(s[|s| - 1])
  }

  /** `String.valueOf` of a nullable string, as `+` and `%s` print it. */
  function OrNull(s: Option<string>): string {
    if s.Some? then s.value else "null"
  }

  /** Decimal text of a natural number, as `%d` prints it. */
  function NatToString(n: nat): (r: string)
    ensures |r| >= 1
    ensures forall i :: 0 <= i < |r| ==> '0' <= r[i] <= '9'
    ensures DecimalValue(r) == n
    ensures r[0] == '0' <==> n == 0
    ensures n == 0 ==> r == "0"
  {
    if n < 10 then [DigitChar(n)]
    else
      var prefix := NatToString(n / 10);
      assert (prefix + [DigitChar(n % 10)])[..|prefix|] == prefix;
      prefix + [DigitChar(n % 10)]
  }

  /** Decimal text of an integer, as `%d` prints it. */
  function IntToString(n: int): (r: string)
    ensures |r| >= 1
    ensures r[0] == '-' <==> n < 0
    ensures forall i :: 0 < i < |r| ==> '0' <= r[i] <= '9'
    ensures var digits := if n < 0 then r[1..] else r;
      |digits| >= 1 && DecimalValue(digits) == (if n < 0 then -n else n) && (digits[0] == '0' <==> n == 0)
  {
    if n < 0 then "-" + NatToString(-n) else NatToString(n)
  }

  /** `String.toLowerCase()` restricted to ASCII letters; other characters are kept. */
  function LowerAscii(s: string): (r: string)
    ensures |r| == |s|
    ensures forall i :: 0 <= i < |s| ==> !('A' <= r[i] <= 'Z')
    ensures forall i :: 0 <= i < |s| && 'A' <= s[i] <= 'Z' ==> r[i] as int == s[i] as int + 32
    ensures forall i :: 0 <= i < |s| && !('A' <= s[i] <= 'Z') ==> r[i] == s[i]
  {
    seq(|s|, i requires 0 <= i < |s| =>
      if 'A' <= s[i] <= 'Z' then (s[i] as int - 'A' as int + 'a' as int) as char else s[i])
  }

  /**
   * `Character.toUpperCase` for the characters whose upper case is an ASCII
   * letter: a-z, the dotless i (U+0131, to 'I') and the long s (U+017F, to 'S').
   */
  function UpperChar(c: char): char {
    if 'a' <= c <= 'z' then (c as int - 'a' as int + 'A' as int) as char
    else if c == '\U{0131}' then 'I'
    else if c == '\U{017F}' then 'S'
    else c
  }

  function UpperAscii(s: string): (r: string)
    ensures |r| == |s|
    ensures forall i :: 0 <= i < |s| ==> r[i] == UpperChar(s[i])
  {
    seq(|s|, i requires 0 <= i < |s| => UpperChar(s[i]))
  }

  /** `Character.isWhitespace`: the characters `String.isBlank` skips. */
  predicate IsJavaWhitespace(c: char) {
    c == ' ' || c == '\t' || c == '\n' || c == '\U{000B}' || c == '\U{000C}' || c == '\r'
    || ('\U{001C}' <= c <= '\U{001F}')
    || c == '\U{1680}' || ('\U{2000}' <= c <= '\U{2006}') || ('\U{2008}' <= c <= '\U{200A}')
    || c == '\U{2028}' || c == '\U{2029}' || c == '\U{205F}' || c == '\U{3000}'
  }

  /** `String.isBlank()`. */
  predicate IsBlank(s: string) {
    forall i :: 0 <= i < |s| ==> IsJavaWhitespace(s[i])
  }

  /** `s.trim().isEmpty()`: `trim` strips every character at or below U+0020. */
  predicate TrimsToEmpty(s: string) {
    forall i :: 0 <= i < |s| ==> s[i] <= ' '
  }

  /**
   * `isBlank` and `trim().isEmpty()` agree on ordinary white space but not
   * beyond it: the ideographic space is blank yet survives `trim`, and a NUL
   * is trimmed away yet is not blank.
   */
  lemma BlankAndTrimDisagree()
    ensures IsBlank(" \t\n") && TrimsToEmpty(" \t\n")
    ensures IsBlank("\U{3000}") && !TrimsToEmpty("\U{3000}")
    ensures TrimsToEmpty("\U{0000}") && !IsBlank("\U{0000}")
  {
    assert "\U{3000}"[0] == '\U{3000}';
    assert "\U{0000}"[0] == '\U{0000}';
  }

  /**
   * The UTF-16 code units Java stores for one character: a character above
   * U+FFFF is a surrogate pair.
   */
  function Utf16Units(c: char): nat {
    if c as int > 0xFFFF then 2 else 1
  }

  /** `String.length()`: the number of UTF-16 code units. */
  function Utf16Length(s: string): (n: nat)
    ensures |s| <= n <= 2 * |s|
    ensures n == |s| <==> forall i :: 0 <= i < |s| ==> Utf16Units(s[i]) == 1
    ensures n == 2 * |s| <==> forall i :: 0 <= i < |s| ==> Utf16Units(s[i]) == 2
  {
    if |s| == 0 then 0 else Utf16Units(s[0]) + Utf16Length(s[1..])
  }

  /** UTF-16 length adds up over concatenation. */
  lemma {:induction false} Utf16LengthAppend(s: string, t: string)
    ensures Utf16Length(s + t) == Utf16Length(s) + Utf16Length(t)
  {
    if |s| > 0 {
      assert (s + t)[1..] == s[1..] + t;
      Utf16LengthAppend(s[1..], t);
    } else {
      assert s + t == t;
    }
  }

  /**
   * The longest prefix of `s` that fits in `limit` UTF-16 code units: the
   * characters before the cut, and the next one does not fit.
   */
  function Utf16Prefix(s: string, limit: nat): (r: string)
    ensures r <= s && Utf16Length(r) <= limit
    ensures |r| == |s| || Utf16Length(r) + Utf16Units(s[|r|]) > limit
    ensures Utf16Length(s) > limit ==> |r| < |s|
  {
    if |s| == 0 || Utf16Units(s[0]) > limit then ""
    else
      var rest := Utf16Prefix(s[1..], limit - Utf16Units(s[0]));
      assert Utf16Length([s[0]] + rest) == Utf16Units(s[0]) + Utf16Length(rest) by {
        assert ([s[0]] + rest)[1..] == rest;
      }
      [s[0]] + rest
  }

  /**
   * `s.length() > limit ? s.substring(0, limit) : s`, with `length` and
   * `substring` counting UTF-16 code units. The result is exactly `limit`
   * units long unless the cut falls inside a surrogate pair; Java then keeps
   * a lone high surrogate, which a string of characters cannot hold, and the
   * model drops the whole pair, one unit short.
   */
  function Truncate(s: string, limit: nat): (r: string)
    ensures Utf16Length(r) <= limit && r <= s
    ensures Utf16Length(s) <= limit ==> r == s
    ensures Utf16Length(s) > limit ==>
      |r| < |s| && (Utf16Length(r) == limit || (Utf16Length(r) + 1 == limit && Utf16Units(s[|r|]) == 2))
  {
    if Utf16Length(s) > limit then Utf16Prefix(s, limit) else s
  }

  /** On text without characters above U+FFFF the cut is the plain prefix of `limit` characters. */
  lemma {:induction false} BmpTruncateIsPrefix(s: string, limit: nat)
    requires forall i :: 0 <= i < |s| ==> s[i] as int <= 0xFFFF
    ensures Truncate(s, limit) == if |s| > limit then s[..limit] else s
  {
    assert Utf16Length(s) == |s|;
    if |s| > limit {
      var r := Truncate(s, limit);
      assert r == s[..|r|];
      assert forall i :: 0 <= i < |r| ==> Utf16Units(r[i]) == 1;
    }
  }

  /** Characters above U+FFFF count twice: 100 of them are 200 units, and a 160-unit cut keeps 80. */
  lemma SupplementaryCharactersCountTwice()
    ensures var s := seq(100, i => '\U{1F600}');
      Utf16Length(s) == 200 && Truncate(s, 160) == s[..80]
  {
    var s := seq(100, i => '\U{1F600}');
    var r := Truncate(s, 160);
    assert forall i :: 0 <= i < |r| ==> r[i] == s[i];
    assert Utf16Length(r) == 2 * |r|;
    assert r == s[..|r|];
  }
}
