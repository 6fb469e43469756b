/** Channel names of the event stream: printed by the publisher (workers/outbox_publisher.py) and the live feed
    (api/v1/live.py), parsed by the dispatcher (notifications/dispatcher.py). */
module Channels {
  import opened Prelude
  import opened Strings

  /** A UUID as its 32 hexadecimal digits. */
  type Uuid = s: seq<Nibble> | |s| == 32 witness seq(32, _ => 0)

  const DIGITS := "0123456789abcdef"

  function Hex(digits: seq<Nibble>): (s: string)
    ensures |s| == |digits|
    ensures forall i :: 0 <= i < |s| ==> s[i] == DIGITS[digits[i]]
  {
    if digits == [] then "" else [DIGITS[digits[0]]] + Hex(digits[1..])
  }

  /** str(uuid): groups of 8, 4, 4, 4 and 12 digits. */
  function Print(u: Uuid): string {
    Dash(Hex(u[..8]), Dash(Hex(u[8..12]), Dash(Hex(u[12..16]), Dash(Hex(u[16..20]), Hex(u[20..])))))
  }

  function Dash(a: string, b: string): string { a + ['-'] + b }

  /* ---------- UUID(text) ---------- */

  const SPACES := " \t\n\r\U{0b}\U{0c}"

  /** Digits with single underscores between them, as int() takes them. */
  function Digits(s: string): Option<seq<Nibble>> {
    if s == "" then None
    else if HexValue(s[0]).None? then None
    else if |s| == 1 then Some([HexValue(s[0]).value])
    else
      var rest := Digits(if s[1] == '_' then s[2..] else s[1..]);
      if rest.None? then None else Some([HexValue(s[0]).value] + rest.value)
  }

  /** int(text, 16): spaces around, a sign, the prefix 0x; what follows the prefix may start with an underscore. */
  function IntBase16(s: string): Option<seq<Nibble>> {
    var t := Strip(s, SPACES);
    var u := if t != "" && t[0] == '+' then t[1..] else t;
    if |u| >= 2 && u[0] == '0' && u[1] in "xX"
    then Digits(if |u| >= 3 && u[2] == '_' then u[3..] else u[2..])
    else Digits(u)
  }

  function Padded(digits: seq<Nibble>): seq<Nibble>
    requires |digits| <= 32
  {
    seq(32 - |digits|, _ => 0) + digits
  }

  function Parse(text: string): Option<Uuid> {
    var hex := Without(Strip(Without(Without(text, "urn:"), "uuid:"), "{}"), "-");
    if |hex| != 32 then None
    else
      var digits := IntBase16(hex);
      if digits.None? || |digits.value| > 32 then None else Some(Padded(digits.value))
  }

  lemma HexHas(digits: seq<Nibble>, c: char)
    requires c in Hex(digits)
    ensures c in DIGITS
  {
  }

  lemma {:induction false} DigitsOfHex(digits: seq<Nibble>)
    requires digits != []
    ensures Digits(Hex(digits)) == Some(digits)
  {
    var s := Hex(digits);
    assert HexValue(s[0]) == Some(digits[0]);
    assert digits == [digits[0]] + digits[1..];
    if |digits| == 1 {
      assert digits == [digits[0]];
    } else {
      DigitsOfHex(digits[1..]);
      assert s[1..] == Hex(digits[1..]);
      HexHas(digits, s[1]);
      assert forall c :: c in DIGITS ==> c != '_';
      assert s[1] != '_';
      assert Digits(s[1..]) == Some(digits[1..]);
    }
  }

  lemma StripNothing(s: string, chars: string)
    requires s != "" && s[0] !in chars && s[|s| - 1] !in chars
    ensures Strip(s, chars) == s
  {
  }

  lemma {:induction false} HexConcat(a: seq<Nibble>, b: seq<Nibble>)
    ensures Hex(a + b) == Hex(a) + Hex(b)
  {
    var l, r := Hex(a + b), Hex(a) + Hex(b);
    assert forall i :: 0 <= i < |l| ==> l[i] == r[i];
  }

  lemma DashGoes(digits: seq<Nibble>, t: string)
    ensures Without(Dash(Hex(digits), t), "-") == Hex(digits) + Without(t, "-")
  {
    hide Without;
    assert forall x :: x in DIGITS ==> x != '-';
    WithoutOneChar(Hex(digits), t, '-');
  }

  lemma LastGroupStays(digits: seq<Nibble>)
    ensures Without(Hex(digits), "-") == Hex(digits)
  {
    hide Without;
    assert forall x :: x in DIGITS ==> x != '-';
    WithoutAbsent(Hex(digits), "-");
  }

  lemma DashesGo(u: Uuid)
    ensures Without(Print(u), "-") == Hex(u)
  {
    hide Without, Hex, Dash;
    var tail := LastGroups(u[12..16], u[16..20], u[20..]);
    var w := FirstGroups(u[..8], u[8..12], u[12..16] + (u[16..20] + u[20..]), tail);
    assert u == u[..8] + (u[8..12] + (u[12..16] + (u[16..20] + u[20..])));
  }

  lemma FirstGroups(a: seq<Nibble>, b: seq<Nibble>, c: seq<Nibble>, tail: string) returns (w: string)
    requires Without(tail, "-") == Hex(c)
    ensures w == Dash(Hex(a), Dash(Hex(b), tail))
    ensures Without(w, "-") == Hex(a + (b + c))
  {
    hide Without, Hex, Dash;
    DashGoes(b, tail);
    HexConcat(b, c);
    DashGoes(a, Dash(Hex(b), tail));
    HexConcat(a, b + c);
    w := Dash(Hex(a), Dash(Hex(b), tail));
  }

  lemma LastGroups(c: seq<Nibble>, d: seq<Nibble>, e: seq<Nibble>) returns (w: string)
    ensures w == Dash(Hex(c), Dash(Hex(d), Hex(e)))
    ensures Without(w, "-") == Hex(c + (d + e))
  {
    hide Without, Hex, Dash;
    LastGroupStays(e);
    DashGoes(d, Hex(e));
    HexConcat(d, e);
    DashGoes(c, Dash(Hex(d), Hex(e)));
    HexConcat(c, d + e);
    w := Dash(Hex(c), Dash(Hex(d), Hex(e)));
  }

  lemma PrintCharacters(u: Uuid, c: char)
    ensures c in Print(u) ==> c in DIGITS || c == '-'
  {
  }

  /** The text of a UUID: 36 characters, dashes after 8, 12, 16 and 20 digits, and the digits in order. */
  lemma PrintShape(u: Uuid)
    ensures |Print(u)| == 36
    ensures forall i :: 0 <= i < 36 && (i == 8 || i == 13 || i == 18 || i == 23) ==> Print(u)[i] == '-'
    ensures forall i :: 0 <= i < 32 ==>
              Print(u)[i + (if i < 8 then 0 else if i < 12 then 1 else if i < 16 then 2 else if i < 20 then 3 else 4)]
              == "0123456789abcdef"[u[i]]
  {
  }

  lemma PrintEnds(u: Uuid)
    ensures |Print(u)| >= 36 && Print(u)[0] in DIGITS && Print(u)[|Print(u)| - 1] in DIGITS
  {
    var w := Dash(Hex(u[8..12]), Dash(Hex(u[12..16]), Dash(Hex(u[16..20]), Hex(u[20..]))));
    assert Print(u) == Dash(Hex(u[..8]), w);
    assert w[|w| - 1] == Hex(u[20..])[11];
  }

  lemma DigitIsPlain(c: char)
    requires c in DIGITS
    ensures c !in SPACES && c != '+' && c !in "xX" && c !in "{}"
  {
  }

  lemma IntOfHex(u: Uuid)
    ensures IntBase16(Hex(u)) == Some(u)
  {
    hide Digits, Hex, Strip;
    var h := Hex(u);
    assert h[0] == DIGITS[u[0]] && h[1] == DIGITS[u[1]] && h[31] == DIGITS[u[31]];
    DigitIsPlain(h[0]);
    DigitIsPlain(h[1]);
    DigitIsPlain(h[31]);
    StripNothing(h, SPACES);
    DigitsOfHex(u);
  }

  /** Every printed UUID parses back to itself. */
  lemma ParseOfPrint(u: Uuid)
    ensures Parse(Print(u)) == Some(u)
  {
    hide Without, Hex, Print, IntBase16, Strip;
    var s := Print(u);
    PrintCharacters(u, 'u');
    WithoutAbsent(s, "urn:");
    WithoutAbsent(s, "uuid:");
    PrintEnds(u);
    DigitIsPlain(s[0]);
    DigitIsPlain(s[|s| - 1]);
    StripNothing(s, "{}");
    DashesGo(u);
    IntOfHex(u);
    assert Padded(u) == u;
  }

  /* ---------- channels ---------- */

  const PREFIX := "adhkar.events."

  function Channel(org: Option<Uuid>): string { PREFIX + if org.Some? then Print(org.value) else "global" }

  /** channel.rsplit(".", 1)[-1]. */
  function LastSegment(s: string): string {
    if s == "" || s[|s| - 1] == '.' then "" else LastSegment(s[..|s| - 1]) + [s[|s| - 1]]
  }

  function OrgOfChannel(channel: string): Option<Uuid> { Parse(LastSegment(channel)) }

  lemma {:induction false} LastSegmentAfterDot(p: string, t: string)
    requires p != "" && p[|p| - 1] == '.' && '.' !in t
    ensures LastSegment(p + t) == t
  {
    var s := p + t;
    if t == "" {
      assert s == p;
    } else {
      var n := |t| - 1;
      assert s[|s| - 1] == t[n] && t[n] in t;
      assert s[..|s| - 1] == p + t[..n];
      LastSegmentAfterDot(p, t[..n]);
      assert t == t[..n] + [t[n]];
    }
  }

  /** What the dispatcher reads from a channel name is the organization the publisher wrote into it. */
  lemma ChannelRoundTrip(org: Option<Uuid>)
    ensures OrgOfChannel(Channel(org)) == org
  {
    var t := if org.Some? then Print(org.value) else "global";
    assert '.' !in t by { if org.Some? && '.' in t { PrintCharacters(org.value, '.'); } }
    LastSegmentAfterDot(PREFIX, t);
    if org.Some? {
      ParseOfPrint(org.value);
    } else {
      GlobalIsNoUuid();
    }
  }

  lemma GlobalIsNoUuid()
    ensures Parse("global") == None
  {
    WithoutAbsent("global", "urn:");
    WithoutAbsent("global", "uuid:");
    StripNothing("global", "{}");
    WithoutAbsent("global", "-");
  }

  /** Two scopes never share a channel. */
  lemma ChannelIsInjective(a: Option<Uuid>, b: Option<Uuid>)
    requires Channel(a) == Channel(b)
    ensures a == b
  {
    ChannelRoundTrip(a);
    ChannelRoundTrip(b);
  }
}
