/**
 * Error texts with a quoted name in them, and what a substring search for a fixed phrase finds
 * in such a text.  `printable` is Unicode printability beyond ASCII, which is left open.
 */
module ErrorText {
  import opened Prelude
  import opened Text
  import opened ManagerMemory

  // -------------------------------------------------------------- %q

  const HEX := "0123456789abcdef"

  function Hex(n: nat, width: nat): (s: string)
    ensures |s| == width
    ensures forall c | c in s :: c in HEX
  {
    if width == 0 then "" else Hex(n / 16, width - 1) + [HEX[n % 16]]
  }

  predicate IsPrint(c: char, printable: char -> bool) {
    if c as int < 0x80 then ' ' <= c <= '~' else printable(c)
  }

  /** One character as `%q` writes it between the quotation marks. */
  function EscapeChar(c: char, printable: char -> bool): string {
    if c == '"' || c == '\\' then ['\\', c]
    else if IsPrint(c, printable) then [c]
    else if c as int == 7 then "\\a"
    else if c as int == 8 then "\\b"
    else if c as int == 12 then "\\f"
    else if c == '\n' then "\\n"
    else if c == '\r' then "\\r"
    else if c == '\t' then "\\t"
    else if c as int == 11 then "\\v"
    else if c as int < 0x80 then "\\x" + Hex(c as int, 2)
    else if c as int < 0x10000 then "\\u" + Hex(c as int, 4)
    else "\\U" + Hex(c as int, 8)
  }

  function Escape(s: string, printable: char -> bool): string {
    if s == "" then "" else EscapeChar(s[0], printable) + Escape(s[1..], printable)
  }

  function Quote(s: string, printable: char -> bool): string {
    "\"" + Escape(s, printable) + "\""
  }

  // -------------------------------------------------------------- reading %q back

  function HexValue(c: char): nat {
    if '0' <= c <= '9' then c as int - '0' as int
    else if 'a' <= c <= 'f' then c as int - 'a' as int + 10
    else 0
  }

  function ParseHex(s: string): nat {
    if s == "" then 0 else 16 * ParseHex(s[..|s| - 1]) + HexValue(s[|s| - 1])
  }

  function Power16(width: nat): nat {
    if width == 0 then 1 else 16 * Power16(width - 1)
  }

  lemma {:induction false} HexRoundTrip(n: nat, width: nat)
    requires n < Power16(width)
    ensures ParseHex(Hex(n, width)) == n
  {
    if width > 0 {
      HexRoundTrip(n / 16, width - 1);
      var front := Hex(n / 16, width - 1);
      assert (front + [HEX[n % 16]])[..|front|] == front;
      HexDigit(n % 16);
    }
  }

  lemma HexDigit(d: nat)
    requires d < 16
    ensures HexValue(HEX[d]) == d
  {
  }

  /** The character with this code, if there is one. */
  function CharOf(n: nat): char {
    if n < 0xD800 || 0xE000 <= n < 0x11_0000 then n as char else '?'
  }

  /** The character that a backslash and `c` stand for, when no digits follow. */
  function Short(c: char): char {
    match c
    case 'a' => 7 as char
    case 'b' => 8 as char
    case 'f' => 12 as char
    case 'n' => '\n'
    case 'r' => '\r'
    case 't' => '\t'
    case 'v' => 11 as char
    case _ => c
  }

  /** How many digits follow a backslash and `c`. */
  function Digits(c: char): nat {
    match c
    case 'x' => 2
    case 'u' => 4
    case 'U' => 8
    case _ => 0
  }

  /** The text between the quotation marks, read back. */
  function Unescape(s: string): string {
    if s == "" then ""
    else if s[0] != '\\' || |s| == 1 then [s[0]] + Unescape(s[1..])
    else if Digits(s[1]) == 0 || |s| < 2 + Digits(s[1]) then [Short(s[1])] + Unescape(s[2..])
    else [CharOf(ParseHex(s[2..2 + Digits(s[1])]))] + Unescape(s[2 + Digits(s[1])..])
  }

  /** One escaped character in front is read back first. */
  lemma UnescapePlain(c: char, rest: string)
    requires c != '\\'
    ensures Unescape([c] + rest) == [c] + Unescape(rest)
  {
    assert ([c] + rest)[1..] == rest;
  }

  lemma UnescapeShort(c: char, rest: string)
    requires Digits(c) == 0
    ensures Unescape(['\\', c] + rest) == [Short(c)] + Unescape(rest)
  {
    assert (['\\', c] + rest)[2..] == rest;
  }

  lemma UnescapeHex(k: char, digits: string, rest: string)
    requires Digits(k) == |digits| > 0
    ensures Unescape(['\\', k] + digits + rest) == [CharOf(ParseHex(digits))] + Unescape(rest)
  {
    var s := ['\\', k] + digits + rest;
    assert s[2..2 + |digits|] == digits && s[2 + |digits|..] == rest;
  }

  lemma UnescapeCode(c: char, k: char, rest: string)
    requires (k == 'x' && c as int < 0x80) || (k == 'u' && c as int < 0x10000) || k == 'U'
    ensures Unescape(['\\', k] + Hex(c as int, Digits(k)) + rest) == [c] + Unescape(rest)
  {
    assert Power16(2) == 0x100 && Power16(4) == 0x10000 && Power16(8) == 0x1_0000_0000;
    HexRoundTrip(c as int, Digits(k));
    UnescapeHex(k, Hex(c as int, Digits(k)), rest);
  }

  lemma UnescapeOne(c: char, printable: char -> bool, rest: string)
    ensures Unescape(EscapeChar(c, printable) + rest) == [c] + Unescape(rest)
  {
    if c == '"' || c == '\\' {
      UnescapeShort(c, rest);
    } else if IsPrint(c, printable) {
      UnescapePlain(c, rest);
    } else if c as int in {7, 8, 9, 10, 11, 12, 13} {
      UnescapeControl(c, printable, rest);
    } else {
      var k := if c as int < 0x80 then 'x' else if c as int < 0x10000 then 'u' else 'U';
      UnescapeCode(c, k, rest);
      assert EscapeChar(c, printable) == ['\\', k] + Hex(c as int, Digits(k));
    }
  }

  lemma UnescapeControl(c: char, printable: char -> bool, rest: string)
    requires c as int in {7, 8, 9, 10, 11, 12, 13}
    ensures Unescape(EscapeChar(c, printable) + rest) == [c] + Unescape(rest)
  {
    var e := EscapeChar(c, printable);
    assert e == ['\\', e[1]] && Short(e[1]) == c;
    UnescapeShort(e[1], rest);
  }

  /** Reading a quoted name back gives the name, whatever is printable. */
  lemma {:induction false} EscapeRoundTrip(s: string, printable: char -> bool)
    ensures Unescape(Escape(s, printable)) == s
  {
    if s != "" {
      UnescapeOne(s[0], printable, Escape(s[1..], printable));
      EscapeRoundTrip(s[1..], printable);
    }
  }

  /** Different names are quoted differently, so a message identifies the tunnel it is about. */
  lemma QuoteIsInjective(a: string, b: string, printable: char -> bool)
    requires Quote(a, printable) == Quote(b, printable)
    ensures a == b
  {
    assert Quote(a, printable)[1..|Quote(a, printable)| - 1] == Escape(a, printable);
    assert Quote(b, printable)[1..|Quote(b, printable)| - 1] == Escape(b, printable);
    EscapeRoundTrip(a, printable);
    EscapeRoundTrip(b, printable);
  }

  // -------------------------------------------------------------- texts

  function StatusText(s: Status): string {
    match s
    case Disconnected => "disconnected"
    case Connecting => "connecting"
    case Connected => "connected"
    case Error => "error"
  }

  /** What follows the quoted name. */
  function Complaint(e: OpError): string {
    match e
    case NotFound(_) => " not found"
    case AlreadyActive(_, status) => " is already " + StatusText(status)
    case NotRunning(_) => " is not running"
    case NotEphemeral(_) => " is not ephemeral"
    case StillActive(_) => " is still active"
  }

  function ErrorMessage(e: OpError, printable: char -> bool): string {
    "tunnel " + Quote(e.name, printable) + Complaint(e)
  }

  /** What each operation refuses, and with which words. */
  lemma RefusalTexts(m: Memory, name: string, printable: char -> bool)
    requires Sound(m)
    ensures var e := StartError(m, name);
            if name !in m.index then e.Some? && ErrorMessage(e.value, printable) == "tunnel " + Quote(name, printable) + " not found"
            else match m.objs[m.index[name]].status
              case Connecting => e.Some? && ErrorMessage(e.value, printable) == "tunnel " + Quote(name, printable) + " is already connecting"
              case Connected => e.Some? && ErrorMessage(e.value, printable) == "tunnel " + Quote(name, printable) + " is already connected"
              case _ => e == None
    ensures var e := StopError(m, name);
            if name !in m.index then e.Some? && ErrorMessage(e.value, printable) == "tunnel " + Quote(name, printable) + " not found"
            else if m.objs[m.index[name]].status in {Connecting, Connected} then e == None
            else e.Some? && ErrorMessage(e.value, printable) == "tunnel " + Quote(name, printable) + " is not running"
    ensures var e := UnregisterError(m, name);
            if name !in m.index then e.Some? && ErrorMessage(e.value, printable) == "tunnel " + Quote(name, printable) + " not found"
            else if !m.objs[m.index[name]].ephemeral
              then e.Some? && ErrorMessage(e.value, printable) == "tunnel " + Quote(name, printable) + " is not ephemeral"
            else if m.objs[m.index[name]].status in {Connecting, Connected}
              then e.Some? && ErrorMessage(e.value, printable) == "tunnel " + Quote(name, printable) + " is still active"
            else e == None
  {
    assert " is already " + "connecting" == " is already connecting";
    assert " is already " + "connected" == " is already connected";
  }

  // -------------------------------------------------------------- substring search

  lemma ContainsMiddle(a: string, p: string, b: string)
    ensures Contains(a + p + b, p)
  {
    assert OccursAt(a + p + b, p, |a|);
  }

  lemma ContainsPart(a: string, s: string, b: string, p: string)
    requires Contains(s, p)
    ensures Contains(a + s + b, p)
  {
    var i :| 0 <= i <= |s| - |p| && OccursAt(s, p, i);
    assert (a + s + b)[|a| + i..|a| + i + |p|] == s[i..i + |p|];
    assert OccursAt(a + s + b, p, |a| + i);
  }

  /** A phrase without the character `c` cannot straddle it. */
  lemma SeparatorSplits(x: string, c: char, y: string, p: string)
    requires c !in p
    ensures Contains(x + [c] + y, p) <==> Contains(x, p) || Contains(y, p)
  {
    var s := x + [c] + y;
    if Contains(x, p) {
      ContainsPart("", x, [c] + y, p);
      assert "" + x + ([c] + y) == s;
    }
    if Contains(y, p) {
      ContainsPart(x + [c], y, "", p);
      assert (x + [c]) + y + "" == s;
    }
    if Contains(s, p) {
      var i :| 0 <= i <= |s| - |p| && OccursAt(s, p, i);
      forall k | i <= k < i + |p|
        ensures s[k] in p
      {
        assert s[k] == s[i..i + |p|][k - i];
      }
      assert s[|x|] == c;
      if i + |p| <= |x| {
        assert OccursAt(x, p, i);
      } else {
        assert s[i..i + |p|] == y[i - |x| - 1..i - |x| - 1 + |p|];
        assert OccursAt(y, p, i - |x| - 1);
      }
    }
  }

  /** A phrase with a character the text lacks does not occur in it. */
  lemma MissingCharacter(s: string, p: string, c: char)
    requires c in p && c !in s
    ensures !Contains(s, p)
  {
    var k :| 0 <= k < |p| && p[k] == c;
    forall i | 0 <= i <= |s| - |p|
      ensures !OccursAt(s, p, i)
    {
      assert s[i..i + |p|][k] == s[i + k];
    }
  }

  lemma SeparatorsSplit(x: string, c: char, y: string, z: string, p: string)
    requires c !in p
    ensures Contains(x + ([c] + y + [c]) + z, p) <==> Contains(x, p) || Contains(y, p) || Contains(z, p)
  {
    var rest := y + [c] + z;
    SeparatorSplits(y, c, z, p);
    SeparatorSplits(x, c, rest, p);
    assert x + ([c] + y + [c]) + z == x + [c] + rest;
  }

  /** A phrase found in an error message is in the fixed words or within the quoted name. */
  lemma MessageContains(e: OpError, printable: char -> bool, p: string)
    requires '"' !in p
    ensures Contains(ErrorMessage(e, printable), p) <==>
            Contains("tunnel ", p) || Contains(Escape(e.name, printable), p) || Contains(Complaint(e), p)
  {
    SeparatorsSplit("tunnel ", '"', Escape(e.name, printable), Complaint(e), p);
  }

  // -------------------------------------------------------------- phrases inside a quoted name

  /** Printed as itself. */
  predicate Plain(c: char) {
    ' ' <= c <= '~' && c != '"' && c != '\\'
  }

  /** Characters an escape sequence can have after its backslash. */
  predicate InEscape(c: char) {
    c in "\"\\abfnrtvxuU" || c in HEX
  }

  lemma EscapeCharShape(c: char, printable: char -> bool)
    ensures var e := EscapeChar(c, printable);
            || e == [c]
            || (|e| >= 2 && e[0] == '\\' && !Plain(c) && forall k | 1 <= k < |e| :: InEscape(e[k]))
  {
  }

  lemma PrefixCons(r: string, c: char, x: string)
    requires r != ""
    ensures r <= [c] + x <==> r[0] == c && r[1..] <= x
  {
    assert ([c] + x)[1..] == x;
    if r[0] == c && r[1..] <= x {
      assert r == [c] + r[1..];
    }
  }

  /** A unit in front of a text, against a phrase that starts with a plain character. */
  lemma UnitPrefix(c: char, e: string, x: string, t: string, r: string)
    requires r != "" && Plain(r[0])
    requires e == [c] || (e != "" && e[0] == '\\' && !Plain(c))
    requires e == [c] ==> (r[1..] <= x <==> r[1..] <= t)
    ensures r <= e + x <==> r <= [c] + t
  {
    PrefixCons(r, c, t);
    if e == [c] {
      PrefixCons(r, c, x);
    } else {
      assert (e + x)[0] == e[0];
    }
  }

  /** Plain characters at the start of an escaped text are those at the start of the text. */
  lemma {:induction false} EscapedPrefix(t: string, r: string, printable: char -> bool)
    requires forall c | c in r :: Plain(c)
    ensures r <= Escape(t, printable) <==> r <= t
    decreases |r|
  {
    if r != "" && t != "" {
      EscapeCharShape(t[0], printable);
      EscapedPrefix(t[1..], r[1..], printable);
      UnitPrefix(t[0], EscapeChar(t[0], printable), Escape(t[1..], printable), t[1..], r);
      assert t == [t[0]] + t[1..];
    }
  }

  lemma UnitContainsWhen(e: string, x: string, p: string)
    requires e != "" && |p| >= 2
    requires Contains(x, p) || (e[|e| - 1] == p[0] && p[1..] <= x)
    ensures Contains(e + x, p)
  {
    var n := |e|;
    if Contains(x, p) {
      ContainsPart(e, x, "", p);
      assert e + x + "" == e + x;
    } else {
      assert (e + x)[n - 1..n - 1 + |p|] == [p[0]] + p[1..];
      assert OccursAt(e + x, p, n - 1);
    }
  }

  lemma UnitContainsOnly(e: string, x: string, p: string, i: nat)
    requires e != "" && |p| >= 2 && forall k | 1 <= k < |e| :: e[k] != p[1]
    requires i <= |e + x| - |p| && (e + x)[i..i + |p|] == p
    ensures Contains(x, p) || (e[|e| - 1] == p[0] && p[1..] <= x)
  {
    var s, n := e + x, |e|;
    assert p[0] == s[i] && p[1] == s[i + 1];
    if i >= n {
      assert s[i..i + |p|] == x[i - n..i - n + |p|];
      assert OccursAt(x, p, i - n);
    } else {
      assert i == n - 1;
      assert p[1..] == s[n..n + |p| - 1] == x[..|p| - 1];
    }
  }

  /** A phrase in a unit followed by more text starts in the rest, or at the unit's last character. */
  lemma UnitContains(e: string, x: string, p: string)
    requires e != "" && |p| >= 2 && forall k | 1 <= k < |e| :: e[k] != p[1]
    ensures Contains(e + x, p) <==> Contains(x, p) || (e[|e| - 1] == p[0] && p[1..] <= x)
  {
    if Contains(x, p) || (e[|e| - 1] == p[0] && p[1..] <= x) {
      UnitContainsWhen(e, x, p);
    }
    if Contains(e + x, p) {
      var i :| 0 <= i <= |e + x| - |p| && OccursAt(e + x, p, i);
      UnitContainsOnly(e, x, p, i);
    }
  }

  /** The escape of character `i` ends in the first character of `p` and the rest of `p` follows it. */
  ghost predicate Hit(name: string, p: string, printable: char -> bool, i: int)
    requires p != ""
  {
    && 0 <= i < |name|
    && EscapeChar(name[i], printable) != ""
    && EscapeChar(name[i], printable)[|EscapeChar(name[i], printable)| - 1] == p[0]
    && p[1..] <= name[i + 1..]
  }

  lemma HitShifts(name: string, p: string, printable: char -> bool, i: int)
    requires name != "" && p != "" && i >= 0
    ensures Hit(name, p, printable, i + 1) <==> Hit(name[1..], p, printable, i)
  {
    if i < |name| - 1 {
      assert name[i + 2..] == name[1..][i + 1..];
    }
  }

  /** A hit is at the first character or beyond it. */
  lemma HitSplits(name: string, p: string, printable: char -> bool)
    requires name != "" && p != ""
    ensures (exists i :: Hit(name, p, printable, i)) <==>
            Hit(name, p, printable, 0) || exists i :: Hit(name[1..], p, printable, i)
  {
    if exists i :: Hit(name, p, printable, i) {
      var i :| Hit(name, p, printable, i);
      if i > 0 {
        HitShifts(name, p, printable, i - 1);
        assert Hit(name[1..], p, printable, i - 1);
      }
    }
    if exists i :: Hit(name[1..], p, printable, i) {
      var i :| Hit(name[1..], p, printable, i);
      HitShifts(name, p, printable, i);
    }
  }

  /** Where a phrase of plain characters can be found inside a quoted name. */
  lemma {:induction false} EscapedContains(name: string, p: string, printable: char -> bool)
    requires |p| >= 2 && !InEscape(p[1]) && forall c | c in p :: Plain(c)
    ensures Contains(Escape(name, printable), p) <==> exists i :: Hit(name, p, printable, i)
    decreases |name|
  {
    if name != "" {
      var e, t := EscapeChar(name[0], printable), name[1..];
      EscapeCharShape(name[0], printable);
      UnitContains(e, Escape(t, printable), p);
      EscapedPrefix(t, p[1..], printable);
      EscapedContains(t, p, printable);
      HitSplits(name, p, printable);
    }
  }
}
