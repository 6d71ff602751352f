/** The JSON string escaper and the two wire-format encoders of the TLS profiles, each with the decoder its
    standard describes. */
module Encoders {
  import opened Bytes
  import opened Wrappers

  // ---------- JSON strings ----------

  const QUOTE: byte := 34
  const BACKSLASH: byte := 92
  const LOWER_U: byte := 117

  function HexDigit(n: nat): byte
    requires n < 16
  {
    if n < 10 then 48 + n else 87 + n
  }

  function EscapeByte(c: byte): seq<byte> {
    if c == QUOTE then [BACKSLASH, QUOTE]
    else if c == BACKSLASH then [BACKSLASH, BACKSLASH]
    else if c == 10 then [BACKSLASH, 110]
    else if c == 13 then [BACKSLASH, 114]
    else if c == 9 then [BACKSLASH, 116]
    else if c < 32 then [BACKSLASH, LOWER_U, 48, 48, HexDigit(c / 16 % 16), HexDigit(c % 16)]
    else [c]
  }

  function Escaped(s: seq<byte>): seq<byte> {
    if s == [] then [] else EscapeByte(s[0]) + Escaped(s[1..])
  }

  lemma {:induction false} EscapedSnoc(s: seq<byte>, c: byte)
    ensures Escaped(s + [c]) == Escaped(s) + EscapeByte(c)
    decreases |s|
  {
    if s == [] {
      assert s + [c] == [c];
    } else {
      assert (s + [c])[1..] == s[1..] + [c];
      EscapedSnoc(s[1..], c);
    }
  }

  method JsonEscape(s: seq<byte>) returns (out: seq<byte>)
    ensures out == Escaped(s)
  {
    out := [];
    for i := 0 to |s|
      invariant out == Escaped(s[..i])
    {
      var c := s[i];
      EscapedSnoc(s[..i], c);
      assert s[..i + 1] == s[..i] + [c];
      if c == QUOTE {
        out := out + [BACKSLASH, QUOTE];
      } else if c == BACKSLASH {
        out := out + [BACKSLASH, BACKSLASH];
      } else if c == 10 {
        out := out + [BACKSLASH, 110];
      } else if c == 13 {
        out := out + [BACKSLASH, 114];
      } else if c == 9 {
        out := out + [BACKSLASH, 116];
      } else if c < 32 {
        out := out + [BACKSLASH, LOWER_U, 48, 48, HexDigit(c / 16 % 16), HexDigit(c % 16)];
      } else {
        out := out + [c];
      }
    }
    assert s[..|s|] == s;
  }

  function HexValue(c: byte): Option<nat> {
    if 48 <= c <= 57 then Some(c - 48)
    else if 97 <= c <= 102 then Some(c - 87)
    else if 65 <= c <= 70 then Some(c - 55)
    else None
  }

  /** One character of a JSON string body, by section 7 of RFC 8259, as the byte it stands for and the rest.
      An unescaped quote, a lone backslash, a raw control byte and a code above 255 are refused. */
  function ReadChar(s: seq<byte>): Option<(byte, seq<byte>)>
    requires s != []
  {
    if s[0] != BACKSLASH then
      if s[0] < 32 || s[0] == QUOTE then None else Some((s[0], s[1..]))
    else if |s| < 2 then None
    else if s[1] == LOWER_U then ReadUnicode(s)
    else
      var simple := map[QUOTE := 34 as byte, BACKSLASH := 92, 47 := 47, 98 := 8, 102 := 12, 110 := 10, 114 := 13,
                        116 := 9];
      if s[1] in simple then Some((simple[s[1]], s[2..])) else None
  }

  function ReadUnicode(s: seq<byte>): Option<(byte, seq<byte>)> {
    if |s| < 6 then None
    else
      var a, b, c, d := HexValue(s[2]), HexValue(s[3]), HexValue(s[4]), HexValue(s[5]);
      if a.None? || b.None? || c.None? || d.None? then None
      else
        var code := ((a.value * 16 + b.value) * 16 + c.value) * 16 + d.value;
        if code > 255 then None else Some((code, s[6..]))
  }

  /** Decodes a whole JSON string body. */
  function Unescape(s: seq<byte>): Option<seq<byte>>
    decreases |s|
  {
    if s == [] then Some([])
    else
      var head := ReadChar(s);
      if head.None? || |head.value.1| >= |s| then None
      else
        var rest := Unescape(head.value.1);
        if rest.None? then None else Some([head.value.0] + rest.value)
  }

  lemma HexBack(n: nat)
    requires n < 16
    ensures HexValue(HexDigit(n)) == Some(n)
  {}

  lemma ReadCharBack(c: byte, rest: seq<byte>)
    ensures ReadChar(EscapeByte(c) + rest) == Some((c, rest))
  {
    var e := EscapeByte(c);
    assert (e + rest)[|e|..] == rest;
    if c < 32 && |e| == 6 {
      HexBack(c / 16 % 16);
      HexBack(c % 16);
      assert HexValue(48) == Some(0);
    }
  }

  lemma UnescapeFirst(c: byte, rest: seq<byte>)
    requires Unescape(rest).Some?
    ensures Unescape(EscapeByte(c) + rest) == Some([c] + Unescape(rest).value)
  {
    ReadCharBack(c, rest);
  }

  /** What the escaper writes is a well-formed JSON string body and decodes to the bytes it was given; so it holds no
      raw control byte and no unescaped quote. */
  lemma {:induction false} EscapeUnescape(s: seq<byte>)
    ensures Unescape(Escaped(s)) == Some(s)
    decreases |s|
  {
    if s != [] {
      EscapeUnescape(s[1..]);
      UnescapeFirst(s[0], Escaped(s[1..]));
      assert [s[0]] + s[1..] == s;
    }
  }

  lemma {:induction false} NoRawControl(s: seq<byte>)
    ensures forall i :: 0 <= i < |Escaped(s)| ==> Escaped(s)[i] >= 32
    decreases |s|
  {
    if s != [] {
      NoRawControl(s[1..]);
    }
  }

  /** Digits are written in lower case. */
  lemma HexIsLowerCase(n: nat)
    requires n < 16
    ensures HexDigit(n) as char == "0123456789abcdef"[n]
  {
    assert "0123456789abcdef"[n] == if n < 10 then '0' + n as char else 'a' + (n - 10) as char;
  }

  /** How many octets a text takes: two for each quote, backslash, tab and line end, six for each other control
      byte, and one for every other. */
  function EscapedLength(s: seq<byte>): nat {
    if s == [] then 0
    else
      var c := s[|s| - 1];
      EscapedLength(s[..|s| - 1]) + if c in {34, 92, 9, 10, 13} then 2 else if c < 32 then 6 else 1
  }

  lemma {:induction false} EscapesAreShort(s: seq<byte>)
    ensures |Escaped(s)| == EscapedLength(s)
    decreases |s|
  {
    if s != [] {
      var n := |s| - 1;
      EscapesAreShort(s[..n]);
      EscapedSnoc(s[..n], s[n]);
      assert s[..n] + [s[n]] == s;
    }
  }

  // ---------- ALPN ----------

  function AlpnWire(protocols: seq<seq<byte>>): seq<byte> {
    if protocols == [] then []
    else AlpnWire(protocols[..|protocols| - 1]) + ([Narrow(|protocols[|protocols| - 1]|)] + protocols[|protocols| - 1])
  }

  method BuildAlpnWire(protocols: seq<seq<byte>>) returns (out: seq<byte>)
    ensures out == AlpnWire(protocols)
  {
    out := [];
    for i := 0 to |protocols|
      invariant out == AlpnWire(protocols[..i])
    {
      assert protocols[..i + 1][..i] == protocols[..i];
      out := out + ([Narrow(|protocols[i]|)] + protocols[i]);
    }
    assert protocols[..|protocols|] == protocols;
  }

  /** The ProtocolNameList of section 3.1 of RFC 7301: each name is 1 to 255 bytes long. */
  function ReadAlpn(s: seq<byte>): Option<seq<seq<byte>>>
    decreases |s|
  {
    if s == [] then Some([])
    else
      var n := 1 + s[0] as nat;
      if n == 1 || |s| < n then None
      else
        var rest := ReadAlpn(s[n..]);
        if rest.None? then None else Some([s[1..n]] + rest.value)
  }

  ghost predicate AlpnNames(protocols: seq<seq<byte>>) {
    forall i :: 0 <= i < |protocols| ==> 1 <= |protocols[i]| <= 255
  }

  lemma AlpnLast(protocols: seq<seq<byte>>, p: seq<byte>)
    ensures AlpnWire(protocols + [p]) == AlpnWire(protocols) + ([Narrow(|p|)] + p)
  {
    assert (protocols + [p])[..|protocols|] == protocols;
  }

  lemma Regroup(a: seq<byte>, b: seq<byte>, c: seq<byte>)
    ensures a + b + c == a + (b + c)
  {}

  lemma {:induction false} AlpnFront(p: seq<byte>, rest: seq<seq<byte>>)
    ensures AlpnWire([p] + rest) == [Narrow(|p|)] + p + AlpnWire(rest)
    decreases |rest|
  {
    if rest == [] {
      assert [p] + rest == [p] && [p][..0] == [];
    } else {
      var n := |rest| - 1;
      AlpnFront(p, rest[..n]);
      AlpnLast([p] + rest[..n], rest[n]);
      AlpnLast(rest[..n], rest[n]);
      assert [p] + rest == [p] + rest[..n] + [rest[n]] && rest == rest[..n] + [rest[n]];
      Regroup([Narrow(|p|)] + p, AlpnWire(rest[..n]), [Narrow(|rest[n]|)] + rest[n]);
    }
  }

  lemma {:induction false} ReadAlpnBack(protocols: seq<seq<byte>>)
    requires AlpnNames(protocols)
    ensures ReadAlpn(AlpnWire(protocols)) == Some(protocols)
    decreases |protocols|
  {
    if protocols != [] {
      var p, rest := protocols[0], protocols[1..];
      assert protocols == [p] + rest;
      AlpnFront(p, rest);
      ReadAlpnBack(rest);
      var s := AlpnWire(protocols);
      assert s[0] == |p| && s[1..1 + |p|] == p && s[1 + |p|..] == AlpnWire(rest);
    }
  }

  lemma {:induction false} ReadAlpnNames(s: seq<byte>)
    ensures ReadAlpn(s).Some? ==> AlpnNames(ReadAlpn(s).value)
    decreases |s|
  {
    if s != [] {
      var n := 1 + s[0] as nat;
      if n > 1 && n <= |s| {
        ReadAlpnNames(s[n..]);
      }
    }
  }

  /** The encoding reads back as its list exactly when every name is 1 to 255 bytes long. */
  lemma AlpnRoundTrip(protocols: seq<seq<byte>>)
    ensures ReadAlpn(AlpnWire(protocols)) == Some(protocols) <==> AlpnNames(protocols)
  {
    if AlpnNames(protocols) {
      ReadAlpnBack(protocols);
    }
    ReadAlpnNames(AlpnWire(protocols));
  }

  // ---------- HTTP/2 SETTINGS ----------

  datatype Setting = Setting(id: nat, value: nat)

  /** A 16-bit id and a 32-bit value. */
  ghost predicate SettingsOk(settings: seq<Setting>) {
    forall i :: 0 <= i < |settings| ==> settings[i].id < 0x1_0000 && settings[i].value < 0x1_0000_0000
  }

  /** `(n >> shift) & 0xFF` for an unsigned n, the shift given as a divisor. */
  function Octet(n: nat, divisor: nat): byte
    requires divisor > 0
  {
    Narrow(n / divisor)
  }

  function SettingBytes(s: Setting): seq<byte> {
    [Octet(s.id, 0x100), Octet(s.id, 1),
     Octet(s.value, 0x100_0000), Octet(s.value, 0x1_0000), Octet(s.value, 0x100), Octet(s.value, 1)]
  }

  function SettingsBlob(settings: seq<Setting>): seq<byte> {
    if settings == [] then []
    else SettingsBlob(settings[..|settings| - 1]) + SettingBytes(settings[|settings| - 1])
  }

  method BuildH2SettingsBlob(settings: seq<Setting>) returns (out: seq<byte>)
    ensures out == SettingsBlob(settings)
  {
    out := [];
    for i := 0 to |settings|
      invariant out == SettingsBlob(settings[..i])
    {
      assert settings[..i + 1][..i] == settings[..i];
      var s := settings[i];
      ghost var before := out;
      out := out + [Octet(s.id, 0x100)];
      out := out + [Octet(s.id, 1)];
      out := out + [Octet(s.value, 0x100_0000)];
      out := out + [Octet(s.value, 0x1_0000)];
      out := out + [Octet(s.value, 0x100)];
      out := out + [Octet(s.value, 1)];
      assert out == before + SettingBytes(s);
    }
    assert settings[..|settings|] == settings;
  }

  function BigEndian(s: seq<byte>): nat {
    if s == [] then 0 else BigEndian(s[..|s| - 1]) * 256 + s[|s| - 1]
  }

  /** A SETTINGS payload by section 6.5.1 of RFC 9113: six octets per setting. */
  function ReadSettings(s: seq<byte>): Option<seq<Setting>>
    decreases |s|
  {
    if s == [] then Some([])
    else if |s| < 6 then None
    else
      var rest := ReadSettings(s[6..]);
      if rest.None? then None else Some([Setting(BigEndian(s[..2]), BigEndian(s[2..6]))] + rest.value)
  }

  lemma TwoOctets(a: byte, b: byte)
    ensures BigEndian([a, b]) == a * 256 + b
  {
    assert [a, b][..1] == [a] && [a][..0] == [];
    assert BigEndian([a]) == a;
  }

  lemma FourOctets(a: byte, b: byte, c: byte, d: byte)
    ensures BigEndian([a, b, c, d]) == ((a * 256 + b) * 256 + c) * 256 + d
  {
    TwoOctets(a, b);
    assert [a, b, c, d][..3] == [a, b, c] && [a, b, c][..2] == [a, b];
    assert BigEndian([a, b, c]) == BigEndian([a, b]) * 256 + c;
  }

  lemma TwoDigits(n: nat)
    requires n < 0x1_0000
    ensures Octet(n, 0x100) as nat * 256 + Octet(n, 1) as nat == n
  {}

  lemma FourDigits(n: nat)
    requires n < 0x1_0000_0000
    ensures ((Octet(n, 0x100_0000) as nat * 256 + Octet(n, 0x1_0000) as nat) * 256 + Octet(n, 0x100) as nat) * 256
            + Octet(n, 1) as nat == n
  {
    assert n / 0x100 / 0x100 == n / 0x1_0000 && n / 0x1_0000 / 0x100 == n / 0x100_0000;
  }

  lemma OctetsOfSetting(s: Setting)
    requires s.id < 0x1_0000 && s.value < 0x1_0000_0000
    ensures |SettingBytes(s)| == 6
    ensures BigEndian(SettingBytes(s)[..2]) == s.id && BigEndian(SettingBytes(s)[2..6]) == s.value
  {
    var b := SettingBytes(s);
    assert b[..2] == [b[0], b[1]];
    assert b[2..6] == [b[2], b[3], b[4], b[5]];
    TwoOctets(b[0], b[1]);
    FourOctets(b[2], b[3], b[4], b[5]);
    TwoDigits(s.id);
    FourDigits(s.value);
  }

  lemma {:induction false} SettingsFront(s: Setting, rest: seq<Setting>)
    ensures SettingsBlob([s] + rest) == SettingBytes(s) + SettingsBlob(rest)
    decreases |rest|
  {
    if rest == [] {
      assert [s] + rest == [s] && [s][..0] == [];
    } else {
      var n := |rest| - 1;
      SettingsFront(s, rest[..n]);
      assert ([s] + rest)[..|[s] + rest| - 1] == [s] + rest[..n];
    }
  }

  /** The blob is six octets per setting and reads back as its settings, for all 16-bit ids and 32-bit values. */
  lemma {:induction false} SettingsRoundTrip(settings: seq<Setting>)
    requires SettingsOk(settings)
    ensures |SettingsBlob(settings)| == 6 * |settings|
    ensures ReadSettings(SettingsBlob(settings)) == Some(settings)
    decreases |settings|
  {
    if settings != [] {
      var s, rest := settings[0], settings[1..];
      assert settings == [s] + rest;
      SettingsFront(s, rest);
      SettingsRoundTrip(rest);
      OctetsOfSetting(s);
      var blob := SettingsBlob(settings);
      assert blob[..2] == SettingBytes(s)[..2] && blob[2..6] == SettingBytes(s)[2..6]
             && blob[6..] == SettingsBlob(rest);
    }
  }
}
