/** Text formats that are written in one place and read in another: grouped integers
    (internal/bridge/commands.go, internal/agent/pi_models.go), percent-encoded paths and
    model references (internal/agent/opencode.go). */
module TextFormats {
  import opened Common
  import opened Numerals
  import opened Spaces

  // ----- thousands ----------------------------------------------------------

  /** `strconv.FormatInt(value, 10)`. */
  function IntegerText(value: int): string {
    if value < 0 then "-" + Decimal(-value) else Decimal(value)
  }

  /** Commas every three characters, counted from the end. */
  function Grouped(s: string): string {
    if |s| <= 3 then s else Grouped(s[..|s| - 3]) + "," + s[|s| - 3..]
  }

  /** An integer in groups of three digits, its sign in front. */
  function Formatted(value: int): string {
    if value < 0 then "-" + Grouped(Decimal(-value)) else Grouped(Decimal(value))
  }

  /** `raw` is `text` with the commas of `tail` already put in behind position `to`. */
  ghost predicate Halfway(text: string, from: nat, to: int, raw: string, tail: string)
    requires from <= to <= |text|
  {
    raw == text[..to] + tail && Grouped(text[from..]) == Grouped(text[from..to]) + tail
  }

  lemma GroupedSplit(text: string, from: nat, to: nat)
    requires from + 3 < to <= |text|
    ensures Grouped(text[from..to]) == Grouped(text[from..to - 3]) + "," + text[to - 3..to]
  {
    var s := text[from..to];
    assert s[..|s| - 3] == text[from..to - 3] && s[|s| - 3..] == text[to - 3..to];
  }

  lemma Associated(a: string, b: string, c: string, d: string)
    ensures (a + b + c) + d == a + (b + c + d)
  {
  }

  /** Inserting a comma at `i` goes on. */
  lemma InsertComma(text: string, from: nat, i: nat, raw: string, tail: string)
    requires from < i && i + 3 <= |text| && Halfway(text, from, i + 3, raw, tail)
    ensures Halfway(text, from, i, raw[..i] + "," + raw[i..], "," + text[i..i + 3] + tail)
  {
    GroupedSplit(text, from, i + 3);
    Associated(Grouped(text[from..i]), ",", text[i..i + 3], tail);
    assert raw[..i] == text[..i];
    assert raw[i..] == text[i..i + 3] + tail;
    assert "," + text[i..i + 3] + tail == "," + (text[i..i + 3] + tail);
  }

  lemma NotYetGrouped(text: string, from: nat)
    requires from <= |text|
    ensures Halfway(text, from, |text|, text, "")
  {
    assert text[..|text|] + "" == text && text[from..|text|] == text[from..];
    assert Grouped(text[from..]) + "" == Grouped(text[from..]);
  }

  lemma AllGrouped(text: string, from: nat, to: nat, raw: string, tail: string)
    requires from <= to <= |text| && to <= from + 3 && Halfway(text, from, to, raw, tail)
    ensures raw == text[..from] + Grouped(text[from..])
  {
    assert text[..to] == text[..from] + text[from..to];
    assert (text[..from] + text[from..to]) + tail == text[..from] + (text[from..to] + tail);
  }

  method FormatInteger(value: int) returns (raw: string)
    ensures raw == Formatted(value)
  {
    raw := IntegerText(value);
    ghost var text, tail := raw, "";
    var start := if value < 0 then 1 else 0;
    assert text[start..] == Decimal(if value < 0 then -value else value);
    assert text[..start] == if value < 0 then "-" else "";
    NotYetGrouped(text, start);
    var i := |raw| - 3;
    while i > start
      invariant start < i + 3 <= |text| && Halfway(text, start, i + 3, raw, tail)
    {
      InsertComma(text, start, i, raw, tail);
      tail := "," + text[i..i + 3] + tail;
      raw := raw[..i] + "," + raw[i..];
      i := i - 3;
    }
    AllGrouped(text, start, i + 3, raw, tail);
  }

  method FormatPiInteger(value: int) returns (digits: string)
    ensures digits == Grouped(IntegerText(value))
  {
    digits := IntegerText(value);
    ghost var text, tail := digits, "";
    assert text[0..] == text;
    NotYetGrouped(text, 0);
    var i := |digits| - 3;
    while i > 0
      invariant 0 < i + 3 <= |text| && Halfway(text, 0, i + 3, digits, tail)
    {
      InsertComma(text, 0, i, digits, tail);
      tail := "," + text[i..i + 3] + tail;
      digits := digits[..i] + "," + digits[i..];
      i := i - 3;
    }
    AllGrouped(text, 0, i + 3, digits, tail);
  }

  function WithoutCommas(s: string): string {
    if s == "" then "" else WithoutCommas(s[..|s| - 1]) + if s[|s| - 1] == ',' then "" else [s[|s| - 1]]
  }

  lemma {:induction false} WithoutCommasConcat(s: string, t: string)
    ensures WithoutCommas(s + t) == WithoutCommas(s) + WithoutCommas(t)
  {
    if t == "" {
      assert s + t == s;
    } else {
      WithoutCommasConcat(s, t[..|t| - 1]);
      assert (s + t)[..|s + t| - 1] == s + t[..|t| - 1];
    }
  }

  lemma {:induction false} NoCommas(s: string)
    requires ',' !in s
    ensures WithoutCommas(s) == s
  {
    if s != "" {
      NoCommas(s[..|s| - 1]);
      assert s == s[..|s| - 1] + [s[|s| - 1]];
    }
  }

  /** Deleting the commas gives the text back. */
  lemma {:induction false} UngroupGrouped(s: string)
    requires ',' !in s
    ensures WithoutCommas(Grouped(s)) == s
  {
    if |s| <= 3 {
      NoCommas(s);
    } else {
      UngroupGrouped(s[..|s| - 3]);
      UngroupLast(Grouped(s[..|s| - 3]), s[|s| - 3..]);
      assert s == s[..|s| - 3] + s[|s| - 3..];
    }
  }

  lemma CommaVanishes(s: string)
    ensures WithoutCommas(s + ",") == WithoutCommas(s)
  {
    assert (s + ",")[..|s|] == s;
  }

  lemma UngroupLast(grouped: string, last: string)
    requires ',' !in last
    ensures WithoutCommas(grouped + "," + last) == WithoutCommas(grouped) + last
  {
    NoCommas(last);
    CommaVanishes(grouped);
    WithoutCommasConcat(grouped + ",", last);
  }

  /** What `strconv.ParseInt` makes of an optional sign and digits. */
  function IntegerValue(s: string): Option<int> {
    if s != "" && AllDigits(s) then Some(Value(s))
    else if |s| > 1 && s[0] == '-' && AllDigits(s[1..]) then
      var magnitude: int := Value(s[1..]);
      Some(-magnitude)
    else None
  }

  lemma IntegerTextReadsBack(value: int)
    ensures IntegerValue(IntegerText(value)) == Some(value)
  {
    var digits := Decimal(if value < 0 then -value else value);
    DecimalRoundTrip(if value < 0 then -value else value);
    assert ("-" + digits)[1..] == digits;
    assert !AllDigits("-" + digits) by { assert ("-" + digits)[0] == '-'; }
  }

  /** For every integer: deleting the commas of the formatted number gives its decimal text,
      sign included, and that reads back as the number. */
  lemma FormattedReadsBack(value: int)
    ensures WithoutCommas(Formatted(value)) == IntegerText(value)
    ensures IntegerValue(WithoutCommas(Formatted(value))) == Some(value)
  {
    if value < 0 {
      var digits := Decimal(-value);
      UngroupGrouped(digits);
      WithoutCommasConcat("-", Grouped(digits));
      NoCommas("-");
    } else {
      UngroupGrouped(Decimal(value));
    }
    IntegerTextReadsBack(value);
  }

  /** The pieces between commas. */
  function Pieces(s: string): (r: seq<string>)
    ensures r != []
  {
    if s == "" then [""]
    else
      var front := Pieces(s[..|s| - 1]);
      if s[|s| - 1] == ',' then front + [""]
      else front[..|front| - 1] + [front[|front| - 1] + [s[|s| - 1]]]
  }

  lemma {:induction false} PiecesConcat(s: string, t: string)
    requires ',' !in t
    ensures Pieces(s + "," + t) == Pieces(s) + [t]
  {
    var whole := s + "," + t;
    if t == "" {
      assert whole[..|whole| - 1] == s;
    } else {
      PiecesConcat(s, t[..|t| - 1]);
      assert whole[..|whole| - 1] == s + "," + t[..|t| - 1];
      assert t == t[..|t| - 1] + [t[|t| - 1]];
    }
  }

  lemma {:induction false} OnePiece(s: string)
    requires ',' !in s
    ensures Pieces(s) == [s]
  {
    if s != "" {
      OnePiece(s[..|s| - 1]);
      assert s == s[..|s| - 1] + [s[|s| - 1]];
    }
  }

  /** The first group has one to three characters, all others exactly three. */
  lemma {:induction false} GroupSizes(s: string)
    requires s != "" && ',' !in s
    ensures var groups := Pieces(Grouped(s));
            1 <= |groups[0]| <= 3 && forall i :: 0 < i < |groups| ==> |groups[i]| == 3
  {
    if |s| <= 3 {
      OnePiece(s);
    } else {
      GroupSizes(s[..|s| - 3]);
      PiecesConcat(Grouped(s[..|s| - 3]), s[|s| - 3..]);
    }
  }

  /** The pieces `p` with `c` put before the first one. */
  function Headed(c: char, p: seq<string>): seq<string>
    requires p != []
  {
    [[c] + p[0]] + p[1..]
  }

  function Extended(p: seq<string>, d: char): (r: seq<string>)
    requires p != []
    ensures r != []
  {
    if d == ',' then p + [""] else p[..|p| - 1] + [p[|p| - 1] + [d]]
  }

  lemma HeadedExtended(c: char, p: seq<string>, d: char)
    requires p != []
    ensures Extended(Headed(c, p), d) == Headed(c, Extended(p, d))
  {
    if d == ',' {
      assert (p + [""])[1..] == p[1..] + [""];
    } else if |p| == 1 {
      assert ([c] + p[0]) + [d] == [c] + (p[0] + [d]);
    } else {
      assert Extended(Headed(c, p), d) == Headed(c, Extended(p, d));
    }
  }

  lemma PiecesExtended(s: string, d: char)
    ensures Pieces(s + [d]) == Extended(Pieces(s), d)
  {
    assert (s + [d])[..|s|] == s;
  }

  lemma {:induction false} PiecesHead(c: char, s: string)
    requires c != ','
    ensures Pieces([c] + s) == Headed(c, Pieces(s))
  {
    if s == "" {
      OnePiece([c]);
      assert [c] + "" == [c];
    } else {
      PiecesHead(c, s[..|s| - 1]);
      PiecesHeadStep(c, s[..|s| - 1], s[|s| - 1]);
      assert s == s[..|s| - 1] + [s[|s| - 1]];
    }
  }

  lemma PiecesHeadStep(c: char, front: string, d: char)
    requires Pieces([c] + front) == Headed(c, Pieces(front))
    ensures Pieces([c] + (front + [d])) == Headed(c, Pieces(front + [d]))
  {
    PiecesExtended([c] + front, d);
    PiecesExtended(front, d);
    HeadedExtended(c, Pieces(front), d);
    assert [c] + (front + [d]) == ([c] + front) + [d];
  }

  /** For every integer: after the sign the first group of the formatted number has one to
      three characters, and all others have exactly three. */
  lemma FormattedGroups(value: int)
    ensures var groups := Pieces(Formatted(value));
            && (value < 0 ==> groups[0] != "" && groups[0][0] == '-')
            && 1 <= |groups[0]| - (if value < 0 then 1 else 0) <= 3
            && forall i :: 0 < i < |groups| ==> |groups[i]| == 3
  {
    GroupSizes(Decimal(if value < 0 then -value else value));
    if value < 0 {
      PiecesHead('-', Grouped(Decimal(-value)));
    }
  }

  lemma {:induction false} GroupedLength(s: string)
    requires s != ""
    ensures |Grouped(s)| == |s| + (|s| - 1) / 3
  {
    if |s| > 3 {
      GroupedLength(s[..|s| - 3]);
    }
  }

  lemma {:induction false} GroupedHead(c: char, s: string, k: nat)
    requires |s| == 3 * k + 1 || |s| == 3 * k + 2
    ensures Grouped([c] + s) == [c] + Grouped(s)
  {
    if k > 0 {
      GroupedHead(c, s[..|s| - 3], k - 1);
      GroupedHeadStep(c, s);
    }
  }

  lemma GroupedHeadStep(c: char, s: string)
    requires |s| > 3 && Grouped([c] + s[..|s| - 3]) == [c] + Grouped(s[..|s| - 3])
    ensures Grouped([c] + s) == [c] + Grouped(s)
  {
    var head, tail, whole := s[..|s| - 3], s[|s| - 3..], [c] + s;
    assert whole[..|whole| - 3] == [c] + head && whole[|whole| - 3..] == tail;
    assert ([c] + Grouped(head)) + "," + tail == [c] + (Grouped(head) + "," + tail);
  }

  /** The two formatters agree on all non-negative numbers, and on a negative one exactly
      when its digits do not fill groups of three: otherwise the second one puts a
      comma right after the sign. */
  lemma FormattersAgree(value: int)
    ensures Grouped(IntegerText(value)) == Formatted(value) <==> value >= 0 || |Decimal(-value)| % 3 != 0
  {
    if value < 0 {
      var digits := Decimal(-value);
      if |digits| % 3 != 0 {
        GroupedHead('-', digits, |digits| / 3);
      } else {
        GroupedLength(digits);
        GroupedLength("-" + digits);
      }
    }
  }

  /** Such a number. */
  lemma FormattersDisagree()
    ensures Grouped(IntegerText(-123)) == "-,123" && Formatted(-123) == "-123"
  {
    assert Decimal(1) == "1" && Decimal(12) == "12" && Decimal(123) == "123";
    assert "-123"[..1] == "-" && "-123"[1..] == "123";
  }

  // ----- percent encoding ---------------------------------------------------

  type Byte = x: int | 0 <= x < 256

  predicate Unreserved(c: char) {
    'a' <= c <= 'z' || 'A' <= c <= 'Z' || '0' <= c <= '9' || c == '-' || c == '_' || c == '.' || c == '~'
  }

  function HexDigit(n: nat): char
    requires n < 16
  {
    if n < 10 then '0' + n as char else 'A' + (n - 10) as char
  }

  function EscapedByte(b: Byte): string {
    if b as char == '/' || Unreserved(b as char) then [b as char]
    else ['%', HexDigit(b / 16), HexDigit(b % 16)]
  }

  function Escaped(bytes: seq<Byte>): string {
    if bytes == [] then "" else EscapedByte(bytes[0]) + Escaped(bytes[1..])
  }

  lemma EscapedFrom(s: seq<Byte>, i: nat, sb: string)
    requires i < |s|
    ensures sb + Escaped(s[i..]) == (sb + EscapedByte(s[i])) + Escaped(s[i + 1..])
  {
    assert s[i..][1..] == s[i + 1..];
    assert sb + (EscapedByte(s[i]) + Escaped(s[i + 1..])) == (sb + EscapedByte(s[i])) + Escaped(s[i + 1..]);
  }

  method UrlQueryEscape(s: seq<Byte>) returns (sb: string)
    ensures sb == Escaped(s)
  {
    sb := "";
    for i := 0 to |s|
      invariant sb + Escaped(s[i..]) == Escaped(s)
    {
      EscapedFrom(s, i, sb);
      var b := s[i] as char;
      var escape: string := if b == '/' || Unreserved(b) then [b] else ['%', HexDigit(s[i] / 16), HexDigit(s[i] % 16)];
      assert escape == EscapedByte(s[i]);
      sb := sb + escape;
    }
    assert s[|s|..] == [];
  }

  function HexValue(c: char): Option<nat> {
    if '0' <= c <= '9' then Some((c - '0') as nat)
    else if 'A' <= c <= 'F' then Some((c - 'A') as nat + 10)
    else if 'a' <= c <= 'f' then Some((c - 'a') as nat + 10)
    else None
  }

  /** Percent-decoding, section 2.1 of RFC 3986. */
  function Unescaped(s: string): Option<seq<Byte>> {
    if s == "" then Some([])
    else if s[0] != '%' then
      var rest := Unescaped(s[1..]);
      if rest.None? || s[0] as int >= 256 then None else Some([s[0] as int] + rest.value)
    else if |s| < 3 || HexValue(s[1]).None? || HexValue(s[2]).None? then None
    else
      var rest := Unescaped(s[3..]);
      var code := HexValue(s[1]).value * 16 + HexValue(s[2]).value;
      if rest.None? || code >= 256 then None else Some([code] + rest.value)
  }

  lemma HexDigitReadsBack(n: nat)
    requires n < 16
    ensures HexValue(HexDigit(n)) == Some(n)
  {
  }

  /** Decoding gives back one escaped byte and goes on with the rest. */
  lemma UnescapePlain(b: Byte, rest: string)
    requires |EscapedByte(b)| == 1
    ensures Unescaped(EscapedByte(b) + rest) ==
            if Unescaped(rest).None? then None else Some([b] + Unescaped(rest).value)
  {
    assert (EscapedByte(b) + rest)[1..] == rest;
  }

  lemma UnescapeTriple(b: Byte, rest: string)
    requires |EscapedByte(b)| == 3
    ensures Unescaped(EscapedByte(b) + rest) ==
            if Unescaped(rest).None? then None else Some([b] + Unescaped(rest).value)
  {
    var s := EscapedByte(b) + rest;
    assert s[0] == '%' && s[1] == HexDigit(b / 16) && s[2] == HexDigit(b % 16) && s[3..] == rest;
    HexDigitReadsBack(b / 16);
    HexDigitReadsBack(b % 16);
  }

  /** Decoding undoes the escape, for every string of bytes. */
  lemma {:induction false} UnescapeEscaped(bytes: seq<Byte>)
    ensures Unescaped(Escaped(bytes)) == Some(bytes)
  {
    if bytes != [] {
      UnescapeEscaped(bytes[1..]);
      if |EscapedByte(bytes[0])| == 1 {
        UnescapePlain(bytes[0], Escaped(bytes[1..]));
      } else {
        UnescapeTriple(bytes[0], Escaped(bytes[1..]));
      }
      assert bytes == [bytes[0]] + bytes[1..];
    }
  }

  /** The escaped text consists of unreserved characters (section 2.3 of RFC 3986),
      slashes, and percent signs each followed by two upper-case hexadecimal digits. */
  ghost predicate WellEscaped(s: string) {
    forall i: nat :: i < |s| ==> PlainOrEscape(s, i)
  }

  predicate PlainOrEscape(s: string, i: nat)
    requires i < |s|
  {
    || s[i] == '/' || Unreserved(s[i])
    || (s[i] == '%' && i + 2 < |s| && UpperHex(s[i + 1]) && UpperHex(s[i + 2]))
  }

  predicate UpperHex(c: char) { '0' <= c <= '9' || 'A' <= c <= 'F' }

  lemma {:induction false} EscapedIsWellFormed(bytes: seq<Byte>)
    ensures WellEscaped(Escaped(bytes))
  {
    if bytes != [] {
      var first, rest := EscapedByte(bytes[0]), Escaped(bytes[1..]);
      EscapedIsWellFormed(bytes[1..]);
      assert |first| == 3 ==> PlainOrEscape(first, 1) && PlainOrEscape(first, 2);
      WellEscapedConcat(first, rest);
    }
  }

  lemma WellEscapedConcat(first: string, rest: string)
    requires WellEscaped(first) && WellEscaped(rest)
    ensures WellEscaped(first + rest)
  {
    var s := first + rest;
    forall i: nat | i < |s| ensures PlainOrEscape(s, i) {
      if i < |first| {
        assert PlainOrEscape(first, i);
      } else {
        assert PlainOrEscape(rest, i - |first|);
      }
    }
  }

  // ----- model references ---------------------------------------------------

  /** Splits at the first `c`, if there is one. */
  function Cut(s: string, c: char): (r: Option<(string, string)>)
    ensures r.None? <==> c !in s
    ensures r.Some? ==> c !in r.value.0 && s == r.value.0 + [c] + r.value.1
  {
    if s == "" then None
    else if s[0] == c then Some(("", s[1..]))
    else
      var rest := Cut(s[1..], c);
      if rest.None? then None else Some(([s[0]] + rest.value.0, rest.value.1))
  }

  datatype Model = Model(provider: string, id: string, variant: string)

  /** `splitModel`. */
  function SplitModel(model: string): Option<Model> {
    var parts := Cut(model, '/');
    if parts.None? then None
    else
      var sharp := Cut(parts.value.1, '#');
      var id := if sharp.Some? then sharp.value.0 else parts.value.1;
      var variant := if sharp.Some? then sharp.value.1 else "";
      if parts.value.0 == "" || id == "" then None else Some(Model(parts.value.0, id, variant))
  }

  /** The reference that `fetchSessionModel` builds; empty when a part is missing. */
  function ModelText(m: Model): string {
    if m.provider == "" || m.id == "" then ""
    else m.provider + "/" + m.id + if m.variant != "" && m.variant != "default" then "#" + m.variant else ""
  }

  function Effective(m: Model): Model {
    if m.variant == "default" then m.(variant := "") else m
  }

  lemma {:induction false} CutFirst(before: string, c: char, after: string)
    requires c !in before
    ensures Cut(before + [c] + after, c) == Some((before, after))
  {
    var s := before + [c] + after;
    if before == "" {
      assert s[1..] == after;
    } else {
      CutFirst(before[1..], c, after);
      assert s[1..] == before[1..] + [c] + after;
      assert before == [before[0]] + before[1..];
    }
  }

  /** Splitting the built reference recovers the model, up to the spelling of the default
      variant, exactly when the provider has no slash and the id no sharp. */
  lemma SplitBuiltModel(m: Model)
    requires m.provider != "" && m.id != ""
    ensures SplitModel(ModelText(m)) == Some(Effective(m)) <==> '/' !in m.provider && '#' !in m.id
  {
    var tail := if m.variant != "" && m.variant != "default" then "#" + m.variant else "";
    assert ModelText(m) == m.provider + "/" + (m.id + tail);
    if '/' !in m.provider {
      CutFirst(m.provider, '/', m.id + tail);
      if '#' !in m.id {
        SplitTail(m.id, m.variant);
        assert m.id + "" == m.id;
      }
    }
  }

  lemma SplitTail(id: string, variant: string)
    requires '#' !in id
    ensures Cut(id + ("#" + variant), '#') == Some((id, variant))
  {
    CutFirst(id, '#', variant);
    Regrouped(id, "#", variant);
  }

  lemma Regrouped(a: string, b: string, c: string)
    ensures a + (b + c) == a + b + c
  {
  }

  /** Building the reference again from what was split gives the text back, unless it
      spelled out an empty or default variant. */
  lemma BuildSplitModel(text: string)
    requires SplitModel(text).Some?
    ensures var m := SplitModel(text).value;
            ModelText(m) == text <==>
            !(Cut(Cut(text, '/').value.1, '#').Some? && (m.variant == "" || m.variant == "default"))
  {
    var m := SplitModel(text).value;
    var rest := Cut(text, '/').value.1;
    var sharp := if Cut(rest, '#').Some? then "#" + m.variant else "";
    assert rest == m.id + sharp;
    SamePrefix(m.provider + "/" + m.id, sharp, text);
  }

  lemma SamePrefix(prefix: string, tail: string, text: string)
    requires text == prefix + tail
    ensures prefix + "" == text <==> tail == ""
  {
    assert |prefix + tail| == |prefix| + |tail|;
  }

  /** `piModelFullID`. */
  function PiModelText(provider: string, id: string): string {
    if provider == "" || id == "" then "" else provider + "/" + id
  }

  /** `parsePiModelRef`: None when it reports failure. */
  function ParsePiModel(value: string): Option<(string, string)> {
    var parts := Cut(value, '/');
    if parts.None? then None
    else
      var provider, id := TrimSpace(parts.value.0), TrimSpace(parts.value.1);
      if provider == "" || id == "" then None else Some((provider, id))
  }

  /** The parser recovers provider and id exactly when the provider has no slash and
      neither has spaces at its ends. */
  lemma ParseBuiltPiModel(provider: string, id: string)
    requires provider != "" && id != ""
    ensures ParsePiModel(PiModelText(provider, id)) == Some((provider, id)) <==>
            '/' !in provider && TrimSpace(provider) == provider && TrimSpace(id) == id
  {
    var text := PiModelText(provider, id);
    if '/' !in provider {
      CutFirst(provider, '/', id);
    } else {
      TrimmedAlready(Cut(text, '/').value.0);
      CutBefore(provider, '/', id);
    }
  }

  /** With a separator inside the first part the cut comes too early. */
  lemma CutBefore(before: string, c: char, after: string)
    requires c in before
    ensures var r := Cut(before + [c] + after, c); r.Some? && |r.value.0| < |before|
  {
    var i :| 0 <= i < |before| && before[i] == c;
    var text := before + [c] + after;
    assert text[i] == c;
    var first := Cut(text, c).value.0;
    forall j | 0 <= j < |first| ensures text[j] != c {
      assert text[j] == first[j];
    }
  }
}
