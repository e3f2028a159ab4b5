/**
 * The pure helpers of a skill tile (SkillIcon.tsx): the initials shown when
 * the logo image fails, the darker gradient stop computed from the tile's
 * '#RRGGBB' fallback colour, and the grid cell a tile occupies in the
 * ripple effect.
 */
module SkillIcon {
  import opened Wrappers
  import opened Text

  // ---------------------------------------------------------------- initials

  /** `s.split(' ')`: the pieces between single spaces, empty pieces included. */
  function Split(s: string): (r: seq<string>)
    ensures |r| >= 1
    ensures forall i :: 0 <= i < |r| ==> ' ' !in r[i]
    decreases |s|
  {
    if s == [] then [[]]
    else if s[0] == ' ' then [[]] + Split(s[1..])
    else var rest := Split(s[1..]); [[s[0]] + rest[0]] + rest[1..]
  }

  /** `parts.join(' ')`. */
  function Join(parts: seq<string>): string
    decreases |parts|
  {
    if parts == [] then []
    else if |parts| == 1 then parts[0]
    else parts[0] + " " + Join(parts[1..])
  }

  /** `.filter(w => w.length > 0)`. */
  function NonEmpty(parts: seq<string>): (r: seq<string>)
    ensures forall i :: 0 <= i < |r| ==> r[i] != []
    ensures |r| <= |parts|
  {
    if parts == [] then []
    else if parts[0] == [] then NonEmpty(parts[1..])
    else [parts[0]] + NonEmpty(parts[1..])
  }

  /** The words of a skill name: its space-separated non-empty pieces. */
  function Words(s: string): seq<string> {
    NonEmpty(Split(s))
  }

  function Concat(parts: seq<string>): string {
    if parts == [] then [] else parts[0] + Concat(parts[1..])
  }

  /** The name with its spaces taken out. */
  function RemoveSpaces(s: string): (r: string)
    ensures ' ' !in r
  {
    if s == [] then [] else (if s[0] == ' ' then [] else [s[0]]) + RemoveSpaces(s[1..])
  }

  /** `getInitials`: the first letters of the first two words, else the first two characters; upper-cased. */
  function GetInitials(text: string): string {
    var words := Words(text);
    if |words| >= 2 then Upper([words[0][0], words[1][0]])
    else Upper(text[..if |text| < 2 then |text| else 2])
  }

  /** Splitting on spaces and joining with spaces gives the name back. */
  lemma {:induction false} SplitJoin(s: string)
    ensures Join(Split(s)) == s
    decreases |s|
  {
    if s != [] {
      SplitJoin(s[1..]);
      var rest := Split(s[1..]);
      if s[0] != ' ' {
        if |rest| == 1 {
          assert Split(s) == [[s[0]] + rest[0]];
        } else {
          assert Split(s)[1..] == rest[1..];
          assert [s[0]] + rest[0] + " " + Join(rest[1..]) == [s[0]] + (rest[0] + " " + Join(rest[1..]));
        }
        assert s == [s[0]] + s[1..];
      } else {
        assert Split(s)[1..] == rest;
        assert s == " " + s[1..];
      }
    }
  }

  lemma {:induction false} ConcatNonEmpty(parts: seq<string>)
    ensures Concat(NonEmpty(parts)) == Concat(parts)
  {
    if parts != [] {
      ConcatNonEmpty(parts[1..]);
      var tail := NonEmpty(parts[1..]);
      if parts[0] != [] {
        var r := [parts[0]] + tail;
        assert NonEmpty(parts) == r;
        assert r[0] == parts[0] && r[1..] == tail;
        assert Concat(r) == parts[0] + Concat(tail);
      } else {
        assert NonEmpty(parts) == tail;
        assert Concat(parts) == [] + Concat(parts[1..]);
      }
    }
  }

  /** The pieces of a split, put end to end, are the name without its spaces. */
  lemma {:induction false} ConcatSplit(s: string)
    ensures Concat(Split(s)) == RemoveSpaces(s)
    decreases |s|
  {
    if s != [] {
      ConcatSplit(s[1..]);
      var rest := Split(s[1..]);
      if s[0] != ' ' {
        var r := Split(s);
        assert r[1..] == rest[1..];
        assert Concat(rest) == rest[0] + Concat(rest[1..]);
        assert Concat(r) == ([s[0]] + rest[0]) + Concat(rest[1..]);
      } else {
        assert Split(s)[1..] == rest;
      }
    }
  }

  /** The words, put end to end, are the name without its spaces. */
  lemma WordsCoverName(s: string)
    ensures Concat(Words(s)) == RemoveSpaces(s)
  {
    ConcatNonEmpty(Split(s));
    ConcatSplit(s);
  }

  /**
   * The initials are at most two characters, upper-cased. With two or more
   * words the first initial is the name's first non-space character and the
   * second starts the second word; otherwise they are the name's first two
   * characters.
   */
  lemma GetInitialsSpec(text: string)
    ensures |GetInitials(text)| <= 2
    ensures forall i :: 0 <= i < |GetInitials(text)| ==> !IsAsciiLower(GetInitials(text)[i])
    ensures |Words(text)| >= 2 ==>
              |GetInitials(text)| == 2
              && RemoveSpaces(text) != []
              && GetInitials(text)[0] == UpperChar(RemoveSpaces(text)[0])
              && GetInitials(text)[1] == UpperChar(Words(text)[1][0])
    ensures |Words(text)| < 2 ==> GetInitials(text) == Upper(text[..if |text| < 2 then |text| else 2])
  {
    var words := Words(text);
    if |words| >= 2 {
      WordsCoverName(text);
      assert Concat(words) == words[0] + Concat(words[1..]);
      assert Concat(words)[0] == words[0][0];
    }
  }

  // -------------------------------------------------------------- hex colours

  predicate IsHexDigit(c: char) {
    ('0' <= c <= '9') || ('a' <= c <= 'f') || ('A' <= c <= 'F')
  }

  predicate IsHexString(s: string) {
    forall i :: 0 <= i < |s| ==> IsHexDigit(s[i])
  }

  /** The colours the tiles are given: '#' and six hex digits. */
  predicate IsHexColor(color: string) {
    |color| == 7 && color[0] == '#' && IsHexString(color[1..])
  }

  function HexValue(c: char): (v: nat)
    requires IsHexDigit(c)
    ensures v < 16
  {
    if '0' <= c <= '9' then c as int - '0' as int
    else if 'a' <= c <= 'f' then c as int - 'a' as int + 10
    else c as int - 'A' as int + 10
  }

  /** The lower-case digit `Number.prototype.toString(16)` writes. */
  function HexDigit(d: nat): (c: char)
    requires d < 16
    ensures IsHexDigit(c) && HexValue(c) == d
    ensures !('A' <= c <= 'F')
  {
    if d < 10 then ('0' as int + d) as char else ('a' as int + d - 10) as char
  }

  function Pow16(w: nat): (p: nat)
    ensures p >= 1
  {
    if w == 0 then 1 else 16 * Pow16(w - 1)
  }

  /** `parseInt(s, 16)` on a string of hex digits. */
  function ParseHex(s: string): (v: nat)
    requires IsHexString(s)
    ensures v < Pow16(|s|)
  {
    if s == [] then 0 else ParseHex(s[..|s| - 1]) * 16 + HexValue(s[|s| - 1])
  }

  /** The low `w` hex digits of `v`, zero-padded, lower-case. */
  function HexFixed(v: nat, w: nat): (r: string)
    ensures |r| == w && IsHexString(r)
    ensures forall i :: 0 <= i < |r| ==> !('A' <= r[i] <= 'F')
  {
    if w == 0 then [] else HexFixed(v / 16, w - 1) + [HexDigit(v % 16)]
  }

  /** `n.toString(16)`: no leading zeros, lower-case. */
  function NatToHex(n: nat): (r: string)
    ensures |r| >= 1
  {
    if n < 16 then [HexDigit(n)] else NatToHex(n / 16) + [HexDigit(n % 16)]
  }

  /** The clamp the source writes as `R < 255 ? (R < 1 ? 0 : R) : 255`. */
  function Clamp(x: int): (r: nat)
    ensures r <= 255
    ensures 0 <= x <= 255 ==> r == x
    ensures x < 0 ==> r == 0
    ensures x > 255 ==> r == 255
  {
    if x < 255 then (if x < 1 then 0 else x) else 255
  }

  /** `Math.round(2.55 * percent)`, computed exactly: round half up of 255 * percent / 100. */
  function BrightnessAmount(percent: int): int {
    (255 * percent + 50) / 100
  }

  /** `adjustBrightness`: shift each channel by the amount, clamp, and write `#rrggbb` from 0x1000000 + rgb. */
  function AdjustBrightness(color: string, percent: int): string
    requires IsHexColor(color)
  {
    var num := ParseHex(color[1..]);
    var amt := BrightnessAmount(percent);
    var r := num / 0x10000 + amt;
    var g := (num / 0x100) % 0x100 + amt;
    var b := num % 0x100 + amt;
    HexTriplet(Clamp(r), Clamp(g), Clamp(b))
  }

  /** The last step of `adjustBrightness`: '#' and the digits of 0x1000000 + rgb after its leading '1'. */
  function HexTriplet(r: nat, g: nat, b: nat): string {
    "#" + NatToHex(0x1000000 + r * 0x10000 + g * 0x100 + b)[1..]
  }

  /** The red, green and blue channels of a '#RRGGBB' colour. */
  function Red(color: string): nat requires IsHexColor(color) { ParseHex(color[1..3]) }
  function Green(color: string): nat requires IsHexColor(color) { ParseHex(color[3..5]) }
  function Blue(color: string): nat requires IsHexColor(color) { ParseHex(color[5..7]) }

  lemma DivMod16(q: nat, r: nat)
    requires r < 16
    ensures (16 * q + r) / 16 == q && (16 * q + r) % 16 == r
  {
  }

  lemma HexStringAppend(s: string, t: string)
    requires IsHexString(s) && IsHexString(t)
    ensures IsHexString(s + t)
  {
  }

  /** Reading `s` followed by two more digits `t` is reading `s`, shifted by a byte, plus `t`. */
  lemma ParseHexAppendByte(s: string, t: string)
    requires IsHexString(s) && IsHexString(t) && |t| == 2
    ensures IsHexString(s + t)
    ensures ParseHex(s + t) == ParseHex(s) * 0x100 + ParseHex(t)
  {
    HexStringAppend(s, t);
    var t0 := t[..1];
    var s0 := s + t0;
    assert ParseHex(s + t) == ParseHex(s0) * 16 + HexValue(t[1]) by {
      var st := s + t;
      assert st[..|st| - 1] == s0;
      assert st[|st| - 1] == t[1];
    }
    assert ParseHex(s0) == ParseHex(s) * 16 + HexValue(t[0]) by {
      assert s0[..|s0| - 1] == s;
      assert s0[|s0| - 1] == t[0];
    }
    assert ParseHex(t) == HexValue(t[0]) * 16 + HexValue(t[1]) by {
      assert t[..|t| - 1] == t0;
      assert t0[..0] == [];
    }
  }

  /** Writing `v` in `w` digits and reading it back gives `v`, when it fits. */
  lemma {:induction false} ParseHexFixed(v: nat, w: nat)
    requires v < Pow16(w)
    ensures ParseHex(HexFixed(v, w)) == v
  {
    if w > 0 {
      var p := Pow16(w - 1);
      assert v < 16 * p;
      assert v / 16 < p;
      ParseHexFixed(v / 16, w - 1);
      var init := HexFixed(v / 16, w - 1);
      var r := init + [HexDigit(v % 16)];
      assert HexFixed(v, w) == r;
      assert r[..|r| - 1] == init && r[|r| - 1] == HexDigit(v % 16);
      assert ParseHex(r) == ParseHex(init) * 16 + v % 16;
    }
  }

  /** Reading a digit string and writing it back in as many digits gives it back, lower-cased. */
  lemma {:induction false} HexFixedParse(s: string)
    requires IsHexString(s)
    ensures HexFixed(ParseHex(s), |s|) == Lower(s)
    decreases |s|
  {
    if s != [] {
      var init := s[..|s| - 1];
      var c := s[|s| - 1];
      HexFixedParse(init);
      var v := ParseHex(s);
      assert v / 16 == ParseHex(init) && v % 16 == HexValue(c);
      assert HexDigit(HexValue(c)) == LowerChar(c);
      assert Lower(s) == Lower(init) + [LowerChar(c)];
    }
  }

  /** `(16^w + v).toString(16)` is '1' followed by `v` in `w` digits. */
  lemma {:induction false} NatToHexOffset(v: nat, w: nat)
    requires v < Pow16(w)
    ensures NatToHex(Pow16(w) + v) == "1" + HexFixed(v, w)
  {
    if w > 0 {
      NatToHexOffset(v / 16, w - 1);
      var n := Pow16(w) + v;
      assert n == 16 * (Pow16(w - 1) + v / 16) + v % 16;
      DivMod16(Pow16(w - 1) + v / 16, v % 16);
    }
  }

  /** Three bytes packed as 0xRRGGBB unpack with the source's shifts and masks. */
  lemma ChannelArithmetic(r: nat, g: nat, b: nat)
    requires r < 0x100 && g < 0x100 && b < 0x100
    ensures var num := (r * 0x100 + g) * 0x100 + b;
            && num / 0x10000 == r
            && (num / 0x100) % 0x100 == g
            && num % 0x100 == b
  {
    var rg := r * 0x100 + g;
    var num := rg * 0x100 + b;
    assert num == 0x10000 * r + (0x100 * g + b);
    assert num / 0x100 == rg;
  }

  /** The six digits after '#' read as red, green and blue in turn. */
  lemma ColorNumber(color: string)
    requires IsHexColor(color)
    ensures ParseHex(color[1..]) == (Red(color) * 0x100 + Green(color)) * 0x100 + Blue(color)
  {
    assert color[1..] == color[1..3] + color[3..5] + color[5..7];
    assert color[1..3] + color[3..5] == color[1..5];
    ParseHexAppendByte(color[1..3], color[3..5]);
    ParseHexAppendByte(color[1..5], color[5..7]);
  }

  /** The six digits after '#' read as 0xRRGGBB. */
  lemma ColorChannels(color: string)
    requires IsHexColor(color)
    ensures var num := ParseHex(color[1..]);
            && num / 0x10000 == Red(color)
            && (num / 0x100) % 0x100 == Green(color)
            && num % 0x100 == Blue(color)
  {
    ColorNumber(color);
    Pow16Values();
    ChannelArithmetic(Red(color), Green(color), Blue(color));
  }

  /** The colour '#rrggbb' with these channels, written in lower case. */
  function ColorOf(r: nat, g: nat, b: nat): string {
    "#" + HexFixed(r, 2) + HexFixed(g, 2) + HexFixed(b, 2)
  }

  /** Reading back a written colour gives its channels. */
  lemma ColorOfChannels(r: nat, g: nat, b: nat)
    requires r <= 255 && g <= 255 && b <= 255
    ensures IsHexColor(ColorOf(r, g, b))
    ensures Red(ColorOf(r, g, b)) == r && Green(ColorOf(r, g, b)) == g && Blue(ColorOf(r, g, b)) == b
  {
    var c := ColorOf(r, g, b);
    assert c[1..3] == HexFixed(r, 2) && c[3..5] == HexFixed(g, 2) && c[5..7] == HexFixed(b, 2);
    assert c[1..] == HexFixed(r, 2) + HexFixed(g, 2) + HexFixed(b, 2);
    Pow16Values();
    ParseHexFixed(r, 2);
    ParseHexFixed(g, 2);
    ParseHexFixed(b, 2);
  }

  /** A colour is its channels written back, lower-cased. */
  lemma LowerColorIsColorOf(color: string)
    requires IsHexColor(color)
    ensures Lower(color) == ColorOf(Red(color), Green(color), Blue(color))
  {
    var c1, c2, c3 := color[1..3], color[3..5], color[5..7];
    var head := "#" + c1 + c2;
    assert color == head + c3;
    assert Lower(color) == Lower(head) + Lower(c3) by {
      LowerAppend(head, c3);
    }
    assert Lower(head) == Lower("#" + c1) + Lower(c2) by {
      LowerAppend("#" + c1, c2);
    }
    assert Lower("#" + c1) == "#" + Lower(c1) by {
      LowerAppend("#", c1);
    }
    HexFixedParse(c1);
    HexFixedParse(c2);
    HexFixedParse(c3);
  }

  /**
   * The adjusted colour is '#' and three two-digit lower-case channels, each
   * the input channel shifted by the amount and clamped to 0..255.
   */
  lemma AdjustBrightnessSpec(color: string, percent: int)
    requires IsHexColor(color)
    ensures var amt := BrightnessAmount(percent);
            AdjustBrightness(color, percent)
              == ColorOf(Clamp(Red(color) + amt), Clamp(Green(color) + amt), Clamp(Blue(color) + amt))
  {
    var amt := BrightnessAmount(percent);
    AdjustIsTriplet(color, percent);
    RgbLayout(Clamp(Red(color) + amt), Clamp(Green(color) + amt), Clamp(Blue(color) + amt));
  }

  /** The numeric step of `adjustBrightness`: the shifted channels are those of the colour. */
  lemma AdjustIsTriplet(color: string, percent: int)
    requires IsHexColor(color)
    ensures var amt := BrightnessAmount(percent);
            AdjustBrightness(color, percent)
              == HexTriplet(Clamp(Red(color) + amt), Clamp(Green(color) + amt), Clamp(Blue(color) + amt))
  {
    ColorChannels(color);
  }

  lemma Pow16Values()
    ensures Pow16(2) == 0x100 && Pow16(4) == 0x10000 && Pow16(6) == 0x1000000
  {
    assert Pow16(1) == 16;
    assert Pow16(3) == 0x1000;
    assert Pow16(5) == 0x100000;
  }

  /** Appending a byte: `(256x + b).toString(16)` is `x.toString(16)` then `b` in two digits. */
  lemma NatToHexByte(x: nat, b: nat)
    requires x >= 1 && b < 0x100
    ensures NatToHex(0x100 * x + b) == NatToHex(x) + HexFixed(b, 2)
  {
    var n := 0x100 * x + b;
    var m := 16 * x + b / 16;
    assert n == 16 * m + b % 16;
    DivMod16(m, b % 16);
    DivMod16(x, b / 16);
    DivMod16(0, b / 16);
    assert NatToHex(n) == NatToHex(m) + [HexDigit(b % 16)];
    assert NatToHex(m) == NatToHex(x) + [HexDigit(b / 16)];
    assert HexFixed(b, 2) == HexFixed(b / 16, 1) + [HexDigit(b % 16)];
    assert HexFixed(b / 16, 1) == HexFixed(0, 0) + [HexDigit(b / 16)];
  }

  lemma DropFirstAppend(a: string, c: string)
    requires |a| >= 1
    ensures (a + c)[1..] == a[1..] + c
  {
  }

  /** Without its leading digit, `(256x + b).toString(16)` is `x`'s digits after the first, then `b` in two. */
  lemma NatToHexByteTail(x: nat, b: nat)
    requires x >= 1 && b < 0x100
    ensures NatToHex(0x100 * x + b)[1..] == NatToHex(x)[1..] + HexFixed(b, 2)
  {
    NatToHexByte(x, b);
    DropFirstAppend(NatToHex(x), HexFixed(b, 2));
  }

  /** Without its leading '1', `(0x10000 + 0x100r + g).toString(16)` is `r` then `g` in two digits each. */
  lemma TwoBytesTail(r: nat, g: nat)
    requires r <= 255 && g <= 255
    ensures NatToHex(0x100 * (0x100 + r) + g)[1..] == HexFixed(r, 2) + HexFixed(g, 2)
  {
    NatToHexByteTail(1, r);
    assert NatToHex(1)[1..] == [];
    NatToHexByteTail(0x100 + r, g);
  }

  /** `(0x1000000 + rgb).toString(16).slice(1)` is the three channels in two lower-case digits each. */
  lemma RgbTail(r: nat, g: nat, b: nat)
    requires r <= 255 && g <= 255 && b <= 255
    ensures NatToHex(0x1000000 + r * 0x10000 + g * 0x100 + b)[1..] == HexFixed(r, 2) + HexFixed(g, 2) + HexFixed(b, 2)
  {
    var xg := 0x100 * (0x100 + r) + g;
    TwoBytesTail(r, g);
    NatToHexByteTail(xg, b);
    assert 0x1000000 + r * 0x10000 + g * 0x100 + b == 0x100 * xg + b;
  }

  /** The formatting step of `adjustBrightness` writes the colour '#rrggbb' of its three channels. */
  lemma RgbLayout(r: nat, g: nat, b: nat)
    requires r <= 255 && g <= 255 && b <= 255
    ensures HexTriplet(r, g, b) == ColorOf(r, g, b)
  {
    RgbTail(r, g, b);
    var hr, hg, hb := HexFixed(r, 2), HexFixed(g, 2), HexFixed(b, 2);
    assert "#" + (hr + hg + hb) == ColorOf(r, g, b);
  }

  /** Reading the channels of an adjusted colour gives the shifted, clamped channels. */
  lemma AdjustBrightnessChannels(color: string, percent: int)
    requires IsHexColor(color)
    ensures IsHexColor(AdjustBrightness(color, percent))
    ensures var out := AdjustBrightness(color, percent);
            var amt := BrightnessAmount(percent);
            && Red(out) == Clamp(Red(color) + amt)
            && Green(out) == Clamp(Green(color) + amt)
            && Blue(out) == Clamp(Blue(color) + amt)
  {
    AdjustBrightnessSpec(color, percent);
    var amt := BrightnessAmount(percent);
    WrittenChannels(AdjustBrightness(color, percent), Clamp(Red(color) + amt), Clamp(Green(color) + amt), Clamp(Blue(color) + amt));
  }

  /** A string equal to a written colour reads back as that colour's channels. */
  lemma WrittenChannels(out: string, r: nat, g: nat, b: nat)
    requires r <= 255 && g <= 255 && b <= 255 && out == ColorOf(r, g, b)
    ensures IsHexColor(out) && Red(out) == r && Green(out) == g && Blue(out) == b
  {
    ColorOfChannels(r, g, b);
  }

  /** A zero adjustment returns the colour itself, lower-cased. */
  lemma AdjustByZero(color: string)
    requires IsHexColor(color)
    ensures AdjustBrightness(color, 0) == Lower(color)
  {
    assert BrightnessAmount(0) == 0;
    ChannelBounds(color);
    AdjustBrightnessSpec(color, 0);
    LowerColorIsColorOf(color);
  }

  /** The tile passes -20: every channel loses 51, stopping at 0; darkening never brightens a channel. */
  lemma TileGradientDarkens(color: string)
    requires IsHexColor(color)
    ensures BrightnessAmount(-20) == -51
    ensures IsHexColor(AdjustBrightness(color, -20))
    ensures var out := AdjustBrightness(color, -20);
            && Red(out) == (if Red(color) >= 51 then Red(color) - 51 else 0)
            && Green(out) == (if Green(color) >= 51 then Green(color) - 51 else 0)
            && Blue(out) == (if Blue(color) >= 51 then Blue(color) - 51 else 0)
            && Red(out) <= Red(color) && Green(out) <= Green(color) && Blue(out) <= Blue(color)
  {
    AdjustBrightnessChannels(color, -20);
  }

  /** `Math.round(2.55 * percent)` has the sign of `percent`. */
  lemma AmountSign(percent: int)
    ensures percent <= 0 ==> BrightnessAmount(percent) <= 0
    ensures percent >= 0 ==> BrightnessAmount(percent) >= 0
  {
  }

  /** Each channel of a colour is one byte. */
  lemma ChannelBounds(color: string)
    requires IsHexColor(color)
    ensures Red(color) <= 255 && Green(color) <= 255 && Blue(color) <= 255
  {
    Pow16Values();
  }

  /** For every colour, a non-positive percentage never raises a channel and a non-negative one never lowers one. */
  lemma AdjustDirection(color: string, percent: int)
    requires IsHexColor(color)
    ensures IsHexColor(AdjustBrightness(color, percent))
    ensures var out := AdjustBrightness(color, percent);
            percent <= 0 ==> Red(out) <= Red(color) && Green(out) <= Green(color) && Blue(out) <= Blue(color)
    ensures var out := AdjustBrightness(color, percent);
            percent >= 0 ==> Red(out) >= Red(color) && Green(out) >= Green(color) && Blue(out) >= Blue(color)
  {
    AdjustBrightnessChannels(color, percent);
    AmountSign(percent);
    ChannelBounds(color);
  }

  // ------------------------------------------------------------------ ripple

  /** The ripple runs only for a real wave: a centre tile and a non-zero wave id. */
  predicate RippleActive(rippleCenterIndex: Option<nat>, rippleWaveId: int) {
    rippleCenterIndex.Some? && rippleWaveId != 0
  }

  /** A tile's (row, column) in the ripple grid, with at least one column. */
  function RippleCell(index: nat, rippleColumns: int): (cell: (nat, nat))
    ensures var cols := if rippleColumns < 1 then 1 else rippleColumns;
            cell.1 < cols && cell.0 * cols + cell.1 == index
  {
    var cols := if rippleColumns < 1 then 1 else rippleColumns;
    (index / cols, index % cols)
  }
}
