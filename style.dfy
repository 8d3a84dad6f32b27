/**
 * The `updateTextStyle` payload of `apply_text_formatting`
 * (src/mcp_google_workspace/server.py): the `text_style` dictionary and the `applied_styles`
 * list grown one optional argument at a time, the `fields` mask joined from the dictionary's
 * keys, and the parsing of the hex colour.
 */
module TextStyle {
  import opened Wrappers
  import opened PyStr
  import opened Api

  /** The optional style arguments of `apply_text_formatting`; `None` means "leave unchanged". */
  datatype StyleArgs = StyleArgs(
    bold: Option<bool>,
    italic: Option<bool>,
    underline: Option<bool>,
    fontSize: Option<int>,
    fontFamily: Option<string>,
    foregroundColor: Option<string>)

  /** No style argument was given. */
  predicate NoneGiven(args: StyleArgs) {
    args.bold.None? && args.italic.None? && args.underline.None?
    && args.fontSize.None? && args.fontFamily.None? && args.foregroundColor.None?
  }

  // ---- The hex colour: `foreground_color.lstrip('#')`, then `int(color_hex[k:k+2], 16)` three times ----

  /** `s.lstrip('#')` */
  function LStripHash(s: string): string {
    if s != "" && s[0] == '#' then LStripHash(s[1..]) else s
  }

  /** Python's `s[i:j]` for `0 <= i <= j`: the bounds are clipped to the string. */
  function Slice(s: string, i: nat, j: nat): (r: string)
    requires i <= j
    ensures |r| <= j - i
  {
    var lo := if i < |s| then i else |s|;
    var hi := if j < |s| then j else |s|;
    s[lo..hi]
  }

  function HexDigitValue(c: char): Option<nat> {
    if '0' <= c <= '9' then Some(c as int - '0' as int)
    else if 'a' <= c <= 'f' then Some(c as int - 'a' as int + 10)
    else if 'A' <= c <= 'F' then Some(c as int - 'A' as int + 10)
    else None
  }

  /** The value of a string of ASCII hex digits, most significant first; `None` if any character is not one. */
  function HexValue(digits: string): Option<nat> {
    if digits == "" then Some(0)
    else
      match (HexValue(digits[..|digits| - 1]), HexDigitValue(digits[|digits| - 1]))
      case (Some(high), Some(low)) => Some(high * 16 + low)
      case _ => None
  }

  /**
   * The characters `int(s, 16)` skips around its digits. It maps non-ASCII whitespace to a
   * space and then skips ASCII ` \t\n\v\f\r`, so the separators U+001C..U+001F, for which
   * `str.isspace()` holds, are not skipped.
   */
  predicate IsIntSpace(c: char) {
    IsSpace(c) && !('\U{1c}' <= c <= '\U{1f}')
  }

  /** `s` without the leading characters `int(s, 16)` skips. */
  function LStripIntSpace(s: string): string {
    if s != "" && IsIntSpace(s[0]) then LStripIntSpace(s[1..]) else s
  }

  /** `s` without the trailing characters `int(s, 16)` skips. */
  function RStripIntSpace(s: string): string {
    if s != "" && IsIntSpace(s[|s| - 1]) then RStripIntSpace(s[..|s| - 1]) else s
  }

  /** `s` without the leading and trailing characters `int(s, 16)` skips. */
  function StripIntSpace(s: string): string {
    RStripIntSpace(LStripIntSpace(s))
  }

  /**
   * `int(s, 16)` on a slice of at most two characters: surrounding whitespace is ignored, one
   * sign is allowed, and at least one hex digit must follow it.
   */
  function ParseHexSlice(s: string): Option<int> {
    var t := StripIntSpace(s);
    var negative := t != "" && t[0] == '-';
    var digits := if t != "" && (t[0] == '+' || t[0] == '-') then t[1..] else t;
    if digits == "" then None
    else
      match HexValue(digits)
      case None => None
      case Some(v) => var n: int := v; Some(if negative then -n else n)
  }

  /** Stripping only removes characters. */
  lemma {:induction false} LStripIntSpaceShorter(s: string)
    ensures |LStripIntSpace(s)| <= |s|
  {
    if s != "" && IsIntSpace(s[0]) {
      LStripIntSpaceShorter(s[1..]);
    }
  }

  /** Stripping only removes characters. */
  lemma {:induction false} RStripIntSpaceShorter(s: string)
    ensures |RStripIntSpace(s)| <= |s|
  {
    if s != "" && IsIntSpace(s[|s| - 1]) {
      RStripIntSpaceShorter(s[..|s| - 1]);
    }
  }

  /** Stripping only removes characters. */
  lemma {:induction false} StripIntSpaceShorter(s: string)
    ensures |StripIntSpace(s)| <= |s|
  {
    LStripIntSpaceShorter(s);
    RStripIntSpaceShorter(LStripIntSpace(s));
  }

  /** One hex digit is worth at most 15, two at most 255. */
  lemma HexValueBelow(digits: string)
    requires 1 <= |digits| <= 2 && HexValue(digits).Some?
    ensures HexValue(digits).value < if |digits| == 1 then 16 else 256
  {
    var last := |digits| - 1;
    assert HexDigitValue(digits[last]).value <= 15;
    if |digits| == 2 {
      assert HexValue(digits[..last]).value <= 15 by {
        assert digits[..last][..0] == "";
      }
    } else {
      assert digits[..last] == "";
    }
  }

  /** A slice of at most two characters reads as one sign and one digit, or as one or two digits: a value in -15..255. */
  lemma HexSliceRange(s: string)
    requires |s| <= 2
    ensures ParseHexSlice(s).Some? ==> -15 <= ParseHexSlice(s).value <= 255
  {
    var t := StripIntSpace(s);
    StripIntSpaceShorter(s);
    var digits := if t != "" && (t[0] == '+' || t[0] == '-') then t[1..] else t;
    if digits != "" && HexValue(digits).Some? {
      HexValueBelow(digits);
    }
  }

  /** The three components `apply_text_formatting` reads from a hex colour, before dividing each by 255.0. */
  function ParseHexColor(hex: string): (rgb: Option<(int, int, int)>)
    ensures rgb.Some? ==> -15 <= rgb.value.0 <= 255 && -15 <= rgb.value.1 <= 255 && -15 <= rgb.value.2 <= 255
  {
    var h := LStripHash(hex);
    HexSliceRange(Slice(h, 0, 2));
    HexSliceRange(Slice(h, 2, 4));
    HexSliceRange(Slice(h, 4, 6));
    var r := ParseHexSlice(Slice(h, 0, 2));
    var g := ParseHexSlice(Slice(h, 2, 4));
    var b := ParseHexSlice(Slice(h, 4, 6));
    if r.Some? && g.Some? && b.Some? then Some((r.value, g.value, b.value)) else None
  }

  predicate IsHexDigit(c: char) {
    HexDigitValue(c).Some?
  }

  /** The byte written as the two hex digits `high`, `low`. */
  function PairValue(high: char, low: char): nat
    requires IsHexDigit(high) && IsHexDigit(low)
  {
    HexDigitValue(high).value * 16 + HexDigitValue(low).value
  }

  /** Two hex digits, most significant first, read as one byte. */
  lemma HexValuePair(high: char, low: char)
    requires IsHexDigit(high) && IsHexDigit(low)
    ensures HexValue([high, low]) == Some(PairValue(high, low))
  {
    assert [high][..0] == "";
    assert HexValue([high]) == HexDigitValue(high);
    assert [high, low][..1] == [high];
  }

  /** Two hex digits at `k` read as one byte. */
  lemma HexPairSlice(h: string, k: nat)
    requires k + 2 <= |h| && IsHexDigit(h[k]) && IsHexDigit(h[k + 1])
    ensures ParseHexSlice(Slice(h, k, k + 2)) == Some(PairValue(h[k], h[k + 1]))
    ensures PairValue(h[k], h[k + 1]) < 256
  {
    var pair := Slice(h, k, k + 2);
    assert pair == [h[k], h[k + 1]];
    assert StripIntSpace(pair) == pair;
    HexValuePair(h[k], h[k + 1]);
  }

  /**
   * `int(s, 16)` skips a space around a digit but not the separator U+001C, although
   * `str.isspace()` holds for both; a colour padded with it is rejected.
   */
  lemma SeparatorNotSkipped()
    ensures IsSpace(' ') && IsSpace('\U{1c}')
    ensures ParseHexSlice(" f") == Some(15)
    ensures ParseHexSlice("\U{1c}f") == None
    ensures ParseHexColor("#\U{1c}f0000") == None
  {
  }

  /** A colour whose three slices parse reads as those three values. */
  lemma ColorFromSlices(hex: string, r: int, g: int, b: int)
    requires var h := LStripHash(hex);
      ParseHexSlice(Slice(h, 0, 2)) == Some(r) && ParseHexSlice(Slice(h, 2, 4)) == Some(g) && ParseHexSlice(Slice(h, 4, 6)) == Some(b)
    ensures ParseHexColor(hex) == Some((r, g, b))
  {
  }

  /** A `#rrggbb` colour reads as its three bytes, each within 0..255. */
  lemma SixDigitColor(hex: string)
    requires |hex| == 7 && hex[0] == '#'
    requires forall i :: 1 <= i < 7 ==> IsHexDigit(hex[i])
    ensures ParseHexColor(hex) == Some((PairValue(hex[1], hex[2]), PairValue(hex[3], hex[4]), PairValue(hex[5], hex[6])))
    ensures var (r, g, b) := ParseHexColor(hex).value; 0 <= r < 256 && 0 <= g < 256 && 0 <= b < 256
  {
    var h := hex[1..];
    var r, g, b := PairValue(hex[1], hex[2]), PairValue(hex[3], hex[4]), PairValue(hex[5], hex[6]);
    assert LStripHash(hex) == h by {
      assert LStripHash(hex) == LStripHash(h);
    }
    assert ParseHexSlice(Slice(h, 0, 2)) == Some(r) && r < 256 by {
      HexPairSlice(h, 0);
    }
    assert ParseHexSlice(Slice(h, 2, 4)) == Some(g) && g < 256 by {
      HexPairSlice(h, 2);
    }
    assert ParseHexSlice(Slice(h, 4, 6)) == Some(b) && b < 256 by {
      HexPairSlice(h, 4);
    }
    ColorFromSlices(hex, r, g, b);
  }

  /** The three-digit shorthand `#rgb` is not understood: its third slice is empty and `int('', 16)` raises. */
  lemma ShorthandColorRejected(hex: string)
    requires |hex| == 4 && hex[0] == '#' && hex[1] != '#'
    ensures ParseHexColor(hex) == None
  {
    assert LStripHash(hex) == LStripHash(hex[1..]) == hex[1..];
  }

  // ---- The payload ----

  /** The colour the arguments ask for, as its three bytes; `None` when none is given or it does not parse. */
  function ColorOf(args: StyleArgs): Option<(int, int, int)> {
    match args.foregroundColor
    case None => None
    case Some(hex) => ParseHexColor(hex)
  }

  /** The colour, when one is given, parses: the builder does not raise. */
  predicate ColorParses(args: StyleArgs) {
    args.foregroundColor.Some? ==> ParseHexColor(args.foregroundColor.value).Some?
  }

  /** `entry` is what the arguments ask for under its key, `color` standing for `ColorOf(args)`. */
  predicate Requested(args: StyleArgs, color: Option<(int, int, int)>, entry: StyleEntry) {
    match entry
    case Bold(on) => args.bold == Some(on)
    case Italic(on) => args.italic == Some(on)
    case Underline(on) => args.underline == Some(on)
    case FontSize(n) => args.fontSize == Some(n)
    case FontFamily(f) => args.fontFamily == Some(f)
    case ForegroundColor(r, g, b) => color == Some((r, g, b))
  }

  /** Keys appear in the fixed order bold, italic, underline, fontSize, fontFamily, foregroundColor, each at most once. */
  predicate InKeyOrder(style: seq<StyleEntry>) {
    forall i, j :: 0 <= i < j < |style| ==> style[i].Rank() < style[j].Rank()
  }

  /** `text_style.keys()` */
  function Keys(style: seq<StyleEntry>): (keys: seq<string>)
    ensures |keys| == |style|
    ensures forall i :: 0 <= i < |style| ==> keys[i] == style[i].Key()
  {
    if style == [] then [] else [style[0].Key()] + Keys(style[1..])
  }

  /** `','.join(text_style.keys())` */
  function Fields(style: seq<StyleEntry>): string {
    Join(Keys(style), ',')
  }

  /** The `applied_styles` entry that accompanies `entry`; the colour is echoed as it was given. */
  function Label(entry: StyleEntry, hex: string): StyleLabel {
    match entry
    case Bold(on) => if on then BoldOn else BoldOff
    case Italic(on) => if on then ItalicOn else ItalicOff
    case Underline(on) => if on then UnderlineOn else UnderlineOff
    case FontSize(n) => SizeLabel(n)
    case FontFamily(f) => FamilyLabel(f)
    case ForegroundColor(_, _, _) => ColorLabel(hex)
  }

  /** The `applied_styles` list that accompanies `style`, one label per key, in the same order. */
  function Labels(style: seq<StyleEntry>, hex: string): (labels: seq<StyleLabel>)
    ensures |labels| == |style|
  {
    if style == [] then [] else Labels(style[..|style| - 1], hex) + [Label(style[|style| - 1], hex)]
  }

  /** What the builder's block for the key of rank `k` adds to `text_style`. */
  function Part(args: StyleArgs, color: Option<(int, int, int)>, k: nat): (part: seq<StyleEntry>)
    requires k < 6
    ensures |part| <= 1
  {
    if k == 0 then (if args.bold.Some? then [Bold(args.bold.value)] else [])
    else if k == 1 then (if args.italic.Some? then [Italic(args.italic.value)] else [])
    else if k == 2 then (if args.underline.Some? then [Underline(args.underline.value)] else [])
    else if k == 3 then (if args.fontSize.Some? then [FontSize(args.fontSize.value)] else [])
    else if k == 4 then (if args.fontFamily.Some? then [FontFamily(args.fontFamily.value)] else [])
    else if color.Some? then [ForegroundColor(color.value.0, color.value.1, color.value.2)]
    else []
  }

  /** The block for rank `k` adds only an entry of that rank. */
  lemma PartRank(args: StyleArgs, color: Option<(int, int, int)>, k: nat)
    requires k < 6
    ensures forall e :: e in Part(args, color, k) ==> e.Rank() == k
  {
  }

  /** The `text_style` dictionary after the blocks for the first `n` keys have run. */
  function Upto(args: StyleArgs, color: Option<(int, int, int)>, n: nat): seq<StyleEntry>
    requires n <= 6
  {
    if n == 0 then [] else Upto(args, color, n - 1) + Part(args, color, n - 1)
  }

  /** The whole `text_style` dictionary. */
  function Payload(args: StyleArgs): seq<StyleEntry> {
    Upto(args, ColorOf(args), 6)
  }

  /** After the first `n` blocks the keys are in the fixed order, and exactly the requested entries of rank below `n` are present. */
  lemma {:induction false} UptoProperties(args: StyleArgs, color: Option<(int, int, int)>, n: nat)
    requires n <= 6
    ensures InKeyOrder(Upto(args, color, n))
    ensures forall e :: e in Upto(args, color, n) <==> Requested(args, color, e) && e.Rank() < n
  {
    if n > 0 {
      UptoProperties(args, color, n - 1);
      var prefix, part := Upto(args, color, n - 1), Part(args, color, n - 1);
      PartRank(args, color, n - 1);
      var whole: seq<StyleEntry> := prefix + part;
      assert Upto(args, color, n) == whole;
      forall i, j | 0 <= i < j < |whole|
        ensures whole[i].Rank() < whole[j].Rank()
      {
        if j >= |prefix| {
          assert whole[j] in part;
          assert i < |prefix|;
          assert whole[i] in prefix;
        }
      }
    }
  }

  /** Every block runs for its argument: the dictionary is empty exactly when no argument was given. */
  lemma UptoEmptyIff(args: StyleArgs, color: Option<(int, int, int)>)
    requires args.foregroundColor.Some? <==> color.Some?
    ensures Upto(args, color, 6) == [] <==> NoneGiven(args)
  {
    UptoProperties(args, color, 6);
    if !NoneGiven(args) {
      if args.bold.Some? {
        assert Requested(args, color, Bold(args.bold.value));
      } else if args.italic.Some? {
        assert Requested(args, color, Italic(args.italic.value));
      } else if args.underline.Some? {
        assert Requested(args, color, Underline(args.underline.value));
      } else if args.fontSize.Some? {
        assert Requested(args, color, FontSize(args.fontSize.value));
      } else if args.fontFamily.Some? {
        assert Requested(args, color, FontFamily(args.fontFamily.value));
      } else {
        var rgb := color.value;
        assert Requested(args, color, ForegroundColor(rgb.0, rgb.1, rgb.2));
      }
    }
  }

  /**
   * The payload holds one entry per argument given, in the fixed key order, and is empty exactly
   * when no argument was given; a colour is present as its parsed bytes.
   */
  lemma PayloadProperties(args: StyleArgs)
    requires ColorParses(args)
    ensures InKeyOrder(Payload(args))
    ensures forall e :: e in Payload(args) <==> Requested(args, ColorOf(args), e)
    ensures Payload(args) == [] <==> NoneGiven(args)
  {
    UptoProperties(args, ColorOf(args), 6);
    UptoEmptyIff(args, ColorOf(args));
  }

  /** One more entry adds its label at the end. */
  lemma LabelsSnoc(style: seq<StyleEntry>, labels: seq<StyleLabel>, entry: StyleEntry, shown: StyleLabel, hex: string)
    requires labels == Labels(style, hex) && shown == Label(entry, hex)
    ensures labels + [shown] == Labels(style + [entry], hex)
  {
    assert (style + [entry])[..|style|] == style;
  }

  /** One block appends the part of its rank to `text_style` and the matching label to `applied_styles`. */
  lemma BlockStep(args: StyleArgs, color: Option<(int, int, int)>, hex: string, k: nat, given: bool, entry: StyleEntry,
                  s: seq<StyleEntry>, a: seq<StyleLabel>, s': seq<StyleEntry>, a': seq<StyleLabel>)
    requires k < 6 && Part(args, color, k) == (if given then [entry] else [])
    requires s == Upto(args, color, k) && a == Labels(s, hex)
    requires if given then s' == s + [entry] && a' == a + [Label(entry, hex)] else s' == s && a' == a
    ensures s' == Upto(args, color, k + 1) && a' == Labels(s', hex)
  {
    if given {
      LabelsSnoc(s, a, entry, Label(entry, hex), hex);
    }
  }

  /**
   * After the blocks for the first `k` keys, `s` is the dictionary built so far and `a` its labels,
   * in the same order; `color` stands for the parsed colour and `hex` for the colour as given.
   */
  predicate Built(args: StyleArgs, color: Option<(int, int, int)>, hex: string, k: nat, s: seq<StyleEntry>, a: seq<StyleLabel>) {
    k <= 6 && s == Upto(args, color, k) && a == Labels(s, hex)
  }

  /** The `bold` block, run on the empty dictionary and list. */
  lemma BoldBlock(args: StyleArgs, color: Option<(int, int, int)>, hex: string, s': seq<StyleEntry>, a': seq<StyleLabel>)
    requires if args.bold.Some? then s' == [] + [Bold(args.bold.value)] && a' == [] + [if args.bold.value then BoldOn else BoldOff]
             else s' == [] && a' == []
    ensures Built(args, color, hex, 1, s', a')
  {
    BlockStep(args, color, hex, 0, args.bold.Some?, Bold(args.bold.GetOr(false)), [], [], s', a');
  }

  /** The `italic` block appends the entry of rank 1 and its label when the argument is given. */
  lemma ItalicBlock(args: StyleArgs, color: Option<(int, int, int)>, hex: string, s: seq<StyleEntry>, a: seq<StyleLabel>, s': seq<StyleEntry>, a': seq<StyleLabel>)
    requires Built(args, color, hex, 1, s, a)
    requires if args.italic.Some? then s' == s + [Italic(args.italic.value)] && a' == a + [if args.italic.value then ItalicOn else ItalicOff]
             else s' == s && a' == a
    ensures Built(args, color, hex, 2, s', a')
  {
    BlockStep(args, color, hex, 1, args.italic.Some?, Italic(args.italic.GetOr(false)), s, a, s', a');
  }

  /** The `underline` block appends the entry of rank 2 and its label when the argument is given. */
  lemma UnderlineBlock(args: StyleArgs, color: Option<(int, int, int)>, hex: string, s: seq<StyleEntry>, a: seq<StyleLabel>, s': seq<StyleEntry>, a': seq<StyleLabel>)
    requires Built(args, color, hex, 2, s, a)
    requires if args.underline.Some? then s' == s + [Underline(args.underline.value)] && a' == a + [if args.underline.value then UnderlineOn else UnderlineOff]
             else s' == s && a' == a
    ensures Built(args, color, hex, 3, s', a')
  {
    BlockStep(args, color, hex, 2, args.underline.Some?, Underline(args.underline.GetOr(false)), s, a, s', a');
  }

  /** The `fontSize` block appends the entry of rank 3 and its label when the argument is given. */
  lemma FontSizeBlock(args: StyleArgs, color: Option<(int, int, int)>, hex: string, s: seq<StyleEntry>, a: seq<StyleLabel>, s': seq<StyleEntry>, a': seq<StyleLabel>)
    requires Built(args, color, hex, 3, s, a)
    requires if args.fontSize.Some? then s' == s + [FontSize(args.fontSize.value)] && a' == a + [SizeLabel(args.fontSize.value)]
             else s' == s && a' == a
    ensures Built(args, color, hex, 4, s', a')
  {
    BlockStep(args, color, hex, 3, args.fontSize.Some?, FontSize(args.fontSize.GetOr(0)), s, a, s', a');
  }

  /** The `fontFamily` block appends the entry of rank 4 and its label when the argument is given. */
  lemma FontFamilyBlock(args: StyleArgs, color: Option<(int, int, int)>, hex: string, s: seq<StyleEntry>, a: seq<StyleLabel>, s': seq<StyleEntry>, a': seq<StyleLabel>)
    requires Built(args, color, hex, 4, s, a)
    requires if args.fontFamily.Some? then s' == s + [FontFamily(args.fontFamily.value)] && a' == a + [FamilyLabel(args.fontFamily.value)]
             else s' == s && a' == a
    ensures Built(args, color, hex, 5, s', a')
  {
    BlockStep(args, color, hex, 4, args.fontFamily.Some?, FontFamily(args.fontFamily.GetOr("")), s, a, s', a');
  }

  /** The `foreground_color` block for a colour that parsed as `rgb` completes the payload. */
  lemma ColorGiven(args: StyleArgs, rgb: (int, int, int), s: seq<StyleEntry>, a: seq<StyleLabel>,
                   s': seq<StyleEntry>, a': seq<StyleLabel>)
    requires args.foregroundColor.Some? && ColorOf(args) == Some(rgb)
    requires Built(args, ColorOf(args), args.foregroundColor.value, 5, s, a)
    requires s' == s + [ForegroundColor(rgb.0, rgb.1, rgb.2)] && a' == a + [ColorLabel(args.foregroundColor.value)]
    ensures s' == Payload(args) && a' == Labels(s', args.foregroundColor.GetOr(""))
  {
    BlockStep(args, Some(rgb), args.foregroundColor.value, 5, true, ForegroundColor(rgb.0, rgb.1, rgb.2), s, a, s', a');
  }

  /** Without a colour, the `foreground_color` block does nothing and the payload is complete. */
  lemma ColorAbsent(args: StyleArgs, s: seq<StyleEntry>, a: seq<StyleLabel>)
    requires args.foregroundColor.None? && Built(args, ColorOf(args), "", 5, s, a)
    ensures s == Payload(args) && a == Labels(s, args.foregroundColor.GetOr(""))
  {
    assert Part(args, ColorOf(args), 5) == [];
  }

  datatype StyleBuild = StyleBuild(textStyle: seq<StyleEntry>, applied: seq<StyleLabel>)

  /**
   * Lines 479-514: one entry per argument that is not `None`, appended in the fixed key order,
   * with its label; a colour that does not parse raises `ValueError`.
   */
  method BuildTextStyle(args: StyleArgs) returns (r: Result<StyleBuild, Cause>)
    ensures r.Err? <==> args.foregroundColor.Some? && ParseHexColor(args.foregroundColor.value).None?
    ensures r.Err? ==> r.error == InvalidHexColor(args.foregroundColor.value)
    ensures r.Ok? ==> r.value.textStyle == Payload(args)
    ensures r.Ok? ==> r.value.applied == Labels(r.value.textStyle, args.foregroundColor.GetOr(""))
  {
    var textStyle: seq<StyleEntry> := [];
    var applied: seq<StyleLabel> := [];
    ghost var color, hex := ColorOf(args), args.foregroundColor.GetOr("");

    if args.bold.Some? {
      textStyle := textStyle + [Bold(args.bold.value)];
      applied := applied + [if args.bold.value then BoldOn else BoldOff];
    }
    BoldBlock(args, color, hex, textStyle, applied);

    ghost var s1, a1 := textStyle, applied;
    if args.italic.Some? {
      textStyle := textStyle + [Italic(args.italic.value)];
      applied := applied + [if args.italic.value then ItalicOn else ItalicOff];
    }
    ItalicBlock(args, color, hex, s1, a1, textStyle, applied);

    ghost var s2, a2 := textStyle, applied;
    if args.underline.Some? {
      textStyle := textStyle + [Underline(args.underline.value)];
      applied := applied + [if args.underline.value then UnderlineOn else UnderlineOff];
    }
    UnderlineBlock(args, color, hex, s2, a2, textStyle, applied);

    ghost var s3, a3 := textStyle, applied;
    if args.fontSize.Some? {
      textStyle := textStyle + [FontSize(args.fontSize.value)];
      applied := applied + [SizeLabel(args.fontSize.value)];
    }
    FontSizeBlock(args, color, hex, s3, a3, textStyle, applied);

    ghost var s4, a4 := textStyle, applied;
    if args.fontFamily.Some? {
      textStyle := textStyle + [FontFamily(args.fontFamily.value)];
      applied := applied + [FamilyLabel(args.fontFamily.value)];
    }
    FontFamilyBlock(args, color, hex, s4, a4, textStyle, applied);

    r := AddForegroundColor(args, textStyle, applied);
  }

  /**
   * Lines 502-514, the last block of `BuildTextStyle`: parse the colour, raising when it does
   * not parse, and append its entry and label to the dictionary built from the other five.
   */
  method AddForegroundColor(args: StyleArgs, textStyle: seq<StyleEntry>, applied: seq<StyleLabel>)
    returns (r: Result<StyleBuild, Cause>)
    requires Built(args, ColorOf(args), args.foregroundColor.GetOr(""), 5, textStyle, applied)
    ensures r.Err? <==> args.foregroundColor.Some? && ParseHexColor(args.foregroundColor.value).None?
    ensures r.Err? ==> r.error == InvalidHexColor(args.foregroundColor.value)
    ensures r.Ok? ==> r.value.textStyle == Payload(args)
    ensures r.Ok? ==> r.value.applied == Labels(r.value.textStyle, args.foregroundColor.GetOr(""))
  {
    if args.foregroundColor.Some? {
      var value := args.foregroundColor.value;
      var rgb := ParseHexColor(value);
      if rgb.None? {
        return Err(InvalidHexColor(value));
      }
      var textStyle', applied' := textStyle + [ForegroundColor(rgb.value.0, rgb.value.1, rgb.value.2)], applied + [ColorLabel(value)];
      ColorGiven(args, rgb.value, textStyle, applied, textStyle', applied');
      return Ok(StyleBuild(textStyle', applied'));
    } else {
      ColorAbsent(args, textStyle, applied);
      return Ok(StyleBuild(textStyle, applied));
    }
  }

  /** No key contains a comma. */
  lemma KeysHaveNoComma(style: seq<StyleEntry>)
    ensures forall i :: 0 <= i < |Keys(style)| ==> ',' !in Keys(style)[i]
  {
    forall i | 0 <= i < |style|
      ensures ',' !in style[i].Key()
    {
      match style[i]
      case Bold(_) =>
      case Italic(_) =>
      case Underline(_) =>
      case FontSize(_) =>
      case FontFamily(_) =>
      case ForegroundColor(_, _, _) =>
    }
  }

  /** The `fields` mask names exactly the keys of `textStyle`, in order: splitting it at commas gives them back. */
  lemma FieldsMatchKeys(style: seq<StyleEntry>)
    requires style != []
    ensures Split(Fields(style), ',') == Keys(style)
  {
    KeysHaveNoComma(style);
    SplitJoin(Keys(style), ',');
  }

  /** Entries of different ranks have different keys (the six key names differ in length). */
  lemma DistinctRanksDistinctKeys(a: StyleEntry, b: StyleEntry)
    requires a.Rank() != b.Rank()
    ensures a.Key() != b.Key()
  {
    assert |a.Key()| != |b.Key()|;
  }

  /** Keys in the fixed order are distinct. */
  lemma KeysDistinct(style: seq<StyleEntry>)
    requires InKeyOrder(style)
    ensures forall i, j :: 0 <= i < j < |style| ==> Keys(style)[i] != Keys(style)[j]
  {
    forall i, j | 0 <= i < j < |style|
      ensures style[i].Key() != style[j].Key()
    {
      assert style[i].Rank() < style[j].Rank();
      DistinctRanksDistinctKeys(style[i], style[j]);
    }
  }

  /** In a key-ordered sequence the first entry has the lowest rank, and is the only entry of that rank. */
  lemma HeadHasLowestRank(s: seq<StyleEntry>, e: StyleEntry)
    requires InKeyOrder(s) && e in s
    ensures s[0].Rank() <= e.Rank()
    ensures e.Rank() == s[0].Rank() ==> e == s[0]
  {
    var i :| 0 <= i < |s| && s[i] == e;
    if i > 0 {
      assert s[0].Rank() < s[i].Rank();
    }
  }

  /** The tail of a key-ordered sequence holds exactly its entries of rank above the first. */
  lemma TailAboveHead(s: seq<StyleEntry>, e: StyleEntry)
    requires InKeyOrder(s) && s != []
    ensures e in s[1..] <==> e in s && e.Rank() > s[0].Rank()
  {
    if e in s[1..] {
      var i :| 0 <= i < |s[1..]| && s[1..][i] == e;
      assert s[i + 1] == e;
    }
    if e in s && e.Rank() > s[0].Rank() {
      var i :| 0 <= i < |s| && s[i] == e;
      assert i != 0;
      assert s[1..][i - 1] == e;
    }
  }

  /**
   * The payload is determined by the arguments: two key-ordered payloads holding the same
   * entries are the same sequence. With `BuildTextStyle`'s contract this says the builder
   * yields the one payload with one key per argument given, in the fixed order.
   */
  lemma {:induction false} StyleDeterminedByEntries(s1: seq<StyleEntry>, s2: seq<StyleEntry>)
    requires InKeyOrder(s1) && InKeyOrder(s2)
    requires forall e :: e in s1 <==> e in s2
    ensures s1 == s2
    decreases |s1|
  {
    assert s1 == [] <==> s2 == [] by {
      if s1 != [] {
        assert s1[0] in s2;
      }
      if s2 != [] {
        assert s2[0] in s1;
      }
    }
    if s1 != [] {
      assert s1[0] in s2 && s2[0] in s1;
      HeadHasLowestRank(s1, s2[0]);
      HeadHasLowestRank(s2, s1[0]);
      forall e
        ensures e in s1[1..] <==> e in s2[1..]
      {
        TailAboveHead(s1, e);
        TailAboveHead(s2, e);
      }
      assert InKeyOrder(s1[1..]) && InKeyOrder(s2[1..]);
      StyleDeterminedByEntries(s1[1..], s2[1..]);
      assert s1 == [s1[0]] + s1[1..] && s2 == [s2[0]] + s2[1..];
    }
  }
}
