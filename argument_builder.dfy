/**
 * The argument builder of the HTML-to-image service: a request's `Config`
 * becomes the ordered command-line tokens handed to the external renderer.
 *
 * `Options` is the specification: the list of options, in their fixed order,
 * that a configuration asks for (a zero number, an empty string or a false
 * switch asks for none). `Arguments` writes them out as tokens, and
 * `GenerateArguments` builds the same tokens step by step.
 */
module ArgumentBuilder {
  import opened Wrappers
  import opened Decimal
  import opened QueryEscape

  /** Go's `int` on a 64-bit platform. */
  newtype int64 = x: int | -0x8000_0000_0000_0000 <= x < 0x8000_0000_0000_0000

  datatype Cookie = Cookie(key: string, value: seq<byte>)

  /** Zero in any field means "not given". */
  datatype Crop = Crop(x: int64, y: int64, w: int64, h: int64)

  datatype Config = Config(
    format: string,
    width: int64,
    height: int64,
    disableSmartWidth: bool,
    encoding: string,
    crop: Crop,
    quality: int64,
    transparent: bool,
    cookies: seq<Cookie>)

  const ValidFormats: set<string> := {"png", "jpg", "jpeg", "svg", "bmp"}

  /** Membership in the whitelist; a valid format is a non-empty lower-case word. */
  function IsValidFormat(format: string): (ok: bool)
    ensures ok ==> format != ""
    ensures ok ==> forall i :: 0 <= i < |format| ==> 'a' <= format[i] <= 'z'
  {
    format in ValidFormats
  }

  /** The renderer flags the builder emits. */
  datatype Key =
    | Format | Width | Height | DisableSmartWidth | Encoding | Quality | Transparent
    | CropX | CropY | CropH | CropW | CookieFlag

  /** How each flag is written on the command line. */
  function Spelling(k: Key): string {
    match k
    case Format => "-f"
    case Width => "--width"
    case Height => "--height"
    case DisableSmartWidth => "--disable-smart-width"
    case Encoding => "--encoding"
    case Quality => "--quality"
    case Transparent => "--transparent"
    case CropX => "--crop-x"
    case CropY => "--crop-y"
    case CropH => "--crop-h"
    case CropW => "--crop-w"
    case CookieFlag => "--cookie"
  }

  /** The two switches; every other flag is followed by a value. */
  predicate TakesValue(k: Key) {
    k != DisableSmartWidth && k != Transparent
  }

  /** One command-line item: a switch, a flag with its value, or a positional argument. */
  datatype Opt = Flag(key: Key) | Valued(key: Key, value: string) | Positional(token: string)

  function Tokens(o: Opt): seq<string> {
    match o
    case Flag(k) => [Spelling(k)]
    case Valued(k, v) => [Spelling(k), v]
    case Positional(t) => [t]
  }

  function Flatten(opts: seq<Opt>): seq<string> {
    if opts == [] then [] else Tokens(opts[0]) + Flatten(opts[1..])
  }

  function IntOption(k: Key, n: int64): seq<Opt> {
    if n != 0 then [Valued(k, FormatInt(n as int))] else []
  }

  function BoolOption(k: Key, on: bool): seq<Opt> {
    if on then [Flag(k)] else []
  }

  function StringOption(k: Key, s: string): seq<Opt> {
    if s != "" then [Valued(k, s)] else []
  }

  /**
   * `key=value` with the value query-escaped and the key as given. The `=`
   * after the key is the token's last one, so the pair can be split there.
   */
  function CookieToken(k: Cookie): (t: string)
    ensures |t| > |k.key| && t[..|k.key|] == k.key && t[|k.key|] == '='
    ensures forall i :: |k.key| < i < |t| ==> t[i] != '='
  {
    EscapeIsEscaped(k.value);
    EscapedHasNoSpaceOrEquals(Escape(k.value));
    k.key + "=" + Escape(k.value)
  }

  function CookieOptions(cs: seq<Cookie>): seq<Opt> {
    if cs == [] then [] else [Valued(CookieFlag, CookieToken(cs[0]))] + CookieOptions(cs[1..])
  }

  /** The options before the cookies, in the order the builder emits them (crop-h before crop-w). */
  function FixedOptions(c: Config): seq<Opt> {
    [Valued(Format, c.format)]
    + IntOption(Width, c.width)
    + IntOption(Height, c.height)
    + BoolOption(DisableSmartWidth, c.disableSmartWidth)
    + StringOption(Encoding, c.encoding)
    + IntOption(Quality, c.quality)
    + BoolOption(Transparent, c.transparent)
    + IntOption(CropX, c.crop.x)
    + IntOption(CropY, c.crop.y)
    + IntOption(CropH, c.crop.h)
    + IntOption(CropW, c.crop.w)
  }

  function Options(c: Config): seq<Opt> {
    FixedOptions(c) + CookieOptions(c.cookies)
  }

  function Arguments(c: Config): seq<string> {
    Flatten(Options(c))
  }

  /** What `generateArguments` returns: an error for a format outside the whitelist, else the tokens. */
  function BuildArguments(c: Config): Result<seq<string>> {
    if !IsValidFormat(c.format) then Failure("invalid format: " + c.format) else Success(Arguments(c))
  }

  lemma {:induction false} FlattenAppend(a: seq<Opt>, b: seq<Opt>)
    ensures Flatten(a + b) == Flatten(a) + Flatten(b)
  {
    if a == [] {
      assert a + b == b;
    } else {
      var ab := a + b;
      assert ab != [] && ab[0] == a[0] && ab[1..] == a[1..] + b;
      FlattenAppend(a[1..], b);
    }
  }

  lemma {:induction false} CookieOptionsSnoc(cs: seq<Cookie>, k: Cookie)
    ensures CookieOptions(cs + [k]) == CookieOptions(cs) + [Valued(CookieFlag, CookieToken(k))]
  {
    if cs != [] {
      CookieOptionsSnoc(cs[1..], k);
      assert (cs + [k])[1..] == cs[1..] + [k];
    }
  }

  /** One step of the builder: `after` extends the tokens of `emitted` by those of `seg`. */
  lemma Emit(before: seq<string>, emitted: seq<Opt>, seg: seq<Opt>, after: seq<string>)
    requires before == Flatten(emitted)
    requires after == before + Flatten(seg)
    ensures after == Flatten(emitted + seg)
  {
    FlattenAppend(emitted, seg);
  }

  lemma EmitCookie(before: seq<string>, emitted: seq<Opt>, cs: seq<Cookie>, i: nat, after: seq<string>)
    requires i < |cs|
    requires before == Flatten(emitted + CookieOptions(cs[..i]))
    requires after == before + ["--cookie", cs[i].key + "=" + Escape(cs[i].value)]
    ensures after == Flatten(emitted + CookieOptions(cs[..i + 1]))
  {
    var seg := [Valued(CookieFlag, CookieToken(cs[i]))];
    CookieOptionsSnoc(cs[..i], cs[i]);
    assert cs[..i + 1] == cs[..i] + [cs[i]];
    assert emitted + CookieOptions(cs[..i + 1]) == (emitted + CookieOptions(cs[..i])) + seg;
    assert seg[1..] == [];
    Emit(before, emitted + CookieOptions(cs[..i]), seg, after);
  }

  /** The builder's cookie loop: `--cookie key=escaped-value` for each cookie, in order. */
  method AppendCookies(arguments: seq<string>, ghost emitted: seq<Opt>, cookies: seq<Cookie>) returns (r: seq<string>)
    requires arguments == Flatten(emitted)
    ensures r == Flatten(emitted + CookieOptions(cookies))
  {
    r := arguments;
    assert emitted + CookieOptions(cookies[..0]) == emitted;
    if |cookies| > 0 {
      for i := 0 to |cookies|
        invariant r == Flatten(emitted + CookieOptions(cookies[..i]))
      {
        var cookie := cookies[i];
        var before := r;
        r := r + ["--cookie", cookie.key + "=" + Escape(cookie.value)];
        EmitCookie(before, emitted, cookies, i, r);
      }
    }
    assert cookies[..|cookies|] == cookies;
  }

  /** Step of the builder for a number: flag and decimal rendering, unless the number is zero. */
  method AppendInt(arguments: seq<string>, ghost emitted: seq<Opt>, k: Key, n: int64) returns (r: seq<string>)
    requires arguments == Flatten(emitted)
    ensures r == Flatten(emitted + IntOption(k, n))
  {
    r := arguments;
    if n != 0 {
      r := r + [Spelling(k), FormatInt(n as int)];
      assert IntOption(k, n)[1..] == [];
    }
    Emit(arguments, emitted, IntOption(k, n), r);
  }

  /** Step of the builder for a switch: the flag alone, when it is on. */
  method AppendBool(arguments: seq<string>, ghost emitted: seq<Opt>, k: Key, on: bool) returns (r: seq<string>)
    requires arguments == Flatten(emitted)
    ensures r == Flatten(emitted + BoolOption(k, on))
  {
    r := arguments;
    if on {
      r := r + [Spelling(k)];
      assert BoolOption(k, on)[1..] == [];
    }
    Emit(arguments, emitted, BoolOption(k, on), r);
  }

  /** Step of the builder for a text option: flag and text, unless the text is empty. */
  method AppendString(arguments: seq<string>, ghost emitted: seq<Opt>, k: Key, s: string) returns (r: seq<string>)
    requires arguments == Flatten(emitted)
    ensures r == Flatten(emitted + StringOption(k, s))
  {
    r := arguments;
    if s != "" {
      r := r + [Spelling(k), s];
      assert StringOption(k, s)[1..] == [];
    }
    Emit(arguments, emitted, StringOption(k, s), r);
  }

  /**
   * `generateArguments` (the argument builder), step by step. The ghost
   * `emitted` is the list of options whose tokens `arguments` holds.
   */
  method GenerateArguments(config: Config) returns (r: Result<seq<string>>)
    ensures r == BuildArguments(config)
  {
    var arguments: seq<string> := [];

    if !IsValidFormat(config.format) {
      return Failure("invalid format: " + config.format);
    }

    if config.format != "" {
      arguments := arguments + ["-f", config.format];
    }
    ghost var emitted := [Valued(Format, config.format)];
    assert arguments == Flatten(emitted);

    arguments := AppendInt(arguments, emitted, Width, config.width);
    emitted := emitted + IntOption(Width, config.width);

    arguments := AppendInt(arguments, emitted, Height, config.height);
    emitted := emitted + IntOption(Height, config.height);

    arguments := AppendBool(arguments, emitted, DisableSmartWidth, config.disableSmartWidth);
    emitted := emitted + BoolOption(DisableSmartWidth, config.disableSmartWidth);

    arguments := AppendString(arguments, emitted, Encoding, config.encoding);
    emitted := emitted + StringOption(Encoding, config.encoding);

    arguments := AppendInt(arguments, emitted, Quality, config.quality);
    emitted := emitted + IntOption(Quality, config.quality);

    arguments := AppendBool(arguments, emitted, Transparent, config.transparent);
    emitted := emitted + BoolOption(Transparent, config.transparent);

    arguments := AppendInt(arguments, emitted, CropX, config.crop.x);
    emitted := emitted + IntOption(CropX, config.crop.x);

    arguments := AppendInt(arguments, emitted, CropY, config.crop.y);
    emitted := emitted + IntOption(CropY, config.crop.y);

    arguments := AppendInt(arguments, emitted, CropH, config.crop.h);
    emitted := emitted + IntOption(CropH, config.crop.h);

    arguments := AppendInt(arguments, emitted, CropW, config.crop.w);
    emitted := emitted + IntOption(CropW, config.crop.w);
    assert emitted == FixedOptions(config);
    arguments := AppendCookies(arguments, emitted, config.cookies);
    return Success(arguments);
  }

  /** The tokens of a configuration, segment by segment. */
  lemma ArgumentsBySegment(c: Config)
    ensures Arguments(c) ==
      ["-f", c.format]
      + Flatten(IntOption(Width, c.width))
      + Flatten(IntOption(Height, c.height))
      + Flatten(BoolOption(DisableSmartWidth, c.disableSmartWidth))
      + Flatten(StringOption(Encoding, c.encoding))
      + Flatten(IntOption(Quality, c.quality))
      + Flatten(BoolOption(Transparent, c.transparent))
      + Flatten(IntOption(CropX, c.crop.x))
      + Flatten(IntOption(CropY, c.crop.y))
      + Flatten(IntOption(CropH, c.crop.h))
      + Flatten(IntOption(CropW, c.crop.w))
      + Flatten(CookieOptions(c.cookies))
  {
    var s0 := [Valued(Format, c.format)];
    var s1 := s0 + IntOption(Width, c.width);
    var s2 := s1 + IntOption(Height, c.height);
    var s3 := s2 + BoolOption(DisableSmartWidth, c.disableSmartWidth);
    var s4 := s3 + StringOption(Encoding, c.encoding);
    var s5 := s4 + IntOption(Quality, c.quality);
    var s6 := s5 + BoolOption(Transparent, c.transparent);
    var s7 := s6 + IntOption(CropX, c.crop.x);
    var s8 := s7 + IntOption(CropY, c.crop.y);
    var s9 := s8 + IntOption(CropH, c.crop.h);
    assert Flatten(s0) == ["-f", c.format];
    FlattenAppend(s0, IntOption(Width, c.width));
    FlattenAppend(s1, IntOption(Height, c.height));
    FlattenAppend(s2, BoolOption(DisableSmartWidth, c.disableSmartWidth));
    FlattenAppend(s3, StringOption(Encoding, c.encoding));
    FlattenAppend(s4, IntOption(Quality, c.quality));
    FlattenAppend(s5, BoolOption(Transparent, c.transparent));
    FlattenAppend(s6, IntOption(CropX, c.crop.x));
    FlattenAppend(s7, IntOption(CropY, c.crop.y));
    FlattenAppend(s8, IntOption(CropH, c.crop.h));
    FlattenAppend(s9, IntOption(CropW, c.crop.w));
    FlattenAppend(FixedOptions(c), CookieOptions(c.cookies));
  }

  /** A successful argument list starts with exactly `-f <format>`. */
  lemma ArgumentsStartWithFormat(c: Config)
    ensures |Arguments(c)| >= 2 && Arguments(c)[0] == "-f" && Arguments(c)[1] == c.format
  {
    ArgumentsBySegment(c);
  }

  /**
   * A format outside the whitelist, the empty one included, is an error that
   * names it; any other configuration gives its argument list.
   */
  lemma BuildArgumentsOutcome(c: Config)
    ensures BuildArguments(c).Failure? <==> c.format !in ValidFormats
    ensures BuildArguments(c).Failure? ==> BuildArguments(c).error == "invalid format: " + c.format
    ensures c.format == "" ==> BuildArguments(c) == Failure("invalid format: ")
    ensures BuildArguments(c).Success? ==>
      var args := BuildArguments(c).value; |args| >= 2 && args[0] == "-f" && args[1] == c.format
  {
    ArgumentsStartWithFormat(c);
  }

  function Count(b: bool): nat {
    if b then 1 else 0
  }

  lemma {:induction false} CookieTokenCount(cs: seq<Cookie>)
    ensures |Flatten(CookieOptions(cs))| == 2 * |cs|
  {
    if cs != [] {
      CookieTokenCount(cs[1..]);
    }
  }

  lemma IntOptionCount(k: Key, n: int64)
    ensures |Flatten(IntOption(k, n))| == 2 * Count(n != 0)
  {
  }

  lemma BoolOptionCount(k: Key, on: bool)
    ensures |Flatten(BoolOption(k, on))| == Count(on)
  {
  }

  lemma StringOptionCount(k: Key, v: string)
    ensures |Flatten(StringOption(k, v))| == 2 * Count(v != "")
  {
  }

  /**
   * Two tokens for the format, two for each set number and for a non-empty
   * encoding, one for each switch that is on, two for each cookie.
   */
  lemma ArgumentCount(c: Config)
    ensures |Arguments(c)| ==
      2
      + 2 * (Count(c.width != 0) + Count(c.height != 0) + Count(c.encoding != "") + Count(c.quality != 0)
             + Count(c.crop.x != 0) + Count(c.crop.y != 0) + Count(c.crop.h != 0) + Count(c.crop.w != 0))
      + Count(c.disableSmartWidth) + Count(c.transparent)
      + 2 * |c.cookies|
  {
    ArgumentsBySegment(c);
    IntOptionCount(Width, c.width);
    IntOptionCount(Height, c.height);
    BoolOptionCount(DisableSmartWidth, c.disableSmartWidth);
    StringOptionCount(Encoding, c.encoding);
    IntOptionCount(Quality, c.quality);
    BoolOptionCount(Transparent, c.transparent);
    IntOptionCount(CropX, c.crop.x);
    IntOptionCount(CropY, c.crop.y);
    IntOptionCount(CropH, c.crop.h);
    IntOptionCount(CropW, c.crop.w);
    CookieTokenCount(c.cookies);
  }

  /** Position of each flag in the fixed emission order; positional arguments come last. */
  function Rank(o: Opt): nat {
    match o
    case Positional(_) => 12
    case _ =>
      match o.key
      case Format => 0
      case Width => 1
      case Height => 2
      case DisableSmartWidth => 3
      case Encoding => 4
      case Quality => 5
      case Transparent => 6
      case CropX => 7
      case CropY => 8
      case CropH => 9
      case CropW => 10
      case CookieFlag => 11
  }

  predicate InOrder(opts: seq<Opt>) {
    forall i, j :: 0 <= i < j < |opts| ==> Rank(opts[i]) <= Rank(opts[j])
  }

  predicate RanksAtMost(opts: seq<Opt>, r: nat) {
    forall o :: o in opts ==> Rank(o) <= r
  }

  predicate RanksAre(opts: seq<Opt>, r: nat) {
    forall o :: o in opts ==> Rank(o) == r
  }

  /** Appending a segment of one rank, no lower than what precedes it, keeps the order. */
  lemma AppendInOrder(a: seq<Opt>, b: seq<Opt>, r: nat)
    requires InOrder(a) && RanksAtMost(a, r) && RanksAre(b, r)
    ensures InOrder(a + b) && RanksAtMost(a + b, r)
  {
    forall i, j | 0 <= i < j < |a + b| ensures Rank((a + b)[i]) <= Rank((a + b)[j]) {
      if j >= |a| {
        assert (a + b)[j] in b;
        if i < |a| {
          assert (a + b)[i] in a;
        } else {
          assert (a + b)[i] in b;
        }
      }
    }
  }

  lemma {:induction false} CookieOptionsRank(cs: seq<Cookie>)
    ensures RanksAre(CookieOptions(cs), 11)
  {
    if cs != [] {
      CookieOptionsRank(cs[1..]);
    }
  }

  lemma IntOptionRank(k: Key, n: int64, r: nat)
    requires r == Rank(Flag(k))
    ensures RanksAre(IntOption(k, n), r)
  {
  }

  lemma BoolOptionRank(k: Key, on: bool, r: nat)
    requires r == Rank(Flag(k))
    ensures RanksAre(BoolOption(k, on), r)
  {
  }

  lemma StringOptionRank(k: Key, v: string, r: nat)
    requires r == Rank(Flag(k))
    ensures RanksAre(StringOption(k, v), r)
  {
  }

  /** The first five segments, format to encoding, are in order. */
  lemma LeadingOptionsInOrder(c: Config)
    ensures var s4 := [Valued(Format, c.format)]
                      + IntOption(Width, c.width)
                      + IntOption(Height, c.height)
                      + BoolOption(DisableSmartWidth, c.disableSmartWidth)
                      + StringOption(Encoding, c.encoding);
            InOrder(s4) && RanksAtMost(s4, 4)
  {
    var s0 := [Valued(Format, c.format)];
    var s1 := s0 + IntOption(Width, c.width);
    var s2 := s1 + IntOption(Height, c.height);
    var s3 := s2 + BoolOption(DisableSmartWidth, c.disableSmartWidth);
    assert RanksAtMost(s0, 0) by { assert forall o :: o in s0 ==> o == Valued(Format, c.format); }
    IntOptionRank(Width, c.width, 1);
    AppendInOrder(s0, IntOption(Width, c.width), 1);
    IntOptionRank(Height, c.height, 2);
    AppendInOrder(s1, IntOption(Height, c.height), 2);
    BoolOptionRank(DisableSmartWidth, c.disableSmartWidth, 3);
    AppendInOrder(s2, BoolOption(DisableSmartWidth, c.disableSmartWidth), 3);
    StringOptionRank(Encoding, c.encoding, 4);
    AppendInOrder(s3, StringOption(Encoding, c.encoding), 4);
  }

  /** The segments from format to crop-x are in order. */
  lemma MiddleOptionsInOrder(c: Config)
    ensures var s7 := [Valued(Format, c.format)]
                      + IntOption(Width, c.width)
                      + IntOption(Height, c.height)
                      + BoolOption(DisableSmartWidth, c.disableSmartWidth)
                      + StringOption(Encoding, c.encoding)
                      + IntOption(Quality, c.quality)
                      + BoolOption(Transparent, c.transparent)
                      + IntOption(CropX, c.crop.x);
            InOrder(s7) && RanksAtMost(s7, 7)
  {
    var s4 := [Valued(Format, c.format)]
              + IntOption(Width, c.width)
              + IntOption(Height, c.height)
              + BoolOption(DisableSmartWidth, c.disableSmartWidth)
              + StringOption(Encoding, c.encoding);
    var s5 := s4 + IntOption(Quality, c.quality);
    var s6 := s5 + BoolOption(Transparent, c.transparent);
    LeadingOptionsInOrder(c);
    IntOptionRank(Quality, c.quality, 5);
    AppendInOrder(s4, IntOption(Quality, c.quality), 5);
    BoolOptionRank(Transparent, c.transparent, 6);
    AppendInOrder(s5, BoolOption(Transparent, c.transparent), 6);
    IntOptionRank(CropX, c.crop.x, 7);
    AppendInOrder(s6, IntOption(CropX, c.crop.x), 7);
  }

  /** The fixed options, format to crop-w, are in order. */
  lemma FixedOptionsInOrder(c: Config)
    ensures InOrder(FixedOptions(c)) && RanksAtMost(FixedOptions(c), 10)
  {
    var s7 := [Valued(Format, c.format)]
              + IntOption(Width, c.width)
              + IntOption(Height, c.height)
              + BoolOption(DisableSmartWidth, c.disableSmartWidth)
              + StringOption(Encoding, c.encoding)
              + IntOption(Quality, c.quality)
              + BoolOption(Transparent, c.transparent)
              + IntOption(CropX, c.crop.x);
    var s8 := s7 + IntOption(CropY, c.crop.y);
    var s9 := s8 + IntOption(CropH, c.crop.h);
    MiddleOptionsInOrder(c);
    IntOptionRank(CropY, c.crop.y, 8);
    AppendInOrder(s7, IntOption(CropY, c.crop.y), 8);
    IntOptionRank(CropH, c.crop.h, 9);
    AppendInOrder(s8, IntOption(CropH, c.crop.h), 9);
    IntOptionRank(CropW, c.crop.w, 10);
    AppendInOrder(s9, IntOption(CropW, c.crop.w), 10);
  }

  /**
   * The options come in the fixed order: format, width, height,
   * disable-smart-width, encoding, quality, transparent, crop-x, crop-y,
   * crop-h, crop-w, then the cookies.
   */
  lemma OptionsInOrder(c: Config)
    ensures InOrder(Options(c))
  {
    FixedOptionsInOrder(c);
    CookieOptionsRank(c.cookies);
    AppendInOrder(FixedOptions(c), CookieOptions(c.cookies), 11);
  }
}
