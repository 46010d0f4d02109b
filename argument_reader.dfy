/**
 * Reading the renderer's argument list back. `Group` splits tokens into
 * options the way a reader that knows which flags take a value does;
 * `Decode` recovers a configuration from the options. The lemmas here state
 * what the builder promises: each flag is read back as an option exactly when
 * its field is set (and its token is in the list exactly then, unless the
 * encoding is itself spelled like a flag), and nothing of the configuration
 * is lost.
 */
module ArgumentReader {
  import opened Wrappers
  import opened Decimal
  import opened QueryEscape
  import opened ArgumentBuilder

  /** The flag a token spells, if any. */
  function KeyOf(token: string): (k: Option<Key>)
    ensures k.Some? ==> Spelling(k.value) == token
  {
    if token == "-f" then Some(Format)
    else if token == "--width" then Some(Width)
    else if token == "--height" then Some(Height)
    else if token == "--disable-smart-width" then Some(DisableSmartWidth)
    else if token == "--encoding" then Some(Encoding)
    else if token == "--quality" then Some(Quality)
    else if token == "--transparent" then Some(Transparent)
    else if token == "--crop-x" then Some(CropX)
    else if token == "--crop-y" then Some(CropY)
    else if token == "--crop-h" then Some(CropH)
    else if token == "--crop-w" then Some(CropW)
    else if token == "--cookie" then Some(CookieFlag)
    else None
  }

  /** Every flag is read back from its spelling: no two flags are spelled alike. */
  lemma KeyOfSpelling(k: Key)
    ensures KeyOf(Spelling(k)) == Some(k)
  {
    match k
    case Format =>
    case Width =>
    case Height =>
    case DisableSmartWidth =>
    case Encoding =>
    case Quality =>
    case Transparent =>
    case CropX =>
    case CropY =>
    case CropH =>
    case CropW =>
    case CookieFlag =>
  }

  /** Reads tokens as options: a flag that takes a value takes the next token as it. */
  function Group(tokens: seq<string>): seq<Opt>
    decreases |tokens|
  {
    if tokens == [] then []
    else match KeyOf(tokens[0])
      case None => [Positional(tokens[0])] + Group(tokens[1..])
      case Some(k) =>
        if TakesValue(k) && |tokens| >= 2 then [Valued(k, tokens[1])] + Group(tokens[2..])
        else [Flag(k)] + Group(tokens[1..])
  }

  /** An option that `Group` reads back as itself. */
  predicate Readable(o: Opt) {
    match o
    case Flag(k) => !TakesValue(k)
    case Valued(k, _) => TakesValue(k)
    case Positional(t) => KeyOf(t).None?
  }

  predicate AllReadable(opts: seq<Opt>) {
    forall o :: o in opts ==> Readable(o)
  }

  /** One readable option in front of any tokens is read back first. */
  lemma GroupStep(o: Opt, rest: seq<string>)
    requires Readable(o)
    ensures Group(Tokens(o) + rest) == [o] + Group(rest)
  {
    var t := Tokens(o) + rest;
    match o {
      case Flag(k) =>
        KeyOfSpelling(k);
        assert t[0] == Spelling(k) && t[1..] == rest;
      case Valued(k, v) =>
        KeyOfSpelling(k);
        assert t[0] == Spelling(k) && t[1] == v && t[2..] == rest;
      case Positional(p) =>
        assert t[0] == p && t[1..] == rest;
    }
  }

  /** Options written out as tokens are read back as the same options. */
  lemma {:induction false} GroupFlatten(opts: seq<Opt>)
    requires AllReadable(opts)
    ensures Group(Flatten(opts)) == opts
  {
    if opts != [] {
      assert Readable(opts[0]) by { assert opts[0] in opts; }
      assert AllReadable(opts[1..]) by {
        forall o | o in opts[1..] ensures o in opts { }
      }
      GroupFlatten(opts[1..]);
      GroupStep(opts[0], Flatten(opts[1..]));
      assert opts == [opts[0]] + opts[1..];
    }
  }

  lemma AllReadableAppend(a: seq<Opt>, b: seq<Opt>)
    requires AllReadable(a) && AllReadable(b)
    ensures AllReadable(a + b)
  {
  }

  lemma {:induction false} CookieOptionsReadable(cs: seq<Cookie>)
    ensures AllReadable(CookieOptions(cs))
  {
    if cs != [] {
      CookieOptionsReadable(cs[1..]);
      AllReadableAppend([Valued(CookieFlag, CookieToken(cs[0]))], CookieOptions(cs[1..]));
    }
  }

  lemma IntOptionReadable(k: Key, n: int64)
    requires TakesValue(k)
    ensures AllReadable(IntOption(k, n))
  {
  }

  lemma BoolOptionReadable(k: Key, on: bool)
    requires !TakesValue(k)
    ensures AllReadable(BoolOption(k, on))
  {
  }

  lemma StringOptionReadable(k: Key, s: string)
    requires TakesValue(k)
    ensures AllReadable(StringOption(k, s))
  {
  }

  /** Every option the builder emits is read back as itself. */
  lemma OptionsReadable(c: Config)
    ensures AllReadable(Options(c))
  {
    var s0 := [Valued(Format, c.format)];
    var s1 := s0 + IntOption(Width, c.width);
    var s2 := s1 + IntOption(Height, c.height);
    var s3 := s2 + BoolOption(DisableSmartWidth, c.disableSmartWidth);
    var s4 := s3 + StringOption(Encoding, c.encoding);
    var s5 := s4 + IntOption(Quality, c.quality);
    var s6 := s5 + BoolOption(Transparent, c.transparent);
    var s7 := s6 + IntOption(CropX, c.crop.x);
    var s8 := s7 + IntOption(CropY, c.crop.y);
    var s9 := s8 + IntOption(CropH, c.crop.h);
    var s10 := s9 + IntOption(CropW, c.crop.w);
    assert AllReadable(s0) by { assert forall o :: o in s0 ==> o == Valued(Format, c.format); }
    IntOptionReadable(Width, c.width);
    AllReadableAppend(s0, IntOption(Width, c.width));
    IntOptionReadable(Height, c.height);
    AllReadableAppend(s1, IntOption(Height, c.height));
    BoolOptionReadable(DisableSmartWidth, c.disableSmartWidth);
    AllReadableAppend(s2, BoolOption(DisableSmartWidth, c.disableSmartWidth));
    StringOptionReadable(Encoding, c.encoding);
    AllReadableAppend(s3, StringOption(Encoding, c.encoding));
    IntOptionReadable(Quality, c.quality);
    AllReadableAppend(s4, IntOption(Quality, c.quality));
    BoolOptionReadable(Transparent, c.transparent);
    AllReadableAppend(s5, BoolOption(Transparent, c.transparent));
    IntOptionReadable(CropX, c.crop.x);
    AllReadableAppend(s6, IntOption(CropX, c.crop.x));
    IntOptionReadable(CropY, c.crop.y);
    AllReadableAppend(s7, IntOption(CropY, c.crop.y));
    IntOptionReadable(CropH, c.crop.h);
    AllReadableAppend(s8, IntOption(CropH, c.crop.h));
    IntOptionReadable(CropW, c.crop.w);
    AllReadableAppend(s9, IntOption(CropW, c.crop.w));
    CookieOptionsReadable(c.cookies);
    AllReadableAppend(s10, CookieOptions(c.cookies));
  }

  predicate HasKey(o: Opt, k: Key) {
    !o.Positional? && o.key == k
  }

  /** The options with flag k, in their order. */
  function Named(opts: seq<Opt>, k: Key): seq<Opt> {
    if opts == [] then [] else (if HasKey(opts[0], k) then [opts[0]] else []) + Named(opts[1..], k)
  }

  lemma {:induction false} NamedAppend(a: seq<Opt>, b: seq<Opt>, k: Key)
    ensures Named(a + b, k) == Named(a, k) + Named(b, k)
  {
    if a == [] {
      assert a + b == b;
    } else {
      var ab := a + b;
      assert ab != [] && ab[0] == a[0] && ab[1..] == a[1..] + b;
      NamedAppend(a[1..], b, k);
      var head := if HasKey(a[0], k) then [a[0]] else [];
      assert head + (Named(a[1..], k) + Named(b, k)) == (head + Named(a[1..], k)) + Named(b, k);
    }
  }

  lemma {:induction false} NamedCookieOptions(cs: seq<Cookie>, k: Key)
    ensures Named(CookieOptions(cs), k) == if k == CookieFlag then CookieOptions(cs) else []
  {
    if cs != [] {
      NamedCookieOptions(cs[1..], k);
    }
  }

  lemma NamedInt(k0: Key, k: Key, n: int64)
    ensures Named(IntOption(k0, n), k) == if k0 == k then IntOption(k0, n) else []
  {
  }

  lemma NamedBool(k0: Key, k: Key, on: bool)
    ensures Named(BoolOption(k0, on), k) == if k0 == k then BoolOption(k0, on) else []
  {
  }

  lemma NamedString(k0: Key, k: Key, s: string)
    ensures Named(StringOption(k0, s), k) == if k0 == k then StringOption(k0, s) else []
  {
  }

  /** `Named` over the options of a configuration, segment by segment. */
  lemma NamedOptions(c: Config, k: Key)
    ensures Named(Options(c), k) ==
      Named([Valued(Format, c.format)], k)
      + Named(IntOption(Width, c.width), k)
      + Named(IntOption(Height, c.height), k)
      + Named(BoolOption(DisableSmartWidth, c.disableSmartWidth), k)
      + Named(StringOption(Encoding, c.encoding), k)
      + Named(IntOption(Quality, c.quality), k)
      + Named(BoolOption(Transparent, c.transparent), k)
      + Named(IntOption(CropX, c.crop.x), k)
      + Named(IntOption(CropY, c.crop.y), k)
      + Named(IntOption(CropH, c.crop.h), k)
      + Named(IntOption(CropW, c.crop.w), k)
      + Named(CookieOptions(c.cookies), k)
  {
    var s0 := [Valued(Format, c.format)];
    var s1 := s0 + IntOption(Width, c.width);
    var s2 := s1 + IntOption(Height, c.height);
    var s3 := s2 + BoolOption(DisableSmartWidth, c.disableSmartWidth);
    var s4 := s3 + StringOption(Encoding, c.encoding);
    var s5 := s4 + IntOption(Quality, c.quality);
    var s6 := s5 + BoolOption(Transparent, c.transparent);
    var s7 := s6 + IntOption(CropX, c.crop.x);
    var s8 := s7 + IntOption(CropY, c.crop.y);
    var s9 := s8 + IntOption(CropH, c.crop.h);
    NamedAppend(s0, IntOption(Width, c.width), k);
    NamedAppend(s1, IntOption(Height, c.height), k);
    NamedAppend(s2, BoolOption(DisableSmartWidth, c.disableSmartWidth), k);
    NamedAppend(s3, StringOption(Encoding, c.encoding), k);
    NamedAppend(s4, IntOption(Quality, c.quality), k);
    NamedAppend(s5, BoolOption(Transparent, c.transparent), k);
    NamedAppend(s6, IntOption(CropX, c.crop.x), k);
    NamedAppend(s7, IntOption(CropY, c.crop.y), k);
    NamedAppend(s8, IntOption(CropH, c.crop.h), k);
    NamedAppend(s9, IntOption(CropW, c.crop.w), k);
    NamedAppend(FixedOptions(c), CookieOptions(c.cookies), k);
  }

  /** Each segment of the options holds flag k only if it is k's own segment. */
  lemma NamedSegments(c: Config, k: Key)
    ensures Named([Valued(Format, c.format)], k) == if Format == k then [Valued(Format, c.format)] else []
    ensures Named(IntOption(Width, c.width), k) == if Width == k then IntOption(Width, c.width) else []
    ensures Named(IntOption(Height, c.height), k) == if Height == k then IntOption(Height, c.height) else []
    ensures Named(BoolOption(DisableSmartWidth, c.disableSmartWidth), k) == if DisableSmartWidth == k then BoolOption(DisableSmartWidth, c.disableSmartWidth) else []
    ensures Named(StringOption(Encoding, c.encoding), k) == if Encoding == k then StringOption(Encoding, c.encoding) else []
    ensures Named(IntOption(Quality, c.quality), k) == if Quality == k then IntOption(Quality, c.quality) else []
    ensures Named(BoolOption(Transparent, c.transparent), k) == if Transparent == k then BoolOption(Transparent, c.transparent) else []
    ensures Named(IntOption(CropX, c.crop.x), k) == if CropX == k then IntOption(CropX, c.crop.x) else []
    ensures Named(IntOption(CropY, c.crop.y), k) == if CropY == k then IntOption(CropY, c.crop.y) else []
    ensures Named(IntOption(CropH, c.crop.h), k) == if CropH == k then IntOption(CropH, c.crop.h) else []
    ensures Named(IntOption(CropW, c.crop.w), k) == if CropW == k then IntOption(CropW, c.crop.w) else []
    ensures Named(CookieOptions(c.cookies), k) == if CookieFlag == k then CookieOptions(c.cookies) else []
  {
    NamedInt(Width, k, c.width);
    NamedInt(Height, k, c.height);
    NamedBool(DisableSmartWidth, k, c.disableSmartWidth);
    NamedString(Encoding, k, c.encoding);
    NamedInt(Quality, k, c.quality);
    NamedBool(Transparent, k, c.transparent);
    NamedInt(CropX, k, c.crop.x);
    NamedInt(CropY, k, c.crop.y);
    NamedInt(CropH, k, c.crop.h);
    NamedInt(CropW, k, c.crop.w);
    NamedCookieOptions(c.cookies, k);
  }

  lemma PresenceFormat(c: Config)
    ensures Named(Options(c), Format) == [Valued(Format, c.format)]
  {
    NamedOptions(c, Format);
    NamedSegments(c, Format);
  }

  lemma PresenceWidth(c: Config)
    ensures Named(Options(c), Width) == IntOption(Width, c.width)
  {
    NamedOptions(c, Width);
    NamedSegments(c, Width);
  }

  lemma PresenceHeight(c: Config)
    ensures Named(Options(c), Height) == IntOption(Height, c.height)
  {
    NamedOptions(c, Height);
    NamedSegments(c, Height);
  }

  lemma PresenceDisableSmartWidth(c: Config)
    ensures Named(Options(c), DisableSmartWidth) == BoolOption(DisableSmartWidth, c.disableSmartWidth)
  {
    NamedOptions(c, DisableSmartWidth);
    NamedSegments(c, DisableSmartWidth);
    if c.disableSmartWidth {
      assert BoolOption(DisableSmartWidth, c.disableSmartWidth) == [Flag(DisableSmartWidth)];
    } else {
      assert BoolOption(DisableSmartWidth, c.disableSmartWidth) == [];
    }
  }

  lemma PresenceEncoding(c: Config)
    ensures Named(Options(c), Encoding) == StringOption(Encoding, c.encoding)
  {
    NamedOptions(c, Encoding);
    NamedSegments(c, Encoding);
  }

  lemma PresenceQuality(c: Config)
    ensures Named(Options(c), Quality) == IntOption(Quality, c.quality)
  {
    NamedOptions(c, Quality);
    NamedSegments(c, Quality);
  }

  lemma PresenceTransparent(c: Config)
    ensures Named(Options(c), Transparent) == BoolOption(Transparent, c.transparent)
  {
    NamedOptions(c, Transparent);
    NamedSegments(c, Transparent);
    if c.transparent {
      assert BoolOption(Transparent, c.transparent) == [Flag(Transparent)];
    } else {
      assert BoolOption(Transparent, c.transparent) == [];
    }
  }

  lemma PresenceCropX(c: Config)
    ensures Named(Options(c), CropX) == IntOption(CropX, c.crop.x)
  {
    NamedOptions(c, CropX);
    NamedSegments(c, CropX);
  }

  lemma PresenceCropY(c: Config)
    ensures Named(Options(c), CropY) == IntOption(CropY, c.crop.y)
  {
    NamedOptions(c, CropY);
    NamedSegments(c, CropY);
  }

  lemma PresenceCropH(c: Config)
    ensures Named(Options(c), CropH) == IntOption(CropH, c.crop.h)
  {
    NamedOptions(c, CropH);
    NamedSegments(c, CropH);
  }

  lemma PresenceCropW(c: Config)
    ensures Named(Options(c), CropW) == IntOption(CropW, c.crop.w)
  {
    NamedOptions(c, CropW);
    NamedSegments(c, CropW);
  }

  lemma PresenceCookieFlag(c: Config)
    ensures Named(Options(c), CookieFlag) == CookieOptions(c.cookies)
  {
    NamedOptions(c, CookieFlag);
    NamedSegments(c, CookieFlag);
  }

  /** Whether the configuration asks for flag k: a set number, a non-empty text, a switch that is on, a cookie. */
  predicate Requested(c: Config, k: Key) {
    match k
    case Format => true
    case Width => c.width != 0
    case Height => c.height != 0
    case DisableSmartWidth => c.disableSmartWidth
    case Encoding => c.encoding != ""
    case Quality => c.quality != 0
    case Transparent => c.transparent
    case CropX => c.crop.x != 0
    case CropY => c.crop.y != 0
    case CropH => c.crop.h != 0
    case CropW => c.crop.w != 0
    case CookieFlag => |c.cookies| > 0
  }

  /** Every flag is spelled `-` and a non-digit, and no spelling holds `=`. */
  lemma SpellingShape(k: Key)
    ensures |Spelling(k)| >= 2 && Spelling(k)[0] == '-' && !IsDigit(Spelling(k)[1])
    ensures forall i :: 0 <= i < |Spelling(k)| ==> Spelling(k)[i] != '='
  {
  }

  /** Two flags are spelled alike only if they are the same flag. */
  lemma SpellingInjective(k0: Key, k: Key)
    ensures Spelling(k0) == Spelling(k) <==> k0 == k
  {
    KeyOfSpelling(k0);
    KeyOfSpelling(k);
  }

  /** A `%d` rendering is never a flag: it starts with a digit, or with `-` and a digit. */
  lemma FormatIntIsNoFlag(n: int, k: Key)
    ensures FormatInt(n) != Spelling(k)
  {
    SpellingShape(k);
    var s := FormatInt(n);
    if n < 0 {
      assert IsDigit(s[1..][0]);
    } else {
      assert IsDigit(s[0]);
    }
  }

  /** A whitelisted format is never a flag: it starts with a letter. */
  lemma ValidFormatIsNoFlag(f: string, k: Key)
    requires IsValidFormat(f)
    ensures f != Spelling(k)
  {
    SpellingShape(k);
  }

  /** A cookie token is never a flag: it holds `=`. */
  lemma CookieTokenIsNoFlag(ck: Cookie, k: Key)
    ensures CookieToken(ck) != Spelling(k)
  {
    SpellingShape(k);
    assert CookieToken(ck)[|ck.key|] == '=';
  }

  lemma IntOptionSpelling(k0: Key, n: int64, k: Key)
    ensures Spelling(k) in Flatten(IntOption(k0, n)) <==> k0 == k && n != 0
  {
    SpellingInjective(k0, k);
    FormatIntIsNoFlag(n as int, k);
    if n != 0 {
      assert Flatten(IntOption(k0, n)) == [Spelling(k0), FormatInt(n as int)];
    }
  }

  lemma BoolOptionSpelling(k0: Key, on: bool, k: Key)
    ensures Spelling(k) in Flatten(BoolOption(k0, on)) <==> k0 == k && on
  {
    SpellingInjective(k0, k);
    if on {
      assert Flatten(BoolOption(k0, on)) == [Spelling(k0)];
    }
  }

  lemma StringOptionSpelling(k0: Key, v: string, k: Key)
    requires KeyOf(v).None?
    ensures Spelling(k) in Flatten(StringOption(k0, v)) <==> k0 == k && v != ""
  {
    SpellingInjective(k0, k);
    KeyOfSpelling(k);
    if v != "" {
      assert Flatten(StringOption(k0, v)) == [Spelling(k0), v];
    }
  }

  lemma FormatSpelling(f: string, k: Key)
    requires IsValidFormat(f)
    ensures Spelling(k) in ["-f", f] <==> k == Format
  {
    SpellingInjective(Format, k);
    ValidFormatIsNoFlag(f, k);
  }

  lemma {:induction false} CookieSpelling(cs: seq<Cookie>, k: Key)
    ensures Spelling(k) in Flatten(CookieOptions(cs)) <==> k == CookieFlag && |cs| > 0
  {
    if cs != [] {
      CookieSpelling(cs[1..], k);
      SpellingInjective(CookieFlag, k);
      CookieTokenIsNoFlag(cs[0], k);
      var head := Tokens(Valued(CookieFlag, CookieToken(cs[0])));
      assert head == [Spelling(CookieFlag), CookieToken(cs[0])];
      assert Flatten(CookieOptions(cs)) == head + Flatten(CookieOptions(cs[1..]));
    }
  }

  /** The tokens from the format to the quality hold flag k exactly when it is asked for. */
  lemma LeadingFlagTokens(c: Config, k: Key)
    requires IsValidFormat(c.format)
    requires KeyOf(c.encoding).None?
    ensures Spelling(k) in
              ["-f", c.format]
              + Flatten(IntOption(Width, c.width))
              + Flatten(IntOption(Height, c.height))
              + Flatten(BoolOption(DisableSmartWidth, c.disableSmartWidth))
              + Flatten(StringOption(Encoding, c.encoding))
              + Flatten(IntOption(Quality, c.quality))
            <==> Requested(c, k) && k in {Format, Width, Height, DisableSmartWidth, Encoding, Quality}
  {
    FormatSpelling(c.format, k);
    IntOptionSpelling(Width, c.width, k);
    IntOptionSpelling(Height, c.height, k);
    BoolOptionSpelling(DisableSmartWidth, c.disableSmartWidth, k);
    StringOptionSpelling(Encoding, c.encoding, k);
    IntOptionSpelling(Quality, c.quality, k);
  }

  /**
   * The token list holds a flag's spelling exactly when the configuration asks
   * for that flag, provided the encoding is not itself spelled like a flag
   * (see `EncodingMayHoldFlag`): the format, the `%d` renderings and the
   * cookie tokens never are.
   */
  lemma FlagTokenPresence(c: Config, k: Key)
    requires IsValidFormat(c.format)
    requires KeyOf(c.encoding).None?
    ensures Spelling(k) in Arguments(c) <==> Requested(c, k)
  {
    ArgumentsBySegment(c);
    LeadingFlagTokens(c, k);
    BoolOptionSpelling(Transparent, c.transparent, k);
    IntOptionSpelling(CropX, c.crop.x, k);
    IntOptionSpelling(CropY, c.crop.y, k);
    IntOptionSpelling(CropH, c.crop.h, k);
    IntOptionSpelling(CropW, c.crop.w, k);
    CookieSpelling(c.cookies, k);
  }

  /**
   * The encoding is passed through unchecked, so it can be a flag's spelling:
   * with encoding `--width` and no width, the token `--width` is in the list.
   */
  lemma EncodingMayHoldFlag()
    ensures var c := Config("png", 0, 0, false, "--width", Crop(0, 0, 0, 0), 0, false, []);
            !Requested(c, Width) && Spelling(Width) in Arguments(c)
  {
    var c := Config("png", 0, 0, false, "--width", Crop(0, 0, 0, 0), 0, false, []);
    ArgumentsBySegment(c);
  }

  /** The last position of ch in s: the cookie reader splits `key=value` there. */
  function LastIndexOf(s: string, ch: char): (r: Option<nat>)
    ensures r.Some? ==> r.value < |s| && s[r.value] == ch && forall j :: r.value < j < |s| ==> s[j] != ch
    ensures r.None? ==> forall j :: 0 <= j < |s| ==> s[j] != ch
  {
    if s == [] then None
    else if s[|s| - 1] == ch then Some(|s| - 1)
    else LastIndexOf(s[..|s| - 1], ch)
  }

  /** Reads `key=escaped-value`: the key is everything before the last `=`. */
  function ParseCookieToken(token: string): Option<Cookie> {
    var i :- LastIndexOf(token, '=');
    var value :- Unescape(token[i + 1..]);
    Some(Cookie(token[..i], value))
  }

  /**
   * A cookie token gives back its cookie, whatever the key holds (even `=`):
   * the escaped value has no `=`, so the last `=` is the separator.
   */
  lemma CookieTokenRoundTrip(k: Cookie)
    ensures ParseCookieToken(CookieToken(k)) == Some(k)
  {
    var e := Escape(k.value);
    var t := CookieToken(k);
    var n := |k.key|;
    EscapeIsEscaped(k.value);
    EscapedHasNoSpaceOrEquals(e);
    assert t[n] == '=';
    assert forall j :: n < j < |t| ==> t[j] == e[j - n - 1];
    var i := LastIndexOf(t, '=').value;
    assert i == n;
    assert t[..i] == k.key;
    assert t[i + 1..] == e;
    EscapeRoundTrip(k.value);
  }

  /** The value of flag k as a 64-bit number; zero when the flag is absent. */
  function DecodeInt(opts: seq<Opt>, k: Key): Option<int64> {
    var m := Named(opts, k);
    if m == [] then Some(0)
    else if |m| == 1 && m[0].Valued? then
      var n :- ParseInt(m[0].value);
      if -0x8000_0000_0000_0000 <= n < 0x8000_0000_0000_0000 then Some(n as int64) else None
    else None
  }

  /** Whether switch k is on. */
  function DecodeBool(opts: seq<Opt>, k: Key): Option<bool> {
    var m := Named(opts, k);
    if m == [] then Some(false) else if m == [Flag(k)] then Some(true) else None
  }

  /** The text of flag k; empty when the flag is absent. */
  function DecodeString(opts: seq<Opt>, k: Key): Option<string> {
    var m := Named(opts, k);
    if m == [] then Some("")
    else if |m| == 1 && m[0].Valued? && m[0].value != "" then Some(m[0].value)
    else None
  }

  /** The one `-f` value, which must be a valid format. */
  function DecodeFormat(opts: seq<Opt>): Option<string> {
    var m := Named(opts, Format);
    if |m| == 1 && m[0].Valued? && IsValidFormat(m[0].value) then Some(m[0].value) else None
  }

  /** The cookies of a list of `--cookie` options, in order. */
  function DecodeCookies(opts: seq<Opt>): Option<seq<Cookie>> {
    if opts == [] then Some([])
    else if opts[0].Valued? then
      var k :- ParseCookieToken(opts[0].value);
      var rest :- DecodeCookies(opts[1..]);
      Some([k] + rest)
    else None
  }

  /** The configuration a list of options describes. */
  function Decode(opts: seq<Opt>): Option<Config> {
    var format :- DecodeFormat(opts);
    var width :- DecodeInt(opts, Width);
    var height :- DecodeInt(opts, Height);
    var disableSmartWidth :- DecodeBool(opts, DisableSmartWidth);
    var encoding :- DecodeString(opts, Encoding);
    var quality :- DecodeInt(opts, Quality);
    var transparent :- DecodeBool(opts, Transparent);
    var x :- DecodeInt(opts, CropX);
    var y :- DecodeInt(opts, CropY);
    var h :- DecodeInt(opts, CropH);
    var w :- DecodeInt(opts, CropW);
    var cookies :- DecodeCookies(Named(opts, CookieFlag));
    Some(Config(format, width, height, disableSmartWidth, encoding, Crop(x, y, w, h), quality, transparent, cookies))
  }

  /** The configuration an argument list describes. */
  function ParseArguments(tokens: seq<string>): Option<Config> {
    Decode(Group(tokens))
  }

  /** A single valued flag whose text reads as an in-range number decodes to that number. */
  lemma DecodeIntOf(opts: seq<Opt>, k: Key, v: string, n: int64)
    requires Named(opts, k) == [Valued(k, v)]
    requires ParseInt(v) == Some(n as int)
    ensures DecodeInt(opts, k) == Some(n)
  {
  }

  lemma DecodeIntOption(opts: seq<Opt>, k: Key, n: int64)
    requires Named(opts, k) == IntOption(k, n)
    ensures DecodeInt(opts, k) == Some(n)
  {
    if n != 0 {
      FormatIntRoundTrip(n as int);
      DecodeIntOf(opts, k, FormatInt(n as int), n);
    }
  }

  lemma {:induction false} DecodeCookieOptions(cs: seq<Cookie>)
    ensures DecodeCookies(CookieOptions(cs)) == Some(cs)
  {
    if cs != [] {
      DecodeCookieOptions(cs[1..]);
      CookieTokenRoundTrip(cs[0]);
      assert [cs[0]] + cs[1..] == cs;
    }
  }

  /** The six numeric flags read back as the configuration's numbers. */
  lemma DecodeNumbers(c: Config)
    ensures DecodeInt(Options(c), Width) == Some(c.width)
    ensures DecodeInt(Options(c), Height) == Some(c.height)
    ensures DecodeInt(Options(c), Quality) == Some(c.quality)
    ensures DecodeInt(Options(c), CropX) == Some(c.crop.x)
    ensures DecodeInt(Options(c), CropY) == Some(c.crop.y)
    ensures DecodeInt(Options(c), CropH) == Some(c.crop.h)
    ensures DecodeInt(Options(c), CropW) == Some(c.crop.w)
  {
    var opts := Options(c);
    PresenceWidth(c);
    DecodeIntOption(opts, Width, c.width);
    PresenceHeight(c);
    DecodeIntOption(opts, Height, c.height);
    PresenceQuality(c);
    DecodeIntOption(opts, Quality, c.quality);
    PresenceCropX(c);
    DecodeIntOption(opts, CropX, c.crop.x);
    PresenceCropY(c);
    DecodeIntOption(opts, CropY, c.crop.y);
    PresenceCropH(c);
    DecodeIntOption(opts, CropH, c.crop.h);
    PresenceCropW(c);
    DecodeIntOption(opts, CropW, c.crop.w);
  }

  /** The format, the switches, the encoding and the cookies read back as the configuration's. */
  lemma DecodeOthers(c: Config)
    requires IsValidFormat(c.format)
    ensures DecodeFormat(Options(c)) == Some(c.format)
    ensures DecodeBool(Options(c), DisableSmartWidth) == Some(c.disableSmartWidth)
    ensures DecodeString(Options(c), Encoding) == Some(c.encoding)
    ensures DecodeBool(Options(c), Transparent) == Some(c.transparent)
    ensures DecodeCookies(Named(Options(c), CookieFlag)) == Some(c.cookies)
  {
    PresenceFormat(c);
    PresenceDisableSmartWidth(c);
    PresenceEncoding(c);
    PresenceTransparent(c);
    PresenceCookieFlag(c);
    DecodeCookieOptions(c.cookies);
  }

  /** Reading the options back gives the configuration they were made from. */
  lemma DecodeOptions(c: Config)
    requires IsValidFormat(c.format)
    ensures Decode(Options(c)) == Some(c)
  {
    DecodeNumbers(c);
    DecodeOthers(c);
  }

  /** The tokens of the options are read back as the same options. */
  lemma GroupArguments(c: Config)
    ensures Group(Arguments(c)) == Options(c)
  {
    OptionsReadable(c);
    GroupFlatten(Options(c));
  }

  /**
   * The argument list loses nothing: reading it back gives the
   * configuration it was built from.
   */
  lemma ArgumentsRoundTrip(c: Config)
    requires IsValidFormat(c.format)
    ensures ParseArguments(Arguments(c)) == Some(c)
  {
    GroupArguments(c);
    DecodeOptions(c);
  }

  /** Two valid configurations with the same argument list are the same configuration. */
  lemma ArgumentsInjective(c: Config, d: Config)
    requires IsValidFormat(c.format) && IsValidFormat(d.format)
    requires Arguments(c) == Arguments(d)
    ensures c == d
  {
    ArgumentsRoundTrip(c);
    ArgumentsRoundTrip(d);
  }
}
