# HTML-to-image: argument builder and request handler

The service turns a JSON request `{html, config}` into an image. It checks the
requested format against a whitelist. It turns the configuration into
command-line arguments for `wkhtmltoimage`. It runs the tool with the page on
standard input and answers with the tool's standard output, typed
`image/<format>`.

This project models the part of `main.go` that decides what the tool is asked
to do:

- the request records `Cookie`, `Crop`, `Config` and `GenerateImage`;
- the format whitelist `ValidFormats` and `isValidFormat`;
- `generateArguments`, which validates the format and then appends, in a fixed
  order, `-f <format>`, each numeric flag whose value is non-zero (rendered
  with `%d`), `--encoding` when it is non-empty, each switch that is on, and
  one `--cookie key=<query-escaped value>` per cookie;
- the handler's command line (the options followed by `-` `-`), its status
  codes, and the content type `"image/" + format`.

Modules:

- `Wrappers`: `Option` and `Result`.
- `Decimal`: `%d` rendering of integers (`FormatInt`) and a reader for it
  (`ParseInt`).
- `QueryEscape`: Go's `url.QueryEscape` on bytes (`Escape`) and
  `url.QueryUnescape` (`Unescape`).
- `ArgumentBuilder`:
  - `Options` is the specification: the options a configuration asks for, in
    their emission order.
  - `Arguments` is those options written out as tokens.
  - `BuildArguments` is the builder's result, error case included.
  - `GenerateArguments` is the builder itself: a method that grows the
    argument list step by step. It is proved equal to `BuildArguments`.
- `ArgumentReader`: the partner of the builder.
  - `Group` splits tokens back into options, knowing which flags take a
    value.
  - `Decode` recovers a configuration from options.
  - The lemmas prove that each flag is read back as an option exactly when
    its field is set, that the options come in the fixed order, and that
    nothing of the configuration is lost. The flag's token is in the list
    exactly when its field is set, unless the encoding is itself spelled like
    a flag (`ArgumentReader.FlagTokenPresence`,
    `ArgumentReader.EncodingMayHoldFlag`).
- `Handler`: `HandleGenerateImageRequest`, with the body decoder's outcome and
  the tool run given as parameters.

An empty format is rejected with `invalid format: ` and no `-f` is emitted.
The empty string is not in the whitelist, so `isValidFormat("")` is false, and
the builder's later `config.Format != ""` test can never be false. Some
descriptions of the service say an empty format is accepted and only leaves
out `-f`. The model follows the code (`ArgumentBuilder.BuildArgumentsOutcome`).

## Model

| member | source | states |
|---|---|---|
| ArgumentBuilder.IsValidFormat | main.go:50-61 | A format passes only if it is one of `png`, `jpg`, `jpeg`, `svg`, `bmp`. So a valid format is non-empty and lower-case. |
| ArgumentBuilder.FixedOptions | main.go:70-112 | Specification, no contract of its own. It lists the options before the cookies: `-f` with the format, then each numeric flag with a non-zero value, `--encoding` with non-empty text, and each switch that is on, in the source order. Its properties are proved by `OptionsInOrder`, `ArgumentCount` and the `Presence*` lemmas. |
| ArgumentBuilder.CookieOptions | main.go:114-118 | Specification, no contract of its own. It lists one `--cookie` option per cookie, in list order. Its properties are proved by `CookieTokenCount`, `PresenceCookieFlag` and `DecodeCookieOptions`. |
| ArgumentBuilder.Options | main.go:70-118 | Specification, no contract of its own. It is the fixed options followed by the cookie options. |
| ArgumentBuilder.BuildArguments | main.go:63-121 | Specification of `generateArguments`, no contract of its own. It gives the `invalid format: <format>` error for a format outside the whitelist, otherwise the tokens of `Options`. Its properties are proved by `BuildArgumentsOutcome` and `ArgumentsRoundTrip`. |
| ArgumentBuilder.CookieToken | main.go:116 | The token is the key, then `=`, then the query-escaped value. That `=` is the last one in the token, so the pair can be split there. |
| ArgumentBuilder.GenerateArguments | main.go:63-121 | The builder returns exactly `BuildArguments(config)`: an `invalid format: <format>` error for a format outside the whitelist, otherwise the tokens of `Options(config)` in order. |
| ArgumentBuilder.AppendInt | main.go:74-80 | A numeric step appends the flag and the `%d` rendering of the value when the value is non-zero, and nothing otherwise. |
| ArgumentBuilder.AppendBool | main.go:82-84 | A switch step appends the bare flag when the switch is on, and nothing otherwise. |
| ArgumentBuilder.AppendString | main.go:86-88 | The encoding step appends `--encoding` and the text when the text is non-empty, and nothing otherwise. |
| ArgumentBuilder.AppendCookies | main.go:114-118 | The cookie loop appends `--cookie key=<escaped value>` for each cookie, in the order of the list. |
| ArgumentBuilder.BuildArgumentsOutcome | main.go:66-72 | The result is an error if and only if the format is outside the whitelist, and its message is `invalid format: ` followed by the format. An empty format is an error. A success starts with `-f <format>`. |
| ArgumentBuilder.ArgumentsStartWithFormat | main.go:70-72 | The argument list always begins with `-f` and then the format. |
| ArgumentBuilder.ArgumentCount | main.go:70-118 | The argument count is 2 for the format, plus 2 per non-zero number and per non-empty encoding, plus 1 per switch that is on, plus 2 per cookie. |
| ArgumentBuilder.CookieTokenCount | main.go:114-118 | Proof step. Each cookie contributes exactly two tokens. |
| ArgumentBuilder.OptionsInOrder | main.go:70-118 | The options come in the fixed order: format, width, height, disable-smart-width, encoding, quality, transparent, crop-x, crop-y, crop-h, crop-w, then the cookies. |
| ArgumentBuilder.LeadingOptionsInOrder | main.go:70-88 | Proof step. The options from the format to the encoding are in order. |
| ArgumentBuilder.MiddleOptionsInOrder | main.go:70-100 | Proof step. The options from the format to crop-x are in order. |
| ArgumentBuilder.FixedOptionsInOrder | main.go:70-112 | Proof step. All options before the cookies are in order, and each ranks no later than crop-w. |
| ArgumentBuilder.FlattenAppend | main.go:64-120 | Proof step. Appending options appends their tokens, so the list can be built one step at a time. |
| ArgumentBuilder.CookieOptionsSnoc | main.go:115-117 | Proof step. One more loop iteration adds exactly the option of the next cookie. |
| ArgumentReader.KeyOfSpelling | main.go:70-116 | The twelve flag spellings are pairwise distinct, and each reads back as its own flag. |
| ArgumentReader.KeyOf | main.go:70-116 | A token is read as a flag only if it is that flag's spelling. |
| ArgumentReader.GroupFlatten | main.go:64-120 | Options written as tokens are read back as the same options, provided each switch stands alone and each valued flag has its value. |
| ArgumentReader.GroupStep | main.go:70-116 | Proof step. A readable option in front of any tokens is read back first: a switch alone, a valued flag with the next token, anything else as a positional argument. |
| ArgumentReader.GroupArguments | main.go:63-121 | The builder's tokens are read back as the builder's options. |
| ArgumentReader.OptionsReadable | main.go:70-118 | Proof step. Every option the builder emits can be read back: switches carry no value, and valued flags carry one. |
| ArgumentReader.PresenceFormat | main.go:70-72 | The argument list is read back with exactly one `-f` option, holding the format. |
| ArgumentReader.PresenceWidth | main.go:74-76 | The argument list is read back with one `--width` option, holding the `%d` rendering of the width, exactly when the width is non-zero, and with none otherwise. |
| ArgumentReader.PresenceHeight | main.go:78-80 | The argument list is read back with one `--height` option, holding the `%d` rendering of the height, exactly when the height is non-zero, and with none otherwise. |
| ArgumentReader.PresenceDisableSmartWidth | main.go:82-84 | The argument list is read back with one bare `--disable-smart-width` switch exactly when it is on, and with none otherwise. |
| ArgumentReader.PresenceEncoding | main.go:86-88 | The argument list is read back with one `--encoding` option, holding the text unchanged, exactly when the encoding is non-empty, and with none otherwise. |
| ArgumentReader.PresenceQuality | main.go:90-92 | The argument list is read back with one `--quality` option, holding the `%d` rendering of the quality, exactly when the quality is non-zero, and with none otherwise. |
| ArgumentReader.PresenceTransparent | main.go:94-96 | The argument list is read back with one bare `--transparent` switch exactly when it is on, and with none otherwise. |
| ArgumentReader.PresenceCropX | main.go:98-100 | The argument list is read back with one `--crop-x` option, holding the `%d` rendering of crop x, exactly when crop x is non-zero, and with none otherwise. |
| ArgumentReader.PresenceCropY | main.go:102-104 | The argument list is read back with one `--crop-y` option, holding the `%d` rendering of crop y, exactly when crop y is non-zero, and with none otherwise. |
| ArgumentReader.PresenceCropH | main.go:106-108 | The argument list is read back with one `--crop-h` option, holding the `%d` rendering of crop h, exactly when crop h is non-zero, and with none otherwise. |
| ArgumentReader.PresenceCropW | main.go:110-112 | The argument list is read back with one `--crop-w` option, holding the `%d` rendering of crop w, exactly when crop w is non-zero, and with none otherwise. |
| ArgumentReader.PresenceCookieFlag | main.go:114-118 | The argument list is read back with one `--cookie` option per cookie, in list order, and with no other `--cookie` option. |
| ArgumentReader.NamedAppend | main.go:64-120 | Proof step. Selecting one flag's options distributes over concatenation. |
| ArgumentReader.NamedCookieOptions | main.go:114-118 | Proof step. The cookie options contain only `--cookie` options. |
| ArgumentReader.NamedSegments | main.go:70-118 | Proof step. Each segment of the options holds a given flag only if the segment belongs to that flag. |
| ArgumentReader.NamedOptions | main.go:70-118 | Proof step. Selecting one flag's options works segment by segment. |
| ArgumentReader.LastIndexOf | main.go:116 | Gives the last position of a character, or none when the character is absent. The cookie reader splits `key=value` there. |
| ArgumentReader.CookieTokenRoundTrip | main.go:116 | `key=QueryEscape(value)` reads back as the same cookie, even when the key contains `=`, because the escaped value contains no `=`. |
| ArgumentReader.DecodeIntOption | main.go:74-112 | Proof step. A numeric flag emitted by the builder reads back as its 64-bit value, and an absent flag reads back as zero. |
| ArgumentReader.DecodeIntOf | main.go:74-112 | Proof step. A single numeric flag whose text reads as an in-range number decodes to that number. |
| ArgumentReader.DecodeNumbers | main.go:74-112 | Proof step. The width, height, quality and the four crop numbers read back as the configuration's values. |
| ArgumentReader.DecodeOthers | main.go:70-118 | Proof step. The format, both switches, the encoding and the cookies read back as the configuration's values. |
| ArgumentReader.DecodeCookieOptions | main.go:114-118 | Proof step. The cookie options read back as the same list of cookies. |
| ArgumentReader.DecodeOptions | main.go:63-121 | For a valid format, decoding the options gives back the whole configuration. |
| ArgumentReader.ArgumentsRoundTrip | main.go:63-121 | For a valid format, reading the argument list back gives back the configuration it was built from. |
| ArgumentReader.ArgumentsInjective | main.go:63-121 | Two valid configurations that produce the same argument list are equal. |
| ArgumentReader.SpellingShape | main.go:70-116 | Proof step. Every flag spelling is `-` followed by a non-digit, and no spelling contains `=`. |
| ArgumentReader.SpellingInjective | main.go:70-116 | Two flags have the same spelling only if they are the same flag. |
| ArgumentReader.FormatIntIsNoFlag | main.go:74-112 | A `%d` rendering is never a flag spelling. |
| ArgumentReader.ValidFormatIsNoFlag | main.go:50-72 | A whitelisted format is never a flag spelling. |
| ArgumentReader.CookieTokenIsNoFlag | main.go:116 | A `key=value` cookie token is never a flag spelling. |
| ArgumentReader.IntOptionSpelling | main.go:74-112 | Proof step. A numeric segment holds flag k's token exactly when it is k's segment and the value is non-zero. |
| ArgumentReader.BoolOptionSpelling | main.go:82-96 | Proof step. A switch segment holds flag k's token exactly when it is k's segment and the switch is on. |
| ArgumentReader.StringOptionSpelling | main.go:86-88 | Proof step. A text segment whose text is not a flag spelling holds flag k's token exactly when it is k's segment and the text is non-empty. |
| ArgumentReader.FormatSpelling | main.go:70-72 | Proof step. The `-f <format>` pair holds only the `-f` flag token. |
| ArgumentReader.CookieSpelling | main.go:114-118 | Proof step. The cookie tokens hold a flag token only for `--cookie`, and only when there is a cookie. |
| ArgumentReader.LeadingFlagTokens | main.go:70-92 | Proof step. The tokens from the format to the quality hold a flag's token exactly when that flag is among them and is asked for. |
| ArgumentReader.FlagTokenPresence | main.go:63-121 | For a whitelisted format and an encoding that is not spelled like a flag, the token list contains a flag's spelling exactly when the configuration asks for that flag. The format is always asked for; a number must be non-zero, the encoding non-empty, a switch on, and for `--cookie` there must be a cookie. |
| ArgumentReader.EncodingMayHoldFlag | main.go:86-88 | The encoding is passed through unchecked. With encoding `--width` and width 0, the token `--width` is in the list although no width was asked for. |
| Decimal.DigitChar | main.go:75 | A digit character has the value of its digit. |
| Decimal.NatToDigits | main.go:75 | Decimal digits are non-empty and have no leading zero unless the number is 0. The result is a single digit exactly when the number is below 10. |
| Decimal.DigitsRoundTrip | main.go:75 | Proof step. The digits of a natural number denote that number. |
| Decimal.FormatInt | main.go:75 | `%d` starts with `-` exactly for negative numbers. The rest is all digits. |
| Decimal.NonNegativeRoundTrip | main.go:75 | Proof step. The rendering of a non-negative number reads back as that number. |
| Decimal.NegativeRoundTrip | main.go:75 | Proof step. The rendering of a negative number reads back as that number. |
| Decimal.FormatIntRoundTrip | main.go:74-112 | Every integer is read back from its `%d` rendering. |
| Decimal.FormatIntInjective | main.go:74-112 | Distinct integers have distinct renderings. |
| QueryEscape.HexDigit | main.go:116 | A nibble is written as an upper-case hexadecimal digit. |
| QueryEscape.HexValue | main.go:116 | A hexadecimal digit has a value below 16. |
| QueryEscape.IsUnreserved | main.go:116 | The bytes kept as they are: letters, digits, `-`, `_`, `.`, `~`. None of them is a space, `%`, `+` or `=`. |
| QueryEscape.EscapeByte | main.go:116 | A byte that needs no triple becomes one unreserved character or `+`. Any other byte becomes `%` and two upper-case hexadecimal digits that read back as the byte. |
| QueryEscape.HexPairUnique | main.go:116 | Proof step. Two hexadecimal digits determine their byte, and are determined by it. |
| QueryEscape.HexDigitValue | main.go:116 | Proof step. Reading the hexadecimal digit written for a nibble gives back that nibble. |
| QueryEscape.UpperHexDigit | main.go:116 | Proof step. Every upper-case hexadecimal digit is the one written for its value. |
| QueryEscape.Escape | main.go:116 | The escape of n bytes is between n and 3n characters long. |
| QueryEscape.EscapeByteEscaped | main.go:116 | Proof step. One escaped byte in front of escaped text is still escaped text. |
| QueryEscape.EscapeIsEscaped | main.go:116 | The escape uses only unreserved characters, `+`, and upper-case `%XX` triples for bytes that need them. |
| QueryEscape.UnescapeEscapeByte | main.go:116 | Proof step. Unescaping an escaped byte followed by text gives that byte in front of the text's unescape. |
| QueryEscape.EscapeRoundTrip | main.go:116 | Unescaping the escape of any bytes gives back exactly those bytes. |
| QueryEscape.CanonicalStep | main.go:116 | Proof step. An escaped byte in front of canonical text gives canonical text. |
| QueryEscape.PercentTriple | main.go:116 | Proof step. An upper-case `%XX` triple for a byte that needs one is exactly that byte's escape. |
| QueryEscape.EscapedIsCanonical | main.go:116 | Every escaped text is the escape of the bytes it unescapes to, so escaping is a bijection onto escaped text. |
| QueryEscape.EscapedHasNoSpaceOrEquals | main.go:116 | Escaped text contains no space and no `=`. |
| Handler.CommandLine | main.go:136 | The tool's arguments are the options followed by `-` (read the page from standard input) and `-` (write the image to standard output). |
| Handler.StdioOperandsReadable | main.go:136 | Proof step. The two `-` operands are read back as positional arguments, not as flags. |
| Handler.CommandLineReadBack | main.go:136 | The tool's command line splits into the configuration's options followed by the two `-` operands. For a valid format, those options decode back to the configuration. |
| Handler.ContentType | main.go:147 | The content type is `image/` followed by the format. |
| Handler.ContentTypeOfValidFormat | main.go:147 | A whitelisted format gives one of `image/png`, `image/jpg`, `image/jpeg`, `image/svg`, `image/bmp`. |
| Handler.HandleGenerateImageRequest | main.go:123-149 | An undecodable body gives 400 with the decoder's error. An invalid format gives 400 with `invalid format: <format>`. Otherwise the tool runs as `wkhtmltoimage <arguments> - -` with the html on standard input. If it fails, the answer is 500 with its error; if it succeeds, the answer is its output typed `image/<format>`. Every error status is 400 or 500. The image response has status 200, the framework default, and it is the only response with 200. |

## Records

The request records are datatypes:

- `ArgumentBuilder.Cookie` models main.go:21-24. The value is bytes.
- `ArgumentBuilder.Crop` models main.go:26-31.
- `ArgumentBuilder.Config` models main.go:33-43.
- `Handler.GenerateImage` models main.go:45-48.
- `ArgumentBuilder.ValidFormats` models main.go:50-56.

Numbers are 64-bit (`ArgumentBuilder.int64`).

## Left out

- Decoding the request body (`c.BodyParser`) is not modelled: it is a foreign call. Its outcome, a `GenerateImage` or an error text, is a parameter of `HandleGenerateImageRequest`.
- Running `wkhtmltoimage` (`exec.Command`, `cmd.Run`, the output buffer) is an external process. It is a parameter of `HandleGenerateImageRequest`: a function from the command to the output bytes or an error text.
- The error log line (`log.Println`) is not modelled.
- `main` is not modelled: the route `POST /v1/html-to-image`, the compress, cache, CORS, ETag and logger middleware, the rate limiter (100 requests a day, with a bypass header), the five-second timeout, and listening on `:8080`.
- Handler.HandleGenerateImageRequest: the error text of the body decoder and of the tool is opaque. Its contract says only that it is passed through unchanged.
- ArgumentBuilder.GenerateArguments: the Go code repeats an `if` + `append` for each field. The model calls one step method per kind of field (`AppendInt`, `AppendBool`, `AppendString`) and one for the cookie loop (`AppendCookies`). Each is proved against the same specification function.
- Go strings are byte strings. The model uses `seq<char>` for all texts except the cookie value, which is `seq<byte>`, the bytes `url.QueryEscape` works on. UTF-8 encoding of keys, formats and encodings is not modelled.
- QueryEscape.Unescape: a character outside 0..255 is an error. Go has no such character, because it unescapes bytes.
- Go's `int` is taken to be 64 bits wide, as on the usual 64-bit platforms. JSON decoding of out-of-range numbers is part of the body decoder and is left out with it.
- ArgumentReader.Group: reads the tokens with one value per valued flag, the layout the builder writes. It is a partner for proving that the builder loses nothing. It does not model `wkhtmltoimage`'s own option parser.
- ArgumentReader.FlagTokenPresence: requires that the encoding is not spelled like a flag. main.go:86-88 passes the encoding through unchecked, so a flag's token can also appear as its value; `ArgumentReader.EncodingMayHoldFlag` shows that case. The read-back statements (`Presence*`) need no such assumption.
- `wkhtmltoimage` documents its cookie option as `--cookie <name> <value>`, two arguments. main.go:116 passes one `name=value` token. If the tool reads two arguments there, the next token is taken as the cookie's value. That would be the next `--cookie` or the first `-`. The tool's parser is not part of this model, so this is not claimed as a finding.
