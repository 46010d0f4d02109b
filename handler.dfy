/**
 * The `POST /v1/html-to-image` handler: the request body becomes a
 * `GenerateImage`, its configuration becomes the tool's options, the tool
 * runs with the page on its standard input, and the image on its standard
 * output is the response, typed `image/<format>`.
 *
 * Decoding the body and running the tool happen outside this model: the
 * decoded body (or the decoder's error) is a parameter, and so is the tool,
 * as a function from the command to its output or its error.
 */
module Handler {
  import opened Wrappers
  import opened QueryEscape
  import opened ArgumentBuilder
  import opened ArgumentReader

  /** The program the handler runs. */
  const Tool: string := "wkhtmltoimage"

  /** The status of an image response: the handler sets none, so it is the framework's default. */
  const StatusOK: nat := 200
  const StatusBadRequest: nat := 400
  const StatusInternalServerError: nat := 500

  /** The request body: the page to render and how to render it. */
  datatype GenerateImage = GenerateImage(html: string, config: Config)

  /** A program, its arguments and the text fed to its standard input. */
  datatype Command = Command(program: string, args: seq<string>, stdin: string)

  /** An error status with its message, or an image with its content type. */
  datatype Response =
    | Failed(status: nat, message: string)
    | Image(contentType: string, body: seq<byte>)
  {
    function Status(): nat {
      match this
      case Failed(status, _) => status
      case Image(_, _) => StatusOK
    }
  }

  /**
   * The tool's arguments: the options, then `-` as the input file (the page
   * comes on standard input) and `-` as the output file (the image goes to
   * standard output).
   */
  function CommandLine(args: seq<string>): (argv: seq<string>)
    ensures |argv| == |args| + 2
    ensures argv[..|args|] == args
    ensures argv[|args|] == "-" && argv[|args| + 1] == "-"
  {
    args + ["-", "-"]
  }

  /** The content type of the response for a format. */
  function ContentType(format: string): (t: string)
    ensures |t| == |format| + 6 && t[..6] == "image/" && t[6..] == format
  {
    "image/" + format
  }

  const ImageContentTypes: set<string> :=
    {"image/png", "image/jpg", "image/jpeg", "image/svg", "image/bmp"}

  /** A format that passes the whitelist names one of five image types. */
  lemma ContentTypeOfValidFormat(format: string)
    requires IsValidFormat(format)
    ensures ContentType(format) in ImageContentTypes
  {
    if format == "png" {
      assert ContentType(format) == "image/png";
    } else if format == "jpg" {
      assert ContentType(format) == "image/jpg";
    } else if format == "jpeg" {
      assert ContentType(format) == "image/jpeg";
    } else if format == "svg" {
      assert ContentType(format) == "image/svg";
    } else {
      assert ContentType(format) == "image/bmp";
    }
  }

  /** The two file operands, as `Group` reads them. */
  const StdioOperands: seq<Opt> := [Positional("-"), Positional("-")]

  lemma StdioOperandsReadable()
    ensures Flatten(StdioOperands) == ["-", "-"]
    ensures AllReadable(StdioOperands)
  {
    assert forall o :: o in StdioOperands ==> o == Positional("-");
  }

  /**
   * As `Group` reads it, the command line splits back into the options the
   * configuration produced, followed by the two `-` file operands, and those
   * options decode back to the configuration.
   */
  lemma CommandLineReadBack(c: Config)
    ensures Group(CommandLine(Arguments(c))) == Options(c) + StdioOperands
    ensures IsValidFormat(c.format) ==> Decode(Options(c)) == Some(c)
  {
    StdioOperandsReadable();
    FlattenAppend(Options(c), StdioOperands);
    OptionsReadable(c);
    AllReadableAppend(Options(c), StdioOperands);
    GroupFlatten(Options(c) + StdioOperands);
    if IsValidFormat(c.format) {
      DecodeOptions(c);
    }
  }

  /**
   * Handles one request. A body that does not decode and a configuration
   * that is refused are both answered 400 with the error's text; a tool that
   * fails is answered 500 with its error; otherwise the tool's output is the
   * image, typed by the requested format.
   */
  method HandleGenerateImageRequest(parsed: Result<GenerateImage>, run: Command -> Result<seq<byte>>)
    returns (resp: Response)
    ensures parsed.Failure? ==> resp == Failed(StatusBadRequest, parsed.error)
    ensures parsed.Success? && !IsValidFormat(parsed.value.config.format) ==>
      resp == Failed(StatusBadRequest, "invalid format: " + parsed.value.config.format)
    ensures parsed.Success? && IsValidFormat(parsed.value.config.format) ==>
      var req := parsed.value;
      var outcome := run(Command(Tool, CommandLine(Arguments(req.config)), req.html));
      && (outcome.Failure? ==> resp == Failed(StatusInternalServerError, outcome.error))
      && (outcome.Success? ==> resp == Image(ContentType(req.config.format), outcome.value))
    ensures resp.Image? ==> resp.contentType in ImageContentTypes
    ensures resp.Failed? ==> resp.status in {StatusBadRequest, StatusInternalServerError}
    ensures resp.Status() == StatusOK <==> resp.Image?
  {
    if parsed.Failure? {
      return Failed(StatusBadRequest, parsed.error);
    }
    var req := parsed.value;
    var args := GenerateArguments(req.config);
    if args.Failure? {
      return Failed(StatusBadRequest, args.error);
    }
    var outcome := run(Command(Tool, CommandLine(args.value), req.html));
    if outcome.Failure? {
      return Failed(StatusInternalServerError, outcome.error);
    }
    ContentTypeOfValidFormat(req.config.format);
    resp := Image(ContentType(req.config.format), outcome.value);
  }
}
