/** Command-line resolution of the capture tool: three flag values and the
    positional arguments left after flag parsing are combined into a target
    URL, an output type and an output path, which are then validated and
    turned into one capture action or a terminal outcome.

    The functions below are the specification; the class `Options` mirrors
    the program's mutable option record and its methods are proved against
    those functions. */
module Cli {
  import opened PathExt
  import opened Filename

  /** The three option values: target URL, output type, output path. */
  datatype Settings = Settings(url: string, outputType: string, outputPath: string)

  /** What argument parsing ends with. */
  datatype ParseResult =
    | ShowHelp                                             // help requested
    | UrlNotGiven                                          // no URL after resolution
    | FilenameRefused(path: string, error: FilenameError)  // output path fails validation
    | Parsed(settings: Settings)                           // resolved and validated

  /** How one run of the tool ends. Every value except the two captures is
      terminal: no capture is attempted. */
  datatype Outcome =
    | Help
    | MissingUrl
    | BadFilename(badPath: string, error: FilenameError)
    | InvalidType(outputType: string)
    | CapturePdf(url: string, path: string)
    | CaptureImage(url: string, path: string)
  {
    predicate IsCapture() { CapturePdf? || CaptureImage? }
  }

  const DefaultPdfPath: string := "output.pdf"
  const DefaultImagePath: string := "output.jpg"

  predicate IsHelpToken(s: string) { s == "-h" || s == "--help" }

  // ---------------------------------------------------------------------
  // Specification of the resolution steps, one function per step.

  /** A missing URL is taken from the first positional argument. */
  function TakeUrl(s: Settings, args: seq<string>): (r: Settings)
    ensures r.outputType == s.outputType && r.outputPath == s.outputPath
    ensures s.url != "" ==> r.url == s.url
    ensures r.url == "" <==> s.url == "" && (|args| == 0 || args[0] == "")
  {
    if s.url == "" && |args| > 0 then s.(url := args[0]) else s
  }

  /** A missing output type comes from the second positional argument: when
      that argument has an extension it becomes the output path and the type
      is inferred from the extension; otherwise it is the type itself. */
  function TakeType(s: Settings, args: seq<string>): (r: Settings)
    ensures r.url == s.url
    ensures s.outputType != "" || |args| <= 1 ==> r == s
    ensures s.outputType == "" && |args| > 1 && Ext(args[1]) != "" ==>
              r.outputPath == args[1] && r.outputType in {"pdf", "image"} &&
              (r.outputType == "pdf" <==> Ext(args[1]) == ".pdf")
    ensures s.outputType == "" && |args| > 1 && Ext(args[1]) == "" ==>
              r.outputType == args[1] && r.outputPath == s.outputPath
  {
    if s.outputType == "" && |args| > 1 then
      var ext := Ext(args[1]);
      if ext != "" then
        s.(outputPath := args[1], outputType := if ext == ".pdf" then "pdf" else "image")
      else
        s.(outputType := args[1])
    else s
  }

  /** A still-missing output path is taken from the third positional argument. */
  function TakePath(s: Settings, args: seq<string>): (r: Settings)
    ensures r.url == s.url && r.outputType == s.outputType
    ensures s.outputPath != "" ==> r == s
    ensures r.outputPath == "" <==> s.outputPath == "" && (|args| <= 2 || args[2] == "")
  {
    if s.outputPath == "" && |args| > 2 then s.(outputPath := args[2]) else s
  }

  /** The three resolution steps, in the program's order. */
  function ResolveSettings(s: Settings, args: seq<string>): (r: Settings)
    ensures s.url != "" ==> r.url == s.url
    ensures s.outputType != "" ==> r.outputType == s.outputType
    ensures s.outputType != "" ==>
              r.outputPath == if s.outputPath == "" && |args| > 2 then args[2] else s.outputPath
  {
    TakePath(TakeType(TakeUrl(s, args), args), args)
  }

  /** Argument parsing: the help check, resolution, the URL check and file
      name validation. A parse that succeeds has a URL and an acceptable
      path. */
  function Parse(s: Settings, args: seq<string>): (r: ParseResult)
    ensures r.Parsed? ==> r.settings.url != "" && ValidateFilename(r.settings.outputPath) == None
    ensures r.FilenameRefused? ==> r.path != "" && ValidateFilename(r.path) == Some(r.error)
  {
    if |args| > 0 && IsHelpToken(args[0]) then ShowHelp
    else
      var resolved := ResolveSettings(s, args);
      if resolved.url == "" then UrlNotGiven
      else
        match ValidateFilename(resolved.outputPath)
        case Some(err) => FilenameRefused(resolved.outputPath, err)
        case None => Parsed(resolved)
  }

  /** Type dispatch with path defaulting: "image" captures a screenshot,
      "pdf" or "" prints a PDF, anything else is an invalid type. */
  function Select(s: Settings): (r: Outcome)
    ensures r.IsCapture() <==> s.outputType in {"image", "pdf", ""}
    ensures r.CaptureImage? <==> s.outputType == "image"
    ensures r.InvalidType? ==> r.outputType == s.outputType
    ensures r.IsCapture() ==> r.url == s.url && r.path != "" &&
                              (s.outputPath != "" ==> r.path == s.outputPath)
  {
    match s.outputType
    case "image" => CaptureImage(s.url, if s.outputPath == "" then DefaultImagePath else s.outputPath)
    case "pdf" => CapturePdf(s.url, if s.outputPath == "" then DefaultPdfPath else s.outputPath)
    case "" => CapturePdf(s.url, if s.outputPath == "" then DefaultPdfPath else s.outputPath)
    case _ => InvalidType(s.outputType)
  }

  /** The whole resolution, from the flag values and positional arguments to
      how the run ends. */
  function Resolve(flagUrl: string, flagType: string, flagPath: string, args: seq<string>): (r: Outcome)
    ensures r == Help <==> |args| > 0 && IsHelpToken(args[0])
    ensures r == MissingUrl <==>
              !(|args| > 0 && IsHelpToken(args[0])) && flagUrl == "" && (|args| == 0 || args[0] == "")
    ensures r.BadFilename? ==> r.badPath != "" && ValidateFilename(r.badPath) == Some(r.error)
    ensures r.IsCapture() ==> r.url != "" && (r.url == flagUrl || (flagUrl == "" && r.url == args[0]))
  {
    match Parse(Settings(flagUrl, flagType, flagPath), args)
    case ShowHelp => Help
    case UrlNotGiven => MissingUrl
    case FilenameRefused(p, e) => BadFilename(p, e)
    case Parsed(s) => Select(s)
  }

  // ---------------------------------------------------------------------
  // The mutable option record and the two procedures that update it.

  /** The program's option record. The flag parser stores the three flag
      values in it; argument parsing and dispatch then update it field by
      field. */
  class Options {
    var url: string
    var outputType: string
    var outputPath: string

    function Value(): Settings
      reads this
    {
      Settings(url, outputType, outputPath)
    }

    /** The record as flag parsing leaves it. */
    constructor (flagUrl: string, flagType: string, flagPath: string)
      ensures Value() == Settings(flagUrl, flagType, flagPath)
    {
      url, outputType, outputPath := flagUrl, flagType, flagPath;
    }

    /** Resolves the positional arguments into the record through guarded
        assignments. On a help request the record is left as it was; in
        every other case it ends up resolved, whether or not the checks that
        follow pass. */
    method ParseArgs(args: seq<string>) returns (r: ParseResult)
      modifies this
      ensures r == Parse(old(Value()), args)
      ensures Value() == if r.ShowHelp? then old(Value()) else ResolveSettings(old(Value()), args)
    {
      if |args| > 0 && (args[0] == "-h" || args[0] == "--help") {
        return ShowHelp;
      }
      if url == "" && |args| > 0 {
        url := args[0];
      }
      if outputType == "" && |args| > 1 {
        var ext := Ext(args[1]);
        if ext != "" {
          outputPath := args[1];
          if ext == ".pdf" {
            outputType := "pdf";
          } else {
            outputType := "image";
          }
        } else {
          outputType := args[1];
        }
      }
      if outputPath == "" && |args| > 2 {
        outputPath := args[2];
      }
      if url == "" {
        return UrlNotGiven;
      }
      var check := ValidateFilename(outputPath);
      if check.Some? {
        return FilenameRefused(outputPath, check.value);
      }
      return Parsed(Value());
    }

    /** Fills in the default output path for the selected type and reports
        which capture to run. Only the output path may change, and only
        from empty to a default. */
    method Dispatch() returns (o: Outcome)
      modifies this`outputPath
      ensures o == Select(old(Value()))
      ensures outputPath == if o.IsCapture() then o.path else old(outputPath)
    {
      if outputType == "image" {
        if outputPath == "" {
          outputPath := DefaultImagePath;
        }
        o := CaptureImage(url, outputPath);
      } else if outputType == "pdf" || outputType == "" {
        if outputPath == "" {
          outputPath := DefaultPdfPath;
        }
        o := CapturePdf(url, outputPath);
      } else {
        o := InvalidType(outputType);
      }
    }
  }

  /** One run of the tool up to the point where capturing would start. */
  method Run(flagUrl: string, flagType: string, flagPath: string, args: seq<string>)
    returns (o: Outcome)
    ensures o == Resolve(flagUrl, flagType, flagPath, args)
  {
    var opts := new Options(flagUrl, flagType, flagPath);
    var parsed := opts.ParseArgs(args);
    match parsed {
      case ShowHelp => o := Help;
      case UrlNotGiven => o := MissingUrl;
      case FilenameRefused(p, e) => o := BadFilename(p, e);
      case Parsed(_) => o := opts.Dispatch();
    }
  }

  // ---------------------------------------------------------------------
  // Properties of the resolution.

  /** Help is chosen exactly when the first positional argument asks for
      it, whatever the flags say. */
  lemma HelpFirst(flagUrl: string, flagType: string, flagPath: string, args: seq<string>)
    ensures Resolve(flagUrl, flagType, flagPath, args) == Help <==>
              |args| > 0 && IsHelpToken(args[0])
  {
  }

  /** A non-empty URL flag is never replaced by the first positional
      argument; an empty one is. */
  lemma UrlFlagPrecedence(s: Settings, args: seq<string>)
    ensures s.url != "" ==> ResolveSettings(s, args).url == s.url
    ensures s.url == "" && |args| > 0 ==> ResolveSettings(s, args).url == args[0]
  {
  }

  /** A non-empty type flag makes the second positional argument irrelevant:
      replacing it does not change the outcome. */
  lemma TypeFlagIgnoresSecondArg(flagUrl: string, flagType: string, flagPath: string,
                                 args: seq<string>, other: string)
    requires flagType != "" && |args| > 1
    ensures Resolve(flagUrl, flagType, flagPath, args[1 := other]) ==
            Resolve(flagUrl, flagType, flagPath, args)
  {
    var s := Settings(flagUrl, flagType, flagPath);
    var args' := args[1 := other];
    assert args'[0] == args[0] && args'[2..] == args[2..];
    assert ResolveSettings(s, args') == ResolveSettings(s, args);
    ParseAgrees(s, args, args');
  }

  /** Without a type flag, a second positional argument with an extension
      becomes the output path, overriding the file name flag, and sets the
      type to "pdf" exactly when the extension is ".pdf" and to "image"
      otherwise. */
  lemma SecondArgWithExtension(s: Settings, args: seq<string>)
    requires s.outputType == "" && |args| > 1 && Ext(args[1]) != ""
    ensures ResolveSettings(s, args).outputPath == args[1]
    ensures ResolveSettings(s, args).outputType == "pdf" <==> Ext(args[1]) == ".pdf"
    ensures ResolveSettings(s, args).outputType != "pdf" ==> ResolveSettings(s, args).outputType == "image"
  {
  }

  /** Without a type flag, a second positional argument without an
      extension is taken as the type verbatim. */
  lemma SecondArgWithoutExtension(s: Settings, args: seq<string>)
    requires s.outputType == "" && |args| > 1 && Ext(args[1]) == ""
    ensures ResolveSettings(s, args).outputType == args[1]
  {
  }

  /** The third positional argument becomes the output path when nothing
      earlier supplied one. */
  lemma ThirdArgFillsEmptyPath(s: Settings, args: seq<string>)
    requires |args| > 2 && s.outputPath == ""
    requires s.outputType != "" || Ext(args[1]) == ""
    ensures ResolveSettings(s, args).outputPath == args[2]
  {
  }

  /** Once a path has been supplied by the file name flag or the second
      positional argument, the third positional argument is ignored. */
  lemma ThirdArgIgnoredWhenPathKnown(flagUrl: string, flagType: string, flagPath: string,
                                     args: seq<string>, other: string)
    requires |args| > 2
    requires flagPath != "" || (flagType == "" && Ext(args[1]) != "")
    ensures Resolve(flagUrl, flagType, flagPath, args[2 := other]) ==
            Resolve(flagUrl, flagType, flagPath, args)
  {
    var s := Settings(flagUrl, flagType, flagPath);
    var args' := args[2 := other];
    assert args'[0] == args[0] && args'[1] == args[1];
    assert ResolveSettings(s, args') == ResolveSettings(s, args);
    ParseAgrees(s, args, args');
  }

  /** Parsing looks at the arguments only through the help check on the
      first one and through resolution. */
  lemma ParseAgrees(s: Settings, args: seq<string>, args': seq<string>)
    requires (|args| > 0 && IsHelpToken(args[0])) <==> (|args'| > 0 && IsHelpToken(args'[0]))
    requires ResolveSettings(s, args) == ResolveSettings(s, args')
    ensures Parse(s, args) == Parse(s, args')
  {
  }

  /** A run ends without a URL exactly when there is no help request, no
      URL flag and no usable first positional argument. */
  lemma MissingUrlIff(flagUrl: string, flagType: string, flagPath: string, args: seq<string>)
    ensures Resolve(flagUrl, flagType, flagPath, args) == MissingUrl <==>
              !(|args| > 0 && IsHelpToken(args[0])) &&
              flagUrl == "" && (|args| == 0 || args[0] == "")
  {
  }

  /** A run ends with a refused file name exactly when the help check and
      the URL check pass and the resolved path fails validation; nothing is
      captured then. */
  lemma BadFilenameIff(flagUrl: string, flagType: string, flagPath: string, args: seq<string>)
    ensures var o := Resolve(flagUrl, flagType, flagPath, args);
            var r := ResolveSettings(Settings(flagUrl, flagType, flagPath), args);
            o.BadFilename? <==>
              !(|args| > 0 && IsHelpToken(args[0])) && r.url != "" &&
              ValidateFilename(r.outputPath).Some?
    ensures var o := Resolve(flagUrl, flagType, flagPath, args);
            var r := ResolveSettings(Settings(flagUrl, flagType, flagPath), args);
            o.BadFilename? ==> o.badPath == r.outputPath && ValidateFilename(r.outputPath) == Some(o.error)
  {
  }

  /** Every capture has a URL and a non-empty output path that passes file
      name validation, whether that path was given or defaulted. */
  lemma CaptureTargetValid(flagUrl: string, flagType: string, flagPath: string, args: seq<string>)
    ensures var o := Resolve(flagUrl, flagType, flagPath, args);
            o.IsCapture() ==> o.url != "" && o.path != "" && ValidateFilename(o.path) == None
  {
    var p := Parse(Settings(flagUrl, flagType, flagPath), args);
    if p.Parsed? {
      SelectKeepsValidity(p.settings);
    }
  }

  /** Dispatch keeps a URL and a valid path valid: both default paths pass
      file name validation. */
  lemma SelectKeepsValidity(s: Settings)
    requires s.url != "" && ValidateFilename(s.outputPath) == None
    ensures var o := Select(s);
            o.IsCapture() ==> o.url != "" && o.path != "" && ValidateFilename(o.path) == None
  {
    DefaultPathsValid();
  }

  /** Both default paths pass file name validation. */
  lemma DefaultPathsValid()
    ensures ValidateFilename(DefaultPdfPath) == None
    ensures ValidateFilename(DefaultImagePath) == None
  {
    DefaultPdfPathValid();
    DefaultImagePathValid();
  }

  lemma DefaultPdfPathValid()
    ensures ValidateFilename(DefaultPdfPath) == None
  {
    SupportedAccepted("output", "pdf");
    assert "output" + "." + "pdf" == "output.pdf";
  }

  lemma DefaultImagePathValid()
    ensures ValidateFilename(DefaultImagePath) == None
  {
    SupportedAccepted("output", "jpg");
    assert "output" + "." + "jpg" == "output.jpg";
  }

  /** Dispatch: a type outside "image", "pdf" and "" is invalid; the two
      defaults are "output.jpg" for images and "output.pdf" otherwise; a
      given path is passed through unchanged, whether or not its extension
      agrees with the type. */
  lemma SelectDefaults(s: Settings)
    ensures s.outputType !in {"image", "pdf", ""} <==> Select(s) == InvalidType(s.outputType)
    ensures s.outputType == "image" ==>
              Select(s) == CaptureImage(s.url, if s.outputPath == "" then "output.jpg" else s.outputPath)
    ensures s.outputType in {"pdf", ""} ==>
              Select(s) == CapturePdf(s.url, if s.outputPath == "" then "output.pdf" else s.outputPath)
  {
  }

  /** Type and extension need not agree: a given supported path is used as
      it is for both capture kinds, so a PDF can be printed to a ".jpg" file
      and a screenshot saved to a ".pdf" file. */
  lemma KindAndExtensionMayDisagree(url: string, stem: string, ext: string)
    requires url != "" && ext in SupportedExtensions
    ensures Resolve(url, "pdf", stem + "." + ext, []) == CapturePdf(url, stem + "." + ext)
    ensures Resolve(url, "image", stem + "." + ext, []) == CaptureImage(url, stem + "." + ext)
  {
    SupportedAccepted(stem, ext);
  }

  /** A positional file name with an image extension selects an image
      capture to that file, overriding the file name flag. */
  lemma PositionalImageName(url: string, flagPath: string, stem: string, ext: string)
    requires url != "" && !IsHelpToken(url)
    requires ext in SupportedExtensions && ext != "pdf"
    ensures Resolve("", "", flagPath, [url, stem + "." + ext]) == CaptureImage(url, stem + "." + ext)
  {
    var path := stem + "." + ext;
    SupportedArePlain(ext);
    ExtOfSuffix(stem, ext);
    assert ("." + ext)[1..] == ext && ".pdf"[1..] == "pdf";
    assert Ext(path) != ".pdf";
    assert ResolveSettings(Settings("", "", flagPath), [url, path]) == Settings(url, "image", path);
    SupportedAccepted(stem, ext);
  }

  /** A positional file name ending in ".pdf" selects a PDF capture to that
      file, overriding the file name flag. */
  lemma PositionalPdfName(url: string, flagPath: string, stem: string)
    requires url != "" && !IsHelpToken(url)
    ensures Resolve("", "", flagPath, [url, stem + ".pdf"]) == CapturePdf(url, stem + ".pdf")
  {
    var path := stem + ".pdf";
    assert stem + "." + "pdf" == path;
    ExtOfSuffix(stem, "pdf");
    assert ResolveSettings(Settings("", "", flagPath), [url, path]) == Settings(url, "pdf", path);
    LowerCasePdfAccepted(stem);
  }

  /** An upper-case ".PDF" positional name is inferred as an image and then
      refused by validation. */
  lemma UppercasePdfRefused(url: string, stem: string)
    requires url != "" && !IsHelpToken(url)
    ensures ResolveSettings(Settings("", "", ""), [url, stem + ".PDF"]).outputType == "image"
    ensures Resolve("", "", "", [url, stem + ".PDF"]) ==
            BadFilename(stem + ".PDF", UnsupportedExtension("PDF"))
  {
    var path := stem + ".PDF";
    assert stem + "." + "PDF" == path;
    ExtOfSuffix(stem, "PDF");
    assert ResolveSettings(Settings("", "", ""), [url, path]) == Settings(url, "image", path);
    UpperCasePdfRejected(stem);
  }

  /** With a URL available, no help request, no file name flag, and a
      second positional argument that supplies no path (a type flag is set,
      or it has no extension), a third positional argument ending in a dot
      and an unsupported plain name is refused before any capture. */
  lemma UnsupportedNameRefused(flagUrl: string, flagType: string, args: seq<string>,
                               stem: string, ext: string)
    requires |args| > 2 && !IsHelpToken(args[0]) && (flagUrl != "" || args[0] != "")
    requires flagType != "" || Ext(args[1]) == ""
    requires args[2] == stem + "." + ext && PlainName(ext) && ext !in SupportedExtensions
    ensures Resolve(flagUrl, flagType, "", args) == BadFilename(args[2], UnsupportedExtension(ext))
  {
    UnsupportedRejected(stem, ext);
  }
}
