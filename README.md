# Web page capture tool: argument resolution and output-name validation

The tool renders a web page in a headless browser and saves it as a PDF or
a full-page screenshot. Almost everything it does is delegated to the
browser-automation library. This project models the part that the
repository decides for itself: how the command line turns into one capture
action or a terminal outcome.

- `path_ext.dfy`, module `PathExt`: Go's `filepath.Ext`, with `/` as the
  only separator. `Ext` returns the suffix of a path that starts at the last
  dot of its final element, or `""`. `ExtEmptyIff` and `ExtOfSuffix`
  characterise it independently of its recursive definition.
- `filename.dfy`, module `Filename`: `validateFilename`. The empty name is
  accepted. A name whose final element has no dot is refused with
  `MissingExtension`. Any other name is accepted exactly when the text after
  its last dot is one of `pdf`, `jpg`, `png`, `jpeg`, `bmp`, compared
  case-sensitively; otherwise it is refused with `UnsupportedExtension`.
- `cli.dfy`, module `Cli`: the resolution body of `parseArgs` and the
  dispatch in `main`.
  - Specification functions, one per step: `TakeUrl`, `TakeType`,
    `TakePath`, combined by `ResolveSettings`. Then `Parse` (the help check,
    resolution, the URL check and validation), `Select` (type dispatch and
    default paths) and `Resolve` (the whole run).
  - The class `Options` mirrors the program's mutable `options` record
    (`URL`, `OutputType`, `OutputPath`). Its methods `ParseArgs` and
    `Dispatch` update the record through the same guarded assignments as
    the program, and each is proved equal to its specification function.
  - `Run` wires the constructor (the record as flag parsing leaves it),
    `ParseArgs` and `Dispatch` together. Its result is proved equal to
    `Resolve`.

Each `os.Exit` point, and the invalid-type branch of `main`, becomes a value
of `Outcome`: `Help`, `MissingUrl`, `BadFilename`, `InvalidType`. The two
capture actions are `CapturePdf(url, path)` and `CaptureImage(url, path)`.

Inputs: the three flag values exactly as the flag package stored them, and
the positional arguments left after flag parsing.

Three facts about the program shape the model:
- The model starts after flag parsing. Inside it, help comes only from the
  first positional argument being `-h` or `--help`. Help given as a flag is
  handled earlier, by the flag package (see "## Left out").
- Validation runs before dispatch. A bad file name therefore wins over an
  invalid type.
- Type and file extension are never required to agree.

## Model

| member | source | states |
|---|---|---|
| PathExt.Ext | main.go:124 | The extension is a suffix of the path; when non-empty it is a dot followed by text with no dot and no separator |
| PathExt.ExtEmptyIff | main.go:124-127 | The extension is empty exactly when the final path element contains no dot |
| PathExt.ExtOfSuffix | main.go:153-156 | A path ending in a dot and a dot-free, separator-free name has exactly that dot and name as its extension, whatever comes before |
| Filename.ValidateFilename | main.go:118-137 | The empty name is accepted; an unsupported-extension error names the text after the last dot (no dot or separator in it), which the name ends with and which is outside the supported set |
| Filename.AcceptedIff | main.go:118-137 | A name is accepted exactly when it is empty or ends with a dot and one of pdf, jpg, png, jpeg, bmp |
| Filename.AcceptedHasSuffix | main.go:129-136 | An accepted non-empty name ends with a dot and its extension, and that extension is supported |
| Filename.MissingExtensionIff | main.go:120-127 | The missing-extension error occurs exactly for a non-empty name whose final element has no dot |
| Filename.UnsupportedRejected | main.go:129-134 | A name ending in a dot and a plain name outside the supported set is refused, with that name as the reported extension |
| Filename.SupportedAccepted | main.go:129-136 | A name ending in a dot and a supported extension is accepted, whatever precedes it |
| Filename.TrailingDotRejected | main.go:124-134 | A name ending in a dot has the empty extension, which is refused rather than treated as missing |
| Filename.SuffixAccepted | main.go:129-136 | A name that ends with a dot and a supported extension is accepted |
| Filename.ExtensionCaseSensitive | main.go:130-133 | `.PDF` is refused and `.pdf` is accepted: the match is case-sensitive |
| Cli.TakeUrl | main.go:149-151 | The URL flag is kept when non-empty; the URL stays empty exactly when the flag and the first positional argument are both empty or missing; type and path are untouched |
| Cli.TakeType | main.go:152-164 | A set type flag or a missing second argument changes nothing; otherwise a second argument with an extension becomes the path and sets the type to pdf (exactly for `.pdf`) or image, and one without becomes the type verbatim, leaving the path alone |
| Cli.TakePath | main.go:165-167 | A non-empty path is kept; the path stays empty exactly when it was empty and no non-empty third argument exists; URL and type are untouched |
| Cli.ResolveSettings | main.go:149-167 | Named flags take precedence: a URL flag survives resolution, and with a type flag set the path is the file name flag or else the third argument (lemmas UrlFlagPrecedence, SecondArgWithExtension, SecondArgWithoutExtension, ThirdArgFillsEmptyPath) |
| Cli.Select | main.go:194-215 | A capture is chosen exactly for the types image, pdf and empty, an image capture exactly for image, and any other type is reported as invalid; a capture keeps the URL, has a non-empty path and keeps a given path unchanged (lemmas SelectDefaults, SelectKeepsValidity) |
| Cli.Resolve | main.go:143-215 | The whole run: help exactly when the first positional argument asks for it; a missing URL exactly when no help is asked and neither the URL flag nor the first argument supplies one; a refused name carries its validation error; a capture uses the URL flag or else the first argument (lemmas HelpFirst, MissingUrlIff, BadFilenameIff, CaptureTargetValid) |
| Cli.Parse | main.go:143-181 | A successful parse has a non-empty URL and a path that passes validation; a refused name is non-empty and carries its validation error |
| Cli.Options.constructor | main.go:24-27 | The record holds the three flag values as flag parsing stored them |
| Cli.Options.ParseArgs | main.go:143-181 | Returns the `Parse` result; the record is unchanged on a help request and holds the resolved values otherwise |
| Cli.Options.Dispatch | main.go:194-215 | Returns the `Select` outcome; only the output path changes, to the captured path, and only when it was empty |
| Cli.Run | main.go:184-216 | The imperative run (constructor, `ParseArgs`, `Dispatch`) ends exactly as `Resolve` says |
| Cli.HelpFirst | main.go:143-146 | The run ends in help exactly when the first positional argument is `-h` or `--help`, whatever the flags |
| Cli.UrlFlagPrecedence | main.go:149-151 | A non-empty URL flag is kept; an empty one is replaced by the first positional argument |
| Cli.TypeFlagIgnoresSecondArg | main.go:152-164 | With a non-empty type flag, replacing the second positional argument never changes the outcome |
| Cli.SecondArgWithExtension | main.go:152-160 | Without a type flag, a second argument with an extension becomes the path, overriding the file name flag; the type is pdf exactly when the extension is `.pdf`, and image otherwise |
| Cli.SecondArgWithoutExtension | main.go:161-163 | Without a type flag, a second argument with no extension becomes the type verbatim |
| Cli.ThirdArgFillsEmptyPath | main.go:165-167 | The third argument becomes the path when neither the file name flag nor the second argument supplied one |
| Cli.ThirdArgIgnoredWhenPathKnown | main.go:165-167 | Once the file name flag or the second argument has supplied a path, replacing the third argument never changes the outcome |
| Cli.MissingUrlIff | main.go:169-173 | The run ends for lack of a URL exactly when help is not requested, the URL flag is empty, and there is no non-empty first argument |
| Cli.BadFilenameIff | main.go:175-179 | The run ends with a refused file name exactly when help is not requested, a URL is resolved, and the resolved path fails validation; the refused path is then the resolved path, with its validation error |
| Cli.CaptureTargetValid | main.go:169-210 | Every capture has a non-empty URL and a non-empty path that passes validation |
| Cli.SelectKeepsValidity | main.go:194-210 | Dispatch keeps a URL and a valid path valid, including when it fills in a default path |
| Cli.ParseAgrees | main.go:143-179 | Two argument lists that agree on whether the first one is a help token and give the same resolved values parse alike |
| Cli.DefaultPathsValid | main.go:196-206 | The default paths `output.pdf` and `output.jpg` pass validation |
| Cli.SelectDefaults | main.go:194-215 | A type other than image, pdf or empty is invalid; image defaults to `output.jpg`, pdf and empty default to `output.pdf`; a given path is passed through unchanged |
| Cli.KindAndExtensionMayDisagree | main.go:194-210 | The type and the extension need not agree: a given path with any supported extension is used unchanged for a PDF and for a screenshot alike, so a PDF can go to `a.jpg` |
| Cli.PositionalImageName | main.go:152-181 | `url name.png` (or any other supported image extension) selects an image capture to that file, whatever the file name flag says |
| Cli.PositionalPdfName | main.go:152-181 | `url name.pdf` selects a PDF capture to that file, whatever the file name flag says |
| Cli.UppercasePdfRefused | main.go:152-179 | `url name.PDF` is inferred as an image and then refused by validation |
| Cli.UnsupportedNameRefused | main.go:165-179 | With no help request, a URL from the flag or the first argument, an empty file name flag, and a second argument that supplies no path (a type flag is set, or it has no extension), a third argument ending in a dot and an unsupported plain name (such as `out.txt`) is refused with that extension before any capture |

## Left out

- Browser launch and sessions (`launchBrowser`, and the exec allocator with its flag list in `generatePDF`): calls into the automation library.
- The capture sequences: navigation, the two-second settle delay, waiting for `body`, the full-page screenshot at quality 500, and print-to-PDF. All of this is external rendering plus a clock.
- Writing the output file and the success messages: file I/O.
- `flag.Parse` itself: splitting dash-prefixed tokens into flags. This includes the flag package's own help path. `-h`, `-help` or `--help` given as a flag prints the help through `flag.Usage` and exits 0, whatever other flags are set. The model takes the three flag values and the remaining positional arguments as inputs.
- All printed text (`printHelp`, the error and usage messages), and the exit codes of `os.Exit` and `log.Fatal`. These become `Outcome` values. One of them, the wrong-extension message, lists only pdf, jpg and png although jpeg and bmp are accepted as well; the model keeps the accepted set and not the text.
- The `log.Fatal` after `parseArgs` in `main`: `parseArgs` never returns an error, so that branch cannot be reached.
- In the program, the browser context is created before the type switch, so an invalid type also creates one and then releases it. The model reports `InvalidType` without that side effect.
- `main` works on its own copy of the option record returned by `parseArgs`. The model lets `Dispatch` update the same `Options` object.
- Windows `\` separators and volume names in `filepath.Ext`: only `/` is modelled.
- `Ext` works on Dafny characters and Go's works on bytes. The two agree here because the only characters compared, `.` and `/`, are single-byte ASCII.
