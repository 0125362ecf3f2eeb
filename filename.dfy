/** Validation of the output file name (`validateFilename`): an empty name is
    accepted, and any other name must carry one of a fixed set of
    extensions, compared case-sensitively. */
module Filename {
  import opened PathExt

  datatype Option<T> = None | Some(value: T)

  /** Why a file name was refused. */
  datatype FilenameError =
    | MissingExtension                   // the final element has no dot
    | UnsupportedExtension(ext: string)  // the text after the last dot, not supported

  /** The extensions accepted, without their leading dot. */
  const SupportedExtensions: set<string> := {"pdf", "jpg", "png", "jpeg", "bmp"}

  /** `None` when `filename` is acceptable, otherwise the reason it is not. */
  function ValidateFilename(filename: string): (r: Option<FilenameError>)
    ensures filename == "" ==> r == None
    ensures r.Some? && r.value.UnsupportedExtension? ==>
              r.value.ext !in SupportedExtensions && PlainName(r.value.ext) &&
              HasSuffix(filename, "." + r.value.ext)
  {
    if filename == "" then None
    else
      var ext := Ext(filename);
      if ext == "" then Some(MissingExtension)
      else
        var name := ext[1..];
        assert "." + name == ext;
        if name in SupportedExtensions then None
        else Some(UnsupportedExtension(name))
  }

  /** No supported extension holds a dot or a separator. */
  lemma SupportedArePlain(x: string)
    requires x in SupportedExtensions
    ensures PlainName(x)
  {
  }

  /** A file name is accepted exactly when it is empty or ends with a dot and
      a supported extension. */
  lemma AcceptedIff(filename: string)
    ensures ValidateFilename(filename) == None <==>
              filename == "" ||
              exists x :: x in SupportedExtensions && HasSuffix(filename, "." + x)
  {
    if filename != "" {
      if ValidateFilename(filename) == None {
        AcceptedHasSuffix(filename);
      } else if exists x :: x in SupportedExtensions && HasSuffix(filename, "." + x) {
        var x :| x in SupportedExtensions && HasSuffix(filename, "." + x);
        SuffixAccepted(filename, x);
        assert false;
      }
    }
  }

  /** A name that ends with a dot and a supported extension is accepted. */
  lemma SuffixAccepted(filename: string, x: string)
    requires x in SupportedExtensions && HasSuffix(filename, "." + x)
    ensures ValidateFilename(filename) == None
  {
    var stem := filename[..|filename| - |x| - 1];
    assert filename == stem + "." + x;
    SupportedAccepted(stem, x);
  }

  /** An accepted non-empty name ends with its supported extension. */
  lemma AcceptedHasSuffix(filename: string)
    requires filename != "" && ValidateFilename(filename) == None
    ensures var x := Ext(filename)[1..];
            x in SupportedExtensions && HasSuffix(filename, "." + x)
  {
    var e := Ext(filename);
    assert "." + e[1..] == e;
  }

  /** A non-empty name whose final element has no dot is refused for
      missing an extension, and that is the only way to get this error. */
  lemma MissingExtensionIff(filename: string)
    ensures ValidateFilename(filename) == Some(MissingExtension) <==>
              filename != "" && !DotInFinalElement(filename)
  {
    ExtEmptyIff(filename);
  }

  /** A name ending in a dot and a plain name outside the supported set is
      refused, and the error names that extension. */
  lemma UnsupportedRejected(stem: string, name: string)
    requires PlainName(name) && name !in SupportedExtensions
    ensures ValidateFilename(stem + "." + name) == Some(UnsupportedExtension(name))
  {
    ExtOfSuffix(stem, name);
  }

  /** A name ending in a dot and a supported extension is accepted. */
  lemma SupportedAccepted(stem: string, name: string)
    requires name in SupportedExtensions
    ensures ValidateFilename(stem + "." + name) == None
  {
    SupportedArePlain(name);
    ExtOfSuffix(stem, name);
  }

  /** A trailing dot gives the empty extension, which is refused. */
  lemma TrailingDotRejected(stem: string)
    ensures ValidateFilename(stem + ".") == Some(UnsupportedExtension(""))
  {
    UnsupportedRejected(stem, "");
    assert stem + "." + "" == stem + ".";
  }

  /** Extensions are compared case-sensitively: upper-case "PDF" is refused
      where "pdf" is accepted. */
  lemma ExtensionCaseSensitive(stem: string)
    ensures ValidateFilename(stem + ".PDF") == Some(UnsupportedExtension("PDF"))
    ensures ValidateFilename(stem + ".pdf") == None
  {
    UpperCasePdfRejected(stem);
    LowerCasePdfAccepted(stem);
  }

  lemma UpperCasePdfRejected(stem: string)
    ensures ValidateFilename(stem + ".PDF") == Some(UnsupportedExtension("PDF"))
  {
    assert PlainName("PDF") && "PDF" !in SupportedExtensions;
    UnsupportedRejected(stem, "PDF");
    assert stem + "." + "PDF" == stem + ".PDF";
  }

  lemma LowerCasePdfAccepted(stem: string)
    ensures ValidateFilename(stem + ".pdf") == None
  {
    SupportedAccepted(stem, "pdf");
    assert stem + "." + "pdf" == stem + ".pdf";
  }
}
