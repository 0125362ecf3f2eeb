/** File-name extensions as Go's `filepath.Ext` computes them, with the
    forward slash as the only path separator. */
module PathExt {

  /** The only path separator modelled. */
  const Separator: char := '/'

  /** A name that can stand after the last dot of a path: it holds neither a
      dot nor a separator. */
  predicate PlainName(s: string) {
    forall k :: 0 <= k < |s| ==> s[k] != '.' && s[k] != Separator
  }

  /** `s` ends with `t`. */
  predicate HasSuffix(s: string, t: string) {
    |t| <= |s| && s[|s| - |t|..] == t
  }

  /** Positions after `i` hold no separator: position `i` lies in the final
      element of `path`. */
  ghost predicate InFinalElement(path: string, i: nat) {
    forall j :: i < j < |path| ==> path[j] != Separator
  }

  /** The final element of `path` contains a dot. */
  ghost predicate DotInFinalElement(path: string) {
    exists i :: 0 <= i < |path| && path[i] == '.' && InFinalElement(path, i)
  }

  /** The extension of `path`: the suffix that starts at the last dot of the
      final path element, or "" when that element has no dot. The result is
      either empty or a dot followed by a plain name, and always a suffix of
      `path`. */
  function Ext(path: string): (e: string)
    ensures HasSuffix(path, e)
    ensures e != "" ==> e[0] == '.' && PlainName(e[1..])
  {
    if |path| == 0 then ""
    else
      var last := path[|path| - 1];
      if last == Separator then ""
      else if last == '.' then "."
      else
        var front := path[..|path| - 1];
        var e := Ext(front);
        if e == "" then ""
        else
          var r := e + [last];
          assert path[|path| - |r|..] == front[|front| - |e|..] + [last];
          assert r[1..] == e[1..] + [last];
          r
  }

  /** The extension is empty exactly when the final element has no dot. */
  lemma {:induction false} ExtEmptyIff(path: string)
    ensures Ext(path) == "" <==> !DotInFinalElement(path)
  {
    if |path| == 0 {
    } else {
      var n := |path|;
      var last := path[n - 1];
      var front := path[..n - 1];
      if last == Separator {
        forall i | 0 <= i < n && path[i] == '.'
          ensures !InFinalElement(path, i)
        {
          assert path[n - 1] == Separator;
        }
      } else if last == '.' {
        assert InFinalElement(path, n - 1);
      } else {
        ExtEmptyIff(front);
        if DotInFinalElement(path) {
          var i :| 0 <= i < n && path[i] == '.' && InFinalElement(path, i);
          assert i < n - 1;
          assert front[i] == '.' && InFinalElement(front, i);
        }
        if DotInFinalElement(front) {
          var i :| 0 <= i < n - 1 && front[i] == '.' && InFinalElement(front, i);
          assert path[i] == '.' && InFinalElement(path, i);
        }
      }
    }
  }

  /** Whatever precedes it, a dot followed by a plain name at the end of a
      path is that path's extension. Together with the contract of `Ext` this
      pins the extension down uniquely. */
  lemma {:induction false} ExtOfSuffix(stem: string, name: string)
    requires PlainName(name)
    ensures Ext(stem + "." + name) == "." + name
  {
    var path := stem + "." + name;
    if name == "" {
      assert path[|path| - 1] == '.';
    } else {
      var n := |path|;
      var front := stem + "." + name[..|name| - 1];
      assert path[..n - 1] == front;
      assert path[n - 1] == name[|name| - 1];
      ExtOfSuffix(stem, name[..|name| - 1]);
      assert "." + name[..|name| - 1] + [name[|name| - 1]] == "." + name;
    }
  }
}
