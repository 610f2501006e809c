/**
 * Path handling of batterylogd: removing one trailing separator and taking
 * the last path segment (POSIX `basename`, as declared by libgen.h).
 */
module Paths {

  /**
   * `strip_traling_slash` exactly as written: it inspects `str.back()`, which is
   * undefined for an empty string, so the model requires a non-empty input.
   */
  function StripTrailingSlashAsWritten(s: string): (r: string)
    requires |s| > 0
    ensures r <= s
    ensures |r| == (if s[|s| - 1] == '/' then |s| - 1 else |s|)
  {
    if s[|s| - 1] == '/' then s[..|s| - 1] else s
  }

  /**
   * `strip_traling_slash` with the emptiness guard it evidently intends: one
   * trailing '/' is removed when present, anything else is returned unchanged.
   * The rest of the model uses this definition.
   */
  function StripTrailingSlash(s: string): (r: string)
    ensures r <= s
    ensures |r| == (if |s| > 0 && s[|s| - 1] == '/' then |s| - 1 else |s|)
  {
    if |s| > 0 && s[|s| - 1] == '/' then s[..|s| - 1] else s
  }

  /** On every input the source can handle, the corrected definition agrees with it. */
  lemma StripAgreesWithAsWritten(s: string)
    requires |s| > 0
    ensures StripTrailingSlash(s) == StripTrailingSlashAsWritten(s)
  {
  }

  /** Appending one separator and stripping it again gives the original path back. */
  lemma StripAppendedSlash(s: string)
    ensures StripTrailingSlash(s + "/") == s
  {
    assert (s + "/")[..|s|] == s;
  }

  /** A path that does not end in '/' is left alone. */
  lemma StripKeepsPlainPath(s: string)
    requires |s| == 0 || s[|s| - 1] != '/'
    ensures StripTrailingSlash(s) == s
  {
  }

  /** The text after the last '/' of `s` (all of `s` when it has none). */
  function AfterLastSlash(s: string): string
    decreases |s|
  {
    if s == [] then []
    else if s[|s| - 1] == '/' then []
    else AfterLastSlash(s[..|s| - 1]) + [s[|s| - 1]]
  }

  /** The text after the last '/' is a suffix free of '/', preceded by '/' unless it is all of `s`. */
  lemma {:induction false} AfterLastSlashIsLastSegment(s: string)
    ensures var r := AfterLastSlash(s);
      && |r| <= |s| && s[|s| - |r|..] == r
      && '/' !in r
      && (|r| == |s| || s[|s| - |r| - 1] == '/')
    decreases |s|
  {
    if s != [] && s[|s| - 1] != '/' {
      var init := s[..|s| - 1];
      AfterLastSlashIsLastSegment(init);
      var r0 := AfterLastSlash(init);
      var r := AfterLastSlash(s);
      assert r == r0 + [s[|s| - 1]];
      assert s == init + [s[|s| - 1]];
      assert s[|s| - |r|..] == init[|init| - |r0|..] + [s[|s| - 1]];
    }
  }

  /** `s` with every trailing '/' removed. */
  function TrimSlashes(s: string): string
    decreases |s|
  {
    if s == [] then []
    else if s[|s| - 1] == '/' then TrimSlashes(s[..|s| - 1])
    else s
  }

  /** Trimming keeps a prefix that does not end in '/' and drops only separators. */
  lemma {:induction false} TrimSlashesDropsSeparators(s: string)
    ensures var r := TrimSlashes(s);
      && r <= s
      && (r == [] || r[|r| - 1] != '/')
      && forall i :: |r| <= i < |s| ==> s[i] == '/'
    decreases |s|
  {
    if s != [] && s[|s| - 1] == '/' {
      TrimSlashesDropsSeparators(s[..|s| - 1]);
    }
  }

  /**
   * POSIX `basename`: "." for the empty path, "/" for a path made only of
   * separators, otherwise the last segment once trailing separators are gone.
   */
  function BaseName(p: string): string
  {
    if p == [] then "."
    else
      var q := TrimSlashes(p);
      if q == [] then "/" else AfterLastSlash(q)
  }

  /** A base name is never empty and is either "/" or free of separators; the empty path gives ".". */
  lemma BaseNameIsSegment(p: string)
    ensures p == [] ==> BaseName(p) == "."
    ensures BaseName(p) != [] && (BaseName(p) == "/" || '/' !in BaseName(p))
  {
    var q := TrimSlashes(p);
    TrimSlashesDropsSeparators(p);
    if p != [] && q != [] {
      AfterLastSlashIsLastSegment(q);
      assert |AfterLastSlash(q)| > 0 by {
        assert q[|q| - 1] != '/';
      }
    }
  }

  /** A segment appended after a '/' is exactly what `AfterLastSlash` recovers. */
  lemma {:induction false} AfterLastSlashOfSegment(dir: string, entry: string)
    requires '/' !in entry
    ensures AfterLastSlash(dir + "/" + entry) == entry
    decreases |entry|
  {
    var s := dir + "/" + entry;
    if entry != [] {
      var shorter := entry[..|entry| - 1];
      var last := entry[|entry| - 1];
      assert last in entry;
      assert entry == shorter + [last];
      assert s == (dir + "/" + shorter) + [last];
      assert s[..|s| - 1] == dir + "/" + shorter;
      AfterLastSlashOfSegment(dir, shorter);
    }
  }

  /**
   * A directory entry named `entry` under `dir` is named `entry`: stripping
   * and taking the base name of `dir + entry` returns the entry itself.
   */
  lemma EntryNameIsBaseName(dir: string, entry: string)
    requires |dir| > 0 && dir[|dir| - 1] == '/'
    requires entry != [] && '/' !in entry
    ensures StripTrailingSlash(dir + entry) == dir + entry
    ensures BaseName(StripTrailingSlash(dir + entry)) == entry
  {
    var p := dir + entry;
    assert p[|p| - 1] == entry[|entry| - 1];
    assert entry[|entry| - 1] in entry;
    assert TrimSlashes(p) == p;
    var d := dir[..|dir| - 1];
    assert d + "/" + entry == p;
    AfterLastSlashOfSegment(d, entry);
  }

  /**
   * The characters `basename` leaves in the buffer it is handed (the XPG
   * version libgen.h selects, as glibc implements it): when the path ends in
   * '/' after some other character, a NUL overwrites the first of the
   * trailing separators. The string keeps its length; only C library calls
   * stop at the NUL.
   */
  function BaseNameBuffer(p: string): string
  {
    var q := TrimSlashes(p);
    if q != [] && |q| < |p| then q + ['\0'] + p[|q| + 1..] else p
  }

  /** What a C library call sees of `s`: the characters before the first NUL. */
  function CPath(s: string): string
    decreases |s|
  {
    if s == [] || s[0] == '\0' then [] else [s[0]] + CPath(s[1..])
  }

  /** A string without NUL reaches a C call whole. */
  lemma {:induction false} CPathOfPlainString(s: string)
    requires '\0' !in s
    ensures CPath(s) == s
    decreases |s|
  {
    if s != [] {
      assert s[0] in s;
      CPathOfPlainString(s[1..]);
    }
  }

  /** A C call stops at the first NUL. */
  lemma {:induction false} CPathStopsAtNul(a: string, b: string)
    requires '\0' !in a
    ensures CPath(a + ['\0'] + b) == a
    decreases |a|
  {
    var s := a + ['\0'] + b;
    if a != [] {
      assert a[0] in a;
      assert s[1..] == a[1..] + ['\0'] + b;
      CPathStopsAtNul(a[1..], b);
    } else {
      assert s[0] == '\0';
    }
  }

  /** Stripping a string with a NUL in it works on the part after the NUL. */
  lemma StripAfterNul(q: string, r: string)
    ensures StripTrailingSlash(q + ['\0'] + r) == q + ['\0'] + StripTrailingSlash(r)
  {
    var s := q + ['\0'] + r;
    if r != [] {
      assert s[|s| - 1] == r[|r| - 1];
      assert s[..|s| - 1] == q + ['\0'] + r[..|r| - 1];
    } else {
      assert s[|s| - 1] == '\0';
      assert s == q + ['\0'] + [];
    }
  }

  /**
   * `basename` leaves the buffer as it was exactly when the path does not end
   * in '/' after some other character; it never changes the length.
   */
  lemma BaseNameBufferChanges(p: string)
    requires '\0' !in p
    ensures |BaseNameBuffer(p)| == |p|
    ensures BaseNameBuffer(p) != p <==> TrimSlashes(p) != [] && TrimSlashes(p) != p
  {
    var q := TrimSlashes(p);
    TrimSlashesDropsSeparators(p);
    if q != [] && |q| < |p| {
      assert BaseNameBuffer(p)[|q|] == '\0';
      assert p[|q|] in p;
    }
  }

  /**
   * When it does end so, every C call on the buffer, whatever is appended to
   * it, sees only the path without its trailing separators.
   */
  lemma BaseNameBufferOpensTrimmed(p: string, suffix: string)
    requires '\0' !in p && TrimSlashes(p) != [] && TrimSlashes(p) != p
    ensures CPath(BaseNameBuffer(p) + suffix) == TrimSlashes(p)
  {
    var q := TrimSlashes(p);
    TrimSlashesDropsSeparators(p);
    assert '\0' !in q by {
      forall i | 0 <= i < |q| ensures q[i] != '\0' {
        assert q[i] == p[i] && p[i] in p;
      }
    }
    assert BaseNameBuffer(p) + suffix == q + ['\0'] + (p[|q| + 1..] + suffix);
    CPathStopsAtNul(q, p[|q| + 1..] + suffix);
  }

  /**
   * Stripping such a buffer once more and appending "/" and a file name
   * still leaves the NUL in place: a C call sees the trimmed path.
   */
  lemma StrippedBufferOpensTrimmed(p: string, name: string)
    requires '\0' !in p && TrimSlashes(p) != [] && TrimSlashes(p) != p
    ensures CPath(StripTrailingSlash(BaseNameBuffer(p)) + "/" + name) == TrimSlashes(p)
  {
    var q := TrimSlashes(p);
    TrimSlashesDropsSeparators(p);
    var r := p[|q| + 1..];
    assert BaseNameBuffer(p) == q + ['\0'] + r;
    StripAfterNul(q, r);
    var rest := StripTrailingSlash(r) + "/" + name;
    assert (q + ['\0'] + StripTrailingSlash(r)) + "/" + name == q + ['\0'] + rest;
    assert '\0' !in q by {
      forall k | 0 <= k < |q| ensures q[k] != '\0' {
        assert q[k] == p[k] && p[k] in p;
      }
    }
    CPathStopsAtNul(q, rest);
  }
}
