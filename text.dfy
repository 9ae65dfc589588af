/**
 * JavaScript string whitespace, `String.prototype.trim`, and JavaScript
 * truthiness of strings, as the forms and the settings page use them.
 */
module Text {

  /**
   * The code points ECMAScript counts as WhiteSpace or LineTerminator: what
   * `trim` removes and what the regular-expression class `\s` matches.
   */
  predicate IsSpace(c: char) {
    c == '\t' || c == '\n' || c == '\U{000B}' || c == '\U{000C}' || c == '\r' || c == ' '
    || c == '\U{00A0}' || c == '\U{1680}' || ('\U{2000}' <= c <= '\U{200A}')
    || c == '\U{2028}' || c == '\U{2029}' || c == '\U{202F}' || c == '\U{205F}'
    || c == '\U{3000}' || c == '\U{FEFF}'
  }

  /** No printable ASCII character other than the space is whitespace. */
  lemma PrintableNotSpace(c: char)
    requires '!' <= c <= '~'
    ensures !IsSpace(c)
  {
  }

  predicate AllSpace(s: string) {
    forall k :: 0 <= k < |s| ==> IsSpace(s[k])
  }

  /** Neither end of `s` is whitespace (vacuously true of ""). */
  predicate Trimmed(s: string) {
    s == [] || (!IsSpace(s[0]) && !IsSpace(s[|s| - 1]))
  }

  /** `s` with its leading whitespace removed: a suffix of `s`. */
  function TrimStart(s: string): (r: string)
    ensures |r| <= |s| && r == s[|s| - |r|..]
    ensures forall k :: 0 <= k < |s| - |r| ==> IsSpace(s[k])
    ensures r == [] || !IsSpace(r[0])
  {
    if s != [] && IsSpace(s[0]) then TrimStart(s[1..]) else s
  }

  /** `s` with its trailing whitespace removed: a prefix of `s`. */
  function TrimEnd(s: string): (r: string)
    ensures |r| <= |s| && r == s[..|r|]
    ensures forall k :: |r| <= k < |s| ==> IsSpace(s[k])
    ensures r == [] || !IsSpace(r[|r| - 1])
  {
    if s != [] && IsSpace(s[|s| - 1]) then TrimEnd(s[..|s| - 1]) else s
  }

  /** `s.trim()`: the part of `s` between its leading and its trailing whitespace. */
  function Trim(s: string): (r: string)
    ensures Trimmed(r)
    ensures exists i :: SliceAt(s, i, r)
  {
    var t := TrimStart(s);
    TrimEndTrimmed(t);
    TrimEndSlice(s, t);
    TrimEnd(t)
  }

  /** Trimming the end of a string that starts with no whitespace leaves neither end whitespace. */
  lemma TrimEndTrimmed(t: string)
    requires t == [] || !IsSpace(t[0])
    ensures Trimmed(TrimEnd(t))
  {
    var r := TrimEnd(t);
    if r != [] {
      assert r[0] == t[0];
    }
  }

  /** A prefix of a suffix of `s` occurs in `s`. */
  lemma TrimEndSlice(s: string, t: string)
    requires |t| <= |s| && t == s[|s| - |t|..]
    ensures SliceAt(s, |s| - |t|, TrimEnd(t))
  {
    var r := TrimEnd(t);
    assert r == s[|s| - |t|..][..|r|];
  }

  /** `r` occurs in `s` starting at index `i`. */
  predicate SliceAt(s: string, i: int, r: string) {
    0 <= i && i + |r| <= |s| && r == s[i..i + |r|]
  }

  /** `!s.trim()`: the trimmed string is empty exactly when `s` is all whitespace. */
  lemma {:induction false} BlankIffAllSpace(s: string)
    ensures Trim(s) == [] <==> AllSpace(s)
  {
    var t := TrimStart(s);
    var r := TrimEnd(t);
    if t == [] {
      assert s[..|s|] == s;
    } else {
      assert s[|s| - |t|] == t[0] && !IsSpace(t[0]);
    }
  }

  /** Trimming something already trimmed changes nothing. */
  lemma TrimOfTrimmed(s: string)
    requires Trimmed(s)
    ensures Trim(s) == s
  {
  }

  lemma TrimIdempotent(s: string)
    ensures Trim(Trim(s)) == Trim(s)
  {
    TrimOfTrimmed(Trim(s));
  }

  /**
   * `trim` is determined by the three parts of its input: for leading
   * whitespace `lead`, a `core` whose ends are not whitespace, and trailing
   * whitespace `tail`, the result is `core`.
   */
  lemma {:induction false} TrimSplits(lead: string, core: string, tail: string)
    requires AllSpace(lead) && AllSpace(tail) && Trimmed(core)
    ensures Trim(lead + core + tail) == core
  {
    var s := lead + core + tail;
    if core == [] {
      assert AllSpace(s) by {
        assert s == lead + tail;
      }
      BlankIffAllSpace(s);
    } else {
      assert s == lead + (core + tail);
      TrimStartSkips(lead, core + tail);
      TrimEndSkips(core, tail);
      assert Trim(s) == TrimEnd(TrimStart(s));
    }
  }

  lemma {:induction false} TrimStartSkips(lead: string, rest: string)
    requires AllSpace(lead)
    requires rest == [] || !IsSpace(rest[0])
    ensures TrimStart(lead + rest) == rest
  {
    if lead != [] {
      assert (lead + rest)[1..] == lead[1..] + rest;
      TrimStartSkips(lead[1..], rest);
    }
  }

  lemma {:induction false} TrimEndSkips(rest: string, tail: string)
    requires AllSpace(tail)
    requires rest == [] || !IsSpace(rest[|rest| - 1])
    ensures TrimEnd(rest + tail) == rest
  {
    if tail != [] {
      var s := rest + tail;
      assert s[..|s| - 1] == rest + tail[..|tail| - 1];
      TrimEndSkips(rest, tail[..|tail| - 1]);
    } else {
      assert rest + tail == rest;
    }
  }
}
