/** String helpers shared by the back end and the front end: whitespace
    trimming (Python `str.strip`, JavaScript `String.prototype.trim`), the part
    of a string after its last separator (`str.split(sep)[-1]`,
    `os.path.basename`), ASCII lower-casing and substring search (`x in s`). */
module Text {

  /** Whose whitespace is meant: Python's `str.strip()` (the back ends) or
      JavaScript's `String.prototype.trim()` (the front ends). */
  datatype Runtime = Python | JavaScript

  /** The ASCII characters `strip()`/`trim()` remove. Both remove space, tab,
      line feed, vertical tab, form feed and carriage return; Python also
      removes the four separators U+001C to U+001F. */
  predicate IsSpace(c: char, rt: Runtime) {
    c == ' ' || '\t' <= c <= '\r' || (rt == Python && '\U{1C}' <= c <= '\U{1F}')
  }

  /** A string that `strip()`/`trim()` reduces to "" (and so is falsy). */
  predicate IsBlank(s: string, rt: Runtime) {
    forall i :: 0 <= i < |s| ==> IsSpace(s[i], rt)
  }

  /** `s.lstrip()`: `s` without its leading whitespace. */
  function TrimStart(s: string, rt: Runtime): string {
    if s != [] && IsSpace(s[0], rt) then TrimStart(s[1..], rt) else s
  }

  /** `s.rstrip()`: `s` without its trailing whitespace. */
  function TrimEnd(s: string, rt: Runtime): string {
    if s != [] && IsSpace(s[|s| - 1], rt) then TrimEnd(s[..|s| - 1], rt) else s
  }

  /** `s.strip()` / `s.trim()`: drop leading and trailing whitespace. */
  function Trim(s: string, rt: Runtime): string {
    TrimEnd(TrimStart(s, rt), rt)
  }

  /** `TrimStart` drops a run of whitespace from the front and stops at a
      non-space character. */
  lemma {:induction false} TrimStartSpec(s: string, rt: Runtime)
    ensures |TrimStart(s, rt)| <= |s| && TrimStart(s, rt) == s[|s| - |TrimStart(s, rt)|..]
    ensures forall i :: 0 <= i < |s| - |TrimStart(s, rt)| ==> IsSpace(s[i], rt)
    ensures TrimStart(s, rt) == [] || !IsSpace(TrimStart(s, rt)[0], rt)
  {
    if s != [] && IsSpace(s[0], rt) {
      TrimStartSpec(s[1..], rt);
      assert forall i :: 1 <= i < |s| ==> s[1..][i - 1] == s[i];
    }
  }

  /** `TrimEnd` drops a run of whitespace from the back and stops at a
      non-space character. */
  lemma {:induction false} TrimEndSpec(s: string, rt: Runtime)
    ensures |TrimEnd(s, rt)| <= |s| && TrimEnd(s, rt) == s[..|TrimEnd(s, rt)|]
    ensures forall i :: |TrimEnd(s, rt)| <= i < |s| ==> IsSpace(s[i], rt)
    ensures TrimEnd(s, rt) == [] || !IsSpace(TrimEnd(s, rt)[|TrimEnd(s, rt)| - 1], rt)
  {
    if s != [] && IsSpace(s[|s| - 1], rt) {
      TrimEndSpec(s[..|s| - 1], rt);
    }
  }

  /** The trimmed string is the middle of `s`: whitespace on either side of
      it, and it neither starts nor ends with whitespace. */
  lemma TrimSpec(s: string, rt: Runtime)
    ensures exists a, b ::
              && 0 <= a <= b <= |s| && Trim(s, rt) == s[a..b]
              && (forall i :: 0 <= i < a ==> IsSpace(s[i], rt))
              && (forall i :: b <= i < |s| ==> IsSpace(s[i], rt))
    ensures Trim(s, rt) == [] || (!IsSpace(Trim(s, rt)[0], rt) && !IsSpace(Trim(s, rt)[|Trim(s, rt)| - 1], rt))
  {
    var t := TrimStart(s, rt);
    TrimStartSpec(s, rt);
    TrimEndSpec(t, rt);
    var a := |s| - |t|;
    var b := a + |Trim(s, rt)|;
    assert Trim(s, rt) == s[a..b];
    assert forall i :: b <= i < |s| ==> s[i] == t[i - a];
    if Trim(s, rt) != [] {
      assert Trim(s, rt)[0] == t[0];
    }
  }

  /** Trimming yields the empty string exactly when the input is blank, so a
      truthiness test on the trimmed text is a non-blankness test. */
  lemma TrimEmptyIffBlank(s: string, rt: Runtime)
    ensures Trim(s, rt) == "" <==> IsBlank(s, rt)
  {
    var t := TrimStart(s, rt);
    TrimStartSpec(s, rt);
    TrimEndSpec(t, rt);
    assert t != [] ==> t[0] == s[|s| - |t|];
    assert t != [] ==> !IsSpace(t[0], rt);
  }

  /** The two runtimes disagree on the ASCII separators: Python strips a
      paragraph made of U+001C to nothing, JavaScript keeps it. Every
      character JavaScript trims, Python strips too. */
  lemma SeparatorsStripOnlyInPython(c: char)
    requires '\U{1C}' <= c <= '\U{1F}'
    ensures Trim([c], Python) == "" && Trim([c], JavaScript) == [c]
    ensures forall d :: IsSpace(d, JavaScript) ==> IsSpace(d, Python)
  {
    assert TrimStart([c], Python) == TrimStart([c][1..], Python);
    assert [c][1..] == [];
  }

  /** The part of `s` after the last occurrence of `sep`; all of `s` when `sep`
      does not occur.  This is Python's `s.split(sep)[-1]`, and with `sep == '/'`
      it is `os.path.basename(s)` on POSIX paths. */
  function AfterLast(s: string, sep: char): (r: string)
    ensures |r| <= |s|
    ensures sep !in r
    ensures |r| == |s| || s[|s| - |r| - 1] == sep
  {
    if s == [] then []
    else if s[|s| - 1] == sep then []
    else AfterLast(s[..|s| - 1], sep) + [s[|s| - 1]]
  }

  /** The last part is a final segment of `s`. */
  lemma {:induction false} AfterLastIsSuffix(s: string, sep: char)
    ensures AfterLast(s, sep) == s[|s| - |AfterLast(s, sep)|..]
  {
    if s != [] && s[|s| - 1] != sep {
      var s' := s[..|s| - 1];
      AfterLastIsSuffix(s', sep);
      var r' := AfterLast(s', sep);
      assert AfterLast(s, sep) == r' + [s[|s| - 1]];
      assert r' == s[|s| - 1 - |r'|..|s| - 1];
      assert s[|s| - 1 - |r'|..|s| - 1] + [s[|s| - 1]] == s[|s| - 1 - |r'|..];
    }
  }

  /** Inverse direction of `AfterLast`: a separator at position `k` followed
      by no other separator makes `s[k + 1..]` the last part. */
  lemma AfterLastAt(s: string, sep: char, k: nat)
    requires k < |s| && s[k] == sep && sep !in s[k + 1..]
    ensures AfterLast(s, sep) == s[k + 1..]
  {
    var r := AfterLast(s, sep);
    AfterLastIsSuffix(s, sep);
    assert forall m :: 0 <= m < |r| ==> r[m] == s[|s| - |r| + m];
    assert forall j :: k < j < |s| ==> s[j] == s[k + 1..][j - k - 1];
  }

  /** A string without the separator is its own last part. */
  lemma {:induction false} AfterLastNoSep(s: string, sep: char)
    requires sep !in s
    ensures AfterLast(s, sep) == s
  {
    if s != [] {
      assert s[|s| - 1] in s;
      assert forall c :: c in s[..|s| - 1] ==> c in s;
      AfterLastNoSep(s[..|s| - 1], sep);
      assert s[..|s| - 1] + [s[|s| - 1]] == s;
    }
  }

  lemma AfterLastOfJoin(prefix: string, sep: char, tail: string)
    requires sep !in tail
    ensures AfterLast(prefix + [sep] + tail, sep) == tail
  {
    var s := prefix + [sep] + tail;
    assert s[|prefix| + 1..] == tail;
    AfterLastAt(s, sep, |prefix|);
  }

  function LowerChar(c: char): char {
    if 'A' <= c <= 'Z' then (c as int - 'A' as int + 'a' as int) as char else c
  }

  /** `s.lower()` on the ASCII letters. */
  function Lower(s: string): (r: string)
    ensures |r| == |s|
    ensures forall i :: 0 <= i < |s| ==> r[i] == LowerChar(s[i])
  {
    if s == [] then [] else [LowerChar(s[0])] + Lower(s[1..])
  }

  /** `needle` occurs in `hay` starting at position `i`. */
  predicate OccursAt(hay: string, needle: string, i: int) {
    0 <= i <= |hay| - |needle| && hay[i..i + |needle|] == needle
  }

  /** The substring test `needle in hay`. */
  function Contains(hay: string, needle: string): bool
    decreases |hay|
  {
    if needle <= hay then true
    else if hay == [] then false
    else Contains(hay[1..], needle)
  }

  /** `Contains` holds exactly when `needle` occurs at some position of `hay`. */
  lemma {:induction false} ContainsIffOccurs(hay: string, needle: string)
    ensures Contains(hay, needle) <==> exists i :: OccursAt(hay, needle, i)
    decreases |hay|
  {
    if needle <= hay {
      assert OccursAt(hay, needle, 0);
    } else if hay == [] {
    } else {
      ContainsIffOccurs(hay[1..], needle);
      if Contains(hay, needle) {
        var i :| OccursAt(hay[1..], needle, i);
        assert hay[1..][i..i + |needle|] == hay[i + 1..i + 1 + |needle|];
        assert OccursAt(hay, needle, i + 1);
      } else {
        forall i | OccursAt(hay, needle, i)
          ensures false
        {
          if i > 0 {
            assert hay[i..i + |needle|] == hay[1..][i - 1..i - 1 + |needle|];
            assert OccursAt(hay[1..], needle, i - 1);
          }
        }
      }
    }
  }
}
