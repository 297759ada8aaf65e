/** The JavaScript string operations the components rely on: the `\s`
    whitespace class (which is also what `String.prototype.trim` removes),
    `trim`, `toLowerCase`/`toUpperCase` (letters A-Z and Đ only),
    `includes`, and `replace(/\s+/g, "-")`. */
module Text {

  import opened Wrappers

  /** JavaScript WhiteSpace and LineTerminator code points: the `\s` class. */
  predicate IsSpace(c: char)
  {
    || c == ' ' || c == '\t' || c == '\n' || c == '\r'
    || c == '\U{000B}' || c == '\U{000C}' || c == '\U{00A0}' || c == '\U{1680}'
    || ('\U{2000}' <= c <= '\U{200A}')
    || c == '\U{2028}' || c == '\U{2029}' || c == '\U{202F}' || c == '\U{205F}'
    || c == '\U{3000}' || c == '\U{FEFF}'
  }

  predicate NoSpace(s: string)
  {
    forall i :: 0 <= i < |s| ==> !IsSpace(s[i])
  }

  /** `s.trimStart()`: the suffix left after the leading whitespace. */
  function TrimStart(s: string): (r: string)
    ensures |r| <= |s|
  {
    if s != [] && IsSpace(s[0]) then TrimStart(s[1..]) else s
  }

  /** `trimStart` cuts away whitespace only, and all of it. */
  lemma {:induction false} TrimStartSpec(s: string)
    ensures var r := TrimStart(s);
      && r == s[|s| - |r|..]
      && (forall i :: 0 <= i < |s| - |r| ==> IsSpace(s[i]))
      && (r == [] || !IsSpace(r[0]))
  {
    if s != [] && IsSpace(s[0]) {
      TrimStartSpec(s[1..]);
    }
  }

  /** `s.trimEnd()`: the prefix left before the trailing whitespace. */
  function TrimEnd(s: string): (r: string)
    ensures |r| <= |s|
  {
    if s != [] && IsSpace(s[|s| - 1]) then TrimEnd(s[..|s| - 1]) else s
  }

  /** `trimEnd` cuts away whitespace only, and all of it. */
  lemma {:induction false} TrimEndSpec(s: string)
    ensures var r := TrimEnd(s);
      && r == s[..|r|]
      && (forall i :: |r| <= i < |s| ==> IsSpace(s[i]))
      && (r == [] || !IsSpace(r[|r| - 1]))
  {
    if s != [] && IsSpace(s[|s| - 1]) {
      TrimEndSpec(s[..|s| - 1]);
    }
  }

  /** `s.trim()` */
  function Trim(s: string): string
  {
    TrimEnd(TrimStart(s))
  }

  /** JavaScript truthiness of a string that may be null: present and not "". */
  predicate IsTruthy(s: Option<string>)
  {
    s.Some? && s.value != ""
  }

  /** `a || b` on strings that may be null or undefined. */
  function OrElse(a: Option<string>, b: string): (r: string)
    ensures IsTruthy(a) ==> r == a.value
    ensures !IsTruthy(a) ==> r == b
  {
    if IsTruthy(a) then a.value else b
  }

  /** `!s.trim()`: the string is empty once trimmed. */
  predicate IsBlank(s: string)
  {
    Trim(s) == ""
  }

  /** Where the trimmed text starts inside the original string. */
  function TrimOffset(s: string): nat
  {
    |s| - |TrimStart(s)|
  }

  /** The trimmed string is a slice of the input with only whitespace cut
      away on either side, and it neither starts nor ends with whitespace. */
  lemma TrimSlice(s: string)
    ensures TrimOffset(s) + |Trim(s)| <= |s|
    ensures Trim(s) == s[TrimOffset(s)..TrimOffset(s) + |Trim(s)|]
    ensures forall i :: 0 <= i < TrimOffset(s) ==> IsSpace(s[i])
    ensures forall i :: TrimOffset(s) + |Trim(s)| <= i < |s| ==> IsSpace(s[i])
    ensures Trim(s) == [] || (!IsSpace(Trim(s)[0]) && !IsSpace(Trim(s)[|Trim(s)| - 1]))
  {
    var t := TrimStart(s);
    var r := TrimEnd(t);
    var k := |s| - |t|;
    assert TrimOffset(s) == k && Trim(s) == r;
    TrimStartSpec(s);
    TrimEndSpec(t);
    assert r == s[k..k + |r|] by {
      assert r == t[..|r|] && t == s[k..];
    }
    forall i | k + |r| <= i < |s| ensures IsSpace(s[i]) {
      assert s[i] == t[i - k];
    }
    if r != [] {
      assert r[0] == t[0];
    }
  }

  /** A string is blank exactly when all of its characters are whitespace. */
  lemma BlankIffAllSpace(s: string)
    ensures IsBlank(s) <==> forall i :: 0 <= i < |s| ==> IsSpace(s[i])
  {
    TrimSlice(s);
  }

  /** Trimming twice is trimming once. */
  lemma TrimIdempotent(s: string)
    ensures Trim(Trim(s)) == Trim(s)
  {
    TrimSlice(s);
  }

  /** `toLowerCase` on one code point. Only A-Z and Đ (U+0110) are mapped. */
  function LowerChar(c: char): char
  {
    if 'A' <= c <= 'Z' then (c as int + 32) as char
    else if c == '\U{0110}' then '\U{0111}'
    else c
  }

  /** `toUpperCase` on one code point. Only a-z and đ (U+0111) are mapped. */
  function UpperChar(c: char): char
  {
    if 'a' <= c <= 'z' then (c as int - 32) as char
    else if c == '\U{0111}' then '\U{0110}'
    else c
  }

  function Lower(s: string): (r: string)
    ensures |r| == |s| && forall i :: 0 <= i < |s| ==> r[i] == LowerChar(s[i])
  {
    seq(|s|, i requires 0 <= i < |s| => LowerChar(s[i]))
  }

  function Upper(s: string): (r: string)
    ensures |r| == |s| && forall i :: 0 <= i < |s| ==> r[i] == UpperChar(s[i])
  {
    seq(|s|, i requires 0 <= i < |s| => UpperChar(s[i]))
  }

  /** Lower-casing never produces an upper-case ASCII letter, and a second
      pass changes nothing. */
  lemma LowerIdempotent(s: string)
    ensures Lower(Lower(s)) == Lower(s)
    ensures forall i :: 0 <= i < |s| ==> !('A' <= Lower(s)[i] <= 'Z')
  {
  }

  /** Case mapping neither creates nor removes whitespace, so lower-casing
      and trimming commute. */
  lemma {:induction false} LowerTrimCommute(s: string)
    ensures Trim(Lower(s)) == Lower(Trim(s))
  {
    LowerTrimStart(s);
    LowerTrimEnd(TrimStart(s));
  }

  lemma {:induction false} LowerTrimStart(s: string)
    ensures TrimStart(Lower(s)) == Lower(TrimStart(s))
  {
    if s != [] && IsSpace(s[0]) {
      assert Lower(s)[1..] == Lower(s[1..]);
      LowerTrimStart(s[1..]);
    }
  }

  lemma {:induction false} LowerTrimEnd(s: string)
    ensures TrimEnd(Lower(s)) == Lower(TrimEnd(s))
  {
    if s != [] && IsSpace(s[|s| - 1]) {
      assert Lower(s)[..|s| - 1] == Lower(s[..|s| - 1]);
      LowerTrimEnd(s[..|s| - 1]);
    }
  }

  /** `s.startsWith(t)` */
  predicate StartsWith(s: string, t: string)
  {
    |t| <= |s| && s[..|t|] == t
  }

  /** `s.includes(t)`: `t` occurs in `s` as a contiguous slice. */
  predicate Contains(s: string, t: string)
  {
    StartsWith(s, t) || (s != [] && Contains(s[1..], t))
  }

  /** `Contains` holds exactly when some slice of `s` equals `t`. */
  lemma {:induction false} ContainsAt(s: string, t: string, k: nat)
    requires k + |t| <= |s| && s[k..k + |t|] == t
    ensures Contains(s, t)
  {
    if k > 0 {
      assert s[1..][k - 1..k - 1 + |t|] == t;
      ContainsAt(s[1..], t, k - 1);
    }
  }

  /** `s.toLowerCase().includes(q.toLowerCase())` */
  predicate ContainsIgnoringCase(s: string, q: string)
  {
    Contains(Lower(s), Lower(q))
  }

  lemma {:induction false} LowerAppend(a: string, b: string)
    ensures Lower(a + b) == Lower(a) + Lower(b)
  {
    var l := Lower(a + b);
    forall i | 0 <= i < |l| ensures l[i] == (Lower(a) + Lower(b))[i] {
      if i < |a| {
        assert (a + b)[i] == a[i];
      } else {
        assert (a + b)[i] == b[i - |a|];
      }
    }
  }

  /** A text that includes `t + u` includes `t`. */
  lemma {:induction false} ContainsShorter(s: string, t: string, u: string)
    requires Contains(s, t + u)
    ensures Contains(s, t)
  {
    if StartsWith(s, t + u) {
      assert s[..|t|] == (t + u)[..|t|];
    } else {
      ContainsShorter(s[1..], t, u);
    }
  }

  /** Typing more of the query can only turn a match into a non-match. */
  lemma LongerQueryMatchesLess(s: string, q: string, more: string)
    requires ContainsIgnoringCase(s, q + more)
    ensures ContainsIgnoringCase(s, q)
  {
    LowerAppend(q, more);
    ContainsShorter(Lower(s), Lower(q), Lower(more));
  }

  /** Every string includes the empty string, so an empty query matches. */
  lemma EmptyQueryMatches(s: string)
    ensures ContainsIgnoringCase(s, "")
  {
    assert StartsWith(Lower(s), Lower(""));
  }

  /** `s.replace(/\s+/g, "-")`: every maximal run of whitespace becomes one `-`. */
  function HyphenateSpaces(s: string): (r: string)
    ensures NoSpace(r)
    decreases |s|
  {
    if s == [] then []
    else if IsSpace(s[0]) then "-" + HyphenateSpaces(TrimStart(s))
    else [s[0]] + HyphenateSpaces(s[1..])
  }

  /** A string without whitespace is left as it is. */
  lemma {:induction false} HyphenateNoSpace(s: string)
    requires NoSpace(s)
    ensures HyphenateSpaces(s) == s
  {
    if s != [] {
      HyphenateNoSpace(s[1..]);
    }
  }

  /** The characters that are not whitespace are kept in order, and only `-`
      is inserted: deleting every `-` from both sides gives the same string. */
  lemma {:induction false} HyphenateKeepsText(s: string)
    ensures DropChar(HyphenateSpaces(s), '-') == DropChar(DropSpaces(s), '-')
    decreases |s|
  {
    if s != [] {
      if IsSpace(s[0]) {
        var t := TrimStart(s);
        HyphenateKeepsText(t);
        assert DropChar("-" + HyphenateSpaces(t), '-') == DropChar(HyphenateSpaces(t), '-');
        DropSpacesPrefix(s);
      } else {
        HyphenateKeepsText(s[1..]);
        assert ([s[0]] + HyphenateSpaces(s[1..]))[1..] == HyphenateSpaces(s[1..]);
      }
    }
  }

  /** Removing the whitespace of `s` skips its leading whitespace first. */
  lemma {:induction false} DropSpacesPrefix(s: string)
    ensures DropSpaces(s) == DropSpaces(TrimStart(s))
  {
    if s != [] && IsSpace(s[0]) {
      DropSpacesPrefix(s[1..]);
    }
  }

  /** `s` without its whitespace characters. */
  function DropSpaces(s: string): string
  {
    if s == [] then [] else (if IsSpace(s[0]) then [] else [s[0]]) + DropSpaces(s[1..])
  }

  /** `s` without any occurrence of `c`. */
  function DropChar(s: string, c: char): string
  {
    if s == [] then [] else (if s[0] == c then [] else [s[0]]) + DropChar(s[1..], c)
  }
}
