/**
  The JavaScript string operations the request handlers rely on, stated over
  `seq<char>`: `trim`, `length` (in UTF-16 code units), `toLowerCase`,
  `includes`, and the two regular-expression replacements `/[^\w\s]/g` and
  `/\s+/g`.
*/
module JsString {
  import opened Wrappers

  /** `s || default` for a string that may be missing: a missing or empty
      string is falsy and gives `default`. */
  function StringOr(s: Option<string>, default: string): (r: string)
    ensures r == default <==> s == None || s.value == "" || s.value == default
    ensures r != "" <==> (s.Some? && s.value != "") || default != ""
  {
    if s.Some? && s.value != "" then s.value else default
  }

  /** A character matched by `\s` and removed by `trim`: the WhiteSpace and
      LineTerminator code points of ECMAScript (the two sets coincide). */
  predicate IsWhitespace(c: char) {
    var n := c as int;
    (0x09 <= n <= 0x0D) || n == 0x20 || n == 0xA0 || n == 0x1680
    || (0x2000 <= n <= 0x200A) || n == 0x2028 || n == 0x2029
    || n == 0x202F || n == 0x205F || n == 0x3000 || n == 0xFEFF
  }

  /** A character matched by `\w` in a regular expression without the `u`
      flag: ASCII letters, digits and underscore. */
  predicate IsWordChar(c: char) {
    ('a' <= c <= 'z') || ('A' <= c <= 'Z') || ('0' <= c <= '9') || c == '_'
  }

  /** Among ASCII characters, `\s` matches exactly tab, line feed,
      vertical tab, form feed, carriage return and space. */
  lemma AsciiWhitespace(c: char)
    requires c as int < 0x80
    ensures IsWhitespace(c) <==> 0x09 <= c as int <= 0x0D || c == ' '
  {
  }

  /** `\w` matches only ASCII characters, and none of them is matched by
      `\s`: the two classes are disjoint. */
  lemma WordCharsAreAsciiNonWhitespace(c: char)
    requires IsWordChar(c)
    ensures c as int < 0x80 && !IsWhitespace(c)
  {
  }

  predicate NoWhitespace(s: string) {
    forall i :: 0 <= i < |s| ==> !IsWhitespace(s[i])
  }

  predicate AllWhitespace(s: string) {
    forall i :: 0 <= i < |s| ==> IsWhitespace(s[i])
  }

  // ---------------------------------------------------------------------
  // length

  /** `s.length`: characters outside the Basic Multilingual Plane take two
      UTF-16 code units, every other character one. */
  function Utf16Length(s: string): (n: nat)
    ensures |s| <= n <= 2 * |s|
    ensures n == 0 <==> s == []
  {
    if s == [] then 0
    else (if s[0] as int >= 0x1_0000 then 2 else 1) + Utf16Length(s[1..])
  }

  // ---------------------------------------------------------------------
  // trim

  /** Removes the longest all-whitespace prefix. */
  function TrimStart(s: string): (r: string)
    ensures |r| <= |s| && r == s[|s| - |r|..]
    ensures AllWhitespace(s[..|s| - |r|])
    ensures r == [] || !IsWhitespace(r[0])
  {
    if s != [] && IsWhitespace(s[0]) then
      var r := TrimStart(s[1..]);
      assert s[1..][|s| - 1 - |r|..] == s[|s| - |r|..];
      assert forall i :: 1 <= i < |s| - |r| ==> s[i] == s[1..][..|s| - 1 - |r|][i - 1];
      r
    else s
  }

  /** Removes the longest all-whitespace suffix. */
  function TrimEnd(s: string): (r: string)
    ensures |r| <= |s| && r == s[..|r|]
    ensures AllWhitespace(s[|r|..])
    ensures r == [] || !IsWhitespace(r[|r| - 1])
  {
    if s != [] && IsWhitespace(s[|s| - 1]) then
      var r := TrimEnd(s[..|s| - 1]);
      assert s[|r|..] == s[..|s| - 1][|r|..] + [s[|s| - 1]];
      r
    else s
  }

  /** `s.trim()`. */
  function Trim(s: string): (r: string)
    ensures r == [] || (!IsWhitespace(r[0]) && !IsWhitespace(r[|r| - 1]))
  {
    var t := TrimEnd(TrimStart(s));
    assert t != [] ==> t[0] == TrimStart(s)[0];
    t
  }

  /** Trimming is idempotent. */
  lemma TrimIdempotent(s: string)
    ensures Trim(Trim(s)) == Trim(s)
  {
    var t := Trim(s);
    assert TrimStart(t) == t;
    assert TrimEnd(t) == t;
  }

  /** `s.trim()` is empty exactly when every character of `s` is whitespace. */
  lemma TrimEmptyIff(s: string)
    ensures Trim(s) == [] <==> AllWhitespace(s)
  {
    var u := TrimStart(s);
    var k := |s| - |u|;
    if Trim(s) == [] {
      assert AllWhitespace(u[|TrimEnd(u)|..]);
      assert u == [];
      forall i | 0 <= i < |s| ensures IsWhitespace(s[i]) {
        assert s[i] == s[..k][i];
      }
    }
  }

  // ---------------------------------------------------------------------
  // toLowerCase

  /** The lower-case mapping of one character. ASCII upper-case letters are
      mapped exactly; so are the two non-ASCII characters whose lower-case
      form contains an ASCII letter (U+0130, which becomes "i" followed by
      U+0307, and the Kelvin sign U+212A, which becomes "k"). Every other
      character is kept as it is. */
  function LowerChar(c: char): (r: string)
    ensures 1 <= |r| <= 2
    ensures IsWordChar(c) ==> |r| == 1 && IsWordChar(r[0]) && !('A' <= r[0] <= 'Z')
  {
    if 'A' <= c <= 'Z' then [(c as int + 32) as char]
    else if c as int == 0x130 then ['i', 0x307 as char]
    else if c as int == 0x212A then ['k']
    else [c]
  }

  /** `s.toLowerCase()`. */
  function ToLower(s: string): string
  {
    if s == [] then [] else LowerChar(s[0]) + ToLower(s[1..])
  }

  /** Lowering never drops a character and at most doubles the length. */
  lemma {:induction false} ToLowerLength(s: string)
    ensures |s| <= |ToLower(s)| <= 2 * |s|
  {
    if s != [] {
      ToLowerLength(s[1..]);
    }
  }

  lemma {:induction false} ToLowerConcat(a: string, b: string)
    ensures ToLower(a + b) == ToLower(a) + ToLower(b)
  {
    if a == [] {
      assert a + b == b;
    } else {
      var ab := a + b;
      assert ab[0] == a[0] && ab[1..] == a[1..] + b;
      ToLowerConcat(a[1..], b);
      assert ToLower(ab) == LowerChar(a[0]) + ToLower(a[1..] + b);
    }
  }

  /** Lowering a string of word characters keeps its length and yields word
      characters none of which is an upper-case letter. */
  lemma {:induction false} ToLowerOfWordChars(s: string)
    requires forall i :: 0 <= i < |s| ==> IsWordChar(s[i])
    ensures |ToLower(s)| == |s|
    ensures forall i :: 0 <= i < |s| ==>
      IsWordChar(ToLower(s)[i]) && !('A' <= ToLower(s)[i] <= 'Z')
  {
    if s != [] {
      ToLowerOfWordChars(s[1..]);
    }
  }

  // ---------------------------------------------------------------------
  // includes

  /** `s.includes(t)`. */
  predicate Contains(s: string, t: string)
    ensures t <= s ==> Contains(s, t)
    ensures Contains(s, t) ==> |t| <= |s|
  {
    t <= s || (s != [] && Contains(s[1..], t))
  }

  /** A string includes its own suffix. */
  lemma ContainsSuffix(a: string, t: string)
    ensures Contains(a + t, t)
  {
    ContainsInfix(a, t, []);
    assert a + t + [] == a + t;
  }

  /** A string includes every infix of it. */
  lemma {:induction false} ContainsInfix(a: string, t: string, b: string)
    ensures Contains(a + t + b, t)
  {
    if a == [] {
      assert a + t + b == t + b;
    } else {
      assert (a + t + b)[1..] == a[1..] + t + b;
      ContainsInfix(a[1..], t, b);
    }
  }

  /** A string includes exactly its infixes. */
  lemma {:induction false} ContainsIsInfix(s: string, t: string)
    requires Contains(s, t)
    ensures exists a, b :: s == a + t + b
  {
    if t <= s {
      assert s == [] + t + s[|t|..];
    } else {
      ContainsIsInfix(s[1..], t);
      var a, b :| s[1..] == a + t + b;
      assert s == [s[0]] + a + t + b;
    }
  }

  // ---------------------------------------------------------------------
  // replace(/[^\w\s]/g, '')

  /** `s.replace(/[^\w\s]/g, '')`: keeps word characters and whitespace,
      in order, and drops every other character. */
  function StripNonWord(s: string): (r: string)
    ensures |r| <= |s|
    ensures forall i :: 0 <= i < |r| ==> IsWordChar(r[i]) || IsWhitespace(r[i])
    ensures forall i :: 0 <= i < |s| && (IsWordChar(s[i]) || IsWhitespace(s[i])) ==> s[i] in r
    ensures (forall i :: 0 <= i < |s| ==> IsWordChar(s[i]) || IsWhitespace(s[i])) ==> r == s
  {
    if s == [] then []
    else
      var rest := StripNonWord(s[1..]);
      assert forall i :: 1 <= i < |s| ==> s[i] == s[1..][i - 1];
      if IsWordChar(s[0]) || IsWhitespace(s[0]) then [s[0]] + rest else rest
  }

  /** One character is kept exactly when it is a word character or
      whitespace. */
  lemma StripNonWordChar(c: char)
    ensures StripNonWord([c]) == if IsWordChar(c) || IsWhitespace(c) then [c] else []
  {
    assert [c][1..] == [];
  }

  /** The replacement works character by character, so it distributes over
      concatenation; with `StripNonWordChar` this fixes the order and the
      number of the kept characters. */
  lemma {:induction false} StripNonWordConcat(a: string, b: string)
    ensures StripNonWord(a + b) == StripNonWord(a) + StripNonWord(b)
  {
    if a == [] {
      assert a + b == b;
    } else {
      var ab := a + b;
      assert ab[0] == a[0];
      assert ab[1..] == a[1..] + b;
      StripNonWordConcat(a[1..], b);
    }
  }

  // ---------------------------------------------------------------------
  // replace(/\s+/g, rep)

  /** `s.replace(/\s+/g, rep)`: every maximal run of whitespace becomes one
      copy of `rep`. */
  function ReplaceWhitespaceRuns(s: string, rep: string): (r: string)
    ensures NoWhitespace(rep) ==> NoWhitespace(r)
    decreases |s|
  {
    if s == [] then []
    else if IsWhitespace(s[0]) then rep + ReplaceWhitespaceRuns(TrimStart(s[1..]), rep)
    else [s[0]] + ReplaceWhitespaceRuns(s[1..], rep)
  }

  /** A string without whitespace is left unchanged. */
  lemma {:induction false} ReplaceRunsWithoutWhitespace(s: string, rep: string)
    requires NoWhitespace(s)
    ensures ReplaceWhitespaceRuns(s, rep) == s
  {
    if s != [] {
      ReplaceRunsWithoutWhitespace(s[1..], rep);
    }
  }

  /** Replacing the whitespace runs of a string of word characters and
      whitespace by word characters leaves only word characters. */
  lemma {:induction false} ReplaceRunsKeepsWordChars(s: string, rep: string)
    requires forall c :: c in s ==> IsWordChar(c) || IsWhitespace(c)
    requires forall c :: c in rep ==> IsWordChar(c)
    ensures forall c :: c in ReplaceWhitespaceRuns(s, rep) ==> IsWordChar(c)
    decreases |s|
  {
    if s != [] {
      if IsWhitespace(s[0]) {
        var u := TrimStart(s[1..]);
        assert u == s[|s| - |u|..];
        assert forall c :: c in u ==> c in s;
        ReplaceRunsKeepsWordChars(u, rep);
      } else {
        assert forall c :: c in s[1..] ==> c in s;
        ReplaceRunsKeepsWordChars(s[1..], rep);
      }
    }
  }

  /** A run of whitespace between a whitespace-free head and a tail that does
      not start with whitespace is replaced by exactly one copy of `rep`. */
  lemma {:induction false} ReplaceOneRun(a: string, w: string, b: string, rep: string)
    requires NoWhitespace(a)
    requires w != [] && AllWhitespace(w)
    requires b == [] || !IsWhitespace(b[0])
    ensures ReplaceWhitespaceRuns(a + w + b, rep) == a + rep + ReplaceWhitespaceRuns(b, rep)
  {
    if a == [] {
      assert a + w + b == w + b;
      ReplaceLeadingRun(w, b, rep);
    } else {
      var s := a + w + b;
      assert s[0] == a[0] && !IsWhitespace(s[0]);
      assert s[1..] == a[1..] + w + b;
      ReplaceOneRun(a[1..], w, b, rep);
      assert a == [a[0]] + a[1..];
    }
  }

  /** A leading run of whitespace is replaced by one copy of `rep`. */
  lemma ReplaceLeadingRun(w: string, b: string, rep: string)
    requires w != [] && AllWhitespace(w)
    requires b == [] || !IsWhitespace(b[0])
    ensures ReplaceWhitespaceRuns(w + b, rep) == rep + ReplaceWhitespaceRuns(b, rep)
  {
    var s := w + b;
    assert s[0] == w[0];
    assert s[1..] == w[1..] + b;
    TrimStartOfWhitespacePrefix(w[1..], b);
  }

  lemma {:induction false} TrimStartOfWhitespacePrefix(w: string, b: string)
    requires AllWhitespace(w)
    requires b == [] || !IsWhitespace(b[0])
    ensures TrimStart(w + b) == b
  {
    if w == [] {
      assert w + b == b;
    } else {
      assert (w + b)[1..] == w[1..] + b;
      TrimStartOfWhitespacePrefix(w[1..], b);
    }
  }

  /** `s.replace(/\s+/g, '')` removes every whitespace character and keeps the
      others in order. */
  lemma {:induction false} ReplaceRunsWithEmptyRemovesWhitespace(s: string)
    ensures ReplaceWhitespaceRuns(s, "") == RemoveWhitespace(s)
    decreases |s|
  {
    if s != [] {
      if IsWhitespace(s[0]) {
        var u := TrimStart(s[1..]);
        var k := |s[1..]| - |u|;
        ReplaceRunsWithEmptyRemovesWhitespace(u);
        assert s[1..] == s[1..][..k] + u;
        RemoveWhitespaceConcat(s[1..][..k], u);
        RemoveWhitespaceOfWhitespace(s[1..][..k]);
      } else {
        ReplaceRunsWithEmptyRemovesWhitespace(s[1..]);
      }
    }
  }

  /** The characters of `s` that are not whitespace, in order. */
  function RemoveWhitespace(s: string): (r: string)
  {
    if s == [] then []
    else (if IsWhitespace(s[0]) then [] else [s[0]]) + RemoveWhitespace(s[1..])
  }

  lemma {:induction false} RemoveWhitespaceConcat(a: string, b: string)
    ensures RemoveWhitespace(a + b) == RemoveWhitespace(a) + RemoveWhitespace(b)
  {
    if a == [] {
      assert a + b == b;
    } else {
      assert (a + b)[1..] == a[1..] + b;
      RemoveWhitespaceConcat(a[1..], b);
    }
  }

  lemma {:induction false} RemoveWhitespaceOfWhitespace(w: string)
    requires AllWhitespace(w)
    ensures RemoveWhitespace(w) == []
  {
    if w != [] {
      RemoveWhitespaceOfWhitespace(w[1..]);
    }
  }
}
