/** String helpers with the meaning JavaScript gives them: the white space that
    `String.prototype.trim` and the regular-expression class `\s` recognise,
    trimming, replacing the first occurrence of a character, splitting on a
    separator, and upper-casing. Strings are sequences of Unicode scalar values. */
module Text {
  import opened Optional

  /** JavaScript's WhiteSpace and LineTerminator code points: the set that
      `trim()` removes and that `\s` matches. */
  predicate IsSpace(c: char) {
    c == '\t' || c == '\n' || c == '\U{000B}' || c == '\U{000C}' || c == '\r' || c == ' '
    || c == '\U{00A0}' || c == '\U{1680}' || ('\U{2000}' <= c <= '\U{200A}')
    || c == '\U{2028}' || c == '\U{2029}' || c == '\U{202F}' || c == '\U{205F}'
    || c == '\U{3000}' || c == '\U{FEFF}'
  }

  predicate AllSpace(s: string) {
    forall k :: 0 <= k < |s| ==> IsSpace(s[k])
  }

  predicate HasSpace(s: string) {
    exists k :: 0 <= k < |s| && IsSpace(s[k])
  }

  predicate IsDigit(c: char) {
    '0' <= c <= '9'
  }

  /** Drops the leading white space. */
  function TrimStart(s: string): (r: string)
    ensures |r| <= |s| && r == s[|s| - |r|..]
    ensures AllSpace(s[..|s| - |r|])
    ensures r != [] ==> !IsSpace(r[0])
  {
    if s != [] && IsSpace(s[0]) then
      var r := TrimStart(s[1..]);
      TrimStartCons(s, r);
      r
    else s
  }

  /** A leading space is dropped along with what the tail drops. */
  lemma TrimStartCons(s: string, r: string)
    requires s != [] && IsSpace(s[0])
    requires |r| <= |s| - 1 && r == s[1..][|s| - 1 - |r|..] && AllSpace(s[1..][..|s| - 1 - |r|])
    ensures r == s[|s| - |r|..] && AllSpace(s[..|s| - |r|])
  {
    assert s[1..][..|s| - 1 - |r|] == s[1..|s| - |r|];
    AllSpaceCons(s, |s| - |r|);
  }

  /** A white-space character before an all-space slice. */
  lemma AllSpaceCons(s: string, n: nat)
    requires 1 <= n <= |s| && IsSpace(s[0]) && AllSpace(s[1..n])
    ensures AllSpace(s[..n])
  {
    forall k | 0 <= k < n ensures IsSpace(s[..n][k]) {
      if k > 0 { assert s[..n][k] == s[1..n][k - 1]; }
    }
  }

  /** Drops the trailing white space. */
  function TrimEnd(s: string): (r: string)
    ensures |r| <= |s| && r == s[..|r|]
    ensures AllSpace(s[|r|..])
    ensures r != [] ==> !IsSpace(r[|r| - 1])
  {
    if s != [] && IsSpace(s[|s| - 1]) then TrimEnd(s[..|s| - 1]) else s
  }

  /** Where `Trim` starts: the length of the leading white space. */
  function TrimOffset(s: string): (i: nat)
    ensures i <= |s| && AllSpace(s[..i])
    ensures i < |s| ==> !IsSpace(s[i])
  {
    |s| - |TrimStart(s)|
  }

  /** `s.trim()`: the slice of `s` from `TrimOffset(s)` that neither starts
      nor ends with white space, and everything cut away is white space. */
  function Trim(s: string): (r: string)
    ensures TrimOffset(s) + |r| <= |s|
    ensures r == s[TrimOffset(s)..TrimOffset(s) + |r|]
    ensures AllSpace(s[TrimOffset(s) + |r|..])
    ensures r != [] ==> !IsSpace(r[0]) && !IsSpace(r[|r| - 1])
  {
    TrimEnd(TrimStart(s))
  }

  /** A string trims to nothing exactly when it is all white space. */
  lemma TrimEmptyIffAllSpace(s: string)
    ensures Trim(s) == [] <==> AllSpace(s)
  {
    var i := TrimOffset(s);
    if Trim(s) == [] {
      AllSpaceJoin(s, i);
    } else {
      assert s[i] == Trim(s)[0];
    }
  }

  /** Two all-space halves make an all-space string. */
  lemma AllSpaceJoin(s: string, i: nat)
    requires i <= |s| && AllSpace(s[..i]) && AllSpace(s[i..])
    ensures AllSpace(s)
  {
    forall k | 0 <= k < |s| ensures IsSpace(s[k]) {
      if k < i { assert s[..i][k] == s[k]; } else { assert s[i..][k - i] == s[k]; }
    }
  }

  /** Text that neither starts nor ends with white space is its own trim. */
  lemma TrimUnspaced(p: string)
    requires p != [] && !IsSpace(p[0]) && !IsSpace(p[|p| - 1])
    ensures Trim(p) == p
  {
    assert TrimStart(p) == p;
    assert TrimEnd(p) == p;
  }

  /** A trailing space is trimmed away. */
  lemma TrimTrailingSpace(p: string)
    requires p != [] && !IsSpace(p[0]) && !IsSpace(p[|p| - 1])
    ensures Trim(p + " ") == p
  {
    var q := p + " ";
    assert q[0] == p[0];
    assert TrimStart(q) == q;
    assert q[..|q| - 1] == p;
    assert IsSpace(q[|q| - 1]);
    assert TrimEnd(p) == p;
    assert TrimEnd(q) == TrimEnd(p);
  }

  /** The number of UTF-16 code units a character takes: two for a
      character outside the Basic Multilingual Plane (a surrogate pair). */
  function Utf16Units(c: char): (n: nat)
    ensures n == 1 || n == 2
  {
    if c as int > 0xFFFF then 2 else 1
  }

  /** `s.length` in JavaScript: the UTF-16 code units of `s`. */
  function Utf16Length(s: string): (n: nat)
    ensures |s| <= n <= 2 * |s|
    ensures n == |s| <==> forall k :: 0 <= k < |s| ==> s[k] as int <= 0xFFFF
    decreases |s|
  {
    if s == [] then 0
    else
      var init := s[..|s| - 1];
      assert forall k :: 0 <= k < |init| ==> init[k] == s[k];
      Utf16Length(init) + Utf16Units(s[|s| - 1])
  }

  /** Trimming twice is trimming once. */
  lemma TrimIdempotent(s: string)
    ensures Trim(Trim(s)) == Trim(s)
  {
    var r := Trim(s);
    if r != [] {
      assert TrimStart(r) == r;
      assert TrimEnd(r) == r;
    }
  }

  /** The index of the first `c` in `s`; `|s|` when there is none. */
  function FirstIndex(s: string, c: char): (r: nat)
    ensures r <= |s|
    ensures r < |s| ==> s[r] == c
    ensures forall k :: 0 <= k < r ==> s[k] != c
  {
    if s == [] then 0 else if s[0] == c then 0 else 1 + FirstIndex(s[1..], c)
  }

  /** `s.replace(c, d)` with a one-character string pattern: only the first
      occurrence is replaced. */
  function ReplaceFirst(s: string, c: char, d: char): (r: string)
    ensures |r| == |s|
    ensures forall k :: 0 <= k < |s| ==> r[k] == (if k == FirstIndex(s, c) then d else s[k])
  {
    var i := FirstIndex(s, c);
    if i == |s| then s else s[..i] + [d] + s[i + 1..]
  }

  /** Without an occurrence of `c`, the replacement leaves `s` as it is. */
  lemma NoneFound(s: string, c: char)
    requires forall k :: 0 <= k < |s| ==> s[k] != c
    ensures FirstIndex(s, c) == |s|
    ensures forall d :: ReplaceFirst(s, c, d) == s
  {
  }

  /** `s.split(sep)` with a one-character separator. */
  function Split(s: string, sep: char): (r: seq<string>)
    ensures |r| >= 1
    ensures forall k :: 0 <= k < |r| ==> sep !in r[k]
    decreases |s|
  {
    var i := FirstIndex(s, sep);
    if i == |s| then [s] else [s[..i]] + Split(s[i + 1..], sep)
  }

  /** `pieces.join(sep)`. */
  function Join(pieces: seq<string>, sep: char): string
    requires |pieces| >= 1
  {
    if |pieces| == 1 then pieces[0] else pieces[0] + [sep] + Join(pieces[1..], sep)
  }

  /** Splitting and joining again gives back the original string. */
  lemma {:induction false} SplitJoin(s: string, sep: char)
    ensures Join(Split(s, sep), sep) == s
    decreases |s|
  {
    var i := FirstIndex(s, sep);
    if i < |s| {
      var rest := Split(s[i + 1..], sep);
      SplitJoin(s[i + 1..], sep);
      var pieces := [s[..i]] + rest;
      assert Split(s, sep) == pieces;
      assert |pieces| > 1 && pieces[0] == s[..i] && pieces[1..] == rest;
      assert Join(pieces, sep) == s[..i] + [sep] + Join(rest, sep);
      assert s == s[..i] + [sep] + s[i + 1..];
    } else {
      assert Split(s, sep) == [s];
    }
  }

  /** Concatenation of a sequence of strings (`join('')`). */
  function Concat(pieces: seq<string>): string {
    if pieces == [] then [] else pieces[0] + Concat(pieces[1..])
  }

  /** `toUpperCase()` of a one-character string, for ASCII and Latin-1;
      other characters are returned unchanged. The German sharp s becomes two
      letters. */
  function UpperOf(c: char): (r: string)
    ensures |r| >= 1
  {
    if 'a' <= c <= 'z' then [(c as int - 32) as char]
    else if c == '\U{00DF}' then "SS"
    else if c == '\U{00B5}' then ['\U{039C}']
    else if c == '\U{00FF}' then ['\U{0178}']
    else if '\U{00E0}' <= c <= '\U{00FE}' && c != '\U{00F7}' then [(c as int - 32) as char]
    else [c]
  }

  /** `s.trim() ? s.trim() : undefined` (and `|| null`): the trimmed text,
      or nothing when it is blank. A kept text has no surrounding white
      space. */
  function NonBlankTrim(s: string): (r: Option<string>)
    ensures r.None? <==> AllSpace(s)
    ensures r.Some? ==> r.value == Trim(s) && r.value != []
    ensures r.Some? ==> !IsSpace(r.value[0]) && !IsSpace(r.value[|r.value| - 1])
  {
    TrimEmptyIffAllSpace(s);
    var t := Trim(s);
    if |t| > 0 then Some(t) else None
  }

  /** Trimming a kept text again keeps it as it is. */
  lemma NonBlankTrimIdempotent(s: string)
    requires NonBlankTrim(s).Some?
    ensures NonBlankTrim(NonBlankTrim(s).value) == NonBlankTrim(s)
  {
    TrimIdempotent(s);
    TrimEmptyIffAllSpace(Trim(s));
  }
}
