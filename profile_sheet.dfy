/** The profile sheet: the opaque rewrite of its background colour, the
    display name read from the account metadata, the avatar initials, the
    header title, and the save and reload of the display name. */
module ProfileSheet {
  import opened Optional
  import opened Text

  // ---------------------------------------------------------------------------
  // Background colour
  // ---------------------------------------------------------------------------

  /** The character classes the colour pattern uses: `\d`, `\s`, `[0-9.]`. */
  datatype CharClass = DigitClass | SpaceClass | DecimalClass

  predicate InClass(c: char, cls: CharClass) {
    match cls
    case DigitClass => IsDigit(c)
    case SpaceClass => IsSpace(c)
    case DecimalClass => IsDigit(c) || c == '.'
  }

  /** The end of the longest run of `cls` characters starting at `p`. */
  function RunEnd(s: string, p: nat, cls: CharClass): (r: nat)
    requires p <= |s|
    ensures p <= r <= |s|
    ensures r < |s| ==> !InClass(s[r], cls)
    decreases |s| - p
  {
    if p < |s| && InClass(s[p], cls) then RunEnd(s, p + 1, cls) else p
  }

  /** Every character of the run is of the class. */
  lemma {:induction false} RunEndClass(s: string, p: nat, cls: CharClass)
    requires p <= |s|
    ensures forall k :: p <= k < RunEnd(s, p, cls) ==> InClass(s[k], cls)
    decreases |s| - p
  {
    if p < |s| && InClass(s[p], cls) {
      RunEndClass(s, p + 1, cls);
    }
  }

  /** `c` equals the ASCII letter `lower` ignoring case (the `i` flag). */
  predicate LetterIs(c: char, lower: char) {
    c == lower || c as int == lower as int - 32
  }

  /** `\s*,\s*` starting at `p`: the index after it, if it is there. */
  function Separator(s: string, p: nat): (r: Option<nat>)
    requires p <= |s|
    ensures r.Some? ==> p < r.value <= |s|
  {
    var c := RunEnd(s, p, SpaceClass);
    if c < |s| && s[c] == ',' then Some(RunEnd(s, c + 1, SpaceClass)) else None
  }

  /** A non-empty run of `cls` at `p`: its end, if it is non-empty. */
  function Run(s: string, p: nat, cls: CharClass): (r: Option<nat>)
    requires p <= |s|
    ensures r.Some? ==> p < r.value <= |s|
  {
    var e := RunEnd(s, p, cls);
    if e > p then Some(e) else None
  }

  /** The three colour channels as written. */
  datatype Channels = Channels(red: string, green: string, blue: string)

  /** `(\d+)\s*,\s*` at `p`: the end of the digits and the index after the
      separator, if they are there. */
  function Field(s: string, p: nat): (r: Option<(nat, nat)>)
    requires p <= |s|
    ensures r.Some? ==> p < r.value.0 < r.value.1 <= |s|
    ensures r.Some? ==> s[p..r.value.0] != [] && AllIn(s[p..r.value.0], DigitClass)
  {
    match Run(s, p, DigitClass)
    case None => None
    case Some(e) =>
      match Separator(s, e)
      case None => None
      case Some(n) =>
        assert AllIn(s[p..e], DigitClass) by {
          RunEndClass(s, p, DigitClass);
          forall k | 0 <= k < e - p ensures InClass(s[p..e][k], DigitClass) { assert s[p..e][k] == s[p + k]; }
        }
        Some((e, n))
  }

  /** `rgba\((\d+)\s*,\s*(\d+)\s*,\s*(\d+)\s*,\s*([0-9.]+)\)` matched at
      index `p` (letters in any case): the three captured channels. Every
      quantifier of the pattern is followed by a character it cannot
      consume, so the greedy runs are the only way to match. */
  function MatchAt(s: string, p: nat): (r: Option<Channels>)
    requires p <= |s|
    ensures r.Some? ==> p + 5 <= |s| && s[p + 4] == '('
    ensures r.Some? ==> r.value.red != [] && r.value.green != [] && r.value.blue != []
    ensures r.Some? ==> AllIn(r.value.red, DigitClass) && AllIn(r.value.green, DigitClass) && AllIn(r.value.blue, DigitClass)
  {
    if p + 5 > |s| then None
    else if !(LetterIs(s[p], 'r') && LetterIs(s[p + 1], 'g') && LetterIs(s[p + 2], 'b')
              && LetterIs(s[p + 3], 'a') && s[p + 4] == '(') then None
    else
      var r0 := p + 5;
      match Field(s, r0)
      case None => None
      case Some((r1, g0)) =>
        match Field(s, g0)
        case None => None
        case Some((g1, b0)) =>
          match Field(s, b0)
          case None => None
          case Some((b1, a0)) =>
            match Run(s, a0, DecimalClass)
            case None => None
            case Some(a1) =>
              if a1 < |s| && s[a1] == ')' then Some(Channels(s[r0..r1], s[g0..g1], s[b0..b1]))
              else None
  }

  /** The search for the leftmost match at or after `p`. */
  function FirstMatch(s: string, p: nat): Option<Channels>
    requires p <= |s|
    decreases |s| - p
  {
    var here := MatchAt(s, p);
    if here.Some? then here
    else if p == |s| then None
    else FirstMatch(s, p + 1)
  }

  /** The search finds nothing exactly when no index from `p` on matches. */
  lemma {:induction false} FirstMatchNone(s: string, p: nat)
    requires p <= |s|
    ensures FirstMatch(s, p).None? <==> forall q :: p <= q <= |s| ==> MatchAt(s, q).None?
    decreases |s| - p
  {
    if MatchAt(s, p).None? {
      if p == |s| {
        forall q | p <= q <= |s| ensures MatchAt(s, q).None? { assert q == p; }
      } else {
        FirstMatchNone(s, p + 1);
        assert FirstMatch(s, p) == FirstMatch(s, p + 1);
        if FirstMatch(s, p).None? {
          forall q | p <= q <= |s| ensures MatchAt(s, q).None? {
            if q != p { assert p + 1 <= q; }
          }
        }
      }
    }
  }

  /** What the search finds is the match at one of the indices from `p` on. */
  lemma {:induction false} FirstMatchSome(s: string, p: nat)
    requires p <= |s| && FirstMatch(s, p).Some?
    ensures exists q :: p <= q <= |s| && MatchAt(s, q) == FirstMatch(s, p)
    decreases |s| - p
  {
    if MatchAt(s, p).None? {
      FirstMatchSome(s, p + 1);
    }
  }

  /** A match at `q` with none between `p` and `q` is what the search finds. */
  lemma {:induction false} FirstMatchAt(s: string, p: nat, q: nat)
    requires p <= q <= |s| && MatchAt(s, q).Some?
    requires forall k :: p <= k < q ==> MatchAt(s, k).None?
    ensures FirstMatch(s, p) == MatchAt(s, q)
    decreases q - p
  {
    if p < q {
      FirstMatchAt(s, p + 1, q);
    }
  }

  /** The search from 0 finds the leftmost match of the whole text. */
  lemma FirstMatchLeftmost(s: string)
    ensures forall q :: (0 <= q <= |s| && MatchAt(s, q).Some? && (forall k :: 0 <= k < q ==> MatchAt(s, k).None?))
                        ==> FirstMatch(s, 0) == MatchAt(s, q)
  {
    forall q | 0 <= q <= |s| && MatchAt(s, q).Some? && (forall k :: 0 <= k < q ==> MatchAt(s, k).None?)
      ensures FirstMatch(s, 0) == MatchAt(s, q)
    {
      FirstMatchAt(s, 0, q);
    }
  }

  /** The opaque colour written from the three channels. */
  function Rgb(c: Channels): string {
    "rgb(" + c.red + ", " + c.green + ", " + c.blue + ")"
  }

  /** `sheetBackground`: the strong surface colour when it is set, else the
      surface colour; a translucent `rgba(...)` colour is made opaque by the
      channels of the leftmost match of the pattern. */
  function SheetBackground(surfaceStrong: string, surface: string): (r: string)
    ensures var color := if surfaceStrong != "" then surfaceStrong else surface;
            (forall q :: 0 <= q <= |color| ==> MatchAt(color, q).None?) ==> r == color
    ensures var color := if surfaceStrong != "" then surfaceStrong else surface;
            forall q :: 0 <= q <= |color| && MatchAt(color, q).Some? && (forall k :: 0 <= k < q ==> MatchAt(color, k).None?)
                        ==> r == Rgb(MatchAt(color, q).value)
  {
    var color := if surfaceStrong != "" then surfaceStrong else surface;
    FirstMatchNone(color, 0);
    FirstMatchLeftmost(color);
    match FirstMatch(color, 0)
    case None => color
    case Some(c) => Rgb(c)
  }

  /** Text made of the characters of one class. */
  predicate AllIn(s: string, cls: CharClass) {
    forall k :: 0 <= k < |s| ==> InClass(s[k], cls)
  }

  /** A run of `cls` from `p` that stops at `q`. */
  lemma {:induction false} RunAt(s: string, p: nat, q: nat, cls: CharClass)
    requires p <= q < |s|
    requires forall k :: p <= k < q ==> InClass(s[k], cls)
    requires !InClass(s[q], cls)
    ensures RunEnd(s, p, cls) == q
    decreases q - p
  {
    if p < q {
      RunAt(s, p + 1, q, cls);
    }
  }

  /** What separates two channels: white space, a comma, white space. */
  datatype Gap = Gap(before: string, after: string) {
    function Text(): string {
      before + "," + after
    }

    predicate Spaced() {
      AllIn(before, SpaceClass) && AllIn(after, SpaceClass)
    }
  }

  /** `x` occurs in `s` at index `i`. */
  predicate Starts(s: string, i: nat, x: string) {
    i + |x| <= |s| && forall k :: 0 <= k < |x| ==> s[i + k] == x[k]
  }

  /** An occurrence of `x + y` is one of `x` followed, at `j`, by one of `y`. */
  lemma StartsSplit(s: string, i: nat, j: nat, x: string, y: string)
    requires Starts(s, i, x + y) && j == i + |x|
    ensures Starts(s, i, x) && Starts(s, j, y)
  {
    forall k | 0 <= k < |x| ensures s[i + k] == x[k] {
      assert s[i + k] == (x + y)[k];
    }
    forall k | 0 <= k < |y| ensures s[j + k] == y[k] {
      assert s[j + k] == s[i + (|x| + k)] == (x + y)[|x| + k];
    }
  }

  /** A gap at `e` followed by a character that is not white space is one
      separator of the pattern. */
  lemma SeparatorAt(s: string, e: nat, g: Gap)
    requires g.Spaced() && Starts(s, e, g.Text()) && e + |g.Text()| < |s|
    requires !IsSpace(s[e + |g.Text()|])
    ensures Separator(s, e) == Some(e + |g.Text()|)
  {
    var t := g.Text();
    var c := e + |g.before|;
    var n := e + |t|;
    assert s[c] == ',' by { assert s[e + |g.before|] == t[|g.before|]; }
    forall k | e <= k < c ensures InClass(s[k], SpaceClass) {
      assert s[e + (k - e)] == t[k - e] == g.before[k - e];
    }
    forall k | c + 1 <= k < n ensures InClass(s[k], SpaceClass) {
      assert s[e + (k - e)] == t[k - e] == g.after[k - c - 1];
    }
    RunAt(s, e, c, SpaceClass);
    RunAt(s, c + 1, n, SpaceClass);
  }

  /** The digits `x` at `p`, then a gap and a character that is not white
      space, form one field of the pattern. */
  lemma FieldAt(s: string, p: nat, x: string, g: Gap)
    requires x != [] && AllIn(x, DigitClass) && g.Spaced()
    requires Starts(s, p, x) && Starts(s, p + |x|, g.Text()) && p + |x| + |g.Text()| < |s|
    requires !IsSpace(s[p + |x| + |g.Text()|])
    ensures Field(s, p) == Some((p + |x|, p + |x| + |g.Text()|))
  {
    var e := p + |x|;
    forall k | p <= k < e ensures InClass(s[k], DigitClass) {
      assert s[p + (k - p)] == x[k - p];
    }
    assert !IsDigit(s[e]) by {
      assert s[e + 0] == g.Text()[0];
      if g.before != [] { assert IsSpace(g.before[0]); }
    }
    RunAt(s, p, e, DigitClass);
    SeparatorAt(s, e, g);
  }

  /** `rgba` in any case. */
  predicate RgbaHead(head: string) {
    |head| == 4 && LetterIs(head[0], 'r') && LetterIs(head[1], 'g') && LetterIs(head[2], 'b') && LetterIs(head[3], 'a')
  }

  /** The parts of a translucent colour the pattern matches. */
  datatype RgbaParts = RgbaParts(head: string, red: string, g1: Gap, green: string, g2: Gap,
                                 blue: string, g3: Gap, alpha: string)
  {
    predicate Valid() {
      RgbaHead(head) && red != [] && green != [] && blue != [] && alpha != []
      && AllIn(red, DigitClass) && AllIn(green, DigitClass) && AllIn(blue, DigitClass)
      && AllIn(alpha, DecimalClass) && g1.Spaced() && g2.Spaced() && g3.Spaced()
    }

    function Text(): string {
      head + "(" + red + g1.Text() + green + g2.Text() + blue + g3.Text() + alpha + ")"
    }
  }

  /** Where the parts end and begin: the end of red, the start and end of
      green, of blue, of alpha. */
  datatype Marks = Marks(redEnd: nat, greenStart: nat, greenEnd: nat, blueStart: nat, blueEnd: nat,
                         alphaStart: nat, alphaEnd: nat)

  /** The marks of the parts of `t` written from `q`. */
  predicate Fits(q: nat, t: RgbaParts, m: Marks) {
    m.redEnd == q + 5 + |t.red| && m.greenStart == m.redEnd + |t.g1.Text()|
    && m.greenEnd == m.greenStart + |t.green| && m.blueStart == m.greenEnd + |t.g2.Text()|
    && m.blueEnd == m.blueStart + |t.blue| && m.alphaStart == m.blueEnd + |t.g3.Text()|
    && m.alphaEnd == m.alphaStart + |t.alpha|
  }

  /** The parts laid out one after the other from `q`. */
  predicate Layout(s: string, q: nat, t: RgbaParts, m: Marks) {
    Fits(q, t, m) && |t.head| == 4 && m.alphaEnd < |s|
    && Starts(s, q, t.head) && s[q + 4] == '('
    && Starts(s, q + 5, t.red) && Starts(s, m.redEnd, t.g1.Text())
    && Starts(s, m.greenStart, t.green) && Starts(s, m.greenEnd, t.g2.Text())
    && Starts(s, m.blueStart, t.blue) && Starts(s, m.blueEnd, t.g3.Text())
    && Starts(s, m.alphaStart, t.alpha) && s[m.alphaEnd] == ')'
  }

  /** The parts of `prefix + t.Text() + suffix` sit where the layout says. */
  lemma LayoutHolds(prefix: string, t: RgbaParts, suffix: string, m: Marks)
    requires |t.head| == 4 && Fits(|prefix|, t, m)
    ensures Layout(prefix + t.Text() + suffix, |prefix|, t, m)
  {
    var s := prefix + t.Text() + suffix;
    var q := |prefix|;
    var x1 := t.head + "(";
    var x2 := x1 + t.red;
    var x3 := x2 + t.g1.Text();
    var x4 := x3 + t.green;
    var x5 := x4 + t.g2.Text();
    var x6 := x5 + t.blue;
    var x7 := x6 + t.g3.Text();
    var x8 := x7 + t.alpha;
    assert Starts(s, 0, s);
    StartsSplit(s, 0, |prefix + t.Text()|, prefix + t.Text(), suffix);
    StartsSplit(s, 0, q, prefix, t.Text());
    StartsSplit(s, q, m.alphaEnd, x8, ")");
    StartsSplit(s, q, m.alphaStart, x7, t.alpha);
    StartsSplit(s, q, m.blueEnd, x6, t.g3.Text());
    StartsSplit(s, q, m.blueStart, x5, t.blue);
    StartsSplit(s, q, m.greenEnd, x4, t.g2.Text());
    StartsSplit(s, q, m.greenStart, x3, t.green);
    StartsSplit(s, q, m.redEnd, x2, t.g1.Text());
    StartsSplit(s, q, q + 5, x1, t.red);
    StartsSplit(s, q, q + 4, t.head, "(");
    assert s[q + 4] == s[q + 4 + 0];
    assert s[m.alphaEnd] == s[m.alphaEnd + 0];
  }

  /** The first field of the layout. */
  lemma RedField(s: string, q: nat, t: RgbaParts, m: Marks)
    requires t.Valid() && Layout(s, q, t, m)
    ensures Field(s, q + 5) == Some((m.redEnd, m.greenStart))
  {
    assert s[m.greenStart] == s[m.greenStart + 0] == t.green[0];
    FieldAt(s, q + 5, t.red, t.g1);
  }

  /** The second field of the layout. */
  lemma GreenField(s: string, q: nat, t: RgbaParts, m: Marks)
    requires t.Valid() && Layout(s, q, t, m)
    ensures Field(s, m.greenStart) == Some((m.greenEnd, m.blueStart))
  {
    assert s[m.blueStart] == s[m.blueStart + 0] == t.blue[0];
    FieldAt(s, m.greenStart, t.green, t.g2);
  }

  /** The third field of the layout. */
  lemma BlueField(s: string, q: nat, t: RgbaParts, m: Marks)
    requires t.Valid() && Layout(s, q, t, m)
    ensures Field(s, m.blueStart) == Some((m.blueEnd, m.alphaStart))
  {
    assert s[m.alphaStart] == s[m.alphaStart + 0] == t.alpha[0];
    FieldAt(s, m.blueStart, t.blue, t.g3);
  }

  /** The alpha run of the layout, up to the closing parenthesis. */
  lemma AlphaRun(s: string, q: nat, t: RgbaParts, m: Marks)
    requires t.Valid() && Layout(s, q, t, m)
    ensures Run(s, m.alphaStart, DecimalClass) == Some(m.alphaEnd)
  {
    var a0 := m.alphaStart;
    forall k | a0 <= k < m.alphaEnd ensures InClass(s[k], DecimalClass) {
      assert s[a0 + (k - a0)] == t.alpha[k - a0];
    }
    RunAt(s, a0, m.alphaEnd, DecimalClass);
  }

  /** An occurrence of `x` at `i` is the slice of `s` from `i`. */
  lemma StartsSlice(s: string, i: nat, x: string)
    requires Starts(s, i, x)
    ensures s[i..i + |x|] == x
  {
    forall k | 0 <= k < |x| ensures s[i..i + |x|][k] == x[k] {
      assert s[i..i + |x|][k] == s[i + k];
    }
  }

  /** The header of the layout: `rgba` in any case and '('. */
  lemma LayoutHead(s: string, q: nat, t: RgbaParts, m: Marks)
    requires t.Valid() && Layout(s, q, t, m)
    ensures q + 5 <= |s| && LetterIs(s[q], 'r') && LetterIs(s[q + 1], 'g') && LetterIs(s[q + 2], 'b')
    ensures LetterIs(s[q + 3], 'a') && s[q + 4] == '('
  {
    assert s[q + 0] == t.head[0] && s[q + 1] == t.head[1] && s[q + 2] == t.head[2] && s[q + 3] == t.head[3];
  }

  /** The facts the match at `q` is made of. */
  predicate MatchFacts(s: string, q: nat, t: RgbaParts, m: Marks) {
    q + 5 <= m.redEnd <= m.greenStart <= m.greenEnd <= m.blueStart <= m.blueEnd <= m.alphaStart
    && m.alphaStart <= m.alphaEnd < |s|
    && LetterIs(s[q], 'r') && LetterIs(s[q + 1], 'g') && LetterIs(s[q + 2], 'b')
    && LetterIs(s[q + 3], 'a') && s[q + 4] == '('
    && Field(s, q + 5) == Some((m.redEnd, m.greenStart))
    && Field(s, m.greenStart) == Some((m.greenEnd, m.blueStart))
    && Field(s, m.blueStart) == Some((m.blueEnd, m.alphaStart))
    && Run(s, m.alphaStart, DecimalClass) == Some(m.alphaEnd) && s[m.alphaEnd] == ')'
    && s[q + 5..m.redEnd] == t.red && s[m.greenStart..m.greenEnd] == t.green
    && s[m.blueStart..m.blueEnd] == t.blue
  }

  /** The layout gives the facts of the match. */
  lemma LayoutFacts(s: string, q: nat, t: RgbaParts, m: Marks)
    requires t.Valid() && Layout(s, q, t, m)
    ensures MatchFacts(s, q, t, m)
  {
    LayoutHead(s, q, t, m);
    StartsSlice(s, q + 5, t.red);
    StartsSlice(s, m.greenStart, t.green);
    StartsSlice(s, m.blueStart, t.blue);
    RedField(s, q, t, m);
    GreenField(s, q, t, m);
    BlueField(s, q, t, m);
    AlphaRun(s, q, t, m);
  }

  /** The pattern at `q`, assembled from its header, its three fields, the
      alpha run and the closing parenthesis. */
  lemma MatchFromFacts(s: string, q: nat, t: RgbaParts, m: Marks)
    requires MatchFacts(s, q, t, m)
    ensures MatchAt(s, q) == Some(Channels(t.red, t.green, t.blue))
  {
  }

  /** Given the layout, the pattern matches at `q` and captures the three
      channels. */
  lemma LayoutMatch(s: string, q: nat, t: RgbaParts, m: Marks)
    requires t.Valid() && Layout(s, q, t, m)
    ensures MatchAt(s, q) == Some(Channels(t.red, t.green, t.blue))
  {
    LayoutFacts(s, q, t, m);
    MatchFromFacts(s, q, t, m);
  }

  /** No match starts before the head when the text before it has no '(':
      the '(' a match needs four characters in would fall in that text or
      on a letter of the head. */
  lemma NoEarlierMatch(s: string, q: nat, t: RgbaParts)
    requires RgbaHead(t.head) && Starts(s, q, t.head)
    requires forall k :: 0 <= k < q ==> s[k] != '('
    ensures forall k :: 0 <= k < q ==> MatchAt(s, k).None?
  {
    forall k | 0 <= k < q ensures MatchAt(s, k).None? {
      if k + 4 < |s| {
        if k + 4 >= q {
          assert s[k + 4] == t.head[k + 4 - q] by { assert s[k + 4] == s[q + (k + 4 - q)]; }
        }
        assert s[k + 4] != '(';
      }
      NoParenNoMatch(s, k);
    }
  }

  /** Without '(' after the four letters there is no match. */
  lemma NoParenNoMatch(s: string, k: nat)
    requires k <= |s| && (k + 4 < |s| ==> s[k + 4] != '(')
    ensures MatchAt(s, k).None?
  {
  }

  /** A translucent colour `rgba(r, g, b, a)` — `rgba` in any case, any white
      space around the commas, after any text without '(' and before any
      text — becomes `rgb(r, g, b)`. */
  lemma RgbaBecomesRgb(prefix: string, t: RgbaParts, suffix: string)
    requires t.Valid()
    requires forall k :: 0 <= k < |prefix| ==> prefix[k] != '('
    ensures SheetBackground(prefix + t.Text() + suffix, "") == "rgb(" + t.red + ", " + t.green + ", " + t.blue + ")"
  {
    var s := prefix + t.Text() + suffix;
    var q := |prefix|;
    var redEnd := q + 5 + |t.red|;
    var greenStart := redEnd + |t.g1.Text()|;
    var greenEnd := greenStart + |t.green|;
    var blueStart := greenEnd + |t.g2.Text()|;
    var blueEnd := blueStart + |t.blue|;
    var alphaStart := blueEnd + |t.g3.Text()|;
    var m := Marks(redEnd, greenStart, greenEnd, blueStart, blueEnd, alphaStart, alphaStart + |t.alpha|);
    LayoutHolds(prefix, t, suffix, m);
    LayoutMatch(s, q, t, m);
    assert forall k :: 0 <= k < q ==> s[k] == prefix[k];
    NoEarlierMatch(s, q, t);
    FirstMatchAt(s, 0, q);
  }

  /** The text of the parts of a palette colour. */
  lemma PaletteText(red: string, green: string, blue: string, alpha: string)
    ensures var g := Gap("", " ");
            [] + RgbaParts("rgba", red, g, green, g, blue, g, alpha).Text() + []
            == "rgba(" + red + ", " + green + ", " + blue + ", " + alpha + ")"
  {
    var g := Gap("", " ");
    assert g.Text() == ", ";
    assert "rgba" + "(" == "rgba(";
  }

  /** The award palette writes its colours as `rgba(r, g, b, a)`, one space
      after each comma: they become `rgb(r, g, b)`. */
  lemma PaletteColorBecomesRgb(red: string, green: string, blue: string, alpha: string)
    requires red != [] && green != [] && blue != [] && alpha != []
    requires AllIn(red, DigitClass) && AllIn(green, DigitClass) && AllIn(blue, DigitClass)
    requires AllIn(alpha, DecimalClass)
    ensures SheetBackground("rgba(" + red + ", " + green + ", " + blue + ", " + alpha + ")", "")
            == "rgb(" + red + ", " + green + ", " + blue + ")"
  {
    var g := Gap("", " ");
    assert g.Spaced() by { assert AllIn(" ", SpaceClass); }
    var t := RgbaParts("rgba", red, g, green, g, blue, g, alpha);
    PaletteText(red, green, blue, alpha);
    RgbaBecomesRgb([], t, []);
  }

  // ---------------------------------------------------------------------------
  // Names and initials
  // ---------------------------------------------------------------------------

  /** A metadata value: a string, something else, or nothing. */
  datatype MetaValue = MetaString(text: string) | MetaOther | MetaAbsent

  /** `metadataDisplayName`: the metadata's `display_name` when it is a
      string, else the empty text. */
  function MetadataDisplayName(raw: MetaValue): (r: string)
    ensures raw.MetaString? ==> r == raw.text
    ensures !raw.MetaString? ==> r == ""
  {
    match raw
    case MetaString(text) => text
    case _ => ""
  }

  /** `displayName || metadataDisplayName || email`: the first non-empty of
      the three, untrimmed. */
  function InitialsSource(displayName: string, metadataName: string, email: string): string {
    if displayName != "" then displayName else if metadataName != "" then metadataName else email
  }

  /** `map(piece => piece[0]?.toUpperCase() ?? '').filter(Boolean)`: the
      upper-cased first character of every non-empty piece, in order. */
  function Leading(pieces: seq<string>): (r: seq<string>)
    ensures |r| <= |pieces|
    ensures forall k :: 0 <= k < |r| ==> r[k] != []
  {
    if pieces == [] then []
    else (if pieces[0] != [] then [UpperOf(pieces[0][0])] else []) + Leading(pieces[1..])
  }

  /** At most the first two. */
  function TakeTwo(xs: seq<string>): (r: seq<string>)
    ensures |r| == if |xs| < 2 then |xs| else 2
    ensures r == xs[..|r|]
  {
    if |xs| <= 2 then xs else xs[..2]
  }

  /** `initials`: 'U' for a blank source, otherwise the joined upper-cased
      first characters of the first two non-empty space-separated words. */
  function Initials(displayName: string, metadataName: string, email: string): (r: string)
    ensures r != []
  {
    var source := Trim(InitialsSource(displayName, metadataName, email));
    if source == [] then "U"
    else
      var joined := Concat(TakeTwo(Leading(Split(source, ' '))));
      if joined == [] then "U" else joined
  }

  /** A display name of white space only wins the choice (it is a non-empty
      string) and then trims to nothing, so the avatar shows 'U' whatever
      the metadata name is. */
  lemma BlankDisplayNameGivesU(displayName: string, metadataName: string, email: string)
    requires displayName != [] && AllSpace(displayName)
    ensures Initials(displayName, metadataName, email) == "U"
  {
    TrimEmptyIffAllSpace(displayName);
  }

  /** A source that is blank after trimming gives 'U'; the empty source is
      followed by the next one only when it is really empty. */
  lemma InitialsSourceOrder(displayName: string, metadataName: string, email: string)
    ensures displayName != "" ==> InitialsSource(displayName, metadataName, email) == displayName
    ensures displayName == "" && metadataName != "" ==> InitialsSource(displayName, metadataName, email) == metadataName
    ensures displayName == "" && metadataName == "" ==> InitialsSource(displayName, metadataName, email) == email
  {
  }

  /** Splitting two words joined by one space gives the two words. */
  lemma SplitTwoWords(a: string, b: string)
    requires ' ' !in a && ' ' !in b
    ensures Split(a + " " + b, ' ') == [a, b]
  {
    var s := a + " " + b;
    assert forall k :: 0 <= k < |a| ==> s[k] == a[k];
    assert s[|a|] == ' ';
    assert FirstIndex(s, ' ') == |a|;
    assert s[..|a|] == a;
    assert s[|a| + 1..] == b;
    assert FirstIndex(b, ' ') == |b|;
  }

  /** The initials of two words joined by one space. */
  lemma TwoWordLeading(first: string, last: string)
    requires first != [] && last != [] && ' ' !in first && ' ' !in last
    ensures Concat(TakeTwo(Leading(Split(first + " " + last, ' ')))) == UpperOf(first[0]) + UpperOf(last[0])
  {
    SplitTwoWords(first, last);
    assert [first, last][1..] == [last];
    assert [last][1..] == [];
    var ls := Leading([first, last]);
    assert Leading([last]) == [UpperOf(last[0])] + Leading([]);
    assert ls == [UpperOf(first[0])] + Leading([last]);
    assert ls == [UpperOf(first[0]), UpperOf(last[0])];
    assert ls[1..] == [UpperOf(last[0])];
    assert Concat(ls[1..][1..]) == [];
    assert Concat(ls) == UpperOf(first[0]) + Concat(ls[1..]);
  }

  /** For a display name of two words without surrounding white space the
      initials are their two upper-cased first letters. */
  lemma TwoWordInitials(first: string, last: string, metadataName: string, email: string)
    requires first != [] && last != [] && ' ' !in first && ' ' !in last
    requires !IsSpace(first[0]) && !IsSpace(last[|last| - 1])
    ensures Initials(first + " " + last, metadataName, email) == UpperOf(first[0]) + UpperOf(last[0])
  {
    var name := first + " " + last;
    assert name[0] == first[0] && name[|name| - 1] == last[|last| - 1];
    assert TrimStart(name) == name;
    assert TrimEnd(name) == name;
    assert Trim(name) == name;
    TwoWordLeading(first, last);
  }

  /** The words of a split text: its non-empty pieces, in order. */
  function Words(pieces: seq<string>): (r: seq<string>)
    ensures |r| <= |pieces|
    ensures forall k :: 0 <= k < |r| ==> r[k] != []
  {
    if pieces == [] then [] else (if pieces[0] != [] then [pieces[0]] else []) + Words(pieces[1..])
  }

  /** Mapping every piece to its upper-cased first character and then
      dropping the empty results gives one letter group per word. */
  lemma {:induction false} LeadingOfWords(pieces: seq<string>)
    ensures |Leading(pieces)| == |Words(pieces)|
    ensures forall k :: 0 <= k < |Words(pieces)| ==> Leading(pieces)[k] == UpperOf(Words(pieces)[k][0])
    decreases |pieces|
  {
    if pieces != [] {
      LeadingOfWords(pieces[1..]);
    }
  }

  /** The initials are 'U' when the chosen source has no word, and otherwise
      the upper-cased first characters of its first one or two words. */
  lemma InitialsOfWords(displayName: string, metadataName: string, email: string)
    ensures var w := Words(Split(Trim(InitialsSource(displayName, metadataName, email)), ' '));
            Initials(displayName, metadataName, email)
            == if w == [] then "U"
               else if |w| == 1 then UpperOf(w[0][0])
               else UpperOf(w[0][0]) + UpperOf(w[1][0])
  {
    var source := Trim(InitialsSource(displayName, metadataName, email));
    var pieces := Split(source, ' ');
    var w := Words(pieces);
    LeadingOfWords(pieces);
    var l := Leading(pieces);
    if source == [] {
      assert pieces == [[]];
      assert pieces[1..] == [];
    } else {
      var t := TakeTwo(l);
      if |l| == 0 {
        assert t == [];
      } else if |l| == 1 {
        assert t == [l[0]];
        assert t[1..] == [];
        assert Concat(t) == l[0];
      } else {
        assert t == [l[0], l[1]];
        assert t[1..] == [l[1]];
        assert t[1..][1..] == [];
        assert Concat(t[1..]) == l[1] + Concat([]);
        assert Concat(t) == l[0] + l[1];
      }
    }
  }

  /** The header title: the display name as typed when it is not blank, else
      the metadata name, else 'Bienvenido'. */
  function HeaderTitle(displayName: string, metadataName: string): (r: string)
    ensures r != []
    ensures !AllSpace(displayName) ==> r == displayName
    ensures AllSpace(displayName) && metadataName != "" ==> r == metadataName
    ensures AllSpace(displayName) && metadataName == "" ==> r == "Bienvenido"
  {
    TrimEmptyIffAllSpace(displayName);
    if |Trim(displayName)| > 0 then displayName
    else if metadataName != "" then metadataName
    else "Bienvenido"
  }

  // ---------------------------------------------------------------------------
  // Loading and saving
  // ---------------------------------------------------------------------------

  datatype FeedbackKind = SuccessFeedback | ErrorFeedback

  datatype Feedback = Feedback(kind: FeedbackKind, message: string)

  /** The outcome of `getUser`: the latest metadata `display_name`, or an
      error (with its message, when it is an `Error`). */
  datatype LoadOutcome = Loaded(latest: MetaValue) | LoadFailed(errorMessage: Option<string>)

  /** The outcome of `updateUser`. */
  datatype SaveOutcome = Saved | SaveFailed(errorMessage: Option<string>)

  const LoadErrorMessage := "No pudimos cargar tu perfil."
  const SavedMessage := "Perfil actualizado con \U{00E9}xito."
  const SaveErrorMessage := "No pudimos guardar tus cambios."

  /** The display name `loadProfile` ends with: the latest metadata string,
      else the session's metadata name (also after an error). */
  function LoadedName(outcome: LoadOutcome, metadataName: string): (r: string)
    ensures outcome.Loaded? && outcome.latest.MetaString? ==> r == outcome.latest.text
    ensures !(outcome.Loaded? && outcome.latest.MetaString?) ==> r == metadataName
  {
    match outcome
    case Loaded(MetaString(text)) => text
    case _ => metadataName
  }

  class ProfileSheetState {
    var displayName: string
    var loadingProfile: bool
    var saving: bool
    var feedback: Option<Feedback>

    constructor ()
      ensures displayName == "" && !loadingProfile && !saving && feedback == None
    {
      displayName := "";
      loadingProfile, saving := false, false;
      feedback := None;
    }

    /** `loadProfile`; `metadataName` is the session's metadata name. */
    method LoadProfile(outcome: LoadOutcome, metadataName: string)
      modifies this
      ensures displayName == LoadedName(outcome, metadataName)
      ensures outcome.Loaded? ==> feedback == None
      ensures outcome.LoadFailed? ==>
                feedback == Some(Feedback(ErrorFeedback, outcome.errorMessage.GetOr(LoadErrorMessage)))
      ensures !loadingProfile && saving == old(saving)
    {
      loadingProfile := true;
      feedback := None;
      match outcome {
        case Loaded(latest) =>
          if latest.MetaString? {
            displayName := latest.text;
          } else {
            displayName := metadataName;
          }
        case LoadFailed(message) =>
          feedback := Some(Feedback(ErrorFeedback, message.GetOr(LoadErrorMessage)));
          displayName := metadataName;
      }
      loadingProfile := false;
    }

    /** `handleSave`: the sanitised name is sent (`sent`, `None` standing for
        null); a success shows its message and reloads the profile, whose
        first step clears the feedback again. */
    method HandleSave(outcome: SaveOutcome, reload: LoadOutcome, metadataName: string)
      returns (sent: Option<string>)
      modifies this
      ensures sent == NonBlankTrim(old(displayName))
      ensures outcome.SaveFailed? ==>
                feedback == Some(Feedback(ErrorFeedback, outcome.errorMessage.GetOr(SaveErrorMessage)))
                && displayName == old(displayName) && loadingProfile == old(loadingProfile)
      ensures outcome.Saved? ==>
                displayName == LoadedName(reload, metadataName) && !loadingProfile
                && (reload.Loaded? ==> feedback == None)
                && (reload.LoadFailed? ==>
                      feedback == Some(Feedback(ErrorFeedback, reload.errorMessage.GetOr(LoadErrorMessage))))
      ensures !saving
    {
      sent := NonBlankTrim(displayName);
      saving := true;
      feedback := None;
      match outcome {
        case SaveFailed(message) =>
          feedback := Some(Feedback(ErrorFeedback, message.GetOr(SaveErrorMessage)));
        case Saved =>
          feedback := Some(Feedback(SuccessFeedback, SavedMessage));
          LoadProfile(reload, metadataName);
      }
      saving := false;
    }

    /** The visibility effect: opening the sheet reloads the profile,
        closing it clears the feedback. */
    method OnVisibleChange(visible: bool, reload: LoadOutcome, metadataName: string)
      modifies this
      ensures visible ==> displayName == LoadedName(reload, metadataName) && !loadingProfile
      ensures !visible ==> feedback == None && displayName == old(displayName)
                           && loadingProfile == old(loadingProfile)
      ensures saving == old(saving)
    {
      if visible {
        LoadProfile(reload, metadataName);
      } else {
        feedback := None;
      }
    }
  }
}
