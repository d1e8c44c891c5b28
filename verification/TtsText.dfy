/** Text admission (gateway/src/lib/tts-text.ts): a string is a sequence of
    UTF-16 code units, walked codepoint by codepoint as in section 11.1.4
    (CodePointAt) of ECMA-262. */
module TtsText {
  import opened Options

  type CodeUnit = u: int | 0 <= u < 0x1_0000
  type CodePoint = p: int | 0 <= p < 0x11_0000
  type Text = seq<CodeUnit>

  const BENGALI_BLOCK_START := 0x0980
  const BENGALI_BLOCK_END := 0x09ff
  const MIN_BENGALI_RATIO := 0.5

  datatype TextError =
    | TextEmpty
    | TextTooLong(maxLength: nat, actualLength: nat)
    | TextNotBengali(ratio: real, minimumRatio: real)

  predicate IsLead(u: int) {
    0xD800 <= u <= 0xDBFF
  }

  predicate IsTrail(u: int) {
    0xDC00 <= u <= 0xDFFF
  }

  predicate IsSurrogate(u: int) {
    IsLead(u) || IsTrail(u)
  }

  /** WhiteSpace and LineTerminator, the set that both trim() and /\s/ use. */
  predicate IsSpace(u: int) {
    || 0x09 <= u <= 0x0D || u == 0x20 || u == 0xA0 || u == 0x1680
    || 0x2000 <= u <= 0x200A || u == 0x2028 || u == 0x2029 || u == 0x202F
    || u == 0x205F || u == 0x3000 || u == 0xFEFF
  }

  predicate IsBengali(p: int) {
    BENGALI_BLOCK_START <= p <= BENGALI_BLOCK_END
  }

  /** True when the first two units of `t` form one codepoint. */
  predicate StartsWithPair(t: Text) {
    |t| >= 2 && IsLead(t[0]) && IsTrail(t[1])
  }

  function FirstWidth(t: Text): (n: nat)
    requires t != []
    ensures 1 <= n <= |t|
  {
    if StartsWithPair(t) then 2 else 1
  }

  function FirstCodePoint(t: Text): CodePoint
    requires t != []
  {
    if StartsWithPair(t) then
      var lead: int, trail: int := t[0], t[1];
      (lead - 0xD800) * 0x400 + (trail - 0xDC00) + 0x1_0000
    else t[0]
  }

  /** The codepoints that spreading the string or iterating over it yields. */
  function CodePoints(t: Text): seq<CodePoint> {
    if t == [] then [] else [FirstCodePoint(t)] + CodePoints(t[FirstWidth(t)..])
  }

  function EncodeOne(p: CodePoint): Text {
    if p < 0x1_0000 then [p]
    else [0xD800 + (p - 0x1_0000) / 0x400, 0xDC00 + (p - 0x1_0000) % 0x400]
  }

  function Encode(ps: seq<CodePoint>): Text {
    if ps == [] then [] else EncodeOne(ps[0]) + Encode(ps[1..])
  }

  /** Codepoints that count towards the total: everything but whitespace. */
  function NonSpace(ps: seq<CodePoint>): nat {
    if ps == [] then 0 else (if IsSpace(ps[0]) then 0 else 1) + NonSpace(ps[1..])
  }

  function Bengali(ps: seq<CodePoint>): nat {
    if ps == [] then 0
    else (if IsBengali(ps[0]) && !IsSpace(ps[0]) then 1 else 0) + Bengali(ps[1..])
  }

  predicate Dominant(t: Text) {
    2 * Bengali(CodePoints(t)) >= NonSpace(CodePoints(t))
  }

  function TrimStart(t: Text): Text {
    if t != [] && IsSpace(t[0]) then TrimStart(t[1..]) else t
  }

  function TrimEnd(t: Text): Text {
    if t != [] && IsSpace(t[|t| - 1]) then TrimEnd(t[..|t| - 1]) else t
  }

  function Trim(t: Text): Text {
    TrimEnd(TrimStart(t))
  }

  predicate Blank(t: Text) {
    forall i :: 0 <= i < |t| ==> IsSpace(t[i])
  }

  /** What a caller may rely on: not blank, short enough, mostly Bengali. */
  predicate Admissible(t: Text, maxLength: nat) {
    && !Blank(t)
    && |CodePoints(t)| <= maxLength
    && Dominant(t)
  }

  /** The share of non-whitespace codepoints in the Bengali block. */
  method BengaliRatio(text: Text) returns (ratio: real)
    ensures NonSpace(CodePoints(text)) == 0 ==> ratio == 0.0
    ensures NonSpace(CodePoints(text)) != 0 ==>
              ratio == Bengali(CodePoints(text)) as real / NonSpace(CodePoints(text)) as real
  {
    var bengali, total := 0, 0;
    var i := 0;
    while i < |text|
      invariant 0 <= i <= |text|
      invariant bengali >= 0 && total >= 0
      invariant bengali + Bengali(CodePoints(text[i..])) == Bengali(CodePoints(text))
      invariant total + NonSpace(CodePoints(text[i..])) == NonSpace(CodePoints(text))
    {
      var rest := text[i..];
      var codePoint := FirstCodePoint(rest);
      assert CodePoints(rest)[1..] == CodePoints(rest[FirstWidth(rest)..]);
      assert rest[FirstWidth(rest)..] == text[i + FirstWidth(rest)..];
      i := i + FirstWidth(rest);
      if IsSpace(codePoint) {
        continue;
      }
      total := total + 1;
      if BENGALI_BLOCK_START <= codePoint <= BENGALI_BLOCK_END {
        bengali := bengali + 1;
      }
    }
    ratio := if total == 0 then 0.0 else bengali as real / total as real;
  }

  /** The three rules in order; succeeds on exactly the admissible texts, and
      each refusal names the rule that failed with the numbers it measured. */
  method ValidateTtsText(text: Text, maxLength: nat) returns (r: Result<(), TextError>)
    ensures r.Ok? <==> Admissible(text, maxLength)
    ensures r == Err(TextEmpty) <==> forall i :: 0 <= i < |text| ==> text[i] in WHITE_SPACE
    ensures r.Err? && r.error.TextTooLong? ==>
              r.error == TextTooLong(maxLength, |CodePoints(text)|) && |CodePoints(text)| > maxLength
    ensures r.Err? && r.error.TextNotBengali? ==>
              && !Dominant(text) && |CodePoints(text)| <= maxLength
              && r.error.minimumRatio == MIN_BENGALI_RATIO && NonSpace(CodePoints(text)) != 0
              && r.error.ratio == Bengali(CodePoints(text)) as real / NonSpace(CodePoints(text)) as real
  {
    TrimmedAwayMeansBlank(text);
    if |Trim(text)| == 0 {
      return Err(TextEmpty);
    }
    var actualLength := |CodePoints(text)|;
    if actualLength > maxLength {
      return Err(TextTooLong(maxLength, actualLength));
    }
    var ratio := BengaliRatio(text);
    RatioIsDominance(text, ratio);
    NonSpaceSeesEveryUnit(text);
    if ratio < MIN_BENGALI_RATIO {
      return Err(TextNotBengali(ratio, MIN_BENGALI_RATIO));
    }
    return Ok(());
  }

  lemma TrimmedAwayMeansBlank(t: Text)
    ensures |Trim(t)| == 0 <==> Blank(t)
  {
    TrimStartBlank(t);
    TrimEndBlank(TrimStart(t));
    if Blank(t) {
    } else {
      var s := TrimStart(t);
      assert s != [] && !IsSpace(s[0]);
    }
  }

  lemma {:induction false} TrimStartBlank(t: Text)
    ensures Blank(t) ==> TrimStart(t) == []
    ensures !Blank(t) ==> TrimStart(t) != [] && !IsSpace(TrimStart(t)[0])
  {
    if t != [] && IsSpace(t[0]) {
      TrimStartBlank(t[1..]);
      if forall i :: 0 <= i < |t[1..]| ==> IsSpace(t[1..][i]) {
        forall i | 0 <= i < |t| ensures IsSpace(t[i]) {
          if i > 0 { assert t[i] == t[1..][i - 1]; }
        }
      }
    }
  }

  lemma {:induction false} TrimEndBlank(t: Text)
    ensures t != [] && !IsSpace(t[0]) ==> TrimEnd(t) != []
    ensures t == [] ==> TrimEnd(t) == []
  {
    if t != [] && IsSpace(t[|t| - 1]) {
      if |t| > 1 { TrimEndBlank(t[..|t| - 1]); }
    }
  }

  lemma {:induction false} BengaliWithinNonSpace(ps: seq<CodePoint>)
    ensures Bengali(ps) <= NonSpace(ps)
  {
    if ps != [] { BengaliWithinNonSpace(ps[1..]); }
  }

  /** The division-and-compare of the code is the doubled-count comparison,
      except that blank text scores 0 and is refused. */
  lemma RatioIsDominance(t: Text, ratio: real)
    requires NonSpace(CodePoints(t)) == 0 ==> ratio == 0.0
    requires NonSpace(CodePoints(t)) != 0 ==>
               ratio == Bengali(CodePoints(t)) as real / NonSpace(CodePoints(t)) as real
    ensures ratio >= MIN_BENGALI_RATIO <==> Dominant(t) && !Blank(t)
  {
    NonSpaceSeesEveryUnit(t);
    if NonSpace(CodePoints(t)) != 0 {
      HalfMeansTwice(Bengali(CodePoints(t)), NonSpace(CodePoints(t)), ratio);
    }
  }

  lemma Times(x: real, y: real)
    requires y > 0.0
    ensures x >= 0.0 <==> x * y >= 0.0
  {}

  lemma HalfMeansTwice(b: nat, n: nat, ratio: real)
    requires n != 0 && ratio == b as real / n as real
    ensures ratio >= 0.5 <==> 2 * b >= n
  {
    var y := n as real;
    Times(ratio - 0.5, y);
    assert (ratio - 0.5) * y == b as real - 0.5 * y;
  }

  lemma BlankUnfolds(t: Text)
    requires t != []
    ensures Blank(t) <==> FirstWidth(t) == 1 && IsSpace(t[0]) && Blank(t[1..])
  {
    if FirstWidth(t) == 1 && IsSpace(t[0]) && Blank(t[1..]) {
      forall i | 0 <= i < |t| ensures IsSpace(t[i]) {
        if i > 0 { assert IsSpace(t[1..][i - 1]); }
      }
    }
    if Blank(t) {
      assert IsSpace(t[0]);
    }
  }

  lemma {:induction false} NonSpaceSeesEveryUnit(t: Text)
    ensures NonSpace(CodePoints(t)) == 0 <==> Blank(t)
  {
    if t != [] {
      var w := FirstWidth(t);
      NonSpaceSeesEveryUnit(t[w..]);
      assert CodePoints(t)[1..] == CodePoints(t[w..]);
      BlankUnfolds(t);
      if w == 2 { assert FirstCodePoint(t) >= 0x1_0000; }
    }
  }

  /** Splitting at a codepoint boundary splits the codepoints; joining a lead
      to a trail replaces two lone surrogates by one pair. */
  predicate JoinsPair(a: Text, b: Text) {
    a != [] && b != [] && IsLead(a[|a| - 1]) && IsTrail(b[0])
  }

  lemma FirstOfConcat(a: Text, b: Text)
    requires a != [] && !JoinsPair(a, b)
    ensures var w := FirstWidth(a);
            && FirstWidth(a + b) == w && FirstCodePoint(a + b) == FirstCodePoint(a)
            && (a + b)[w..] == a[w..] + b && !JoinsPair(a[w..], b)
  {}

  lemma Unfolded(t: Text, p: CodePoint, rest: Text)
    requires t != [] && FirstCodePoint(t) == p && t[FirstWidth(t)..] == rest
    ensures CodePoints(t) == [p] + CodePoints(rest)
  {}

  lemma Regrouped(p: CodePoint, x: seq<CodePoint>, y: seq<CodePoint>)
    ensures [p] + (x + y) == ([p] + x) + y
  {}

  lemma {:induction false} CodePointsConcat(a: Text, b: Text)
    ensures !JoinsPair(a, b) ==> CodePoints(a + b) == CodePoints(a) + CodePoints(b)
  {
    if a == [] {
      assert a + b == b;
    } else if !JoinsPair(a, b) {
      var p, rest := FirstCodePoint(a), a[FirstWidth(a)..];
      FirstOfConcat(a, b);
      CodePointsConcat(rest, b);
      Unfolded(a + b, p, rest + b);
      Unfolded(a, p, rest);
      Regrouped(p, CodePoints(rest), CodePoints(b));
    }
  }

  /** The exceptional case: the pair that forms costs one codepoint. */
  lemma JoinCostsOneCodePoint(a: Text, b: Text)
    requires JoinsPair(a, b)
    ensures |CodePoints(a + b)| == |CodePoints(a)| + |CodePoints(b)| - 1
    ensures NonSpace(CodePoints(a + b)) == NonSpace(CodePoints(a)) + NonSpace(CodePoints(b)) - 1
    ensures Bengali(CodePoints(a + b)) == Bengali(CodePoints(a)) + Bengali(CodePoints(b))
  {
    var n := |a| - 1;
    var front, lead, back := a[..n], [a[n]], b[1..];
    var joined := [a[n], b[0]] + back;
    assert a == front + lead;
    assert a + b == front + joined;
    CodePointsConcat(front, lead);
    CodePointsConcat(front, joined);
    CountsConcat(CodePoints(front), CodePoints(lead));
    CountsConcat(CodePoints(front), CodePoints(joined));
    LoneSurrogate(lead);
    LoneSurrogate(b);
    JoinedPair(joined);
    assert joined[2..] == back;
  }

  lemma LoneSurrogate(t: Text)
    requires t != [] && IsSurrogate(t[0]) && !StartsWithPair(t)
    ensures CodePoints(t) == [t[0]] + CodePoints(t[1..])
    ensures NonSpace(CodePoints(t)) == 1 + NonSpace(CodePoints(t[1..]))
    ensures Bengali(CodePoints(t)) == Bengali(CodePoints(t[1..]))
  {
    assert CodePoints(t)[1..] == CodePoints(t[1..]);
  }

  lemma JoinedPair(t: Text)
    requires StartsWithPair(t)
    ensures |CodePoints(t)| == 1 + |CodePoints(t[2..])|
    ensures NonSpace(CodePoints(t)) == 1 + NonSpace(CodePoints(t[2..]))
    ensures Bengali(CodePoints(t)) == Bengali(CodePoints(t[2..]))
  {
    assert CodePoints(t)[1..] == CodePoints(t[2..]);
  }

  lemma {:induction false} CountsConcat(p: seq<CodePoint>, q: seq<CodePoint>)
    ensures NonSpace(p + q) == NonSpace(p) + NonSpace(q)
    ensures Bengali(p + q) == Bengali(p) + Bengali(q)
  {
    if p == [] {
      assert p + q == q;
    } else {
      CountsConcat(p[1..], q);
      assert (p + q)[1..] == p[1..] + q;
    }
  }

  /** A seam that joins no pair adds the counts up. */
  lemma CountsAddUp(a: Text, b: Text)
    requires !JoinsPair(a, b)
    ensures NonSpace(CodePoints(a + b)) == NonSpace(CodePoints(a)) + NonSpace(CodePoints(b))
    ensures Bengali(CodePoints(a + b)) == Bengali(CodePoints(a)) + Bengali(CodePoints(b))
  {
    CodePointsConcat(a, b);
    CountsConcat(CodePoints(a), CodePoints(b));
  }

  lemma WhitespaceCountsNothing(space: Text)
    requires Blank(space)
    ensures NonSpace(CodePoints(space)) == 0 && Bengali(CodePoints(space)) == 0
  {
    NonSpaceSeesEveryUnit(space);
    BengaliWithinNonSpace(CodePoints(space));
  }

  /** Whitespace put anywhere but inside a surrogate pair never changes the
      dominance verdict; inside a pair it adds one non-Bengali codepoint. */
  lemma WhitespaceIsNeutral(a: Text, space: Text, b: Text)
    requires space != [] && Blank(space)
    ensures Bengali(CodePoints(a + space + b)) == Bengali(CodePoints(a + b))
    ensures NonSpace(CodePoints(a + space + b))
         == NonSpace(CodePoints(a + b)) + (if JoinsPair(a, b) then 1 else 0)
    ensures !JoinsPair(a, b) ==> (Dominant(a + space + b) <==> Dominant(a + b))
  {
    assert a + space + b == a + (space + b);
    CountsAddUp(a, space + b);
    CountsAddUp(space, b);
    WhitespaceCountsNothing(space);
    if JoinsPair(a, b) {
      JoinCostsOneCodePoint(a, b);
    } else {
      CountsAddUp(a, b);
    }
  }

  /** Dominance is closed under concatenation, pair joins included. */
  lemma DominanceIsClosedUnderConcat(a: Text, b: Text)
    requires Dominant(a) && Dominant(b)
    ensures Dominant(a + b)
  {
    if JoinsPair(a, b) {
      JoinCostsOneCodePoint(a, b);
    } else {
      CountsAddUp(a, b);
    }
  }

  lemma EncodeOneInverts(t: Text)
    requires t != []
    ensures EncodeOne(FirstCodePoint(t)) == t[..FirstWidth(t)]
  {}

  lemma EncodeUnfolds(p: CodePoint, rest: seq<CodePoint>)
    ensures Encode([p] + rest) == EncodeOne(p) + Encode(rest)
  {
    assert ([p] + rest)[1..] == rest;
  }

  /** Decoding loses nothing: re-encoding the codepoints gives the text back. */
  lemma {:induction false} EncodeInvertsCodePoints(t: Text)
    ensures Encode(CodePoints(t)) == t
  {
    if t != [] {
      var w := FirstWidth(t);
      EncodeInvertsCodePoints(t[w..]);
      EncodeUnfolds(FirstCodePoint(t), CodePoints(t[w..]));
      EncodeOneInverts(t);
      assert t == t[..w] + t[w..];
    }
  }

  /** No surrogate is a character of its own. */
  predicate IsScalar(p: CodePoint) {
    !(0xD800 <= p <= 0xDFFF)
  }

  ghost predicate AllScalar(ps: seq<CodePoint>) {
    forall i :: 0 <= i < |ps| ==> IsScalar(ps[i])
  }

  lemma EncodedFirst(p: CodePoint, rest: Text)
    requires IsScalar(p)
    ensures var t := EncodeOne(p) + rest;
            t != [] && FirstCodePoint(t) == p && FirstWidth(t) == |EncodeOne(p)| && t[FirstWidth(t)..] == rest
  {}

  /** And adds nothing: what characters are encoded as is read as those
      characters, a surrogate pair as one. */
  lemma {:induction false} CodePointsInvertEncode(ps: seq<CodePoint>)
    requires AllScalar(ps)
    ensures CodePoints(Encode(ps)) == ps
  {
    if ps != [] {
      CodePointsInvertEncode(ps[1..]);
      EncodedFirst(ps[0], Encode(ps[1..]));
      Unfolded(Encode(ps), ps[0], Encode(ps[1..]));
    }
  }

  /** Section 11.2 and 11.3 of ECMA-262, code point by code point. */
  const WHITE_SPACE := {
    0x0009, 0x000A, 0x000B, 0x000C, 0x000D, 0x0020, 0x00A0, 0x1680, 0x2000, 0x2001, 0x2002, 0x2003, 0x2004,
    0x2005, 0x2006, 0x2007, 0x2008, 0x2009, 0x200A, 0x2028, 0x2029, 0x202F, 0x205F, 0x3000, 0xFEFF}

  /** What a single character counts: nothing when it is white space, one
      otherwise, and one for Bengali exactly in the block of 128 from U+0980 on. */
  lemma CountsOfOne(p: CodePoint)
    ensures NonSpace([p]) == if p in WHITE_SPACE then 0 else 1
    ensures Bengali([p]) == if p / 128 == 19 then 1 else 0
  {
    assert [p][1..] == [];
  }

  /** A Bengali letter next to an emoji: two characters, half of them Bengali. */
  lemma LetterAndEmoji(maxLength: nat)
    ensures CodePoints([0x0995, 0xD83D, 0xDE02]) == [0x0995, 0x1F602]
    ensures Admissible([0x0995, 0xD83D, 0xDE02], maxLength) <==> maxLength >= 2
  {
    var t: Text := [0x0995, 0xD83D, 0xDE02];
    var emoji: CodePoint := 0x1F602;
    Unfolded(t[1..], emoji, []);
    Unfolded(t, 0x0995, t[1..]);
    assert !IsSpace(t[0]);
    CountsConcat([0x0995], [emoji]);
    assert [0x0995] + [emoji] == [0x0995, emoji];
    CountsOfOne(0x0995);
    CountsOfOne(emoji);
  }

  lemma {:induction false} CodePointsSize(t: Text)
    ensures |CodePoints(t)| <= |t| <= 2 * |CodePoints(t)|
  {
    if t != [] { CodePointsSize(t[FirstWidth(t)..]); }
  }

  /** What admission guarantees about the stored string's length. */
  lemma AdmittedTextIsShort(t: Text, maxLength: nat)
    requires Admissible(t, maxLength)
    ensures 1 <= |t| <= 2 * maxLength
    ensures Bengali(CodePoints(t)) > 0
  {
    CodePointsSize(t);
    NonSpaceSeesEveryUnit(t);
  }
}
