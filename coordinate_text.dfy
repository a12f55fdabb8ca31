/**
 * The coordinate text both client pages accept (client/src/pages/RideRequest.js:32, repeated
 * at client/src/pages/NearbyDrivers.js:52):
 *
 *   ^[-+]?([1-8]?\d(\.\d+)?|90(\.0+)?),\s*[-+]?(180(\.0+)?|((1[0-7]\d)|([1-9]?\d))(\.\d+)?)$
 *
 * written twice: once as what the pattern denotes (ghost predicates that say which pieces the
 * text is made of), once as a recogniser that reads the text left to right; the two agree on
 * every string. The text is then split and converted as the pages do.
 */
module CoordinateText {
  import opened Js

  predicate IsSign(c: char) {
    c == '-' || c == '+'
  }

  /** `[-+]?` */
  predicate OptSign(sign: string) {
    sign == "" || (|sign| == 1 && IsSign(sign[0]))
  }

  /** `(\.\d+)?` */
  predicate OptFraction(f: string) {
    f == "" || (|f| >= 2 && f[0] == '.' && AllDigits(f[1..]))
  }

  /** `(\.0+)?` */
  predicate OptZeroFraction(f: string) {
    f == "" || (|f| >= 2 && f[0] == '.' && forall i :: 1 <= i < |f| ==> f[i] == '0')
  }

  /** `[1-8]?\d`: 0 to 89 without a leading zero. */
  predicate UpTo89(d: string) {
    AllDigits(d) && (|d| == 1 || (|d| == 2 && '1' <= d[0] <= '8'))
  }

  /** `(1[0-7]\d)|([1-9]?\d)`: 0 to 179 without a leading zero. */
  predicate UpTo179(d: string) {
    AllDigits(d) && (|d| == 1 || (|d| == 2 && d[0] != '0') || (|d| == 3 && d[0] == '1' && d[1] <= '7'))
  }

  predicate AllSpace(w: string) {
    forall i :: 0 <= i < |w| ==> IsSpace(w[i])
  }

  // ---- What the pattern denotes ----

  /** `[1-8]?\d(\.\d+)?|90(\.0+)?` */
  ghost predicate FirstBodyPattern(u: string) {
    (exists i, f :: u == i + f && UpTo89(i) && OptFraction(f))
    || (exists f :: u == "90" + f && OptZeroFraction(f))
  }

  /** `180(\.0+)?|((1[0-7]\d)|([1-9]?\d))(\.\d+)?` */
  ghost predicate SecondBodyPattern(u: string) {
    (exists f :: u == "180" + f && OptZeroFraction(f))
    || (exists i, f :: u == i + f && UpTo179(i) && OptFraction(f))
  }

  ghost predicate FirstPattern(t: string) {
    exists sign, u :: t == sign + u && OptSign(sign) && FirstBodyPattern(u)
  }

  ghost predicate SecondPattern(t: string) {
    exists sign, u :: t == sign + u && OptSign(sign) && SecondBodyPattern(u)
  }

  /** The whole pattern, anchored at both ends: first field, comma, `\s*`, second field. */
  ghost predicate CoordinatePattern(s: string) {
    exists a, w, b :: s == a + "," + w + b && FirstPattern(a) && AllSpace(w) && SecondPattern(b)
  }

  // ---- The recogniser ----

  /** The first field's integer digits and the rest, from the first non-digit on. */
  predicate FirstBody(u: string) {
    var k := DigitRun(u);
    (UpTo89(u[..k]) && OptFraction(u[k..])) || (u[..k] == "90" && OptZeroFraction(u[k..]))
  }

  predicate SecondBody(u: string) {
    var k := DigitRun(u);
    (u[..k] == "180" && OptZeroFraction(u[k..])) || (UpTo179(u[..k]) && OptFraction(u[k..]))
  }

  predicate FirstField(t: string) {
    FirstBody(t[SignLength(t)..])
  }

  predicate SecondField(t: string) {
    SecondBody(t[SignLength(t)..])
  }

  /** `validateCoordinates(value)`: the first comma ends the first field, spaces follow it. */
  predicate ValidCoordinates(s: string) {
    var c := FirstIndex(s, ',');
    c < |s| && FirstField(s[..c])
    && var rest := s[c + 1..];
    SecondField(rest[SpaceRun(rest)..])
  }

  // ---- The two definitions agree ----

  /** Digits followed by a point (or nothing): the digit run is exactly the digits. */
  lemma DigitsThen(i: string, f: string)
    requires AllDigits(i) && (f == "" || f[0] == '.')
    ensures DigitRun(i + f) == |i| && (i + f)[..|i|] == i && (i + f)[|i|..] == f
  {
    assert (i + f)[..|i|] == i;
    assert (i + f)[|i|..] == f;
    DigitRunIs(i + f, |i|);
  }

  lemma FirstBodyIff(u: string)
    ensures FirstBody(u) <==> FirstBodyPattern(u)
  {
    var k := DigitRun(u);
    assert u == u[..k] + u[k..];
    if u[..k] == "90" && OptZeroFraction(u[k..]) {
      assert u == "90" + u[k..];
    }
    if exists i, f :: u == i + f && UpTo89(i) && OptFraction(f) {
      var i, f :| u == i + f && UpTo89(i) && OptFraction(f);
      DigitsThen(i, f);
    }
    if exists f :: u == "90" + f && OptZeroFraction(f) {
      var f :| u == "90" + f && OptZeroFraction(f);
      assert AllDigits("90");
      DigitsThen("90", f);
    }
  }

  lemma SecondBodyIff(u: string)
    ensures SecondBody(u) <==> SecondBodyPattern(u)
  {
    var k := DigitRun(u);
    assert u == u[..k] + u[k..];
    if u[..k] == "180" && OptZeroFraction(u[k..]) {
      assert u == "180" + u[k..];
    }
    if exists i, f :: u == i + f && UpTo179(i) && OptFraction(f) {
      var i, f :| u == i + f && UpTo179(i) && OptFraction(f);
      DigitsThen(i, f);
    }
    if exists f :: u == "180" + f && OptZeroFraction(f) {
      var f :| u == "180" + f && OptZeroFraction(f);
      assert AllDigits("180");
      DigitsThen("180", f);
    }
  }

  /** Digits, then nothing or a point and digits: what every field body is made of. */
  predicate NumberChars(u: string) {
    u != [] && IsDigit(u[0]) && IsDigit(u[|u| - 1])
    && forall i :: 0 <= i < |u| ==> IsDigit(u[i]) || u[i] == '.'
  }

  lemma BodyChars(u: string)
    requires FirstBody(u) || SecondBody(u)
    ensures NumberChars(u)
  {
    var k := DigitRun(u);
    assert u == u[..k] + u[k..];
    assert u[..k][0] == u[0];
    assert AllDigits(u[..k]);
    var f := u[k..];
    if f != [] {
      assert f[1..][|f| - 2] == u[|u| - 1];
      forall i | k < i < |u| ensures IsDigit(u[i]) {
        assert u[i] == f[1..][i - k - 1];
      }
    } else {
      assert u[|u| - 1] == u[..k][k - 1];
    }
    forall i | 0 <= i < k ensures IsDigit(u[i]) {
      assert u[i] == u[..k][i];
    }
  }

  /** A field is a sign (or none) followed by a body; nothing in it is a comma or a space. */
  predicate FieldChars(t: string) {
    t != [] && (IsSign(t[0]) || IsDigit(t[0])) && IsDigit(t[|t| - 1])
    && forall i :: 0 <= i < |t| ==> IsDigit(t[i]) || t[i] == '.' || IsSign(t[i])
  }

  lemma FieldCharsOf(t: string)
    requires FirstField(t) || SecondField(t)
    ensures FieldChars(t)
  {
    var n := SignLength(t);
    var u := t[n..];
    BodyChars(u);
    assert t[|t| - 1] == u[|u| - 1];
    forall i | n <= i < |t| ensures IsDigit(t[i]) || t[i] == '.' {
      assert t[i] == u[i - n];
    }
    if n == 0 {
      assert t[0] == u[0];
    }
  }

  /** A signed field: the sign the pattern reads is the one `SignLength` skips. */
  lemma SignSplit(t: string, sign: string, u: string)
    requires t == sign + u && OptSign(sign) && u != [] && IsDigit(u[0])
    ensures SignLength(t) == |sign| && t[SignLength(t)..] == u
  {
    if sign == "" {
      assert t == u;
    } else {
      assert t[0] == sign[0];
      assert t[1..] == u;
    }
  }

  lemma FirstFieldIff(t: string)
    ensures FirstField(t) <==> FirstPattern(t)
  {
    var n := SignLength(t);
    assert t == t[..n] + t[n..];
    FirstBodyIff(t[n..]);
    if FirstField(t) {
      assert OptSign(t[..n]);
    }
    if FirstPattern(t) {
      var sign, u :| t == sign + u && OptSign(sign) && FirstBodyPattern(u);
      FirstBodyIff(u);
      BodyChars(u);
      SignSplit(t, sign, u);
    }
  }

  lemma SecondFieldIff(t: string)
    ensures SecondField(t) <==> SecondPattern(t)
  {
    var n := SignLength(t);
    assert t == t[..n] + t[n..];
    SecondBodyIff(t[n..]);
    if SecondField(t) {
      assert OptSign(t[..n]);
    }
    if SecondPattern(t) {
      var sign, u :| t == sign + u && OptSign(sign) && SecondBodyPattern(u);
      SecondBodyIff(u);
      BodyChars(u);
      SignSplit(t, sign, u);
    }
  }

  /** A comma after comma-free text is the first one, and the text splits around it. */
  lemma CommaAt(a: string, rest: string)
    requires forall i :: 0 <= i < |a| ==> a[i] != ','
    ensures var s := a + "," + rest;
      && FirstIndex(s, ',') == |a| && s[..|a|] == a && s[|a| + 1..] == rest
  {
    var s := a + "," + rest;
    forall i | 0 <= i < |a| ensures s[i] != ',' {
      assert s[i] == a[i];
    }
    FirstIndexIs(s, ',', |a|);
    assert s[..|a|] == a;
    assert s[|a| + 1..] == rest;
  }

  /** Spaces followed by a non-space: the space run is exactly the spaces. */
  lemma SpacesThen(w: string, b: string)
    requires AllSpace(w) && b != [] && !IsSpace(b[0])
    ensures SpaceRun(w + b) == |w| && (w + b)[|w|..] == b
  {
    assert (w + b)[|w|] == b[0];
    forall i | 0 <= i < |w| ensures IsSpace((w + b)[i]) {
      assert (w + b)[i] == w[i];
    }
    SpaceRunIs(w + b, |w|);
    assert (w + b)[|w|..] == b;
  }

  /** A field holds no comma and does not start with a space. */
  lemma FieldNoComma(t: string)
    requires FieldChars(t)
    ensures forall i :: 0 <= i < |t| ==> t[i] != ','
    ensures !IsSpace(t[0])
  {
  }

  /** Two fields around a comma and spaces: where the recogniser finds each piece. */
  lemma CommaSplit(a: string, w: string, b: string)
    requires FieldChars(a) && AllSpace(w) && FieldChars(b)
    ensures var s := a + "," + w + b;
      && FirstIndex(s, ',') == |a| && s[..|a|] == a && s[|a| + 1..] == w + b
      && SpaceRun(w + b) == |w| && (w + b)[|w|..] == b
  {
    FieldNoComma(a);
    FieldNoComma(b);
    CommaAt(a, w + b);
    assert a + "," + w + b == a + "," + (w + b);
    SpacesThen(w, b);
  }

  lemma PatternFromPieces(s: string, a: string, w: string, b: string)
    requires s == a + "," + w + b && FirstPattern(a) && AllSpace(w) && SecondPattern(b)
    ensures CoordinatePattern(s)
  {
  }

  /** Fields the recogniser accepts, around a comma and spaces, make text the pattern matches. */
  lemma PatternFromFields(a: string, w: string, b: string)
    requires FirstField(a) && AllSpace(w) && SecondField(b)
    ensures CoordinatePattern(a + "," + w + b)
  {
    FirstFieldIff(a);
    SecondFieldIff(b);
    PatternFromPieces(a + "," + w + b, a, w, b);
  }

  lemma CoordinatesToPattern(s: string)
    requires ValidCoordinates(s)
    ensures CoordinatePattern(s)
  {
    PiecesShape(s);
    var a, rest, b := Pieces(s).0, Pieces(s).1, SecondOf(s);
    var w := rest[..SpaceRun(rest)];
    PatternFromFields(a, w, b);
    JoinAssociates(a, w, b);
  }

  lemma JoinAssociates(a: string, w: string, b: string)
    ensures a + "," + (w + b) == a + "," + w + b
  {
  }

  lemma PatternToCoordinates(s: string)
    requires CoordinatePattern(s)
    ensures ValidCoordinates(s)
  {
    var a, w, b :| s == a + "," + w + b && FirstPattern(a) && AllSpace(w) && SecondPattern(b);
    FirstFieldIff(a);
    SecondFieldIff(b);
    FieldCharsOf(a);
    FieldCharsOf(b);
    CommaSplit(a, w, b);
  }

  /** The recogniser accepts exactly the strings the pattern matches. */
  lemma CoordinatesIff(s: string)
    ensures ValidCoordinates(s) <==> CoordinatePattern(s)
  {
    if ValidCoordinates(s) {
      CoordinatesToPattern(s);
    }
    if CoordinatePattern(s) {
      PatternToCoordinates(s);
    }
  }

  // ---- Values ----

  /** What `IntegerValue` is for one to three digits. */
  lemma SmallIntegers(d: string)
    requires AllDigits(d) && 1 <= |d| <= 3
    ensures |d| == 1 ==> IntegerValue(d) == DigitValue(d[0])
    ensures |d| == 2 ==> IntegerValue(d) == 10 * DigitValue(d[0]) + DigitValue(d[1])
    ensures |d| == 3 ==> IntegerValue(d) == 100 * DigitValue(d[0]) + 10 * DigitValue(d[1]) + DigitValue(d[2])
  {
    assert d[..|d| - 1][..0] == [];
    if |d| >= 2 {
      assert d[..|d| - 1][..|d| - 2] == d[..|d| - 2];
    }
    if |d| == 3 {
      assert d[..1][..0] == [];
    }
  }

  /** A body the recogniser accepts is a decimal literal, and its value is at most `bound`. */
  lemma BodyValue(u: string, bound: nat)
    requires (bound == 90 && FirstBody(u)) || (bound == 180 && SecondBody(u))
    ensures UnsignedDecimal(u) && 0.0 <= UnsignedValue(u) <= bound as real
  {
    var k := DigitRun(u);
    var d, f := u[..k], u[k..];
    assert |d| >= 1 && |d| <= 3 && AllDigits(d);
    SmallIntegers(d);
    if f != [] {
      assert u[k] == f[0];
      assert u[k + 1..] == f[1..];
      FractionBounds(f[1..]);
      if OptZeroFraction(f) && (d == "90" || d == "180") {
        FractionOfZeros(f[1..]);
      }
    }
  }

  /**
   * The first field is a decimal of magnitude at most 90 and the second one of magnitude
   * at most 180, whatever the sign.
   */
  lemma FieldValues(t: string, bound: nat)
    requires (bound == 90 && FirstField(t)) || (bound == 180 && SecondField(t))
    ensures DecimalText(t) && -(bound as real) <= DecimalValue(t) <= bound as real
  {
    BodyValue(t[SignLength(t)..], bound);
  }

  // ---- Splitting and conversion, as `value.split(',').map(Number)` does ----

  /** A field has no surrounding white space, so trimming leaves it as it is. */
  lemma TrimField(t: string)
    requires FieldChars(t)
    ensures Trim(t) == t
  {
    SpaceRunIs(t, 0);
    assert t[0..] == t;
  }

  /** Spaces then a field: trimming leaves the field. */
  lemma TrimSpacedField(w: string, t: string)
    requires AllSpace(w) && FieldChars(t)
    ensures Trim(w + t) == t
  {
    FieldNoComma(t);
    SpacesThen(w, t);
  }

  /** The two pieces of an accepted text: the first field, and the spaces with the second. */
  function Pieces(s: string): (string, string)
    requires ValidCoordinates(s)
  {
    var c := FirstIndex(s, ',');
    (s[..c], s[c + 1..])
  }

  /** The second piece without its leading spaces: the second field. */
  function SecondOf(s: string): string
    requires ValidCoordinates(s)
  {
    var rest := Pieces(s).1;
    rest[SpaceRun(rest)..]
  }

  /** Text around a comma is the text before it, the comma and the text after it. */
  lemma CutAtComma(s: string, c: nat)
    requires c < |s| && s[c] == ','
    ensures s == s[..c] + "," + s[c + 1..]
  {
    assert s == s[..c] + [s[c]] + s[c + 1..];
  }

  /** Text is its leading spaces and what follows them. */
  lemma SpacePrefix(rest: string)
    ensures rest == rest[..SpaceRun(rest)] + rest[SpaceRun(rest)..]
    ensures AllSpace(rest[..SpaceRun(rest)])
  {
    var k := SpaceRun(rest);
    forall i | 0 <= i < k ensures IsSpace(rest[..k][i]) {
      assert rest[..k][i] == rest[i];
    }
  }

  /** An accepted text is its first piece, a comma, spaces and its second field. */
  lemma PiecesJoin(s: string)
    requires ValidCoordinates(s)
    ensures var rest := Pieces(s).1;
      && s == Pieces(s).0 + "," + rest
      && rest == rest[..SpaceRun(rest)] + SecondOf(s) && AllSpace(rest[..SpaceRun(rest)])
  {
    CutAtComma(s, FirstIndex(s, ','));
    SpacePrefix(Pieces(s).1);
  }

  /** Both fields of an accepted text are fields the recogniser accepts. */
  lemma PiecesFields(s: string)
    requires ValidCoordinates(s)
    ensures FirstField(Pieces(s).0) && SecondField(SecondOf(s))
    ensures FieldChars(Pieces(s).0) && FieldChars(SecondOf(s))
  {
    FieldCharsOf(Pieces(s).0);
    FieldCharsOf(SecondOf(s));
  }

  lemma PiecesShape(s: string)
    requires ValidCoordinates(s)
    ensures var rest := Pieces(s).1;
      var w := rest[..SpaceRun(rest)];
      && s == Pieces(s).0 + "," + rest
      && rest == w + SecondOf(s) && AllSpace(w)
      && FirstField(Pieces(s).0) && SecondField(SecondOf(s))
      && FieldChars(Pieces(s).0) && FieldChars(SecondOf(s))
  {
    PiecesJoin(s);
    PiecesFields(s);
  }

  /** Text with one comma splits into the text before it and the text after it. */
  lemma SplitOnce(a: string, rest: string)
    requires forall i :: 0 <= i < |a| ==> a[i] != ','
    requires forall i :: 0 <= i < |rest| ==> rest[i] != ','
    ensures Split(a + "," + rest, ',') == [a, rest]
  {
    CommaAt(a, rest);
    FirstIndexIs(rest, ',', |rest|);
  }

  /** Spaces then a field hold no comma. */
  lemma NoCommaAfter(w: string, b: string)
    requires AllSpace(w) && FieldChars(b)
    ensures forall i :: 0 <= i < |w + b| ==> (w + b)[i] != ','
  {
    forall i | 0 <= i < |w + b| ensures (w + b)[i] != ',' {
      if i < |w| {
        assert (w + b)[i] == w[i];
      } else {
        assert (w + b)[i] == b[i - |w|];
      }
    }
  }

  /** Two fields around a comma and spaces split on `,` into the first and the rest. */
  lemma SplitFields(a: string, w: string, b: string)
    requires FieldChars(a) && AllSpace(w) && FieldChars(b)
    ensures Split(a + "," + (w + b), ',') == [a, w + b]
  {
    NoCommaAfter(w, b);
    FieldNoComma(a);
    SplitOnce(a, w + b);
  }

  /** An accepted text splits on `,` into exactly its two pieces. */
  lemma SplitInTwo(s: string)
    requires ValidCoordinates(s)
    ensures Split(s, ',') == [Pieces(s).0, Pieces(s).1]
  {
    PiecesShape(s);
    var rest := Pieces(s).1;
    SplitFields(Pieces(s).0, rest[..SpaceRun(rest)], SecondOf(s));
  }

  /** `Number` of a decimal field, alone or after spaces, is its decimal value. */
  lemma ConvertField(w: string, t: string)
    requires AllSpace(w) && FieldChars(t) && DecimalText(t)
    ensures StringToNumber(t) == Num(DecimalValue(t))
    ensures StringToNumber(w + t) == Num(DecimalValue(t))
  {
    TrimField(t);
    TrimSpacedField(w, t);
  }

  /**
   * `Number` reads each piece of an accepted text as the decimal value of its field: the
   * first within [-90, 90], the second within [-180, 180].
   */
  lemma ConvertPieces(s: string)
    requires ValidCoordinates(s)
    ensures DecimalText(Pieces(s).0) && DecimalText(SecondOf(s))
    ensures StringToNumber(Pieces(s).0) == Num(DecimalValue(Pieces(s).0))
    ensures StringToNumber(Pieces(s).1) == Num(DecimalValue(SecondOf(s)))
    ensures -90.0 <= DecimalValue(Pieces(s).0) <= 90.0
    ensures -180.0 <= DecimalValue(SecondOf(s)) <= 180.0
  {
    PiecesShape(s);
    var a, rest, b := Pieces(s).0, Pieces(s).1, SecondOf(s);
    var w := rest[..SpaceRun(rest)];
    FieldValues(a, 90);
    FieldValues(b, 180);
    ConvertField("", a);
    ConvertField(w, b);
    assert rest == w + b;
  }

  /**
   * `const [x, y] = value.split(',').map(Number)`: the first two pieces converted, and
   * undefined for a piece that is not there.
   */
  function NumberPair(s: string): (JsValue, JsValue) {
    var parts := Split(s, ',');
    (StringToNumber(parts[0]), if |parts| >= 2 then StringToNumber(parts[1]) else Undefined)
  }

  /**
   * For an accepted text both numbers are finite: the first field's value, within [-90, 90],
   * and the second field's, within [-180, 180].
   */
  lemma NumberPairOfAccepted(s: string)
    requires ValidCoordinates(s)
    ensures DecimalText(Pieces(s).0) && DecimalText(SecondOf(s))
    ensures NumberPair(s) == (Num(DecimalValue(Pieces(s).0)), Num(DecimalValue(SecondOf(s))))
    ensures -90.0 <= DecimalValue(Pieces(s).0) <= 90.0 && -180.0 <= DecimalValue(SecondOf(s)) <= 180.0
  {
    SplitInTwo(s);
    ConvertPieces(s);
  }

  /** Both numbers of an accepted text are finite, within 90 and 180 of zero respectively. */
  lemma NumberPairBounds(s: string)
    requires ValidCoordinates(s)
    ensures AbsAtMost(NumberPair(s).0, 90.0) && AbsAtMost(NumberPair(s).1, 180.0)
  {
    NumberPairOfAccepted(s);
  }

  // ---- Consequences ----

  /** "05" is no first field: its integer part has a leading zero. */
  lemma LeadingZeroIsNoField()
    ensures !FirstField("05")
  {
    assert SignLength("05") == 0 && "05"[0..] == "05";
    assert DigitRun("05") == 2 by {
      assert AllDigits("05"[..2]);
      DigitRunIs("05", 2);
    }
    assert "05"[..2] == "05";
  }

  /** "1." is no first field: a point needs digits after it. */
  lemma BarePointIsNoField()
    ensures !FirstField("1.")
  {
    assert SignLength("1.") == 0 && "1."[0..] == "1.";
    assert DigitRun("1.") == 1 by {
      assert "1."[..1] == "1";
      DigitRunIs("1.", 1);
    }
    assert "1."[..1] == "1" && "1."[1..] == ".";
  }

  /** Integer parts have no leading zero. */
  lemma RejectsLeadingZero()
    ensures !ValidCoordinates("05,1")
  {
    assert FirstIndex("05,1", ',') == 2 by {
      FirstIndexIs("05,1", ',', 2);
    }
    assert "05,1"[..2] == "05";
    LeadingZeroIsNoField();
  }

  /** A point needs digits after it. */
  lemma RejectsBarePoint()
    ensures !ValidCoordinates("1.,2")
  {
    assert FirstIndex("1.,2", ',') == 2 by {
      FirstIndexIs("1.,2", ',', 2);
    }
    assert "1.,2"[..2] == "1.";
    BarePointIsNoField();
  }

  /** "-122.4" is not a first field: its integer part has three digits. */
  lemma LongitudeIsNoFirstField()
    ensures !FirstField("-122.4")
  {
    var a := "-122.4";
    assert SignLength(a) == 1 && a[1..] == "122.4";
    assert DigitRun("122.4") == 3 by {
      assert "122.4"[..3] == "122";
      DigitRunIs("122.4", 3);
    }
    assert "122.4"[..3] == "122";
  }

  /**
   * The first field is bounded by 90 although the submit handler reads it as the longitude:
   * "longitude, latitude" text for a longitude past 90, such as "-122.4, 37.7", is refused.
   */
  lemma LongitudeFirstRefused()
    ensures !ValidCoordinates("-122.4, 37.7")
  {
    var s := "-122.4, 37.7";
    assert FirstIndex(s, ',') == 6 by {
      FirstIndexIs(s, ',', 6);
    }
    assert s[..6] == "-122.4";
    LongitudeIsNoFirstField();
  }

  /** "37.7" is what the first field's pattern denotes. */
  lemma LatitudeMatchesFirst()
    ensures FirstPattern("37.7")
  {
    assert "37.7" == "" + ("37" + ".7") && ".7"[1..] == "7";
  }

  /** "-122.4" is what the second field's pattern denotes. */
  lemma LongitudeMatchesSecond()
    ensures SecondPattern("-122.4")
  {
    assert "-122.4" == "-" + ("122" + ".4") && ".4"[1..] == "4";
  }

  /** The same point written latitude first is accepted. */
  lemma LatitudeFirstAccepted()
    ensures ValidCoordinates("37.7, -122.4")
  {
    LatitudeMatchesFirst();
    LongitudeMatchesSecond();
    assert AllSpace(" ");
    assert "37.7, -122.4" == "37.7" + "," + " " + "-122.4";
    PatternFromPieces("37.7, -122.4", "37.7", " ", "-122.4");
    PatternToCoordinates("37.7, -122.4");
  }

  /** "122.4" is an unsigned decimal of value 122.4. */
  lemma UnsignedLongitude()
    ensures UnsignedDecimal("122.4") && UnsignedValue("122.4") == 122.4
  {
    var u := "122.4";
    assert AllDigits(u[..3]) && !IsDigit(u[3]);
    DigitRunIs(u, 3);
    assert u[..3] == "122" && u[4..] == "4";
    assert IntegerValue("122") == 122 by {
      assert "122"[..2] == "12" && "12"[..1] == "1" && "1"[..0] == "";
    }
    assert FractionValue("4") == 0.4 by {
      assert "4"[1..] == "";
    }
  }

  /** "-122.4" is a decimal of value -122.4. */
  lemma SignedLongitude()
    ensures DecimalText("-122.4") && DecimalValue("-122.4") == -122.4
  {
    assert SignLength("-122.4") == 1 && "-122.4"[1..] == "122.4";
    UnsignedLongitude();
  }

  /** The latitude-first text "37.7, -122.4" hands on -122.4 as its second number. */
  lemma LatitudeFirstSecondNumber()
    ensures NumberPair("37.7, -122.4").1 == Num(-122.4)
  {
    var a, w, b := "37.7", " ", "-122.4";
    assert FieldChars(a) && AllSpace(w) && FieldChars(b);
    assert "37.7, -122.4" == a + "," + (w + b);
    SplitFields(a, w, b);
    SignedLongitude();
    ConvertField(w, b);
  }
}
