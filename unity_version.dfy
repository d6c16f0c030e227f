/**
 * Unity version strings of the form <major>.<minor>.<change><type><release>
 * (for instance 5.0.0p1): parsing, a lexicographic total order, printing,
 * hashing, and the feature gates the SDK derives from the running version.
 */
module UnityVersion {
  import opened Wrappers
  import opened Decimal
  import opened Int32

  /** A parsed version. `kind` is the release-type letter: a(lpha), b(eta), f(inal), p(atch). */
  datatype Version = Version(major: int, minor: int, change: int, kind: char, release: int)

  /** What the parsing constructor produces when the string does not have four numeric parts. */
  const Fallback := Version(0, 0, 0, 'a', 1)

  // ---------------------------------------------------------------------------------------
  // Splitting at non-digits

  /** Regex.Split(s, "[^0-9]"): the digit runs between successive non-digit characters. */
  function SplitNonDigits(s: string): (tokens: seq<string>)
    ensures |tokens| > 0
    ensures forall k :: 0 <= k < |tokens| ==> AllDigits(tokens[k])
  {
    if s == [] then [""]
    else
      var rest := SplitNonDigits(s[1..]);
      if IsDigit(s[0]) then [[s[0]] + rest[0]] + rest[1..] else [""] + rest
  }

  /** The non-digit characters of `s`, in order: the separators Regex.Split cut at. */
  function Separators(s: string): (seps: string)
    ensures forall k :: 0 <= k < |seps| ==> !IsDigit(seps[k])
  {
    if s == [] then [] else (if IsDigit(s[0]) then [] else [s[0]]) + Separators(s[1..])
  }

  /** Puts the tokens back together, with the separators between them. */
  function Interleave(tokens: seq<string>, seps: string): string
    requires |tokens| == |seps| + 1
  {
    if seps == [] then tokens[0] else tokens[0] + [seps[0]] + Interleave(tokens[1..], seps[1..])
  }

  /**
   * Splitting cuts at every non-digit and at nothing else: there is one token
   * more than separators, and putting them back together gives the string.
   */
  lemma {:induction false} SplitRoundTrip(s: string)
    ensures |SplitNonDigits(s)| == |Separators(s)| + 1
    ensures Interleave(SplitNonDigits(s), Separators(s)) == s
  {
    if s != [] {
      var t := s[1..];
      SplitRoundTrip(t);
      var rest, seps := SplitNonDigits(t), Separators(t);
      if IsDigit(s[0]) {
        assert SplitNonDigits(s) == [[s[0]] + rest[0]] + rest[1..];
        assert Separators(s) == seps;
        InterleaveExtendsHead(s[0], rest, seps);
      } else {
        assert SplitNonDigits(s) == [""] + rest;
        assert Separators(s) == [s[0]] + seps;
        assert Interleave([""] + rest, [s[0]] + seps) == "" + [s[0]] + Interleave(rest, seps);
      }
      assert s == [s[0]] + t;
    }
  }

  /** Putting a character in front of the first token puts it in front of the whole string. */
  lemma InterleaveExtendsHead(c: char, tokens: seq<string>, seps: string)
    requires |tokens| == |seps| + 1
    ensures Interleave([[c] + tokens[0]] + tokens[1..], seps) == [c] + Interleave(tokens, seps)
  {
    var longer := [[c] + tokens[0]] + tokens[1..];
    if seps != [] {
      assert longer[1..] == tokens[1..];
      assert Interleave(longer, seps) == ([c] + tokens[0]) + [seps[0]] + Interleave(tokens[1..], seps[1..]);
    }
  }

  lemma {:induction false} SplitDigitsThen(d: string, rest: string)
    requires AllDigits(d)
    ensures SplitNonDigits(d + rest)
         == [d + SplitNonDigits(rest)[0]] + SplitNonDigits(rest)[1..]
    decreases |d|
  {
    if d != [] {
      var x := SplitNonDigits(rest);
      var s := d + rest;
      assert s[0] == d[0] && IsDigit(s[0]);
      assert s[1..] == d[1..] + rest;
      SplitDigitsThen(d[1..], rest);
      var r := SplitNonDigits(s[1..]);
      assert r[0] == d[1..] + x[0] && r[1..] == x[1..];
      assert SplitNonDigits(s) == [[s[0]] + r[0]] + r[1..];
      assert [d[0]] + (d[1..] + x[0]) == d + x[0];
    } else {
      var x := SplitNonDigits(rest);
      assert d + rest == rest && d + x[0] == x[0];
      assert x == [x[0]] + x[1..];
    }
  }

  /** A digit run followed by a separator is one whole token. */
  lemma SplitToken(d: string, sep: char, rest: string)
    requires AllDigits(d) && !IsDigit(sep)
    ensures SplitNonDigits(d + [sep] + rest) == [d] + SplitNonDigits(rest)
  {
    assert d + [sep] + rest == d + ([sep] + rest);
    SplitDigitsThen(d, [sep] + rest);
    assert ([sep] + rest)[1..] == rest;
    var x := SplitNonDigits(rest);
    assert SplitNonDigits([sep] + rest) == [""] + x;
    assert d + "" == d;
  }

  lemma SplitLastToken(d: string)
    requires AllDigits(d)
    ensures SplitNonDigits(d) == [d]
  {
    assert d + [] == d;
    SplitDigitsThen(d, []);
  }

  // ---------------------------------------------------------------------------------------
  // Letters

  /** char.IsLetter, on the letters this model knows: the ASCII ones. */
  predicate IsLetter(c: char) { 'a' <= c <= 'z' || 'A' <= c <= 'Z' }

  predicate NoLetters(s: string) { forall i :: 0 <= i < |s| ==> !IsLetter(s[i]) }

  /** s.LastOrDefault(char.IsLetter), with `None` for the default '\0'. */
  function LastLetter(s: string): (r: Option<char>)
    ensures r.None? <==> NoLetters(s)
    ensures r.Some? ==> IsLetter(r.value)
  {
    if s == [] then None
    else if IsLetter(s[|s| - 1]) then Some(s[|s| - 1])
    else
      assert forall i :: 0 <= i < |s| - 1 ==> s[..|s| - 1][i] == s[i];
      LastLetter(s[..|s| - 1])
  }

  lemma {:induction false} LastLetterIs(p: string, c: char, d: string)
    requires IsLetter(c) && NoLetters(d)
    ensures LastLetter(p + [c] + d) == Some(c)
    decreases |d|
  {
    var s := p + [c] + d;
    if d == [] {
      assert s[|s| - 1] == c;
    } else {
      assert s[..|s| - 1] == p + [c] + d[..|d| - 1];
      LastLetterIs(p, c, d[..|d| - 1]);
    }
  }

  // ---------------------------------------------------------------------------------------
  // Parsing

  /** int.TryParse on a run of digits: whether it succeeds, and the value it writes (0 on failure). */
  function TryParseInt(token: string): (bool, int)
    requires AllDigits(token)
  {
    if token != [] && DigitsValue(token) <= IntMax then (true, DigitsValue(token)) else (false, 0)
  }

  /** Release candidates ('c') and final builds ('f') share one numbering. */
  function NormalizeKind(c: char): char { if c == 'c' then 'f' else c }

  /** The parsing constructor's result, and whether it judged the string a valid version. */
  datatype Parsed = Parsed(version: Version, valid: bool)

  /** new LVRUnityVersion(string). */
  function Parse(s: string): Parsed
  {
    var tokens := SplitNonDigits(s);
    if |tokens| != 4 then Parsed(Fallback, false)
    else
      var (ok0, major) := TryParseInt(tokens[0]);
      var (ok1, minor) := TryParseInt(tokens[1]);
      var (ok2, change) := TryParseInt(tokens[2]);
      var (ok3, release) := TryParseInt(tokens[3]);
      var letter := LastLetter(s);
      var kind := if letter.Some? then letter.value else 'a';
      Parsed(Version(major, minor, change, NormalizeKind(kind), release),
             ok0 && ok1 && ok2 && ok3 && letter.Some?)
  }

  /** The error the parsing constructor logs (it never throws); nothing for a valid string. */
  function ParseLog(s: string): seq<string>
  {
    var p := Parse(s);
    if p.valid then []
    else ["Encountered invalid Unity version string - Interpreted: " + s + " as: " + ToString(p.version)]
  }

  /** A token the parser accepts: non-empty and no larger than a C# `int`. */
  predicate GoodToken(t: string) requires AllDigits(t) { t != [] && DigitsValue(t) <= IntMax }

  /**
   * A string is a valid version exactly when it has three non-digit
   * characters (so four numeric parts), every part is a number that fits in
   * an `int`, and some character is a letter.
   */
  lemma ParseValid(s: string)
    ensures Parse(s).valid <==>
      && |SplitNonDigits(s)| == 4
      && (forall k :: 0 <= k < 4 ==> GoodToken(SplitNonDigits(s)[k]))
      && !NoLetters(s)
  {
    SplitRoundTrip(s);
    var t := SplitNonDigits(s);
    if |t| == 4 {
      assert (forall k :: 0 <= k < 4 ==> GoodToken(t[k])) <==>
        GoodToken(t[0]) && GoodToken(t[1]) && GoodToken(t[2]) && GoodToken(t[3]);
    }
  }

  /** A string without four numeric parts parses to 0.0.0a1 and is reported invalid. */
  lemma ParseFallback(s: string)
    requires |Separators(s)| != 3
    ensures Parse(s) == Parsed(Fallback, false)
    ensures |ParseLog(s)| == 1
  {
    SplitRoundTrip(s);
  }

  /**
   * The type of a four-part version is the last letter of the string,
   * with 'c' read as 'f'; it is never 'c'.
   */
  lemma ParseKind(s: string)
    requires |Separators(s)| == 3
    ensures Parse(s).version.kind != 'c'
    ensures !NoLetters(s) ==> Parse(s).version.kind == NormalizeKind(LastLetter(s).value)
    ensures NoLetters(s) ==> Parse(s).version.kind == 'a' && !Parse(s).valid
  {
    SplitRoundTrip(s);
  }

  // ---------------------------------------------------------------------------------------
  // Printing

  /** ToString(): major.minor.change, then the type letter and the release number. */
  function ToString(v: Version): string
  {
    IntToString(v.major) + "." + IntToString(v.minor) + "." + IntToString(v.change)
      + [v.kind] + IntToString(v.release)
  }

  /** A version that ToString renders in a form the parser reads back. */
  predicate Printable(v: Version)
  {
    && 0 <= v.major <= IntMax && 0 <= v.minor <= IntMax
    && 0 <= v.change <= IntMax && 0 <= v.release <= IntMax
    && IsLetter(v.kind) && v.kind != 'c'
  }

  lemma GoodNumber(n: nat)
    requires n <= IntMax
    ensures AllDigits(NatToString(n)) && TryParseInt(NatToString(n)) == (true, n)
    ensures NoLetters(NatToString(n))
  {
    NatToStringRoundTrip(n);
    NatToStringDigits(n);
  }

  /** The printed form, regrouped from the right so that it splits token by token. */
  lemma PrintedShape(a: string, b: string, c: string, k: char, r: string)
    ensures a + "." + b + "." + c + [k] + r == a + ['.'] + (b + ['.'] + (c + [k] + r))
  {
  }

  /** The printed form splits into the four printed numbers. */
  lemma SplitPrinted(v: Version)
    requires Printable(v)
    ensures SplitNonDigits(ToString(v))
         == [NatToString(v.major), NatToString(v.minor), NatToString(v.change), NatToString(v.release)]
  {
    var a, b, c, r := NatToString(v.major), NatToString(v.minor), NatToString(v.change), NatToString(v.release);
    GoodNumber(v.major); GoodNumber(v.minor); GoodNumber(v.change); GoodNumber(v.release);
    var t3 := c + [v.kind] + r;
    SplitToken(c, v.kind, r);
    SplitLastToken(r);
    assert SplitNonDigits(t3) == [c, r];
    var t2 := b + ['.'] + t3;
    SplitToken(b, '.', t3);
    assert SplitNonDigits(t2) == [b, c, r];
    SplitToken(a, '.', t2);
    PrintedShape(a, b, c, v.kind, r);
  }

  /** The last letter of the printed form is the type letter. */
  lemma LastLetterPrinted(v: Version)
    requires Printable(v)
    ensures LastLetter(ToString(v)) == Some(v.kind)
  {
    var r := NatToString(v.release);
    GoodNumber(v.release);
    var p := IntToString(v.major) + "." + IntToString(v.minor) + "." + IntToString(v.change);
    assert ToString(v) == p + [v.kind] + r;
    LastLetterIs(p, v.kind, r);
  }

  /** Parsing the printed form of a printable version gives the version back, judged valid. */
  lemma ParseToString(v: Version)
    requires Printable(v)
    ensures Parse(ToString(v)) == Parsed(v, true)
  {
    SplitPrinted(v);
    LastLetterPrinted(v);
    GoodNumber(v.major); GoodNumber(v.minor); GoodNumber(v.change); GoodNumber(v.release);
  }

  // ---------------------------------------------------------------------------------------
  // Ordering

  /** int.CompareTo: -1, 0 or 1. */
  function IntCompare(a: int, b: int): int { if a < b then -1 else if a > b then 1 else 0 }

  /** char.CompareTo: the difference of the two code points. */
  function CharCompare(a: char, b: char): int { (a as int) - (b as int) }

  /** CompareTo(LVRUnityVersion): field by field, the first difference decides. */
  function CompareTo(v: Version, w: Version): int
  {
    var majorCheck := IntCompare(v.major, w.major);
    if majorCheck != 0 then majorCheck else
    var minorCheck := IntCompare(v.minor, w.minor);
    if minorCheck != 0 then minorCheck else
    var changeCheck := IntCompare(v.change, w.change);
    if changeCheck != 0 then changeCheck else
    var typeCheck := CharCompare(v.kind, w.kind);
    if typeCheck != 0 then typeCheck else
    IntCompare(v.release, w.release)
  }

  /** The fields in comparison order, as integers: the reference view of the order. */
  function Key(v: Version): seq<int>
  {
    [v.major, v.minor, v.change, v.kind as int, v.release]
  }

  /** Strict lexicographic order on equally long integer sequences. */
  predicate LexLess(a: seq<int>, b: seq<int>)
    requires |a| == |b|
  {
    a != [] && (a[0] < b[0] || (a[0] == b[0] && LexLess(a[1..], b[1..])))
  }

  lemma {:induction false} LexLessTransitive(a: seq<int>, b: seq<int>, c: seq<int>)
    requires |a| == |b| == |c|
    requires LexLess(a, b) && LexLess(b, c)
    ensures LexLess(a, c)
  {
    if a[0] == b[0] && b[0] == c[0] {
      LexLessTransitive(a[1..], b[1..], c[1..]);
    }
  }

  lemma {:induction false} LexLessTotal(a: seq<int>, b: seq<int>)
    requires |a| == |b|
    ensures a == b || LexLess(a, b) || LexLess(b, a)
    ensures !(LexLess(a, b) && LexLess(b, a))
    ensures !LexLess(a, a)
  {
    if a != [] {
      LexLessTotal(a[1..], b[1..]);
      if a[0] == b[0] && a[1..] == b[1..] {
        assert a == [a[0]] + a[1..] && b == [b[0]] + b[1..];
      }
    }
  }

  /**
   * CompareTo is the lexicographic order on (major, minor, change, type,
   * release): negative exactly when v comes first, zero exactly when all five
   * fields agree.
   */
  lemma CompareToIsLexicographic(v: Version, w: Version)
    ensures CompareTo(v, w) < 0 <==> LexLess(Key(v), Key(w))
    ensures CompareTo(v, w) > 0 <==> LexLess(Key(w), Key(v))
    ensures CompareTo(v, w) == 0 <==> v == w
  {
    var a, b := Key(v), Key(w);
    var a1, b1 := a[1..], b[1..];
    var a2, b2 := a1[1..], b1[1..];
    var a3, b3 := a2[1..], b2[1..];
    var a4, b4 := a3[1..], b3[1..];
    assert a4[1..] == [] && b4[1..] == [];
    assert LexLess(a4, b4) <==> a4[0] < b4[0];
    assert LexLess(b4, a4) <==> b4[0] < a4[0];
    assert LexLess(a3, b3) <==> a3[0] < b3[0] || (a3[0] == b3[0] && LexLess(a4, b4));
    assert LexLess(b3, a3) <==> b3[0] < a3[0] || (a3[0] == b3[0] && LexLess(b4, a4));
    assert LexLess(a2, b2) <==> a2[0] < b2[0] || (a2[0] == b2[0] && LexLess(a3, b3));
    assert LexLess(b2, a2) <==> b2[0] < a2[0] || (a2[0] == b2[0] && LexLess(b3, a3));
    assert LexLess(a1, b1) <==> a1[0] < b1[0] || (a1[0] == b1[0] && LexLess(a2, b2));
    assert LexLess(b1, a1) <==> b1[0] < a1[0] || (a1[0] == b1[0] && LexLess(b2, a2));
    assert LexLess(a, b) <==> a[0] < b[0] || (a[0] == b[0] && LexLess(a1, b1));
    assert LexLess(b, a) <==> b[0] < a[0] || (a[0] == b[0] && LexLess(b1, a1));
    if v.kind as int == w.kind as int {
      assert v.kind == w.kind;
    }
  }

  /** Sign of an integer: -1, 0 or 1. */
  function Sign(x: int): int { if x < 0 then -1 else if x > 0 then 1 else 0 }

  /** CompareTo is antisymmetric in sign and transitive: a total order. */
  lemma CompareToTotalOrder(u: Version, v: Version, w: Version)
    ensures Sign(CompareTo(u, v)) == -Sign(CompareTo(v, u))
    ensures CompareTo(u, v) <= 0 && CompareTo(v, w) <= 0 ==> CompareTo(u, w) <= 0
    ensures CompareTo(u, v) < 0 && CompareTo(v, w) <= 0 ==> CompareTo(u, w) < 0
  {
    CompareToIsLexicographic(u, v);
    CompareToIsLexicographic(v, u);
    CompareToIsLexicographic(v, w);
    CompareToIsLexicographic(u, w);
    if LexLess(Key(u), Key(v)) && LexLess(Key(v), Key(w)) {
      LexLessTransitive(Key(u), Key(v), Key(w));
    }
  }

  /** The six relational operators of LVRUnityVersion. */
  datatype Relation = Lt | Le | Gt | Ge | Eq | Ne

  /** What a relational operator concludes from a CompareTo result. */
  function Holds(rel: Relation, c: int): bool
  {
    match rel
    case Lt => c < 0
    case Le => c <= 0
    case Gt => c > 0
    case Ge => c >= 0
    case Eq => c == 0
    case Ne => c != 0
  }

  /** An operator with two version operands. */
  function Compare(rel: Relation, v: Version, w: Version): bool
  {
    Holds(rel, CompareTo(v, w))
  }

  /** CompareTo(string): a null string compares below every version; otherwise it is parsed. */
  function CompareToString(v: Version, s: Option<string>): int
  {
    if s.None? then 1 else CompareTo(v, Parse(s.value).version)
  }

  /** An operator with a version and a string operand. */
  function CompareWithString(rel: Relation, v: Version, s: Option<string>): bool
  {
    Holds(rel, CompareToString(v, s))
  }

  /** The operators, for both kinds of operand, are the reference order on the fields. */
  lemma OperatorsAreLexicographic(v: Version, w: Version, s: string)
    ensures Compare(Lt, v, w) <==> LexLess(Key(v), Key(w))
    ensures Compare(Le, v, w) <==> !LexLess(Key(w), Key(v))
    ensures Compare(Gt, v, w) <==> LexLess(Key(w), Key(v))
    ensures Compare(Ge, v, w) <==> !LexLess(Key(v), Key(w))
    ensures Compare(Eq, v, w) <==> v == w
    ensures Compare(Ne, v, w) <==> v != w
    ensures forall rel :: CompareWithString(rel, v, Some(s)) == Compare(rel, v, Parse(s).version)
    ensures CompareToString(v, None) == 1
  {
    CompareToIsLexicographic(v, w);
  }

  // ---------------------------------------------------------------------------------------
  // Equality and hashing

  /** The operands Equals(object) may receive. */
  datatype Object = Null | VersionObject(version: Version) | StringObject(text: string) | OtherObject

  /** Equals(object). */
  function Equals(v: Version, obj: Object): bool
  {
    match obj
    case Null => false
    case VersionObject(w) => Compare(Eq, v, w)
    case StringObject(s) => CompareWithString(Eq, v, Some(s))
    case OtherObject => false
  }

  /** Equals holds of a version exactly when its fields agree; a string is parsed first. */
  lemma EqualsMeansSameFields(v: Version, obj: Object)
    ensures Equals(v, obj) <==>
      (obj.VersionObject? && obj.version == v) || (obj.StringObject? && Parse(obj.text).version == v)
  {
    match obj
    case VersionObject(w) => CompareToIsLexicographic(v, w);
    case StringObject(s) => CompareToIsLexicographic(v, Parse(s).version);
    case _ =>
  }

  /** char.GetHashCode: the UTF-16 code unit in both halves of the word. */
  function CharHash(c: char): int { Wrap32((c as int) * 0x1_0001) }

  /** One step of the hash: hash * 23 + h, unchecked. */
  function HashStep(hash: int, h: int): int { Wrap32(hash * 23 + h) }

  /** GetHashCode(). */
  function HashCode(v: Version): int
  {
    HashStep(HashStep(HashStep(HashStep(HashStep(17, v.major), v.minor), v.change), CharHash(v.kind)), v.release)
  }

  /** Versions the == operator calls equal have equal hash codes, and every hash code fits in an `int`. */
  lemma HashAgreesWithEquality(v: Version, w: Version)
    ensures Compare(Eq, v, w) ==> HashCode(v) == HashCode(w)
    ensures -TwoTo31 <= HashCode(v) < TwoTo31
  {
    CompareToIsLexicographic(v, w);
  }

  // ---------------------------------------------------------------------------------------
  // Feature gates

  /** hasPreInitSupport: switched off for every Unity version. */
  function HasPreInitSupport(v: Version): bool { false }

  /** hasD3D9ExclusiveModeSupport, written with the string operators as the source writes it. */
  function HasD3D9ExclusiveModeSupport(v: Version): bool
  {
    var unsupported :=
         (CompareWithString(Ge, v, Some("4.5.2p2")) && CompareWithString(Lt, v, Some("4.5.5b1")))
      || (CompareWithString(Ge, v, Some("4.6.0b1")) && CompareWithString(Lt, v, Some("4.6.0b21")));
    !unsupported
  }

  /** hasD3D11ExclusiveModeSupport, written with the string operators as the source writes it. */
  function HasD3D11ExclusiveModeSupport(v: Version): bool
  {
    var unsupported :=
         (CompareWithString(Ge, v, Some("4.5.2p2")) && CompareWithString(Lt, v, Some("4.5.5p3")))
      || (CompareWithString(Ge, v, Some("4.6.0b1")) && CompareWithString(Lt, v, Some("4.6.0b22")))
      || (CompareWithString(Ge, v, Some("5.0.0b1")) && CompareWithString(Lt, v, Some("5.0.0b19")));
    !unsupported
  }

  /** v lies in the half-open range [lo, hi) of the reference order. */
  predicate InRange(v: Version, lo: Version, hi: Version)
  {
    !LexLess(Key(v), Key(lo)) && LexLess(Key(v), Key(hi))
  }

  /** A literal the gates compare against parses to the version it spells. */
  lemma GateLiteral(v: Version, s: string)
    requires Printable(v) && s == ToString(v)
    ensures Parse(s) == Parsed(v, true)
  {
    ParseToString(v);
  }

  lemma Literal_4_5_2p2()
    ensures Parse("4.5.2p2") == Parsed(Version(4, 5, 2, 'p', 2), true)
  {
    assert ToString(Version(4, 5, 2, 'p', 2)) == "4.5.2p2";
    GateLiteral(Version(4, 5, 2, 'p', 2), "4.5.2p2");
  }

  lemma Literal_4_5_5b1()
    ensures Parse("4.5.5b1") == Parsed(Version(4, 5, 5, 'b', 1), true)
  {
    assert ToString(Version(4, 5, 5, 'b', 1)) == "4.5.5b1";
    GateLiteral(Version(4, 5, 5, 'b', 1), "4.5.5b1");
  }

  lemma Literal_4_5_5p3()
    ensures Parse("4.5.5p3") == Parsed(Version(4, 5, 5, 'p', 3), true)
  {
    assert ToString(Version(4, 5, 5, 'p', 3)) == "4.5.5p3";
    GateLiteral(Version(4, 5, 5, 'p', 3), "4.5.5p3");
  }

  lemma Literal_4_6_0b1()
    ensures Parse("4.6.0b1") == Parsed(Version(4, 6, 0, 'b', 1), true)
  {
    assert ToString(Version(4, 6, 0, 'b', 1)) == "4.6.0b1";
    GateLiteral(Version(4, 6, 0, 'b', 1), "4.6.0b1");
  }

  lemma Literal_4_6_0b21()
    ensures Parse("4.6.0b21") == Parsed(Version(4, 6, 0, 'b', 21), true)
  {
    assert ToString(Version(4, 6, 0, 'b', 21)) == "4.6.0b21";
    GateLiteral(Version(4, 6, 0, 'b', 21), "4.6.0b21");
  }

  lemma Literal_4_6_0b22()
    ensures Parse("4.6.0b22") == Parsed(Version(4, 6, 0, 'b', 22), true)
  {
    assert ToString(Version(4, 6, 0, 'b', 22)) == "4.6.0b22";
    GateLiteral(Version(4, 6, 0, 'b', 22), "4.6.0b22");
  }

  lemma Literal_5_0_0b1()
    ensures Parse("5.0.0b1") == Parsed(Version(5, 0, 0, 'b', 1), true)
  {
    assert ToString(Version(5, 0, 0, 'b', 1)) == "5.0.0b1";
    GateLiteral(Version(5, 0, 0, 'b', 1), "5.0.0b1");
  }

  lemma Literal_5_0_0b19()
    ensures Parse("5.0.0b19") == Parsed(Version(5, 0, 0, 'b', 19), true)
  {
    assert ToString(Version(5, 0, 0, 'b', 19)) == "5.0.0b19";
    GateLiteral(Version(5, 0, 0, 'b', 19), "5.0.0b19");
  }

  /** One range test of a gate: `v >= lo && v < hi` with the bounds given as strings that parse to `lo` and `hi`. */
  lemma RangeTest(v: Version, lo: Version, hi: Version, los: string, his: string)
    requires Parse(los).version == lo && Parse(his).version == hi
    ensures (CompareWithString(Ge, v, Some(los)) && CompareWithString(Lt, v, Some(his))) <==> InRange(v, lo, hi)
  {
    CompareToIsLexicographic(v, lo);
    CompareToIsLexicographic(v, hi);
  }

  /** D3D9 exclusive mode is unsupported exactly on [4.5.2p2, 4.5.5b1) and [4.6.0b1, 4.6.0b21). */
  lemma D3D9Ranges(v: Version)
    ensures !HasD3D9ExclusiveModeSupport(v) <==>
      (|| InRange(v, Version(4, 5, 2, 'p', 2), Version(4, 5, 5, 'b', 1))
       || InRange(v, Version(4, 6, 0, 'b', 1), Version(4, 6, 0, 'b', 21)))
  {
    Literal_4_5_2p2(); Literal_4_5_5b1(); Literal_4_6_0b1(); Literal_4_6_0b21();
    RangeTest(v, Version(4, 5, 2, 'p', 2), Version(4, 5, 5, 'b', 1), "4.5.2p2", "4.5.5b1");
    RangeTest(v, Version(4, 6, 0, 'b', 1), Version(4, 6, 0, 'b', 21), "4.6.0b1", "4.6.0b21");
  }

  /**
   * D3D11 exclusive mode is unsupported exactly on [4.5.2p2, 4.5.5p3),
   * [4.6.0b1, 4.6.0b22) and [5.0.0b1, 5.0.0b19).
   */
  lemma D3D11Ranges(v: Version)
    ensures !HasD3D11ExclusiveModeSupport(v) <==>
      (|| InRange(v, Version(4, 5, 2, 'p', 2), Version(4, 5, 5, 'p', 3))
       || InRange(v, Version(4, 6, 0, 'b', 1), Version(4, 6, 0, 'b', 22))
       || InRange(v, Version(5, 0, 0, 'b', 1), Version(5, 0, 0, 'b', 19)))
  {
    Literal_4_5_2p2(); Literal_4_5_5p3(); Literal_4_6_0b1(); Literal_4_6_0b22();
    Literal_5_0_0b1(); Literal_5_0_0b19();
    RangeTest(v, Version(4, 5, 2, 'p', 2), Version(4, 5, 5, 'p', 3), "4.5.2p2", "4.5.5p3");
    RangeTest(v, Version(4, 6, 0, 'b', 1), Version(4, 6, 0, 'b', 22), "4.6.0b1", "4.6.0b22");
    RangeTest(v, Version(5, 0, 0, 'b', 1), Version(5, 0, 0, 'b', 19), "5.0.0b1", "5.0.0b19");
  }

  // ---------------------------------------------------------------------------------------
  // The memoised `version` property

  /** LVRUnityVersionChecker's static state: the running Unity version, parsed on first use. */
  class VersionChecker {
    /** Application.unityVersion, fixed for the life of the checker. */
    const unityVersion: string
    var cachedVersion: Version
    var cachedVersionInitialized: bool
    /** Messages sent to Debug.LogError. */
    var errorLog: seq<string>

    ghost predicate Valid()
      reads this
    {
      cachedVersionInitialized ==> cachedVersion == Parse(unityVersion).version
    }

    constructor (unityVersion: string)
      ensures Valid() && this.unityVersion == unityVersion
      ensures !cachedVersionInitialized && errorLog == []
    {
      this.unityVersion := unityVersion;
      cachedVersion := Version(0, 0, 0, '\0', 0);
      cachedVersionInitialized := false;
      errorLog := [];
    }

    /** The `version` getter: parses on the first read only; later reads return the cached value. */
    method GetVersion() returns (v: Version)
      requires Valid()
      modifies this`cachedVersion, this`cachedVersionInitialized, this`errorLog
      ensures Valid() && cachedVersionInitialized
      ensures v == Parse(unityVersion).version && v == cachedVersion
      ensures old(cachedVersionInitialized) ==> errorLog == old(errorLog) && cachedVersion == old(cachedVersion)
      ensures !old(cachedVersionInitialized) ==> errorLog == old(errorLog) + ParseLog(unityVersion)
    {
      if !cachedVersionInitialized {
        cachedVersion := Parse(unityVersion).version;
        errorLog := errorLog + ParseLog(unityVersion);
        cachedVersionInitialized := true;
      }
      v := cachedVersion;
    }

    /** hasD3D9ExclusiveModeSupport for the running version. */
    method D3D9ExclusiveModeSupported() returns (b: bool)
      requires Valid()
      modifies this`cachedVersion, this`cachedVersionInitialized, this`errorLog
      ensures Valid() && cachedVersionInitialized
      ensures b == HasD3D9ExclusiveModeSupport(Parse(unityVersion).version)
      ensures old(cachedVersionInitialized) ==> errorLog == old(errorLog) && cachedVersion == old(cachedVersion)
      ensures !old(cachedVersionInitialized) ==> errorLog == old(errorLog) + ParseLog(unityVersion)
    {
      var v := GetVersion();
      b := HasD3D9ExclusiveModeSupport(v);
    }

    /** hasD3D11ExclusiveModeSupport for the running version. */
    method D3D11ExclusiveModeSupported() returns (b: bool)
      requires Valid()
      modifies this`cachedVersion, this`cachedVersionInitialized, this`errorLog
      ensures Valid() && cachedVersionInitialized
      ensures b == HasD3D11ExclusiveModeSupport(Parse(unityVersion).version)
      ensures old(cachedVersionInitialized) ==> errorLog == old(errorLog) && cachedVersion == old(cachedVersion)
      ensures !old(cachedVersionInitialized) ==> errorLog == old(errorLog) + ParseLog(unityVersion)
    {
      var v := GetVersion();
      b := HasD3D11ExclusiveModeSupport(v);
    }
  }
}
