/**
 * The parts of JavaScript's value semantics the screens depend on:
 * numbers that may be NaN or infinite, the comparisons on them, and
 * `String.prototype.trim`.
 */
module JsValues {

  /**
   * A JavaScript number as the screens can tell it apart: not-a-number,
   * a finite value, or an infinity (`negative` picks its sign).
   */
  datatype JsNumber = NaN | Finite(value: real) | Infinity(negative: bool)

  /** `n < bound` in JavaScript: false whenever `n` is NaN. */
  predicate LessThan(n: JsNumber, bound: real) {
    match n
    case NaN => false
    case Finite(v) => v < bound
    case Infinity(negative) => negative
  }

  /** `n > bound` in JavaScript: false whenever `n` is NaN. */
  predicate GreaterThan(n: JsNumber, bound: real) {
    match n
    case NaN => false
    case Finite(v) => v > bound
    case Infinity(negative) => !negative
  }

  /** `n` is a finite number in the closed interval [-bound, bound]. */
  predicate WithinBounds(n: JsNumber, bound: real) {
    n.Finite? && -bound <= n.value <= bound
  }

  /**
   * For a number that is not NaN, the two JavaScript comparisons that
   * reject it are exactly the complement of lying within the bounds;
   * in particular both ends of the interval are accepted.
   */
  lemma OutsideBounds(n: JsNumber, bound: real)
    requires !n.NaN?
    ensures LessThan(n, -bound) || GreaterThan(n, bound) <==> !WithinBounds(n, bound)
  {
  }

  /**
   * The characters `trim` removes: ECMAScript's WhiteSpace (tab, vertical
   * tab, form feed, space, no-break space, byte order mark and every
   * space separator) and LineTerminator (LF, CR, U+2028, U+2029).
   */
  predicate IsWhitespace(c: char) {
    var n := c as int;
    (0x09 <= n <= 0x0D) || n == 0x20 || n == 0xA0 || n == 0x1680 || (0x2000 <= n <= 0x200A) ||
    (0x2028 <= n <= 0x2029) || n == 0x202F || n == 0x205F || n == 0x3000 || n == 0xFEFF
  }

  /** Every character of `s` is whitespace (the empty string included). */
  predicate Blank(s: string) {
    forall k :: 0 <= k < |s| ==> IsWhitespace(s[k])
  }

  /** A concatenation is blank exactly when both of its parts are. */
  lemma BlankConcat(a: string, b: string)
    ensures Blank(a + b) <==> Blank(a) && Blank(b)
  {
    if Blank(a) && Blank(b) {
      forall k | 0 <= k < |a + b| ensures IsWhitespace((a + b)[k]) {
        if k < |a| { assert (a + b)[k] == a[k]; } else { assert (a + b)[k] == b[k - |a|]; }
      }
    }
    if Blank(a + b) {
      forall k | 0 <= k < |a| ensures IsWhitespace(a[k]) {
        assert (a + b)[k] == a[k];
      }
      forall k | 0 <= k < |b| ensures IsWhitespace(b[k]) {
        assert (a + b)[|a| + k] == b[k];
      }
    }
  }

  /** `s` with its leading whitespace removed: a suffix of `s`. */
  function TrimStart(s: string): (r: string)
    ensures |r| <= |s| && r == s[|s| - |r|..]
    ensures Blank(s[..|s| - |r|])
    ensures r != [] ==> !IsWhitespace(r[0])
  {
    if s != [] && IsWhitespace(s[0]) then
      var r := TrimStart(s[1..]);
      assert s[..|s| - |r|] == [s[0]] + s[1..][..|s| - 1 - |r|];
      BlankConcat([s[0]], s[1..][..|s| - 1 - |r|]);
      r
    else
      s
  }

  /** `s` with its trailing whitespace removed: a prefix of `s`. */
  function TrimEnd(s: string): (r: string)
    ensures |r| <= |s| && r == s[..|r|]
    ensures Blank(s[|r|..])
    ensures r != [] ==> !IsWhitespace(r[|r| - 1])
  {
    if s != [] && IsWhitespace(s[|s| - 1]) then
      var r := TrimEnd(s[..|s| - 1]);
      assert s[|r|..] == s[..|s| - 1][|r|..] + [s[|s| - 1]];
      BlankConcat(s[..|s| - 1][|r|..], [s[|s| - 1]]);
      r
    else
      s
  }

  /**
   * Cutting a blank prefix `s[..i]` off `s` and then a blank suffix off the
   * rest `t` leaves a middle `r` of `s` with blank text on either side; if
   * `t` does not start with whitespace, `r` is empty only for a blank `s`.
   */
  lemma CutBlankEnds(s: string, i: nat, t: string, r: string)
    requires i <= |s| && t == s[i..] && Blank(s[..i])
    requires |r| <= |t| && r == t[..|r|] && Blank(t[|r|..])
    requires t != [] ==> !IsWhitespace(t[0])
    ensures i + |r| <= |s| && r == s[i..i + |r|] && Blank(s[i + |r|..])
    ensures r == [] <==> Blank(s)
  {
    assert s[i + |r|..] == t[|r|..];
    assert s == s[..i] + t;
    BlankConcat(s[..i], t);
  }

  /**
   * `String.prototype.trim`. It is empty exactly when `s` is blank, and
   * otherwise starts and ends with a character that is not whitespace;
   * `TrimIsMiddle` locates it inside `s`.
   */
  function Trim(s: string): (r: string)
    ensures |r| <= |s|
    ensures r == [] <==> Blank(s)
    ensures r != [] ==> !IsWhitespace(r[0]) && !IsWhitespace(r[|r| - 1])
  {
    var t := TrimStart(s);
    var r := TrimEnd(t);
    CutBlankEnds(s, |s| - |t|, t, r);
    r
  }

  /**
   * `trim` returns the middle of `s` left once a blank prefix `s[..i]` and
   * a blank suffix are removed.
   */
  lemma TrimIsMiddle(s: string) returns (i: nat)
    ensures i + |Trim(s)| <= |s| && Trim(s) == s[i..i + |Trim(s)|]
    ensures Blank(s[..i]) && Blank(s[i + |Trim(s)|..])
  {
    var t := TrimStart(s);
    var r := TrimEnd(t);
    assert Trim(s) == r;
    i := |s| - |t|;
    CutBlankEnds(s, i, t, r);
  }

  /** A string with no whitespace at either end is its own trim. */
  lemma TrimKeeps(s: string)
    requires s == [] || (!IsWhitespace(s[0]) && !IsWhitespace(s[|s| - 1]))
    ensures Trim(s) == s
  {
  }

  /** Trimming twice is trimming once. */
  lemma TrimIdempotent(s: string)
    ensures Trim(Trim(s)) == Trim(s)
  {
  }
}
