/** The slice of JavaScript's runtime semantics that the audit helper and the
    API route handlers rely on: loosely typed values and their truthiness,
    `String.prototype.trim`, `String.prototype.includes`, and the values a
    failing call can throw. */
module JsValue {

  datatype Option<+T> = None | Some(value: T)

  /** A value read from a snapshot or a request body.  `Undefined` is what
      JavaScript yields for an absent property.  `Decimal` stands for a Prisma
      `Decimal` object: an object that exposes `toNumber()`.  Numbers are
      modelled as integers; dates reach this code already serialized, as
      strings. */
  datatype Value =
    | Undefined
    | Null
    | Bool(b: bool)
    | Str(s: string)
    | Num(n: int)
    | Decimal(d: int)

  /** JavaScript truthiness: `undefined`, `null`, `false`, `""` and `0` are
      falsy; every object, the decimal wrapper included, is truthy. */
  predicate Truthy(v: Value)
    ensures !Truthy(v) <==> v in {Undefined, Null, Bool(false), Str(""), Num(0)}
  {
    match v
    case Undefined => false
    case Null => false
    case Bool(b) => b
    case Str(s) => s != ""
    case Num(n) => n != 0
    case Decimal(_) => true
  }

  /** What a failing call throws: an `Error` instance carrying a message, or
      some other thrown value. */
  datatype Thrown = ErrorObject(message: string) | OtherThrown

  datatype Result<+T> = Ok(value: T) | Err(error: Thrown)

  datatype Outcome = Pass | Fail(error: Thrown)

  /** The outcome of `request.json()`: a parse failure throws. */
  datatype RequestBody<+T> = Unparsable(error: Thrown) | Json(value: T)

  /** ECMAScript WhiteSpace and LineTerminator code points: the characters
      that `trim` removes. */
  predicate IsWhiteSpace(c: char)
  {
    || c == '\t' || c == '\n' || c == '\U{000B}' || c == '\U{000C}' || c == '\r'
    || c == ' ' || c == '\U{00A0}' || c == '\U{1680}'
    || ('\U{2000}' <= c <= '\U{200A}')
    || c == '\U{2028}' || c == '\U{2029}' || c == '\U{202F}' || c == '\U{205F}'
    || c == '\U{3000}' || c == '\U{FEFF}'
  }

  /** Every character of `s` from index `lo` up to `hi` is white space. */
  predicate WhiteSpaceBetween(s: string, lo: int, hi: int)
    requires 0 <= lo && hi <= |s|
  {
    forall k :: lo <= k < hi ==> IsWhiteSpace(s[k])
  }

  /** `t` occurs in `s` starting at index `i`. */
  predicate OccursAt(s: string, t: string, i: nat)
  {
    i + |t| <= |s| && s[i..i + |t|] == t
  }

  /** Where `s` stops being white space, searching forwards from `i`. */
  function SkipForward(s: string, i: nat): (n: nat)
    requires i <= |s|
    ensures i <= n <= |s| && WhiteSpaceBetween(s, i, n)
    ensures n == |s| || !IsWhiteSpace(s[n])
    decreases |s| - i
  {
    if i < |s| && IsWhiteSpace(s[i]) then SkipForward(s, i + 1) else i
  }

  /** Where `s` stops being white space, searching backwards from `j` but not
      below `lo`. */
  function SkipBackward(s: string, lo: nat, j: nat): (m: nat)
    requires lo <= j <= |s|
    ensures lo <= m <= j && WhiteSpaceBetween(s, m, j)
    ensures m == lo || !IsWhiteSpace(s[m - 1])
    decreases j
  {
    if lo < j && IsWhiteSpace(s[j - 1]) then SkipBackward(s, lo, j - 1) else j
  }

  /** `String.prototype.trim`: the stretch of `s` that neither starts nor
      ends with white space, with only white space around it. */
  function Trim(s: string): (r: string)
    ensures exists i: nat :: OccursAt(s, r, i) && WhiteSpaceBetween(s, 0, i) && WhiteSpaceBetween(s, i + |r|, |s|)
    ensures r == [] || (!IsWhiteSpace(r[0]) && !IsWhiteSpace(r[|r| - 1]))
  {
    var i := SkipForward(s, 0);
    var j := SkipBackward(s, i, |s|);
    assert OccursAt(s, s[i..j], i);
    s[i..j]
  }

  /** A string trims to nothing exactly when it is all white space. */
  lemma TrimEmptyIff(s: string)
    ensures Trim(s) == [] <==> WhiteSpaceBetween(s, 0, |s|)
  {
  }

  /** Trimming twice changes nothing more than trimming once. */
  lemma TrimIdempotent(s: string)
    ensures Trim(Trim(s)) == Trim(s)
  {
  }

  /** `String.prototype.includes`. */
  function Includes(s: string, t: string): (r: bool)
    ensures t == [] ==> r
    ensures r ==> |t| <= |s|
    decreases |s|
  {
    if OccursAt(s, t, 0) then true
    else if |s| == 0 then false
    else Includes(s[1..], t)
  }

  /** `s.includes(t)` holds exactly when `t` occurs in `s` at some index. */
  lemma {:induction false} IncludesIff(s: string, t: string)
    ensures Includes(s, t) <==> exists i: nat :: OccursAt(s, t, i)
    decreases |s|
  {
    if OccursAt(s, t, 0) {
    } else if |s| == 0 {
    } else {
      IncludesIff(s[1..], t);
      forall i: nat ensures OccursAt(s[1..], t, i) <==> OccursAt(s, t, i + 1) {
        if i + 1 + |t| <= |s| {
          assert s[1..][i..i + |t|] == s[i + 1..i + 1 + |t|];
        }
      }
      if Includes(s, t) {
        var i: nat :| OccursAt(s[1..], t, i);
        assert OccursAt(s, t, i + 1);
      } else {
        forall i: nat ensures !OccursAt(s, t, i) {
          if i > 0 {
            assert !OccursAt(s[1..], t, i - 1);
          }
        }
      }
    }
  }
}
