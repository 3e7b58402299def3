/** Email normalisation as done by `normalizeEmail` in api/_lib/store.js:
    `(email || '').trim().toLowerCase()`. The normalised address is the only
    key of the `users` and `trials` tables. */
module Email {
  import opened Wrappers

  /** The characters JavaScript's `String.prototype.trim` removes: the
      WhiteSpace and LineTerminator code points of ECMAScript. */
  predicate IsWhitespace(c: char)
  {
    var n := c as int;
    n == 0x09 || n == 0x0A || n == 0x0B || n == 0x0C || n == 0x0D || n == 0x20
    || n == 0xA0 || n == 0x1680 || (0x2000 <= n <= 0x200A) || n == 0x2028
    || n == 0x2029 || n == 0x202F || n == 0x205F || n == 0x3000 || n == 0xFEFF
  }

  predicate AllWhitespace(s: string)
  {
    forall i :: 0 <= i < |s| ==> IsWhitespace(s[i])
  }

  /** No whitespace at either end. */
  predicate Trimmed(s: string)
  {
    s == [] || (!IsWhitespace(s[0]) && !IsWhitespace(s[|s| - 1]))
  }

  predicate IsAsciiUpper(c: char)
  {
    'A' <= c <= 'Z'
  }

  predicate NoUpper(s: string)
  {
    forall i :: 0 <= i < |s| ==> !IsAsciiUpper(s[i])
  }

  /** The shape of every key `normalizeEmail` produces. */
  predicate IsNormalized(s: string)
  {
    Trimmed(s) && NoUpper(s)
  }

  /** `s` without its leading whitespace. */
  function TrimStart(s: string): (r: string)
    ensures |r| <= |s|
  {
    if s != [] && IsWhitespace(s[0]) then TrimStart(s[1..]) else s
  }

  /** `s` without its trailing whitespace. */
  function TrimEnd(s: string): (r: string)
    ensures |r| <= |s|
  {
    if s != [] && IsWhitespace(s[|s| - 1]) then TrimEnd(s[..|s| - 1]) else s
  }

  /** `TrimStart(s)` is a suffix of `s`, what it drops is whitespace, and it
      does not start with whitespace. */
  lemma {:induction false} TrimStartSpec(s: string)
    ensures TrimStart(s) == s[|s| - |TrimStart(s)|..]
    ensures AllWhitespace(s[..|s| - |TrimStart(s)|])
    ensures TrimStart(s) == [] || !IsWhitespace(TrimStart(s)[0])
  {
    if s != [] && IsWhitespace(s[0]) {
      TrimStartSpec(s[1..]);
      var r := TrimStart(s);
      assert s[..|s| - |r|] == [s[0]] + s[1..][..|s| - 1 - |r|];
    }
  }

  /** `TrimEnd(s)` is a prefix of `s`, what it drops is whitespace, and it
      does not end with whitespace. */
  lemma {:induction false} TrimEndSpec(s: string)
    ensures TrimEnd(s) == s[..|TrimEnd(s)|]
    ensures AllWhitespace(s[|TrimEnd(s)|..])
    ensures TrimEnd(s) == [] || !IsWhitespace(TrimEnd(s)[|TrimEnd(s)| - 1])
  {
    if s != [] && IsWhitespace(s[|s| - 1]) {
      TrimEndSpec(s[..|s| - 1]);
      var r := TrimEnd(s);
      assert s[|r|..] == s[..|s| - 1][|r|..] + [s[|s| - 1]];
    }
  }

  /** `s.trim()`. */
  function Trim(s: string): (r: string)
    ensures Trimmed(r)
    ensures r == [] <==> AllWhitespace(s)
  {
    TrimStartSpec(s);
    TrimEndSpec(TrimStart(s));
    var u := TrimStart(s);
    var r := TrimEnd(u);
    assert r == [] ==> AllWhitespace(s) by {
      if r == [] {
        assert u[|r|..] == u;
        assert u == [];
        assert s[..|s|] == s;
      }
    }
    r
  }

  /** Lower-cases one character; only ASCII letters are mapped. */
  function LowerChar(c: char): (r: char)
    ensures !IsAsciiUpper(r)
    ensures IsWhitespace(r) == IsWhitespace(c)
    ensures !IsAsciiUpper(c) ==> r == c
  {
    if IsAsciiUpper(c) then (c as int + 32) as char else c
  }

  /** `s.toLowerCase()`, character by character. */
  function ToLower(s: string): (r: string)
    ensures |r| == |s|
  {
    if s == [] then [] else [LowerChar(s[0])] + ToLower(s[1..])
  }

  /** Each character of `ToLower(s)` is the lower-case form of the character
      at the same position of `s`. */
  lemma {:induction false} ToLowerAt(s: string, i: int)
    requires 0 <= i < |s|
    ensures ToLower(s)[i] == LowerChar(s[i])
  {
    if i > 0 {
      ToLowerAt(s[1..], i - 1);
    }
  }

  /** `ToLower` leaves no upper-case letter and keeps whitespace exactly
      where it was. */
  lemma ToLowerShape(s: string)
    ensures NoUpper(ToLower(s))
    ensures forall i :: 0 <= i < |s| ==> IsWhitespace(ToLower(s)[i]) == IsWhitespace(s[i])
  {
    forall i | 0 <= i < |s| ensures ToLower(s)[i] == LowerChar(s[i]) {
      ToLowerAt(s, i);
    }
  }

  /** `normalizeEmail(email)`; a missing argument reads as the empty string. */
  function NormalizeEmail(email: Option<string>): (r: string)
    ensures IsNormalized(r)
    ensures r == [] <==> email.None? || AllWhitespace(email.value)
  {
    var t := Trim(if email.Some? then email.value else "");
    ToLowerShape(t);
    ToLower(t)
  }

  lemma ToLowerAppend(a: string, b: string)
    ensures ToLower(a + b) == ToLower(a) + ToLower(b)
  {
    forall i | 0 <= i < |a + b| ensures ToLower(a + b)[i] == (ToLower(a) + ToLower(b))[i] {
      ToLowerAt(a + b, i);
      if i < |a| { ToLowerAt(a, i); } else { ToLowerAt(b, i - |a|); }
    }
  }

  /** Skipping leading whitespace in front of a piece that starts with a
      non-whitespace character leaves exactly that piece. */
  lemma {:induction false} TrimStartSkips(a: string, x: string)
    requires AllWhitespace(a)
    requires x == [] || !IsWhitespace(x[0])
    ensures TrimStart(a + x) == x
  {
    if a != [] {
      assert (a + x)[1..] == a[1..] + x;
      TrimStartSkips(a[1..], x);
    } else {
      assert a + x == x;
    }
  }

  lemma {:induction false} TrimEndSkips(x: string, b: string)
    requires AllWhitespace(b)
    requires x == [] || !IsWhitespace(x[|x| - 1])
    ensures TrimEnd(x + b) == x
  {
    if b != [] {
      assert (x + b)[..|x + b| - 1] == x + b[..|b| - 1];
      TrimEndSkips(x, b[..|b| - 1]);
    } else {
      assert x + b == x;
    }
  }

  /** Trim is determined by its result: whitespace padding around a trimmed
      core is removed, and nothing else is. */
  lemma TrimOfPadded(a: string, m: string, b: string)
    requires AllWhitespace(a) && AllWhitespace(b) && Trimmed(m)
    ensures Trim(a + m + b) == m
  {
    if m == [] {
      assert AllWhitespace(a + m + b);
    } else {
      assert a + m + b == a + (m + b);
      TrimStartSkips(a, m + b);
      TrimEndSkips(m, b);
    }
  }

  /** Every string is its trimmed core with whitespace on either side. */
  lemma TrimSplit(s: string) returns (a: string, b: string)
    ensures AllWhitespace(a) && AllWhitespace(b)
    ensures s == a + Trim(s) + b
  {
    var u := TrimStart(s);
    var r := TrimEnd(u);
    TrimStartSpec(s);
    TrimEndSpec(u);
    a := s[..|s| - |u|];
    b := u[|r|..];
    assert s == a + u && u == r + b && r == Trim(s);
    assert s == a + r + b by {
      assert a + u == a + (r + b) == a + r + b;
    }
  }

  /** Trimming and lower-casing commute, because lower-casing maps whitespace
      to whitespace and nothing else to whitespace. */
  lemma TrimToLowerCommute(s: string)
    ensures Trim(ToLower(s)) == ToLower(Trim(s))
  {
    var a, b := TrimSplit(s);
    var m := Trim(s);
    ToLowerAppend(a, m);
    ToLowerAppend(a + m, b);
    ToLowerShape(a);
    ToLowerShape(m);
    ToLowerShape(b);
    TrimOfPadded(ToLower(a), ToLower(m), ToLower(b));
  }

  lemma ToLowerKeepsLower(s: string)
    requires NoUpper(s)
    ensures ToLower(s) == s
  {
    forall i | 0 <= i < |s| ensures ToLower(s)[i] == s[i] {
      ToLowerAt(s, i);
    }
  }

  /** A normalised address is its own normal form. */
  lemma NormalizedIsFixed(s: string)
    requires IsNormalized(s)
    ensures NormalizeEmail(Some(s)) == s
  {
    assert Trim(s) == s by {
      TrimOfPadded([], s, []);
      assert [] + s + [] == s;
    }
    ToLowerKeepsLower(s);
  }

  /** `normalizeEmail` is idempotent. */
  lemma NormalizeIdempotent(email: Option<string>)
    ensures NormalizeEmail(Some(NormalizeEmail(email))) == NormalizeEmail(email)
  {
    NormalizedIsFixed(NormalizeEmail(email));
  }

  lemma AllWhitespaceAppend(x: string, y: string)
    requires AllWhitespace(x) && AllWhitespace(y)
    ensures AllWhitespace(x + y)
  {
    forall i | 0 <= i < |x + y| ensures IsWhitespace((x + y)[i]) {
      if i < |x| { assert (x + y)[i] == x[i]; } else { assert (x + y)[i] == y[i - |x|]; }
    }
  }

  /** Padding with more whitespace does not change what `trim` keeps. */
  lemma TrimIgnoresPadding(a: string, s: string, b: string)
    requires AllWhitespace(a) && AllWhitespace(b)
    ensures Trim(a + s + b) == Trim(s)
  {
    var a', b' := TrimSplit(s);
    var m := Trim(s);
    AllWhitespaceAppend(a, a');
    AllWhitespaceAppend(b', b);
    assert a + (a' + m + b') + b == (a + a') + m + (b' + b);
    TrimOfPadded(a + a', m, b' + b);
  }

  /** Surrounding whitespace does not change the key. */
  lemma NormalizeIgnoresPadding(a: string, s: string, b: string)
    requires AllWhitespace(a) && AllWhitespace(b)
    ensures NormalizeEmail(Some(a + s + b)) == NormalizeEmail(Some(s))
  {
    TrimIgnoresPadding(a, s, b);
  }

  /** Addresses that agree once lower-cased have the same key. */
  lemma NormalizeIgnoresCase(s: string, t: string)
    requires ToLower(s) == ToLower(t)
    ensures NormalizeEmail(Some(s)) == NormalizeEmail(Some(t))
  {
    TrimToLowerCommute(s);
    TrimToLowerCommute(t);
  }
}
