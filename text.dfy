/** The string operations the handlers rely on: Python's `str.strip()`,
    SQLite's text ordering and SQLite's case-insensitive LIKE. */
module Text {

  /** Python's `str.isspace()` for a single character. */
  predicate IsSpace(c: char) {
    c == ' ' || ('\t' <= c <= '\r') || ('\U{1C}' <= c <= '\U{1F}') ||
    c == '\U{85}' || c == '\U{A0}' || c == '\U{1680}' || ('\U{2000}' <= c <= '\U{200A}') ||
    c == '\U{2028}' || c == '\U{2029}' || c == '\U{202F}' || c == '\U{205F}' || c == '\U{3000}'
  }

  /** Drops leading whitespace. */
  function TrimStart(s: string): (r: string)
    ensures |r| <= |s| && r == s[|s| - |r|..]
    ensures forall i :: 0 <= i < |s| - |r| ==> IsSpace(s[i])
    ensures r == [] || !IsSpace(r[0])
  {
    if s != [] && IsSpace(s[0]) then TrimStart(s[1..]) else s
  }

  /** Drops trailing whitespace. */
  function TrimEnd(s: string): (r: string)
    ensures |r| <= |s| && r == s[..|r|]
    ensures forall i :: |r| <= i < |s| ==> IsSpace(s[i])
    ensures r == [] || !IsSpace(r[|r| - 1])
  {
    if s != [] && IsSpace(s[|s| - 1]) then TrimEnd(s[..|s| - 1]) else s
  }

  /** Text that neither starts nor ends with whitespace. */
  predicate Stripped(s: string) {
    s == [] || (!IsSpace(s[0]) && !IsSpace(s[|s| - 1]))
  }

  /** Python's `str.strip()` with no argument: the text without surrounding
      whitespace. It is empty exactly when the text is all whitespace. */
  function Strip(s: string): (r: string)
    ensures |r| <= |s|
    ensures Stripped(r)
    ensures r == [] <==> forall i :: 0 <= i < |s| ==> IsSpace(s[i])
  {
    var t := TrimStart(s);
    var r := TrimEnd(t);
    assert t != [] ==> r != [];
    r
  }

  /** The number of whitespace characters `s` starts with. */
  function LeadingSpace(s: string): (n: nat)
    ensures n <= |s|
    ensures forall k :: 0 <= k < n ==> IsSpace(s[k])
    ensures n < |s| ==> !IsSpace(s[n])
  {
    |s| - |TrimStart(s)|
  }

  /** Strip removes whitespace only around the text: its result is the part of
      `s` that follows the leading whitespace, and everything after that part
      is whitespace too. */
  lemma {:induction false} StripDropsOnlySurroundingSpace(s: string)
    ensures var i := LeadingSpace(s); var r := Strip(s);
      i + |r| <= |s| && r == s[i..i + |r|] &&
      (forall k :: 0 <= k < i ==> IsSpace(s[k])) &&
      (forall k :: i + |r| <= k < |s| ==> IsSpace(s[k]))
  {
    StripIsSlice(s);
    StripTailIsSpace(s);
  }

  /** Strip's result is the slice of `s` after its leading whitespace. */
  lemma {:induction false} StripIsSlice(s: string)
    ensures LeadingSpace(s) + |Strip(s)| <= |s|
    ensures Strip(s) == s[LeadingSpace(s)..LeadingSpace(s) + |Strip(s)|]
  {
    var t := TrimStart(s);
    var i := |s| - |t|;
    var r := TrimEnd(t);
    assert Strip(s) == r;
    assert t == s[i..];
    assert r == t[..|r|];
  }

  /** Everything after that slice is whitespace. */
  lemma {:induction false} StripTailIsSpace(s: string)
    ensures forall k :: LeadingSpace(s) + |Strip(s)| <= k < |s| ==> IsSpace(s[k])
  {
    var t := TrimStart(s);
    var i := |s| - |t|;
    var r := TrimEnd(t);
    assert Strip(s) == r;
    assert t == s[i..];
    forall k | i + |r| <= k < |s| ensures IsSpace(s[k]) {
      assert s[k] == t[k - i];
    }
  }

  /** Stripping text that neither starts nor ends with whitespace changes nothing. */
  lemma {:induction false} StripKeeps(s: string)
    requires Stripped(s)
    ensures Strip(s) == s
  {
    assert TrimStart(s) == s;
    assert TrimEnd(s) == s;
  }

  /** Strip is idempotent. */
  lemma {:induction false} StripIdempotent(s: string)
    ensures Strip(Strip(s)) == Strip(s)
  {
    StripKeeps(Strip(s));
  }

  /** A leading space is among the characters TrimStart drops. */
  lemma {:induction false} TrimStartSkipsSpace(b: string)
    ensures TrimStart(" " + b) == TrimStart(b)
  {
    var j := " " + b;
    assert j != [] && IsSpace(j[0]);
    assert j[1..] == b;
  }

  /** A trailing space is among the characters TrimEnd drops. */
  lemma {:induction false} TrimEndSkipsSpace(a: string)
    ensures TrimEnd(a + " ") == TrimEnd(a)
  {
    var j := a + " ";
    assert j != [] && IsSpace(j[|j| - 1]);
    assert j[..|j| - 1] == a;
  }

  /** One leading space before stripped text disappears. */
  lemma {:induction false} StripAfterSpace(b: string)
    requires Stripped(b)
    ensures Strip(" " + b) == b
  {
    TrimStartSkipsSpace(b);
    StripKeeps(b);
    assert Strip(" " + b) == TrimEnd(TrimStart(b));
  }

  /** One trailing space after stripped text disappears. */
  lemma {:induction false} StripBeforeSpace(a: string)
    requires Stripped(a)
    ensures Strip(a + " ") == a
  {
    if a == [] {
      assert a + " " == " " + a;
      StripAfterSpace(a);
    } else {
      var j := a + " ";
      assert j[0] == a[0];
      assert TrimStart(j) == j;
      TrimEndSkipsSpace(a);
      StripKeeps(a);
    }
  }

  /** The f-string `f"{a} {b}".strip()` when `a` and `b` are already stripped:
      a single separating space, or just the non-empty part. */
  lemma {:induction false} StripJoined(a: string, b: string)
    requires Stripped(a) && Stripped(b)
    ensures Strip(a + " " + b) == if a == [] then b else if b == [] then a else a + " " + b
  {
    if a == [] {
      assert a + " " + b == " " + b;
      StripAfterSpace(b);
    } else if b == [] {
      assert a + " " + b == a + " ";
      StripBeforeSpace(a);
    } else {
      var j := a + " " + b;
      assert j[0] == a[0];
      assert j[|j| - 1] == b[|b| - 1];
      StripKeeps(j);
    }
  }

  // ---------------------------------------------------------------------------
  // Ordering: SQLite's default BINARY collation compares UTF-8 bytes, which is
  // the order of code points, character by character.

  /** `a` sorts before or equal to `b`. */
  predicate StrLe(a: string, b: string) {
    a == [] || (b != [] && (a[0] < b[0] || (a[0] == b[0] && StrLe(a[1..], b[1..]))))
  }

  lemma {:induction false} StrLeTotal(a: string, b: string)
    ensures StrLe(a, b) || StrLe(b, a)
  {
    if a != [] && b != [] && a[0] == b[0] {
      StrLeTotal(a[1..], b[1..]);
    }
  }

  lemma {:induction false} StrLeTransitive(a: string, b: string, c: string)
    requires StrLe(a, b) && StrLe(b, c)
    ensures StrLe(a, c)
  {
    if a != [] && b != [] && c != [] && a[0] == b[0] == c[0] {
      StrLeTransitive(a[1..], b[1..], c[1..]);
    }
  }

  lemma {:induction false} StrLeAntisymmetric(a: string, b: string)
    requires StrLe(a, b) && StrLe(b, a)
    ensures a == b
  {
    if a != [] && b != [] {
      StrLeAntisymmetric(a[1..], b[1..]);
      assert a == [a[0]] + a[1..] && b == [b[0]] + b[1..];
    }
  }

  // ---------------------------------------------------------------------------
  // SQLite's LIKE: `%` matches any run of characters, `_` any one character,
  // and letters compare ignoring ASCII case (SQLite's lower() folds ASCII only).

  /** ASCII lower-casing of one character. */
  function Lower(c: char): (r: char)
    ensures 'A' <= c <= 'Z' ==> r as int == c as int + 32
    ensures !('A' <= c <= 'Z') ==> r == c
  {
    if 'A' <= c <= 'Z' then (c as int + 32) as char else c
  }

  predicate IsWildcard(c: char) {
    c == '%' || c == '_'
  }

  /** `text LIKE pattern` with no escape character. */
  predicate Like(text: string, pattern: string)
    decreases |text| + |pattern|
  {
    if pattern == [] then text == []
    else if pattern[0] == '%' then
      Like(text, pattern[1..]) || (text != [] && Like(text[1..], pattern))
    else
      text != [] && (pattern[0] == '_' || Lower(text[0]) == Lower(pattern[0])) &&
      Like(text[1..], pattern[1..])
  }

  /** `q` matches the start of `t`, ignoring ASCII case. */
  predicate PrefixFolded(q: string, t: string) {
    |q| <= |t| && forall i :: 0 <= i < |q| ==> Lower(q[i]) == Lower(t[i])
  }

  /** `q` occurs somewhere in `t`, ignoring ASCII case. */
  predicate ContainsFolded(t: string, q: string) {
    exists k :: 0 <= k <= |t| && PrefixFolded(q, t[k..])
  }

  lemma {:induction false} LikeAnyRest(t: string)
    ensures Like(t, "%")
  {
    if t != [] {
      LikeAnyRest(t[1..]);
    }
  }

  /** A leading `%` lets the rest of the pattern start anywhere. */
  lemma {:induction false} LikeLeadingPercent(t: string, p: string)
    ensures Like(t, "%" + p) <==> exists k :: 0 <= k <= |t| && Like(t[k..], p)
  {
    assert ("%" + p)[1..] == p;
    if t == [] {
      assert t[0..] == t;
    } else {
      LikeLeadingPercent(t[1..], p);
      assert t[0..] == t;
      if exists k :: 0 <= k <= |t| && Like(t[k..], p) {
        var k :| 0 <= k <= |t| && Like(t[k..], p);
        if k > 0 {
          assert t[1..][k - 1..] == t[k..];
        }
      }
      if exists k :: 0 <= k <= |t[1..]| && Like(t[1..][k..], p) {
        var k :| 0 <= k <= |t[1..]| && Like(t[1..][k..], p);
        assert t[1..][k..] == t[k + 1..];
      }
    }
  }

  /** A pattern without wildcards followed by `%` matches exactly the texts it
      begins, ignoring case. */
  lemma {:induction false} LikeLiteralPrefix(t: string, q: string)
    requires forall i :: 0 <= i < |q| ==> !IsWildcard(q[i])
    ensures Like(t, q + "%") <==> PrefixFolded(q, t)
  {
    if q == [] {
      assert q + "%" == "%";
      LikeAnyRest(t);
    } else {
      assert (q + "%")[1..] == q[1..] + "%";
      if t != [] {
        LikeLiteralPrefix(t[1..], q[1..]);
        if PrefixFolded(q[1..], t[1..]) && Lower(t[0]) == Lower(q[0]) {
          assert PrefixFolded(q, t) by {
            forall i | 0 <= i < |q| ensures Lower(q[i]) == Lower(t[i]) {
              if i > 0 {
                assert q[1..][i - 1] == q[i] && t[1..][i - 1] == t[i];
              }
            }
          }
        }
        if PrefixFolded(q, t) {
          assert PrefixFolded(q[1..], t[1..]) by {
            forall i | 0 <= i < |q[1..]| ensures Lower(q[1..][i]) == Lower(t[1..][i]) {
              assert q[1..][i] == q[i + 1] && t[1..][i] == t[i + 1];
            }
          }
        }
      }
    }
  }

  /** Any text that begins with `q` (ignoring case) matches `q%`, whatever
      characters `q` holds: a wildcard in `q` also matches itself. */
  lemma {:induction false} PrefixLikes(t: string, q: string)
    requires PrefixFolded(q, t)
    ensures Like(t, q + "%")
  {
    if q == [] {
      assert q + "%" == "%";
      LikeAnyRest(t);
    } else {
      assert (q + "%")[1..] == q[1..] + "%";
      assert PrefixFolded(q[1..], t[1..]) by {
        forall i | 0 <= i < |q[1..]| ensures Lower(q[1..][i]) == Lower(t[1..][i]) {
          assert q[1..][i] == q[i + 1] && t[1..][i] == t[i + 1];
        }
      }
      PrefixLikes(t[1..], q[1..]);
      if q[0] == '%' {
        // `%` consumes the one character t[0] and then matches nothing more.
        assert Like(t[1..], q[1..] + "%");
        LikeLeadingPercent(t[1..], q[1..] + "%");
        assert t[1..][0..] == t[1..];
        assert Like(t[1..], "%" + (q[1..] + "%"));
        assert "%" + (q[1..] + "%") == q + "%";
      }
    }
  }

  /** The search `LIKE '%q%'`: every text that contains `q` matches. */
  lemma SearchFindsContaining(t: string, q: string)
    requires ContainsFolded(t, q)
    ensures Like(t, "%" + q + "%")
  {
    var k :| 0 <= k <= |t| && PrefixFolded(q, t[k..]);
    PrefixLikes(t[k..], q);
    LikeLeadingPercent(t, q + "%");
    assert "%" + q + "%" == "%" + (q + "%");
  }

  /** The search `LIKE '%q%'` with a wildcard-free `q` matches exactly the
      texts that contain `q`, ignoring ASCII case. */
  lemma SearchIsContainment(t: string, q: string)
    requires forall i :: 0 <= i < |q| ==> !IsWildcard(q[i])
    ensures Like(t, "%" + q + "%") <==> ContainsFolded(t, q)
  {
    assert "%" + q + "%" == "%" + (q + "%");
    LikeLeadingPercent(t, q + "%");
    if Like(t, "%" + q + "%") {
      var k :| 0 <= k <= |t| && Like(t[k..], q + "%");
      LikeLiteralPrefix(t[k..], q);
    }
    if ContainsFolded(t, q) {
      SearchFindsContaining(t, q);
    }
  }

  /** A search term holding `_` also finds names that do not contain it. */
  lemma UnderscoreIsNotLiteral()
    ensures Like("x", "%" + "_" + "%") && !ContainsFolded("x", "_")
  {
    assert "%" + "_" + "%" == "%_%";
    assert Like("", "%") by { LikeAnyRest(""); }
    assert Like("x", "_%");
    assert !PrefixFolded("_", "x"[0..]);
    assert !PrefixFolded("_", "x"[1..]);
  }

  /** `text.startsWith(prefix)` in JavaScript. */
  predicate StartsWith(text: string, prefix: string) {
    prefix <= text
  }

  // ---------------------------------------------------------------------------
  // Decimal rendering, the text SQLite stores for an integer in a TEXT column.

  function DigitChar(d: nat): (c: char)
    requires d < 10
    ensures '0' <= c <= '9'
  {
    (d + '0' as int) as char
  }

  function NatToString(n: nat): (s: string)
    ensures s != [] && forall i :: 0 <= i < |s| ==> '0' <= s[i] <= '9'
  {
    if n < 10 then [DigitChar(n)] else NatToString(n / 10) + [DigitChar(n % 10)]
  }

  function IntToString(i: int): (s: string)
    ensures s != []
    ensures i < 0 <==> s[0] == '-'
  {
    if i < 0 then "-" + NatToString(-i) else NatToString(i)
  }
}
