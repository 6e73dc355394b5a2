/**
 * The two pieces of JavaScript string semantics the page relies on:
 * `String.prototype.trim`, which strips the code points of the ECMAScript
 * WhiteSpace and LineTerminator productions (sections 12.2 and 12.3 of the
 * ECMAScript Language Specification) from both ends, and the truthiness of a
 * value that is a string, `null` or `undefined`.
 */
module JsString {
  import opened Wrappers

  /**
   * WhiteSpace (TAB, VT, FF, ZWNBSP and every Zs code point) or LineTerminator
   * (LF, CR, LS, PS); U+0009..U+000D are TAB, LF, VT, FF, CR.
   */
  predicate IsWhiteSpace(c: char) {
    var n := c as int;
    (9 <= n <= 13) || n == 0x20 || n == 0xA0 || n == 0x1680 || (0x2000 <= n <= 0x200A)
    || n == 0x2028 || n == 0x2029 || n == 0x202F || n == 0x205F || n == 0x3000 || n == 0xFEFF
  }

  predicate AllWhiteSpace(s: string) {
    forall k :: 0 <= k < |s| ==> IsWhiteSpace(s[k])
  }

  /** Neither end of `s` is white space. */
  predicate Trimmed(s: string) {
    s == [] || (!IsWhiteSpace(s[0]) && !IsWhiteSpace(s[|s| - 1]))
  }

  /** `s` without its leading white space. */
  function TrimStart(s: string): string {
    if s != [] && IsWhiteSpace(s[0]) then TrimStart(s[1..]) else s
  }

  /** `s` without its trailing white space. */
  function TrimEnd(s: string): string {
    if s != [] && IsWhiteSpace(s[|s| - 1]) then TrimEnd(s[..|s| - 1]) else s
  }

  /** `s.trim()`. */
  function Trim(s: string): string {
    TrimEnd(TrimStart(s))
  }

  /** TrimStart keeps a suffix of `s` that does not start with white space, and cuts only white space. */
  lemma {:induction false} TrimStartSpec(s: string)
    ensures var r := TrimStart(s);
      && |r| <= |s| && r == s[|s| - |r|..]
      && AllWhiteSpace(s[..|s| - |r|])
      && (r == [] || !IsWhiteSpace(r[0]))
  {
    if s != [] && IsWhiteSpace(s[0]) {
      TrimStartSpec(s[1..]);
      var r := TrimStart(s);
      assert s[..|s| - |r|] == [s[0]] + s[1..][..|s| - 1 - |r|];
    }
  }

  /** TrimEnd keeps a prefix of `s` that does not end with white space, and cuts only white space. */
  lemma {:induction false} TrimEndSpec(s: string)
    ensures var r := TrimEnd(s);
      && |r| <= |s| && r == s[..|r|]
      && AllWhiteSpace(s[|r|..])
      && (r == [] || !IsWhiteSpace(r[|r| - 1]))
  {
    if s != [] && IsWhiteSpace(s[|s| - 1]) {
      var s' := s[..|s| - 1];
      TrimEndSpec(s');
      var r := TrimEnd(s);
      assert s[|r|..] == s'[|r|..] + [s[|s| - 1]];
    }
  }

  /**
   * `s.trim()` is the middle of `s` left once the white space at both ends is
   * removed: it has no white space at either end, and only white space was
   * cut around it.
   */
  lemma TrimSpec(s: string)
    ensures var r, i := Trim(s), |s| - |TrimStart(s)|;
      && Trimmed(r)
      && 0 <= i && i + |r| <= |s| && r == s[i..i + |r|]
      && AllWhiteSpace(s[..i]) && AllWhiteSpace(s[i + |r|..])
  {
    var t := TrimStart(s);
    TrimStartSpec(s);
    TrimEndSpec(t);
    var r := Trim(s);
    assert s[|s| - |t| + |r|..] == t[|r|..];
  }

  /** `s.trim()` is empty exactly when every character of `s` is white space. */
  lemma TrimBlank(s: string)
    ensures Trim(s) == [] <==> AllWhiteSpace(s)
  {
    TrimSpec(s);
    var r, i := Trim(s), |s| - |TrimStart(s)|;
    if !AllWhiteSpace(s) {
      var k :| 0 <= k < |s| && !IsWhiteSpace(s[k]);
      assert forall j :: 0 <= j < i ==> IsWhiteSpace(s[j]) by {
        forall j | 0 <= j < i ensures IsWhiteSpace(s[j]) { assert s[..i][j] == s[j]; }
      }
      assert forall j :: i + |r| <= j < |s| ==> IsWhiteSpace(s[j]) by {
        forall j | i + |r| <= j < |s| ensures IsWhiteSpace(s[j]) { assert s[i + |r|..][j - i - |r|] == s[j]; }
      }
    }
  }

  /** Trimming a string that has no white space at either end leaves it alone. */
  lemma TrimOfTrimmed(s: string)
    requires Trimmed(s)
    ensures Trim(s) == s
  {
  }

  /** Leading white space in front of a string that starts with something else is all TrimStart removes. */
  lemma {:induction false} TrimStartAfter(lead: string, u: string)
    requires AllWhiteSpace(lead)
    requires u == [] || !IsWhiteSpace(u[0])
    ensures TrimStart(lead + u) == u
  {
    if lead == [] {
      assert lead + u == u;
    } else {
      assert (lead + u)[0] == lead[0];
      assert (lead + u)[1..] == lead[1..] + u;
      TrimStartAfter(lead[1..], u);
    }
  }

  /** Trailing white space behind a string that ends with something else is all TrimEnd removes. */
  lemma {:induction false} TrimEndBefore(u: string, trail: string)
    requires AllWhiteSpace(trail)
    requires u == [] || !IsWhiteSpace(u[|u| - 1])
    ensures TrimEnd(u + trail) == u
  {
    if trail == [] {
      assert u + trail == u;
    } else {
      var n := |u + trail|;
      assert (u + trail)[n - 1] == trail[|trail| - 1];
      assert (u + trail)[..n - 1] == u + trail[..|trail| - 1];
      TrimEndBefore(u, trail[..|trail| - 1]);
    }
  }

  /**
   * Trim removes exactly the white space around a trimmed middle: whatever
   * white space surrounds `t`, trimming gives back `t`.
   */
  lemma TrimSurrounded(lead: string, t: string, trail: string)
    requires AllWhiteSpace(lead) && AllWhiteSpace(trail) && Trimmed(t)
    ensures Trim(lead + t + trail) == t
  {
    assert lead + t + trail == lead + (t + trail);
    if t == [] {
      TrimBlank(lead + trail);
      assert t + trail == trail;
      assert AllWhiteSpace(lead + trail) by {
        forall k | 0 <= k < |lead + trail| ensures IsWhiteSpace((lead + trail)[k]) {
          if k < |lead| { assert (lead + trail)[k] == lead[k]; }
          else { assert (lead + trail)[k] == trail[k - |lead|]; }
        }
      }
    } else {
      assert (t + trail)[0] == t[0];
      TrimStartAfter(lead, t + trail);
      TrimEndBefore(t, trail);
    }
  }

  /** `s.trim().trim() === s.trim()`. */
  lemma TrimIdempotent(s: string)
    ensures Trim(Trim(s)) == Trim(s)
  {
    TrimSpec(s);
    TrimOfTrimmed(Trim(s));
  }

  /** JavaScript truthiness of a value that is a string, `null` or `undefined`: only a non-empty string is truthy. */
  predicate Truthy(v: Option<string>) {
    v.Some? && v.value != ""
  }
}
