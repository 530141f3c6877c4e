/** String helpers that the scripts use through JavaScript built-ins:
    String.prototype.trim, length, toLowerCase, includes, join, the phone sanitiser
    `replace(/\D/g, '').slice(-n)`, Util.isNonEmpty, and decimal rendering
    of integers inside template strings. */
module Text {

  /** The characters String.prototype.trim removes: WhiteSpace and
      LineTerminator of ECMAScript (tab, VT, FF, space, NBSP, ZWNBSP, the
      Unicode space separators, LF, CR, LS, PS). */
  predicate IsSpace(c: char)
  {
    || c == ' ' || c == '\t' || c == '\n' || c == '\r' || c == '\U{000B}' || c == '\U{000C}'
    || c == '\U{00A0}' || c == '\U{1680}' || ('\U{2000}' <= c <= '\U{200A}')
    || c == '\U{2028}' || c == '\U{2029}' || c == '\U{202F}' || c == '\U{205F}'
    || c == '\U{3000}' || c == '\U{FEFF}'
  }

  function TrimStart(s: string): (r: string)
    ensures |r| <= |s| && r == s[|s| - |r|..]
    ensures forall i :: 0 <= i < |s| - |r| ==> IsSpace(s[i])
    ensures r == [] || !IsSpace(r[0])
  {
    if s != [] && IsSpace(s[0]) then TrimStart(s[1..]) else s
  }

  function TrimEnd(s: string): (r: string)
    ensures |r| <= |s| && r == s[..|r|]
    ensures forall i :: |r| <= i < |s| ==> IsSpace(s[i])
    ensures r == [] || !IsSpace(r[|r| - 1])
  {
    if s != [] && IsSpace(s[|s| - 1]) then TrimEnd(s[..|s| - 1]) else s
  }

  /** String.prototype.trim: the string without its leading and trailing
      white space, a contiguous piece of the original. */
  function Trim(s: string): (r: string)
    ensures |r| <= |s|
    ensures r == [] || (!IsSpace(r[0]) && !IsSpace(r[|r| - 1]))
    ensures r == [] <==> forall i :: 0 <= i < |s| ==> IsSpace(s[i])
    ensures Contains(s, r)
  {
    TrimFacts(s);
    TrimEnd(TrimStart(s))
  }

  lemma TrimFacts(s: string)
    ensures var r := TrimEnd(TrimStart(s));
      && |r| <= |s|
      && (r == [] || (!IsSpace(r[0]) && !IsSpace(r[|r| - 1])))
      && (r == [] <==> forall i :: 0 <= i < |s| ==> IsSpace(s[i]))
      && Contains(s, r)
  {
    TrimIsSlice(s);
    TrimEmptyIff(s);
    TrimEnds(s);
    OccursContains(s, TrimEnd(TrimStart(s)), |s| - |TrimStart(s)|);
  }

  lemma TrimEnds(s: string)
    ensures var r := TrimEnd(TrimStart(s));
      r == [] || (!IsSpace(r[0]) && !IsSpace(r[|r| - 1]))
  {
    var a := TrimStart(s);
    var r := TrimEnd(a);
    if r != [] {
      assert r[0] == a[0];
    }
  }

  lemma OccursContains(hay: string, needle: string, i: int)
    requires Occurs(hay, needle, i)
    ensures Contains(hay, needle)
  {
  }

  lemma TrimIsSlice(s: string)
    ensures Occurs(s, TrimEnd(TrimStart(s)), |s| - |TrimStart(s)|)
  {
    var a := TrimStart(s);
    var b := TrimEnd(a);
    var k := |s| - |a|;
    assert a == s[k..];
    assert b == a[..|b|];
    SliceOfSuffix(s, k, |b|);
  }

  lemma SliceOfSuffix(s: string, k: nat, n: nat)
    requires k + n <= |s|
    ensures s[k..][..n] == s[k..k + n]
  {
  }

  lemma TrimEmptyIff(s: string)
    ensures TrimEnd(TrimStart(s)) == [] <==> forall i :: 0 <= i < |s| ==> IsSpace(s[i])
  {
    var a := TrimStart(s);
    var b := TrimEnd(a);
    var k := |s| - |a|;
    if b == [] {
      AllSpaceAfterTrim(s, a, k);
    } else {
      assert a == s[k..] && b == a[..|b|];
      NotAllSpace(s, k);
    }
  }

  lemma NotAllSpace(s: string, k: int)
    requires 0 <= k < |s| && !IsSpace(s[k])
    ensures !forall i :: 0 <= i < |s| ==> IsSpace(s[i])
  {
  }

  lemma AllSpaceAfterTrim(s: string, a: string, k: int)
    requires 0 <= k <= |s| && a == s[k..]
    requires forall i :: 0 <= i < k ==> IsSpace(s[i])
    requires forall i :: 0 <= i < |a| ==> IsSpace(a[i])
    ensures forall i :: 0 <= i < |s| ==> IsSpace(s[i])
  {
    forall i | k <= i < |s| ensures IsSpace(s[i]) {
      assert s[i] == a[i - k];
    }
  }

  /** Util.isNonEmpty on a string argument: something other than white space. */
  predicate IsNonEmpty(s: string)
  {
    |Trim(s)| > 0
  }

  lemma IsNonEmptyMeans(s: string)
    ensures IsNonEmpty(s) <==> exists i :: 0 <= i < |s| && !IsSpace(s[i])
  {
  }

  /** String.prototype.length: the number of UTF-16 code units, two for a
      character outside the Basic Multilingual Plane. */
  function Utf16Length(s: string): (n: nat)
    ensures |s| <= n <= 2 * |s|
  {
    if s == [] then 0 else (if s[0] as int >= 0x1_0000 then 2 else 1) + Utf16Length(s[1..])
  }

  /** The count agrees with the number of characters exactly when every
      character lies in the Basic Multilingual Plane. */
  lemma {:induction false} Utf16LengthBmp(s: string)
    ensures Utf16Length(s) == |s| <==> forall i :: 0 <= i < |s| ==> s[i] as int < 0x1_0000
  {
    if s != [] {
      Utf16LengthBmp(s[1..]);
      if s[0] as int < 0x1_0000 {
        assert forall i :: 1 <= i < |s| ==> s[i] == s[1..][i - 1];
      }
    }
  }

  /** ASCII upper case to lower case; other characters are unchanged. */
  function LowerChar(c: char): char
  {
    if 'A' <= c <= 'Z' then (c as int + 32) as char else c
  }

  /** String.prototype.toLowerCase, restricted to the ASCII letters. */
  function Lower(s: string): (r: string)
    ensures |r| == |s|
    ensures forall i :: 0 <= i < |s| ==> r[i] == LowerChar(s[i])
  {
    seq(|s|, i requires 0 <= i < |s| => LowerChar(s[i]))
  }

  lemma LowerIdempotent(s: string)
    ensures Lower(Lower(s)) == Lower(s)
  {
  }

  /** `needle` occurs in `hay` starting at index `i`. */
  predicate Occurs(hay: string, needle: string, i: int)
  {
    0 <= i && i + |needle| <= |hay| && hay[i..i + |needle|] == needle
  }

  /** String.prototype.includes */
  predicate Contains(hay: string, needle: string)
  {
    exists i :: 0 <= i <= |hay| && Occurs(hay, needle, i)
  }

  lemma ContainsEmpty(hay: string)
    ensures Contains(hay, "")
  {
    assert Occurs(hay, "", 0);
  }

  lemma ContainsSelf(s: string)
    ensures Contains(s, s)
  {
    assert Occurs(s, s, 0);
  }

  /** A needle whose first character does not occur in the text is not found. */
  lemma NotContainedWithoutFirst(hay: string, needle: string)
    requires needle != []
    requires forall j :: 0 <= j < |hay| ==> hay[j] != needle[0]
    ensures !Contains(hay, needle)
  {
    forall i | 0 <= i <= |hay| ensures !Occurs(hay, needle, i) {
      if i + |needle| <= |hay| {
        assert hay[i..i + |needle|][0] == hay[i];
      }
    }
  }

  /** What is found in a part is found in the whole it is joined into. */
  lemma ContainsInJoin(pre: string, mid: string, post: string, needle: string)
    requires Contains(mid, needle)
    ensures Contains(pre + mid + post, needle)
  {
    var i :| 0 <= i <= |mid| && Occurs(mid, needle, i);
    assert i + |needle| <= |mid|;
    var w := pre + mid + post;
    assert w[|pre| + i..|pre| + i + |needle|] == mid[i..i + |needle|];
    assert Occurs(w, needle, |pre| + i);
  }

  /** The separator of Array.prototype.join put between every two parts. */
  function Join(parts: seq<string>, sep: string): string
  {
    if parts == [] then ""
    else if |parts| == 1 then parts[0]
    else parts[0] + sep + Join(parts[1..], sep)
  }

  predicate IsDigit(c: char)
  {
    '0' <= c <= '9'
  }

  /** replace(/\D/g, ''): keeps only the decimal digits. */
  function DigitsOnly(s: string): (r: string)
    ensures |r| <= |s|
    ensures forall i :: 0 <= i < |r| ==> IsDigit(r[i])
  {
    if s == [] then ""
    else (if IsDigit(s[0]) then [s[0]] else "") + DigitsOnly(s[1..])
  }

  lemma {:induction false} DigitsOnlyOfDigits(s: string)
    requires forall i :: 0 <= i < |s| ==> IsDigit(s[i])
    ensures DigitsOnly(s) == s
  {
    if s != [] {
      DigitsOnlyOfDigits(s[1..]);
      assert s == [s[0]] + s[1..];
    }
  }

  /** Keeping the digits of two strings one after the other keeps those of
      each. */
  lemma {:induction false} DigitsOnlyAppend(a: string, b: string)
    ensures DigitsOnly(a + b) == DigitsOnly(a) + DigitsOnly(b)
  {
    if a == [] {
      assert a + b == b;
    } else {
      assert (a + b)[0] == a[0] && (a + b)[1..] == a[1..] + b;
      DigitsOnlyAppend(a[1..], b);
    }
  }

  /** A string without a digit keeps nothing. */
  lemma {:induction false} DigitsOnlyNone(s: string)
    requires forall i :: 0 <= i < |s| ==> !IsDigit(s[i])
    ensures DigitsOnly(s) == ""
  {
    if s != [] {
      DigitsOnlyNone(s[1..]);
    }
  }

  /** slice(-n) for n > 0: the last n characters, or all of them. */
  function KeepLast(s: string, n: nat): (r: string)
    ensures |r| <= n && |r| <= |s|
    ensures |r| == if |s| <= n then |s| else n
    ensures r == s[|s| - |r|..]
  {
    if |s| <= n then s else s[|s| - n..]
  }

  /** String(x).replace(/\D/g, '').slice(-keep): the phone sanitiser of the
      storefront (keep 10) and of the order page and the server (keep 12). */
  function SanitizePhone(s: string, keep: nat): (r: string)
    ensures forall i :: 0 <= i < |r| ==> IsDigit(r[i])
    ensures |r| <= keep
    ensures var d := DigitsOnly(s); |r| == (if |d| <= keep then |d| else keep) && r == d[|d| - |r|..]
  {
    KeepLast(DigitsOnly(s), keep)
  }

  lemma SanitizePhoneIdempotent(s: string, keep: nat)
    ensures SanitizePhone(SanitizePhone(s, keep), keep) == SanitizePhone(s, keep)
  {
    var r := SanitizePhone(s, keep);
    DigitsOnlyOfDigits(r);
  }

  /** A string of digits is left as it is when it is short enough. */
  lemma SanitizePhoneOfDigits(s: string, keep: nat)
    requires forall i :: 0 <= i < |s| ==> IsDigit(s[i])
    requires |s| <= keep
    ensures SanitizePhone(s, keep) == s
  {
    DigitsOnlyOfDigits(s);
  }

  // ---------- decimal rendering ----------

  function DigitChar(d: nat): char
    requires d < 10
  {
    ['0', '1', '2', '3', '4', '5', '6', '7', '8', '9'][d]
  }

  function DigitValue(c: char): nat
  {
    if '0' <= c <= '9' then (c as int - '0' as int) else 0
  }

  /** `${n}` for a non-negative integer. */
  function NatToString(n: nat): (r: string)
    ensures |r| > 0
    ensures forall i :: 0 <= i < |r| ==> IsDigit(r[i])
  {
    if n < 10 then [DigitChar(n)] else NatToString(n / 10) + [DigitChar(n % 10)]
  }

  /** `${n}` for any integer. */
  function IntToString(n: int): string
  {
    if n < 0 then "-" + NatToString(-n) else NatToString(n)
  }

  /** Reads a string of decimal digits back. */
  function ParseNat(s: string): nat
  {
    if s == [] then 0 else ParseNat(s[..|s| - 1]) * 10 + DigitValue(s[|s| - 1])
  }

  lemma {:induction false} ParseNatToString(n: nat)
    ensures ParseNat(NatToString(n)) == n
  {
    if n >= 10 {
      ParseNatToString(n / 10);
      var s := NatToString(n);
      assert s[..|s| - 1] == NatToString(n / 10);
    }
  }

  lemma NatToStringInjective(a: nat, b: nat)
    requires NatToString(a) == NatToString(b)
    ensures a == b
  {
    ParseNatToString(a);
    ParseNatToString(b);
  }
}
