/** The HTML text escaper `safeTxt`, shared by the admin dashboard, the
    storefront utilities and the order page: the five characters that are
    significant in HTML text and attribute values become entities, and every
    other character is copied. */
module Html {

  /** The characters safeTxt rewrites. */
  predicate IsSpecial(c: char)
  {
    c == '<' || c == '>' || c == '&' || c == '"' || c == '\''
  }

  /** The replacement of one character. */
  function EscapeChar(c: char): (r: string)
    ensures IsSpecial(c) ==> |r| >= 4 && r[0] == '&' && r[|r| - 1] == ';'
    ensures !IsSpecial(c) ==> r == [c]
  {
    match c
    case '<' => "&lt;"
    case '>' => "&gt;"
    case '&' => "&amp;"
    case '"' => "&quot;"
    case '\'' => "&#39;"
    case _ => [c]
  }

  /** safeTxt(s) for a string argument (null and undefined give ""). */
  function SafeTxt(s: string): (r: string)
    ensures |r| >= |s|
    ensures forall i :: 0 <= i < |r| ==> r[i] != '<' && r[i] != '>' && r[i] != '"' && r[i] != '\''
  {
    if s == [] then "" else EscapeChar(s[0]) + SafeTxt(s[1..])
  }

  /** Escaping works character by character, so it distributes over concatenation. */
  lemma {:induction false} SafeTxtAppend(a: string, b: string)
    ensures SafeTxt(a + b) == SafeTxt(a) + SafeTxt(b)
  {
    if a != [] {
      assert (a + b)[0] == a[0] && (a + b)[1..] == a[1..] + b;
      SafeTxtAppend(a[1..], b);
      calc {
        SafeTxt(a + b);
        EscapeChar(a[0]) + SafeTxt(a[1..] + b);
        EscapeChar(a[0]) + (SafeTxt(a[1..]) + SafeTxt(b));
        (EscapeChar(a[0]) + SafeTxt(a[1..])) + SafeTxt(b);
      }
    } else {
      assert a + b == b;
    }
  }

  /** Text without any of the five characters is left exactly as it is. */
  lemma {:induction false} SafeTxtPlain(s: string)
    requires forall i :: 0 <= i < |s| ==> !IsSpecial(s[i])
    ensures SafeTxt(s) == s
  {
    if s != [] {
      SafeTxtPlain(s[1..]);
      assert s == [s[0]] + s[1..];
    }
  }

  /** Any of the five characters makes the escaped text longer. */
  lemma {:induction false} SafeTxtGrows(s: string)
    requires exists i :: 0 <= i < |s| && IsSpecial(s[i])
    ensures |SafeTxt(s)| > |s|
  {
    if !IsSpecial(s[0]) {
      var i :| 0 <= i < |s| && IsSpecial(s[i]);
      assert s[1..][i - 1] == s[i];
      SafeTxtGrows(s[1..]);
    }
  }

  /** Escaping leaves a text as it is exactly when none of the five
      characters occurs in it. */
  lemma SafeTxtUnchanged(s: string)
    ensures SafeTxt(s) == s <==> forall i :: 0 <= i < |s| ==> !IsSpecial(s[i])
  {
    if forall i :: 0 <= i < |s| ==> !IsSpecial(s[i]) {
      SafeTxtPlain(s);
    } else {
      SafeTxtGrows(s);
    }
  }

  /** The inverse mapping, as an HTML parser reads the five entities back. */
  function Unescape(s: string): (r: string)
    ensures |r| <= |s|
  {
    if s == [] then ""
    else if |s| >= 4 && s[..4] == "&lt;" then "<" + Unescape(s[4..])
    else if |s| >= 4 && s[..4] == "&gt;" then ">" + Unescape(s[4..])
    else if |s| >= 5 && s[..5] == "&amp;" then "&" + Unescape(s[5..])
    else if |s| >= 6 && s[..6] == "&quot;" then "\"" + Unescape(s[6..])
    else if |s| >= 5 && s[..5] == "&#39;" then "'" + Unescape(s[5..])
    else [s[0]] + Unescape(s[1..])
  }

  lemma UnescapeLt(t: string)
    ensures Unescape("&lt;" + t) == "<" + Unescape(t)
  {
    var e := "&lt;" + t;
    assert e[..4] == "&lt;" && e[4..] == t;
  }

  lemma UnescapeGt(t: string)
    ensures Unescape("&gt;" + t) == ">" + Unescape(t)
  {
    var e := "&gt;" + t;
    assert e[..4] == "&gt;" && e[4..] == t;
  }

  lemma UnescapeAmp(t: string)
    ensures Unescape("&amp;" + t) == "&" + Unescape(t)
  {
    var e := "&amp;" + t;
    assert e[1] == 'a';
    assert e[..5] == "&amp;" && e[5..] == t;
  }

  lemma UnescapeQuot(t: string)
    ensures Unescape("&quot;" + t) == "\"" + Unescape(t)
  {
    var e := "&quot;" + t;
    assert e[1] == 'q';
    assert e[..6] == "&quot;" && e[6..] == t;
  }

  lemma UnescapeApos(t: string)
    ensures Unescape("&#39;" + t) == "'" + Unescape(t)
  {
    var e := "&#39;" + t;
    assert e[1] == '#';
    assert e[..5] == "&#39;" && e[5..] == t;
  }

  lemma UnescapePlain(c: char, t: string)
    requires c != '&'
    ensures Unescape([c] + t) == [c] + Unescape(t)
  {
    var e := [c] + t;
    assert e[0] == c && e[1..] == t;
    assert |e| >= 4 ==> e[..4][0] == c;
    assert |e| >= 5 ==> e[..5][0] == c;
    assert |e| >= 6 ==> e[..6][0] == c;
  }

  /** Reading back one escaped character. */
  lemma UnescapeStep(c: char, t: string)
    ensures Unescape(EscapeChar(c) + t) == [c] + Unescape(t)
  {
    match c
    case '<' => UnescapeLt(t);
    case '>' => UnescapeGt(t);
    case '&' => UnescapeAmp(t);
    case '"' => UnescapeQuot(t);
    case '\'' => UnescapeApos(t);
    case _ => UnescapePlain(c, t);
  }

  /** Nothing is lost: reading the escaped text back gives the original. */
  lemma {:induction false} UnescapeSafeTxt(s: string)
    ensures Unescape(SafeTxt(s)) == s
  {
    if s != [] {
      UnescapeSafeTxt(s[1..]);
      UnescapeStep(s[0], SafeTxt(s[1..]));
      assert s == [s[0]] + s[1..];
    }
  }

  /** Different texts stay different after escaping. */
  lemma SafeTxtInjective(a: string, b: string)
    requires SafeTxt(a) == SafeTxt(b)
    ensures a == b
  {
    UnescapeSafeTxt(a);
    UnescapeSafeTxt(b);
  }
}
