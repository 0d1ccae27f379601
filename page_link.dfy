/** The `page_link` template tag: the query string of a link to a page, with the
    remaining request parameters appended and their `&` escaped for HTML. */
module PaginatorTags {
  import opened Wrappers

  // ------------------------------------------------------ decimal text

  predicate IsDigit(c: char)
  {
    '0' <= c <= '9'
  }

  predicate AllDigits(s: string)
  {
    forall i :: 0 <= i < |s| ==> IsDigit(s[i])
  }

  function DigitChar(d: nat): (c: char)
    requires d < 10
    ensures IsDigit(c) && c as int - '0' as int == d
  {
    ('0' as int + d) as char
  }

  /** Python's `str(n)` for a natural number: at least one digit, and no leading zero except in "0". */
  function NatText(n: nat): (s: string)
    ensures |s| >= 1 && AllDigits(s)
    ensures s[0] == '0' <==> n == 0
    ensures n == 0 ==> s == "0"
    decreases n
  {
    if n < 10 then [DigitChar(n)] else NatText(n / 10) + [DigitChar(n % 10)]
  }

  /** Python's `str(i)` for an integer: a minus sign before the digits of a negative number. */
  function IntText(i: int): (s: string)
    ensures |s| >= 1 && '&' !in s
    ensures i < 0 <==> s[0] == '-'
    ensures i >= 0 ==> (s[0] == '0' <==> i == 0)
    ensures i < 0 ==> |s| >= 2 && s[1] != '0'
  {
    if i < 0 then
      var t := "-" + NatText(-i);
      assert t[1..] == NatText(-i);
      t
    else NatText(i)
  }

  /** The number a string of digits denotes. */
  function DigitsValue(s: string): nat
    requires AllDigits(s)
  {
    if s == [] then 0 else 10 * DigitsValue(s[..|s| - 1]) + (s[|s| - 1] as int - '0' as int)
  }

  /** Reads the text of an integer back: an optional minus sign, then one or more digits. */
  function ParseInt(s: string): Option<int>
  {
    if |s| > 1 && s[0] == '-' && AllDigits(s[1..]) then Some(-(DigitsValue(s[1..]) as int))
    else if |s| > 0 && AllDigits(s) then Some(DigitsValue(s))
    else None
  }

  lemma {:induction false} NatTextValue(n: nat)
    ensures DigitsValue(NatText(n)) == n
    decreases n
  {
    if n >= 10 {
      NatTextValue(n / 10);
      var s := NatText(n / 10) + [DigitChar(n % 10)];
      assert s[..|s| - 1] == NatText(n / 10);
    }
  }

  /** The decimal text of an integer reads back as that integer. */
  lemma IntTextRoundTrip(i: int)
    ensures ParseInt(IntText(i)) == Some(i)
  {
    if i < 0 {
      NatTextValue(-i);
      assert IntText(i)[1..] == NatText(-i);
    } else {
      NatTextValue(i);
    }
  }

  // ------------------------------------------------------------ escaping

  lemma Distribute(a: int, k: int)
    ensures a * (1 + k) == a + a * k
  {
  }

  function Count(s: string, c: char): (k: nat)
    ensures k <= |s|
    ensures k == 0 <==> c !in s
  {
    if s == [] then 0 else (if s[0] == c then 1 else 0) + Count(s[1..], c)
  }

  /** Python's `s.replace(c, with)` for a one-character pattern: each `c`, left to right, becomes `with`. */
  function Replace(s: string, c: char, with: string): (r: string)
    ensures |r| == |s| + (|with| - 1) * Count(s, c)
    ensures c !in s ==> r == s
  {
    if s == [] then []
    else
      var rest := Replace(s[1..], c, with);
      Distribute(|with| - 1, Count(s[1..], c));
      (if s[0] == c then with else [s[0]]) + rest
  }

  /** Replacing in a concatenation replaces in each part: `str.replace` works character by character. */
  lemma {:induction false} ReplaceConcat(a: string, b: string, c: char, with: string)
    ensures Replace(a + b, c, with) == Replace(a, c, with) + Replace(b, c, with)
    decreases |a|
  {
    if a == [] {
      assert a + b == b;
    } else {
      var h := if a[0] == c then with else [a[0]];
      var ra, rb := Replace(a[1..], c, with), Replace(b, c, with);
      assert (a + b)[0] == a[0];
      assert (a + b)[1..] == a[1..] + b;
      ReplaceConcat(a[1..], b, c, with);
      calc {
        Replace(a + b, c, with);
        h + Replace(a[1..] + b, c, with);
        h + (ra + rb);
        { assert h + (ra + rb) == (h + ra) + rb; }
        (h + ra) + rb;
        Replace(a, c, with) + rb;
      }
    }
  }

  /** A single character is replaced by `with` exactly when it is the pattern. */
  lemma ReplaceChar(x: char, c: char, with: string)
    ensures Replace([x], c, with) == if x == c then with else [x]
  {
    assert [x][1..] == [];
  }

  /** `params.replace('&', '&amp;')`: four characters longer for every `&`. */
  function Escape(params: string): (e: string)
    ensures |e| == |params| + 4 * Count(params, '&')
    ensures '&' !in params ==> e == params
  {
    Replace(params, '&', "&amp;")
  }

  /** Reverses Escape: each "&amp;" becomes `&` again and every other character is kept. */
  function Unescape(e: string): string
    decreases |e|
  {
    if e == [] then []
    else if |e| >= 5 && e[..5] == "&amp;" then "&" + Unescape(e[5..])
    else [e[0]] + Unescape(e[1..])
  }

  /** Position `i` starts an "&amp;". */
  predicate AmpAt(e: string, i: int)
  {
    0 <= i && i + 5 <= |e| && e[i..i + 5] == "&amp;"
  }

  /** Every `&` in `e` begins an "&amp;": the text is safe to place in an HTML attribute. */
  predicate WellEscaped(e: string)
  {
    forall i :: 0 <= i < |e| && e[i] == '&' ==> AmpAt(e, i)
  }

  lemma WellEscapedConcat(a: string, b: string)
    requires WellEscaped(a) && WellEscaped(b)
    ensures WellEscaped(a + b)
  {
    var s := a + b;
    forall i | 0 <= i < |s| && s[i] == '&'
      ensures AmpAt(s, i)
    {
      if i < |a| {
        assert a[i] == '&' && AmpAt(a, i);
        assert s[i..i + 5] == a[i..i + 5];
      } else {
        assert b[i - |a|] == '&' && AmpAt(b, i - |a|);
        assert s[i..i + 5] == b[i - |a|..i - |a| + 5];
      }
    }
  }

  lemma WellEscapedSuffix(e: string, k: nat)
    requires WellEscaped(e) && k <= |e|
    ensures WellEscaped(e[k..])
  {
    var t := e[k..];
    forall i | 0 <= i < |t| && t[i] == '&'
      ensures AmpAt(t, i)
    {
      assert e[k + i] == '&' && AmpAt(e, k + i);
      assert t[i..i + 5] == e[k + i..k + i + 5];
    }
  }

  lemma WellEscapedWithoutAmp(s: string)
    requires '&' !in s
    ensures WellEscaped(s)
  {
  }

  lemma WellEscapedAmp()
    ensures WellEscaped("&amp;")
  {
    var e := "&amp;";
    assert e[0..5] == e;
  }

  /** In the escaped text every `&` begins an "&amp;". */
  lemma {:induction false} EscapeWellEscaped(s: string)
    ensures WellEscaped(Escape(s))
    decreases |s|
  {
    if s != [] {
      EscapeWellEscaped(s[1..]);
      if s[0] == '&' {
        WellEscapedAmp();
        WellEscapedConcat("&amp;", Escape(s[1..]));
      } else {
        WellEscapedWithoutAmp([s[0]]);
        WellEscapedConcat([s[0]], Escape(s[1..]));
      }
    }
  }

  /** Deleting the "amp;" after each `&` recovers the parameters: the escape round-trips. */
  lemma {:induction false} UnescapeEscape(s: string)
    ensures Unescape(Escape(s)) == s
    decreases |s|
  {
    if s != [] {
      UnescapeEscape(s[1..]);
      var t := Escape(s[1..]);
      var e := Escape(s);
      if s[0] == '&' {
        assert e == "&amp;" + t;
        assert e[..5] == "&amp;" && e[5..] == t;
      } else {
        assert e == [s[0]] + t;
        assert e[..1] == [s[0]] && e[1..] == t;
        assert |e| >= 5 ==> e[..5][0] == s[0];
      }
    }
  }

  /** Every well-escaped text is the escape of its unescaping: Escape is onto the well-escaped texts. */
  lemma {:induction false} EscapeUnescape(e: string)
    requires WellEscaped(e)
    ensures Escape(Unescape(e)) == e
    decreases |e|
  {
    if e != [] {
      if e[0] == '&' {
        assert AmpAt(e, 0);
        assert e[..5] == e[0..5];
        WellEscapedSuffix(e, 5);
        EscapeUnescape(e[5..]);
        var u := Unescape(e[5..]);
        assert ("&" + u)[1..] == u;
        assert e == e[..5] + e[5..];
      } else {
        assert !(|e| >= 5 && e[..5] == "&amp;") by {
          if |e| >= 5 {
            assert e[..5][0] == e[0];
          }
        }
        WellEscapedSuffix(e, 1);
        EscapeUnescape(e[1..]);
        var u := Unescape(e[1..]);
        assert ([e[0]] + u)[1..] == u;
        assert e == [e[0]] + e[1..];
      }
    }
  }

  // ------------------------------------------------------------ the link

  /** Python's truthiness of `params`: None and the empty string both count as no parameters. */
  function ParamText(params: Option<string>): string
  {
    if params.Some? then params.value else ""
  }

  /** `page_link(num_page, params)`: "?page=" and the page number, then, when
      there are parameters, "&amp;" and the parameters with `&` escaped. */
  function PageLink(numPage: int, params: Option<string>): (link: string)
    ensures var prefix := "?page=" + IntText(numPage);
      |prefix| <= |link| && link[..|prefix|] == prefix &&
      (link == prefix <==> ParamText(params) == "")
  {
    var link := "?page=" + IntText(numPage);
    if ParamText(params) != "" then link + "&amp;" + Escape(ParamText(params)) else link
  }

  /** Index of the first `&` in `s`, or `|s|` when there is none. */
  function FirstAmp(s: string): (k: nat)
    ensures k <= |s|
    ensures k < |s| ==> s[k] == '&'
    ensures forall i :: 0 <= i < k ==> s[i] != '&'
  {
    if s == [] then 0 else if s[0] == '&' then 0 else 1 + FirstAmp(s[1..])
  }

  /** Reads a page link back into its page number and its (unescaped) parameters. */
  function ParseLink(link: string): Option<(int, string)>
  {
    if |link| < 6 || link[..6] != "?page=" then None
    else
      var rest := link[6..];
      var k := FirstAmp(rest);
      match ParseInt(rest[..k])
      case None => None
      case Some(n) =>
        if k == |rest| then Some((n, ""))
        else if k + 5 <= |rest| && rest[k..k + 5] == "&amp;" then Some((n, Unescape(rest[k + 5..])))
        else None
  }

  /** Every `&` in a page link begins an "&amp;". */
  lemma PageLinkWellEscaped(numPage: int, params: Option<string>)
    ensures WellEscaped(PageLink(numPage, params))
  {
    var prefix := "?page=" + IntText(numPage);
    WellEscapedWithoutAmp(prefix);
    if ParamText(params) != "" {
      WellEscapedAmp();
      EscapeWellEscaped(ParamText(params));
      WellEscapedConcat(prefix, "&amp;");
      WellEscapedConcat(prefix + "&amp;", Escape(ParamText(params)));
    }
  }

  lemma FirstAmpOfText(s: string)
    requires '&' !in s
    ensures FirstAmp(s) == |s|
  {
  }

  lemma FirstAmpAfterText(a: string, b: string)
    requires '&' !in a && |b| > 0 && b[0] == '&'
    ensures FirstAmp(a + b) == |a|
  {
    assert (a + b)[|a|] == '&';
  }

  /** A link without parameters reads back as the number its text denotes. */
  lemma ParseLinkBare(n: int, text: string)
    requires ParseInt(text) == Some(n) && '&' !in text
    ensures ParseLink("?page=" + text) == Some((n, ""))
  {
    var link := "?page=" + text;
    assert link[..6] == "?page=" && link[6..] == text;
    FirstAmpOfText(text);
    assert text[..|text|] == text;
  }

  /** A link with parameters reads back as the number and the unescaped parameters. */
  lemma ParseLinkWithParams(n: int, text: string, escaped: string)
    requires ParseInt(text) == Some(n) && '&' !in text
    ensures ParseLink("?page=" + text + "&amp;" + escaped) == Some((n, Unescape(escaped)))
  {
    var tail := "&amp;" + escaped;
    var rest := text + tail;
    var link := "?page=" + text + "&amp;" + escaped;
    assert link == "?page=" + rest;
    assert link[..6] == "?page=" && link[6..] == rest;
    FirstAmpAfterText(text, tail);
    assert rest[..|text|] == text;
    assert rest[|text|..] == tail;
    assert tail[..5] == "&amp;";
    assert rest[|text|..|text| + 5] == tail[..5];
    assert rest[|text| + 5..] == escaped;
  }

  /** A page link reads back as its page number and its parameters (empty for None). */
  lemma PageLinkRoundTrip(numPage: int, params: Option<string>)
    ensures ParseLink(PageLink(numPage, params)) == Some((numPage, ParamText(params)))
  {
    var text := IntText(numPage);
    IntTextRoundTrip(numPage);
    if ParamText(params) == "" {
      ParseLinkBare(numPage, text);
    } else {
      ParseLinkWithParams(numPage, text, Escape(ParamText(params)));
      UnescapeEscape(ParamText(params));
    }
  }
}
