/** `esc`, the HTML escaper both scripts use before putting backend text into
    markup (static/dashboard.js:21-25 and the identical copy in
    static/profile.js:5-9), and the entity decoding an HTML parser applies to
    the escaped text, which inverts it. */
module Html {
  import opened JsValues

  /** The five characters `esc` rewrites. */
  predicate IsMarkup(c: char) {
    c == '&' || c == '<' || c == '>' || c == '"' || c == '\''
  }

  /** The replacement of one character. */
  function EscapeChar(c: char): string {
    if c == '&' then "&amp;"
    else if c == '<' then "&lt;"
    else if c == '>' then "&gt;"
    else if c == '"' then "&quot;"
    else if c == '\'' then "&#39;"
    else [c]
  }

  /** `s.replace(/[&<>"']/g, …)`: each character replaced independently, left to right. */
  function Escape(s: string): string {
    if s == [] then [] else EscapeChar(s[0]) + Escape(s[1..])
  }

  /** `esc(v)`: `String(v ?? "")`, escaped. */
  function Esc(v: Value, fmt: NumberFormat): (r: string)
    ensures Nullish(v) ==> r == ""
    ensures NoRawMarkup(r)
    ensures Unescape(r) == if Nullish(v) then "" else JsString(v, fmt)
  {
    var text := if Nullish(v) then "" else JsString(v, fmt);
    EscapeHasNoRawMarkup(text);
    UnescapeEscape(text);
    Escape(text)
  }

  /** None of `< > " '` appears, and every `&` starts one of the five entities. */
  predicate NoRawMarkup(r: string) {
    forall i | 0 <= i < |r| :: (r[i] == '&' ==> EntityAt(r, i)) && !(IsMarkup(r[i]) && r[i] != '&')
  }

  predicate HasPrefixAt(r: string, i: nat, p: string) {
    i + |p| <= |r| && r[i..i + |p|] == p
  }

  predicate EntityAt(r: string, i: nat) {
    HasPrefixAt(r, i, "&amp;") || HasPrefixAt(r, i, "&lt;") || HasPrefixAt(r, i, "&gt;")
    || HasPrefixAt(r, i, "&quot;") || HasPrefixAt(r, i, "&#39;")
  }

  /** Decoding of the five entities, as the HTML parser reads attribute and
      text content; any other character, including a stray `&`, stays. */
  function Unescape(r: string): string {
    if r == [] then []
    else if r[0] != '&' then [r[0]] + Unescape(r[1..])
    else if HasPrefixAt(r, 0, "&amp;") then "&" + Unescape(r[5..])
    else if HasPrefixAt(r, 0, "&lt;") then "<" + Unescape(r[4..])
    else if HasPrefixAt(r, 0, "&gt;") then ">" + Unescape(r[4..])
    else if HasPrefixAt(r, 0, "&quot;") then "\"" + Unescape(r[6..])
    else if HasPrefixAt(r, 0, "&#39;") then "'" + Unescape(r[5..])
    else "&" + Unescape(r[1..])
  }

  /** Escaping works character by character, so it distributes over concatenation. */
  lemma {:induction false} EscapeAppend(a: string, b: string)
    ensures Escape(a + b) == Escape(a) + Escape(b)
  {
    if a == [] {
      assert a + b == b;
    } else {
      assert (a + b)[0] == a[0];
      assert (a + b)[1..] == a[1..] + b;
      EscapeAppend(a[1..], b);
    }
  }

  /** The five entities differ in their second character, so one cannot be
      read where another was written. */
  lemma NotPrefixBySecondChar(r: string, p: string)
    requires |p| >= 2 && |r| >= 2 && r[1] != p[1]
    ensures !HasPrefixAt(r, 0, p)
  {
  }

  /** Decoding the replacement of one character gives that character back,
      and decoding goes on right after it. */
  lemma UnescapeStep(c: char, rest: string)
    ensures Unescape(EscapeChar(c) + rest) == [c] + Unescape(rest)
  {
    var e := EscapeChar(c);
    var r := e + rest;
    assert r[|e|..] == rest;
    assert r[..|e|] == e;
    if c == '&' {
      assert HasPrefixAt(r, 0, "&amp;");
    } else if c == '<' {
      NotPrefixBySecondChar(r, "&amp;");
      assert HasPrefixAt(r, 0, "&lt;");
    } else if c == '>' {
      NotPrefixBySecondChar(r, "&amp;");
      NotPrefixBySecondChar(r, "&lt;");
      assert HasPrefixAt(r, 0, "&gt;");
    } else if c == '"' {
      NotPrefixBySecondChar(r, "&amp;");
      NotPrefixBySecondChar(r, "&lt;");
      NotPrefixBySecondChar(r, "&gt;");
      assert HasPrefixAt(r, 0, "&quot;");
    } else if c == '\'' {
      NotPrefixBySecondChar(r, "&amp;");
      NotPrefixBySecondChar(r, "&lt;");
      NotPrefixBySecondChar(r, "&gt;");
      NotPrefixBySecondChar(r, "&quot;");
      assert HasPrefixAt(r, 0, "&#39;");
    } else {
      assert r[0] == c && r[1..] == rest;
    }
  }

  /** Decoding what `esc` wrote gives back the original text: nothing is lost
      and no other character is altered or moved. */
  lemma {:induction false} UnescapeEscape(s: string)
    ensures Unescape(Escape(s)) == s
  {
    if s != [] {
      UnescapeEscape(s[1..]);
      UnescapeStep(s[0], Escape(s[1..]));
      assert s == [s[0]] + s[1..];
    }
  }

  lemma PrefixInLeft(a: string, b: string, i: nat, p: string)
    requires HasPrefixAt(a, i, p)
    ensures HasPrefixAt(a + b, i, p)
  {
    assert (a + b)[i..i + |p|] == a[i..i + |p|];
  }

  lemma PrefixInRight(a: string, b: string, k: nat, p: string)
    requires HasPrefixAt(b, k, p)
    ensures HasPrefixAt(a + b, |a| + k, p)
  {
    assert (a + b)[|a| + k..|a| + k + |p|] == b[k..k + |p|];
  }

  lemma EntityInLeft(a: string, b: string, i: nat)
    requires EntityAt(a, i)
    ensures EntityAt(a + b, i)
  {
    if HasPrefixAt(a, i, "&amp;") { PrefixInLeft(a, b, i, "&amp;"); }
    if HasPrefixAt(a, i, "&lt;") { PrefixInLeft(a, b, i, "&lt;"); }
    if HasPrefixAt(a, i, "&gt;") { PrefixInLeft(a, b, i, "&gt;"); }
    if HasPrefixAt(a, i, "&quot;") { PrefixInLeft(a, b, i, "&quot;"); }
    if HasPrefixAt(a, i, "&#39;") { PrefixInLeft(a, b, i, "&#39;"); }
  }

  lemma EntityInRight(a: string, b: string, k: nat)
    requires EntityAt(b, k)
    ensures EntityAt(a + b, |a| + k)
  {
    if HasPrefixAt(b, k, "&amp;") { PrefixInRight(a, b, k, "&amp;"); }
    if HasPrefixAt(b, k, "&lt;") { PrefixInRight(a, b, k, "&lt;"); }
    if HasPrefixAt(b, k, "&gt;") { PrefixInRight(a, b, k, "&gt;"); }
    if HasPrefixAt(b, k, "&quot;") { PrefixInRight(a, b, k, "&quot;"); }
    if HasPrefixAt(b, k, "&#39;") { PrefixInRight(a, b, k, "&#39;"); }
  }

  /** Text free of raw markup stays so when joined to other such text. */
  lemma NoRawMarkupAppend(a: string, b: string)
    requires NoRawMarkup(a) && NoRawMarkup(b)
    ensures NoRawMarkup(a + b)
  {
    var r := a + b;
    forall i | 0 <= i < |r|
      ensures (r[i] == '&' ==> EntityAt(r, i)) && !(IsMarkup(r[i]) && r[i] != '&')
    {
      if i < |a| {
        assert r[i] == a[i];
        if a[i] == '&' { EntityInLeft(a, b, i); }
      } else {
        assert r[i] == b[i - |a|];
        if b[i - |a|] == '&' { EntityInRight(a, b, i - |a|); }
      }
    }
  }

  lemma EscapeCharHasNoRawMarkup(c: char)
    ensures NoRawMarkup(EscapeChar(c))
  {
    var e := EscapeChar(c);
    if IsMarkup(c) {
      assert HasPrefixAt(e, 0, e);
    }
  }

  /** The escaped text holds no raw `< > " '`, and each `&` in it opens an entity. */
  lemma {:induction false} EscapeHasNoRawMarkup(s: string)
    ensures NoRawMarkup(Escape(s))
  {
    if s != [] {
      EscapeHasNoRawMarkup(s[1..]);
      EscapeCharHasNoRawMarkup(s[0]);
      NoRawMarkupAppend(EscapeChar(s[0]), Escape(s[1..]));
    }
  }

  /** Text without any of the five characters comes out of `esc` unchanged,
      and only such text does. */
  lemma {:induction false} EscapeIdentity(s: string)
    ensures Escape(s) == s <==> forall i | 0 <= i < |s| :: !IsMarkup(s[i])
  {
    if s != [] {
      EscapeIdentity(s[1..]);
      EscapeLength(s[1..]);
      var e := EscapeChar(s[0]);
      if IsMarkup(s[0]) {
        assert |e| >= 4;
        assert |Escape(s)| > |s|;
      } else {
        assert Escape(s) == [s[0]] + Escape(s[1..]);
        assert s == [s[0]] + s[1..];
        if Escape(s) == s {
          assert Escape(s[1..]) == s[1..];
        }
        assert forall i | 1 <= i < |s| :: s[i] == s[1..][i - 1];
      }
    }
  }

  /** Escaping never shortens text. */
  lemma {:induction false} EscapeLength(s: string)
    ensures |Escape(s)| >= |s|
  {
    if s != [] {
      EscapeLength(s[1..]);
    }
  }
}
