/**
 * Variable references in the text of a stack file. The reader replaces every
 * match of `(?<!\$)\$(?!\$)\{?\w+\}?` (a `$` with no `$` on either side,
 * an optional `{`, a run of word characters and an optional `}`), scanning
 * from the left as `String#gsub` does, and afterwards collapses each `$$`
 * to `$`.
 */
module Interpolation {
  import opened RubyStrings

  predicate IsWordChar(c: char)
  {
    ('a' <= c <= 'z') || ('A' <= c <= 'Z') || ('0' <= c <= '9') || c == '_'
  }

  predicate IsWord(w: string)
  {
    forall i :: 0 <= i < |w| ==> IsWordChar(w[i])
  }

  /** The longest run of word characters at the start of `s` (what `\w+` takes). */
  function WordPrefix(s: string): (w: string)
    ensures |w| <= |s| && w == s[..|w|]
    ensures IsWord(w)
    ensures |w| < |s| ==> !IsWordChar(s[|w|])
    decreases |s|
  {
    if s != [] && IsWordChar(s[0]) then [s[0]] + WordPrefix(s[1..]) else []
  }

  /** A match: the variable name and how many characters of the text it covers. */
  datatype Token = Token(name: string, length: nat)

  /**
   * The match of the pattern at the start of `s`; `afterDollar` says whether
   * the character just before `s` is a `$` (the look-behind).
   */
  function TokenAt(s: string, afterDollar: bool): (t: Option<Token>)
    ensures (s == [] || s[0] != '$' || afterDollar) ==> t.None?
    ensures t.Some? ==> 2 <= t.value.length <= |s| && s[t.value.length - 1] != '$'
  {
    if s == [] || s[0] != '$' || afterDollar then None
    else if |s| >= 2 && s[1] == '$' then None
    else
      var open := if |s| >= 2 && s[1] == '{' then 2 else 1;
      var w := WordPrefix(s[open..]);
      if w == [] then None
      else
        var e := open + |w|;
        var k := if e < |s| && s[e] == '}' then e + 1 else e;
        assert s[open..e] == w;
        Some(Token(w, k))
  }

  /** A match is `$NAME`, `${NAME`, `$NAME}` or `${NAME}` for a non-empty word NAME. */
  lemma TokenShape(s: string, afterDollar: bool)
    requires TokenAt(s, afterDollar).Some?
    ensures var n, k := TokenAt(s, afterDollar).value.name, TokenAt(s, afterDollar).value.length;
      && n != [] && IsWord(n)
      && (s[..k] == "$" + n || s[..k] == "${" + n
          || s[..k] == "$" + n + "}" || s[..k] == "${" + n + "}")
  {
    var open := if |s| >= 2 && s[1] == '{' then 2 else 1;
    var w := WordPrefix(s[open..]);
    var e := open + |w|;
    var k := if e < |s| && s[e] == '}' then e + 1 else e;
    assert s[open..e] == w;
    assert open == 1 ==> s[..e] == "$" + w;
    assert open == 2 ==> s[..e] == "${" + w;
    assert k == e + 1 ==> s[..k] == s[..e] + "}";
  }

  /**
   * `s.gsub(pattern) { |v| f(name of v) }`, for the text `s` whose preceding
   * character is a `$` exactly when `afterDollar` holds.
   */
  function Scan(s: string, afterDollar: bool, f: string -> string): string
    decreases |s|
  {
    if s == [] then ""
    else
      match TokenAt(s, afterDollar)
      case Some(t) => f(t.name) + Scan(s[t.length..], false, f)
      case None => [s[0]] + Scan(s[1..], s[0] == '$', f)
  }

  /** The names of the variables `Scan` replaces, in the order it meets them. */
  function Names(s: string, afterDollar: bool): seq<string>
    decreases |s|
  {
    if s == [] then []
    else
      match TokenAt(s, afterDollar)
      case Some(t) => [t.name] + Names(s[t.length..], false)
      case None => Names(s[1..], s[0] == '$')
  }

  /** The replacement that ignores the name. */
  function Constant(filler: string): string -> string
  {
    _ => filler
  }

  /** `interpolate(text, filler)`: every reference becomes the filler text. */
  function Filled(text: string, filler: string): string
  {
    Scan(text, false, Constant(filler))
  }

  /** `replace_dollar_dollars`: `text.gsub('$$', '$')`. */
  function CollapseDollars(s: string): string
    decreases |s|
  {
    if |s| >= 2 && s[0] == '$' && s[1] == '$' then "$" + CollapseDollars(s[2..])
    else if s == [] then ""
    else [s[0]] + CollapseDollars(s[1..])
  }

  /** The text `load_yaml` hands to the YAML parser: interpolation first, then the collapse. */
  function Loaded(text: string, f: string -> string): string
  {
    CollapseDollars(Scan(text, false, f))
  }

  /** Writes every `$` of `t` as `$$`, the escape the stack file format offers. */
  function Escape(t: string): (e: string)
    ensures '$' !in t ==> e == t
    decreases |t|
  {
    if t == [] then ""
    else if t[0] == '$' then "$$" + Escape(t[1..])
    else [t[0]] + Escape(t[1..])
  }

  /** Text in which the pattern matches nowhere comes out of the scan unchanged. */
  lemma {:induction false} NoNamesUnchanged(s: string, afterDollar: bool, f: string -> string)
    requires Names(s, afterDollar) == []
    ensures Scan(s, afterDollar, f) == s
    decreases |s|
  {
    if s != [] {
      match TokenAt(s, afterDollar)
      case Some(t) =>
      case None =>
        NoNamesUnchanged(s[1..], s[0] == '$', f);
    }
  }

  /** Text without a `$` holds no reference. */
  lemma {:induction false} NoDollarNoNames(s: string, afterDollar: bool)
    requires '$' !in s
    ensures Names(s, afterDollar) == []
    decreases |s|
  {
    if s != [] {
      assert s[0] in s;
      NoDollarNoNames(s[1..], false);
    }
  }

  /** Interpolation (in filler mode or not) leaves a text without `$` alone. */
  lemma NoDollarUnchanged(s: string, f: string -> string)
    requires '$' !in s
    ensures Scan(s, false, f) == s
  {
    NoDollarNoNames(s, false);
    NoNamesUnchanged(s, false, f);
  }

  /** In escaped text every `$` has a `$` beside it, so the pattern matches nowhere. */
  lemma {:induction false} EscapedHasNoNames(t: string, afterDollar: bool)
    ensures Names(Escape(t), afterDollar) == []
    decreases |t|
  {
    if t != [] {
      var e := Escape(t);
      if t[0] == '$' {
        assert e == "$$" + Escape(t[1..]);
        assert TokenAt(e, afterDollar).None?;
        assert e[1..] == "$" + Escape(t[1..]);
        assert TokenAt(e[1..], true).None?;
        assert e[1..][1..] == Escape(t[1..]);
        EscapedHasNoNames(t[1..], true);
      } else {
        assert e == [t[0]] + Escape(t[1..]);
        assert e[1..] == Escape(t[1..]);
        EscapedHasNoNames(t[1..], false);
      }
    }
  }

  /** Collapsing `$$` undoes the escape. */
  lemma {:induction false} CollapseEscape(t: string)
    ensures CollapseDollars(Escape(t)) == t
    decreases |t|
  {
    if t != [] {
      CollapseEscape(t[1..]);
      var e := Escape(t);
      if t[0] == '$' {
        assert e[2..] == Escape(t[1..]);
      } else {
        assert e[1..] == Escape(t[1..]);
      }
      assert t == [t[0]] + t[1..];
    }
  }

  /**
   * Because `load_yaml` interpolates before it collapses `$$`, escaped text
   * reaches the parser as written, with no variable substituted.
   */
  lemma EscapedTextIsLiteral(t: string, f: string -> string)
    ensures Loaded(Escape(t), f) == t
  {
    EscapedHasNoNames(t, false);
    NoNamesUnchanged(Escape(t), false, f);
    CollapseEscape(t);
  }

  /** `$$FOO` in a stack file becomes the literal `$FOO`, never the value of FOO. */
  lemma DoubleDollarIsLiteral(name: string, f: string -> string)
    requires '$' !in name
    ensures Loaded("$$" + name, f) == "$" + name
  {
    assert Escape("$" + name) == "$$" + Escape(name) by {
      assert ("$" + name)[1..] == name;
    }
    EscapedTextIsLiteral("$" + name, f);
  }

  lemma {:induction false} WordPrefixOfWord(w: string, post: string)
    requires IsWord(w)
    requires post == [] || !IsWordChar(post[0])
    ensures WordPrefix(w + post) == w
    decreases |w|
  {
    if w == [] {
      assert w + post == post;
    } else {
      assert (w + post)[0] == w[0];
      assert (w + post)[1..] == w[1..] + post;
      WordPrefixOfWord(w[1..], post);
    }
  }

  /** A character other than `$` is copied, and the scan carries on behind it. */
  lemma ScanCopiesChar(c: char, rest: string, f: string -> string)
    requires c != '$'
    ensures Scan([c] + rest, false, f) == [c] + Scan(rest, false, f)
  {
    assert ([c] + rest)[1..] == rest;
  }

  /** `$NAME` not followed by a word character or `}` is a match of its own. */
  lemma BareToken(name: string, post: string)
    requires name != [] && IsWord(name)
    requires post == [] || (!IsWordChar(post[0]) && post[0] != '}')
    ensures TokenAt("$" + name + post, false) == Some(Token(name, 1 + |name|))
  {
    var s := "$" + name + post;
    assert s[1..] == name + post;
    assert s[1] == name[0];
    WordPrefixOfWord(name, post);
    assert 1 + |name| == |s| || s[1 + |name|] == post[0];
  }

  /** `${NAME}` is a match of its own, whatever follows it. */
  lemma BracedToken(name: string, post: string)
    requires name != [] && IsWord(name)
    ensures TokenAt("${" + name + "}" + post, false) == Some(Token(name, 3 + |name|))
  {
    var s := "${" + name + "}" + post;
    assert s[2..] == name + ("}" + post);
    WordPrefixOfWord(name, "}" + post);
    assert s[2 + |name|] == '}';
  }

  /** A match at the start is replaced, and the scan carries on behind it. */
  lemma ScanReplacesToken(s: string, t: Token, f: string -> string)
    requires s != [] && TokenAt(s, false) == Some(t)
    ensures Scan(s, false, f) == f(t.name) + Scan(s[t.length..], false, f)
  {
  }

  /** Text without `$` in front of `m` is copied, and the scan of `m` follows it. */
  lemma {:induction false} ScanCopiesPrefix(pre: string, m: string, f: string -> string)
    requires '$' !in pre
    ensures Scan(pre + m, false, f) == pre + Scan(m, false, f)
    decreases |pre|
  {
    if pre == [] {
      assert pre + m == m;
    } else {
      var c, rest := pre[0], pre[1..];
      assert c in pre;
      assert '$' !in rest by {
        forall i | 0 <= i < |rest| ensures rest[i] != '$' { assert rest[i] == pre[i + 1]; }
      }
      assert pre + m == [c] + (rest + m);
      calc {
        Scan(pre + m, false, f);
        { ScanCopiesChar(c, rest + m, f); }
        [c] + Scan(rest + m, false, f);
        { ScanCopiesPrefix(rest, m, f); }
        [c] + (rest + Scan(m, false, f));
        { assert [c] + rest == pre; }
        pre + Scan(m, false, f);
      }
    }
  }

  /**
   * `$NAME` after text without `$` is replaced by `f(NAME)`; the text before
   * it is kept and the scan carries on behind the name.
   */
  lemma ReplacesBareReference(pre: string, name: string, post: string, f: string -> string)
    requires '$' !in pre
    requires name != [] && IsWord(name)
    requires post == [] || (!IsWordChar(post[0]) && post[0] != '}')
    ensures Scan(pre + "$" + name + post, false, f) == pre + f(name) + Scan(post, false, f)
  {
    var s := "$" + name + post;
    assert pre + "$" + name + post == pre + s;
    BareToken(name, post);
    ScanReplacesToken(s, Token(name, 1 + |name|), f);
    assert s[1 + |name|..] == post;
    ScanCopiesPrefix(pre, s, f);
  }

  /** `${NAME}` after text without `$` is replaced by `f(NAME)`, whatever follows it. */
  lemma ReplacesBracedReference(pre: string, name: string, post: string, f: string -> string)
    requires '$' !in pre
    requires name != [] && IsWord(name)
    ensures Scan(pre + "${" + name + "}" + post, false, f) == pre + f(name) + Scan(post, false, f)
  {
    var braced := "${" + name + "}";
    var s := braced + post;
    assert pre + "${" + name + "}" + post == pre + s;
    BracedToken(name, post);
    ScanReplacesToken(s, Token(name, 3 + |name|), f);
    assert s[3 + |name|..] == post;
    ScanCopiesPrefix(pre, s, f);
  }
}
