/**
 * The core String methods the stack tooling leans on, with Ruby's own edge
 * cases: `split` with a one-character separator (trailing empty fields are
 * dropped, so `"".split(':')` is `[]`), `strip`, and the pieces of text the
 * regular expressions of the reader pick out.
 */
module RubyStrings {

  datatype Option<+T> = None | Some(value: T)

  /** Every field of `s` between occurrences of `sep`, empty ones included. */
  function Fields(s: string, sep: char): (fs: seq<string>)
    ensures |fs| >= 1
    decreases |s|
  {
    if s == [] then [""]
    else
      var rest := Fields(s[1..], sep);
      if s[0] == sep then [""] + rest
      else [[s[0]] + rest[0]] + rest[1..]
  }

  /** `fs.join(sep)` */
  function Join(fs: seq<string>, sep: char): string
    requires |fs| >= 1
    decreases |fs|
  {
    if |fs| == 1 then fs[0] else fs[0] + [sep] + Join(fs[1..], sep)
  }

  /** Drops the empty fields at the end, as `String#split` does. */
  function DropTrailingEmpty(fs: seq<string>): (r: seq<string>)
    ensures |r| <= |fs| && r == fs[..|r|]
    ensures r == [] || r[|r| - 1] != ""
    ensures forall i :: |r| <= i < |fs| ==> fs[i] == ""
    decreases |fs|
  {
    if fs != [] && fs[|fs| - 1] == "" then DropTrailingEmpty(fs[..|fs| - 1]) else fs
  }

  /** `s.split(sep)` for a separator of one character other than a space. */
  function Split(s: string, sep: char): seq<string>
  {
    DropTrailingEmpty(Fields(s, sep))
  }

  /** The text before the first `c` (all of `s` when there is none). */
  function TakeUntil(s: string, c: char): (r: string)
    ensures |r| <= |s| && r == s[..|r|]
    ensures c !in r
    ensures |r| < |s| ==> s[|r|] == c
    decreases |s|
  {
    if s == [] || s[0] == c then [] else [s[0]] + TakeUntil(s[1..], c)
  }

  /** The text after the first `c` (empty when there is none). */
  function AfterFirst(s: string, c: char): (r: string)
    ensures c in s ==> s == TakeUntil(s, c) + [c] + r
  {
    var k := |TakeUntil(s, c)|;
    if k < |s| then s[k + 1..] else []
  }

  /** The text after the last `c` (all of `s` when there is none). */
  function AfterLast(s: string, c: char): (r: string)
    ensures |r| <= |s| && r == s[|s| - |r|..]
    ensures c !in r
    ensures |r| < |s| ==> s[|s| - |r| - 1] == c
    decreases |s|
  {
    if s == [] || s[|s| - 1] == c then [] else AfterLast(s[..|s| - 1], c) + [s[|s| - 1]]
  }

  /** `s` without the run of `c` at its end. */
  function TrimEnd(s: string, c: char): (r: string)
    ensures |r| <= |s| && r == s[..|r|]
    ensures r == [] || r[|r| - 1] != c
    ensures forall i :: |r| <= i < |s| ==> s[i] == c
    decreases |s|
  {
    if s != [] && s[|s| - 1] == c then TrimEnd(s[..|s| - 1], c) else s
  }

  /** The first character and the rest of `a + [sep] + b`. */
  lemma SepConcatParts(a: string, sep: char, b: string)
    ensures a == [] ==> (a + [sep] + b)[0] == sep && (a + [sep] + b)[1..] == b
    ensures a != [] ==> (a + [sep] + b)[0] == a[0] && (a + [sep] + b)[1..] == a[1..] + [sep] + b
  {
    if a == [] {
      assert a + [sep] + b == [sep] + b;
    }
  }

  /** Splitting at a separator followed by more text splits the two sides apart. */
  lemma {:induction false} FieldsConcat(a: string, b: string, sep: char)
    ensures Fields(a + [sep] + b, sep) == Fields(a, sep) + Fields(b, sep)
    decreases |a|
  {
    SepConcatParts(a, sep, b);
    if a != [] {
      FieldsConcat(a[1..], b, sep);
    }
  }

  /** No field contains the separator. */
  lemma {:induction false} FieldsNoSep(s: string, sep: char)
    ensures forall i :: 0 <= i < |Fields(s, sep)| ==> sep !in Fields(s, sep)[i]
    decreases |s|
  {
    if s != [] {
      FieldsNoSep(s[1..], sep);
    }
  }

  lemma {:induction false} FieldsWithoutSep(a: string, sep: char)
    requires sep !in a
    ensures Fields(a, sep) == [a]
    decreases |a|
  {
    if a != [] {
      FieldsWithoutSep(a[1..], sep);
      assert [a[0]] + a[1..] == a;
    }
  }

  /** Joining the fields gives back the text. */
  lemma {:induction false} JoinFields(s: string, sep: char)
    ensures Join(Fields(s, sep), sep) == s
    decreases |s|
  {
    if s != [] {
      JoinFields(s[1..], sep);
      var rest := Fields(s[1..], sep);
      if s[0] == sep {
        assert Fields(s, sep)[1..] == rest;
      } else {
        var fs := Fields(s, sep);
        assert fs[1..] == rest[1..];
        if |rest| > 1 {
          assert Join(rest, sep) == rest[0] + [sep] + Join(rest[1..], sep);
        }
        assert s == [s[0]] + s[1..];
      }
    }
  }

  /** The fields of separator-free pieces joined together are those pieces. */
  lemma {:induction false} FieldsJoin(fs: seq<string>, sep: char)
    requires |fs| >= 1
    requires forall i :: 0 <= i < |fs| ==> sep !in fs[i]
    ensures Fields(Join(fs, sep), sep) == fs
    decreases |fs|
  {
    if |fs| == 1 {
      FieldsWithoutSep(fs[0], sep);
    } else {
      FieldsJoin(fs[1..], sep);
      FieldsConcat(fs[0], Join(fs[1..], sep), sep);
      FieldsWithoutSep(fs[0], sep);
      assert [fs[0]] + fs[1..] == fs;
    }
  }

  lemma {:induction false} FirstField(s: string, sep: char)
    ensures Fields(s, sep)[0] == TakeUntil(s, sep)
    decreases |s|
  {
    if s != [] && s[0] != sep {
      FirstField(s[1..], sep);
    }
  }

  /** `s.split(sep)` is empty exactly when `s` is nothing but separators. */
  lemma {:induction false} SplitEmpty(s: string, sep: char)
    ensures Split(s, sep) == [] <==> forall i :: 0 <= i < |s| ==> s[i] == sep
    decreases |s|
  {
    var fs := Fields(s, sep);
    if s != [] {
      SplitEmpty(s[1..], sep);
      var rest := Fields(s[1..], sep);
      if s[0] == sep {
        assert fs == [""] + rest;
        var r := DropTrailingEmpty(rest);
        if r == [] {
          assert forall i :: 0 <= i < |fs| ==> fs[i] == "";
          DropAllEmpty(fs);
        } else {
          assert fs[1 + |r| - 1] == r[|r| - 1] != "";
          assert Split(s, sep) != [];
          var i :| 0 <= i < |s[1..]| && s[1..][i] != sep;
          assert s[i + 1] != sep;
        }
      } else {
        assert fs[0] != "";
        assert s[0] != sep;
        assert Split(s, sep) != [];
      }
    }
  }

  lemma {:induction false} DropAllEmpty(fs: seq<string>)
    requires forall i :: 0 <= i < |fs| ==> fs[i] == ""
    ensures DropTrailingEmpty(fs) == []
    decreases |fs|
  {
    if fs != [] {
      DropAllEmpty(fs[..|fs| - 1]);
    }
  }

  /** The first element of a non-empty `split` is the text before the first separator. */
  lemma SplitFirst(s: string, sep: char)
    requires Split(s, sep) != []
    ensures Split(s, sep)[0] == TakeUntil(s, sep)
  {
    FirstField(s, sep);
  }

  /** The second element of `split` is the text between the first two separators. */
  lemma SplitSecond(s: string, sep: char)
    requires |Split(s, sep)| >= 2
    ensures sep in s
    ensures Split(s, sep)[1] == TakeUntil(AfterFirst(s, sep), sep)
  {
    var fs := Fields(s, sep);
    if sep !in s {
      FieldsWithoutSep(s, sep);
      assert false;
    }
    var a, b := TakeUntil(s, sep), AfterFirst(s, sep);
    FieldsConcat(a, b, sep);
    FieldsWithoutSep(a, sep);
    assert fs[1] == Fields(b, sep)[0];
    FirstField(b, sep);
  }

  lemma SplitDropsTrailingSep(u: string, sep: char)
    ensures Split(u + [sep], sep) == Split(u, sep)
  {
    FieldsConcat(u, [], sep);
    assert u + [sep] + [] == u + [sep];
    var fs := Fields(u, sep) + [""];
    assert fs[..|fs| - 1] == Fields(u, sep);
  }

  lemma {:induction false} SplitTrimEnd(s: string, sep: char)
    ensures Split(s, sep) == Split(TrimEnd(s, sep), sep)
    decreases |s|
  {
    if s != [] && s[|s| - 1] == sep {
      var u := s[..|s| - 1];
      assert s == u + [sep];
      SplitDropsTrailingSep(u, sep);
      SplitTrimEnd(u, sep);
    }
  }

  lemma LastFieldAfterSep(a: string, r: string, sep: char)
    requires sep !in r
    ensures Fields(a + [sep] + r, sep)[|Fields(a + [sep] + r, sep)| - 1] == r
  {
    FieldsConcat(a, r, sep);
    FieldsWithoutSep(r, sep);
  }

  lemma LastField(s: string, sep: char)
    ensures Fields(s, sep)[|Fields(s, sep)| - 1] == AfterLast(s, sep)
  {
    var r := AfterLast(s, sep);
    if |r| < |s| {
      var k := |s| - |r| - 1;
      assert s[k] == sep;
      assert s[k + 1..] == r;
      assert s == s[..k] + [sep] + r by {
        assert s == s[..k] + [s[k]] + s[k + 1..];
      }
      LastFieldAfterSep(s[..k], r, sep);
    } else {
      assert r == s;
      FieldsWithoutSep(s, sep);
    }
  }

  /** Fields that do not end in an empty one are kept whole. */
  lemma DropNothing(fs: seq<string>)
    requires fs != [] && fs[|fs| - 1] != ""
    ensures DropTrailingEmpty(fs) == fs
  {
  }

  /** `"".split(sep)` is empty. */
  lemma SplitNothing(sep: char)
    ensures Split("", sep) == []
  {
    assert Fields("", sep) == [""];
    assert [""][..0] == [];
  }

  /** Text that does not end in `c` has text after its last `c`. */
  lemma AfterLastOfNonSep(s: string, c: char)
    requires s != [] && s[|s| - 1] != c
    ensures AfterLast(s, c) != []
  {
  }

  /** Text that does not end in the separator splits into all its fields. */
  lemma SplitNotEndingInSep(s: string, sep: char)
    requires s != [] && s[|s| - 1] != sep
    ensures Split(s, sep) == Fields(s, sep) && Split(s, sep) != []
  {
    LastField(s, sep);
    AfterLastOfNonSep(s, sep);
    DropNothing(Fields(s, sep));
  }

  /** Text that splits into something keeps some text, not ending in the separator, once the separators at its end are trimmed. */
  lemma TrimEndOfSplit(s: string, sep: char)
    requires Split(s, sep) != []
    ensures TrimEnd(s, sep) != [] && TrimEnd(s, sep)[|TrimEnd(s, sep)| - 1] != sep
    ensures Split(s, sep) == Fields(TrimEnd(s, sep), sep)
  {
    var t := TrimEnd(s, sep);
    SplitTrimEnd(s, sep);
    if t == [] {
      SplitNothing(sep);
    }
    SplitNotEndingInSep(t, sep);
  }

  /**
   * The last element of a non-empty `split` is the text after the last
   * separator, once separators at the very end are set aside.
   */
  lemma SplitLast(s: string, sep: char)
    requires Split(s, sep) != []
    ensures Split(s, sep)[|Split(s, sep)| - 1] == AfterLast(TrimEnd(s, sep), sep)
  {
    TrimEndOfSplit(s, sep);
    LastField(TrimEnd(s, sep), sep);
  }



  lemma {:induction false} TakeUntilConcat(a: string, c: char, rest: string)
    requires c !in a
    ensures TakeUntil(a + [c] + rest, c) == a
    decreases |a|
  {
    if a == [] {
      assert (a + [c] + rest)[0] == c;
    } else {
      var s := a + [c] + rest;
      assert s[0] == a[0] && s[1..] == a[1..] + [c] + rest;
      TakeUntilConcat(a[1..], c, rest);
      assert a == [a[0]] + a[1..];
    }
  }

  lemma TakeUntilAbsent(s: string, c: char)
    requires c !in s
    ensures TakeUntil(s, c) == s
  {
  }

  lemma AfterFirstConcat(a: string, c: char, rest: string)
    requires c !in a
    ensures AfterFirst(a + [c] + rest, c) == rest
  {
    TakeUntilConcat(a, c, rest);
    assert (a + [c] + rest)[|a| + 1..] == rest;
  }

  lemma {:induction false} AfterLastConcat(a: string, c: char, rest: string)
    requires c !in rest
    ensures AfterLast(a + [c] + rest, c) == rest
    decreases |rest|
  {
    var s := a + [c] + rest;
    if rest != [] {
      var init := rest[..|rest| - 1];
      assert rest[|rest| - 1] in rest;
      assert s[..|s| - 1] == a + [c] + init;
      AfterLastConcat(a, c, init);
      assert rest == init + [rest[|rest| - 1]];
    }
  }

  lemma TrimEndNothing(s: string, c: char)
    requires s == [] || s[|s| - 1] != c
    ensures TrimEnd(s, c) == s
  {
  }

  /** Two pieces without the separator, joined by it, split back into those pieces. */
  lemma SplitPair(a: string, b: string, sep: char)
    requires sep !in a && sep !in b && b != ""
    ensures Split(a + [sep] + b, sep) == [a, b]
  {
    FieldsConcat(a, b, sep);
    FieldsWithoutSep(a, sep);
    FieldsWithoutSep(b, sep);
  }

  /** The characters `String#strip` removes. */
  predicate IsSpace(c: char)
  {
    c == ' ' || c == '\t' || c == '\n' || c == '\U{000B}' || c == '\U{000C}' || c == '\r' || c == '\0'
  }

  function LStrip(s: string): (r: string)
    ensures |r| <= |s| && r == s[|s| - |r|..]
    ensures forall i :: 0 <= i < |s| - |r| ==> IsSpace(s[i])
    ensures r == [] || !IsSpace(r[0])
    decreases |s|
  {
    if s != [] && IsSpace(s[0]) then LStrip(s[1..]) else s
  }

  function RStrip(s: string): (r: string)
    ensures |r| <= |s| && r == s[..|r|]
    ensures forall i :: |r| <= i < |s| ==> IsSpace(s[i])
    ensures r == [] || !IsSpace(r[|r| - 1])
    decreases |s|
  {
    if s != [] && IsSpace(s[|s| - 1]) then RStrip(s[..|s| - 1]) else s
  }

  /** `s.strip`: the text without its leading and trailing whitespace. */
  function Strip(s: string): (r: string)
    ensures r == [] || (!IsSpace(r[0]) && !IsSpace(r[|r| - 1]))
    ensures |r| <= |s|
  {
    var l := LStrip(s);
    var r := RStrip(l);
    assert r != [] ==> r[0] == l[0];
    r
  }

  predicate StartsWith(s: string, c: char)
  {
    s != [] && s[0] == c
  }

  function Digit(d: nat): char
    requires d < 10
  {
    "0123456789"[d]
  }

  function NatToString(n: nat): (r: string)
    ensures |r| >= 1
    decreases n
  {
    if n < 10 then [Digit(n)] else NatToString(n / 10) + [Digit(n % 10)]
  }

  /** `Integer#to_s`: decimal digits, with a leading minus sign when negative. */
  function IntToString(i: int): string
  {
    if i < 0 then "-" + NatToString(-i) else NatToString(i)
  }
}
