/**
 * The stack file reader: stack name and version, interpolation of variables,
 * the environment and build-argument normalisation applied to each service,
 * and the `extends` chain between services.
 */
module StackReader {
  import opened RubyStrings
  import opened RubyValues
  import opened Interpolation

  const EnvironmentKey := Str("environment")
  const EnvFileKey := Str("env_file")
  const BuildKey := Str("build")
  const ArgsKey := Str("args")
  const ExtendsKey := Str("extends")

  // ---------------------------------------------------------------------
  // Stack name and version
  // ---------------------------------------------------------------------

  /** `stack.split('/').last.split(':').first if stack` */
  function StackNameOf(stack: Value): (r: Result<Value>)
    ensures !Truthy(stack) ==> r == Ok(Nil)
    ensures Truthy(stack) && !stack.Str? ==> r.Err?
    ensures r.Ok? ==> r.value.Nil? || r.value.Str?
  {
    if !Truthy(stack) then Ok(Nil)
    else if !stack.Str? then Err(NoMethodError("split"))
    else
      var segments := Split(stack.s, '/');
      if segments == [] then Err(NoMethodError("split"))   // nil.split, on a stack of slashes only
      else SegmentName(segments[|segments| - 1])
  }

  /** `segment.split(':').first` */
  function SegmentName(segment: string): Result<Value>
  {
    var parts := Split(segment, ':');
    if parts == [] then Ok(Nil) else Ok(Str(parts[0]))
  }

  /**
   * The stack name is the text before the first `:` in the last `/` segment
   * (slashes at the very end set aside); a stack of slashes only raises, and
   * a last segment of colons only gives nil.
   */
  lemma StackNameIsLastSegment(text: string)
    ensures TrimEnd(text, '/') == [] ==> StackNameOf(Str(text)).Err?
    ensures TrimEnd(text, '/') != [] ==>
      var segment := AfterLast(TrimEnd(text, '/'), '/');
      StackNameOf(Str(text)) ==
        if forall i :: 0 <= i < |segment| ==> segment[i] == ':' then Ok(Nil)
        else Ok(Str(TakeUntil(segment, ':')))
  {
    var t := TrimEnd(text, '/');
    SplitTrimEnd(text, '/');
    if t == [] {
      assert Fields(t, '/') == [""];
      assert Split(text, '/') == [];
    } else {
      NameOfLastSegment(text);
      var segment := AfterLast(t, '/');
      SegmentNameParts(segment);
      if Split(segment, ':') == [] {
        assert forall i :: 0 <= i < |segment| ==> segment[i] == ':';
      } else {
        assert !forall i :: 0 <= i < |segment| ==> segment[i] == ':';
      }
    }
  }

  lemma NameOfLastSegment(text: string)
    requires TrimEnd(text, '/') != []
    ensures StackNameOf(Str(text)) == SegmentName(AfterLast(TrimEnd(text, '/'), '/'))
  {
    var t := TrimEnd(text, '/');
    SplitTrimEnd(text, '/');
    SplitNotEndingInSep(t, '/');
    SplitLast(text, '/');
    NameOfSegment(text, AfterLast(t, '/'));
  }

  /** The stack name is taken from the last `/` segment alone. */
  lemma NameOfSegment(text: string, last: string)
    requires Split(text, '/') != [] && Split(text, '/')[|Split(text, '/')| - 1] == last
    ensures StackNameOf(Str(text)) == SegmentName(last)
  {
  }

  lemma SegmentNameParts(segment: string)
    ensures Split(segment, ':') == [] <==> forall i :: 0 <= i < |segment| ==> segment[i] == ':'
    ensures Split(segment, ':') != [] ==> Split(segment, ':')[0] == TakeUntil(segment, ':')
  {
    SplitEmpty(segment, ':');
    if Split(segment, ':') != [] {
      SplitFirst(segment, ':');
    }
  }

  /** `stack[/:(.*)/, 1]`: the rest of the line after the first `:`, or nil. */
  function VersionCapture(stack: Value): (r: Result<Value>)
    ensures stack.Str? && ':' !in stack.s ==> r == Ok(Nil)
    ensures stack.Str? && ':' in stack.s ==>
      r == Ok(Str(TakeUntil(AfterFirst(stack.s, ':'), '\n')))
    ensures r.Ok? <==> stack.Str?
  {
    match stack
    case Str(s) => if ':' in s then Ok(Str(TakeUntil(AfterFirst(s, ':'), '\n'))) else Ok(Nil)
    case Nil => Err(NoMethodError("[]"))
    case Bool(_) => Err(NoMethodError("[]"))
    case Float(_) => Err(NoMethodError("[]"))
    case Hash(_) => Err(ArgumentError("wrong number of arguments (given 2, expected 1)"))
    case _ => Err(TypeError)
  }

  /** `version || stack[/:(.*)/, 1] || '1'` */
  function StackVersionOf(version: Value, stack: Value): (r: Result<Value>)
    ensures Truthy(version) ==> r == Ok(version)
    ensures !Truthy(version) && stack.Str? && ':' !in stack.s ==> r == Ok(Str("1"))
    ensures !Truthy(version) && stack.Str? && ':' in stack.s ==>
      r == Ok(Str(TakeUntil(AfterFirst(stack.s, ':'), '\n')))
    ensures !Truthy(version) && !stack.Str? ==> r.Err?
  {
    if Truthy(version) then Ok(version)
    else
      var captured :- VersionCapture(stack);
      Ok(Or(captured, Str("1")))
  }

  /**
   * A stack reference `<prefix>/<name>:<version>` (with `/` and `:` only as
   * the separators shown and `version` on one line) reads back as its name
   * and, when the file gives no `version`, its version.
   */
  lemma ReferenceRoundTrip(prefix: string, name: string, version: string)
    requires ':' !in prefix && '/' !in name && ':' !in name && name != ""
    requires '/' !in version && '\n' !in version
    ensures StackNameOf(Str(prefix + "/" + name + ":" + version)) == Ok(Str(name))
    ensures StackVersionOf(Nil, Str(prefix + "/" + name + ":" + version)) == Ok(Str(version))
  {
    ReferenceName(prefix, name, version);
    var head := prefix + "/" + name;
    assert prefix + "/" + name + ":" + version == head + [':'] + version;
    AfterFirstConcat(head, ':', version);
    TakeUntilAbsent(version, '\n');
  }

  lemma ReferenceName(prefix: string, name: string, version: string)
    requires '/' !in name && ':' !in name && name != "" && '/' !in version
    ensures StackNameOf(Str(prefix + "/" + name + ":" + version)) == Ok(Str(name))
  {
    var segment := name + ":" + version;
    assert '/' !in segment;
    assert prefix + "/" + name + ":" + version == prefix + "/" + segment;
    LastSegmentOf(prefix, segment);
    NameOfLastSegment(prefix + "/" + segment);
    SegmentNameOfReference(name, version);
  }

  /** A last segment with no `/` in it is what the reference ends with. */
  lemma LastSegmentOf(prefix: string, segment: string)
    requires '/' !in segment && segment != []
    ensures TrimEnd(prefix + "/" + segment, '/') == prefix + "/" + segment
    ensures AfterLast(prefix + "/" + segment, '/') == segment
  {
    var text := prefix + "/" + segment;
    assert text == prefix + ['/'] + segment;
    assert text[|text| - 1] == segment[|segment| - 1];
    assert segment[|segment| - 1] in segment;
    TrimEndNothing(text, '/');
    AfterLastConcat(prefix, '/', segment);
  }

  /** `name:version` names the stack `name`. */
  lemma SegmentNameOfReference(name: string, version: string)
    requires ':' !in name && name != ""
    ensures SegmentName(name + ":" + version) == Ok(Str(name))
  {
    var segment := name + ":" + version;
    assert segment == name + [':'] + version;
    assert segment[0] == name[0] && name[0] in name;
    SplitEmpty(segment, ':');
    SplitFirst(segment, ':');
    TakeUntilConcat(name, ':', version);
  }


  // ---------------------------------------------------------------------
  // Environment variables
  // ---------------------------------------------------------------------

  /** `"#{k}=#{v}"`, one line of a normalised environment. */
  function EnvLine(k: Value, v: Value): string
  {
    ToS(k) + "=" + ToS(v)
  }

  function StrValues(xs: seq<string>): (vs: seq<Value>)
    ensures |vs| == |xs| && forall i :: 0 <= i < |xs| ==> vs[i] == Str(xs[i])
  {
    seq(|xs|, i requires 0 <= i < |xs| => Str(xs[i]))
  }

  /** normalize_env_vars on the value of `environment`: a hash becomes its `k=v` lines. */
  function NormalizedEnvironment(env: Value): (r: Value)
    ensures !env.Hash? ==> r == env
    ensures env.Hash? ==> r.List? && |r.items| == |env.entries|
  {
    if env.Hash? then
      List(StrValues(seq(|env.entries|, i requires 0 <= i < |env.entries| =>
        EnvLine(env.entries[i].0, env.entries[i].1))))
    else env
  }

  /** `s.split('=').first`: the variable a line sets (nil for a line of `=` only). */
  function EnvKey(s: string): Option<string>
  {
    var parts := Split(s, '=');
    if parts == [] then None else Some(parts[0])
  }

  /** The key of `k=v` is `k`, whatever `v` holds. */
  lemma EnvKeyOfLine(k: string, v: string)
    requires k != "" && '=' !in k
    ensures EnvKey(k + "=" + v) == Some(k)
  {
    var s := k + "=" + v;
    assert s == k + ['='] + v;
    assert s[0] != '=';
    SplitEmpty(s, '=');
    SplitFirst(s, '=');
    TakeUntilConcat(k, '=', v);
  }

  /**
   * Normalising a hash environment keeps each variable's name: when every key
   * renders as a non-empty text without `=`, line `i` sets the key of entry `i`.
   */
  lemma NormalizedKeys(h: Dict)
    requires forall i :: 0 <= i < |h| ==> ToS(h[i].0) != "" && '=' !in ToS(h[i].0)
    ensures var r := NormalizedEnvironment(Hash(h));
      forall i :: 0 <= i < |h| ==>
        r.items[i] == Str(EnvLine(h[i].0, h[i].1)) && EnvKey(r.items[i].s) == Some(ToS(h[i].0))
  {
    forall i | 0 <= i < |h|
      ensures EnvKey(EnvLine(h[i].0, h[i].1)) == Some(ToS(h[i].0))
    {
      EnvKeyOfLine(ToS(h[i].0), ToS(h[i].1));
    }
  }

  /** The key of each line, as the block of `uniq!` computes it. */
  type KeyOf = string -> Option<string>

  /** The first line of `xs` whose key is `k`. */
  function FirstWithKey(xs: seq<string>, key: KeyOf, k: Option<string>): (r: Option<string>)
    ensures r.Some? ==> r.value in xs && key(r.value) == k
    ensures r.None? ==> forall i :: 0 <= i < |xs| ==> key(xs[i]) != k
    decreases |xs|
  {
    if xs == [] then None
    else if key(xs[0]) == k then Some(xs[0])
    else FirstWithKey(xs[1..], key, k)
  }

  function KeysOf(xs: seq<string>, key: KeyOf): set<Option<string>>
  {
    set i | 0 <= i < |xs| :: key(xs[i])
  }

  lemma KeysOfCons(x: string, xs: seq<string>, key: KeyOf)
    ensures KeysOf([x] + xs, key) == {key(x)} + KeysOf(xs, key)
  {
    var r := [x] + xs;
    forall y | y in KeysOf(r, key) ensures y in {key(x)} + KeysOf(xs, key) {
      var i :| 0 <= i < |r| && key(r[i]) == y;
      if i > 0 {
        assert r[i] == xs[i - 1];
      }
    }
    forall y | y in {key(x)} + KeysOf(xs, key) ensures y in KeysOf(r, key) {
      if y != key(x) {
        var i :| 0 <= i < |xs| && key(xs[i]) == y;
        assert r[i + 1] == xs[i];
      } else {
        assert r[0] == x;
      }
    }
  }

  /** `uniq!` by `key` over `xs`, with the keys in `seen` already taken. */
  function UniqFrom(xs: seq<string>, seen: set<Option<string>>, key: KeyOf): (r: seq<string>)
    ensures forall i :: 0 <= i < |r| ==> r[i] in xs && key(r[i]) !in seen
    ensures forall i, j :: 0 <= i < j < |r| ==> key(r[i]) != key(r[j])
    ensures KeysOf(r, key) == KeysOf(xs, key) - seen
    ensures forall i :: 0 <= i < |r| ==> FirstWithKey(xs, key, key(r[i])) == Some(r[i])
    decreases |xs|
  {
    if xs == [] then []
    else
      var k := key(xs[0]);
      assert xs == [xs[0]] + xs[1..];
      KeysOfCons(xs[0], xs[1..], key);
      if k in seen then UniqFrom(xs[1..], seen, key)
      else
        var rest := UniqFrom(xs[1..], seen + {k}, key);
        var r := [xs[0]] + rest;
        KeysOfCons(xs[0], rest, key);
        r
  }

  /**
   * `environment.uniq! { |s| s.split('=').first }`: one line per key, the
   * first line that sets it.
   */
  function UniqByKey(xs: seq<string>): (r: seq<string>)
    ensures forall i :: 0 <= i < |r| ==> r[i] in xs
    ensures forall i, j :: 0 <= i < j < |r| ==> EnvKey(r[i]) != EnvKey(r[j])
    ensures KeysOf(r, EnvKey) == KeysOf(xs, EnvKey)
    ensures forall i :: 0 <= i < |r| ==> FirstWithKey(xs, EnvKey, EnvKey(r[i])) == Some(r[i])
  {
    UniqFrom(xs, {}, EnvKey)
  }

  lemma {:induction false} FirstWithKeyAppend(xs: seq<string>, ys: seq<string>, key: KeyOf, k: Option<string>)
    requires FirstWithKey(xs, key, k).Some?
    ensures FirstWithKey(xs + ys, key, k) == FirstWithKey(xs, key, k)
    decreases |xs|
  {
    assert xs != [];
    assert (xs + ys)[0] == xs[0];
    if key(xs[0]) != k {
      assert (xs + ys)[1..] == xs[1..] + ys;
      FirstWithKeyAppend(xs[1..], ys, key, k);
    }
  }


  /**
   * A variable set inline wins over the env files: the first inline line for
   * a key is the one line for that key left after merging.
   */
  lemma InlineWins(inline: seq<string>, fromFiles: seq<string>, x: string)
    requires x in inline && FirstWithKey(inline, EnvKey, EnvKey(x)) == Some(x)
    ensures var r := UniqByKey(inline + fromFiles);
      x in r && forall y :: y in r && EnvKey(y) == EnvKey(x) ==> y == x
  {
    var xs := inline + fromFiles;
    var r := UniqByKey(xs);
    FirstWithKeyAppend(inline, fromFiles, EnvKey, EnvKey(x));
    var i :| 0 <= i < |inline| && inline[i] == x;
    assert xs[i] == x;
    assert EnvKey(x) in KeysOf(xs, EnvKey);
    var j :| 0 <= j < |r| && EnvKey(r[j]) == EnvKey(x);
    assert r[j] == x;
  }

  /** read_env_file on the file's text: its lines stripped, without blank lines and comments. */
  function ReadEnvFile(content: string): seq<string>
  {
    var raw := Fields(content, '\n');
    KeptLines(seq(|raw|, i requires 0 <= i < |raw| => Strip(raw[i])))
  }

  /** The lines read from an env file are stripped, non-empty and not comments. */
  lemma ReadEnvFileClean(content: string)
    ensures forall l :: l in ReadEnvFile(content) ==>
      l != "" && !StartsWith(l, '#') && !IsSpace(l[0]) && !IsSpace(l[|l| - 1])
  {
    var raw := Fields(content, '\n');
    var stripped := seq(|raw|, i requires 0 <= i < |raw| => Strip(raw[i]));
    forall l | l in KeptLines(stripped)
      ensures !IsSpace(l[0]) && !IsSpace(l[|l| - 1])
    {
      var j :| 0 <= j < |stripped| && stripped[j] == l;
      assert l == Strip(raw[j]);
    }
  }

  /** Every line of an env file that is not blank or a comment is read, stripped. */
  lemma ReadEnvFileComplete(content: string, l: string)
    requires l in Fields(content, '\n') && Strip(l) != "" && !StartsWith(Strip(l), '#')
    ensures Strip(l) in ReadEnvFile(content)
  {
    var raw := Fields(content, '\n');
    var stripped := seq(|raw|, i requires 0 <= i < |raw| => Strip(raw[i]));
    var i :| 0 <= i < |raw| && raw[i] == l;
    assert stripped[i] == Strip(l);
  }

  /** `delete_if { |line| line.start_with?('#') || line.empty? }` */
  function KeptLines(ls: seq<string>): (r: seq<string>)
    ensures forall i :: 0 <= i < |r| ==> r[i] in ls && r[i] != "" && !StartsWith(r[i], '#')
    ensures forall l :: l in ls && l != "" && !StartsWith(l, '#') ==> l in r
    decreases |ls|
  {
    if ls == [] then []
    else if ls[0] == "" || StartsWith(ls[0], '#') then KeptLines(ls[1..])
    else [ls[0]] + KeptLines(ls[1..])
  }

  /** normalize_env_vars on a service's options. */
  function NormalizedConfig(o: Dict): (r: Dict)
    ensures Get(o, EnvironmentKey).Hash? ==>
      Get(r, EnvironmentKey) == NormalizedEnvironment(Get(o, EnvironmentKey))
    ensures forall k :: k != EnvironmentKey ==> Get(r, k) == Get(o, k)
    ensures !Get(o, EnvironmentKey).Hash? ==> r == o
  {
    var env := Get(o, EnvironmentKey);
    if env.Hash? then Put(o, EnvironmentKey, NormalizedEnvironment(env)) else o
  }

  /** The files `options['env_file'].each` visits (a single path counts as a one-element array). */
  function EnvFilePaths(v: Value): (r: Result<seq<Value>>)
    ensures v.Str? ==> r == Ok([v])
    ensures v.List? ==> r == Ok(v.items)
    ensures r.Ok? <==> v.Str? || v.List? || v == Hash([])
  {
    match v
    case Str(_) => Ok([v])
    case List(items) => Ok(items)
    case Hash(entries) => if entries == [] then Ok([]) else Err(TypeError)  // File.readlines of a [key, value] pair
    case _ => Err(NoMethodError("each"))
  }

  /**
   * The environment after `options['environment'].concat(read_env_file(path))`
   * for each path in turn: the path must be a String naming a readable file,
   * and the environment must be an Array.
   */
  function AppendEnvFiles(env: Value, paths: seq<Value>, files: map<string, string>): (r: Result<Value>)
    ensures paths == [] ==> r == Ok(env)
    ensures paths != [] && paths[0].Str? && paths[0].s !in files ==> r == Err(FileNotFound(paths[0].s))
    decreases |paths|
  {
    if paths == [] then Ok(env)
    else
      var p := paths[0];
      if !p.Str? then Err(TypeError)
      else if p.s !in files then Err(FileNotFound(p.s))
      else if env.Str? then Err(TypeError)
      else if !env.List? then Err(NoMethodError("concat"))
      else AppendEnvFiles(List(env.items + StrValues(ReadEnvFile(files[p.s]))), paths[1..], files)
  }

  /** The lines of every env file, in the order the files are listed. */
  function FileLines(paths: seq<Value>, files: map<string, string>): seq<string>
    decreases |paths|
  {
    if paths == [] then []
    else
      var here := if paths[0].Str? && paths[0].s in files then ReadEnvFile(files[paths[0].s]) else [];
      here + FileLines(paths[1..], files)
  }

  lemma StrValuesConcat(a: seq<string>, b: seq<string>)
    ensures StrValues(a + b) == StrValues(a) + StrValues(b)
  {
  }

  /** A successful append puts the lines of all files, in order, after the inline environment. */
  lemma {:induction false} AppendedLines(env: Value, paths: seq<Value>, files: map<string, string>)
    requires paths != [] && AppendEnvFiles(env, paths, files).Ok?
    ensures env.List?
    ensures AppendEnvFiles(env, paths, files) == Ok(List(env.items + StrValues(FileLines(paths, files))))
    decreases |paths|
  {
    var p := paths[0];
    var here := ReadEnvFile(files[p.s]);
    var next := List(env.items + StrValues(here));
    assert AppendEnvFiles(env, paths, files) == AppendEnvFiles(next, paths[1..], files);
    assert FileLines(paths, files) == here + FileLines(paths[1..], files);
    StrValuesConcat(here, FileLines(paths[1..], files));
    if paths[1..] != [] {
      AppendedLines(next, paths[1..], files);
      assert next.items + StrValues(FileLines(paths[1..], files))
          == env.items + (StrValues(here) + StrValues(FileLines(paths[1..], files)));
    } else {
      assert FileLines(paths, files) == here;
    }
  }

  /** Any listed env file that cannot be read makes the merge raise. */
  lemma {:induction false} UnreadableEnvFileRaises(env: Value, paths: seq<Value>, files: map<string, string>, i: nat)
    requires i < |paths| && paths[i].Str? && paths[i].s !in files
    ensures AppendEnvFiles(env, paths, files).Err?
    decreases i
  {
    if i > 0 && paths[0].Str? && paths[0].s in files && env.List? {
      UnreadableEnvFileRaises(List(env.items + StrValues(ReadEnvFile(files[paths[0].s]))), paths[1..], files, i - 1);
    }
  }

  /** The strings of an array whose elements are all strings. */
  function StringsOf(items: seq<Value>): (r: Result<seq<string>>)
    ensures r.Ok? <==> forall i :: 0 <= i < |items| ==> items[i].Str?
    ensures r.Ok? ==> items == StrValues(r.value)
    ensures r.Err? ==> r.error == NoMethodError("split")
    decreases |items|
  {
    if items == [] then Ok([])
    else if !items[0].Str? then Err(NoMethodError("split"))
    else
      var rest :- StringsOf(items[1..]);
      assert items == [items[0]] + items[1..];
      Ok([items[0].s] + rest)
  }

  /**
   * `environment.uniq! { |s| s.split('=').first }` on the merged environment.
   * An Array of at most one element is left as it is and the block never
   * runs; a longer one must hold only Strings, since the block splits each.
   * A value that is not an Array has no `uniq!`.
   */
  function UniqEnvironment(env: Value): (r: Result<Value>)
    ensures r.Ok? <==> env.List? && (|env.items| <= 1 || forall i :: 0 <= i < |env.items| ==> env.items[i].Str?)
    ensures env.List? && |env.items| <= 1 ==> r == Ok(env)
    ensures r.Ok? ==> r.value.List?
    ensures r.Err? ==> r.error == (if env.List? then NoMethodError("split") else NoMethodError("uniq!"))
  {
    if !env.List? then Err(NoMethodError("uniq!"))
    else if |env.items| <= 1 then Ok(env)
    else
      var lines :- StringsOf(env.items);
      Ok(List(StrValues(UniqByKey(lines))))
  }

  /** On text lines `uniq!` keeps the first line of each variable, whether or not its block runs. */
  lemma UniqEnvironmentOfLines(lines: seq<string>)
    ensures UniqEnvironment(List(StrValues(lines))) == Ok(List(StrValues(UniqByKey(lines))))
  {
    var items := StrValues(lines);
    if |lines| == 0 {
      assert UniqByKey(lines) == [];
    } else if |lines| == 1 {
      assert lines == [lines[0]] && lines[1..] == [];
      assert UniqFrom(lines, {}, EnvKey) == [lines[0]] + UniqFrom([], {EnvKey(lines[0])}, EnvKey);
      assert UniqByKey(lines) == lines;
    } else {
      var texts := StringsOf(items).value;
      assert forall i :: 0 <= i < |lines| ==> Str(texts[i]) == items[i] == Str(lines[i]);
      assert texts == lines;
    }
  }

  /** merge_env_vars on a service's options. */
  function MergedConfig(o: Dict, files: map<string, string>): (r: Result<Dict>)
    ensures !Truthy(Get(o, EnvFileKey)) ==> r == Ok(o)
    ensures r.Ok? && Truthy(Get(o, EnvFileKey)) ==>
      && !HasKey(r.value, EnvFileKey)
      && (forall k :: k != EnvFileKey && k != EnvironmentKey ==> Get(r.value, k) == Get(o, k))
      && Get(r.value, EnvironmentKey).List?
  {
    var ef := Get(o, EnvFileKey);
    if !Truthy(ef) then Ok(o)
    else
      var o1 := if ef.Str? then Put(o, EnvFileKey, List([ef])) else o;
      var o2 := if Truthy(Get(o1, EnvironmentKey)) then o1 else Put(o1, EnvironmentKey, List([]));
      var paths :- EnvFilePaths(ef);
      var env :- AppendEnvFiles(Get(o2, EnvironmentKey), paths, files);
      var o3 := Delete(Put(o2, EnvironmentKey, env), EnvFileKey);
      var uniq :- UniqEnvironment(env);
      Ok(Put(o3, EnvironmentKey, uniq))
  }

  /**
   * An environment of at most one entry once the env files are appended is
   * kept as it is, whatever that entry holds, since `uniq!` does not run its
   * block on it.
   */
  lemma MergeKeepsShortEnvironment(o: Dict, files: map<string, string>, e: seq<Value>)
    requires Truthy(Get(o, EnvFileKey)) && EnvFilePaths(Get(o, EnvFileKey)).Ok?
    requires AppendEnvFiles(Or(Get(o, EnvironmentKey), List([])), EnvFilePaths(Get(o, EnvFileKey)).value, files) == Ok(List(e))
    requires |e| <= 1
    ensures MergedConfig(o, files).Ok?
    ensures Get(MergedConfig(o, files).value, EnvironmentKey) == List(e)
  {
  }

  /** Options `{environment: [5], env_file: []}` come through the merge with the environment `[5]`. */
  lemma OneEntryEnvironmentKept()
    ensures MergedConfig([(EnvironmentKey, List([Int(5)])), (EnvFileKey, List([]))], map[]) ==
      Ok([(EnvironmentKey, List([Int(5)]))])
  {
    var o: Dict := [(EnvironmentKey, List([Int(5)])), (EnvFileKey, List([]))];
    var env := List([Int(5)]);
    assert Get(o, EnvFileKey) == List([]) && Get(o, EnvironmentKey) == env;
    assert Put(o, EnvironmentKey, env) == o;
    assert o[1..] == [(EnvFileKey, List([]))] && Delete(o[1..], EnvFileKey) == [];
    assert Delete(o, EnvFileKey) == [(EnvironmentKey, env)];
    assert Put([(EnvironmentKey, env)], EnvironmentKey, env) == [(EnvironmentKey, env)];
  }

  /**
   * After a merge the environment holds the inline lines followed by the
   * lines of each env file, one line per variable, the first one setting it.
   */
  lemma MergedEnvironment(o: Dict, files: map<string, string>, inline: seq<string>)
    requires Truthy(Get(o, EnvFileKey)) && MergedConfig(o, files).Ok?
    requires Or(Get(o, EnvironmentKey), List([])) == List(StrValues(inline))
    ensures EnvFilePaths(Get(o, EnvFileKey)).Ok?
    ensures Get(MergedConfig(o, files).value, EnvironmentKey) ==
      List(StrValues(UniqByKey(inline + FileLines(EnvFilePaths(Get(o, EnvFileKey)).value, files))))
  {
    var ef := Get(o, EnvFileKey);
    var o1 := if ef.Str? then Put(o, EnvFileKey, List([ef])) else o;
    assert Get(o1, EnvironmentKey) == Get(o, EnvironmentKey);
    var paths := EnvFilePaths(ef).value;
    var env0 := List(StrValues(inline));
    var env := AppendEnvFiles(env0, paths, files).value;
    var lines := inline + FileLines(paths, files);
    if paths == [] {
      assert lines == inline;
    } else {
      AppendedLines(env0, paths, files);
      StrValuesConcat(inline, FileLines(paths, files));
    }
    assert env == List(StrValues(lines));
    UniqEnvironmentOfLines(lines);
  }

  /** A variable set inline keeps its inline line whatever the env files say. */
  lemma MergeKeepsInline(o: Dict, files: map<string, string>, inline: seq<string>, x: string)
    requires Truthy(Get(o, EnvFileKey)) && MergedConfig(o, files).Ok?
    requires Or(Get(o, EnvironmentKey), List([])) == List(StrValues(inline))
    requires x in inline && FirstWithKey(inline, EnvKey, EnvKey(x)) == Some(x)
    ensures var env := Get(MergedConfig(o, files).value, EnvironmentKey);
      env.List? && Str(x) in env.items &&
      forall i :: 0 <= i < |env.items| && env.items[i].Str? && EnvKey(env.items[i].s) == EnvKey(x) ==>
        env.items[i] == Str(x)
  {
    MergedEnvironment(o, files, inline);
    var fromFiles := FileLines(EnvFilePaths(Get(o, EnvFileKey)).value, files);
    InlineWins(inline, fromFiles, x);
    var r := UniqByKey(inline + fromFiles);
    var j :| 0 <= j < |r| && r[j] == x;
    assert StrValues(r)[j] == Str(x);
  }

  lemma {:induction false} FirstWithKeyAt(xs: seq<string>, key: KeyOf, i: nat)
    requires i < |xs| && forall j :: 0 <= j < i ==> key(xs[j]) != key(xs[i])
    ensures FirstWithKey(xs, key, key(xs[i])) == Some(xs[i])
    decreases i
  {
    if i > 0 {
      var k := key(xs[i]);
      assert key(xs[0]) != k;
      var tail := xs[1..];
      assert tail[i - 1] == xs[i];
      forall j | 0 <= j < i - 1
        ensures key(tail[j]) != k
      {
        assert tail[j] == xs[j + 1];
      }
      FirstWithKeyAt(tail, key, i - 1);
    }
  }


  /**
   * Because normalize_env_vars runs before merge_env_vars, every variable of
   * an inline environment written as a hash (keys that render as distinct
   * non-empty texts without `=`) survives the merge with its inline value.
   */
  lemma HashEnvironmentWins(o: Dict, files: map<string, string>, i: nat)
    requires Get(o, EnvironmentKey).Hash?
    requires var h := Get(o, EnvironmentKey).entries;
      && i < |h|
      && (forall j :: 0 <= j < |h| ==> ToS(h[j].0) != "" && '=' !in ToS(h[j].0))
      && (forall j, k :: 0 <= j < k < |h| ==> ToS(h[j].0) != ToS(h[k].0))
    requires Truthy(Get(o, EnvFileKey)) && MergedConfig(NormalizedConfig(o), files).Ok?
    ensures var h := Get(o, EnvironmentKey).entries;
      var env := Get(MergedConfig(NormalizedConfig(o), files).value, EnvironmentKey);
      env.List? && Str(EnvLine(h[i].0, h[i].1)) in env.items
  {
    var h := Get(o, EnvironmentKey).entries;
    var n := NormalizedConfig(o);
    var inline := seq(|h|, j requires 0 <= j < |h| => EnvLine(h[j].0, h[j].1));
    NormalizedKeys(h);
    assert Get(n, EnvironmentKey) == List(StrValues(inline));
    assert forall j :: 0 <= j < |h| ==> EnvKey(inline[j]) == Some(ToS(h[j].0));
    FirstWithKeyAt(inline, EnvKey, i);
    MergeKeepsInline(n, files, inline, inline[i]);
  }

  // ---------------------------------------------------------------------
  // Build arguments
  // ---------------------------------------------------------------------

  /** `k, v = arg.split('=')`: nil for a missing part, the text after a second `=` dropped. */
  function ArgPair(s: string): (Value, Value)
  {
    var parts := Split(s, '=');
    (if |parts| >= 1 then Str(parts[0]) else Nil, if |parts| >= 2 then Str(parts[1]) else Nil)
  }

  /**
   * The key of a build arg is the text before its first `=` (nil when there
   * is nothing else); an arg without `=` names a key with a nil value.
   */
  lemma ArgPairKey(s: string)
    ensures ArgPair(s).0 == if forall i :: 0 <= i < |s| ==> s[i] == '=' then Nil else Str(TakeUntil(s, '='))
    ensures '=' !in s && s != "" ==> ArgPair(s) == (Str(s), Nil)
  {
    var parts := Split(s, '=');
    SplitEmpty(s, '=');
    if parts != [] {
      SplitFirst(s, '=');
    }
    if '=' !in s && s != "" {
      FieldsWithoutSep(s, '=');
      assert s[0] != '=';
      TakeUntilAbsent(s, '=');
    }
  }

  /** The hash `{}` becomes after `options['build']['args'][k] = v` for each arg in turn. */
  function ArgsHash(args: seq<string>): Dict
    decreases |args|
  {
    if args == [] then []
    else
      var kv := ArgPair(args[|args| - 1]);
      Put(ArgsHash(args[..|args| - 1]), kv.0, kv.1)
  }

  /**
   * The build args as a hash; the first arg that is not a String raises,
   * since it has no `split` (the hash built so far is then lost with the
   * exception).
   */
  function BuildArgsOf(args: seq<Value>): (r: Result<Dict>)
    ensures r.Ok? <==> forall i :: 0 <= i < |args| ==> args[i].Str?
  {
    var texts :- StringsOf(args);
    Ok(ArgsHash(texts))
  }

  /** The value an arg gives its key stays unless a later arg sets the same key. */
  lemma {:induction false} LastArgWins(args: seq<string>, i: nat)
    requires i < |args|
    requires forall j :: i < j < |args| ==> ArgPair(args[j]).0 != ArgPair(args[i]).0
    ensures Get(ArgsHash(args), ArgPair(args[i]).0) == ArgPair(args[i]).1
    decreases |args|
  {
    if i < |args| - 1 {
      var init := args[..|args| - 1];
      assert init[i] == args[i];
      forall j | i < j < |init|
        ensures ArgPair(init[j]).0 != ArgPair(init[i]).0
      {
        assert init[j] == args[j];
      }
      LastArgWins(init, i);
    }
  }

  /** `KEY=VALUE` texts for the entries of a hash of strings. */
  function ArgTexts(d: Dict): (args: seq<string>)
    requires forall i :: 0 <= i < |d| ==> d[i].0.Str? && d[i].1.Str?
    ensures |args| == |d|
  {
    seq(|d|, i requires 0 <= i < |d| => d[i].0.s + "=" + d[i].1.s)
  }

  /** A hash of strings with distinct keys, where no key or value is empty or holds `=`. */
  predicate ArgsHashable(d: Dict)
  {
    && (forall i :: 0 <= i < |d| ==> d[i].0.Str? && d[i].1.Str?)
    && (forall i :: 0 <= i < |d| ==>
          d[i].0.s != "" && '=' !in d[i].0.s && d[i].1.s != "" && '=' !in d[i].1.s)
    && (forall i, j :: 0 <= i < j < |d| ==> d[i].0 != d[j].0)
  }

  /**
   * Writing a hash of build arguments as `KEY=VALUE` texts and normalising
   * them gives the hash back, when keys are distinct and neither keys nor
   * values are empty or contain `=`.
   */
  lemma {:induction false} BuildArgsRoundTrip(d: Dict)
    requires ArgsHashable(d)
    ensures BuildArgsOf(StrValues(ArgTexts(d))) == Ok(d)
  {
    ArgsHashRoundTrip(d);
    StringsOfStrValues(ArgTexts(d));
  }

  lemma {:induction false} StringsOfStrValues(xs: seq<string>)
    ensures StringsOf(StrValues(xs)) == Ok(xs)
    decreases |xs|
  {
    if xs != [] {
      var vs := StrValues(xs);
      assert vs[1..] == StrValues(xs[1..]);
      StringsOfStrValues(xs[1..]);
      assert xs == [xs[0]] + xs[1..];
    }
  }

  /** A `KEY=VALUE` text with non-empty parts free of `=` splits into its key and value. */
  lemma ArgPairOfText(k: string, v: string)
    requires k != "" && '=' !in k && v != "" && '=' !in v
    ensures ArgPair(k + "=" + v) == (Str(k), Str(v))
  {
    assert k + "=" + v == k + ['='] + v;
    SplitPair(k, v, '=');
  }

  /** The texts of a hash are those of all its entries but the last, then the last one's. */
  lemma ArgTextsSnoc(d: Dict)
    requires d != [] && forall i :: 0 <= i < |d| ==> d[i].0.Str? && d[i].1.Str?
    ensures ArgTexts(d)[..|d| - 1] == ArgTexts(d[..|d| - 1])
    ensures ArgTexts(d)[|d| - 1] == d[|d| - 1].0.s + "=" + d[|d| - 1].1.s
  {
  }

  /** The hash of a list of args is that of all but the last, with the last one assigned. */
  lemma ArgsHashSnoc(args: seq<string>)
    requires args != []
    ensures ArgsHash(args) == Put(ArgsHash(args[..|args| - 1]), ArgPair(args[|args| - 1]).0, ArgPair(args[|args| - 1]).1)
  {
  }

  lemma {:induction false} ArgsHashRoundTrip(d: Dict)
    requires ArgsHashable(d)
    ensures ArgsHash(ArgTexts(d)) == d
    decreases |d|
  {
    if d != [] {
      var init := d[..|d| - 1];
      assert ArgsHashable(init);
      ArgsHashRoundTrip(init);
      ArgsHashRoundTripStep(d);
    }
  }

  /** The texts of one more, last entry rebuild it behind the others. */
  lemma ArgsHashRoundTripStep(d: Dict)
    requires d != [] && ArgsHashable(d)
    requires ArgsHash(ArgTexts(d[..|d| - 1])) == d[..|d| - 1]
    ensures ArgsHash(ArgTexts(d)) == d
  {
    var init := d[..|d| - 1];
    var (k, v) := d[|d| - 1];
    LastArgText(d);
    LastKeyNew(d);
    PutNew(init, k, v);
    assert d == init + [(k, v)];
  }

  /** The text of the last entry assigns its key and value. */
  lemma LastArgText(d: Dict)
    requires d != [] && forall i :: 0 <= i < |d| ==> d[i].0.Str? && d[i].1.Str?
    requires var (k, v) := d[|d| - 1]; k.s != "" && '=' !in k.s && v.s != "" && '=' !in v.s
    ensures ArgsHash(ArgTexts(d)) == Put(ArgsHash(ArgTexts(d[..|d| - 1])), d[|d| - 1].0, d[|d| - 1].1)
  {
    var (k, v) := d[|d| - 1];
    ArgTextsSnoc(d);
    ArgPairOfText(k.s, v.s);
    ArgsHashSnoc(ArgTexts(d));
  }

  /** With distinct keys, the last key is not among the others. */
  lemma LastKeyNew(d: Dict)
    requires d != [] && forall i, j :: 0 <= i < j < |d| ==> d[i].0 != d[j].0
    ensures !HasKey(d[..|d| - 1], d[|d| - 1].0)
  {
    HasKeyAt(d[..|d| - 1], d[|d| - 1].0);
  }

  /** normalize_build_args on a service's options. */
  function BuildArgsNormalized(o: Dict): (r: Result<Dict>)
    ensures !(Get(o, BuildKey).Hash? && Get(Get(o, BuildKey).entries, ArgsKey).List?) ==> r == Ok(o)
    ensures r.Ok? ==> forall k :: k != BuildKey ==> Get(r.value, k) == Get(o, k)
  {
    var build := Get(o, BuildKey);
    if build.Hash? && Get(build.entries, ArgsKey).List? then
      var args :- BuildArgsOf(Get(build.entries, ArgsKey).items);
      Ok(Put(o, BuildKey, Hash(Put(build.entries, ArgsKey, Hash(args)))))
    else Ok(o)
  }

  /** One String arg alone. */
  lemma StringsOfOne(t: string)
    ensures StringsOf([Str(t)]) == Ok([t])
  {
    assert [Str(t)][1..] == [];
    assert StringsOf([]) == Ok([]);
    assert [t] + [] == [t];
  }

  lemma {:induction false} StringsOfSnoc(items: seq<Value>, texts: seq<string>, t: string)
    requires StringsOf(items) == Ok(texts)
    ensures StringsOf(items + [Str(t)]) == Ok(texts + [t])
    decreases |items|
  {
    if items == [] {
      assert items + [Str(t)] == [Str(t)];
      assert texts + [t] == [t];
      StringsOfOne(t);
    } else {
      var rest := StringsOf(items[1..]).value;
      assert (items + [Str(t)])[0] == items[0] && (items + [Str(t)])[1..] == items[1..] + [Str(t)];
      StringsOfSnoc(items[1..], rest, t);
      assert [items[0].s] + rest + [t] == [items[0].s] + (rest + [t]);
    }
  }

  /** The strings of one more String arg. */
  lemma StringsOfPrefix(args: seq<Value>, i: nat, texts: seq<string>)
    requires i < |args| && args[i].Str? && StringsOf(args[..i]) == Ok(texts)
    ensures StringsOf(args[..i + 1]) == Ok(texts + [args[i].s])
  {
    assert args[..i + 1] == args[..i] + [Str(args[i].s)];
    StringsOfSnoc(args[..i], texts, args[i].s);
  }

  /** An arg that is not a String makes the whole list fail. */
  lemma NonStringArgFails(args: seq<Value>, i: nat)
    requires i < |args| && !args[i].Str?
    ensures BuildArgsOf(args).Err?
  {
  }

  /**
   * The `args.each` loop of normalize_build_args: the hash of the args up to
   * the first one that is not a String, and whether all of them were.
   */
  method CollectBuildArgs(args: seq<Value>) returns (m: Dict, ok: bool)
    ensures ok <==> BuildArgsOf(args).Ok?
    ensures ok ==> BuildArgsOf(args) == Ok(m)
  {
    m := [];
    ghost var texts: seq<string> := [];
    for i := 0 to |args|
      invariant StringsOf(args[..i]) == Ok(texts)
      invariant m == ArgsHash(texts)
    {
      if !args[i].Str? {
        NonStringArgFails(args, i);
        return m, false;
      }
      var kv := ArgPair(args[i].s);
      m := Put(m, kv.0, kv.1);
      StringsOfPrefix(args, i, texts);
      ArgsHashSnoc(texts + [args[i].s]);
      assert (texts + [args[i].s])[..|texts|] == texts;
      texts := texts + [args[i].s];
    }
    assert args[..|args|] == args;
    return m, true;
  }

  /** A service's options after normalize_env_vars, merge_env_vars and normalize_build_args. */
  function Prepared(o: Dict, files: map<string, string>): Result<Dict>
  {
    var merged :- MergedConfig(NormalizedConfig(o), files);
    BuildArgsNormalized(merged)
  }

  /** The preparation steps leave `extends` alone. */
  lemma PreparedKeepsExtends(o: Dict, files: map<string, string>)
    requires Prepared(o, files).Ok?
    ensures HasKey(Prepared(o, files).value, ExtendsKey) == HasKey(o, ExtendsKey)
    ensures Get(Prepared(o, files).value, ExtendsKey) == Get(o, ExtendsKey)
  {
    var n := NormalizedConfig(o);
    assert HasKey(n, ExtendsKey) == HasKey(o, ExtendsKey);
    var m := MergedConfig(n, files).value;
    assert HasKey(m, ExtendsKey) == HasKey(n, ExtendsKey);
  }

  /** The `each` loop of merge_env_vars, appending each env file's lines to the environment. */
  method ConcatEnvFiles(env0: Value, paths: seq<Value>, files: map<string, string>) returns (r: Result<Value>)
    ensures r == AppendEnvFiles(env0, paths, files)
  {
    var env := env0;
    var i := 0;
    while i < |paths|
      invariant 0 <= i <= |paths|
      invariant AppendEnvFiles(env, paths[i..], files) == AppendEnvFiles(env0, paths, files)
    {
      var path := paths[i];
      assert paths[i..][1..] == paths[i + 1..];
      if !path.Str? {
        return Err(TypeError);
      }
      if path.s !in files {
        return Err(FileNotFound(path.s));
      }
      if env.Str? {
        return Err(TypeError);
      }
      if !env.List? {
        return Err(NoMethodError("concat"));
      }
      env := List(env.items + StrValues(ReadEnvFile(files[path.s])));
      i := i + 1;
    }
    return Ok(env);
  }

  /** The options of one service, which the reader's steps update in place. */
  class ServiceConfig {
    var options: Dict

    constructor (options: Dict)
      ensures this.options == options
    {
      this.options := options;
    }

    /** normalize_env_vars: a hash environment becomes an array of `k=v` lines. */
    method NormalizeEnvVars()
      modifies this
      ensures options == NormalizedConfig(old(options))
    {
      var env := Get(options, EnvironmentKey);
      if env.Hash? {
        options := Put(options, EnvironmentKey, NormalizedEnvironment(env));
      }
    }

    /**
     * merge_env_vars: the lines of each env file are appended to the
     * environment, `env_file` is removed, and one line per variable is kept.
     */
    method MergeEnvVars(files: map<string, string>) returns (res: Outcome)
      modifies this
      ensures match MergedConfig(old(options), files)
        case Ok(o) => res == Completed && options == o
        case Err(e) => res == Raised(e)
    {
      var ef := Get(options, EnvFileKey);
      if !Truthy(ef) {
        return Completed;
      }
      if ef.Str? {
        options := Put(options, EnvFileKey, List([ef]));
      }
      if !Truthy(Get(options, EnvironmentKey)) {
        options := Put(options, EnvironmentKey, List([]));
      }
      var paths := EnvFilePaths(ef);
      if paths.Err? {
        return Raised(paths.error);
      }
      // `concat` extends the environment array that the options hold, so the
      // options see each file's lines as soon as they are appended.
      var appended := ConcatEnvFiles(Get(options, EnvironmentKey), paths.value, files);
      if appended.Err? {
        return Raised(appended.error);
      }
      var env := appended.value;
      options := Delete(Put(options, EnvironmentKey, env), EnvFileKey);
      var uniq := UniqEnvironment(env);
      if uniq.Err? {
        return Raised(uniq.error);
      }
      options := Put(options, EnvironmentKey, uniq.value);
      return Completed;
    }

    /** normalize_build_args: an array of `KEY=VALUE` build args becomes a hash. */
    method NormalizeBuildArgs() returns (res: Outcome)
      modifies this
      ensures match BuildArgsNormalized(old(options))
        case Ok(o) => res == Completed && options == o
        case Err(e) => res == Raised(e)
    {
      var build := Get(options, BuildKey);
      if !(build.Hash? && Get(build.entries, ArgsKey).List?) {
        return Completed;
      }
      // The args hash is filled in place, so an arg that raises leaves the
      // ones before it in the options.
      var m, ok := CollectBuildArgs(Get(build.entries, ArgsKey).items);
      options := Put(options, BuildKey, Hash(Put(build.entries, ArgsKey, Hash(m))));
      if !ok {
        return Raised(NoMethodError("split"));
      }
      return Completed;
    }
  }

  // ---------------------------------------------------------------------
  // The reader
  // ---------------------------------------------------------------------

  /** What the stack's variable group answers for one variable. */
  datatype Variable = Variable(valid: bool, value: Value, errors: Value)

  /** `{ file => details }`, an entry of the reader's errors or notifications. */
  datatype Failure = Failure(file: string, details: Value)

  /** What the YAML parser makes of a text. */
  datatype Parsed = Document(doc: Value) | SyntaxError(message: string)

  /** The validator's verdict on a document. */
  datatype Validation = Validation(errors: Value, notifications: Value)

  /** What reading another stack file gives: its failures and its services. */
  datatype Outcome3 = Outcome3(errors: seq<Failure>, notifications: seq<Failure>, services: Value)

  /**
   * The reader's collaborators: the files it can read, a reader for another
   * stack file (`Reader.new(file).execute(service)`), and the service
   * extender (`ServiceExtender.new(config).extend_from(parent)`).
   */
  datatype Inputs = Inputs(
    files: map<string, string>,
    readStack: (Value, Value) -> Result<Outcome3>,
    extendFrom: (Dict, Value) -> Result<Dict>)

  /**
   * The text a reference to `name` becomes: the variable's value when it is
   * valid, the environment variable when there is no such variable, and
   * otherwise the empty text.
   */
  function Substitution(variables: map<string, Variable>, env: map<string, string>, name: string): (r: string)
    ensures name in variables && variables[name].valid ==> r == ToS(variables[name].value)
    ensures name in variables && !variables[name].valid ==> r == ""
    ensures name !in variables && name in env ==> r == env[name]
    ensures name !in variables && name !in env ==> r == ""
  {
    if name in variables then (if variables[name].valid then ToS(variables[name].value) else "")
    else if name in env then env[name]
    else ""
  }

  function Substituter(variables: map<string, Variable>, env: map<string, string>): string -> string
  {
    name => Substitution(variables, env, name)
  }

  /** The errors interpolation records for the references `names`, in order. */
  function Reported(file: string, variables: map<string, Variable>, names: seq<string>): (r: seq<Failure>)
    ensures |r| <= |names|
    decreases |names|
  {
    if names == [] then []
    else
      var name := names[|names| - 1];
      var here := if name in variables && !variables[name].valid then [Failure(file, variables[name].errors)] else [];
      Reported(file, variables, names[..|names| - 1]) + here
  }

  lemma ReportedSnoc(file: string, variables: map<string, Variable>, names: seq<string>, name: string)
    ensures Reported(file, variables, names + [name]) == Reported(file, variables, names) +
      (if name in variables && !variables[name].valid then [Failure(file, variables[name].errors)] else [])
  {
    assert (names + [name])[..|names|] == names;
  }

  /** Interpolation records a failure exactly when some reference names an invalid variable. */
  lemma {:induction false} ReportedEmpty(file: string, variables: map<string, Variable>, names: seq<string>)
    ensures Reported(file, variables, names) == [] <==>
      forall i :: 0 <= i < |names| ==> names[i] !in variables || variables[names[i]].valid
    decreases |names|
  {
    if names != [] {
      var init := names[..|names| - 1];
      ReportedEmpty(file, variables, init);
      forall i | 0 <= i < |init|
        ensures init[i] == names[i]
      {
      }
    }
  }

  /** `failures << { file => details } unless details.empty?` */
  function Stored(failures: seq<Failure>, file: string, details: Value): (r: Result<seq<Failure>>)
    ensures r.Ok? <==> details.Str? || details.List? || details.Hash?
    ensures r.Ok? && IsEmpty(details) == Ok(true) ==> r.value == failures
    ensures r.Ok? && IsEmpty(details) == Ok(false) ==> r.value == failures + [Failure(file, details)]
  {
    var empty :- IsEmpty(details);
    Ok(if empty then failures else failures + [Failure(file, details)])
  }

  /** Some entry of `failures` is about the file `filename`. */
  predicate MentionsFile(failures: seq<Failure>, filename: Value)
  {
    exists i :: 0 <= i < |failures| && Str(failures[i].file) == filename
  }

  /** `failures.concat more unless failures.any? { |item| item.has_key?(filename) }` */
  function MergedFailures(failures: seq<Failure>, filename: Value, more: seq<Failure>): seq<Failure>
  {
    if MentionsFile(failures, filename) then failures else failures + more
  }

  /**
   * The failures of an external file are merged at most once: after its
   * failures have been merged, merging them again changes nothing.
   */
  lemma MergedFailuresOnce(failures: seq<Failure>, filename: Value, more: seq<Failure>, again: seq<Failure>)
    requires more != [] && forall i :: 0 <= i < |more| ==> Str(more[i].file) == filename
    ensures var once := MergedFailures(failures, filename, more);
      MergedFailures(once, filename, again) == once
  {
    if !MentionsFile(failures, filename) {
      var once := failures + more;
      assert Str(once[|failures|].file) == filename;
    }
  }

  /** `extended_service(extends)`: the name of the service extended, or nil. */
  function ExtendedService(ext: Value): (r: Value)
    ensures !ext.Hash? && !ext.Str? ==> r == Nil
  {
    match ext
    case Hash(entries) => Get(entries, Str("service"))
    case Str(_) => ext
    case _ => Nil
  }

  /**
   * `service_config['extends']['file']` as written: on a String `extends`
   * this is String#[], which answers `"file"` whenever the service name
   * contains that word.
   */
  function ExtendsFileAsWritten(ext: Value): Result<Value>
  {
    Index(ext, "file")
  }

  /** Extending a service named `filebeat` reads an external file called `file`. */
  lemma ExtendsFileAsWrittenMisreads()
    ensures ExtendedService(Str("filebeat")) == Str("filebeat")
    ensures ExtendsFileAsWritten(Str("filebeat")) == Ok(Str("file"))
  {
    assert "file" <= "filebeat"[0..];
  }

  /** The file a service extends from: only the hash form of `extends` names one. */
  function ExtendsFile(ext: Value): (r: Value)
    ensures !ext.Hash? ==> r == Nil
    ensures ext.Hash? ==> r == Get(ext.entries, Str("file"))
  {
    if ext.Hash? then Get(ext.entries, Str("file")) else Nil
  }

  /** On the hash form both readings agree; a String never names a file. */
  lemma ExtendsFileAgrees(ext: Value)
    requires ext.Hash? || ext.Str?
    ensures ext.Hash? ==> ExtendsFileAsWritten(ext) == Ok(ExtendsFile(ext))
    ensures ext.Str? ==> ExtendsFile(ext) == Nil
  {
  }

  /** A service whose own `extends` has been resolved. */
  predicate Resolved(v: Value)
  {
    v.Hash? && !HasKey(v.entries, ExtendsKey)
  }

  /** Storing a resolved service under the `i`-th key keeps the keys and the services resolved before it. */
  lemma StoreResolved(d: Dict, i: nat, v: Value)
    requires i < |Keys(d)| && Resolved(v)
    requires forall j :: 0 <= j < i ==> Resolved(Get(d, Keys(d)[j]))
    ensures Keys(Put(d, Keys(d)[i], v)) == Keys(d)
    ensures forall j :: 0 <= j <= i ==> Resolved(Get(Put(d, Keys(d)[i], v), Keys(d)[j]))
  {
    HasKeyInKeys(d, Keys(d)[i]);
    PutKeys(d, Keys(d)[i], v);
  }

  /** When the service under every key is resolved, every service is. */
  lemma AllResolved(d: Dict)
    requires forall j :: 0 <= j < |Keys(d)| ==> Resolved(Get(d, Keys(d)[j]))
    ensures forall k :: HasKey(d, k) ==> Resolved(Get(d, k))
  {
    forall k | HasKey(d, k)
      ensures Resolved(Get(d, k))
    {
      HasKeyInKeys(d, k);
      var j :| 0 <= j < |Keys(d)| && Keys(d)[j] == k;
    }
  }

  /**
   * What process_config raises for service options that are not a hash.
   * normalize_env_vars reads `options['environment']` first, which raises
   * for a value without a String index. A String passes it. merge_env_vars
   * then raises TypeError when `options['env_file']` finds that text, since
   * `String#[]=` is given an Array. Otherwise `has_key?('extends')` raises.
   */
  function UnpreparedError(config: Value): RubyError
    requires !config.Hash?
  {
    match Index(config, "environment")
    case Err(e) => e
    case Ok(_) => if Truthy(Index(config, "env_file").value) then TypeError else NoMethodError("has_key?")
  }

  /** The exception for each kind of service options that is not a hash. */
  lemma UnpreparedErrors(config: Value)
    requires !config.Hash?
    ensures config.Nil? || config.Bool? || config.Float? ==> UnpreparedError(config) == NoMethodError("[]")
    ensures config.Int? || config.List? ==> UnpreparedError(config) == TypeError
    ensures config.Str? ==> UnpreparedError(config) == (if Contains(config.s, "env_file") then TypeError else NoMethodError("has_key?"))
  {
  }

  /**
   * The block parameters `|name, config|` bound to one element that an
   * Array yields: an Array is spread over them, and anything else is the
   * name alone.
   */
  function BlockParams(e: Value): (r: (Value, Value))
    ensures !e.List? ==> r == (e, Nil)
    ensures e.List? && |e.items| >= 2 ==> r == (e.items[0], e.items[1])
    ensures e.List? && |e.items| < 2 ==> r.1 == Nil
  {
    match e
    case List(xs) => (if |xs| > 0 then xs[0] else Nil, if |xs| > 1 then xs[1] else Nil)
    case _ => (e, Nil)
  }

  /**
   * `items[index] = v` (Array#[]=): an Integer index inside the array
   * replaces that element, counting from the end when negative; one past the
   * end pads with nils; one before the start raises IndexError, and an index
   * that is not an Integer raises TypeError.
   */
  function StoreAt(items: seq<Value>, index: Value, v: Value): (r: Result<seq<Value>>)
    ensures r.Ok? <==> index.Int? && index.i >= -|items|
    ensures r.Ok? ==> |r.value| == (if index.i >= |items| then index.i + 1 else |items|)
    ensures r.Ok? ==> var k := if index.i < 0 then index.i + |items| else index.i;
      && r.value[k] == v
      && (forall j :: 0 <= j < |items| && j != k ==> r.value[j] == items[j])
      && (forall j :: |items| <= j < |r.value| && j != k ==> r.value[j] == Nil)
  {
    if !index.Int? then Err(TypeError)
    else if index.i < -|items| then Err(IndexError)
    else if index.i < 0 then Ok(items[index.i + |items| := v])
    else if index.i < |items| then Ok(items[index.i := v])
    else Ok(items + seq(index.i - |items|, _ => Nil) + [v])
  }

  /**
   * What `each` over services given as an Array leaves certain: no services
   * give back the empty array, and a first element that is not an Array
   * (a hash of options, as a YAML list of services has) binds a nil config,
   * which raises.
   */
  predicate ListedServicesRaise(items: seq<Value>, r: Result<Value>)
  {
    && (items == [] ==> r == Ok(List([])))
    && (items != [] && !items[0].List? ==> r == Err(NoMethodError("[]")))
  }

  /** Reads one stack file. */
  class Reader {
    const file: string
    const rawContent: string
    const skipValidation: bool
    /** The stack's variables, as the variable group resolves them. */
    const variables: map<string, Variable>
    /** The process environment. */
    const env: map<string, string>
    var yaml: Value
    var errors: seq<Failure>
    var notifications: seq<Failure>

    constructor (file: string, rawContent: string, skipValidation: bool,
                 variables: map<string, Variable>, env: map<string, string>)
      ensures this.file == file && this.rawContent == rawContent
      ensures this.skipValidation == skipValidation
      ensures this.variables == variables && this.env == env
      ensures yaml == Nil && errors == [] && notifications == []
    {
      this.file := file;
      this.rawContent := rawContent;
      this.skipValidation := skipValidation;
      this.variables := variables;
      this.env := env;
      yaml := Nil;
      errors := [];
      notifications := [];
    }

    /** stack_name */
    function StackName(): Result<Value>
      reads this
    {
      var stack :- Index(yaml, "stack");
      StackNameOf(stack)
    }

    /** stack_version */
    function StackVersion(): Result<Value>
      reads this
    {
      var version :- Index(yaml, "version");
      if Truthy(version) then Ok(version)
      else
        var stack :- Index(yaml, "stack");
        StackVersionOf(version, stack)
    }

    /**
     * interpolate(text, filler): replaces every reference. With a filler each
     * becomes the filler; otherwise each becomes its substitution, and each
     * reference to an invalid variable records that variable's errors
     * (unless validation is skipped, when they are only printed).
     */
    method Interpolate(text: string, filler: Option<string>) returns (r: string)
      modifies this
      ensures filler.Some? ==> r == Filled(text, filler.value)
      ensures filler.None? ==> r == Scan(text, false, Substituter(variables, env))
      ensures errors == old(errors) +
        (if filler.Some? || skipValidation then [] else Reported(file, variables, Names(text, false)))
      ensures yaml == old(yaml) && notifications == old(notifications)
    {
      var f := if filler.Some? then Constant(filler.value) else Substituter(variables, env);
      r := Scan(text, false, f);
      var names := Names(text, false);
      if filler.None? && !skipValidation {
        for j := 0 to |names|
          invariant errors == old(errors) + Reported(file, variables, names[..j])
          invariant yaml == old(yaml) && notifications == old(notifications)
        {
          ReportedSnoc(file, variables, names[..j], names[j]);
          assert names[..j + 1] == names[..j] + [names[j]];
          var name := names[j];
          if name in variables && !variables[name].valid {
            errors := errors + [Failure(file, variables[name].errors)];
          }
        }
        assert names[..|names|] == names;
      }
    }

    /**
     * load_yaml: the raw content, interpolated and with `$$` collapsed, is
     * parsed into the reader's document; a syntax error is raised again
     * with the file name in front.
     */
    method LoadYaml(parse: string -> Parsed) returns (res: Outcome)
      modifies this
      ensures var text := Loaded(rawContent, Substituter(variables, env));
        match parse(text)
        case Document(doc) => res == Completed && yaml == doc
        case SyntaxError(m) =>
          res == Raised(RuntimeError("Error while parsing " + file + " " + m)) && yaml == old(yaml)
      ensures errors == old(errors) +
        (if skipValidation then [] else Reported(file, variables, Names(rawContent, false)))
      ensures notifications == old(notifications)
    {
      var interpolated := Interpolate(rawContent, None);
      var text := CollapseDollars(interpolated);
      match parse(text)
      case Document(doc) =>
        yaml := doc;
        return Completed;
      case SyntaxError(m) =>
        return Raised(RuntimeError("Error while parsing " + file + " " + m));
    }

    /** store_failures: records the validator's errors and notifications unless there are none. */
    method StoreFailures(data: Validation) returns (res: Outcome)
      modifies this
      ensures match Stored(old(errors), file, data.errors)
        case Err(e) => res == Raised(e) && errors == old(errors) && notifications == old(notifications)
        case Ok(es) =>
          errors == es &&
          match Stored(old(notifications), file, data.notifications)
          case Err(e) => res == Raised(e) && notifications == old(notifications)
          case Ok(ns) => res == Completed && notifications == ns
      ensures yaml == old(yaml)
    {
      var es := Stored(errors, file, data.errors);
      if es.Err? {
        return Raised(es.error);
      }
      errors := es.value;
      var ns := Stored(notifications, file, data.notifications);
      if ns.Err? {
        return Raised(ns.error);
      }
      notifications := ns.value;
      return Completed;
    }

    /**
     * from_external_file: reads the service from another stack file and
     * takes over that file's failures, unless failures about it are already
     * recorded.
     */
    method FromExternalFile(filename: Value, service: Value, io: Inputs) returns (r: Result<Value>)
      modifies this
      ensures match io.readStack(filename, service)
        case Err(e) => r == Err(e) && errors == old(errors) && notifications == old(notifications)
        case Ok(out) =>
          && r == Ok(out.services)
          && errors == MergedFailures(old(errors), filename, out.errors)
          && notifications == MergedFailures(old(notifications), filename, out.notifications)
      ensures yaml == old(yaml)
    {
      var outcome :- io.readStack(filename, service);
      errors := MergedFailures(errors, filename, outcome.errors);
      notifications := MergedFailures(notifications, filename, outcome.notifications);
      return Ok(outcome.services);
    }

    /**
     * extend_config: the service's options merged over those of the service
     * it extends, or nil when `extends` names no service. A parent in the
     * same file is processed first; one in another file is read from there.
     */
    method ExtendConfig(config: Dict, io: Inputs, fuel: nat) returns (r: Result<Value>)
      requires fuel > 0
      modifies this
      ensures !Truthy(ExtendedService(Get(config, ExtendsKey))) ==> r == Ok(Nil)
      ensures r.Ok? ==> r.value.Nil? || r.value.Hash?
      ensures yaml == old(yaml)
      decreases fuel, 0
    {
      var ext := Get(config, ExtendsKey);
      var parentName := ExtendedService(ext);
      if !Truthy(parentName) {
        return Ok(Nil);
      }
      var filename := ExtendsFile(ext);
      var parent: Value;
      if Truthy(filename) {
        parent :- FromExternalFile(filename, parentName, io);
      } else {
        var services :- Index(yaml, "services");
        if !services.Hash? {
          return Err(NoMethodError("has_key?"));
        }
        if !HasKey(services.entries, parentName) {
          return Err(RuntimeError("Service '" + ToS(parentName) + "' not found in " + file));
        }
        var processed :- ProcessConfig(Get(services.entries, parentName), io, fuel - 1);
        parent := Hash(processed);
      }
      var merged :- io.extendFrom(config, parent);
      return Ok(Hash(merged));
    }

    /**
     * process_config: prepares a service's options and resolves its
     * `extends`. Each level of `extends` costs one unit of `fuel`; running
     * out stands for the interpreter's stack overflow on a cycle.
     */
    method ProcessConfig(config: Value, io: Inputs, fuel: nat) returns (r: Result<Dict>)
      modifies this
      ensures fuel == 0 ==> r == Err(StackTooDeep)
      ensures fuel > 0 && !config.Hash? ==> r == Err(UnpreparedError(config))
      ensures fuel > 0 && config.Hash? && (Prepared(config.entries, io.files).Err? || !HasKey(config.entries, ExtendsKey)) ==>
        r == Prepared(config.entries, io.files)
      ensures r.Ok? ==> !HasKey(r.value, ExtendsKey)
      ensures yaml == old(yaml)
      decreases fuel, 1
    {
      if fuel == 0 {
        return Err(StackTooDeep);
      }
      if !config.Hash? {
        return Err(UnpreparedError(config));
      }
      var sc := new ServiceConfig(config.entries);
      sc.NormalizeEnvVars();
      var step := sc.MergeEnvVars(io.files);
      if step.Raised? {
        return Err(step.error);
      }
      step := sc.NormalizeBuildArgs();
      if step.Raised? {
        return Err(step.error);
      }
      var prepared := sc.options;
      assert Prepared(config.entries, io.files) == Ok(prepared);
      PreparedKeepsExtends(config.entries, io.files);
      if !HasKey(prepared, ExtendsKey) {
        return Ok(prepared);
      }
      var extended :- ExtendConfig(prepared, io, fuel);
      if !extended.Hash? {
        return Err(NoMethodError("delete"));
      }
      return Ok(Delete(extended.entries, ExtendsKey));
    }

    /**
     * parse_services: with no name, processes every service in file order and
     * stores the results back into the document; with a name, processes only
     * that service, which must exist.
     */
    method ParseServices(serviceName: Value, io: Inputs) returns (r: Result<Value>)
      modifies this
      ensures serviceName.Nil? && r.Ok? ==>
        Index(old(yaml), "services").Ok? && (Index(old(yaml), "services").value.Hash? || Index(old(yaml), "services").value.List?)
      ensures serviceName.Nil? && r.Ok? && Index(old(yaml), "services").Ok? && Index(old(yaml), "services").value.Hash? ==>
        && r.value.Hash?
        && Keys(r.value.entries) == Keys(Index(old(yaml), "services").value.entries)
        && forall k :: HasKey(r.value.entries, k) ==> Resolved(Get(r.value.entries, k))
      ensures serviceName.Nil? && Index(old(yaml), "services") == Ok(List([])) ==> r == Ok(List([]))
      ensures serviceName.Nil? && Index(old(yaml), "services").Ok? && Index(old(yaml), "services").value.List? ==>
        ListedServicesRaise(Index(old(yaml), "services").value.items, r)
      ensures serviceName.Nil? && Index(old(yaml), "services").Ok? &&
              !Index(old(yaml), "services").value.Hash? && !Index(old(yaml), "services").value.List? ==>
          r == Err(NoMethodError("each"))
      ensures !serviceName.Nil? && r.Ok? ==> Resolved(r.value)
      ensures (!serviceName.Nil? && Index(old(yaml), "services").Ok? && Index(old(yaml), "services").value.Hash? &&
               !HasKey(Index(old(yaml), "services").value.entries, serviceName)) ==>
          r == Err(RuntimeError("Service '" + ToS(serviceName) + "' not found in " + file))
    {
      var services :- Index(yaml, "services");
      if !serviceName.Nil? {
        if !services.Hash? {
          return Err(NoMethodError("has_key?"));
        }
        if !HasKey(services.entries, serviceName) {
          return Err(RuntimeError("Service '" + ToS(serviceName) + "' not found in " + file));
        }
        var processed :- ProcessConfig(Get(services.entries, serviceName), io, |services.entries| + 1);
        return Ok(Hash(processed));
      }
      if services.List? {
        r := ParseListedServices(services.items, io);
        return;
      }
      if !services.Hash? {
        return Err(NoMethodError("each"));
      }
      var names := Keys(services.entries);
      var current := services.entries;
      var i := 0;
      while i < |names|
        invariant 0 <= i <= |names|
        invariant Keys(current) == names
        invariant yaml.Hash? && Index(yaml, "services") == Ok(Hash(current))
        invariant forall j :: 0 <= j < i ==> Resolved(Get(current, names[j]))
      {
        var processed :- ProcessConfig(Get(current, names[i]), io, |names| + 1);
        StoreResolved(current, i, Hash(processed));
        current := Put(current, names[i], Hash(processed));
        yaml := Hash(Put(yaml.entries, Str("services"), Hash(current)));
        i := i + 1;
      }
      AllResolved(current);
      return Ok(Hash(current));
    }

    /**
     * The `each` loop of parse_services over services given as an Array:
     * each element is spread over `|name, config|`, the config is processed,
     * and the result is stored with `services[name] = ...`. The loop reads
     * the array as it grows, but an element past the original ones is nil or
     * a stored hash, whose config is nil and raises.
     */
    method ParseListedServices(items0: seq<Value>, io: Inputs) returns (r: Result<Value>)
      requires yaml.Hash?
      modifies this
      ensures ListedServicesRaise(items0, r)
      ensures r.Ok? ==> r.value.List? && |r.value.items| >= |items0|
    {
      var items := items0;
      var i := 0;
      while i < |items|
        invariant 0 <= i <= |items0| <= |items|
        invariant i == 0 ==> items == items0
        invariant i > 0 ==> items0[0].List?
        invariant forall j :: |items0| <= j < |items| ==> !items[j].List?
        invariant yaml.Hash?
        decreases |items0| - i
      {
        var params := BlockParams(items[i]);
        var processed :- ProcessConfig(params.1, io, |items0| + 1);
        assert i < |items0|;
        items :- StoreAt(items, params.0, Hash(processed));
        yaml := Hash(Put(yaml.entries, Str("services"), List(items)));
        i := i + 1;
      }
      return Ok(List(items));
    }

  }
}
