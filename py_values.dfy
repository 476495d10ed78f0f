/**
 * The Python 2 values the runner handles (the YAML configuration, its option
 * dictionary, the parsed arguments) and the built-in operations it applies to them:
 * `in`, subscription, `.items()`, iteration, `str.strip`, `file.readlines` and
 * `str.replace`.
 */
module PyValues {
  import opened Wrappers
  import opened Strings

  /** A Python value. Dictionaries are keyed by strings only: the configuration's YAML mappings use string keys. */
  datatype Value =
    | PyNone
    | PyBool(b: bool)
    | PyInt(i: int)
    | PyStr(s: string)
    | PyList(elems: seq<Value>)
    | PyTuple(elems: seq<Value>)
    | PyDict(entries: map<string, Value>)

  /** The exceptions the modelled code can raise. */
  datatype PyError = KeyError(key: string) | TypeError | AttributeError | ValueError | DockerApiError

  /** Python's truth test (`if v:`). */
  predicate Truthy(v: Value)
  {
    match v
    case PyNone => false
    case PyBool(b) => b
    case PyInt(i) => i != 0
    case PyStr(s) => s != ""
    case PyList(e) => e != []
    case PyTuple(e) => e != []
    case PyDict(d) => d != map[]
  }

  /** `needle in hay`: substring test on strings, element test on lists and tuples,
      key test on dictionaries; numbers and `None` are not containers. */
  function PyIn(needle: Value, hay: Value): Result<bool, PyError>
  {
    match hay
    case PyStr(s) => if needle.PyStr? then Ok(Contains(s, needle.s)) else Err(TypeError)
    case PyList(e) => Ok(needle in e)
    case PyTuple(e) => Ok(needle in e)
    case PyDict(d) =>
      if needle.PyStr? then Ok(needle.s in d)
      else if needle.PyList? || needle.PyDict? then Err(TypeError)
      else Ok(false)
    case _ => Err(TypeError)
  }

  /** `v[key]` with a string key: only a dictionary accepts one. */
  function Subscript(v: Value, key: string): Result<Value, PyError>
  {
    match v
    case PyDict(d) => if key in d then Ok(d[key]) else Err(KeyError(key))
    case _ => Err(TypeError)
  }

  /** `v.items()`, as a mapping: only a dictionary has the method. */
  function Items(v: Value): Result<map<string, Value>, PyError>
  {
    match v
    case PyDict(d) => Ok(d)
    case _ => Err(AttributeError)
  }

  /** `for x in v`: the characters of a string, the elements of a list or tuple, the keys of
      a dictionary in the order `dictOrder` gives (CPython's hash order). */
  function Iterate(v: Value, dictOrder: map<string, Value> -> seq<string>): Result<seq<Value>, PyError>
  {
    match v
    case PyStr(s) => Ok(seq(|s|, k requires 0 <= k < |s| => PyStr([s[k]])))
    case PyList(e) => Ok(e)
    case PyTuple(e) => Ok(e)
    case PyDict(d) => var ks := dictOrder(d); Ok(seq(|ks|, k requires 0 <= k < |ks| => PyStr(ks[k])))
    case _ => Err(TypeError)
  }

  // ----- text -----

  /** The characters Python 2's `str.strip()` removes: space, tab, newline, vertical tab, form feed, carriage return. */
  predicate IsSpace(c: char)
  {
    c == ' ' || '\t' <= c <= '\r'
  }

  predicate AllSpace(s: string)
  {
    forall k :: 0 <= k < |s| ==> IsSpace(s[k])
  }

  /** Neither end of `s` is whitespace. */
  predicate Stripped(s: string)
  {
    s == "" || (!IsSpace(s[0]) && !IsSpace(s[|s| - 1]))
  }

  /** The end of the run of whitespace that starts at `i`. */
  function SpanLeft(s: string, i: nat): (j: nat)
    requires i <= |s|
    ensures i <= j <= |s| && (j == |s| || !IsSpace(s[j]))
    ensures forall k :: i <= k < j ==> IsSpace(s[k])
    decreases |s| - i
  {
    if i < |s| && IsSpace(s[i]) then SpanLeft(s, i + 1) else i
  }

  /** The start of the run of whitespace that ends at `j`, going no further left than `lo`. */
  function SpanRight(s: string, lo: nat, j: nat): (i: nat)
    requires lo <= j <= |s|
    ensures lo <= i <= j && (i == lo || !IsSpace(s[i - 1]))
    ensures forall k :: i <= k < j ==> IsSpace(s[k])
  {
    if j > lo && IsSpace(s[j - 1]) then SpanRight(s, lo, j - 1) else j
  }

  /** `s.strip()`: `s` without its leading and trailing whitespace. */
  function Strip(s: string): (r: string)
    ensures Stripped(r)
    ensures var i := SpanLeft(s, 0);
      && i + |r| <= |s| && r == s[i..i + |r|] && AllSpace(s[..i]) && AllSpace(s[i + |r|..])
  {
    var i := SpanLeft(s, 0);
    var j := SpanRight(s, i, |s|);
    assert j > i ==> !IsSpace(s[i]);
    s[i..j]
  }

  /** A string with no whitespace at either end is its own strip, also after a final newline. */
  lemma StripNewline(e: string)
    requires Stripped(e)
    ensures Strip(e) == e && Strip(e + "\n") == e
  {
    var f := e + "\n";
    if e != "" {
      assert SpanLeft(e, 0) == 0;
      assert SpanLeft(f, 0) == 0 by { assert f[0] == e[0]; }
      assert SpanRight(f, 0, |f|) == SpanRight(f, 0, |e|);
      assert f[|e| - 1] == e[|e| - 1];
      assert f[..|e|] == e;
    } else {
      assert SpanLeft(f, 0) == 1;
    }
  }

  /** `f.readlines()`: the text cut after every newline; no line is empty, only a final
      one can lack the newline, and no line has one anywhere else. */
  function ReadLines(text: string): (lines: seq<string>)
    ensures forall k :: 0 <= k < |lines| ==> |lines[k]| > 0
    ensures forall k :: 0 <= k < |lines| - 1 ==> lines[k][|lines[k]| - 1] == '\n'
    ensures forall k, j :: 0 <= k < |lines| && 0 <= j < |lines[k]| - 1 ==> lines[k][j] != '\n'
    decreases |text|
  {
    if text == "" then []
    else match FindFrom(text, "\n", 0)
      case None =>
        assert forall j :: 0 <= j < |text| ==> !MatchAt(text, "\n", j) && text[j..j + 1] == [text[j]];
        [text]
      case Some(i) =>
        assert forall j :: 0 <= j < i ==> !MatchAt(text, "\n", j) && text[j..j + 1] == [text[j]];
        assert text[i..i + 1] == "\n";
        [text[..i + 1]] + ReadLines(text[i + 1..])
  }

  /** The lines `readlines` gives, put back together, are the file's text. */
  lemma {:induction false} ReadLinesConcat(text: string)
    ensures Concat(ReadLines(text)) == text
    decreases |text|
  {
    if text != "" {
      match FindFrom(text, "\n", 0)
      case None =>
        assert ReadLines(text) == [text];
        assert Concat([text]) == Concat([]) + text;
      case Some(i) =>
        var rest := text[i + 1..];
        assert ReadLines(text) == [text[..i + 1]] + ReadLines(rest);
        ReadLinesConcat(rest);
        ConcatAfterCut(text, i + 1, ReadLines(rest));
    }
  }

  /** A line cut off the front, followed by lines that make up the rest, makes up the text. */
  lemma ConcatAfterCut(text: string, n: nat, restLines: seq<string>)
    requires n <= |text| && Concat(restLines) == text[n..]
    ensures Concat([text[..n]] + restLines) == text
  {
    ConcatCons(text[..n], restLines);
    assert text[..n] + text[n..] == text;
  }

  /** `s.replace(target, replacement)`: every leftmost, non-overlapping occurrence of `target` is replaced. */
  function Replace(s: string, target: string, replacement: string): string
    requires |target| > 0
  {
    Join(Split(s, target), replacement)
  }
}
