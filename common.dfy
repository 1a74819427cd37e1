/**
 * Values and the few Ruby core-library operations the status script relies on:
 * `nil`-able values, `Array#join`, `String#split` and the prefix slice `a[0, n]`.
 */
module Common {

  /** A Ruby value that may be `nil` (a JSON `null`, or a missing hash key). */
  datatype Option<+T> = None | Some(value: T)

  /** The outcome of a run: the lines printed, or the error that ended the script. */
  datatype Result<+R, +E> = Success(value: R) | Failure(error: E)

  /** `"#{v}"`: string interpolation, where `nil` interpolates as the empty string. */
  function Interpolate(v: Option<string>): string
  {
    match v
    case None => ""
    case Some(s) => s
  }

  /** `parts.join(sep)`: the parts with `sep` between neighbours. */
  function Join(parts: seq<string>, sep: string): string
  {
    if |parts| == 0 then ""
    else if |parts| == 1 then parts[0]
    else parts[0] + sep + Join(parts[1..], sep)
  }

  /**
   * The fields of `s` between occurrences of `sep`, empty fields included:
   * always one field more than there are separators.
   */
  function Fields(s: string, sep: char): (r: seq<string>)
    ensures |r| >= 1
    ensures forall i :: 0 <= i < |r| ==> sep !in r[i]
  {
    if |s| == 0 then [""]
    else
      var rest := Fields(s[1..], sep);
      if s[0] == sep then [""] + rest else [[s[0]] + rest[0]] + rest[1..]
  }

  /** Removes the empty fields at the end of `fs`, as `String#split` does. */
  function DropTrailingEmpty(fs: seq<string>): (r: seq<string>)
    ensures |r| <= |fs| && r == fs[..|r|]
    ensures forall i :: |r| <= i < |fs| ==> fs[i] == ""
    ensures |r| > 0 ==> r[|r| - 1] != ""
  {
    if |fs| == 0 then []
    else if fs[|fs| - 1] == "" then DropTrailingEmpty(fs[..|fs| - 1])
    else fs
  }

  /**
   * `s.split(sep)` for a one-character separator other than a space (Ruby
   * splits on `' '` awk-style, which this is not): the fields of `s`, with the
   * trailing empty ones removed (so `"".split(',')` and `",,".split(',')` are
   * both empty, while `",a"` keeps its leading empty field).
   */
  function Split(s: string, sep: char): (r: seq<string>)
    ensures forall i :: 0 <= i < |r| ==> sep !in r[i]
    ensures |r| > 0 ==> r[|r| - 1] != ""
  {
    DropTrailingEmpty(Fields(s, sep))
  }

  /** `a[0, n]` for `n >= 0`: the first `n` elements, or all of them when there are fewer. */
  function Take<T>(a: seq<T>, n: nat): (r: seq<T>)
    ensures |r| == if n < |a| then n else |a|
    ensures r == a[..|r|]
  {
    if n < |a| then a[..n] else a
  }

  /** Concatenation is associative. */
  lemma AppendAssoc<T>(a: seq<T>, b: seq<T>, c: seq<T>)
    ensures a + (b + c) == (a + b) + c
  {
  }

  /** Joining the fields of `s` back together with the separator gives `s` again. */
  lemma {:induction false} JoinFields(s: string, sep: char)
    ensures Join(Fields(s, sep), [sep]) == s
  {
    if |s| > 0 {
      var rest := Fields(s[1..], sep);
      JoinFields(s[1..], sep);
      if s[0] == sep {
        assert Fields(s, sep) == [""] + rest;
        assert s == [sep] + s[1..];
      } else {
        JoinHead(rest, [s[0]], [sep]);
        assert s == [s[0]] + s[1..];
      }
    }
  }

  /** Prepending text to the first part of a join prepends it to the whole join. */
  lemma {:induction false} JoinHead(parts: seq<string>, pre: string, sep: string)
    requires |parts| >= 1
    ensures Join([pre + parts[0]] + parts[1..], sep) == pre + Join(parts, sep)
  {
    var ps := [pre + parts[0]] + parts[1..];
    assert ps[1..] == parts[1..];
  }

  /** Appending a part to a join appends the separator and that part. */
  lemma {:induction false} JoinSnoc(parts: seq<string>, last: string, sep: string)
    requires |parts| >= 1
    ensures Join(parts + [last], sep) == Join(parts, sep) + sep + last
  {
    if |parts| == 1 {
      assert (parts + [last])[1..] == [last];
    } else {
      assert (parts + [last])[1..] == parts[1..] + [last];
      JoinSnoc(parts[1..], last, sep);
    }
  }

  /** `Join` of two parts. */
  lemma JoinOfTwo(a: string, b: string, sep: string)
    ensures Join([a, b], sep) == a + sep + b
  {
    assert [a, b][1..] == [b];
  }

  /** A separator-free prefix merges into the first field of what follows it. */
  lemma {:induction false} FieldsPrefix(a: string, t: string, sep: char)
    requires sep !in a
    ensures Fields(a + t, sep) == [a + Fields(t, sep)[0]] + Fields(t, sep)[1..]
  {
    if |a| > 0 {
      FieldsPrefix(a[1..], t, sep);
      assert (a + t)[1..] == a[1..] + t;
      assert [a[0]] + (a[1..] + Fields(t, sep)[0]) == a + Fields(t, sep)[0];
    } else {
      var ft := Fields(t, sep);
      assert a + t == t && a + ft[0] == ft[0];
      assert ft == [ft[0]] + ft[1..];
    }
  }

  /** Splitting a join of separator-free parts gives the parts back. */
  lemma {:induction false} FieldsJoin(parts: seq<string>, sep: char)
    requires |parts| >= 1
    requires forall i :: 0 <= i < |parts| ==> sep !in parts[i]
    ensures Fields(Join(parts, [sep]), sep) == parts
  {
    if |parts| == 1 {
      FieldsPrefix(parts[0], "", sep);
      assert parts[0] + "" == parts[0];
    } else {
      var tail := Join(parts[1..], [sep]);
      FieldsJoin(parts[1..], sep);
      assert Join(parts, [sep]) == parts[0] + ([sep] + tail);
      var rest := [sep] + tail;
      assert rest[0] == sep && rest[1..] == tail;
      assert Fields(rest, sep) == [""] + parts[1..];
      FieldsPrefix(parts[0], rest, sep);
      assert parts[0] + "" == parts[0];
      assert parts == [parts[0]] + parts[1..];
    }
  }

  /**
   * `String#split` undoes `Array#join` on separator-free parts whose last part
   * is not empty.
   */
  lemma {:induction false} SplitJoin(parts: seq<string>, sep: char)
    requires forall i :: 0 <= i < |parts| ==> sep !in parts[i]
    requires parts == [] || parts[|parts| - 1] != ""
    ensures Split(Join(parts, [sep]), sep) == parts
  {
    if parts != [] {
      FieldsJoin(parts, sep);
    }
  }
}
