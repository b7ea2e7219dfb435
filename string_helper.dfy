/** The StringHelper namespace: `split` on one delimiter, read with
    std::getline from a string stream, and `concat` of a vector of strings.
    Wide strings are sequences of `char`. */
module StringHelper {
  import opened VectorHelper

  /** The items that successive std::getline(stream, item, d) calls deliver
      from a stream over `s`: each item runs up to the next `d`, which is
      consumed; the call fails only when nothing at all is left to read. */
  function Fields(s: string, d: char): (r: seq<string>)
    ensures r == [] <==> s == []
    decreases |s|
  {
    if s == [] then []
    else
      var i := Find(s, d);
      if i == |s| then [s] else [s[..i]] + Fields(s[i + 1..], d)
  }

  /** The parts written one after the other with `d` between neighbours. */
  function Join(parts: seq<string>, d: char): string
  {
    if |parts| == 0 then []
    else if |parts| == 1 then parts[0]
    else parts[0] + [d] + Join(parts[1..], d)
  }

  /** The strings of `vs` appended in order. */
  function Flatten<T>(vs: seq<seq<T>>): seq<T>
  {
    if vs == [] then [] else Flatten(vs[..|vs| - 1]) + vs[|vs| - 1]
  }

  /** The sum of the lengths of the strings of `vs`. */
  function TotalLength<T>(vs: seq<seq<T>>): nat
  {
    if vs == [] then 0 else |vs[0]| + TotalLength(vs[1..])
  }

  /** One std::getline(stream, item, d) on a stream whose unread characters
      are `stream`; `rest` is what is left unread afterwards. */
  method GetLine(stream: string, d: char) returns (ok: bool, item: string, rest: string)
    ensures ok <==> stream != []
    ensures !ok ==> item == [] && rest == []
    ensures ok ==> d !in item && |rest| < |stream|
    ensures ok ==> stream == item + [d] + rest || (stream == item && rest == [])
    ensures ok ==> Fields(stream, d) == [item] + Fields(rest, d)
  {
    if stream == [] {
      return false, [], [];
    }
    var i := Find(stream, d);
    item := stream[..i];
    rest := if i < |stream| then stream[i + 1..] else [];
    ok := true;
    if i < |stream| {
      assert stream == item + [d] + rest;
    }
  }

  /** `split(source, delimiter)`: collects every item getline delivers. */
  method Split(source: string, delimiter: char) returns (output: seq<string>)
    ensures output == Fields(source, delimiter)
  {
    output := [];
    var stream := source;
    while true
      invariant Fields(source, delimiter) == output + Fields(stream, delimiter)
      decreases |stream|
    {
      var ok, nextItem, rest := GetLine(stream, delimiter);
      if !ok {
        break;
      }
      assert output + Fields(stream, delimiter) == (output + [nextItem]) + Fields(rest, delimiter);
      output := output + [nextItem];
      stream := rest;
    }
  }

  /** `concat(vecs)`: appends every string of `vecs` in order. */
  method Concat(vecs: seq<string>) returns (s: string)
    ensures s == Flatten(vecs)
    ensures |s| == TotalLength(vecs)
  {
    s := [];
    for i := 0 to |vecs|
      invariant s == Flatten(vecs[..i])
    {
      assert vecs[..i + 1][..i] == vecs[..i];
      s := s + vecs[i];
    }
    assert vecs[..|vecs|] == vecs;
    FlattenLength(vecs);
  }

  /** No field produced by split contains the delimiter. */
  lemma {:induction false} FieldsExcludeDelimiter(s: string, d: char)
    ensures forall k :: 0 <= k < |Fields(s, d)| ==> d !in Fields(s, d)[k]
    decreases |s|
  {
    if s != [] {
      var i := Find(s, d);
      var head := s[..i];
      assert d !in head by {
        forall j | 0 <= j < i ensures head[j] != d {
        }
      }
      if i < |s| {
        var rest := s[i + 1..];
        FieldsExcludeDelimiter(rest, d);
        var fs := Fields(rest, d);
        assert Fields(s, d) == [head] + fs;
        forall k | 0 <= k < |[head] + fs| ensures d !in ([head] + fs)[k] {
          if k > 0 {
            assert ([head] + fs)[k] == fs[k - 1];
          }
        }
      }
    }
  }

  /** Joining the fields with the delimiter gives the input back, except
      that a final delimiter is lost. */
  lemma {:induction false} JoinFields(s: string, d: char)
    ensures Join(Fields(s, d), d) == if s != [] && s[|s| - 1] == d then s[..|s| - 1] else s
    decreases |s|
  {
    if s != [] {
      var i := Find(s, d);
      var head := s[..i];
      assert d !in head by {
        forall j | 0 <= j < i ensures head[j] != d {
        }
      }
      if i == |s| {
        assert head == s;
        FieldsSingle(s, d);
      } else {
        var rest := s[i + 1..];
        assert s == head + [d] + rest;
        FieldsStep(head, d, rest);
        if rest == [] {
          assert s[..|s| - 1] == head;
        } else {
          JoinFields(rest, d);
          var fr := Fields(rest, d);
          JoinCons(head, fr, d);
          assert Join(Fields(s, d), d) == head + [d] + Join(fr, d);
          LastOfAppend(head + [d], rest);
        }
      }
    }
  }

  /** Joining a part in front of a non-empty list puts one delimiter between. */
  lemma JoinCons(head: string, parts: seq<string>, d: char)
    requires parts != []
    ensures Join([head] + parts, d) == head + [d] + Join(parts, d)
  {
    assert ([head] + parts)[1..] == parts;
  }

  /** Dropping the last element of `a + b`, with `b` non-empty, drops it from `b`. */
  lemma LastOfAppend<T>(a: seq<T>, b: seq<T>)
    requires b != []
    ensures (a + b)[|a + b| - 1] == b[|b| - 1]
    ensures (a + b)[..|a + b| - 1] == a + b[..|b| - 1]
  {
  }

  /** A field free of the delimiter, followed by the delimiter, is read
      as one item. */
  lemma FieldsStep(head: string, d: char, rest: string)
    requires d !in head
    ensures Fields(head + [d] + rest, d) == [head] + Fields(rest, d)
  {
    var s := head + [d] + rest;
    forall j | 0 <= j < |head| ensures s[j] != d {
      assert s[j] == head[j];
    }
    assert s[|head|] == d;
    assert s[..|head|] == head;
    assert s[|head| + 1..] == rest;
  }

  /** A non-empty string free of the delimiter is read as one item. */
  lemma FieldsSingle(s: string, d: char)
    requires s != [] && d !in s
    ensures Fields(s, d) == [s]
  {
    assert forall j :: 0 <= j < |s| ==> s[j] != d;
  }

  /** Splitting a join gives the parts back, provided no part contains the
      delimiter and the last part is not empty (a trailing delimiter would
      otherwise be swallowed). */
  lemma {:induction false} FieldsJoin(parts: seq<string>, d: char)
    requires forall k :: 0 <= k < |parts| ==> d !in parts[k]
    requires parts == [] || parts[|parts| - 1] != []
    ensures Fields(Join(parts, d), d) == parts
    decreases |parts|
  {
    if |parts| == 1 {
      FieldsSingle(parts[0], d);
    } else if |parts| > 1 {
      FieldsJoin(parts[1..], d);
      FieldsStep(parts[0], d, Join(parts[1..], d));
      assert parts == [parts[0]] + parts[1..];
    }
  }

  /** Flattening distributes over appending vectors. */
  lemma {:induction false} FlattenAppend<T>(a: seq<seq<T>>, b: seq<seq<T>>)
    ensures Flatten(a + b) == Flatten(a) + Flatten(b)
    decreases |b|
  {
    if b == [] {
      assert a + b == a;
    } else {
      var init := b[..|b| - 1];
      assert (a + b)[..|a + b| - 1] == a + init;
      FlattenAppend(a, init);
    }
  }

  /** The length of a concatenation is the sum of the lengths. */
  lemma {:induction false} FlattenLength<T>(vs: seq<seq<T>>)
    ensures |Flatten(vs)| == TotalLength(vs)
    decreases |vs|
  {
    if vs != [] {
      assert vs == [vs[0]] + vs[1..];
      FlattenAppend([vs[0]], vs[1..]);
      assert Flatten([vs[0]]) == vs[0] by {
        assert [vs[0]][..0] == [];
      }
      FlattenLength(vs[1..]);
    }
  }

  /** Element `i` of `vs` sits unchanged in the concatenation, right after
      the elements before it. */
  lemma FlattenPiece<T>(vs: seq<seq<T>>, i: nat)
    requires i < |vs|
    ensures TotalLength(vs[..i]) + |vs[i]| <= |Flatten(vs)|
    ensures Flatten(vs)[TotalLength(vs[..i])..TotalLength(vs[..i]) + |vs[i]|] == vs[i]
  {
    var before, after := vs[..i], vs[i + 1..];
    assert vs == before + ([vs[i]] + after);
    FlattenAppend(before, [vs[i]] + after);
    FlattenAppend([vs[i]], after);
    assert Flatten([vs[i]]) == vs[i] by {
      assert [vs[i]][..0] == [];
    }
    FlattenLength(before);
  }
}
