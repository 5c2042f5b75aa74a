/** Small shared vocabulary: optional values, results, Rust-style string
    splitting and path joining. */
module Common {

  datatype Option<+T> = None | Some(value: T) {
    function GetOr(default: T): T {
      match this
      case Some(v) => v
      case None => default
    }
  }

  datatype Result<+T, +E> = Ok(value: T) | Err(error: E)

  /** The set of elements of a sequence. */
  function Elems<T>(s: seq<T>): set<T> {
    set x | x in s
  }

  /** No element occurs twice. */
  predicate NoDup<T(==)>(s: seq<T>) {
    forall i, j :: 0 <= i < j < |s| ==> s[i] != s[j]
  }

  predicate StartsWith(s: string, prefix: string) {
    |prefix| <= |s| && s[..|prefix|] == prefix
  }

  /** `xs` is `ys` with some elements left out, the rest in their order. */
  predicate Subsequence<T(==)>(xs: seq<T>, ys: seq<T>)
    decreases |ys|
  {
    if |xs| == 0 then true
    else if |ys| == 0 then false
    else (xs[0] == ys[0] && Subsequence(xs[1..], ys[1..])) || Subsequence(xs, ys[1..])
  }

  /** Number of occurrences of `c` in `s`. */
  function Count(s: string, c: char): nat {
    if |s| == 0 then 0 else (if s[0] == c then 1 else 0) + Count(s[1..], c)
  }

  /** The fields of `s` between occurrences of `sep`, the way Rust's
      `str::split` with a character pattern yields them: empty fields are
      kept, and the empty string has exactly one, empty, field. */
  function Split(s: string, sep: char): (r: seq<string>)
    ensures |r| == Count(s, sep) + 1
    ensures forall i :: 0 <= i < |r| ==> sep !in r[i]
  {
    if |s| == 0 then [""]
    else if s[0] == sep then [""] + Split(s[1..], sep)
    else
      var rest := Split(s[1..], sep);
      [[s[0]] + rest[0]] + rest[1..]
  }

  /** Inverse of `Split`: the fields glued back with the separator. */
  function Join(parts: seq<string>, sep: char): string
    requires |parts| >= 1
  {
    if |parts| == 1 then parts[0] else parts[0] + [sep] + Join(parts[1..], sep)
  }

  /** Splitting loses nothing: joining the fields gives the string back. */
  lemma {:induction false} JoinSplit(s: string, sep: char)
    ensures Join(Split(s, sep), sep) == s
    decreases |s|
  {
    if |s| == 0 {
    } else if s[0] == sep {
      JoinSplit(s[1..], sep);
      assert s == [sep] + s[1..];
    } else {
      JoinSplit(s[1..], sep);
      var rest := Split(s[1..], sep);
      if |rest| == 1 {
        assert s == [s[0]] + s[1..];
      } else {
        assert Join([[s[0]] + rest[0]] + rest[1..], sep)
            == [s[0]] + rest[0] + [sep] + Join(rest[1..], sep);
        assert s == [s[0]] + s[1..];
      }
    }
  }

  /** Fields free of the separator are recovered exactly from their join. */
  lemma {:induction false} SplitJoin(parts: seq<string>, sep: char)
    requires |parts| >= 1
    requires forall i :: 0 <= i < |parts| ==> sep !in parts[i]
    ensures Split(Join(parts, sep), sep) == parts
    decreases |parts|, |parts[0]|
  {
    var p := parts[0];
    if |p| == 0 {
      if |parts| == 1 {
      } else {
        SplitJoin(parts[1..], sep);
        assert Join(parts, sep) == [sep] + Join(parts[1..], sep);
        assert parts == [""] + parts[1..];
      }
    } else {
      var parts' := [p[1..]] + parts[1..];
      assert forall i :: 0 <= i < |parts'| ==> sep !in parts'[i] by {
        forall i | 0 <= i < |parts'| ensures sep !in parts'[i] {
          if i == 0 {
            assert forall k :: 0 <= k < |p[1..]| ==> p[1..][k] == p[k + 1];
          } else {
            assert parts'[i] == parts[i];
          }
        }
      }
      SplitJoin(parts', sep);
      assert p[0] in p;
      if |parts| == 1 {
        assert Join(parts, sep) == p == [p[0]] + p[1..];
      } else {
        assert Join(parts', sep) == p[1..] + [sep] + Join(parts[1..], sep);
        assert Join(parts, sep) == [p[0]] + Join(parts', sep);
      }
      assert [p[0]] + parts'[0] == p;
      assert parts'[1..] == parts[1..];
      assert parts == [p] + parts[1..];
    }
  }

  /** `Path::join` for the relative-or-absolute strings this program joins:
      an absolute right side replaces the base, an empty base contributes
      nothing, and a separator is inserted unless the base already ends in
      one. */
  function PathJoin(base: string, p: string): (r: string)
    ensures StartsWith(p, "/") ==> r == p
    ensures base == "" ==> r == p
    // otherwise: the base, then one separator unless the base ends in one, then `p`
    ensures !StartsWith(p, "/") && base != "" ==>
              |base| + |p| <= |r| <= |base| + |p| + 1 &&
              r[..|base|] == base && r[|r| - |p|..] == p &&
              (|r| == |base| + |p| + 1 <==> base[|base| - 1] != '/') &&
              (|r| == |base| + |p| + 1 ==> r[|base|] == '/')
  {
    if StartsWith(p, "/") then p
    else if base == "" then p
    else if base[|base| - 1] == '/' then base + p
    else base + "/" + p
  }
}
