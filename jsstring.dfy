/** The few JavaScript string operations the product router relies on. */
module JsString {

  /** `sub` occurs in `s` starting at position `i`. */
  predicate OccursAt(s: string, sub: string, i: int) {
    0 <= i && i + |sub| <= |s| && s[i..i + |sub|] == sub
  }

  /** `s.includes(sub)`: true when `sub` occurs somewhere in `s` (always, for an empty `sub`). */
  function Includes(s: string, sub: string): bool
    decreases |s|
  {
    sub <= s || (|s| > 0 && Includes(s[1..], sub))
  }

  lemma {:induction false} IncludesIff(s: string, sub: string)
    ensures Includes(s, sub) <==> exists i :: OccursAt(s, sub, i)
    decreases |s|
  {
    if sub <= s {
      assert OccursAt(s, sub, 0);
    } else if |s| > 0 {
      IncludesIff(s[1..], sub);
      if Includes(s[1..], sub) {
        var i :| OccursAt(s[1..], sub, i);
        assert s[i + 1..i + 1 + |sub|] == s[1..][i..i + |sub|];
        assert OccursAt(s, sub, i + 1);
      } else {
        forall i | 0 < i && i + |sub| <= |s| ensures !OccursAt(s, sub, i) {
          assert s[1..][i - 1..i - 1 + |sub|] == s[i..i + |sub|];
          assert !OccursAt(s[1..], sub, i - 1);
        }
      }
    }
  }

  /** `s.split(sep)` for a one-character separator: the pieces between separators, in order. */
  function Split(s: string, sep: char): (r: seq<string>)
    ensures |r| >= 1
    ensures forall k :: 0 <= k < |r| ==> sep !in r[k]
    decreases |s|
  {
    if |s| == 0 then [""]
    else
      var rest := Split(s[1..], sep);
      if s[0] == sep then [""] + rest
      else [[s[0]] + rest[0]] + rest[1..]
  }

  /** `parts.join(sep)`. */
  function Join(parts: seq<string>, sep: char): string
    requires |parts| >= 1
  {
    if |parts| == 1 then parts[0] else parts[0] + [sep] + Join(parts[1..], sep)
  }

  /** Splitting and joining again gives back the string. */
  lemma {:induction false} JoinSplit(s: string, sep: char)
    ensures Join(Split(s, sep), sep) == s
    decreases |s|
  {
    if |s| > 0 {
      var rest := Split(s[1..], sep);
      JoinSplit(s[1..], sep);
      if s[0] != sep {
        var r := Split(s, sep);
        assert r[0] == [s[0]] + rest[0] && r[1..] == rest[1..];
        if |rest| > 1 {
          assert Join(rest, sep) == rest[0] + [sep] + Join(rest[1..], sep);
        }
        assert s == [s[0]] + s[1..];
      } else {
        assert s == [sep] + s[1..];
      }
    }
  }

  /** Joining separator-free pieces and splitting again gives back the pieces. */
  lemma {:induction false} SplitJoin(parts: seq<string>, sep: char)
    requires |parts| >= 1
    requires forall k :: 0 <= k < |parts| ==> sep !in parts[k]
    ensures Split(Join(parts, sep), sep) == parts
    decreases |parts|, |parts[0]|
  {
    var head := parts[0];
    if |head| == 0 {
      if |parts| > 1 {
        SplitJoin(parts[1..], sep);
        var j := Join(parts, sep);
        assert j == [sep] + Join(parts[1..], sep);
        assert j[1..] == Join(parts[1..], sep);
      }
    } else {
      var shorter := [head[1..]] + parts[1..];
      assert shorter[1..] == parts[1..];
      SplitJoin(shorter, sep);
      var j := Join(parts, sep);
      assert j[1..] == Join(shorter, sep) by {
        if |parts| > 1 {
          assert j == head + [sep] + Join(parts[1..], sep);
        }
      }
      assert j[0] == head[0];
      assert [head[0]] + head[1..] == head;
    }
  }
}
