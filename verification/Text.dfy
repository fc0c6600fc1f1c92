/** String operations of the standard library that the printers use. */
module Text {

  /** `str::replace` with a one-character pattern. */
  function ReplaceChar(s: string, c: char, replacement: string): string {
    if s == "" then "" else (if s[0] == c then replacement else [s[0]]) + ReplaceChar(s[1..], c, replacement)
  }

  lemma {:induction false} ReplaceCharConcat(a: string, b: string, c: char, replacement: string)
    ensures ReplaceChar(a + b, c, replacement) == ReplaceChar(a, c, replacement) + ReplaceChar(b, c, replacement)
  {
    if a == "" {
      assert a + b == b;
    } else {
      assert (a + b)[1..] == a[1..] + b;
      ReplaceCharConcat(a[1..], b, c, replacement);
    }
  }

  /** `join` of a list of strings. */
  function Join(parts: seq<string>, separator: string): string {
    if parts == [] then ""
    else if |parts| == 1 then parts[0]
    else parts[0] + separator + Join(parts[1..], separator)
  }

  /** `str::split` on one character. */
  function Split(s: string, c: char): (parts: seq<string>)
    ensures |parts| > 0
  {
    if s == "" then [""]
    else
      var rest := Split(s[1..], c);
      if s[0] == c then [""] + rest else [[s[0]] + rest[0]] + rest[1..]
  }

  predicate Contains(s: string, c: char) {
    exists i :: 0 <= i < |s| && s[i] == c
  }

  /** Splitting undoes putting the separator between two texts, the first of which does not contain it. */
  lemma {:induction false} SplitHead(a: string, b: string, c: char)
    requires !Contains(a, c)
    ensures Split(a + [c] + b, c) == [a] + Split(b, c)
  {
    if a == "" {
      assert a + [c] + b == [c] + b;
      assert ([c] + b)[1..] == b;
    } else {
      assert (a + [c] + b)[1..] == a[1..] + [c] + b;
      assert !Contains(a[1..], c) by {
        forall i | 0 <= i < |a[1..]|
          ensures a[1..][i] != c
        {
          assert a[1..][i] == a[i + 1];
        }
      }
      SplitHead(a[1..], b, c);
      assert [a[0]] + a[1..] == a;
    }
  }

  lemma {:induction false} SplitWhole(a: string, c: char)
    requires !Contains(a, c)
    ensures Split(a, c) == [a]
  {
    if a != "" {
      assert !Contains(a[1..], c) by {
        forall i | 0 <= i < |a[1..]|
          ensures a[1..][i] != c
        {
          assert a[1..][i] == a[i + 1];
        }
      }
      SplitWhole(a[1..], c);
      assert [a[0]] + a[1..] == a;
    }
  }
}
