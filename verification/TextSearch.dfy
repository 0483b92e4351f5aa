/** Substrings, and lower-casing that works character by character. */
module TextSearch {
  import opened Prelude

  predicate StartsWith(s: string, prefix: string) {
    prefix <= s
  }

  /** `needle in hay`. */
  predicate Contains(hay: string, needle: string) {
    StartsWith(hay, needle) || (hay != "" && Contains(hay[1..], needle))
  }

  function Lower(lower: char -> string, s: string): string {
    if s == "" then "" else Lower(lower, s[..|s| - 1]) + lower(s[|s| - 1])
  }

  /** `separator.join(parts)`. */
  function Join(separator: string, parts: seq<string>): string {
    if |parts| == 0 then ""
    else if |parts| == 1 then parts[0]
    else Join(separator, parts[..|parts| - 1]) + separator + parts[|parts| - 1]
  }

  lemma {:induction false} ContainsParts(hay: string, pre: string, needle: string, post: string)
    requires hay == pre + needle + post
    ensures Contains(hay, needle)
    decreases |pre|
  {
    if pre != "" {
      assert hay[1..] == pre[1..] + needle + post;
      ContainsParts(hay[1..], pre[1..], needle, post);
    } else {
      assert hay == needle + post;
    }
  }

  lemma {:induction false} PartsOf(hay: string, needle: string) returns (pre: string, post: string)
    requires Contains(hay, needle)
    ensures hay == pre + needle + post
    decreases |hay|
  {
    if StartsWith(hay, needle) {
      pre, post := "", hay[|needle|..];
    } else {
      pre, post := PartsOf(hay[1..], needle);
      assert hay == [hay[0]] + hay[1..];
      pre := [hay[0]] + pre;
    }
  }

  lemma {:induction false} ContainsTransitive(a: string, b: string, c: string)
    requires Contains(a, b) && Contains(b, c)
    ensures Contains(a, c)
  {
    var p, q := PartsOf(a, b);
    var r, s := PartsOf(b, c);
    assert a == (p + r) + c + (s + q);
    ContainsParts(a, p + r, c, s + q);
  }

  lemma {:induction false} LowerConcat(lower: char -> string, a: string, b: string)
    ensures Lower(lower, a + b) == Lower(lower, a) + Lower(lower, b)
    decreases |b|
  {
    if b == "" {
      assert a + b == a;
    } else {
      LowerConcat(lower, a, b[..|b| - 1]);
      assert (a + b)[..|a + b| - 1] == a + b[..|b| - 1];
    }
  }

  lemma {:induction false} LowerContains(lower: char -> string, hay: string, needle: string)
    requires Contains(hay, needle)
    ensures Contains(Lower(lower, hay), Lower(lower, needle))
  {
    var pre, post := PartsOf(hay, needle);
    LowerConcat(lower, pre + needle, post);
    LowerConcat(lower, pre, needle);
    ContainsParts(Lower(lower, hay), Lower(lower, pre), Lower(lower, needle), Lower(lower, post));
  }

  lemma {:induction false} LowerFixes(lower: char -> string, s: string)
    requires forall i | 0 <= i < |s| :: lower(s[i]) == [s[i]]
    ensures Lower(lower, s) == s
    decreases |s|
  {
    if s != "" {
      LowerFixes(lower, s[..|s| - 1]);
    }
  }

  lemma {:induction false} ContainsStrip(isSpace: char -> bool, s: string)
    ensures Contains(s, Strip(isSpace, s))
  {
    var left := StripLeft(isSpace, s);
    var p := LeftPart(isSpace, s);
    var q := RightPart(isSpace, left);
    assert s == p + Strip(isSpace, s) + q;
    ContainsParts(s, p, Strip(isSpace, s), q);
  }

  lemma {:induction false} LeftPart(isSpace: char -> bool, s: string) returns (p: string)
    ensures s == p + StripLeft(isSpace, s)
    decreases |s|
  {
    p := "";
    if s != "" && isSpace(s[0]) {
      p := LeftPart(isSpace, s[1..]);
      assert s == [s[0]] + s[1..];
      p := [s[0]] + p;
    }
  }

  lemma {:induction false} RightPart(isSpace: char -> bool, s: string) returns (q: string)
    ensures s == StripRight(isSpace, s) + q
    decreases |s|
  {
    q := "";
    if s != "" && isSpace(s[|s| - 1]) {
      q := RightPart(isSpace, s[..|s| - 1]);
      assert s == s[..|s| - 1] + [s[|s| - 1]];
      q := q + [s[|s| - 1]];
    }
  }

  lemma {:induction false} JoinContains(separator: string, parts: seq<string>, k: nat)
    requires k < |parts|
    ensures Contains(Join(separator, parts), parts[k])
    decreases |parts|
  {
    var n := |parts| - 1;
    if n == 0 {
      ContainsParts(parts[0], "", parts[0], "");
    } else {
      var init := Join(separator, parts[..n]);
      if k == n {
        ContainsParts(Join(separator, parts), init + separator, parts[n], "");
      } else {
        JoinContains(separator, parts[..n], k);
        assert parts[..n][k] == parts[k];
        ContainsParts(Join(separator, parts), "", init, separator + parts[n]);
        ContainsTransitive(Join(separator, parts), init, parts[k]);
      }
    }
  }
}
