/** The two Python string operations the view relies on: `str.lower()` (on
    ASCII letters) and the substring test `sub in s`. */
module Text {

  function LowerChar(c: char): char {
    if 'A' <= c <= 'Z' then (c as int + 32) as char else c
  }

  /** `s.lower()`, restricted to ASCII case mapping. */
  function Lower(s: string): (r: string)
    ensures |r| == |s|
    ensures forall i :: 0 <= i < |s| ==> r[i] == LowerChar(s[i])
    ensures forall i :: 0 <= i < |r| ==> !('A' <= r[i] <= 'Z')
  {
    seq(|s|, i requires 0 <= i < |s| => LowerChar(s[i]))
  }

  /** The request method is `get` after lower-casing exactly when it is one of
      the eight spellings of GET. */
  lemma LowerIsGet(m: string)
    ensures Lower(m) == "get" <==>
            |m| == 3 && m[0] in "gG" && m[1] in "eE" && m[2] in "tT"
  {
    var l := Lower(m);
    if l == "get" {
      assert LowerChar(m[0]) == 'g' && LowerChar(m[1]) == 'e' && LowerChar(m[2]) == 't';
    }
    if |m| == 3 && m[0] in "gG" && m[1] in "eE" && m[2] in "tT" {
      assert l[0] == 'g' && l[1] == 'e' && l[2] == 't';
      assert l == "get";
    }
  }

  /** `sub` occurs in `s` at position `i`. */
  ghost predicate OccursAt(s: string, sub: string, i: int) {
    0 <= i && i + |sub| <= |s| && s[i..i + |sub|] == sub
  }

  ghost predicate HasSubstring(s: string, sub: string) {
    exists i :: OccursAt(s, sub, i)
  }

  /** Python's `sub in s` for strings, scanning from the left: a prefix is
      found at once, and nothing longer than `s` is ever found.
      ContainsIsSubstring below gives the full characterisation. */
  function Contains(s: string, sub: string): (r: bool)
    ensures sub <= s ==> r
    ensures r ==> |sub| <= |s|
    decreases |s|
  {
    if sub <= s then true
    else if s == [] then false
    else Contains(s[1..], sub)
  }

  lemma {:induction false} ContainsIsSubstring(s: string, sub: string)
    ensures Contains(s, sub) <==> HasSubstring(s, sub)
    decreases |s|
  {
    if sub <= s {
      assert OccursAt(s, sub, 0);
    } else if s == [] {
    } else {
      assert Contains(s, sub) == Contains(s[1..], sub);
      ContainsIsSubstring(s[1..], sub);
      if HasSubstring(s[1..], sub) {
        var i :| OccursAt(s[1..], sub, i);
        OccursInTail(s, sub, i);
      }
      if HasSubstring(s, sub) {
        var i :| OccursAt(s, sub, i);
        if i > 0 {
          OccursPastHead(s, sub, i);
        }
      }
    }
  }

  /** An occurrence in the tail of `s` is one in `s`, a place further on. */
  lemma OccursInTail(s: string, sub: string, i: int)
    requires s != [] && OccursAt(s[1..], sub, i)
    ensures OccursAt(s, sub, i + 1)
  {
    assert s[i + 1..i + 1 + |sub|] == s[1..][i..i + |sub|];
  }

  /** An occurrence past the head of `s` is one in its tail, a place back. */
  lemma OccursPastHead(s: string, sub: string, i: int)
    requires s != [] && i > 0 && OccursAt(s, sub, i)
    ensures OccursAt(s[1..], sub, i - 1)
  {
    assert s[1..][i - 1..i - 1 + |sub|] == s[i..i + |sub|];
  }
}
