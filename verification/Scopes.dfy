// Scope strings: split on white space when asked for, joined by spaces when granted.

module Scopes {

  predicate IsSpace(c: char) {
    '\t' <= c <= '\r' || c == ' ' || c == '\U{85}' || c == '\U{A0}' || c == '\U{1680}'
    || '\U{2000}' <= c <= '\U{200A}' || c == '\U{2028}' || c == '\U{2029}' || c == '\U{202F}'
    || c == '\U{205F}' || c == '\U{3000}'
  }

  /** The code points Unicode gives the property White_Space. */
  lemma WhiteSpace(c: char)
    ensures IsSpace(c) <==> c as int in {
      9, 10, 11, 12, 13, 32, 133, 160, 5760, 8192, 8193, 8194, 8195, 8196, 8197, 8198, 8199, 8200, 8201, 8202, 8232, 8233, 8239,
      8287, 12288}
  {
  }

  predicate IsWord(s: string) {
    s != "" && forall c :: c in s ==> !IsSpace(c)
  }

  /** The length of the word at the start of a string. */
  function WordLength(s: string): (n: nat)
    ensures n <= |s| && (forall i :: 0 <= i < n ==> !IsSpace(s[i])) && (n < |s| ==> IsSpace(s[n]))
  {
    if s == "" || IsSpace(s[0]) then 0 else 1 + WordLength(s[1..])
  }

  function SplitScopes(s: string): (words: seq<string>)
    ensures forall w :: w in words ==> IsWord(w)
    decreases |s|
  {
    if s == "" then []
    else if IsSpace(s[0]) then SplitScopes(s[1..])
    else [s[..WordLength(s)]] + SplitScopes(s[WordLength(s)..])
  }

  function Join(words: seq<string>): string {
    if |words| == 0 then ""
    else if |words| == 1 then words[0]
    else words[0] + " " + Join(words[1..])
  }

  lemma SplitWord(w: string)
    requires IsWord(w)
    ensures SplitScopes(w) == [w]
  {
    assert forall i :: 0 <= i < |w| ==> w[i] in w;
    assert w[..WordLength(w)] == w && w[WordLength(w)..] == "";
  }

  /** With SplitWord and the empty string, this determines SplitScopes on every string: a space of any
      kind separates, and nothing else does. */
  lemma {:induction false} SplitAtSpace(a: string, space: char, b: string)
    requires IsSpace(space)
    ensures SplitScopes(a + [space] + b) == SplitScopes(a) + SplitScopes(b)
    decreases |a|
  {
    var s := a + [space] + b;
    if a == "" {
      assert s[1..] == b;
    } else if IsSpace(a[0]) {
      assert s[1..] == a[1..] + [space] + b;
      SplitAtSpace(a[1..], space, b);
    } else {
      var n := WordLength(a);
      WordLengthStops(a, space, b);
      assert s[..n] == a[..n] && s[n..] == a[n..] + [space] + b;
      SplitAtSpace(a[n..], space, b);
    }
  }

  lemma {:induction false} WordLengthStops(a: string, space: char, b: string)
    requires IsSpace(space)
    ensures WordLength(a + [space] + b) == WordLength(a)
  {
    if a != "" && !IsSpace(a[0]) {
      assert (a + [space] + b)[1..] == a[1..] + [space] + b;
      WordLengthStops(a[1..], space, b);
    }
  }

  lemma {:induction false} SplitOfJoin(words: seq<string>)
    requires forall w :: w in words ==> IsWord(w)
    ensures SplitScopes(Join(words)) == words
  {
    if |words| == 1 {
      SplitWord(words[0]);
    } else if |words| > 1 {
      SplitAtSpace(words[0], ' ', Join(words[1..]));
      SplitWord(words[0]);
      SplitOfJoin(words[1..]);
    }
  }

  /** Section 3.3 of RFC 6749: the scope string of the response lists what was requested, for
      every request string. */
  lemma GrantedScopeReadsBack(requested: string)
    ensures SplitScopes(Join(SplitScopes(requested))) == SplitScopes(requested)
  {
    SplitOfJoin(SplitScopes(requested));
  }

  method HasScope(scopes: seq<string>, target: string) returns (found: bool)
    ensures found <==> target in scopes
  {
    for i := 0 to |scopes|
      invariant target !in scopes[..i]
    {
      if scopes[i] == target {
        return true;
      }
    }
    return false;
  }
}
