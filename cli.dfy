/** How the command-line loop of chatbot_backend.py reads one line of input: "quit" in any
    letter case ends the loop; a line starting with "search:" in any letter case asks the
    rest of the line, stripped, with web search; any other line is asked as it is. */
module Cli {
  import opened Basics

  const QUIT_WORD: string := "quit"
  const SEARCH_PREFIX: string := "search:"

  datatype Action = Quit | Ask(query: string, useSearch: bool)

  /** Lower-casing of one character; only the ASCII capitals are mapped. */
  function LowerChar(c: char): (d: char)
    ensures 'A' <= c <= 'Z' ==> 'a' <= d <= 'z' && d as int - c as int == 32
    ensures !('A' <= c <= 'Z') ==> d == c
  {
    if 'A' <= c <= 'Z' then (c as int + 32) as char else c
  }

  /** `str.lower()` on the characters whose case mapping matters here. */
  function Lower(s: string): (r: string)
    ensures |r| == |s|
    ensures forall i :: 0 <= i < |s| ==> r[i] == LowerChar(s[i])
    ensures forall i :: 0 <= i < |r| ==> !('A' <= r[i] <= 'Z')
  {
    if s == [] then [] else [LowerChar(s[0])] + Lower(s[1..])
  }

  /** The characters Python's `str.isspace` accepts, which `str.strip()` removes. */
  const WHITESPACE: seq<char> := [
    '\t', '\n', '\U{0B}', '\U{0C}', '\r', '\U{1C}', '\U{1D}', '\U{1E}', '\U{1F}', ' ',
    '\U{85}', '\U{A0}', '\U{1680}',
    '\U{2000}', '\U{2001}', '\U{2002}', '\U{2003}', '\U{2004}', '\U{2005}', '\U{2006}',
    '\U{2007}', '\U{2008}', '\U{2009}', '\U{200A}',
    '\U{2028}', '\U{2029}', '\U{202F}', '\U{205F}', '\U{3000}'
  ]

  predicate IsSpace(c: char)
  {
    c in WHITESPACE
  }

  /** The index of the first non-whitespace character of `s` at or after `i`, or `|s|`. */
  function LeadingSpace(s: string, i: nat): (k: nat)
    requires i <= |s|
    ensures i <= k <= |s|
    ensures forall j :: i <= j < k ==> IsSpace(s[j])
    ensures k < |s| ==> !IsSpace(s[k])
    decreases |s| - i
  {
    if i < |s| && IsSpace(s[i]) then LeadingSpace(s, i + 1) else i
  }

  /** The length of `s[..n]` once its trailing whitespace is dropped. */
  function KeptEnd(s: string, n: nat): (k: nat)
    requires n <= |s|
    ensures k <= n
    ensures forall j :: k <= j < n ==> IsSpace(s[j])
    ensures k > 0 ==> !IsSpace(s[k - 1])
  {
    if n > 0 && IsSpace(s[n - 1]) then KeptEnd(s, n - 1) else n
  }

  /** Drops the leading whitespace. */
  function TrimStart(s: string): (r: string)
    ensures |r| <= |s| && r == s[|s| - |r|..]
    ensures forall i :: 0 <= i < |s| - |r| ==> IsSpace(s[i])
    ensures r != [] ==> !IsSpace(r[0])
  {
    s[LeadingSpace(s, 0)..]
  }

  /** Drops the trailing whitespace. */
  function TrimEnd(s: string): (r: string)
    ensures |r| <= |s| && r == s[..|r|]
    ensures forall i :: |r| <= i < |s| ==> IsSpace(s[i])
    ensures r != [] ==> !IsSpace(r[|r| - 1])
  {
    s[..KeptEnd(s, |s|)]
  }

  /** Python's `str.strip()`: the whitespace at both ends removed. */
  function Strip(s: string): (r: string)
    ensures r == [] || (!IsSpace(r[0]) && !IsSpace(r[|r| - 1]))
    ensures |r| <= |s|
  {
    TrimEnd(TrimStart(s))
  }

  /** Where what strip keeps begins: just after the leading whitespace. */
  function StripStart(s: string): nat
  {
    |s| - |TrimStart(s)|
  }

  /** What strip keeps is the piece of the input that starts after the leading whitespace. */
  lemma StripKeepsMiddle(s: string)
    ensures StripStart(s) + |Strip(s)| <= |s|
    ensures s[StripStart(s)..StripStart(s) + |Strip(s)|] == Strip(s)
  {
    var t := TrimStart(s);
    var r := TrimEnd(t);
    var i := StripStart(s);
    assert t == s[i..];
    assert r == t[..|r|];
    assert s[i..][..|r|] == s[i..i + |r|];
    assert s[i..i + |r|] == r;
  }

  /** Strip removes nothing but whitespace, on both sides. */
  lemma StripDropsOnlySpace(s: string)
    ensures StripStart(s) + |Strip(s)| <= |s|
    ensures forall k :: 0 <= k < StripStart(s) ==> IsSpace(s[k])
    ensures forall k :: StripStart(s) + |Strip(s)| <= k < |s| ==> IsSpace(s[k])
  {
    var t := TrimStart(s);
    var i := StripStart(s);
    forall k | i + |Strip(s)| <= k < |s|
      ensures IsSpace(s[k])
    {
      assert s[k] == t[k - i];
    }
  }

  /** Stripping twice is stripping once. */
  lemma StripIdempotent(s: string)
    ensures Strip(Strip(s)) == Strip(s)
  {
    var r := Strip(s);
    assert TrimStart(r) == r;
    assert TrimEnd(r) == r;
  }

  /** One line read by the loop: the quit check first, then the search prefix, which is
      checked against the lower-cased line and cut from the original line. */
  function Interpret(input: string): (a: Action)
    ensures a.Quit? <==> |input| == |QUIT_WORD| && forall i :: 0 <= i < |input| ==> LowerChar(input[i]) == QUIT_WORD[i]
    ensures a.Ask? && a.useSearch ==>
      |input| >= |SEARCH_PREFIX| && forall i :: 0 <= i < |SEARCH_PREFIX| ==> LowerChar(input[i]) == SEARCH_PREFIX[i]
    ensures a.Ask? && !a.useSearch ==> a.query == input
  {
    var lowered := Lower(input);
    if lowered == QUIT_WORD then Quit
    else if StartsWith(lowered, SEARCH_PREFIX) then Ask(Strip(input[|SEARCH_PREFIX|..]), true)
    else Ask(input, false)
  }

  /** Every line that starts with the prefix in any letter case, and is not "quit", asks
      with web search, and its question is what follows the prefix without surrounding
      whitespace. */
  lemma {:induction false} SearchPrefixSelectsSearch(input: string)
    requires |input| >= |SEARCH_PREFIX|
    requires forall i :: 0 <= i < |SEARCH_PREFIX| ==> LowerChar(input[i]) == SEARCH_PREFIX[i]
    ensures Interpret(input) == Ask(Strip(input[|SEARCH_PREFIX|..]), true)
  {
    var lowered := Lower(input);
    assert lowered[..|SEARCH_PREFIX|] == SEARCH_PREFIX;
    assert |lowered| != |QUIT_WORD|;
  }

  /** What strip keeps of the text after a prefix sits in the whole line just past the
      prefix and the leading whitespace. */
  lemma StripAfterPrefix(prefix: string, rest: string)
    ensures OccursAt(Strip(rest), prefix + rest, |prefix| + StripStart(rest))
  {
    StripKeepsMiddle(rest);
    OccursAtShift(Strip(rest), prefix, rest, StripStart(rest));
  }

  /** A searched question never has whitespace at either end and is a piece of the line. */
  lemma SearchQueryFromInput(input: string)
    requires |input| >= |SEARCH_PREFIX|
    requires forall i :: 0 <= i < |SEARCH_PREFIX| ==> LowerChar(input[i]) == SEARCH_PREFIX[i]
    ensures Interpret(input).Ask? && Interpret(input).useSearch
    ensures var q := Interpret(input).query;
      (q == [] || (!IsSpace(q[0]) && !IsSpace(q[|q| - 1]))) && Occurs(q, input)
  {
    SearchPrefixSelectsSearch(input);
    var n := |SEARCH_PREFIX|;
    StripAfterPrefix(input[..n], input[n..]);
    assert input[..n] + input[n..] == input;
  }
}
