/**
 * The string operations the chat handlers apply to an utterance before routing it:
 * Python's `str.strip`, `str.lower`, `str.title`, the substring operator `in`,
 * `startswith`/`endswith`, and the word-boundary keyword search that FinalPhase.py
 * runs with `re.search`.
 *
 * Case mapping is ASCII-only; whitespace is Python's `str.isspace` set.
 */
module Text {

  // ---------------------------------------------------------------- case mapping

  predicate IsUpper(c: char) { 'A' <= c <= 'Z' }
  predicate IsLower(c: char) { 'a' <= c <= 'z' }
  predicate IsLetter(c: char) { IsUpper(c) || IsLower(c) }
  predicate IsDigit(c: char) { '0' <= c <= '9' }

  function LowerChar(c: char): (d: char)
    ensures IsUpper(c) ==> IsLower(d) && d as int == c as int + 32
    ensures !IsUpper(c) ==> d == c
  {
    if IsUpper(c) then (c as int + 32) as char else c
  }

  function UpperChar(c: char): (d: char)
    ensures IsLower(c) ==> IsUpper(d) && d as int == c as int - 32
    ensures !IsLower(c) ==> d == c
  {
    if IsLower(c) then (c as int - 32) as char else c
  }

  /** `s.lower()`, character by character. */
  function Lower(s: string): (r: string)
    ensures |r| == |s|
    ensures forall i :: 0 <= i < |s| ==> r[i] == LowerChar(s[i])
  {
    if s == [] then [] else [LowerChar(s[0])] + Lower(s[1..])
  }

  /**
   * `s.title()`: a letter that follows a letter is lower-cased, any other
   * letter is upper-cased, everything else is kept.
   */
  function Title(s: string): (r: string)
    ensures |r| == |s|
    ensures forall i :: 0 <= i < |s| ==> r[i] == TitleChar(s[i], i > 0 && IsLetter(s[i - 1]))
  {
    TitleAfter(s, false)
  }

  /** The title-case form of `c`, given whether the character before it is a letter. */
  function TitleChar(c: char, afterLetter: bool): (d: char)
    ensures IsLetter(c) && !afterLetter ==> IsUpper(d)
    ensures IsLetter(c) && afterLetter ==> IsLower(d)
    ensures !IsLetter(c) ==> d == c
  {
    if !IsLetter(c) then c else if afterLetter then LowerChar(c) else UpperChar(c)
  }

  function TitleAfter(s: string, afterLetter: bool): (r: string)
    ensures |r| == |s|
    ensures s != [] ==> r[0] == TitleChar(s[0], afterLetter)
    ensures forall i :: 0 < i < |s| ==> r[i] == TitleChar(s[i], IsLetter(s[i - 1]))
  {
    if s == [] then []
    else
      var rest := TitleAfter(s[1..], IsLetter(s[0]));
      assert forall i :: 1 < i < |s| ==> rest[i - 1] == TitleChar(s[i], IsLetter(s[i - 1]));
      [TitleChar(s[0], afterLetter)] + rest
  }

  /** Text with no upper-case letter is its own lower-case form. */
  lemma LowerIdentity(s: string)
    requires forall i :: 0 <= i < |s| ==> !IsUpper(s[i])
    ensures Lower(s) == s
  {
  }

  // ---------------------------------------------------------------- whitespace

  /** The characters for which Python's `str.isspace` holds. */
  predicate IsSpace(c: char)
  {
    var n := c as int;
    (9 <= n <= 13) || (28 <= n <= 32) || n == 0x85 || n == 0xA0 || n == 0x1680
    || (0x2000 <= n <= 0x200A) || n == 0x2028 || n == 0x2029 || n == 0x202F
    || n == 0x205F || n == 0x3000
  }

  function TrimStart(s: string): (r: string)
    ensures |r| <= |s| && r == s[|s| - |r|..]
    ensures r == [] || !IsSpace(r[0])
    ensures forall i :: 0 <= i < |s| - |r| ==> IsSpace(s[i])
  {
    if s != [] && IsSpace(s[0]) then TrimStart(s[1..]) else s
  }

  function TrimEnd(s: string): (r: string)
    ensures |r| <= |s| && r == s[..|r|]
    ensures r == [] || !IsSpace(r[|r| - 1])
    ensures forall i :: |r| <= i < |s| ==> IsSpace(s[i])
  {
    if s != [] && IsSpace(s[|s| - 1]) then TrimEnd(s[..|s| - 1]) else s
  }

  /** `s.strip()`: the longest infix of `s` that neither starts nor ends with whitespace. */
  function Strip(s: string): (r: string)
    ensures r == [] || (!IsSpace(r[0]) && !IsSpace(r[|r| - 1]))
    ensures exists k :: OccursAt(s, r, k) && (forall i :: 0 <= i < k ==> IsSpace(s[i]))
                         && (forall i :: k + |r| <= i < |s| ==> IsSpace(s[i]))
  {
    var t := TrimStart(s);
    var r := TrimEnd(t);
    assert OccursAt(s, r, |s| - |t|);
    r
  }

  // ---------------------------------------------------------------- substrings

  /** `sub` occurs in `s` starting at position `i`. */
  predicate OccursAt(s: string, sub: string, i: int)
  {
    0 <= i && i + |sub| <= |s| && s[i..i + |sub|] == sub
  }

  /** Python's `sub in s`. */
  predicate Contains(s: string, sub: string)
  {
    exists i | 0 <= i <= |s| - |sub| :: OccursAt(s, sub, i)
  }

  /** `sub` does not occur in `s` when no possible start position holds its first character. */
  lemma FirstCharAbsent(s: string, sub: string)
    requires sub != []
    requires forall i | 0 <= i <= |s| - |sub| :: s[i] != sub[0]
    ensures !Contains(s, sub)
  {
    forall i | 0 <= i <= |s| - |sub|
      ensures !OccursAt(s, sub, i)
    {
      assert s[i..i + |sub|][0] == s[i];
    }
  }

  /** `s.startswith(p)` */
  predicate StartsWith(s: string, p: string)
  {
    |p| <= |s| && s[..|p|] == p
  }

  /** `s.endswith(p)` */
  predicate EndsWith(s: string, p: string)
  {
    |p| <= |s| && s[|s| - |p|..] == p
  }

  /** True when some element of `words` occurs in `s` (Python `any(w in s for w in words)`). */
  predicate ContainsAny(s: string, words: seq<string>)
  {
    exists k | 0 <= k < |words| :: Contains(s, words[k])
  }

  // ---------------------------------------------------------------- regex search

  /** The ASCII part of the regex class `\w`. */
  predicate IsWordChar(c: char) { IsLetter(c) || IsDigit(c) || c == '_' }

  /** Position `i` of `t` is a word start for `\b`: at the beginning or after a non-word character. */
  predicate WordStart(t: string, i: int)
    requires 0 <= i <= |t|
  {
    i == 0 || !IsWordChar(t[i - 1])
  }

  /** `t[i..]` begins with `kw`, ignoring case (`re.I`); `kw` is given in lower case. */
  predicate PrefixAt(t: string, i: int, kw: string)
    requires 0 <= i <= |t|
  {
    i + |kw| <= |t| && Lower(t[i..i + |kw|]) == kw
  }

  /** The regex `\b(kw1|kw2|...)\w*` matches starting at position `i`. */
  predicate KeywordAt(t: string, i: int, kws: seq<string>)
    requires 0 <= i <= |t|
  {
    WordStart(t, i) && exists k | 0 <= k < |kws| :: PrefixAt(t, i, kws[k])
  }

  /** `re.search`, restricted to positions `i` and later: tries every start position in turn. */
  function SearchFrom(t: string, i: nat, kws: seq<string>): (found: bool)
    requires i <= |t|
    ensures found <==> exists j :: i <= j <= |t| && KeywordAt(t, j, kws)
    decreases |t| - i
  {
    if KeywordAt(t, i, kws) then true
    else if i == |t| then false
    else SearchFrom(t, i + 1, kws)
  }
}
