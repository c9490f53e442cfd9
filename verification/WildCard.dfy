/** Str::wildCardMatch, the backtracking glob matcher. */
module WildCard {

  /** One pattern character and the piece of the string it stands for. */
  predicate Fits(c: char, piece: string) {
    c == '*' || (|piece| == 1 && (c == '?' || piece[0] == c))
  }

  function Concat(pieces: seq<string>): string {
    if pieces == [] then "" else pieces[0] + Concat(pieces[1..])
  }

  ghost predicate Splits(str: string, pattern: string, pieces: seq<string>) {
    && |pieces| == |pattern| && Concat(pieces) == str
    && forall i :: 0 <= i < |pattern| ==> Fits(pattern[i], pieces[i])
  }

  /** The string splits into pieces, one for each character of the pattern, that fit: any string for '*',
      one character for '?', and the character itself for any other. */
  ghost predicate Matches(str: string, pattern: string) {
    exists pieces :: Splits(str, pattern, pieces)
  }

  lemma EmptyPattern(str: string)
    ensures Matches(str, "") <==> str == ""
  {
    if str == "" { assert Splits("", "", []); }
  }

  lemma SplitsTail(str: string, pattern: string, pieces: seq<string>)
    requires Splits(str, pattern, pieces) && pattern != ""
    ensures pieces[0] <= str && Fits(pattern[0], pieces[0])
    ensures Splits(str[|pieces[0]|..], pattern[1..], pieces[1..])
  {
    assert str == pieces[0] + Concat(pieces[1..]);
  }

  lemma SplitsCons(piece: string, str: string, pattern: string, pieces: seq<string>)
    requires pattern != "" && Fits(pattern[0], piece) && Splits(str, pattern[1..], pieces)
    ensures Matches(piece + str, pattern)
  {
    var all := [piece] + pieces;
    assert all[1..] == pieces;
    forall i | 0 <= i < |pattern| ensures Fits(pattern[i], all[i]) {
      if i > 0 { assert Fits(pattern[1..][i - 1], pieces[i - 1]); }
    }
    assert Splits(piece + str, pattern, all);
  }

  lemma OneCharacter(str: string, pattern: string)
    requires pattern != "" && pattern[0] != '*'
    ensures Matches(str, pattern) <==>
            str != "" && (pattern[0] == '?' || str[0] == pattern[0]) && Matches(str[1..], pattern[1..])
  {
    if Matches(str, pattern) {
      var pieces :| Splits(str, pattern, pieces);
      SplitsTail(str, pattern, pieces);
    }
    if str != "" && (pattern[0] == '?' || str[0] == pattern[0]) && Matches(str[1..], pattern[1..]) {
      var pieces :| Splits(str[1..], pattern[1..], pieces);
      SplitsCons([str[0]], str[1..], pattern, pieces);
      assert str == [str[0]] + str[1..];
    }
  }

  lemma Star(str: string, pattern: string)
    requires pattern != "" && pattern[0] == '*'
    ensures Matches(str, pattern) <==> Matches(str, pattern[1..]) || (str != "" && Matches(str[1..], pattern))
  {
    if Matches(str, pattern) {
      StarSplits(str, pattern);
    }
    if Matches(str, pattern[1..]) {
      var pieces :| Splits(str, pattern[1..], pieces);
      SplitsCons("", str, pattern, pieces);
      assert "" + str == str;
    }
    if str != "" && Matches(str[1..], pattern) {
      StarGrows(str, pattern);
    }
  }

  /** A star's piece is empty or starts with the first character. */
  lemma StarSplits(str: string, pattern: string)
    requires pattern != "" && pattern[0] == '*' && Matches(str, pattern)
    ensures Matches(str, pattern[1..]) || (str != "" && Matches(str[1..], pattern))
  {
    var pieces :| Splits(str, pattern, pieces);
    SplitsTail(str, pattern, pieces);
    var first := pieces[0];
    if first == "" {
      assert str[0..] == str;
    } else {
      assert first[1..] + str[|first|..] == str[1..];
      SplitsCons(first[1..], str[|first|..], pattern, pieces[1..]);
    }
  }

  /** A star's piece can take one more character. */
  lemma StarGrows(str: string, pattern: string)
    requires pattern != "" && pattern[0] == '*' && str != "" && Matches(str[1..], pattern)
    ensures Matches(str, pattern)
  {
    var pieces :| Splits(str[1..], pattern, pieces);
    SplitsTail(str[1..], pattern, pieces);
    var rest := str[1..][|pieces[0]|..];
    SplitsCons([str[0]] + pieces[0], rest, pattern, pieces[1..]);
    assert str == [str[0]] + pieces[0] + rest;
  }

  /** Terminates, and answers exactly whether the string matches. */
  method WildCardMatch(str: string, pattern: string) returns (matches: bool)
    ensures matches <==> Matches(str, pattern)
    decreases |str| + |pattern|
  {
    var s, p := str, pattern;
    while p != ""
      invariant Matches(str, pattern) <==> Matches(s, p)
      invariant |s| + |p| <= |str| + |pattern|
      decreases |p|
    {
      if p[0] == '?' {
        OneCharacter(s, p);
        if s == "" { return false; }
        s, p := s[1..], p[1..];
      } else if p[0] == '*' {
        Star(s, p);
        var here := WildCardMatch(s, p[1..]);
        if here { return true; }
        if s != "" {
          var later := WildCardMatch(s[1..], p);
          if later { return true; }
        }
        return false;
      } else {
        OneCharacter(s, p);
        if s == "" || s[0] != p[0] { return false; }
        s, p := s[1..], p[1..];
      }
    }
    EmptyPattern(s);
    return s == "";
  }
}
