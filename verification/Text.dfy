/** The string operations the sources use, on strings of single-byte characters. */
module Text {

  predicate IsSpace(c: char) { c == ' ' || '\t' <= c <= '\r' }

  function TrimLeft(s: string): (r: string)
    ensures |r| <= |s|
  {
    if s != "" && IsSpace(s[0]) then TrimLeft(s[1..]) else s
  }

  function TrimRight(s: string): (r: string)
    ensures |r| <= |s|
  {
    if s != "" && IsSpace(s[|s| - 1]) then TrimRight(s[..|s| - 1]) else s
  }

  /** Removes leading and trailing white space. */
  function Trim(s: string): (r: string)
    ensures |r| <= |s|
  {
    TrimRight(TrimLeft(s))
  }

  /** No white space at either end. */
  predicate Trimmed(s: string) { s != "" ==> !IsSpace(s[0]) && !IsSpace(s[|s| - 1]) }

  lemma {:induction false} TrimRightKeepsHead(s: string)
    requires s != "" && !IsSpace(s[0])
    ensures TrimRight(s) != "" && TrimRight(s)[0] == s[0]
  {
    if IsSpace(s[|s| - 1]) {
      TrimRightKeepsHead(s[..|s| - 1]);
    }
  }

  lemma {:induction false} TrimLeftHead(s: string)
    ensures TrimLeft(s) != "" ==> !IsSpace(TrimLeft(s)[0])
  {
    if s != "" && IsSpace(s[0]) {
      TrimLeftHead(s[1..]);
    }
  }

  lemma {:induction false} TrimRightLast(s: string)
    ensures TrimRight(s) != "" ==> !IsSpace(TrimRight(s)[|TrimRight(s)| - 1])
  {
    if s != "" && IsSpace(s[|s| - 1]) {
      TrimRightLast(s[..|s| - 1]);
    }
  }

  /** A trimmed string has no white space at its ends, and trimming it again changes nothing. */
  lemma TrimTrims(s: string)
    ensures Trimmed(Trim(s)) && Trim(Trim(s)) == Trim(s)
  {
    TrimLeftHead(s);
    TrimRightLast(TrimLeft(s));
    if TrimLeft(s) != "" {
      TrimRightKeepsHead(TrimLeft(s));
    }
  }

  lemma TrimmedIsFixed(s: string)
    requires Trimmed(s)
    ensures Trim(s) == s
  {
  }

  predicate Blank(s: string) { forall i :: 0 <= i < |s| ==> IsSpace(s[i]) }

  lemma {:induction false} TrimLeftCuts(s: string) returns (pre: string)
    ensures Blank(pre) && s == pre + TrimLeft(s)
  {
    pre := "";
    if s != "" && IsSpace(s[0]) {
      pre := TrimLeftCuts(s[1..]);
      pre := [s[0]] + pre;
    }
  }

  lemma {:induction false} TrimRightCuts(s: string) returns (post: string)
    ensures Blank(post) && s == TrimRight(s) + post
  {
    post := "";
    if s != "" && IsSpace(s[|s| - 1]) {
      post := TrimRightCuts(s[..|s| - 1]);
      post := post + [s[|s| - 1]];
    }
  }

  /** Trimming takes nothing away but white space at the ends. */
  lemma TrimCuts(s: string) returns (pre: string, post: string)
    ensures Blank(pre) && Blank(post) && s == pre + Trim(s) + post
  {
    pre := TrimLeftCuts(s);
    post := TrimRightCuts(TrimLeft(s));
  }

  function LowerChar(c: char): char { if 'A' <= c <= 'Z' then c - 'A' + 'a' else c }

  function Lower(s: string): (r: string)
    ensures |r| == |s| && forall i :: 0 <= i < |s| ==> r[i] == LowerChar(s[i])
  {
    if s == "" then "" else [LowerChar(s[0])] + Lower(s[1..])
  }

  /** Capital letters become the small ones at the same place, and everything else stays. */
  lemma LowerLetters(i: nat, c: char)
    requires i < 26
    ensures LowerChar('A' + i as char) == 'a' + i as char
    ensures !('A' <= c <= 'Z') ==> LowerChar(c) == c
  {
  }

  lemma LowerIsFixed(s: string)
    requires forall i :: 0 <= i < |s| ==> LowerChar(s[i]) == s[i]
    ensures Lower(s) == s
  {
  }

  lemma LowerTwice(s: string)
    ensures Lower(Lower(s)) == Lower(s)
  {
  }

  /** A comparison key: trimmed and lowercased. */
  function Norm(s: string): string { Lower(Trim(s)) }

  lemma LowerSpace(c: char)
    ensures IsSpace(LowerChar(c)) <==> IsSpace(c)
  {
  }

  lemma TrimmedLower(s: string)
    requires Trimmed(s)
    ensures Trimmed(Lower(s))
  {
    if s != "" {
      LowerSpace(s[0]);
      LowerSpace(s[|s| - 1]);
    }
  }

  lemma NormTwice(s: string)
    ensures Norm(Norm(s)) == Norm(s)
  {
    TrimTrims(s);
    LowerTwice(Trim(s));
    TrimmedLower(Trim(s));
    TrimmedIsFixed(Lower(Trim(s)));
  }
}
