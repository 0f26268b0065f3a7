/** Quotations compared word by word, and texts cut to a length (internal/aiworker/server.go). */
module Quotation {
  import opened Text

  /** Trimmed, cut to a length, and trimmed again where the cut left white space. */
  function Cut(s: string, n: nat): string {
    var t := Trim(s);
    if |t| > n then Trim(t[..n]) else t
  }

  lemma CutTwice(s: string, n: nat)
    ensures Trimmed(Cut(s, n)) && |Cut(s, n)| <= n && Cut(Cut(s, n), n) == Cut(s, n)
  {
    TrimTrims(s);
    if |Trim(s)| > n {
      TrimTrims(Trim(s)[..n]);
    }
  }

  /** Cutting keeps the beginning of the trimmed text: all of it if it fits, and otherwise its first n characters up to
      white space before the cut. */
  lemma CutKeepsBeginning(s: string, n: nat)
    ensures |Trim(s)| <= n ==> Cut(s, n) == Trim(s)
    ensures |Trim(s)| > n > 0 ==>
              && Cut(s, n) <= Trim(s)[..n]
              && forall i :: |Cut(s, n)| <= i < n ==> IsSpace(Trim(s)[i])
  {
    var t := Trim(s);
    TrimTrims(s);
    if |t| > n > 0 {
      var head := t[..n];
      assert TrimLeft(head) == head;
      var post := TrimRightCuts(head);
      assert head == Cut(s, n) + post;
      forall i | |Cut(s, n)| <= i < n ensures IsSpace(t[i]) {
        assert t[i] == head[i] == post[i - |Cut(s, n)|];
      }
    }
  }

  lemma TrimKeepsHead(s: string)
    requires s != "" && !IsSpace(s[0])
    ensures Trim(s) != ""
  {
    TrimRightKeepsHead(s);
  }

  lemma CutKeepsSomething(s: string, n: nat)
    requires n > 0 && Trim(s) != ""
    ensures Cut(s, n) != ""
  {
    TrimTrims(s);
    if |Trim(s)| > n {
      TrimKeepsHead(Trim(s)[..n]);
    }
  }

  // ---------------------------------------------------------------- words

  /** The length of the leading run without white space. */
  function WordEnd(s: string): (n: nat)
    ensures n <= |s| && (s != "" && !IsSpace(s[0]) ==> n > 0)
  {
    if s == "" || IsSpace(s[0]) then 0 else 1 + WordEnd(s[1..])
  }

  function Words(s: string): seq<string>
    decreases |s|
  {
    if s == "" then []
    else if IsSpace(s[0]) then Words(s[1..])
    else [s[..WordEnd(s)]] + Words(s[WordEnd(s)..])
  }

  function Join(words: seq<string>): string {
    if words == [] then "" else if |words| == 1 then words[0] else words[0] + " " + Join(words[1..])
  }

  /** Lowercased, with every stretch of white space reduced to one blank. */
  function Squeeze(s: string): string { Join(Words(Lower(s))) }

  lemma {:induction false} WordEndBeforeSpace(s: string, c: char)
    requires IsSpace(c)
    ensures WordEnd(s + [c]) == WordEnd(s)
  {
    if s != "" && !IsSpace(s[0]) {
      assert (s + [c])[1..] == s[1..] + [c];
      WordEndBeforeSpace(s[1..], c);
    }
  }

  lemma {:induction false} WordsBeforeSpace(s: string, c: char)
    requires IsSpace(c)
    ensures Words(s + [c]) == Words(s)
    decreases |s|
  {
    var t := s + [c];
    if s == "" {
      assert t[1..] == "";
    } else if IsSpace(s[0]) {
      assert t[1..] == s[1..] + [c];
      WordsBeforeSpace(s[1..], c);
    } else {
      var n := WordEnd(s);
      WordEndBeforeSpace(s, c);
      assert t[..n] == s[..n] && t[n..] == s[n..] + [c];
      WordsBeforeSpace(s[n..], c);
    }
  }

  lemma LowerTail(s: string)
    requires s != ""
    ensures Lower(s)[1..] == Lower(s[1..])
  {
  }

  lemma {:induction false} SqueezeLeft(s: string)
    ensures Words(Lower(TrimLeft(s))) == Words(Lower(s))
  {
    if s != "" && IsSpace(s[0]) {
      LowerTail(s);
      LowerSpace(s[0]);
      SqueezeLeft(s[1..]);
    }
  }

  lemma {:induction false} LowerAppend(s: string, c: char)
    ensures Lower(s + [c]) == Lower(s) + [LowerChar(c)]
  {
    if s == "" {
      assert s + [c] == [c];
    } else {
      assert (s + [c])[1..] == s[1..] + [c];
      LowerAppend(s[1..], c);
    }
  }

  lemma LastSpaceIsNoWord(s: string, c: char)
    requires IsSpace(c)
    ensures Words(Lower(s + [c])) == Words(Lower(s))
  {
    LowerAppend(s, c);
    LowerSpace(c);
    WordsBeforeSpace(Lower(s), LowerChar(c));
  }

  lemma {:induction false} SqueezeRight(s: string)
    ensures Words(Lower(TrimRight(s))) == Words(Lower(s))
  {
    if s != "" && IsSpace(s[|s| - 1]) {
      assert s == s[..|s| - 1] + [s[|s| - 1]];
      LastSpaceIsNoWord(s[..|s| - 1], s[|s| - 1]);
      SqueezeRight(s[..|s| - 1]);
    }
  }

  /** White space at the ends makes no difference. */
  lemma SqueezeTrim(s: string)
    ensures Squeeze(Trim(s)) == Squeeze(s)
  {
    SqueezeLeft(s);
    SqueezeRight(TrimLeft(s));
  }

  // ---------------------------------------------------------------- what squeezing is

  predicate Solid(s: string) { forall i :: 0 <= i < |s| ==> !IsSpace(s[i]) }

  lemma {:induction false} WordsAroundSpace(a: string, c: char, b: string)
    requires IsSpace(c)
    ensures Words(a + [c] + b) == Words(a) + Words(b)
    decreases |a|
  {
    var t := a + [c] + b;
    if a == "" {
      assert t[1..] == b;
    } else if IsSpace(a[0]) {
      assert t[1..] == a[1..] + [c] + b;
      WordsAroundSpace(a[1..], c, b);
    } else {
      var n := WordEnd(a);
      WordEndAround(a, c, b);
      assert t[..n] == a[..n] && t[n..] == a[n..] + [c] + b;
      WordsAroundSpace(a[n..], c, b);
    }
  }

  lemma {:induction false} WordEndAround(a: string, c: char, b: string)
    requires IsSpace(c)
    ensures WordEnd(a + [c] + b) == WordEnd(a)
  {
    var t := a + [c] + b;
    if a != "" && !IsSpace(a[0]) {
      assert t[0] == a[0] && t[1..] == a[1..] + [c] + b;
      WordEndAround(a[1..], c, b);
    } else if a == "" {
      assert t[0] == c;
    } else {
      assert t[0] == a[0];
    }
  }

  lemma {:induction false} JoinConcat(x: seq<string>, y: seq<string>)
    requires x != [] && y != []
    ensures Join(x + y) == Join(x) + " " + Join(y)
  {
    assert (x + y)[1..] == x[1..] + y;
    if |x| > 1 {
      JoinConcat(x[1..], y);
    } else {
      assert x[1..] + y == y;
    }
  }

  lemma {:induction false} BlankHasNoWords(s: string)
    ensures Words(s) == [] <==> Blank(s)
    decreases |s|
  {
    if s != "" && IsSpace(s[0]) {
      BlankHasNoWords(s[1..]);
      assert forall i :: 0 < i < |s| ==> s[i] == s[1..][i - 1];
    }
  }

  lemma {:induction false} SolidIsOneWord(s: string)
    requires s != "" && Solid(s)
    ensures WordEnd(s) == |s|
  {
    if |s| > 1 {
      SolidIsOneWord(s[1..]);
    }
  }

  lemma {:induction false} LowerConcat(a: string, b: string)
    ensures Lower(a + b) == Lower(a) + Lower(b)
  {
    if a == "" {
      assert a + b == b;
    } else {
      assert (a + b)[1..] == a[1..] + b;
      LowerConcat(a[1..], b);
    }
  }

  lemma LowerSpaces(s: string)
    ensures (Blank(Lower(s)) <==> Blank(s)) && (Solid(Lower(s)) <==> Solid(s))
  {
    forall c: char ensures IsSpace(LowerChar(c)) <==> IsSpace(c) {
      LowerSpace(c);
    }
  }

  /** White space between two texts becomes one blank, unless one of them is blank and drops out. */
  predicate SplitLaw(f: string -> string, a: string, c: char, b: string) {
    IsSpace(c) ==>
      f(a + [c] + b) == if Blank(a) then f(b) else if Blank(b) then f(a) else f(a) + " " + f(b)
  }

  /** A text without white space is lowercased. */
  predicate WordLaw(f: string -> string, w: string) { Solid(w) ==> f(w) == Lower(w) }

  lemma SqueezeWord(w: string)
    requires Solid(w)
    ensures Squeeze(w) == Lower(w)
  {
    var l := Lower(w);
    LowerSpaces(w);
    if w != "" {
      SolidIsOneWord(l);
      assert l[..|l|] == l && l[|l|..] == "";
      assert Words(l) == [l];
    }
  }

  lemma LowerAround(a: string, c: char, b: string)
    ensures Lower(a + [c] + b) == Lower(a) + [LowerChar(c)] + Lower(b)
  {
    LowerConcat(a + [c], b);
    LowerAppend(a, c);
  }

  lemma WordsOfSplit(a: string, c: char, b: string)
    requires IsSpace(c)
    ensures Words(Lower(a + [c] + b)) == Words(Lower(a)) + Words(Lower(b))
  {
    LowerSpace(c);
    LowerAround(a, c, b);
    WordsAroundSpace(Lower(a), LowerChar(c), Lower(b));
  }

  lemma NoWordsIff(s: string)
    ensures Words(Lower(s)) == [] <==> Blank(s)
  {
    LowerSpaces(s);
    BlankHasNoWords(Lower(s));
  }

  lemma JoinSplit(x: seq<string>, y: seq<string>)
    ensures Join(x + y) == if x == [] then Join(y) else if y == [] then Join(x) else Join(x) + " " + Join(y)
  {
    if x == [] {
      assert x + y == y;
    } else if y == [] {
      assert x + y == x;
    } else {
      JoinConcat(x, y);
    }
  }

  lemma SqueezeSplit(a: string, c: char, b: string)
    requires IsSpace(c)
    ensures Squeeze(a + [c] + b)
         == if Blank(a) then Squeeze(b) else if Blank(b) then Squeeze(a) else Squeeze(a) + " " + Squeeze(b)
  {
    WordsOfSplit(a, c, b);
    JoinSplit(Words(Lower(a)), Words(Lower(b)));
    NoWordsIff(a);
    NoWordsIff(b);
  }

  /** Lowercasing of texts without white space, with the law of splitting. */
  ghost predicate Squeezes(f: string -> string) {
    (forall w :: WordLaw(f, w)) && (forall a, c, b :: SplitLaw(f, a, c, b))
  }

  /** Squeezing obeys both laws, and nothing else does: it is lowercasing with each stretch of inner white space made
      one blank and outer white space dropped. */
  lemma SqueezeIsDetermined(f: string -> string)
    ensures Squeezes(f) <==> forall s :: SameAt(f, s)
  {
    if Squeezes(f) {
      forall s ensures SameAt(f, s) {
        LawsDetermine(f, s);
      }
    }
    if forall s :: SameAt(f, s) {
      forall w ensures WordLaw(f, w) {
        LawsHold(f, w, "", ' ', "");
      }
      forall a, c, b ensures SplitLaw(f, a, c, b) {
        LawsHold(f, "", a, c, b);
      }
    }
  }

  predicate SameAt(f: string -> string, s: string) { f(s) == Squeeze(s) }

  lemma LawsHold(f: string -> string, w: string, a: string, c: char, b: string)
    requires forall s :: SameAt(f, s)
    ensures WordLaw(f, w) && SplitLaw(f, a, c, b)
  {
    assert SameAt(f, w) && SameAt(f, a) && SameAt(f, b) && SameAt(f, a + [c] + b);
    if Solid(w) {
      SqueezeWord(w);
    }
    if IsSpace(c) {
      SqueezeSplit(a, c, b);
    }
  }

  lemma {:induction false} LawsDetermine(f: string -> string, s: string)
    requires Squeezes(f)
    ensures SameAt(f, s)
    decreases |s|
  {
    if Solid(s) {
      assert WordLaw(f, s);
      SqueezeWord(s);
    } else {
      var i :| 0 <= i < |s| && IsSpace(s[i]);
      var a, b := s[..i], s[i + 1..];
      assert s == a + [s[i]] + b;
      assert SplitLaw(f, a, s[i], b);
      LawsDetermine(f, a);
      LawsDetermine(f, b);
      SqueezeSplit(a, s[i], b);
    }
  }

  // ---------------------------------------------------------------- quotes

  predicate PartAt(text: string, part: string, i: int) { 0 <= i <= |text| - |part| && text[i..i + |part|] == part }

  predicate Contains(text: string, part: string) { exists i: nat :: i <= |text| && PartAt(text, part, i) }

  function Matches(evidence: string, quote: string): bool {
    var e, q := Trim(evidence), Trim(quote);
    e != "" && q != "" && |Squeeze(q)| >= 8 && Contains(Squeeze(e), Squeeze(q))
  }

  /** At least eight bytes of the text, up to case and white space. */
  predicate Quotes(text: string, quote: string) { |Squeeze(quote)| >= 8 && Contains(Squeeze(text), Squeeze(quote)) }

  /** The worker's test accepts exactly the quotations: a match of eight bytes leaves neither side blank. */
  lemma MatchesIff(evidence: string, quote: string)
    ensures Matches(evidence, quote) <==> Quotes(evidence, quote)
  {
    SqueezeTrim(evidence);
    SqueezeTrim(quote);
    BlankSqueezes();
  }

  predicate Around(text: string, a: string, part: string, b: string) { text == a + part + b }

  /** A quotation appears, squeezed, somewhere in the squeezed text. */
  lemma QuotesIff(text: string, quote: string)
    ensures Quotes(text, quote) <==>
            |Squeeze(quote)| >= 8 && exists a: string, b: string :: Around(Squeeze(text), a, Squeeze(quote), b)
  {
    var t, q := Squeeze(text), Squeeze(quote);
    if i: nat :| i <= |t| && PartAt(t, q, i) {
      assert Around(t, t[..i], q, t[i + |q|..]);
    }
    if a, b :| Around(t, a, q, b) {
      assert PartAt(t, q, |a|);
    }
  }

  lemma BlankSqueezes()
    ensures Squeeze("") == ""
  {
  }
}

/** Sanitising the claims of a verification answer (internal/aiworker/server.go). */
module Claims {
  import opened Base
  import opened Text
  import opened Quotation
  import opened Filtering

  datatype Citation = Citation(sourceId: string, quote: string)
  datatype Claim = Claim(id: string, text: string, classification: string, verdict: string, confidence: real,
                         reason: string,
                         citations: seq<Citation>)

  /** The known sources and the texts that were provided for them. */
  datatype Sources = Sources(ids: set<string>, texts: map<string, string>)

  function TextOf(src: Sources, id: string): string { if id in src.texts then src.texts[id] else "" }

  // ---------------------------------------------------------------- citations

  function OneCitation(src: Sources, c: Citation): Option<Citation> {
    var id, q := Trim(c.sourceId), Trim(c.quote);
    if id == "" || q == "" || id !in src.ids then None
    else
      var text := Trim(TextOf(src, id));
      var quote := Cut(c.quote, 200);
      if text == "" || !Matches(text, quote) then None else Some(Citation(id, quote))
  }

  /** A citation of a known source that quotes its text. */
  predicate Backed(src: Sources, c: Citation) {
    c.sourceId in src.ids && |c.quote| <= 200 && Quotes(TextOf(src, c.sourceId), c.quote)
  }

  lemma OneCitationIsBacked(src: Sources, c: Citation)
    requires OneCitation(src, c).Some?
    ensures Backed(src, OneCitation(src, c).value)
  {
    var r := OneCitation(src, c).value;
    CutTwice(c.quote, 200);
    MatchesIff(Trim(TextOf(src, r.sourceId)), r.quote);
    SqueezeTrim(TextOf(src, r.sourceId));
  }

  /** A citation is accepted exactly when it names a known source and its first 200 bytes quote that source's text. */
  lemma AcceptedIff(src: Sources, c: Citation)
    ensures OneCitation(src, c).Some? <==>
            Trim(c.sourceId) != "" && Trim(c.sourceId) in src.ids
              && Quotes(TextOf(src, Trim(c.sourceId)), Cut(c.quote, 200))
  {
    var text, quote := TextOf(src, Trim(c.sourceId)), Cut(c.quote, 200);
    SqueezeTrim(text);
    MatchesIff(Trim(text), quote);
    BlankSqueezes();
    assert Trim(c.quote) == "" ==> quote == "";
  }

  lemma OneCitationTwice(src: Sources, c: Citation)
    requires OneCitation(src, c).Some?
    ensures OneCitation(src, OneCitation(src, c).value) == OneCitation(src, c)
  {
    var r := OneCitation(src, c).value;
    TrimTrims(c.sourceId);
    CutTwice(c.quote, 200);
    CutKeepsSomething(c.quote, 200);
    TrimmedIsFixed(r.quote);
  }

  function CitationFilter(src: Sources): Citation -> Option<Citation> { (c: Citation) => OneCitation(src, c) }

  const MAX_CITATIONS: nat := 3

  function Citations(src: Sources, cs: seq<Citation>): seq<Citation> {
    First(Kept(CitationFilter(src), cs), MAX_CITATIONS)
  }

  method SanitizeCitations(src: Sources, cs: seq<Citation>) returns (out: seq<Citation>)
    ensures out == Citations(src, cs)
  {
    out := KeepFirst(CitationFilter(src), cs, MAX_CITATIONS);
  }

  lemma CitationsBacked(src: Sources, cs: seq<Citation>)
    ensures |Citations(src, cs)| <= MAX_CITATIONS
    ensures forall i :: 0 <= i < |Citations(src, cs)| ==> Backed(src, Citations(src, cs)[i])
  {
    var ok := (c: Citation) => Backed(src, c);
    forall c: Citation ensures Yields(CitationFilter(src), ok, c) {
      if OneCitation(src, c).Some? {
        OneCitationIsBacked(src, c);
      }
    }
    FirstKeptOk(CitationFilter(src), ok, cs, MAX_CITATIONS);
  }

  lemma CitationsTwice(src: Sources, cs: seq<Citation>)
    ensures Citations(src, Citations(src, cs)) == Citations(src, cs)
  {
    var same := (c: Citation) => c;
    forall c: Citation ensures Again(CitationFilter(src), same, c) {
      if OneCitation(src, c).Some? {
        OneCitationTwice(src, c);
      }
    }
    FirstKeptTwice(CitationFilter(src), same, cs, MAX_CITATIONS);
  }

  /** The first three accepted citations remain, every one backed by its source, and sanitising them again changes
      nothing. */
  lemma CitationsAreBacked(src: Sources, cs: seq<Citation>)
    ensures var kept := Kept(CitationFilter(src), cs); Citations(src, cs) == if |kept| > 3 then kept[..3] else kept
    ensures forall i :: 0 <= i < |Citations(src, cs)| ==> Backed(src, Citations(src, cs)[i])
    ensures Citations(src, Citations(src, cs)) == Citations(src, cs)
  {
    CitationsBacked(src, cs);
    CitationsTwice(src, cs);
  }

  // ---------------------------------------------------------------- one claim

  function OneOf(raw: string, options: set<string>, otherwise: string): string {
    var s := Norm(raw);
    if s in options then s else otherwise
  }

  lemma OneOfTwice(raw: string, options: set<string>, otherwise: string)
    requires otherwise in options && Norm(otherwise) == otherwise
    ensures OneOf(OneOf(raw, options, otherwise), options, otherwise) == OneOf(raw, options, otherwise)
  {
    NormTwice(raw);
  }

  const CLASSES: set<string> := {"checkable", "opinion", "unclear"}
  const VERDICTS: set<string> := {"supported", "refuted", "inconclusive"}

  function Clamp(x: real): real { if x < 0.0 then 0.0 else if x > 1.0 then 1.0 else x }

  /** A verdict that needs citations. */
  predicate Decided(verdict: string) { verdict == "supported" || verdict == "refuted" }

  const NOTE: string := " (missing citations)"

  /** How each field is sanitised on its own. */
  datatype Polish = Polish(id: string -> string, text: string -> string, classification: string -> string,
                           verdict: string -> string, reason: string -> string,
                           citations: seq<Citation> -> seq<Citation>)

  function PolishFor(src: Sources): Polish {
    Polish((s: string) => Trim(s), (s: string) => Cut(s, 240), (s: string) => OneOf(s, CLASSES, "unclear"),
           (s: string) => OneOf(s, VERDICTS, "inconclusive"), (s: string) => Cut(s, 240),
           (cs: seq<Citation>) => Citations(src, cs))
  }

  function Polished(p: Polish, c: Claim): Claim {
    Claim(p.id(c.id), p.text(c.text), p.classification(c.classification), p.verdict(c.verdict), Clamp(c.confidence),
          p.reason(c.reason), p.citations(c.citations))
  }

  /** A decided verdict without citations is withdrawn. */
  function Settled(c: Claim): Claim {
    if Decided(c.verdict) && c.citations == []
    then
      var reason := if c.reason == "" then "missing_citations" else c.reason + NOTE;
      c.(verdict := "inconclusive", reason := reason, confidence := 0.0)
    else c
  }

  function SanitizeClaim(src: Sources, c: Claim): Claim { Settled(Polished(PolishFor(src), c)) }

  /** The claim lost its verdict for want of citations. */
  predicate Downgraded(src: Sources, c: Claim) {
    Decided(OneOf(c.verdict, VERDICTS, "inconclusive")) && Citations(src, c.citations) == []
  }

  /** A claim fit to be stored: a decided one carries citations, and every citation is backed. */
  predicate ClaimOk(src: Sources, r: Claim) {
    && r.id != "" && r.text != "" && |r.text| <= 240
    && r.verdict in VERDICTS && r.classification in CLASSES && 0.0 <= r.confidence <= 1.0
    && (Decided(r.verdict) ==> 1 <= |r.citations| <= MAX_CITATIONS)
    && (forall i :: 0 <= i < |r.citations| ==> Backed(src, r.citations[i]))
  }

  /** What polishing establishes, before verdicts are weighed against citations. */
  predicate PolishedOk(src: Sources, p: Claim) {
    && |p.text| <= 240 && p.verdict in VERDICTS && p.classification in CLASSES && 0.0 <= p.confidence <= 1.0
    && |p.citations| <= MAX_CITATIONS && (forall i :: 0 <= i < |p.citations| ==> Backed(src, p.citations[i]))
  }

  lemma PolishingWorks(src: Sources, c: Claim)
    ensures PolishedOk(src, Polished(PolishFor(src), c))
  {
    CitationsBacked(src, c.citations);
    CutTwice(c.text, 240);
  }

  lemma SettlingWorks(src: Sources, p: Claim)
    requires PolishedOk(src, p) && p.id != "" && p.text != ""
    ensures ClaimOk(src, Settled(p))
  {
  }

  lemma SanitizedOk(src: Sources, c: Claim)
    ensures var r := SanitizeClaim(src, c); r.id != "" && r.text != "" ==> ClaimOk(src, r)
  {
    var p := Polished(PolishFor(src), c);
    PolishingWorks(src, c);
    if p.id != "" && p.text != "" {
      SettlingWorks(src, p);
    }
  }

  /** A decided verdict survives exactly when at least one of its citations is accepted. */
  lemma VerdictKeptIff(src: Sources, c: Claim)
    ensures Decided(SanitizeClaim(src, c).verdict) <==>
            && Decided(OneOf(c.verdict, VERDICTS, "inconclusive"))
            && exists i :: 0 <= i < |c.citations| && OneCitation(src, c.citations[i]).Some?
  {
    KeptNothingIff(CitationFilter(src), c.citations);
  }

  // ---------------------------------------------------------------- every field of a sanitised claim

  lemma ClassificationOutcome(src: Sources, c: Claim)
    ensures var k := Norm(c.classification);
            SanitizeClaim(src, c).classification == if k == "checkable" || k == "opinion" then k else "unclear"
  {
  }

  /** The verdict that is asked for: anything unknown is inconclusive. */
  function Asked(c: Claim): (v: string)
    ensures v == OneOf(c.verdict, VERDICTS, "inconclusive")
  {
    var k := Norm(c.verdict);
    if k == "supported" || k == "refuted" then k else "inconclusive"
  }

  /** No citation is accepted. */
  predicate Uncited(src: Sources, c: Claim) {
    forall i :: 0 <= i < |c.citations| ==> OneCitation(src, c.citations[i]).None?
  }

  /** What is withdrawn for want of citations. */
  lemma WithdrawnIff(src: Sources, c: Claim)
    ensures Downgraded(src, c) <==> Asked(c) != "inconclusive" && Uncited(src, c)
  {
    KeptNothingIff(CitationFilter(src), c.citations);
    assert Asked(c) == "inconclusive" <==> !Decided(Asked(c));
  }

  lemma VerdictOutcome(src: Sources, c: Claim)
    ensures SanitizeClaim(src, c).verdict == if Uncited(src, c) then "inconclusive" else Asked(c)
  {
    WithdrawnIff(src, c);
  }

  lemma ConfidenceOutcome(src: Sources, c: Claim)
    ensures var x := SanitizeClaim(src, c).confidence;
            if (Asked(c) != "inconclusive" && Uncited(src, c)) || c.confidence <= 0.0 then x == 0.0
            else x == if c.confidence >= 1.0 then 1.0 else c.confidence
  {
    WithdrawnIff(src, c);
  }

  lemma ReasonOutcome(src: Sources, c: Claim)
    ensures var reason := Cut(c.reason, 240);
            SanitizeClaim(src, c).reason ==
            if Asked(c) == "inconclusive" || !Uncited(src, c) then reason
            else if reason == "" then "missing_citations" else reason + " (missing citations)"
  {
    WithdrawnIff(src, c);
  }

  /** Texts are trimmed and cut, the accepted citations remain, and a verdict survives only with one of them; the other
      fields are as the lemmas above say. */
  lemma ClaimOutcome(src: Sources, c: Claim)
    ensures var r := SanitizeClaim(src, c);
            var verdict := if Uncited(src, c) then "inconclusive" else Asked(c);
            r == Claim(Trim(c.id), Cut(c.text, 240), r.classification, verdict, r.confidence, r.reason,
                       Citations(src, c.citations))
  {
    VerdictOutcome(src, c);
  }

  lemma LiteralChoices(s: string)
    requires s in VERDICTS || s in CLASSES
    ensures Norm(s) == s
  {
    TrimmedIsFixed(s);
    LowerIsFixed(s);
  }

  /** A citation that needs no repair. */
  predicate CleanCitation(src: Sources, c: Citation) {
    && Trimmed(c.sourceId) && c.sourceId != "" && c.sourceId in src.ids
    && Trimmed(c.quote) && |c.quote| <= 200 && Quotes(TextOf(src, c.sourceId), c.quote)
  }

  lemma CleanCitationIsKept(src: Sources, c: Citation)
    requires CleanCitation(src, c)
    ensures OneCitation(src, c) == Some(c)
  {
    TrimmedIsFixed(c.sourceId);
    TrimmedIsFixed(c.quote);
    AcceptedIff(src, c);
  }

  lemma CleanCitationsAreKept(src: Sources, cs: seq<Citation>)
    requires |cs| <= MAX_CITATIONS && forall i :: 0 <= i < |cs| ==> CleanCitation(src, cs[i])
    ensures Citations(src, cs) == cs
  {
    var f := CitationFilter(src);
    forall i | 0 <= i < |cs| ensures f(cs[i]) == Some(cs[i]) {
      CleanCitationIsKept(src, cs[i]);
    }
    KeptEach(f, cs);
  }

  /** A claim that needs no repair. */
  predicate CleanClaim(src: Sources, c: Claim) {
    && Trimmed(c.id) && Trimmed(c.text) && |c.text| <= 240 && Trimmed(c.reason) && |c.reason| <= 240
    && c.classification in CLASSES && c.verdict in VERDICTS && 0.0 <= c.confidence <= 1.0
    && |c.citations| <= MAX_CITATIONS && (forall i :: 0 <= i < |c.citations| ==> CleanCitation(src, c.citations[i]))
    && (Decided(c.verdict) ==> c.citations != [])
  }

  lemma CleanTextsArePolished(src: Sources, c: Claim)
    requires CleanClaim(src, c)
    ensures var p := PolishFor(src); p.id(c.id) == c.id && p.text(c.text) == c.text && p.reason(c.reason) == c.reason
  {
    TrimmedIsFixed(c.id);
    TrimmedIsFixed(c.text);
    TrimmedIsFixed(c.reason);
  }

  lemma CleanChoicesArePolished(src: Sources, c: Claim)
    requires CleanClaim(src, c)
    ensures var p := PolishFor(src);
            p.classification(c.classification) == c.classification && p.verdict(c.verdict) == c.verdict
  {
    LiteralChoices(c.classification);
    LiteralChoices(c.verdict);
  }

  /** Sanitising changes nothing about a claim that needs no repair. */
  lemma CleanClaimIsKept(src: Sources, c: Claim)
    requires CleanClaim(src, c)
    ensures SanitizeClaim(src, c) == c
  {
    CleanTextsArePolished(src, c);
    CleanChoicesArePolished(src, c);
    CleanCitationsAreKept(src, c.citations);
  }

  lemma LiteralVerdict()
    ensures Norm("inconclusive") == "inconclusive"
  {
    TrimmedIsFixed("inconclusive");
    LowerIsFixed("inconclusive");
  }

  lemma LiteralClass()
    ensures Norm("unclear") == "unclear"
  {
    TrimmedIsFixed("unclear");
    LowerIsFixed("unclear");
  }

  predicate Idem<T(==)>(f: T -> T, x: T) { f(f(x)) == f(x) }

  lemma PolishedTwice(p: Polish, c: Claim)
    requires Idem(p.id, c.id) && Idem(p.text, c.text) && Idem(p.classification, c.classification)
        && Idem(p.verdict, c.verdict)
    requires Idem(p.reason, c.reason) && Idem(p.citations, c.citations)
    ensures Polished(p, Polished(p, c)) == Polished(p, c)
  {
  }

  lemma SettledStays(p: Polish, c: Claim)
    requires Polished(p, c) == c && p.verdict("inconclusive") == "inconclusive"
    ensures Polished(p, Settled(c)) == Settled(c).(reason := p.reason(Settled(c).reason))
    ensures Settled(Polished(p, Settled(c))) == Polished(p, Settled(c))
  {
  }

  lemma TextsPolishedTwice(src: Sources, c: Claim)
    ensures var p := PolishFor(src); Idem(p.id, c.id) && Idem(p.text, c.text) && Idem(p.reason, c.reason)
  {
    TrimTrims(c.id);
    CutTwice(c.text, 240);
    CutTwice(c.reason, 240);
  }

  lemma ChoicesPolishedTwice(src: Sources, c: Claim)
    ensures var p := PolishFor(src); Idem(p.classification, c.classification) && Idem(p.verdict, c.verdict)
    ensures PolishFor(src).verdict("inconclusive") == "inconclusive"
  {
    LiteralVerdict();
    LiteralClass();
    OneOfTwice(c.classification, CLASSES, "unclear");
    OneOfTwice(c.verdict, VERDICTS, "inconclusive");
  }

  /** A second pass repeats every field but possibly the reason. */
  lemma SecondPassKeeps(src: Sources, c: Claim)
    ensures SanitizeClaim(src, SanitizeClaim(src, c)) == Shortened(SanitizeClaim(src, c))
  {
    TextsPolishedTwice(src, c);
    ChoicesPolishedTwice(src, c);
    CitationsAreBacked(src, c.citations);
    var p := PolishFor(src);
    PolishedTwice(p, c);
    SettledStays(p, Polished(p, c));
  }

  function Shortened(c: Claim): Claim { c.(reason := Cut(c.reason, 240)) }

  lemma NoteIsTrimmed(reason: string)
    requires Trimmed(reason) && reason != ""
    ensures Trimmed(reason + NOTE)
  {
  }

  lemma LiteralReason()
    ensures Cut("missing_citations", 240) == "missing_citations"
  {
    TrimmedIsFixed("missing_citations");
  }

  /** The reason survives a second pass exactly when the note about missing citations still fits into 240 bytes. */
  lemma SecondPassReasonIff(src: Sources, c: Claim)
    ensures SanitizeClaim(src, SanitizeClaim(src, c)) == SanitizeClaim(src, c)
       <==> !(Downgraded(src, c) && |Cut(c.reason, 240)| > 220)
  {
    var r, reason := SanitizeClaim(src, c), Cut(c.reason, 240);
    SecondPassKeeps(src, c);
    CutTwice(c.reason, 240);
    if Downgraded(src, c) {
      if reason == "" {
        LiteralReason();
      } else {
        NoteIsTrimmed(reason);
        TrimmedIsFixed(r.reason);
        assert |r.reason| == |reason| + 20;
        CutTwice(r.reason, 240);
      }
    }
  }

  lemma LiteralSupported()
    ensures OneOf("supported", VERDICTS, "inconclusive") == "supported"
  {
    TrimmedIsFixed("supported");
    LowerIsFixed("supported");
  }

  /** Such claims exist: supported without citations, for a trimmed reason of 221 to 240 bytes. */
  lemma LongReasonIsShortened(src: Sources, reason: string)
    requires Trimmed(reason) && 221 <= |reason| <= 240
    ensures var c := Claim("id", "text", "opinion", "supported", 1.0, reason, []);
            && SanitizeClaim(src, c).reason == reason + NOTE
            && |SanitizeClaim(src, SanitizeClaim(src, c)).reason| <= 240 < |reason + NOTE|
  {
    var c := Claim("id", "text", "opinion", "supported", 1.0, reason, []);
    LiteralSupported();
    TrimmedIsFixed(reason);
    assert Citations(src, []) == [];
    SecondPassKeeps(src, c);
    CutTwice(reason + NOTE, 240);
  }

  /** For instance a reason of 221 equal letters. */
  lemma ReasonOf221IsShortened(src: Sources)
    ensures var c := Claim("id", "text", "opinion", "supported", 1.0, seq(221, (_: int) => 'x'), []);
            SanitizeClaim(src, SanitizeClaim(src, c)).reason != SanitizeClaim(src, c).reason
  {
    LongReasonIsShortened(src, seq(221, (_: int) => 'x'));
  }

  // ---------------------------------------------------------------- all claims

  const MAX_CLAIMS: nat := 10

  function Sanitizer(src: Sources): Claim -> Claim { (c: Claim) => SanitizeClaim(src, c) }

  function Sanitized(src: Sources, cs: seq<Claim>): seq<Claim> {
    First(Kept(ClaimFilter(Sanitizer(src)), cs), MAX_CLAIMS)
  }

  method SanitizeClaims(src: Sources, cs: seq<Claim>) returns (out: seq<Claim>)
    ensures out == Sanitized(src, cs)
  {
    out := KeepFirst(ClaimFilter(Sanitizer(src)), cs, MAX_CLAIMS);
  }

  /** The first ten claims that keep an id and a text remain, and a decided one carries one to three citations, each a
      quotation of at least eight bytes from the source it names. */
  lemma SanitizedClaimsAreBacked(src: Sources, cs: seq<Claim>)
    ensures var kept := Kept(ClaimFilter(Sanitizer(src)), cs);
            Sanitized(src, cs) == if |kept| > 10 then kept[..10] else kept
    ensures forall i :: 0 <= i < |Sanitized(src, cs)| ==> ClaimOk(src, Sanitized(src, cs)[i])
  {
    var ok := (c: Claim) => ClaimOk(src, c);
    forall c: Claim ensures Makes(Sanitizer(src), ok, c) {
      SanitizedOk(src, c);
    }
    KeptClaimsOk(Sanitizer(src), ok, cs);
  }

  /** Sanitising the sanitised claims drops none and changes no id, text, classification, verdict, confidence or
      citation. */
  lemma SanitizeTwice(src: Sources, cs: seq<Claim>)
    ensures var one := Sanitized(src, cs); var two := Sanitized(src, one);
            |two| == |one| && forall i :: 0 <= i < |one| ==> two[i] == Shortened(one[i])
  {
    var h := (c: Claim) => Shortened(c);
    forall c: Claim ensures Steady(Sanitizer(src), h, c) {
      SecondPassKeeps(src, c);
    }
    KeptClaimsTwice(Sanitizer(src), h, cs);
  }

  // ---------------------------------------------------------------- lists of claims, for any way of sanitising one

  function ClaimFilter(g: Claim -> Claim): Claim -> Option<Claim> {
    (c: Claim) => if g(c).id == "" || g(c).text == "" then None else Some(g(c))
  }

  predicate Makes(g: Claim -> Claim, ok: Claim -> bool, c: Claim) { g(c).id != "" && g(c).text != "" ==> ok(g(c)) }

  lemma KeptClaimsOk(g: Claim -> Claim, ok: Claim -> bool, cs: seq<Claim>)
    requires forall c: Claim :: Makes(g, ok, c)
    ensures var one := First(Kept(ClaimFilter(g), cs), MAX_CLAIMS);
            |one| <= MAX_CLAIMS && forall i :: 0 <= i < |one| ==> ok(one[i])
  {
    forall c: Claim ensures Yields(ClaimFilter(g), ok, c) {
      assert Makes(g, ok, c);
    }
    FirstKeptOk(ClaimFilter(g), ok, cs, MAX_CLAIMS);
  }

  /** The second pass over a claim does no more than h, which keeps id and text. */
  predicate Steady(g: Claim -> Claim, h: Claim -> Claim, c: Claim) {
    g(g(c)) == h(g(c)) && h(g(c)).id == g(c).id && h(g(c)).text == g(c).text
  }

  lemma KeptClaimsTwice(g: Claim -> Claim, h: Claim -> Claim, cs: seq<Claim>)
    requires forall c: Claim :: Steady(g, h, c)
    ensures var one := First(Kept(ClaimFilter(g), cs), MAX_CLAIMS);
            var two := First(Kept(ClaimFilter(g), one), MAX_CLAIMS);
            |two| == |one| && forall i :: 0 <= i < |one| ==> two[i] == h(one[i])
  {
    forall c: Claim ensures Again(ClaimFilter(g), h, c) {
      assert Steady(g, h, c);
    }
    FirstKeptTwice(ClaimFilter(g), h, cs, MAX_CLAIMS);
  }
}

/** The values a partial function keeps from a sequence. */
module Filtering {
  import opened Base

  function Kept<A, B>(f: A -> Option<B>, s: seq<A>): (r: seq<B>)
    ensures |r| <= |s|
  {
    if s == [] then []
    else
      var rest := Kept(f, s[..|s| - 1]);
      match f(s[|s| - 1])
      case None => rest
      case Some(b) => rest + [b]
  }

  function First<T>(s: seq<T>, n: nat): seq<T> { if |s| > n then s[..n] else s }

  lemma KeptNext<A, B>(f: A -> Option<B>, s: seq<A>, i: nat)
    requires i < |s|
    ensures Kept(f, s[..i + 1]) == match f(s[i]) { case None => Kept(f, s[..i]) case Some(b) => Kept(f, s[..i]) + [b] }
  {
    assert s[..i + 1][..i] == s[..i];
  }

  lemma {:induction false} KeptPrefix<A, B>(f: A -> Option<B>, s: seq<A>, i: nat)
    requires i <= |s|
    ensures Kept(f, s[..i]) <= Kept(f, s)
  {
    if i == |s| {
      assert s[..i] == s;
    } else {
      var t := s[..|s| - 1];
      KeptPrefix(f, t, i);
      assert t[..i] == s[..i];
    }
  }

  /** Every value kept comes from an element. */
  lemma {:induction false} KeptFrom<A, B>(f: A -> Option<B>, s: seq<A>, i: nat) returns (j: nat)
    requires i < |Kept(f, s)|
    ensures j < |s| && f(s[j]) == Some(Kept(f, s)[i])
  {
    var t := s[..|s| - 1];
    if i < |Kept(f, t)| {
      j := KeptFrom(f, t, i);
    } else {
      j := |s| - 1;
    }
  }

  lemma {:induction false} KeptNothingIff<A, B>(f: A -> Option<B>, s: seq<A>)
    ensures Kept(f, s) == [] <==> forall i :: 0 <= i < |s| ==> f(s[i]).None?
  {
    if s != [] {
      KeptNothingIff(f, s[..|s| - 1]);
    }
  }

  /** Keeping works element by element, in order. */
  lemma {:induction false} KeptConcat<A, B>(f: A -> Option<B>, s: seq<A>, t: seq<A>)
    ensures Kept(f, s + t) == Kept(f, s) + Kept(f, t)
  {
    if t == [] {
      assert s + t == s;
    } else {
      var init := t[..|t| - 1];
      assert (s + t)[..|s + t| - 1] == s + init;
      KeptConcat(f, s, init);
    }
  }

  lemma KeptOne<A, B>(f: A -> Option<B>, x: A)
    ensures Kept(f, [x]) == if f(x).None? then [] else [f(x).value]
  {
    assert [x][..0] == [];
  }

  /** Nothing is lost where the function is defined throughout. */
  lemma {:induction false} KeptEach<A, B>(f: A -> Option<B>, s: seq<A>)
    requires forall i :: 0 <= i < |s| ==> f(s[i]).Some?
    ensures |Kept(f, s)| == |s| && forall i :: 0 <= i < |s| ==> Kept(f, s)[i] == f(s[i]).value
  {
    if s != [] {
      var t := s[..|s| - 1];
      KeptEach(f, t);
    }
  }

  /** What the function yields is in order. */
  predicate Yields<A, B>(f: A -> Option<B>, ok: B -> bool, x: A) { f(x).Some? ==> ok(f(x).value) }

  lemma FirstKeptOk<A(!new), B>(f: A -> Option<B>, ok: B -> bool, s: seq<A>, n: nat)
    requires forall x: A :: Yields(f, ok, x)
    ensures |First(Kept(f, s), n)| <= n
    ensures forall i :: 0 <= i < |First(Kept(f, s), n)| ==> ok(First(Kept(f, s), n)[i])
  {
    forall i | 0 <= i < |First(Kept(f, s), n)| ensures ok(First(Kept(f, s), n)[i]) {
      var j := KeptFrom(f, s, i);
      assert Yields(f, ok, s[j]);
    }
  }

  /** Applied to its own results the function keeps them, changed by h at most. */
  ghost predicate Again<A>(f: A -> Option<A>, h: A -> A, x: A) { f(x).Some? ==> f(f(x).value) == Some(h(f(x).value)) }

  lemma FirstKeptTwice<A(!new)>(f: A -> Option<A>, h: A -> A, s: seq<A>, n: nat)
    requires forall x: A :: Again(f, h, x)
    ensures var one := First(Kept(f, s), n); var two := First(Kept(f, one), n);
            |two| == |one| && forall i :: 0 <= i < |one| ==> two[i] == h(one[i])
  {
    var one := First(Kept(f, s), n);
    forall i | 0 <= i < |one| ensures f(one[i]) == Some(h(one[i])) {
      var j := KeptFrom(f, s, i);
      assert Again(f, h, s[j]);
    }
    KeptEach(f, one);
  }

  /** The loop both sanitisers run: it stops once n values are kept. */
  method KeepFirst<A, B>(f: A -> Option<B>, s: seq<A>, n: nat) returns (out: seq<B>)
    requires n > 0
    ensures out == First(Kept(f, s), n)
  {
    out := [];
    for i := 0 to |s|
      invariant out == Kept(f, s[..i]) && |out| < n
    {
      KeptNext(f, s, i);
      var b := f(s[i]);
      if b.None? {
        continue;
      }
      out := out + [b.value];
      if |out| >= n {
        KeptPrefix(f, s, i + 1);
        return;
      }
    }
    assert s[..|s|] == s;
  }
}
