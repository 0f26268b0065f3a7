/** The unpadded URL-safe base64 coding (section 5 of RFC 4648), decoded as leniently as the Go library does:
    line breaks are skipped and unused trailing bits are ignored. */
module Base64Url {
  import opened Base

  type Byte = b: int | 0 <= b < 256
  type Sextet = v: int | 0 <= v < 64

  // ---------------------------------------------------------------- bytes and sextets

  // Three bytes x, y, z share their bits among four sextets a, b, c, d.
  function A(x: Byte): Sextet { x / 4 }
  function B(x: Byte, y: Byte): Sextet { (x as int) % 4 * 16 + y / 16 }
  function C(y: Byte, z: Byte): Sextet { (y as int) % 16 * 4 + z / 64 }
  function D(z: Byte): Sextet { z % 64 }

  function X(a: Sextet, b: Sextet): Byte { (a as int) * 4 + b / 16 }
  function Y(b: Sextet, c: Sextet): Byte { (b as int) % 16 * 16 + c / 4 }
  function Z(c: Sextet, d: Sextet): Byte { (c as int) % 4 * 64 + d }

  lemma BytesRegained(x: Byte, y: Byte, z: Byte)
    ensures X(A(x), B(x, y)) == x && Y(B(x, y), C(y, z)) == y && Z(C(y, z), D(z)) == z
  {
  }

  lemma SextetsRegained(a: Sextet, b: Sextet, c: Sextet, d: Sextet)
    ensures A(X(a, b)) == a && B(X(a, b), Y(b, c)) == b && C(Y(b, c), Z(c, d)) == c && D(Z(c, d)) == d
    ensures B(X(a, b), 0) == b <==> b % 16 == 0
    ensures C(Y(b, c), 0) == c <==> c % 4 == 0
  {
  }

  function Sextets(bs: seq<Byte>): seq<Sextet> {
    if |bs| == 0 then []
    else if |bs| == 1 then [A(bs[0]), B(bs[0], 0)]
    else if |bs| == 2 then [A(bs[0]), B(bs[0], bs[1]), C(bs[1], 0)]
    else [A(bs[0]), B(bs[0], bs[1]), C(bs[1], bs[2]), D(bs[2])] + Sextets(bs[3..])
  }

  function Bytes(vs: seq<Sextet>): Option<seq<Byte>> {
    if |vs| == 0 then Some([])
    else if |vs| == 1 then None
    else if |vs| == 2 then Some([X(vs[0], vs[1])])
    else if |vs| == 3 then Some([X(vs[0], vs[1]), Y(vs[1], vs[2])])
    else
      var rest := Bytes(vs[4..]);
      if rest.None? then None else Some([X(vs[0], vs[1]), Y(vs[1], vs[2]), Z(vs[2], vs[3])] + rest.value)
  }

  lemma SextetsOfOne(bs: seq<Byte>)
    requires |bs| == 1
    ensures Sextets(bs) == [A(bs[0]), B(bs[0], 0)]
  {
  }

  lemma BytesOfPair(vs: seq<Sextet>)
    requires |vs| == 2
    ensures Bytes(vs) == Some([X(vs[0], vs[1])])
  {
  }

  lemma FirstRegained(x: Byte, y: Byte)
    ensures X(A(x), B(x, y)) == x
  {
    BytesRegained(x, y, y);
  }

  lemma BytesOfOne(bs: seq<Byte>)
    requires |bs| == 1
    ensures Bytes(Sextets(bs)) == Some(bs)
  {
    SextetsOfOne(bs);
    BytesOfPair(Sextets(bs));
    FirstRegained(bs[0], 0);
    assert [bs[0]] == bs;
  }

  lemma BytesOfTwo(x: Byte, y: Byte)
    ensures Bytes(Sextets([x, y])) == Some([x, y])
  {
    BytesRegained(x, y, 0);
    assert Sextets([x, y]) == [A(x), B(x, y), C(y, 0)];
  }

  lemma BytesStep(a: Sextet, b: Sextet, c: Sextet, d: Sextet, vs: seq<Sextet>)
    requires Bytes(vs).Some?
    ensures Bytes([a, b, c, d] + vs) == Some([X(a, b), Y(b, c), Z(c, d)] + Bytes(vs).value)
  {
    assert ([a, b, c, d] + vs)[4..] == vs;
  }

  lemma {:induction false} BytesOfSextets(bs: seq<Byte>)
    ensures Bytes(Sextets(bs)) == Some(bs)
  {
    if |bs| == 1 {
      BytesOfOne(bs);
    } else if |bs| == 2 {
      BytesOfTwo(bs[0], bs[1]);
      assert bs == [bs[0], bs[1]];
    } else if |bs| > 2 {
      var x, y, z := bs[0], bs[1], bs[2];
      BytesOfSextets(bs[3..]);
      BytesStep(A(x), B(x, y), C(y, z), D(z), Sextets(bs[3..]));
      BytesRegained(x, y, z);
      assert bs == [x, y, z] + bs[3..];
    }
  }

  /** No bits are set beyond the last whole byte. */
  predicate CleanTail(vs: seq<Sextet>) {
    && (|vs| % 4 == 2 ==> vs[|vs| - 1] % 16 == 0)
    && (|vs| % 4 == 3 ==> vs[|vs| - 1] % 4 == 0)
  }

  lemma {:induction false} SextetsOfBytes(vs: seq<Sextet>)
    requires Bytes(vs).Some?
    ensures Sextets(Bytes(vs).value) == vs <==> CleanTail(vs)
  {
    var bs := Bytes(vs).value;
    if |vs| == 2 {
      SextetsRegained(vs[0], vs[1], 0, 0);
      assert vs == [vs[0], vs[1]];
    } else if |vs| == 3 {
      SextetsRegained(vs[0], vs[1], vs[2], 0);
      assert vs == [vs[0], vs[1], vs[2]];
    } else if |vs| >= 4 {
      var rest := Bytes(vs[4..]).value;
      SextetsRegained(vs[0], vs[1], vs[2], vs[3]);
      assert bs[3..] == rest;
      SextetsOfBytes(vs[4..]);
      SameAfterFour(Sextets(bs), Sextets(rest), vs);
      CleanTailOfRest(vs);
    }
  }

  lemma SameAfterFour(s: seq<Sextet>, rest: seq<Sextet>, vs: seq<Sextet>)
    requires |vs| >= 4 && s == vs[..4] + rest
    ensures s == vs <==> rest == vs[4..]
  {
    assert vs == vs[..4] + vs[4..] && s[4..] == rest;
  }

  lemma CleanTailOfRest(vs: seq<Sextet>)
    requires |vs| >= 4
    ensures CleanTail(vs) <==> CleanTail(vs[4..])
  {
  }

  // ---------------------------------------------------------------- the alphabet

  function Symbol(v: Sextet): char {
    if v < 26 then 'A' + v as char else if v < 52 then 'a' + (v - 26) as char
    else if v < 62 then '0' + (v - 52) as char else if v == 62 then '-' else '_'
  }

  function Value(c: char): Option<Sextet> {
    if 'A' <= c <= 'Z' then Some((c - 'A') as int) else if 'a' <= c <= 'z' then Some((c - 'a') as int + 26)
    else if '0' <= c <= '9' then Some((c - '0') as int + 52)
    else if c == '-' then Some(62) else if c == '_' then Some(63)
    else None
  }

  const UPPER: string := "ABCDEFGHIJKLMNOPQRSTUVWXYZ"

  const LOWER: string := "abcdefghijklmnopqrstuvwxyz"

  lemma UpperSymbols(v: Sextet)
    requires v < 26
    ensures Symbol(v) == UPPER[v]
  {
    assert forall i :: 0 <= i < 26 ==> UPPER[i] == 'A' + i as char;
  }

  lemma LowerSymbols(v: Sextet)
    requires 26 <= v < 52
    ensures Symbol(v) == LOWER[v - 26]
  {
    assert forall i :: 0 <= i < 26 ==> LOWER[i] == 'a' + i as char;
  }

  /** The alphabet of RFC 4648, table 2. */
  lemma Alphabet(v: Sextet)
    ensures Symbol(v) == if v < 26 then UPPER[v] else if v < 52 then LOWER[v - 26] else "0123456789-_"[v - 52]
  {
    if v < 26 {
      UpperSymbols(v);
    } else if v < 52 {
      LowerSymbols(v);
    }
  }

  lemma SymbolValue(v: Sextet)
    ensures Value(Symbol(v)) == Some(v)
  {
  }

  lemma ValueSymbol(c: char)
    requires Value(c).Some?
    ensures Symbol(Value(c).value) == c
  {
  }

  predicate IsBreak(c: char) { c == '\r' || c == '\n' }

  function Strip(s: string): string {
    if s == "" then "" else if IsBreak(s[0]) then Strip(s[1..]) else [s[0]] + Strip(s[1..])
  }

  function Symbols(vs: seq<Sextet>): string { if vs == [] then "" else [Symbol(vs[0])] + Symbols(vs[1..]) }

  function Values(s: string): Option<seq<Sextet>> {
    if s == "" then Some([])
    else
      var v, rest := Value(s[0]), Values(s[1..]);
      if v.None? || rest.None? then None else Some([v.value] + rest.value)
  }

  function Encode(bs: seq<Byte>): string { Symbols(Sextets(bs)) }

  function Decode(s: string): Option<seq<Byte>> {
    var vs := Values(Strip(s));
    if vs.None? then None else Bytes(vs.value)
  }

  /** Only characters of the alphabet. */
  predicate Plain(s: string) { forall i :: 0 <= i < |s| ==> Value(s[i]).Some? }

  lemma {:induction false} SymbolsArePlain(vs: seq<Sextet>)
    ensures Plain(Symbols(vs)) && |Symbols(vs)| == |vs| && Values(Symbols(vs)) == Some(vs)
  {
    if vs != [] {
      SymbolsArePlain(vs[1..]);
      SymbolValue(vs[0]);
      var s := Symbols(vs);
      assert s[1..] == Symbols(vs[1..]);
      assert vs == [vs[0]] + vs[1..];
    }
  }

  lemma {:induction false} PlainIsNotStripped(s: string)
    requires Plain(s)
    ensures Strip(s) == s
  {
    if s != "" {
      assert Value(s[0]).Some?;
      PlainIsNotStripped(s[1..]);
    }
  }

  lemma {:induction false} ValuesOfPlain(s: string)
    requires Values(s).Some?
    ensures Plain(s) && Symbols(Values(s).value) == s
  {
    if s != "" {
      ValuesOfPlain(s[1..]);
      ValueSymbol(s[0]);
      assert Values(s).value[1..] == Values(s[1..]).value;
      assert forall i :: 0 < i < |s| ==> s[i] == s[1..][i - 1];
    }
  }

  /** A character that decoding admits: of the alphabet, or a line break to be skipped. */
  predicate Admitted(c: char) { Value(c).Some? || c == '\r' || c == '\n' }

  lemma {:induction false} StripCounts(s: string)
    ensures Values(Strip(s)).Some? <==> forall i :: 0 <= i < |s| ==> Admitted(s[i])
    ensures |Strip(s)| == Digits(s) + Strange(s)
  {
    if s != "" {
      StripCounts(s[1..]);
      assert forall i :: 0 < i < |s| ==> s[i] == s[1..][i - 1];
      if !IsBreak(s[0]) {
        var t := Strip(s);
        assert t[0] == s[0] && t[1..] == Strip(s[1..]);
      }
    }
  }

  /** How many characters of the alphabet there are, and how many that are neither that nor line breaks. */
  function Digits(s: string): nat { if s == "" then 0 else (if Value(s[0]).Some? then 1 else 0) + Digits(s[1..]) }

  function Strange(s: string): nat { if s == "" then 0 else (if Admitted(s[0]) then 0 else 1) + Strange(s[1..]) }

  lemma {:induction false} StrangeIff(s: string)
    ensures Strange(s) == 0 <==> forall i :: 0 <= i < |s| ==> Admitted(s[i])
  {
    if s != "" {
      StrangeIff(s[1..]);
      assert forall i :: 0 < i < |s| ==> s[i] == s[1..][i - 1];
    }
  }

  lemma {:induction false} BytesIff(vs: seq<Sextet>)
    ensures Bytes(vs).Some? <==> |vs| % 4 != 1
    ensures Bytes(vs).Some? ==> |Bytes(vs).value| == |vs| * 3 / 4
  {
    if |vs| >= 4 {
      BytesIff(vs[4..]);
    }
  }

  lemma {:induction false} ValuesLength(s: string)
    ensures Values(s).Some? ==> |Values(s).value| == |s|
  {
    if s != "" {
      ValuesLength(s[1..]);
    }
  }

  lemma {:induction false} StripConcat(a: string, b: string)
    ensures Strip(a + b) == Strip(a) + Strip(b)
  {
    if a == "" {
      assert a + b == b;
    } else {
      assert (a + b)[1..] == a[1..] + b;
      StripConcat(a[1..], b);
    }
  }

  /** Line breaks make no difference wherever they stand. */
  lemma BreaksAreSkipped(a: string, c: char, b: string)
    requires c == '\r' || c == '\n'
    ensures Decode(a + [c] + b) == Decode(a + b)
  {
    StripConcat(a + [c], b);
    StripConcat(a, [c]);
    StripConcat(a, b);
    assert Strip([c]) == "" by { assert [c][1..] == ""; }
    assert Strip(a + [c] + b) == Strip(a + b);
  }

  /** Exactly the texts that decode: characters of the alphabet and line breaks alone, and not one character over a
      whole number of quanta. */
  lemma DecodesIff(s: string)
    ensures Decode(s).Some? <==> (forall i :: 0 <= i < |s| ==> Admitted(s[i])) && Digits(s) % 4 != 1
  {
    StripCounts(s);
    StrangeIff(s);
    if Values(Strip(s)).Some? {
      ValuesLength(Strip(s));
      BytesIff(Values(Strip(s)).value);
    }
  }

  /** Decoding inverts encoding, and an encoding consists of letters, digits, hyphens and underscores alone. */
  lemma DecodeInvertsEncode(bs: seq<Byte>)
    ensures Decode(Encode(bs)) == Some(bs) && Plain(Encode(bs))
  {
    SymbolsArePlain(Sextets(bs));
    PlainIsNotStripped(Encode(bs));
    BytesOfSextets(bs);
  }

  /** No line break and no stray trailing bits. */
  predicate Canonical(s: string) { Strip(s) == s && Values(s).Some? && CleanTail(Values(s).value) }

  /** A text that decodes is the encoding of its bytes exactly when it holds no line break and no stray trailing bits.
      */
  lemma EncodeInvertsDecodeIff(s: string)
    requires Decode(s).Some?
    ensures Encode(Decode(s).value) == s <==> Canonical(s)
  {
    var vs := Values(Strip(s)).value;
    var bs := Decode(s).value;
    ValuesOfPlain(Strip(s));
    SextetsOfBytes(vs);
    SymbolsArePlain(Sextets(bs));
    PlainIsNotStripped(Encode(bs));
  }
}

/** Compact JWS (section 7.1 of RFC 7515; internal/attestations/jws_rs256.go). */
module Jws {
  import opened Base
  import opened Text
  import opened Base64Url

  datatype Failure = PayloadRequired | SignerRequired | HeaderFailed | SigningFailed | EmptySignature
                   | JwsRequired | NotThreeParts | InvalidHeader | InvalidPayload | InvalidSignature
  datatype Result<+T> = Ok(value: T) | Err(error: Failure)
  datatype Parts = Parts(header: seq<Byte>, payload: seq<Byte>, signature: seq<Byte>)

  function SigningInput(header: seq<Byte>, payload: seq<Byte>): string { Encode(header) + "." + Encode(payload) }

  /** The header JSON and the signer, which sees the digest of its argument, may fail; there may be no signer. */
  function Build(header: Option<seq<Byte>>, payload: seq<Byte>,
                 signer: Option<string -> Option<seq<Byte>>>): Result<string> {
    if payload == [] then Err(PayloadRequired)
    else if signer.None? then Err(SignerRequired)
    else if header.None? then Err(HeaderFailed)
    else
      var input := SigningInput(header.value, payload);
      var sig := signer.value(input);
      if sig.None? then Err(SigningFailed)
      else if sig.value == [] then Err(EmptySignature)
      else Ok(input + "." + Encode(sig.value))
  }

  function Split(s: string): (parts: seq<string>)
    ensures parts != []
  {
    if s == "" then [""]
    else
      var rest := Split(s[1..]);
      if s[0] == '.' then [""] + rest else [[s[0]] + rest[0]] + rest[1..]
  }

  function Parse(jws: string): Result<Parts> {
    var s := Trim(jws);
    if s == "" then Err(JwsRequired)
    else
      var parts := Split(s);
      if |parts| != 3 then Err(NotThreeParts)
      else
        var h, p, g := Decode(parts[0]), Decode(parts[1]), Decode(parts[2]);
        if h.None? then Err(InvalidHeader)
        else if p.None? then Err(InvalidPayload)
        else if g.None? then Err(InvalidSignature)
        else Ok(Parts(h.value, p.value, g.value))
  }

  predicate NoDot(s: string) { forall i :: 0 <= i < |s| ==> s[i] != '.' }

  lemma {:induction false} SplitAtDot(a: string, b: string)
    requires NoDot(a)
    ensures Split(a + "." + b) == [a] + Split(b)
  {
    var s := a + "." + b;
    if a == "" {
      assert s[1..] == b;
    } else {
      assert s[1..] == a[1..] + "." + b;
      SplitAtDot(a[1..], b);
      assert [s[0]] + a[1..] == a;
    }
  }

  lemma {:induction false} SplitWithoutDot(a: string)
    requires NoDot(a)
    ensures Split(a) == [a]
  {
    if a != "" {
      SplitWithoutDot(a[1..]);
      assert [a[0]] + a[1..] == a;
    }
  }

  /** The dots of a compact JWS separate its parts again. */
  lemma SplitThree(a: string, b: string, c: string)
    requires NoDot(a) && NoDot(b) && NoDot(c)
    ensures Split(a + "." + b + "." + c) == [a, b, c]
  {
    assert a + "." + b + "." + c == a + "." + (b + "." + c);
    SplitAtDot(a, b + "." + c);
    SplitAtDot(b, c);
    SplitWithoutDot(c);
  }

  lemma PlainHasNoDotOrSpace(s: string)
    requires Plain(s)
    ensures NoDot(s) && forall i :: 0 <= i < |s| ==> !IsSpace(s[i])
  {
    forall i | 0 <= i < |s| ensures s[i] != '.' && !IsSpace(s[i]) {
      assert Value(s[i]).Some?;
    }
  }

  /** Joined parts have no white space at their ends. */
  lemma JoinedIsTrimmed(a: string, b: string, c: string)
    requires Plain(a) && Plain(b) && Plain(c)
    ensures var s := a + "." + b + "." + c; s != "" && Trim(s) == s
  {
    var s := a + "." + b + "." + c;
    PlainHasNoDotOrSpace(a);
    PlainHasNoDotOrSpace(c);
    assert s[0] == if a == "" then '.' else a[0];
    assert s[|s| - 1] == if c == "" then '.' else c[|c| - 1];
    TrimmedIsFixed(s);
  }

  /** Parsing three encoded parts gives back exactly the three byte strings, whatever they are. */
  lemma ParseJoined(p: Parts)
    ensures Parse(SigningInput(p.header, p.payload) + "." + Encode(p.signature)) == Ok(p)
  {
    var a, b, c := Encode(p.header), Encode(p.payload), Encode(p.signature);
    DecodeInvertsEncode(p.header);
    DecodeInvertsEncode(p.payload);
    DecodeInvertsEncode(p.signature);
    PlainHasNoDotOrSpace(a);
    PlainHasNoDotOrSpace(b);
    PlainHasNoDotOrSpace(c);
    JoinedIsTrimmed(a, b, c);
    SplitThree(a, b, c);
  }

  /** Building succeeds exactly when there is a payload, a header, and a signer that answers with a signature, and
      parsing the result returns the header, the payload and that signature. */
  lemma ParseInvertsBuild(header: Option<seq<Byte>>, payload: seq<Byte>, signer: Option<string -> Option<seq<Byte>>>)
    ensures Build(header, payload, signer).Ok? <==>
            && payload != [] && header.Some? && signer.Some?
            && var sig := signer.value(SigningInput(header.value, payload)); sig.Some? && sig.value != []
    ensures Build(header, payload, signer).Ok? ==>
            Parse(Build(header, payload, signer).value)
            == Ok(Parts(header.value, payload, signer.value(SigningInput(header.value, payload)).value))
  {
    if Build(header, payload, signer).Ok? {
      ParseJoined(Parts(header.value, payload, signer.value(SigningInput(header.value, payload)).value));
    }
  }

  /** The signer sees an input that determines header and payload. */
  lemma SigningInputIsUnique(h1: seq<Byte>, p1: seq<Byte>, h2: seq<Byte>, p2: seq<Byte>)
    requires SigningInput(h1, p1) == SigningInput(h2, p2)
    ensures h1 == h2 && p1 == p2
  {
    ParseJoined(Parts(h1, p1, []));
    ParseJoined(Parts(h2, p2, []));
  }

  function Dots(s: string): nat { if s == "" then 0 else (if s[0] == '.' then 1 else 0) + Dots(s[1..]) }

  lemma {:induction false} SplitCounts(s: string)
    ensures |Split(s)| == 1 + Dots(s)
  {
    if s != "" {
      SplitCounts(s[1..]);
    }
  }

  /** What parsing refuses, in the order of its tests. */
  lemma ParseRefuses(jws: string)
    ensures var s := Trim(jws);
            && (s != "" && |Split(s)| == 3 ==>
                  var parts := Split(s);
                  && (Parse(jws) == Err(InvalidHeader) <==> Decode(parts[0]).None?)
                  && (Parse(jws) == Err(InvalidPayload) <==> Decode(parts[0]).Some? && Decode(parts[1]).None?)
                  && (Parse(jws) == Err(InvalidSignature) <==>
                        Decode(parts[0]).Some? && Decode(parts[1]).Some? && Decode(parts[2]).None?))
            && (Parse(jws) == Err(JwsRequired) <==> s == "")
            && (Parse(jws) == Err(NotThreeParts) <==> s != "" && Dots(s) != 2)
            && (Parse(jws).Ok? <==> s != "" && Dots(s) == 2 && forall i :: 0 <= i < 3 ==> Decode(Split(s)[i]).Some?)
  {
    SplitCounts(Trim(jws));
  }

  /** What building refuses, in the order of its tests. */
  lemma BuildRefuses(header: Option<seq<Byte>>, payload: seq<Byte>, signer: Option<string -> Option<seq<Byte>>>)
    ensures var r := Build(header, payload, signer);
            && (r == Err(PayloadRequired) <==> payload == [])
            && (r == Err(SignerRequired) <==> payload != [] && signer.None?)
            && (r == Err(HeaderFailed) <==> payload != [] && signer.Some? && header.None?)
            && (payload != [] && signer.Some? && header.Some? ==>
                  var sig := signer.value(SigningInput(header.value, payload));
                  && (r == Err(SigningFailed) <==> sig.None?)
                  && (r == Err(EmptySignature) <==> sig == Some([])))
  {
  }

  function Joined(parts: seq<string>): string
    requires parts != []
  {
    if |parts| == 1 then parts[0] else parts[0] + "." + Joined(parts[1..])
  }

  lemma {:induction false} JoinedSplit(s: string)
    ensures Joined(Split(s)) == s
  {
    if s != "" {
      var rest := Split(s[1..]);
      JoinedSplit(s[1..]);
      if s[0] == '.' {
        assert ([""] + rest)[1..] == rest;
      } else {
        JoinedHead(s[0], rest);
      }
    }
  }

  lemma JoinedHead(c: char, parts: seq<string>)
    requires parts != []
    ensures Joined([[c] + parts[0]] + parts[1..]) == [c] + Joined(parts)
  {
    var more := [[c] + parts[0]] + parts[1..];
    assert more[1..] == parts[1..];
  }

  lemma JoinedThree(parts: seq<string>)
    requires |parts| == 3
    ensures Joined(parts) == parts[0] + "." + parts[1] + "." + parts[2]
  {
    assert Joined(parts[2..]) == parts[2];
    assert parts[1..][1..] == parts[2..];
    assert Joined(parts[1..]) == parts[1] + "." + parts[2];
  }

  function Rebuilt(p: Parts): string { SigningInput(p.header, p.payload) + "." + Encode(p.signature) }

  lemma SplitRebuilt(p: Parts)
    ensures Split(Rebuilt(p)) == [Encode(p.header), Encode(p.payload), Encode(p.signature)]
        && Trim(Rebuilt(p)) == Rebuilt(p)
  {
    var a, b, c := Encode(p.header), Encode(p.payload), Encode(p.signature);
    DecodeInvertsEncode(p.header);
    DecodeInvertsEncode(p.payload);
    DecodeInvertsEncode(p.signature);
    PlainHasNoDotOrSpace(a);
    PlainHasNoDotOrSpace(b);
    PlainHasNoDotOrSpace(c);
    JoinedIsTrimmed(a, b, c);
    SplitThree(a, b, c);
  }

  /** A text that parses is the one its parts build exactly when it has no white space around it and each of its parts
      is free of line breaks and stray bits. */
  lemma ParsedIsRebuiltIff(s: string)
    requires Parse(s).Ok?
    ensures s == Rebuilt(Parse(s).value) <==>
            && Trim(s) == s
            && var parts := Split(s);
               |parts| == 3 && Canonical(parts[0]) && Canonical(parts[1]) && Canonical(parts[2])
  {
    var p, parts := Parse(s).value, Split(Trim(s));
    EncodeInvertsDecodeIff(parts[0]);
    EncodeInvertsDecodeIff(parts[1]);
    EncodeInvertsDecodeIff(parts[2]);
    SplitRebuilt(p);
    JoinedSplit(Trim(s));
    JoinedThree(parts);
  }

  /** Parsing is lenient: stray bits at the end of the last part leave a different text with the same parts. */
  lemma StrayBitsAreIgnored(h: seq<Byte>, p: seq<Byte>, b: Byte)
    requires b % 4 == 0
    ensures var s := SigningInput(h, p) + "." + [Symbol(b / 4), 'B'];
            Parse(s) == Ok(Parts(h, p, [b])) && s != SigningInput(h, p) + "." + Encode([b])
  {
    var a, c := Encode(h), Encode(p);
    var g := [Symbol(b / 4), 'B'];
    DecodeInvertsEncode(h);
    DecodeInvertsEncode(p);
    StrayDecodes(b);
    PlainHasNoDotOrSpace(a);
    PlainHasNoDotOrSpace(c);
    PlainHasNoDotOrSpace(g);
    JoinedIsTrimmed(a, c, g);
    SplitThree(a, c, g);
    var s, t := SigningInput(h, p) + "." + g, SigningInput(h, p) + "." + Encode([b]);
    assert s[|s| - 1] == 'B';
    assert t[|t| - 1] == Encode([b])[1];
  }

  lemma SymbolsOfTwo(v: Sextet, w: Sextet)
    ensures Symbols([v, w]) == [Symbol(v), Symbol(w)]
  {
    assert [v, w][1..] == [w] && [w][1..] == [];
    assert Symbols([w]) == [Symbol(w)];
  }

  lemma StrayDecodes(b: Byte)
    requires b % 4 == 0
    ensures var g := [Symbol(b / 4), 'B']; Plain(g) && Decode(g) == Some([b])
    ensures Encode([b]) == [Symbol(b / 4), 'A']
  {
    var g, vs := [Symbol(b / 4), 'B'], [b / 4, 1];
    SymbolValue(b / 4);
    SymbolsOfTwo(b / 4, 1);
    SymbolsOfTwo(b / 4, 0);
    assert Symbol(0) == 'A' && Symbol(1) == 'B';
    SymbolsArePlain(vs);
    PlainIsNotStripped(g);
    assert Sextets([b]) == [b / 4, 0];
  }
}
