/** The write-once store of mailbox bodies (internal/commmailbox/content_store.go). The digest is an
    arbitrary function into lowercase hexadecimal; where two bodies must be told apart, its
    injectivity on them is a premise. */
module ContentStore {
  import opened Base
  import opened Text

  type Sha = string -> string

  predicate IsHexDigit(c: char) { '0' <= c <= '9' || 'a' <= c <= 'f' }

  predicate IsHex(s: string) { |s| == 64 && forall i :: 0 <= i < |s| ==> IsHexDigit(s[i]) }

  ghost predicate HexDigest(sha: Sha) { forall b: string :: IsHex(sha(b)) }

  lemma HexIsNormal(s: string)
    requires IsHex(s)
    ensures Norm(s) == s && Trim(s) == s
  {
    TrimmedIsFixed(s);
    LowerIsFixed(s);
  }

  // ---------------------------------------------------------------- object keys

  predicate IsSafe(c: char) {
    'a' <= c <= 'z' || '0' <= c <= '9' || c == '-' || c == '_' || c == '.'
  }

  predicate AllSafe(s: string) { forall i :: 0 <= i < |s| ==> IsSafe(s[i]) }

  function Keep(s: string): (r: string)
    ensures AllSafe(r)
  {
    if s == "" then "" else if IsSafe(s[|s| - 1]) then Keep(s[..|s| - 1]) + [s[|s| - 1]] else Keep(s[..|s| - 1])
  }

  /** A key segment: the safe characters of the value, or a digest prefix when there are none. */
  ghost function Segment(sha: Sha, value: string): (r: string)
    requires HexDigest(sha)
    ensures r != "" && AllSafe(r)
  {
    var v := Norm(value);
    if v == "" then "unknown" else if Keep(v) == "" then sha(v)[..24] else Keep(v)
  }

  /** The loop that builds a segment. */
  method SafeSegment(sha: Sha, value: string) returns (r: string)
    requires HexDigest(sha)
    ensures r == Segment(sha, value)
  {
    var v := Norm(value);
    if v == "" {
      return "unknown";
    }
    r := "";
    for i := 0 to |v|
      invariant r == Keep(v[..i])
    {
      assert v[..i + 1][..i] == v[..i];
      if IsSafe(v[i]) {
        r := r + [v[i]];
      }
    }
    assert v[..|v|] == v;
    if r == "" {
      r := sha(v)[..24];
    }
  }

  lemma {:induction false} KeepSafe(s: string)
    requires AllSafe(s)
    ensures Keep(s) == s
  {
    if s != "" {
      KeepSafe(s[..|s| - 1]);
    }
  }

  /** Segments are fixed points: a stored segment names itself. */
  lemma SegmentTwice(sha: Sha, value: string)
    requires HexDigest(sha)
    ensures Segment(sha, Segment(sha, value)) == Segment(sha, value)
  {
    var g := Segment(sha, value);
    TrimmedIsFixed(g);
    LowerIsFixed(g);
    KeepSafe(g);
  }

  lemma {:induction false} KeepConcat(a: string, b: string)
    ensures Keep(a + b) == Keep(a) + Keep(b)
  {
    if b == "" {
      assert a + b == a;
    } else {
      assert (a + b)[..|a + b| - 1] == a + b[..|b| - 1];
      KeepConcat(a, b[..|b| - 1]);
    }
  }

  /** A value of safe characters is its own segment. */
  lemma SafeIsItsSegment(sha: Sha, value: string)
    requires HexDigest(sha) && value != "" && AllSafe(value)
    ensures Segment(sha, value) == value
  {
    TrimmedIsFixed(value);
    LowerIsFixed(value);
    KeepSafe(value);
  }

  const LETTERS: string := "abcdefghijklmnopqrstuvwxyz"

  const DIGITS: string := "0123456789"

  lemma IsLetter(c: char)
    ensures 'a' <= c <= 'z' <==> c in LETTERS
  {
    assert forall i :: 0 <= i < |LETTERS| ==> LETTERS[i] == 'a' + i as char;
    if 'a' <= c <= 'z' {
      assert LETTERS[(c - 'a') as int] == c;
    }
  }

  lemma IsDigit(c: char)
    ensures '0' <= c <= '9' <==> c in DIGITS
  {
    assert forall i :: 0 <= i < |DIGITS| ==> DIGITS[i] == '0' + i as char;
    if '0' <= c <= '9' {
      assert DIGITS[(c - '0') as int] == c;
    }
  }

  lemma SafeCharacters(c: char)
    ensures IsSafe(c) <==> c in LETTERS || c in DIGITS || c in "-_."
  {
    IsLetter(c);
    IsDigit(c);
  }

  lemma {:induction false} KeepNone(s: string)
    requires forall i :: 0 <= i < |s| ==> !IsSafe(s[i])
    ensures Keep(s) == ""
  {
    if s != "" {
      KeepNone(s[..|s| - 1]);
    }
  }

  /** A value without safe characters: the word unknown if it is blank, a digest prefix otherwise. */
  lemma SegmentWithoutSafe(sha: Sha, value: string)
    requires HexDigest(sha)
    requires forall i :: 0 <= i < |Norm(value)| ==> !IsSafe(Norm(value)[i])
    ensures Segment(sha, value) == if Norm(value) == "" then "unknown" else sha(Norm(value))[..24]
  {
    KeepNone(Norm(value));
  }

  const PREFIX: string := "mailbox/v1/instances/"

  ghost function ContentKey(sha: Sha, instance: string, agent: string, delivery: string): string
    requires HexDigest(sha)
  {
    PREFIX + Path(Segment(sha, instance), Segment(sha, agent), Segment(sha, delivery))
  }

  /** A slash-free head followed by a slash is determined by the whole string, and so is the rest. */
  lemma Peel(x1: string, mark: string, t1: string, x2: string, t2: string)
    requires AllSafe(x1) && AllSafe(x2) && mark != "" && mark[0] == '/'
    requires x1 + (mark + t1) == x2 + (mark + t2)
    ensures x1 == x2 && t1 == t2
  {
    var s := x1 + (mark + t1);
    assert s[|x1|] == '/' && s[|x2|] == '/';
    assert forall i :: 0 <= i < |x1| ==> s[i] == x1[i];
    assert forall i :: 0 <= i < |x2| ==> s[i] == x2[i];
    assert |x1| == |x2|;
    assert s[..|x1|] == x1 && s[..|x2|] == x2;
    assert s[|x1| + |mark|..] == t1 && s[|x2| + |mark|..] == t2;
  }

  function Path(x: string, y: string, z: string): string {
    x + ("/agents/" + (y + ("/deliveries/" + (z + ("/content" + "")))))
  }

  lemma PathUnique(x1: string, y1: string, z1: string, x2: string, y2: string, z2: string)
    requires AllSafe(x1) && AllSafe(y1) && AllSafe(z1) && AllSafe(x2) && AllSafe(y2) && AllSafe(z2)
    ensures Path(x1, y1, z1) == Path(x2, y2, z2) <==> x1 == x2 && y1 == y2 && z1 == z2
  {
    var e1, e2 := z1 + ("/content" + ""), z2 + ("/content" + "");
    var m1, m2 := y1 + ("/deliveries/" + e1), y2 + ("/deliveries/" + e2);
    if Path(x1, y1, z1) == Path(x2, y2, z2) {
      Peel(x1, "/agents/", m1, x2, m2);
      Peel(y1, "/deliveries/", e1, y2, e2);
      Peel(z1, "/content", "", z2, "");
    }
  }

  /** Two deliveries share an object key exactly when their three segments agree. */
  lemma ContentKeyCollides(sha: Sha, i1: string, a1: string, d1: string, i2: string, a2: string, d2: string)
    requires HexDigest(sha)
    ensures ContentKey(sha, i1, a1, d1) == ContentKey(sha, i2, a2, d2)
       <==> (&& Segment(sha, i1) == Segment(sha, i2)
             && Segment(sha, a1) == Segment(sha, a2)
             && Segment(sha, d1) == Segment(sha, d2))
  {
    var p1 := Path(Segment(sha, i1), Segment(sha, a1), Segment(sha, d1));
    var p2 := Path(Segment(sha, i2), Segment(sha, a2), Segment(sha, d2));
    assert (PREFIX + p1)[|PREFIX|..] == p1 && (PREFIX + p2)[|PREFIX|..] == p2;
    PathUnique(Segment(sha, i1), Segment(sha, a1), Segment(sha, d1), Segment(sha, i2), Segment(sha, a2),
      Segment(sha, d2));
  }

  predicate SafeId(v: string) { v != "" && AllSafe(v) }

  /** The key of a delivery whose ids are of safe characters. */
  lemma SafeKey(sha: Sha, i: string, a: string, d: string)
    requires HexDigest(sha) && SafeId(i) && SafeId(a) && SafeId(d)
    ensures ContentKey(sha, i, a, d) ==
            "mailbox/v1/instances/" + (i + ("/agents/" + (a + ("/deliveries/" + (d + "/content")))))
  {
    SafeIsItsSegment(sha, i);
    SafeIsItsSegment(sha, a);
    SafeIsItsSegment(sha, d);
    assert "/content" + "" == "/content";
  }

  /** Deliveries whose ids are of safe characters have different keys. */
  lemma SafeKeysDiffer(sha: Sha, i1: string, a1: string, d1: string, i2: string, a2: string, d2: string)
    requires HexDigest(sha)
    requires SafeId(i1) && SafeId(a1) && SafeId(d1) && SafeId(i2) && SafeId(a2) && SafeId(d2)
    ensures ContentKey(sha, i1, a1, d1) == ContentKey(sha, i2, a2, d2) <==> i1 == i2 && a1 == a2 && d1 == d2
  {
    ContentKeyCollides(sha, i1, a1, d1, i2, a2, d2);
    SafeIsItsSegment(sha, i1);
    SafeIsItsSegment(sha, a1);
    SafeIsItsSegment(sha, d1);
    SafeIsItsSegment(sha, i2);
    SafeIsItsSegment(sha, a2);
    SafeIsItsSegment(sha, d2);
  }

  // ---------------------------------------------------------------- objects

  /** A stored body with the digest its writer put into the metadata. */
  datatype Object = Object(body: string, digest: string, contentType: string)

  type Objects = map<string, Object>

  datatype Pointer = Pointer(key: string, sha256: string, bytes: int, contentType: string)

  datatype Result<T> = Success(value: T) | Failure

  /** Objects are only ever added. */
  ghost predicate WriteOnce(o: Objects, o': Objects) { forall k <- o :: k in o' && o'[k] == o[k] }

  /** Every object has a body and carries its digest. */
  ghost predicate ObjectsOk(sha: Sha, o: Objects) {
    forall k <- o :: o[k].digest == sha(o[k].body) && |o[k].body| > 0
  }

  /** The pointer describes the stored object. */
  predicate Describes(o: Objects, p: Pointer) {
    p.key in o && o[p.key].digest == p.sha256 && |o[p.key].body| == p.bytes
  }

  function Orelse(s: string, fallback: string): string { if Trim(s) == "" then fallback else Trim(s) }

  function FreshPointer(sha: Sha, key: string, body: string, contentType: string): Pointer {
    Pointer(key, sha(body), |body|, contentType)
  }

  /** After a refused conditional put: adopt the existing object only if digest and length agree. A head
      reply may omit the length, which then reads as zero. */
  function ExistingPointer(obj: Object, key: string, digest: string, bytes: int, contentType: string, hasLength: bool)
    : Result<Pointer>
  {
    var found := Norm(obj.digest);
    var length := if hasLength then |obj.body| else 0;
    if Norm(digest) == "" || found == "" || found != Norm(digest) then Failure
    else if bytes >= 0 && length != 0 && length != bytes then Failure
    else Success(Pointer(key, found, length, Orelse(obj.contentType, Trim(contentType))))
  }

  /** An adopted pointer describes the object that is really there, whoever wrote it. */
  lemma ExistingPointerDescribes(sha: Sha, o: Objects, key: string, digest: string, bytes: int, ct: string,
                                 hasLength: bool)
    requires HexDigest(sha) && ObjectsOk(sha, o) && key in o
    ensures var r := ExistingPointer(o[key], key, digest, bytes, ct, hasLength);
            r.Success? ==> r.value.sha256 == Norm(digest) && (r.value.bytes != 0 ==> Describes(o, r.value))
  {
    HexIsNormal(o[key].digest);
  }

  const DEFAULT_MAX_BYTES: int := 1024 * 1024

  datatype Content = Content(body: string, sha256: string, bytes: int, contentType: string)

  function GetContent(sha: Sha, o: Objects, p: Pointer, maxBytes: int): Result<Content> {
    var limit := if maxBytes <= 0 then DEFAULT_MAX_BYTES else maxBytes;
    if Trim(p.key) == "" || Trim(p.key) !in o then Failure
    else
      var obj := o[Trim(p.key)];
      if |obj.body| > limit then Failure
      else if Norm(p.sha256) != "" && Norm(p.sha256) != sha(obj.body) then Failure
      else Success(Content(obj.body, sha(obj.body), |obj.body|, Orelse(obj.contentType, Trim(p.contentType))))
  }

  /** A read returns the stored body, exactly when there is one within the limit, a mebibyte by default, that has the
      digest of the pointer, if the pointer has one. */
  lemma GetContentIff(sha: Sha, o: Objects, p: Pointer, maxBytes: int)
    requires Trimmed(p.key)
    ensures var r := GetContent(sha, o, p, maxBytes);
            && (r.Success? <==>
                  && p.key != "" && p.key in o && |o[p.key].body| <= (if maxBytes > 0 then maxBytes else 1_048_576)
                  && (Norm(p.sha256) == "" || Norm(p.sha256) == sha(o[p.key].body)))
            && (r.Success? ==>
                  && r.value.body == o[p.key].body && r.value.sha256 == sha(r.value.body)
                  && r.value.bytes == |r.value.body|
                  && r.value.contentType == KnownType(o[p.key], p.contentType))
  {
    TrimmedIsFixed(p.key);
  }

  /** The bucket behind the mailbox content store. */
  class Bucket {
    var objects: Objects

    constructor ()
      ensures objects == map[]
    {
      objects := map[];
    }

    /** Stores a body under its key unless the key is taken; a taken key is adopted when the digest and, where the head
        reply tells it, the length agree. Blank ids and bodies and failing calls are refused. No stored object is ever
        changed, and at most this body is added, possibly with its reply lost. */
    method PutContent(sha: Sha, instance: string, agent: string, delivery: string, body: string, contentType: string,
                      put: Reply, head: Reply, hasLength: bool) returns (r: Result<Pointer>)
      requires HexDigest(sha) && ObjectsOk(sha, objects)
      modifies this
      ensures ObjectsOk(sha, objects) && WriteOnce(old(objects), objects)
      ensures var key := ContentKey(sha, instance, agent, delivery);
              objects == old(objects)
              || (key !in old(objects) && put != Fails
                && objects == old(objects)[key := Object(body, sha(body), contentType)])
      ensures var key := ContentKey(sha, instance, agent, delivery);
              r.Success? <==>
                && Trim(delivery) != "" && Trim(agent) != "" && Trim(body) != "" && put == Fine
                && (key in old(objects) ==> head == Fine && Agrees(sha, old(objects)[key], body, hasLength))
      ensures r.Success? ==>
                && r.value.key == ContentKey(sha, instance, agent, delivery) && r.value.key in objects
                && r.value.sha256 == objects[r.value.key].digest == sha(body)
                && (r.value.bytes != 0 ==> Describes(objects, r.value))
                && (hasLength ==> r.value.bytes == |body|)
      ensures var key := ContentKey(sha, instance, agent, delivery);
              r.Success? ==>
                r.value.contentType == if key in old(objects) then KnownType(old(objects)[key], contentType)
                                       else contentType
    {
      if Trim(delivery) == "" || Trim(agent) == "" || Trim(body) == "" || put == Fails {
        return Failure;
      }
      var x := SafeSegment(sha, instance);
      var y := SafeSegment(sha, agent);
      var z := SafeSegment(sha, delivery);
      var key := PREFIX + Path(x, y, z);
      ZeroLengthNotBlank(body);
      if key in objects {
        if put != Fine || head != Fine {
          return Failure;
        }
        r := ExistingPointer(objects[key], key, sha(body), |body|, contentType, hasLength);
        AdoptedIff(sha, objects, key, body, contentType, hasLength);
        return;
      }
      objects := objects[key := Object(body, sha(body), contentType)];
      r := if put == Fine then Success(FreshPointer(sha, key, body, contentType)) else Failure;
    }
  }

  /** The stored object has the digest of the body and, if the head reply tells it, its length. */
  predicate Agrees(sha: Sha, obj: Object, body: string, hasLength: bool) {
    obj.digest == sha(body) && (hasLength ==> |obj.body| == |body|)
  }

  /** The type an object is read with: its own, or the one expected if it has none. */
  function KnownType(obj: Object, expected: string): string {
    if Trim(obj.contentType) != "" then Trim(obj.contentType) else Trim(expected)
  }

  /** An object is adopted exactly when it agrees. */
  lemma AdoptedIff(sha: Sha, o: Objects, key: string, body: string, ct: string, hasLength: bool)
    requires HexDigest(sha) && ObjectsOk(sha, o) && key in o
    ensures var r := ExistingPointer(o[key], key, sha(body), |body|, ct, hasLength);
            && (r.Success? <==> Agrees(sha, o[key], body, hasLength))
            && (r.Success? ==>
              && r.value.key == key && r.value.sha256 == sha(body) && (r.value.bytes != 0 ==> Describes(o, r.value))
              && (hasLength ==> r.value.bytes == |body|) && r.value.contentType == KnownType(o[key], ct))
  {
    HexIsNormal(o[key].digest);
    HexIsNormal(sha(body));
  }

  lemma ZeroLengthNotBlank(body: string)
    requires Trim(body) != ""
    ensures |body| > 0
  {
  }
}
