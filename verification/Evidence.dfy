/** Unique ids for retrieved evidence (internal/aiworker/server.go). */
module Evidence {
  import opened Text

  const MAX_ITEMS: nat := 5

  datatype Evidence = Evidence(sourceId: string, url: string, title: string, renderId: string, text: string)

  // ---------------------------------------------------------------- generated ids

  function Decimal(n: nat): (s: string)
    ensures s != ""
  {
    var last := [(n % 10) as char + '0'];
    if n < 10 then last else Decimal(n / 10) + last
  }

  lemma {:induction false} DecimalInjective(m: nat, n: nat)
    requires Decimal(m) == Decimal(n)
    ensures m == n
  {
    var a, b := Decimal(m), Decimal(n);
    assert a[|a| - 1] == (m % 10) as char + '0' && b[|b| - 1] == (n % 10) as char + '0';
    assert m % 10 == n % 10;
    if m >= 10 && n >= 10 {
      assert a[..|a| - 1] == Decimal(m / 10) && b[..|b| - 1] == Decimal(n / 10);
      DecimalInjective(m / 10, n / 10);
    }
  }

  function Web(k: nat): (s: string)
    ensures s != ""
  {
    "web_" + Decimal(k)
  }

  lemma WebInjective(j: nat, k: nat)
    requires Web(j) == Web(k)
    ensures j == k
  {
    assert Web(j)[4..] == Decimal(j) && Web(k)[4..] == Decimal(k);
    DecimalInjective(j, k);
  }

  /** The first ids that are generated, and the first one with two digits. */
  lemma FirstWebIds()
    ensures Web(1) == "web_1" && Web(2) == "web_2" && Web(10) == "web_10"
  {
    assert Decimal(10) == Decimal(1) + "0";
  }

  // ---------------------------------------------------------------- termination measure

  /** The taken ids that the counter could still run into. */
  ghost function Ahead(seen: set<string>, next: nat): set<string> {
    set s | s in seen && exists k: nat :: k >= next && s == Web(k)
  }

  lemma AheadShrinks(seen: set<string>, next: nat)
    ensures Ahead(seen, next + 1) <= Ahead(seen, next) && |Ahead(seen, next + 1)| <= |Ahead(seen, next)|
    ensures Web(next) in seen ==> |Ahead(seen, next + 1)| < |Ahead(seen, next)|
  {
    var a, b := Ahead(seen, next + 1), Ahead(seen, next);
    SubsetSize(a, b);
    if Web(next) in seen {
      forall k: nat | k >= next + 1 ensures Web(next) != Web(k) {
        if Web(next) == Web(k) {
          WebInjective(next, k);
        }
      }
      assert Web(next) in b && Web(next) !in a;
      SubsetSize(a, b - {Web(next)});
    }
  }

  lemma {:induction false} SubsetSize(a: set<string>, b: set<string>)
    requires a <= b
    ensures |a| <= |b|
    decreases a
  {
    if a != {} {
      var x :| x in a;
      SubsetSize(a - {x}, b - {x});
    }
  }

  // ---------------------------------------------------------------- the loops

  /** The first free id: the wish itself, or web_k for the first k after the counter that is free. */
  method Free(wish: string, next: nat, seen: set<string>) returns (id: string, k: nat)
    ensures id !in seen && k >= next
    ensures if wish !in seen then id == wish && k == next else k > next && id == Web(k)
    ensures forall j :: next < j < k ==> Web(j) in seen
  {
    id, k := wish, next;
    while id in seen
      invariant k >= next && (if k == next then id == wish else wish in seen && id == Web(k))
      invariant forall j :: next < j < k ==> Web(j) in seen
      decreases |Ahead(seen, k)|, if id == Web(k) then 0 else 1
    {
      AheadShrinks(seen, k);
      k := k + 1;
      id := Web(k);
    }
  }

  /** The trimmed ids that are in use. */
  ghost function Used(existing: seq<Evidence>): set<string> {
    set i | 0 <= i < |existing| && Trim(existing[i].sourceId) != "" :: Trim(existing[i].sourceId)
  }

  ghost function IdsOf(items: seq<Evidence>): set<string> { set i | 0 <= i < |items| :: items[i].sourceId }

  lemma IdsOfAppend(items: seq<Evidence>, item: Evidence)
    ensures IdsOf(items + [item]) == IdsOf(items) + {item.sourceId}
  {
    var all := items + [item];
    assert all[|items|] == item && forall i :: 0 <= i < |items| ==> all[i] == items[i];
    forall id | id in IdsOf(items) + {item.sourceId} ensures id in IdsOf(all) {
      if id in IdsOf(items) {
        var i :| 0 <= i < |items| && items[i].sourceId == id;
        assert all[i].sourceId == id;
      }
    }
  }

  method Seen(existing: seq<Evidence>) returns (seen: set<string>)
    ensures seen == Used(existing)
  {
    seen := {};
    for i := 0 to |existing|
      invariant seen == set j | 0 <= j < i && Trim(existing[j].sourceId) != "" :: Trim(existing[j].sourceId)
    {
      var id := Trim(existing[i].sourceId);
      if id == "" {
        continue;
      }
      seen := seen + {id};
    }
  }

  /** Item i of the output is item i of the input, its id unchanged if it is free at that point and otherwise generated.
      */
  ghost predicate Placed(existing: seq<Evidence>, add: seq<Evidence>, out: seq<Evidence>, i: nat, k: nat)
    requires i < |out| <= |add|
  {
    var wish := Trim(add[i].sourceId);
    && out[i] == add[i].(sourceId := out[i].sourceId)
    && out[i].sourceId !in Used(existing) + IdsOf(out[..i])
    && (wish != "" && wish !in Used(existing) + IdsOf(out[..i]) ==> out[i].sourceId == wish)
    && (wish == "" || wish in Used(existing) + IdsOf(out[..i]) ==> out[i].sourceId == Web(k))
  }

  lemma AppendKeepsPlaced(existing: seq<Evidence>, add: seq<Evidence>, out: seq<Evidence>, item: Evidence, i: nat,
                          k: nat)
    requires i < |out| < |add| && Placed(existing, add, out, i, k)
    ensures Placed(existing, add, out + [item], i, k)
  {
    assert (out + [item])[..i] == out[..i];
  }

  /** Every item is placed, with counters that rise from one. */
  ghost predicate AllPlaced(existing: seq<Evidence>, add: seq<Evidence>, out: seq<Evidence>, counters: seq<nat>) {
    && |out| == |counters| <= |add|
    && (forall i :: 0 <= i < |out| ==> Placed(existing, add, out, i, counters[i]))
    && (forall i, j :: 0 <= i < j < |counters| ==> counters[i] < counters[j])
    && (forall i :: 0 <= i < |counters| ==> 1 <= counters[i])
  }

  lemma PlaceNext(existing: seq<Evidence>, add: seq<Evidence>, out: seq<Evidence>, counters: seq<nat>, id: string,
                  k: nat)
    requires AllPlaced(existing, add, out, counters) && |out| < |add|
    requires 1 <= k && forall i :: 0 <= i < |counters| ==> counters[i] < k
    requires id !in Used(existing) + IdsOf(out)
    requires var wish := Trim(add[|out|].sourceId);
             if wish != "" && wish !in Used(existing) + IdsOf(out) then id == wish else id == Web(k)
    ensures AllPlaced(existing, add, out + [add[|out|].(sourceId := id)], counters + [k])
  {
    var n := |out|;
    var item := add[n].(sourceId := id);
    forall i | 0 <= i < n ensures Placed(existing, add, out + [item], i, (counters + [k])[i]) {
      AppendKeepsPlaced(existing, add, out, item, i, counters[i]);
    }
    assert (out + [item])[..n] == out;
  }

  /** Placed items have ids of their own. */
  lemma PlacedAreDistinct(existing: seq<Evidence>, add: seq<Evidence>, out: seq<Evidence>, counters: seq<nat>)
    requires AllPlaced(existing, add, out, counters)
    ensures forall i, j :: 0 <= i < j < |out| ==> out[i].sourceId != out[j].sourceId
    ensures IdsOf(out) !! Used(existing)
  {
    forall i, j | 0 <= i < j < |out| ensures out[i].sourceId != out[j].sourceId {
      assert Placed(existing, add, out, j, counters[j]);
      assert out[..j][i] == out[i];
    }
    forall i | 0 <= i < |out| ensures out[i].sourceId !in Used(existing) {
      assert Placed(existing, add, out, i, counters[i]);
    }
  }

  /** Ends on every input. The first five items are kept in order; each has an id that no existing and no earlier item
      has; ids that are free stay, and the generated ones carry strictly increasing numbers. */
  method UniquifyEvidenceIds(existing: seq<Evidence>, add: seq<Evidence>)
    returns (out: seq<Evidence>, ghost counters: seq<nat>)
    ensures |out| == |counters| == if |add| < 5 then |add| else 5
    ensures AllPlaced(existing, add, out, counters)
    ensures forall i, j :: 0 <= i < j < |out| ==> out[i].sourceId != out[j].sourceId
    ensures IdsOf(out) !! Used(existing)
  {
    var seen := Seen(existing);
    out, counters := [], [];
    var next: nat := 1;
    for i := 0 to |add|
      invariant |out| == i <= MAX_ITEMS
      invariant next >= 1 && forall j :: 0 <= j < |counters| ==> counters[j] < next
      invariant seen == Used(existing) + IdsOf(out)
      invariant AllPlaced(existing, add, out, counters)
    {
      if |out| >= MAX_ITEMS {
        break;
      }
      var wish := Trim(add[i].sourceId);
      var id, k := Free(if wish == "" then Web(next) else wish, next, seen);
      PlaceNext(existing, add, out, counters, id, k);
      IdsOfAppend(out, add[i].(sourceId := id));
      out := out + [add[i].(sourceId := id)];
      seen := seen + {id};
      counters := counters + [k];
      next := k + 1;
    }
    PlacedAreDistinct(existing, add, out, counters);
  }
}
