/**
 The list of Wi-Fi networks shown after a scan: one entry per name, with its
 strongest signal, strongest first, cut to a maximum. The source merges, sorts
 and cuts a vector; the lemmas say that the list shown is the best one, and that
 its names and signals do not depend on the order in which networks were heard.
*/
module ScanResults {
  import opened Prelude

  type Name = seq<int>

  datatype Network = Network(ssid: Name, rssi: int, tag: nat)

  // ---------------------------------------------------------------- order

  predicate NameLess(a: Name, b: Name) {
    if b == [] then false
    else if a == [] then true
    else a[0] < b[0] || (a[0] == b[0] && NameLess(a[1..], b[1..]))
  }

  lemma {:induction false} NameTotal(a: Name, b: Name)
    ensures a == b || NameLess(a, b) || NameLess(b, a)
    ensures NameLess(a, b) ==> !NameLess(b, a) && a != b
  {
    if a != [] && b != [] {
      NameTotal(a[1..], b[1..]);
      if a[0] == b[0] && a[1..] == b[1..] { assert a == [a[0]] + a[1..] && b == [b[0]] + b[1..]; }
    }
  }

  lemma {:induction false} NameTransitive(a: Name, b: Name, c: Name)
    requires NameLess(a, b) && NameLess(b, c)
    ensures NameLess(a, c)
  {
    if a != [] && b != [] && c != [] && a[0] == b[0] && b[0] == c[0] {
      NameTransitive(a[1..], b[1..], c[1..]);
    }
  }

  /** Stronger first; equally strong ones by name. */
  predicate Outranks(a: Network, b: Network) {
    a.rssi > b.rssi || (a.rssi == b.rssi && NameLess(a.ssid, b.ssid))
  }

  lemma OutranksTransitive(a: Network, b: Network, c: Network)
    requires Outranks(a, b) && Outranks(b, c)
    ensures Outranks(a, c)
  {
    if a.rssi == b.rssi && b.rssi == c.rssi { NameTransitive(a.ssid, b.ssid, c.ssid); }
  }

  lemma OutranksTotal(a: Network, b: Network)
    ensures a.ssid != b.ssid ==> Outranks(a, b) || Outranks(b, a)
    ensures Outranks(a, b) ==> !Outranks(b, a)
  {
    NameTotal(a.ssid, b.ssid);
  }

  // ---------------------------------------------------------------- merging

  function Find(s: seq<Network>, ssid: Name): (r: Option<nat>)
    ensures r.Some? ==> r.value < |s| && s[r.value].ssid == ssid
    ensures r.None? ==> forall k :: 0 <= k < |s| ==> s[k].ssid != ssid
  {
    if s == [] then None
    else
      var n := |s| - 1;
      if s[n].ssid == ssid then Some(n) else Find(s[..n], ssid)
  }

  function Merge(s: seq<Network>, c: Network): seq<Network> {
    if c.ssid == [] then s
    else match Find(s, c.ssid)
      case None => s + [c]
      case Some(i) => if c.rssi > s[i].rssi then s[i := c] else s
  }

  function Merged(observed: seq<Network>): seq<Network> {
    if observed == [] then [] else Merge(Merged(observed[..|observed| - 1]), observed[|observed| - 1])
  }

  predicate DistinctNames(s: seq<Network>) {
    (forall k :: 0 <= k < |s| ==> s[k].ssid != []) && (forall j, k :: 0 <= j < k < |s| ==> s[j].ssid != s[k].ssid)
  }

  /** The strongest signal observed under a name. */
  predicate Strongest(observed: seq<Network>, ssid: Name, rssi: int) {
    && (exists k :: 0 <= k < |observed| && observed[k].ssid == ssid && observed[k].rssi == rssi)
    && (forall k :: 0 <= k < |observed| && observed[k].ssid == ssid ==> observed[k].rssi <= rssi)
  }

  predicate Named(s: seq<Network>, ssid: Name) {
    exists k :: 0 <= k < |s| && s[k].ssid == ssid
  }

  predicate Covers(observed: seq<Network>, s: seq<Network>) {
    && DistinctNames(s)
    && (forall k :: 0 <= k < |s| ==> Strongest(observed, s[k].ssid, s[k].rssi) && s[k] in observed)
    && (forall k :: 0 <= k < |observed| && observed[k].ssid != [] ==> Named(s, observed[k].ssid))
  }

  lemma {:induction false} MergedCovers(observed: seq<Network>)
    ensures Covers(observed, Merged(observed))
  {
    if observed != [] {
      var n := |observed| - 1;
      MergedCovers(observed[..n]);
      MergeCovers(observed[..n], Merged(observed[..n]), observed[n]);
      assert observed == observed[..n] + [observed[n]];
    }
  }

  lemma MergeCovers(before: seq<Network>, s: seq<Network>, c: Network)
    requires Covers(before, s)
    ensures Covers(before + [c], Merge(s, c))
  {
    var observed := before + [c];
    var r := Merge(s, c);
    MergeNames(s, c);
    forall k | 0 <= k < |observed| && observed[k].ssid != [] ensures Named(r, observed[k].ssid) {
      assert k < |before| ==> observed[k] == before[k];
    }
    forall k | 0 <= k < |r| ensures Strongest(observed, r[k].ssid, r[k].rssi) && r[k] in observed {
      MergeStrongest(before, s, c, k);
    }
  }

  lemma MergeNames(s: seq<Network>, c: Network)
    requires DistinctNames(s)
    ensures DistinctNames(Merge(s, c))
    ensures forall x: Name :: Named(s, x) ==> Named(Merge(s, c), x)
    ensures c.ssid != [] ==> Named(Merge(s, c), c.ssid)
  {
    var r := Merge(s, c);
    forall x: Name | Named(s, x) ensures Named(r, x) {
      var k :| 0 <= k < |s| && s[k].ssid == x;
      assert r[k].ssid == x;
    }
    if c.ssid != [] {
      match Find(s, c.ssid)
      case None => assert r[|s|].ssid == c.ssid;
      case Some(i) => assert r[i].ssid == c.ssid;
    }
  }

  lemma MergeStrongest(before: seq<Network>, s: seq<Network>, c: Network, k: nat)
    requires Covers(before, s) && k < |Merge(s, c)|
    ensures Strongest(before + [c], Merge(s, c)[k].ssid, Merge(s, c)[k].rssi) && Merge(s, c)[k] in before + [c]
  {
    var r := Merge(s, c);
    var found := Find(s, c.ssid);
    if k < |s| && r[k] == s[k] {
      assert c.ssid == s[k].ssid ==> found == Some(k);
      StrongestKeeps(before, c, s[k].ssid, s[k].rssi);
    } else {
      assert r[k] == c;
      if k < |s| {
        assert Strongest(before, c.ssid, s[k].rssi);
      } else {
        assert forall i :: 0 <= i < |before| && before[i].ssid == c.ssid ==> Named(s, c.ssid);
        assert !Named(s, c.ssid);
      }
      BecomesStrongest(before, c);
    }
  }

  lemma StrongestKeeps(before: seq<Network>, c: Network, ssid: Name, rssi: int)
    requires Strongest(before, ssid, rssi) && (c.ssid != ssid || c.rssi <= rssi)
    ensures Strongest(before + [c], ssid, rssi)
  {
    var k :| 0 <= k < |before| && before[k].ssid == ssid && before[k].rssi == rssi;
    assert (before + [c])[k] == before[k];
  }

  lemma BecomesStrongest(before: seq<Network>, c: Network)
    requires forall k :: 0 <= k < |before| && before[k].ssid == c.ssid ==> before[k].rssi <= c.rssi
    ensures Strongest(before + [c], c.ssid, c.rssi) && c in before + [c]
  {
    assert (before + [c])[|before|] == c;
  }

  // ---------------------------------------------------------------- sorting and cutting

  predicate Ranked(s: seq<Network>) {
    forall j, k :: 0 <= j < k < |s| ==> Outranks(s[j], s[k])
  }

  function Place(s: seq<Network>, c: Network): seq<Network> {
    if s == [] then [c]
    else if Outranks(s[|s| - 1], c) then s + [c]
    else Place(s[..|s| - 1], c) + [s[|s| - 1]]
  }

  function Rank(s: seq<Network>): seq<Network> {
    if s == [] then [] else Place(Rank(s[..|s| - 1]), s[|s| - 1])
  }

  lemma {:induction false} PlaceRanks(s: seq<Network>, c: Network)
    requires Ranked(s) && forall k :: 0 <= k < |s| ==> s[k].ssid != c.ssid
    ensures Ranked(Place(s, c)) && multiset(Place(s, c)) == multiset(s) + multiset{c}
  {
    if s == [] {
    } else if Outranks(s[|s| - 1], c) {
      forall j | 0 <= j < |s| ensures Outranks(s[j], c) {
        if j < |s| - 1 { OutranksTransitive(s[j], s[|s| - 1], c); }
      }
    } else {
      var n := |s| - 1;
      PlaceRanks(s[..n], c);
      OutranksTotal(s[n], c);
      assert s == s[..n] + [s[n]];
      var r := Place(s[..n], c);
      forall j | 0 <= j < |r| ensures Outranks(r[j], s[n]) {
        assert r[j] in multiset(r);
        assert r[j] in multiset(s[..n]) || r[j] == c;
      }
    }
  }

  lemma {:induction false} RankRanks(s: seq<Network>)
    requires DistinctNames(s)
    ensures Ranked(Rank(s)) && multiset(Rank(s)) == multiset(s)
  {
    if s != [] {
      var n := |s| - 1;
      RankRanks(s[..n]);
      assert s == s[..n] + [s[n]];
      var r := Rank(s[..n]);
      forall k | 0 <= k < |r| ensures r[k].ssid != s[n].ssid {
        assert r[k] in multiset(r);
        assert r[k] in multiset(s[..n]);
      }
      PlaceRanks(r, s[n]);
    }
  }

  function Cut(s: seq<Network>, maximum: nat): seq<Network> {
    if |s| > maximum then s[..maximum] else s
  }

  function Normalize(observed: seq<Network>, maximum: nat): seq<Network> {
    Cut(Rank(Merged(observed)), maximum)
  }

  /** Distinct names that were observed, each with its strongest signal, in rank
      order; and no network left out for lack of room outranks one that is shown. */
  lemma NormalizeIsBest(observed: seq<Network>, maximum: nat)
    ensures var r := Normalize(observed, maximum);
            && |r| <= maximum && DistinctNames(r) && Ranked(r)
            && (forall k :: 0 <= k < |r| ==> r[k] in observed && Strongest(observed, r[k].ssid, r[k].rssi))
    ensures var r := Normalize(observed, maximum);
            forall n :: n in Merged(observed) && n !in r ==>
              |r| == maximum && forall k :: 0 <= k < |r| ==> Outranks(r[k], n)
  {
    MergedCovers(observed);
    var m := Merged(observed);
    RankRanks(m);
    assert DistinctNames(m);
    assert forall k :: 0 <= k < |m| ==> Strongest(observed, m[k].ssid, m[k].rssi) && m[k] in observed;
    hide Merged; hide Rank; hide Strongest; hide Outranks; hide Covers;
    RankedDistinct(m, Rank(m));
    CutIsBest(observed, m, Rank(m), maximum);
  }

  lemma CutIsBest(observed: seq<Network>, m: seq<Network>, s: seq<Network>, maximum: nat)
    requires DistinctNames(s) && Ranked(s) && multiset(s) == multiset(m)
    requires forall k :: 0 <= k < |m| ==> Strongest(observed, m[k].ssid, m[k].rssi) && m[k] in observed
    ensures var r := Cut(s, maximum);
            && |r| <= maximum && DistinctNames(r) && Ranked(r)
            && (forall k :: 0 <= k < |r| ==> r[k] in observed && Strongest(observed, r[k].ssid, r[k].rssi))
            && (forall n :: n in m && n !in r ==> |r| == maximum && forall k :: 0 <= k < |r| ==> Outranks(r[k], n))
  {
    hide Strongest; hide Outranks;
    var r := Cut(s, maximum);
    forall k | 0 <= k < |r| ensures r[k] in observed && Strongest(observed, r[k].ssid, r[k].rssi) {
      assert r[k] == s[k] && s[k] in multiset(m);
      var j :| 0 <= j < |m| && m[j] == r[k];
    }
    forall n | n in m && n !in r ensures |r| == maximum && forall k :: 0 <= k < |r| ==> Outranks(r[k], n) {
      assert n in multiset(s);
      var j :| 0 <= j < |s| && s[j] == n;
      assert j >= |r|;
    }
  }

  lemma RankedDistinct(m: seq<Network>, s: seq<Network>)
    requires DistinctNames(m) && Ranked(s) && multiset(s) == multiset(m)
    ensures DistinctNames(s)
  {
    forall k | 0 <= k < |s| ensures s[k].ssid != [] {
      assert s[k] in multiset(s);
      assert s[k] in multiset(m);
    }
    forall j, k | 0 <= j < k < |s| ensures s[j].ssid != s[k].ssid {
      assert s[j] in multiset(s) && s[k] in multiset(s);
      var a :| 0 <= a < |m| && m[a] == s[j];
      var b :| 0 <= b < |m| && m[b] == s[k];
      OutranksTotal(s[j], s[k]);
      assert s[j] != s[k];
      assert a != b;
      assert a < b || b < a;
    }
  }

  // ---------------------------------------------------------------- the order of the scan

  predicate SameKey(a: Network, b: Network) { a.ssid == b.ssid && a.rssi == b.rssi }

  predicate SameKeys(s: seq<Network>, t: seq<Network>) {
    |s| == |t| && forall k :: 0 <= k < |s| ==> SameKey(s[k], t[k])
  }

  predicate Has(s: seq<Network>, ssid: Name, rssi: int) {
    exists k :: 0 <= k < |s| && s[k].ssid == ssid && s[k].rssi == rssi
  }

  /** A ranked list is determined by the pairs of name and signal it holds. */
  lemma {:induction false} RankedIsUnique(s: seq<Network>, t: seq<Network>)
    requires Ranked(s) && Ranked(t)
    requires forall n: Name, r: int :: Has(s, n, r) <==> Has(t, n, r)
    ensures SameKeys(s, t)
  {
    if s == [] {
      if t != [] { assert Has(t, t[0].ssid, t[0].rssi); }
    } else {
      assert Has(s, s[0].ssid, s[0].rssi);
      SameHead(s, t);
      RestHas(s, t);
      RestHas(t, s);
      RankedIsUnique(s[1..], t[1..]);
      assert forall k :: 1 <= k < |s| ==> s[k] == s[1..][k - 1] && t[k] == t[1..][k - 1];
    }
  }

  lemma SameHead(s: seq<Network>, t: seq<Network>)
    requires Ranked(s) && Ranked(t) && s != []
    requires forall n: Name, r: int :: Has(s, n, r) <==> Has(t, n, r)
    ensures t != [] && SameKey(s[0], t[0])
  {
    assert Has(s, s[0].ssid, s[0].rssi);
    var k :| 0 <= k < |t| && t[k].ssid == s[0].ssid && t[k].rssi == s[0].rssi;
    assert Has(t, t[0].ssid, t[0].rssi);
    var j :| 0 <= j < |s| && s[j].ssid == t[0].ssid && s[j].rssi == t[0].rssi;
    OutranksTotal(s[0], s[j]);
    assert k > 0 ==> Outranks(t[0], t[k]);
    assert j > 0 ==> Outranks(s[0], s[j]);
  }

  lemma RestHas(s: seq<Network>, t: seq<Network>)
    requires Ranked(s) && Ranked(t) && s != [] && t != [] && SameKey(s[0], t[0])
    requires forall n: Name, r: int :: Has(s, n, r) <==> Has(t, n, r)
    ensures forall n: Name, r: int :: Has(s[1..], n, r) ==> Has(t[1..], n, r)
  {
    forall n: Name, r: int | Has(s[1..], n, r) ensures Has(t[1..], n, r) {
      var k :| 0 <= k < |s[1..]| && s[1..][k].ssid == n && s[1..][k].rssi == r;
      assert s[k + 1].ssid == n && s[k + 1].rssi == r;
      assert Has(s, n, r);
      var j :| 0 <= j < |t| && t[j].ssid == n && t[j].rssi == r;
      assert Outranks(s[0], s[k + 1]);
      OutranksTotal(s[0], s[k + 1]);
      assert j != 0;
      assert t[1..][j - 1] == t[j];
    }
  }

  /** The names and signals shown do not depend on the order in which the radio
      reported the networks. */
  lemma OrderOfScanIsIrrelevant(a: seq<Network>, b: seq<Network>, maximum: nat)
    requires multiset(a) == multiset(b)
    ensures SameKeys(Normalize(a, maximum), Normalize(b, maximum))
  {
    MergedCovers(a);
    MergedCovers(b);
    RankRanks(Merged(a));
    RankRanks(Merged(b));
    MergedHas(a, b);
    MergedHas(b, a);
    SameMembers(Merged(a), Rank(Merged(a)));
    SameMembers(Merged(b), Rank(Merged(b)));
    RankedIsUnique(Rank(Merged(a)), Rank(Merged(b)));
  }

  lemma SameMembers(m: seq<Network>, s: seq<Network>)
    requires multiset(m) == multiset(s)
    ensures forall n: Name, r: int :: Has(m, n, r) <==> Has(s, n, r)
  {
    forall n: Name, r: int ensures Has(m, n, r) <==> Has(s, n, r) {
      if Has(m, n, r) {
        var k :| 0 <= k < |m| && m[k].ssid == n && m[k].rssi == r;
        assert m[k] in multiset(s);
      }
      if Has(s, n, r) {
        var k :| 0 <= k < |s| && s[k].ssid == n && s[k].rssi == r;
        assert s[k] in multiset(m);
      }
    }
  }

  lemma StrongestAnyOrder(a: seq<Network>, b: seq<Network>, ssid: Name, rssi: int)
    requires multiset(a) == multiset(b) && Strongest(a, ssid, rssi)
    ensures Strongest(b, ssid, rssi)
  {
    var k :| 0 <= k < |a| && a[k].ssid == ssid && a[k].rssi == rssi;
    assert a[k] in multiset(b);
    forall i | 0 <= i < |b| && b[i].ssid == ssid ensures b[i].rssi <= rssi {
      assert b[i] in multiset(a);
    }
  }

  lemma MergedHas(a: seq<Network>, b: seq<Network>)
    requires multiset(a) == multiset(b) && Covers(a, Merged(a)) && Covers(b, Merged(b))
    ensures forall n: Name, r: int :: Has(Merged(a), n, r) ==> Has(Merged(b), n, r)
  {
    var x, y := Merged(a), Merged(b);
    forall n: Name, r: int | Has(x, n, r) ensures Has(y, n, r) {
      var k :| 0 <= k < |x| && x[k].ssid == n && x[k].rssi == r;
      StrongestAnyOrder(a, b, n, r);
      var i :| 0 <= i < |b| && b[i].ssid == n && b[i].rssi == r;
      assert Named(y, b[i].ssid);
      var j :| 0 <= j < |y| && y[j].ssid == n;
      assert Strongest(b, n, y[j].rssi);
      SameStrength(b, n, r, y[j].rssi);
    }
  }

  lemma SameStrength(s: seq<Network>, ssid: Name, r: int, q: int)
    requires Strongest(s, ssid, r) && Strongest(s, ssid, q)
    ensures r == q
  {
    var i :| 0 <= i < |s| && s[i].ssid == ssid && s[i].rssi == r;
    var j :| 0 <= j < |s| && s[j].ssid == ssid && s[j].rssi == q;
  }

  // ---------------------------------------------------------------- the vector in place

  method NormalizeScanResults(observed: seq<Network>, maximum: nat) returns (result: seq<Network>)
    ensures result == Normalize(observed, maximum)
  {
    var merged: seq<Network> := [];
    for i := 0 to |observed|
      invariant merged == Merged(observed[..i])
    {
      assert observed[..i + 1][..i] == observed[..i];
      var candidate := observed[i];
      if candidate.ssid != [] {
        var existing := Find(merged, candidate.ssid);
        if existing.None? {
          merged := merged + [candidate];
        } else if candidate.rssi > merged[existing.value].rssi {
          merged := merged[existing.value := candidate];
        }
      }
    }
    assert observed[..|observed|] == observed;
    result := [];
    for i := 0 to |merged|
      invariant result == Rank(merged[..i])
    {
      assert merged[..i + 1][..i] == merged[..i];
      result := Place(result, merged[i]);
    }
    assert merged[..|merged|] == merged;
    if |result| > maximum { result := result[..maximum]; }
  }
}
