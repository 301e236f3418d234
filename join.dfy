/** The view model of App.jsx: each GPU paired with the service that owns it,
    the number of GPUs in use, and the connection badge.

    Ownership is first-claim-wins: services are scanned in list order and an
    index already claimed keeps its first claimant. */
module DeviceJoin {
  import opened Telemetry

  /** One line of the GPU list: the device and its owner, if any. */
  datatype Row = Row(gpu: Gpu, service: Option<Service>)

  /** A service claims an index when its `gpus` list is present and holds it;
      an absent or empty list claims nothing. */
  predicate Claims(s: Service, idx: int) {
    s.gpus.Some? && idx in s.gpus.value
  }

  /** Service k is the first in `services` that claims `idx`. */
  predicate FirstClaimAt(services: seq<Service>, idx: int, k: int) {
    && 0 <= k < |services|
    && Claims(services[k], idx)
    && forall j :: 0 <= j < k ==> !Claims(services[j], idx)
  }

  /** The owner of a device index: the first claimant in list order. */
  function Owner(services: seq<Service>, idx: int): (r: Option<Service>)
    ensures r.None? <==> forall k :: 0 <= k < |services| ==> !Claims(services[k], idx)
    ensures r.Some? ==> exists k :: FirstClaimAt(services, idx, k) && services[k] == r.value
    decreases |services|
  {
    if services == [] then None
    else
      var n := |services| - 1;
      var earlier := Owner(services[..n], idx);
      if earlier.Some? then
        ghost var k :| FirstClaimAt(services[..n], idx, k) && services[..n][k] == earlier.value;
        assert FirstClaimAt(services, idx, k);
        earlier
      else if Claims(services[n], idx) then
        assert forall j :: 0 <= j < n ==> services[..n][j] == services[j];
        assert FirstClaimAt(services, idx, n);
        Some(services[n])
      else
        assert forall j :: 0 <= j < n ==> services[..n][j] == services[j];
        None
  }

  /** A claim made after an index is owned changes nothing. */
  lemma LaterClaimIgnored(services: seq<Service>, later: Service, idx: int)
    requires exists k :: 0 <= k < |services| && Claims(services[k], idx)
    ensures Owner(services + [later], idx) == Owner(services, idx)
  {
    assert (services + [later])[..|services|] == services;
    assert Owner(services, idx).Some?;
  }

  /** Owner of a prefix one service longer: the earlier owner if there is
      one, else the new service when it claims the index. */
  lemma OwnerExtend(services: seq<Service>, i: int, idx: int)
    requires 0 <= i < |services|
    ensures Owner(services[..i + 1], idx) ==
      if Owner(services[..i], idx).Some? then Owner(services[..i], idx)
      else if Claims(services[i], idx) then Some(services[i]) else None
  {
    assert services[..i + 1][..i] == services[..i];
  }

  /** The index-to-service map, filled in place by scanning the services in
      order and setting only indices not yet present. */
  method BuildClaims(services: seq<Service>) returns (claims: map<int, Service>)
    ensures forall idx :: idx in claims <==> Owner(services, idx).Some?
    ensures forall idx :: idx in claims ==> Owner(services, idx) == Some(claims[idx])
  {
    claims := map[];
    var i := 0;
    while i < |services|
      invariant 0 <= i <= |services|
      invariant forall idx :: idx in claims <==> Owner(services[..i], idx).Some?
      invariant forall idx :: idx in claims ==> Owner(services[..i], idx) == Some(claims[idx])
    {
      var service := services[i];
      if service.gpus.Some? && |service.gpus.value| > 0 {
        var indices := service.gpus.value;
        var j := 0;
        while j < |indices|
          invariant 0 <= j <= |indices|
          invariant forall idx :: idx in claims <==> Owner(services[..i], idx).Some? || idx in indices[..j]
          invariant forall idx :: idx in claims ==>
            claims[idx] == Owner(services[..i], idx).GetOr(service)
        {
          if indices[j] !in claims {
            claims := claims[indices[j] := service];
          }
          j := j + 1;
        }
        assert indices[..j] == indices;
      }
      forall idx
        ensures Owner(services[..i + 1], idx) ==
          if Owner(services[..i], idx).Some? then Owner(services[..i], idx)
          else if Claims(services[i], idx) then Some(services[i]) else None
      {
        OwnerExtend(services, i, idx);
      }
      i := i + 1;
    }
    assert services[..i] == services;
  }

  function GpusOf(status: Snapshot): seq<Gpu> {
    status.gpus.GetOr([])
  }

  function ServicesOf(status: Snapshot): seq<Service> {
    status.services.GetOr([])
  }

  /** The reference join: row i is GPU i with its owner. */
  function Joined(gpus: seq<Gpu>, services: seq<Service>): (rows: seq<Row>)
    ensures |rows| == |gpus|
  {
    seq(|gpus|, i requires 0 <= i < |gpus| => Row(gpus[i], Owner(services, gpus[i].index)))
  }

  /** The memoised row list: none without a status; otherwise one row per
      GPU, in order, missing lists read as empty. */
  method GpuRows(status: Option<Snapshot>) returns (rows: seq<Row>)
    ensures status.None? ==> rows == []
    ensures status.Some? ==> rows == Joined(GpusOf(status.value), ServicesOf(status.value))
  {
    if status.None? {
      return [];
    }
    var gpus := GpusOf(status.value);
    var claims := BuildClaims(ServicesOf(status.value));
    rows := seq(|gpus|, i requires 0 <= i < |gpus| =>
      Row(gpus[i], if gpus[i].index in claims then Some(claims[gpus[i].index]) else None));
  }

  /** Every row is its GPU, order kept; its service is null exactly when no
      service claims the GPU's index, and otherwise the first claimant. */
  lemma JoinedRows(gpus: seq<Gpu>, services: seq<Service>, i: int)
    requires 0 <= i < |gpus|
    ensures Joined(gpus, services)[i].gpu == gpus[i]
    ensures Joined(gpus, services)[i].service.None? <==>
      forall k :: 0 <= k < |services| ==> !Claims(services[k], gpus[i].index)
    ensures Joined(gpus, services)[i].service.Some? ==>
      exists k :: FirstClaimAt(services, gpus[i].index, k) &&
                  Joined(gpus, services)[i].service.value == services[k]
  {
  }

  /** A worked example: S1 claims 0 and 1, S2 claims 1 and 2. */
  lemma FirstClaimWinsExample(s1: Service, s2: Service, g0: Gpu, g1: Gpu, g2: Gpu)
    requires s1.gpus == Some([0, 1]) && s2.gpus == Some([1, 2])
    requires g0.index == 0 && g1.index == 1 && g2.index == 2
    ensures Joined([g0, g1, g2], [s1, s2]) ==
      [Row(g0, Some(s1)), Row(g1, Some(s1)), Row(g2, Some(s2))]
  {
    assert [s1, s2][..1] == [s1];
    assert [s1][..0] == [];
    assert Owner([s1], 0) == Some(s1) && Owner([s1], 1) == Some(s1) && Owner([s1], 2) == None;
    assert Owner([s1, s2], 0) == Some(s1);
    assert Owner([s1, s2], 1) == Some(s1);
    assert Owner([s1, s2], 2) == Some(s2);
  }

  /** `rows.filter(r => r.service)`. */
  function ActiveRows(rows: seq<Row>): (r: seq<Row>)
    ensures |r| <= |rows|
    ensures forall x :: x in r ==> x in rows && x.service.Some?
    decreases |rows|
  {
    if rows == [] then []
    else
      var n := |rows| - 1;
      ActiveRows(rows[..n]) + (if rows[n].service.Some? then [rows[n]] else [])
  }

  function ActiveCount(rows: seq<Row>): nat {
    |ActiveRows(rows)|
  }

  function OwnedPositions(rows: seq<Row>): set<int> {
    set i | 0 <= i < |rows| && rows[i].service.Some?
  }

  /** The active count is the number of rows that have a service. */
  lemma {:induction false} ActiveCountIsOwnedRows(rows: seq<Row>)
    ensures ActiveCount(rows) == |OwnedPositions(rows)| <= |rows|
    decreases |rows|
  {
    if rows != [] {
      var n := |rows| - 1;
      ActiveCountIsOwnedRows(rows[..n]);
      var before := OwnedPositions(rows[..n]);
      assert OwnedPositions(rows) == before + (if rows[n].service.Some? then {n} else {});
      assert n !in before;
    }
  }

  /** No services, no active GPUs; a service per GPU, all active. */
  lemma ActiveCountBounds(gpus: seq<Gpu>, services: seq<Service>)
    ensures services == [] ==> ActiveCount(Joined(gpus, services)) == 0
    ensures (forall i :: 0 <= i < |gpus| ==> Owner(services, gpus[i].index).Some?) ==>
      ActiveCount(Joined(gpus, services)) == |gpus|
  {
    var rows := Joined(gpus, services);
    ActiveCountIsOwnedRows(rows);
    if services == [] {
      assert OwnedPositions(rows) == {};
    }
    if forall i :: 0 <= i < |gpus| ==> Owner(services, gpus[i].index).Some? {
      AllOwnedAllActive(rows);
    }
  }

  lemma {:induction false} AllOwnedAllActive(rows: seq<Row>)
    requires forall i :: 0 <= i < |rows| ==> rows[i].service.Some?
    ensures ActiveRows(rows) == rows
    decreases |rows|
  {
    if rows != [] {
      var n := |rows| - 1;
      AllOwnedAllActive(rows[..n]);
      assert rows[..n] + [rows[n]] == rows;
    }
  }

  /** The connection badge: `Live`, `...`, or `Offline`. */
  function BadgeLabel(c: ConnState): (text: string)
    ensures text == "Live" <==> c == Connected
    ensures text == "..." <==> c == Connecting
    ensures text == "Offline" <==> c == Disconnected
  {
    match c
    case Connected => "Live"
    case Connecting => "..."
    case Disconnected => "Offline"
  }
}
