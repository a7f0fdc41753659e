/**
 * The pricing validator as it runs: one ordered cursor, fetched in batches, with
 * only the current reservation's terms in memory.
 */
module LedgerPricingStream {
  import opened Calendar
  import opened Pricing
  import opened LedgerCommands
  import opened LedgerRows
  import opened LedgerIntegrity

  /** One row of the reservation-price join; `D` is a digest of a list of `P`. */
  datatype JoinRow<P, D> = JoinRow(id: nat, expected: D, payload: P, created: UtcStamp)

  /** The join's order, and that the reservation's columns repeat on each of its rows. */
  ghost predicate Ordered<P, D>(rows: seq<JoinRow<P, D>>) {
    && (forall i, j :: 0 <= i < j < |rows| ==> rows[i].id <= rows[j].id)
    && (forall i, j :: 0 <= i < j < |rows| && rows[i].id == rows[j].id ==>
          rows[i].expected == rows[j].expected)
  }

  /** The payloads of one reservation, in row order. */
  ghost function Group<P, D>(rows: seq<JoinRow<P, D>>, id: nat): seq<P> {
    if rows == [] then []
    else
      var last := rows[|rows| - 1];
      Group(rows[..|rows| - 1], id) + (if last.id == id then [last.payload] else [])
  }

  /** The grouped check the cursor stands for. */
  ghost predicate GroupsValid<P, D>(rows: seq<JoinRow<P, D>>, digest: seq<P> -> D,
                                    current: (P, UtcStamp) -> bool)
  {
    && (forall i :: 0 <= i < |rows| ==> digest(Group(rows, rows[i].id)) == rows[i].expected)
    && (forall i :: 0 <= i < |rows| ==> current(rows[i].payload, rows[i].created))
  }

  lemma GroupStep<P, D>(rows: seq<JoinRow<P, D>>, k: nat, id: nat)
    requires k < |rows|
    ensures Group(rows[..k + 1], id)
      == Group(rows[..k], id) + (if rows[k].id == id then [rows[k].payload] else [])
  {
    assert rows[..k + 1][..k] == rows[..k];
  }

  lemma {:induction false} GroupAbsent<P, D>(rows: seq<JoinRow<P, D>>, id: nat)
    requires forall i :: 0 <= i < |rows| ==> rows[i].id != id
    ensures Group(rows, id) == []
  {
    if rows != [] {
      GroupAbsent(rows[..|rows| - 1], id);
    }
  }

  /** A group is complete once a later reservation's row has been reached. */
  lemma {:induction false} GroupClosed<P, D>(rows: seq<JoinRow<P, D>>, k: nat, id: nat)
    requires k <= |rows| && forall i :: k <= i < |rows| ==> rows[i].id != id
    ensures Group(rows, id) == Group(rows[..k], id)
  {
    if k < |rows| {
      var n := |rows| - 1;
      GroupClosed(rows[..n], k, id);
      assert rows[..n][..k] == rows[..k];
    } else {
      assert rows[..k] == rows;
    }
  }

  /** What `k` rows establish: windows, every finished group, and the open group's payload. */
  ghost predicate Scanned<P, D>(rows: seq<JoinRow<P, D>>, digest: seq<P> -> D,
                                current: (P, UtcStamp) -> bool, k: nat, payload: seq<P>)
    requires k <= |rows|
  {
    && (forall i :: 0 <= i < k ==> current(rows[i].payload, rows[i].created))
    && (forall i :: 0 <= i < k && rows[i].id != rows[k - 1].id ==>
          digest(Group(rows, rows[i].id)) == rows[i].expected)
    && payload == OpenGroup(rows, k)
  }

  /** The payloads read so far of the reservation the cursor is on. */
  ghost function OpenGroup<P, D>(rows: seq<JoinRow<P, D>>, k: nat): seq<P>
    requires k <= |rows|
  {
    if k == 0 then [] else Group(rows[..k], rows[k - 1].id)
  }

  predicate Boundary<P, D>(rows: seq<JoinRow<P, D>>, k: nat)
    requires k < |rows|
  {
    k > 0 && rows[k].id != rows[k - 1].id
  }

  lemma CloseGroup<P, D>(rows: seq<JoinRow<P, D>>, k: nat)
    requires Ordered(rows) && 0 < k <= |rows| && (k == |rows| || rows[k].id != rows[k - 1].id)
    ensures Group(rows, rows[k - 1].id) == Group(rows[..k], rows[k - 1].id)
    ensures k < |rows| ==> Group(rows[..k], rows[k].id) == []
  {
    GroupClosed(rows, k, rows[k - 1].id);
    if k < |rows| {
      GroupAbsent(rows[..k], rows[k].id);
    }
  }

  lemma ScanRow<P, D>(rows: seq<JoinRow<P, D>>, digest: seq<P> -> D,
                      current: (P, UtcStamp) -> bool, k: nat, payload: seq<P>)
    requires Ordered(rows) && k < |rows| && Scanned(rows, digest, current, k, payload)
    requires Boundary(rows, k) ==> digest(payload) == rows[k - 1].expected
    requires current(rows[k].payload, rows[k].created)
    ensures Scanned(rows, digest, current, k + 1,
                    (if Boundary(rows, k) then [] else payload) + [rows[k].payload])
  {
    GroupStep(rows, k, rows[k].id);
    if Boundary(rows, k) {
      CloseGroup(rows, k);
      forall i | 0 <= i < k ensures digest(Group(rows, rows[i].id)) == rows[i].expected {
        if rows[i].id == rows[k - 1].id {
          assert rows[i].expected == rows[k - 1].expected;
        }
      }
    }
  }

  lemma BadGroup<P, D>(rows: seq<JoinRow<P, D>>, digest: seq<P> -> D,
                       current: (P, UtcStamp) -> bool, k: nat, payload: seq<P>)
    requires Ordered(rows) && k < |rows| && Scanned(rows, digest, current, k, payload)
    requires Boundary(rows, k) && digest(payload) != rows[k - 1].expected
    ensures !GroupsValid(rows, digest, current)
  {
    CloseGroup(rows, k);
    assert digest(Group(rows, rows[k - 1].id)) != rows[k - 1].expected;
  }

  lemma BadWindow<P, D>(rows: seq<JoinRow<P, D>>, digest: seq<P> -> D,
                        current: (P, UtcStamp) -> bool, k: nat)
    requires k < |rows| && !current(rows[k].payload, rows[k].created)
    ensures !GroupsValid(rows, digest, current)
  {
  }

  lemma LastGroup<P, D>(rows: seq<JoinRow<P, D>>, digest: seq<P> -> D,
                        current: (P, UtcStamp) -> bool, payload: seq<P>)
    requires Ordered(rows) && Scanned(rows, digest, current, |rows|, payload)
    ensures GroupsValid(rows, digest, current)
       <==> (rows == [] || digest(payload) == rows[|rows| - 1].expected)
  {
    if rows != [] {
      var n := |rows| - 1;
      CloseGroup(rows, |rows|);
      assert payload == Group(rows, rows[n].id);
      if digest(payload) == rows[n].expected {
        forall i | 0 <= i < |rows| ensures digest(Group(rows, rows[i].id)) == rows[i].expected {
          if rows[i].id == rows[n].id && i < n {
            assert rows[i].expected == rows[n].expected;
          }
        }
      }
    }
  }

  lemma NothingScanned<P, D>(rows: seq<JoinRow<P, D>>, digest: seq<P> -> D, current: (P, UtcStamp) -> bool)
    ensures Scanned(rows, digest, current, 0, [])
  {
  }

  /** One fetched batch; `ok` is false as soon as a group or a window fails. */
  method ScanBatch<P, D(==)>(rows: seq<JoinRow<P, D>>, digest: seq<P> -> D, current: (P, UtcStamp) -> bool,
                             from: nat, stop: nat, open: seq<P>) returns (ok: bool, payload: seq<P>)
    requires Ordered(rows) && from <= stop <= |rows| && Scanned(rows, digest, current, from, open)
    ensures ok ==> Scanned(rows, digest, current, stop, payload)
    ensures !ok ==> !GroupsValid(rows, digest, current)
  {
    payload := open;
    var k := from;
    while k < stop
      invariant from <= k <= stop && Scanned(rows, digest, current, k, payload)
    {
      if Boundary(rows, k) && digest(payload) != rows[k - 1].expected {
        BadGroup(rows, digest, current, k, payload);
        return false, payload;
      }
      if !current(rows[k].payload, rows[k].created) {
        BadWindow(rows, digest, current, k);
        return false, payload;
      }
      ScanRow(rows, digest, current, k, payload);
      payload := (if Boundary(rows, k) then [] else payload) + [rows[k].payload];
      k := k + 1;
    }
    ok := true;
  }

  /** The outcome does not depend on the batch size: it is the grouped check. */
  method StreamPricing<P, D(==)>(rows: seq<JoinRow<P, D>>, digest: seq<P> -> D,
                                 current: (P, UtcStamp) -> bool, batchSize: nat) returns (ok: bool)
    requires Ordered(rows) && batchSize > 0
    ensures ok <==> GroupsValid(rows, digest, current)
  {
    var fetched := 0;
    var payload: seq<P> := [];
    NothingScanned(rows, digest, current);
    while fetched < |rows|
      invariant 0 <= fetched <= |rows| && Scanned(rows, digest, current, fetched, payload)
    {
      var stop := if fetched + batchSize <= |rows| then fetched + batchSize else |rows|;
      ok, payload := ScanBatch(rows, digest, current, fetched, stop, payload);
      if !ok {
        return;
      }
      fetched := stop;
    }
    LastGroup(rows, digest, current, payload);
    ok := rows == [] || digest(payload) == rows[|rows| - 1].expected;
  }

  // ---- the join itself ----------------------------------------------------

  /** A reservation's digest and creation time beside its stored terms. */
  datatype PricedList<P, D> = PricedList(expected: D, created: UtcStamp, terms: seq<P>)

  function RowsOf<P, D>(list: PricedList<P, D>, id: nat): seq<JoinRow<P, D>> {
    seq(|list.terms|, k requires 0 <= k < |list.terms| => JoinRow(id, list.expected, list.terms[k], list.created))
  }

  /** The inner join: reservations in id order, each with its terms; one without terms has no row. */
  function Join<P, D>(lists: seq<PricedList<P, D>>): seq<JoinRow<P, D>> {
    if lists == [] then []
    else
      var n := |lists| - 1;
      Join(lists[..n]) + RowsOf(lists[n], n)
  }

  /** Every reservation that has terms has their digest, and each was current at creation. */
  ghost predicate ListsValid<P, D>(lists: seq<PricedList<P, D>>, digest: seq<P> -> D,
                                   current: (P, UtcStamp) -> bool)
  {
    forall i :: 0 <= i < |lists| ==>
      && (lists[i].terms != [] ==> digest(lists[i].terms) == lists[i].expected)
      && forall k :: 0 <= k < |lists[i].terms| ==> current(lists[i].terms[k], lists[i].created)
  }

  lemma {:induction false} GroupAppend<P, D>(a: seq<JoinRow<P, D>>, b: seq<JoinRow<P, D>>, id: nat)
    ensures Group(a + b, id) == Group(a, id) + Group(b, id)
  {
    if b == [] {
      assert a + b == a;
    } else {
      var n := |b| - 1;
      assert (a + b)[..|a| + n] == a + b[..n];
      GroupAppend(a, b[..n], id);
    }
  }

  lemma {:induction false} GroupWhole<P, D>(rows: seq<JoinRow<P, D>>, terms: seq<P>, id: nat)
    requires |rows| == |terms| && forall k :: 0 <= k < |rows| ==> rows[k].id == id && rows[k].payload == terms[k]
    ensures Group(rows, id) == terms
  {
    if rows != [] {
      var n := |rows| - 1;
      GroupWhole(rows[..n], terms[..n], id);
      assert terms == terms[..n] + [terms[n]];
    }
  }

  /** Each joined row repeats its reservation's columns beside one of its terms, in id order. */
  lemma {:induction false} JoinRows<P, D>(lists: seq<PricedList<P, D>>)
    ensures forall j :: 0 <= j < |Join(lists)| ==>
      var row := Join(lists)[j];
      && row.id < |lists| && row.expected == lists[row.id].expected
      && row.created == lists[row.id].created && row.payload in lists[row.id].terms
    ensures Ordered(Join(lists))
  {
    if lists != [] {
      JoinRows(lists[..|lists| - 1]);
    }
  }

  lemma {:induction false} JoinGroup<P, D>(lists: seq<PricedList<P, D>>, id: nat)
    ensures Group(Join(lists), id) == if id < |lists| then lists[id].terms else []
  {
    if lists != [] {
      var n := |lists| - 1;
      var front, back := Join(lists[..n]), RowsOf(lists[n], n);
      JoinGroup(lists[..n], id);
      GroupAppend(front, back, id);
      if id == n {
        GroupWhole(back, lists[n].terms, n);
      } else {
        GroupAbsent(back, id);
      }
    }
  }

  lemma {:induction false} JoinCovers<P, D>(lists: seq<PricedList<P, D>>, i: nat, k: nat) returns (j: nat)
    requires i < |lists| && k < |lists[i].terms|
    ensures j < |Join(lists)| && Join(lists)[j].id == i && Join(lists)[j].payload == lists[i].terms[k]
  {
    var n := |lists| - 1;
    if i == n {
      j := |Join(lists[..n])| + k;
    } else {
      j := JoinCovers(lists[..n], i, k);
      assert Join(lists)[j] == Join(lists[..n])[j];
    }
  }

  /** The grouped check over the join is the check over each reservation's own list. */
  lemma GroupsAreLists<P, D>(lists: seq<PricedList<P, D>>, digest: seq<P> -> D,
                             current: (P, UtcStamp) -> bool)
    ensures Ordered(Join(lists))
    ensures GroupsValid(Join(lists), digest, current) <==> ListsValid(lists, digest, current)
  {
    var rows := Join(lists);
    JoinRows(lists);
    if ListsValid(lists, digest, current) {
      forall j | 0 <= j < |rows|
        ensures digest(Group(rows, rows[j].id)) == rows[j].expected && current(rows[j].payload, rows[j].created)
      {
        JoinGroup(lists, rows[j].id);
      }
    }
    if GroupsValid(rows, digest, current) {
      forall i | 0 <= i < |lists|
        ensures lists[i].terms != [] ==> digest(lists[i].terms) == lists[i].expected
        ensures forall k :: 0 <= k < |lists[i].terms| ==> current(lists[i].terms[k], lists[i].created)
      {
        forall k | 0 <= k < |lists[i].terms|
          ensures digest(lists[i].terms) == lists[i].expected && current(lists[i].terms[k], lists[i].created)
        {
          var j := JoinCovers(lists, i, k);
          JoinGroup(lists, i);
          assert digest(Group(rows, rows[j].id)) == rows[j].expected;
        }
        assert lists[i].terms != [] ==> current(lists[i].terms[0], lists[i].created);
      }
    }
  }

  // ---- on the stored ledger -----------------------------------------------

  function ListsOf(db: Db): seq<PricedList<PriceTerm, seq<PriceTerm>>> {
    seq(|db.reservations|, i requires 0 <= i < |db.reservations| =>
      PricedList(db.reservations[i].pricingDigest, db.reservations[i].createdAt, StoredTerms(db, i)))
  }

  /** A canonical digest is injective, so the list itself stands for it. */
  function Canonical(terms: seq<PriceTerm>): seq<PriceTerm> {
    terms
  }

  predicate Current(t: PriceTerm, at: UtcStamp) {
    Fresh(t, at)
  }

  lemma ListsAreReservations(db: Db)
    ensures ListsValid(ListsOf(db), Canonical, Current) <==> PricingValid(db)
  {
    var lists := ListsOf(db);
    assert forall i :: 0 <= i < |lists| ==> lists[i].terms == StoredTerms(db, i);
    if ListsValid(lists, Canonical, Current) {
      forall i, t | 0 <= i < |db.reservations| && t in StoredTerms(db, i)
        ensures Fresh(t, db.reservations[i].createdAt)
      {
        var k :| 0 <= k < |lists[i].terms| && lists[i].terms[k] == t;
        assert Current(lists[i].terms[k], lists[i].created);
      }
    }
  }

  /** The validator as run on the stored rows, for every batch size. */
  method ValidatePricing(db: Db, batchSize: nat) returns (ok: bool)
    requires batchSize > 0
    ensures ok <==> PricingValid(db)
  {
    var rows := Join(ListsOf(db));
    GroupsAreLists(ListsOf(db), Canonical, Current);
    ListsAreReservations(db);
    ok := StreamPricing(rows, Canonical, Current, batchSize);
  }
}
