/** What a relay does to the outbox, written out on the stored rows: which rows a claim
    leases, and what becomes of a row when its publish call has returned or raised. */
module OutboxTheorems {
  import opened Prelude
  import opened Operations
  import opened OperationsRuns
  import S = OperationsService

  /** Waiting and due, or leased to a relay whose lease has ended. */
  ghost predicate Due(row: Row, at: int) {
    || (row.state == Pending && row.availableAt <= at)
    || (row.state == InFlight && row.leaseUntil.Some? && row.leaseUntil.value <= at)
  }

  /** Available earlier, or at the same instant under a smaller identifier. */
  ghost predicate Sooner(a: Row, b: Row) {
    a.availableAt < b.availableAt || (a.availableAt == b.availableAt && StrLt(a.eventId, b.eventId))
  }

  /** The row leased once more: to this worker, until so many seconds from now. */
  ghost predicate Leased(row: Row, row': Row, worker: string, at: int, lease: nat) {
    row' == row.(state := InFlight, attempts := row.attempts + 1, leaseOwner := Some(worker),
                 leaseUntil := Some(at + lease * 1_000_000), version := row.version + 1, updatedAt := at)
  }

  ghost predicate Holds(rows: seq<Row>, e: string) { exists i :: 0 <= i < |rows| && rows[i].eventId == e }

  /** The batch: due rows, each once, soonest first, each leased and stored so. */
  ghost predicate BatchOk(s: Store, s': Store, rows: seq<Row>, worker: string, at: int, lease: nat) {
    && (forall i :: 0 <= i < |rows| ==>
          && rows[i].eventId in s.outbox && Due(s.outbox[rows[i].eventId], at)
          && Leased(s.outbox[rows[i].eventId], rows[i], worker, at, lease)
          && rows[i].eventId in s'.outbox && s'.outbox[rows[i].eventId] == rows[i])
    && (forall i, j :: 0 <= i < j < |rows| ==>
          && rows[i].eventId != rows[j].eventId && rows[i].eventId in s.outbox && rows[j].eventId in s.outbox
          && Sooner(s.outbox[rows[i].eventId], s.outbox[rows[j].eventId]))
  }

  /** What is not in the batch stays as it was; if it is due, the batch is full of sooner rows. */
  ghost predicate LeftOk(s: Store, s': Store, rows: seq<Row>, at: int, limit: nat, e: string) {
    e in s.outbox && !Holds(rows, e) ==>
      && e in s'.outbox && s'.outbox[e] == s.outbox[e]
      && (Due(s.outbox[e], at) ==>
            && |rows| == limit
            && forall i :: 0 <= i < |rows| ==>
                 rows[i].eventId in s.outbox && Sooner(s.outbox[rows[i].eventId], s.outbox[e]))
  }

  lemma ChosenInOrder(s: Store, at: int, limit: nat)
    requires OutboxOk(s.outbox, s.order)
    ensures Ascending(RowBefore, Chosen(s, at, limit))
  {
    hide Claimable;
    ClaimableComparable(s.outbox, s.order, at);
    RowOrder();
    SortAscends(RowBefore, ClaimableRows(s.outbox, s.order, at));
  }

  lemma {:induction false} BatchIsOk(s: Store, s': Store, was: seq<Row>, worker: string, at: int, lease: nat,
                                     limit: nat)
    requires OutboxOk(s.outbox, s.order) && was == Chosen(s, at, limit)
    requires s'.outbox == ClaimAll(s.outbox, was, worker, at, lease)
    ensures BatchOk(s, s', ClaimedRows(was, worker, at, lease), worker, at, lease)
  {
    hide Chosen, ClaimAll, OutboxOk;
    ChosenAreEarliest(s, at, limit);
    ChosenInOrder(s, at, limit);
    var rows := ClaimedRows(was, worker, at, lease);
    forall i | 0 <= i < |rows|
      ensures rows[i].eventId == was[i].eventId && was[i].eventId in s'.outbox && s'.outbox[was[i].eventId] == rows[i] {
      PickedAt(was, i);
      ClaimAllAt(s.outbox, was, worker, at, lease, was[i].eventId);
    }
  }

  lemma PickedAt(rows: seq<Row>, i: nat)
    requires i < |rows|
    ensures Picked(rows, rows[i].eventId)
  {
  }

  lemma {:induction false} LeftIsOk(s: Store, s': Store, was: seq<Row>, worker: string, at: int, lease: nat,
                                    limit: nat, e: string)
    requires OutboxOk(s.outbox, s.order) && was == Chosen(s, at, limit)
    requires s'.outbox == ClaimAll(s.outbox, was, worker, at, lease)
    ensures LeftOk(s, s', ClaimedRows(was, worker, at, lease), at, limit, e)
  {
    hide Chosen, ClaimAll;
    ChosenAreEarliest(s, at, limit);
    var rows := ClaimedRows(was, worker, at, lease);
    ClaimAllAt(s.outbox, was, worker, at, lease, e);
    if e in s.outbox && !Holds(rows, e) {
      forall i | 0 <= i < |was| ensures was[i].eventId != e { assert rows[i].eventId == was[i].eventId; }
      assert s.outbox[e] !in was;
    }
  }

  /** A claim with a named worker, a lease of 1 to 300 seconds and a limit of 1 to 1000, after
      any run: the relay gets the rows that are due, soonest first and each once, leased to
      it for that long, up to its limit; a due row is left behind only when the batch is full
      of sooner ones; nothing else changes. Any other claim is refused. */
  lemma {:induction false} ClaimTakesTheSoonest(c: Config, before: seq<Action>, k: int, worker: string, at: int,
                                                lease: nat, limit: nat)
    ensures var w := Exec(c, INITIAL, before);
            var w' := Do(c, w, Claim(k, worker, at, lease, limit));
            if NotBlank(worker) && 1 <= lease <= 300 && 1 <= limit <= 1000 then
              && RelayOf(w', k) == Batch(worker, at, RelayOf(w', k).rows, None) && |RelayOf(w', k).rows| <= limit
              && w'.store == w.store.(outbox := w'.store.outbox)
              && BatchOk(w.store, w'.store, RelayOf(w', k).rows, worker, at, lease)
              && (forall e :: LeftOk(w.store, w'.store, RelayOf(w', k).rows, at, limit, e))
            else RelayOf(w', k) == Resting && w'.store == w.store
  {
    hide Exec, SubmissionsOk, EventOk, DispatchersOk, CallsOk, OutboxOk, Chosen, ClaimAll, NotBlank, BatchOk, LeftOk;
    InitialInv(c);
    RunKeepsInv(c, INITIAL, before);
    var w := Exec(c, INITIAL, before);
    if NotBlank(worker) && 1 <= lease <= 300 && 1 <= limit <= 1000 {
      var w' := Do(c, w, Claim(k, worker, at, lease, limit));
      var was := Chosen(w.store, at, limit);
      ChosenAreEarliest(w.store, at, limit);
      BatchIsOk(w.store, w'.store, was, worker, at, lease, limit);
      forall e ensures LeftOk(w.store, w'.store, ClaimedRows(was, worker, at, lease), at, limit, e) {
        LeftIsOk(w.store, w'.store, was, worker, at, lease, limit, e);
      }
    }
  }

  // -------------------------------------------------------- finishing a row

  const BACK_OFF: seq<int> := [1, 2, 4, 8, 16, 32, 64, 128, 256]

  /** The seconds before the k-th failed delivery is tried again. */
  lemma DelayDoubles(k: nat)
    ensures Delay(k) == BACK_OFF[if k < 8 then k else 8]
  {
    assert Pow2(0) == 1 && Pow2(1) == 2 && Pow2(2) == 4 && Pow2(3) == 8 && Pow2(4) == 16;
    assert Pow2(5) == 32 && Pow2(6) == 64 && Pow2(7) == 128 && Pow2(8) == 256;
  }

  /** The row after its publish call: published, or waiting again after the back-off, or dead
      when it has had all its deliveries. */
  ghost predicate Finished(row: Row, row': Row, returned: bool, tries: nat, at: int, cap: nat) {
    if returned then
      row' == row.(state := Published, leaseOwner := None, leaseUntil := None, lastError := None,
                   publishedAt := Some(at), version := row.version + 1, updatedAt := at)
    else
      row' == row.(state := if row.attempts < cap then Pending else DeadLetter,
                   availableAt := at + BACK_OFF[if tries < 8 then tries else 8] * 1_000_000, leaseOwner := None,
                   leaseUntil := None, lastError := Some("PublishError"), version := row.version + 1, updatedAt := at)
  }

  /** A relay settles the first row of its batch: while the row is leased to the relay's
      worker it is finished and the relay goes on to the next row, nothing else changing;
      once another has taken it, nothing changes and the relay gives its batch up. */
  lemma {:induction false} SettleFinishesTheRow(c: Config, w: World, k: int)
    requires 1 <= c.maxAttempts <= 100
    requires RelayOf(w, k).Batch? && RelayOf(w, k).returned.Some? && RelayOf(w, k).rows != []
    ensures var b, w' := RelayOf(w, k), Do(c, w, Settle(k));
            var e := b.rows[0].eventId;
            if e in w.store.outbox && w.store.outbox[e].state == InFlight
               && w.store.outbox[e].leaseOwner == Some(b.worker)
            then
              && RelayOf(w', k) == Batch(b.worker, b.at, b.rows[1..], None) && e in w'.store.outbox
              && w'.store == w.store.(outbox := w.store.outbox[e := w'.store.outbox[e]])
              && Finished(w.store.outbox[e], w'.store.outbox[e], b.returned.value, b.rows[0].attempts, b.at,
                          c.maxAttempts)
            else RelayOf(w', k) == Resting && w'.store == w.store
  {
    hide Delay, NotBlank;
    var b := RelayOf(w, k);
    DelayDoubles(b.rows[0].attempts);
    S.ErrorTextOk();
  }
}
