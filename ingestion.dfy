/** The deduplicating intake of a donations batch (collecter.py:92-112,
    github_collector.py:100-121): which entries of a batch are new, the records
    made of them, the extended index of known ids and the merged ledger. */
module Ingestion {
  import opened Ledger

  /** What one pass over a batch produces: the new records, in batch order, and
      the known-id index afterwards. */
  datatype Intake = Intake(added: seq<Record>, known: set<string>)

  /** An entry is taken when its id is present, non-empty and not yet known. */
  predicate Accepts(known: set<string>, p: Payload) {
    p.id.Some? && p.id.value != "" && p.id.value !in known
  }

  /** The record made of a payload: its six fields, plus `recorded_at` where the
      collector stamps one. */
  function Project(p: Payload, recordedAt: Option<string>): Record {
    Record(p.id, p.amount, p.completedAt, p.donorName, p.donorComment, p.currency, recordedAt)
  }

  /** The loop over the batch, one entry at a time, front to back. */
  function Ingest(known: set<string>, batch: seq<Payload>, recordedAt: Option<string>): Intake
    decreases |batch|
  {
    if batch == [] then Intake([], known)
    else
      var prior := Ingest(known, batch[..|batch| - 1], recordedAt);
      var p := batch[|batch| - 1];
      if Accepts(prior.known, p) then
        Intake(prior.added + [Project(p, recordedAt)], prior.known + {p.id.value})
      else prior
  }

  /** The merged ledger that gets written: old records and new ones, newest first. */
  function Merged(ledger: seq<Record>, intake: Intake): seq<Record> {
    SortNewestFirst(ledger + intake.added)
  }

  // ---------------------------------------------------------------------------
  // A reference description of the same selection, stated without a running index.

  /** The truthy ids a batch mentions. */
  function TruthyIds(batch: seq<Payload>): set<string> {
    set i | 0 <= i < |batch| && batch[i].id.Some? && batch[i].id.value != "" :: batch[i].id.value
  }

  /** Entry `i` has a truthy id that is neither known nor carried by an earlier entry. */
  predicate FirstNewOccurrence(known: set<string>, batch: seq<Payload>, i: int)
    requires 0 <= i < |batch|
  {
    Accepts(known, batch[i]) && forall j :: 0 <= j < i ==> batch[j].id != batch[i].id
  }

  /** The records of the entries that are first new occurrences, in batch order. */
  function FirstNewOccurrences(known: set<string>, batch: seq<Payload>, recordedAt: Option<string>): seq<Record>
    decreases |batch|
  {
    if batch == [] then []
    else
      FirstNewOccurrences(known, batch[..|batch| - 1], recordedAt)
      + (if FirstNewOccurrence(known, batch, |batch| - 1) then [Project(batch[|batch| - 1], recordedAt)] else [])
  }

  lemma TruthyIdsSnoc(batch: seq<Payload>)
    requires batch != []
    ensures var p := batch[|batch| - 1];
      TruthyIds(batch)
      == TruthyIds(batch[..|batch| - 1]) + (if p.id.Some? && p.id.value != "" then {p.id.value} else {})
  {
  }

  /** The intake appends exactly the first new occurrence of each id, in batch
      order, and the index grows by exactly the truthy ids of the batch. */
  lemma {:induction false} IngestSelectsFirstNewOccurrences(known: set<string>, batch: seq<Payload>, recordedAt: Option<string>)
    ensures Ingest(known, batch, recordedAt)
            == Intake(FirstNewOccurrences(known, batch, recordedAt), known + TruthyIds(batch))
  {
    if batch != [] {
      var n := |batch|;
      var init := batch[..n - 1];
      var p := batch[n - 1];
      IngestSelectsFirstNewOccurrences(known, init, recordedAt);
      TruthyIdsSnoc(batch);
      assert Accepts(known + TruthyIds(init), p) == FirstNewOccurrence(known, batch, n - 1) by {
        if p.id.Some? && p.id.value != "" {
          if p.id.value in TruthyIds(init) {
            var i :| 0 <= i < |init| && init[i].id.Some? && init[i].id.value != "" && init[i].id.value == p.id.value;
            assert batch[i].id == p.id;
          } else {
            forall j | 0 <= j < n - 1
              ensures batch[j].id != p.id
            {
              assert init[j] == batch[j];
            }
          }
        }
      }
    }
  }

  /** What the intake promises on its own: new records carry truthy, previously
      unknown, pairwise distinct ids, and the index grows by exactly those ids. */
  lemma {:induction false} IngestFreshIds(known: set<string>, batch: seq<Payload>, recordedAt: Option<string>)
    ensures var intake := Ingest(known, batch, recordedAt);
      && AllKeyed(intake.added)
      && DistinctIds(intake.added)
      && (forall r :: r in intake.added ==> r.id.value != "" && r.id.value !in known)
      && (forall r :: r in intake.added ==> r.recordedAt == recordedAt)
      && intake.known == known + IdSet(intake.added)
  {
    if batch != [] {
      var init := batch[..|batch| - 1];
      var p := batch[|batch| - 1];
      var prior := Ingest(known, init, recordedAt);
      IngestFreshIds(known, init, recordedAt);
      if Accepts(prior.known, p) {
        var x := Project(p, recordedAt);
        var added := prior.added + [x];
        assert forall r :: r in added <==> r in prior.added || r == x;
        assert IdSet(added) == IdSet(prior.added) + {p.id.value};
        forall i, j | 0 <= i < j < |added|
          ensures added[i].id != added[j].id
        {
          assert added[i] == prior.added[i];
          if j == |added| - 1 {
            assert added[i] in prior.added;
          } else {
            assert added[j] == prior.added[j];
          }
        }
      }
    }
  }

  /** A batch whose truthy ids are all known changes nothing. */
  lemma {:induction false} KnownBatchChangesNothing(known: set<string>, batch: seq<Payload>, recordedAt: Option<string>)
    requires TruthyIds(batch) <= known
    ensures Ingest(known, batch, recordedAt) == Intake([], known)
  {
    if batch != [] {
      TruthyIdsSnoc(batch);
      KnownBatchChangesNothing(known, batch[..|batch| - 1], recordedAt);
    }
  }

  /** A batch yields new records exactly when it mentions a truthy id not yet known. */
  lemma FreshIffUnknownId(known: set<string>, batch: seq<Payload>, recordedAt: Option<string>)
    ensures Ingest(known, batch, recordedAt).added != [] <==> !(TruthyIds(batch) <= known)
  {
    IngestSelectsFirstNewOccurrences(known, batch, recordedAt);
    IngestFreshIds(known, batch, recordedAt);
    if TruthyIds(batch) <= known {
      KnownBatchChangesNothing(known, batch, recordedAt);
    }
  }

  /** Re-ingesting the same batch (with any stamp) is a no-op. */
  lemma IngestIdempotent(known: set<string>, batch: seq<Payload>, recordedAt: Option<string>, again: Option<string>)
    ensures var once := Ingest(known, batch, recordedAt);
      Ingest(once.known, batch, again) == Intake([], once.known)
  {
    IngestSelectsFirstNewOccurrences(known, batch, recordedAt);
    KnownBatchChangesNothing(Ingest(known, batch, recordedAt).known, batch, again);
  }

  /** Merging keeps every old record and adds exactly the new ones, newest first,
      with records of equal timestamp in ledger-then-batch order. */
  lemma MergeKeepsEveryRecord(ledger: seq<Record>, intake: Intake, k: string)
    ensures var merged := Merged(ledger, intake);
      && NewestFirst(merged)
      && multiset(merged) == multiset(ledger) + multiset(intake.added)
      && |merged| == |ledger| + |intake.added|
      && (forall r :: r in ledger ==> r in merged)
      && WithKey(merged, k) == WithKey(ledger + intake.added, k)
  {
    var all := ledger + intake.added;
    SortNewestFirstCorrect(all);
    SortNewestFirstStable(all, k);
    assert multiset(all) == multiset(ledger) + multiset(intake.added);
    assert |Merged(ledger, intake)| == |multiset(all)|;
    forall r | r in ledger ensures r in Merged(ledger, intake) {
      assert r in multiset(all);
    }
  }

  /** If the ledger has distinct ids that the index holds, the merged ledger and
      the extended index keep both facts; an exact index stays exact. */
  lemma MergeKeepsLedgerConsistent(ledger: seq<Record>, known: set<string>, batch: seq<Payload>, recordedAt: Option<string>)
    requires AllKeyed(ledger) && DistinctIds(ledger) && IdSet(ledger) <= known
    ensures var intake := Ingest(known, batch, recordedAt);
      var merged := Merged(ledger, intake);
      && AllKeyed(merged)
      && DistinctIds(merged)
      && IdSet(merged) <= intake.known
      && (IdSet(ledger) == known ==> IdSet(merged) == intake.known)
  {
    var intake := Ingest(known, batch, recordedAt);
    var added := intake.added;
    var all := ledger + added;
    IngestFreshIds(known, batch, recordedAt);
    assert forall r :: r in all <==> r in ledger || r in added;
    assert IdSet(all) == IdSet(ledger) + IdSet(added);
    forall i, j | 0 <= i < j < |all|
      ensures all[i].id != all[j].id
    {
      if j < |ledger| {
        assert all[i] == ledger[i] && all[j] == ledger[j];
      } else if i >= |ledger| {
        assert all[i] == added[i - |ledger|] && all[j] == added[j - |ledger|];
      } else {
        assert all[i] == ledger[i] && all[j] == added[j - |ledger|];
        assert all[i].id.value in known;
        assert all[j] in added;
      }
    }
    SortKeepsIds(all);
  }

  lemma IngestTwoNew(x: Payload, y: Payload, recordedAt: Option<string>)
    requires Accepts({}, x) && Accepts({}, y) && x.id != y.id
    ensures Ingest({}, [x, y], recordedAt)
            == Intake([Project(x, recordedAt), Project(y, recordedAt)], {x.id.value, y.id.value})
  {
    assert [x, y][..1] == [x];
    assert [x][..0] == [];
    assert Ingest({}, [x], recordedAt) == Intake([Project(x, recordedAt)], {x.id.value});
  }

  lemma SortTwoInOrder(x: Record, y: Record)
    requires LexLe(Key(y), Key(x))
    ensures SortNewestFirst([x, y]) == [x, y]
  {
    assert [x, y][1..] == [y];
    assert SortNewestFirst([y]) == [y];
  }

  /** Two new donations merged into an empty ledger: the newer comes first. */
  lemma MergeTwoNew(x: Payload, y: Payload, recordedAt: Option<string>)
    requires Accepts({}, x) && Accepts({}, y) && x.id != y.id
    requires LexLe(Key(Project(y, recordedAt)), Key(Project(x, recordedAt)))
    ensures var intake := Ingest({}, [x, y], recordedAt);
      && intake.known == {x.id.value, y.id.value}
      && Merged([], intake) == [Project(x, recordedAt), Project(y, recordedAt)]
  {
    IngestTwoNew(x, y, recordedAt);
    var pair := [Project(x, recordedAt), Project(y, recordedAt)];
    assert [] + pair == pair;
    SortTwoInOrder(Project(x, recordedAt), Project(y, recordedAt));
  }

  /** Into an empty ledger, a batch of two new donations comes out newest first. */
  lemma NewerDonationComesFirst()
    ensures var b := Payload(Some("b"), Some(7), Some("2024-01-02"), None, None, None);
      var a := Payload(Some("a"), Some(5), Some("2024-01-01"), None, None, None);
      var intake := Ingest({}, [b, a], None);
      && intake.known == {"a", "b"}
      && Merged([], intake) == [Project(b, None), Project(a, None)]
  {
    var b := Payload(Some("b"), Some(7), Some("2024-01-02"), None, None, None);
    var a := Payload(Some("a"), Some(5), Some("2024-01-01"), None, None, None);
    assert "a" != "b" by { assert "a"[0] != "b"[0]; }
    var day: string := "2024-01-0";
    assert Key(Project(a, None)) == day + "1" && Key(Project(b, None)) == day + "2";
    LexLeCommonPrefix(day, "1", "2");
    MergeTwoNew(b, a, None);
  }

  /** Lines 92-108 of collecter.py and 100-117 of github_collector.py: walk the
      batch, keep each entry with a truthy unknown id and add that id to the index. */
  method CollectNew(known: set<string>, batch: seq<Payload>, recordedAt: Option<string>)
    returns (added: seq<Record>, knownAfter: set<string>)
    ensures Intake(added, knownAfter) == Ingest(known, batch, recordedAt)
    ensures added == FirstNewOccurrences(known, batch, recordedAt)
    ensures knownAfter == known + TruthyIds(batch)
  {
    added, knownAfter := [], known;
    var i := 0;
    while i < |batch|
      invariant 0 <= i <= |batch|
      invariant Intake(added, knownAfter) == Ingest(known, batch[..i], recordedAt)
    {
      var donation := batch[i];
      if donation.id.Some? && donation.id.value != "" && donation.id.value !in knownAfter {
        added := added + [Project(donation, recordedAt)];
        knownAfter := knownAfter + {donation.id.value};
      }
      assert batch[..i + 1][..i] == batch[..i];
      i := i + 1;
    }
    assert batch[..i] == batch;
    IngestSelectsFirstNewOccurrences(known, batch, recordedAt);
  }
}
