/** The single-shot collector of github_collector.py: a `GitHubDonationCollector`
    run once per scheduled trigger. It ingests one donations reply into the
    ledger file (rewriting an empty ledger even without news), appends one
    total-raised sample to a series capped at the newest 100, and reports whether
    the cycle succeeded. The files are fields; replies and clock values are
    parameters. */
module Collector {
  import opened Ledger
  import opened Ingestion

  /** The retention cap of the total-raised series. */
  const MaxUpdates: nat := 100

  /** Append the sample, then keep only the newest `MaxUpdates` entries. */
  function Retain(updates: seq<Sample>, sample: Sample): (r: seq<Sample>)
    ensures |r| == if |updates| + 1 > MaxUpdates then MaxUpdates else |updates| + 1
    ensures r[|r| - 1] == sample
    ensures forall k :: 0 <= k < |r| - 1 ==> r[k] == updates[|updates| + 1 - |r| + k]
  {
    var all := updates + [sample];
    if |all| > MaxUpdates then all[|all| - MaxUpdates..] else all
  }

  /** A series kept by `Retain` never exceeds the cap, and what survives of the
      old series is its newest part. */
  lemma RetainDropsOldestOnly(updates: seq<Sample>, sample: Sample)
    requires |updates| <= MaxUpdates
    ensures var r := Retain(updates, sample);
      && |r| <= MaxUpdates
      && (|updates| < MaxUpdates ==> r == updates + [sample])
      && (|updates| == MaxUpdates ==> r == updates[1..] + [sample])
  {
  }

  class GitHubDonationCollector {
    var donationsFile: Stored<Record>
    var totalsFile: Stored<Sample>
    var knownIds: set<string>

    /** The index holds exactly the ids of the ledger file, which has no duplicates. */
    ghost predicate Valid()
      reads this
    {
      Consistent(Contents(donationsFile), knownIds)
    }

    constructor (donations: Stored<Record>, totals: Stored<Sample>)
      ensures donationsFile == donations && totalsFile == totals
      ensures knownIds == (if donations.Json? then IdSet(donations.items) else {})
      ensures WellFormedLedgerFile(donations) ==> Valid()
    {
      donationsFile := donations;
      totalsFile := totals;
      knownIds := {};
      new;
      LoadExistingData();
    }

    /** Rebuild the index from the ledger file: unchanged when there is no file,
        empty when it cannot be decoded. */
    method LoadExistingData()
      modifies this`knownIds
      ensures knownIds == match donationsFile
        case Absent => old(knownIds)
        case Corrupt => {}
        case Json(s) => IdSet(s)
    {
      match donationsFile
      case Absent =>
      case Corrupt => knownIds := {};
      case Json(s) => knownIds := IdSet(s);
    }

    /** Append one sample and keep the newest 100; a falsy reply changes nothing. */
    method UpdateTotalRaised(total: Option<TotalReply>, timestamp: int, lastUpdated: string)
      returns (ok: bool)
      modifies this`totalsFile
      ensures ok == total.Some?
      ensures !ok ==> totalsFile == old(totalsFile)
      ensures ok ==>
        totalsFile == Json(Retain(Contents(old(totalsFile)), Sample(RaisedAmount(total.value), timestamp, Some(lastUpdated))))
    {
      if total.None? {
        return false;
      }
      var sample := Sample(RaisedAmount(total.value), timestamp, Some(lastUpdated));
      var updates := Contents(totalsFile);
      updates := updates + [sample];
      if |updates| > MaxUpdates {
        updates := updates[|updates| - MaxUpdates..];
      }
      totalsFile := Json(updates);
      ok := true;
    }

    /** Ingest a donations reply, stamping each new record with `recordedAt`;
        write the merged ledger when something is new or the ledger read back
        empty, and answer whether it was written. */
    method UpdateDonations(donations: Option<seq<Payload>>, recordedAt: string) returns (written: bool)
      modifies this`donationsFile, this`knownIds
      ensures !IsTruthyBatch(donations) ==> !written && unchanged(this)
      ensures IsTruthyBatch(donations) ==>
        var intake := Ingest(old(knownIds), donations.value, Some(recordedAt));
        var existing := Contents(old(donationsFile));
        && written == (intake.added != [] || existing == [])
        && knownIds == intake.known
        && donationsFile == if written then Json(Merged(existing, intake)) else old(donationsFile)
      ensures !written ==> knownIds == old(knownIds) && donationsFile == old(donationsFile)
      ensures old(Valid()) ==> Valid()
    {
      if !IsTruthyBatch(donations) {
        return false;
      }
      var existing := Contents(donationsFile);
      var added, known := CollectNew(knownIds, donations.value, Some(recordedAt));
      knownIds := known;
      IngestFreshIds(old(knownIds), donations.value, Some(recordedAt));
      if added != [] || existing == [] {
        donationsFile := Json(SortNewestFirst(existing + added));
        written := true;
        if old(Valid()) {
          MergeKeepsLedgerConsistent(existing, old(knownIds), donations.value, Some(recordedAt));
        }
      } else {
        written := false;
      }
    }

    /** One scheduled cycle: donations first, then the total; either reply
        failing fails the cycle, but donations saved before a failing total
        stay saved. The new records are stamped with `recordedAt` and the sample
        with `lastUpdated`, two separate clock readings. */
    method RunUpdate(donations: Option<seq<Payload>>, total: Option<TotalReply>, timestamp: int,
                     recordedAt: string, lastUpdated: string)
      returns (ok: bool, hasChanges: bool)
      modifies this`donationsFile, this`knownIds, this`totalsFile
      ensures ok == (IsTruthyBatch(donations) && total.Some?)
      ensures ok ==> hasChanges
      ensures !IsTruthyBatch(donations) ==> unchanged(this)
      ensures IsTruthyBatch(donations) ==>
        var intake := Ingest(old(knownIds), donations.value, Some(recordedAt));
        var existing := Contents(old(donationsFile));
        && knownIds == intake.known
        && donationsFile == if intake.added != [] || existing == [] then Json(Merged(existing, intake)) else old(donationsFile)
      ensures totalsFile == if ok
        then Json(Retain(Contents(old(totalsFile)), Sample(RaisedAmount(total.value), timestamp, Some(lastUpdated))))
        else old(totalsFile)
      ensures old(Valid()) ==> Valid()
    {
      hasChanges := false;
      if !IsTruthyBatch(donations) {
        return false, hasChanges;
      }
      var written := UpdateDonations(donations, recordedAt);
      if written {
        hasChanges := true;
      }
      if total.None? {
        return false, hasChanges;
      }
      var updated := UpdateTotalRaised(total, timestamp, lastUpdated);
      if updated {
        hasChanges := true;
      }
      ok := true;
    }
  }
}
