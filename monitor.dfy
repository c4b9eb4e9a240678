/** The continuous monitor of collecter.py: a `DonationMonitor` that keeps the
    known-id index and the last sampled total across polls, ingests each
    donations reply into the ledger file, samples the total only when new
    donations moved it, counts consecutive failing polls and sleeps the rest of
    each interval. The two files are fields of the monitor; the network replies,
    the clock and the exceptions a poll raises are parameters. */
module Monitor {
  import opened Ledger
  import opened Ingestion

  /** Consecutive failing polls after which the monitor pauses. */
  const MaxConsecutiveErrors: nat := 5

  /** Where, if anywhere, a poll raised an exception: before the donations step
      changed anything, or after it and before the total step changed anything. */
  datatype Fault = Clean | DuringDonations | DuringTotal

  /** One pass of the monitor loop: both replies, the clock reading for the
      sample, the time the pass took, and whether it raised. */
  datatype Poll = Poll(
    donations: Option<seq<Payload>>,
    total: Option<TotalReply>,
    timestamp: int,
    elapsed: int,
    fault: Fault)

  /** The error counter after a pass, whether the pass paused, and the sleep. */
  datatype Tick = Tick(errors: nat, paused: bool, sleep: int)

  datatype CounterStep = CounterStep(errors: nat, paused: bool)

  /** The consecutive-error counter across one pass (collecter.py:149-187): a
      truthy donations reply resets it, an exception increments it, and reaching
      the threshold pauses and resets it. */
  function CountErrors(errors: nat, replied: bool, fault: Fault): (r: CounterStep)
    ensures errors < MaxConsecutiveErrors ==> r.errors < MaxConsecutiveErrors
    ensures fault == Clean ==> !r.paused && r.errors == (if replied then 0 else errors)
    ensures fault != Clean && !r.paused ==> r.errors == (if fault == DuringTotal && replied then 0 else errors) + 1
    ensures r.paused <==> fault != Clean && (if fault == DuringTotal && replied then 0 else errors) + 1 >= MaxConsecutiveErrors
    ensures r.paused ==> r.errors == 0
  {
    var base := if replied then 0 else errors;
    match fault
    case Clean => CounterStep(base, false)
    case DuringDonations =>
      if errors + 1 >= MaxConsecutiveErrors then CounterStep(0, true) else CounterStep(errors + 1, false)
    case DuringTotal =>
      if base + 1 >= MaxConsecutiveErrors then CounterStep(0, true) else CounterStep(base + 1, false)
  }

  /** The drift-corrected sleep: what is left of the interval, never negative. */
  function SleepTime(interval: int, elapsed: int): (r: int)
    ensures r >= 0
    ensures 0 <= elapsed && 0 <= interval ==> r <= interval
    ensures elapsed + r == if elapsed < interval then interval else elapsed
    ensures r == 0 <==> interval <= elapsed
  {
    if interval - elapsed > 0 then interval - elapsed else 0
  }

  /** The snapshot gate (collecter.py:174-176): a truthy total reply, new donations
      in this pass, and a total that is unset or has moved. */
  predicate SnapshotDue(lastTotal: Option<Amount>, total: Option<TotalReply>, found: bool) {
    total.Some? && found && (lastTotal.None? || lastTotal.value != RaisedAmount(total.value))
  }

  /** Tick `k` records the sleep of poll `k` and the counter step from the tick before it. */
  predicate TickFollows(polls: seq<Poll>, ticks: seq<Tick>, interval: int, k: int)
    requires 0 <= k < |polls| && k < |ticks|
  {
    && ticks[k].errors < MaxConsecutiveErrors
    && ticks[k].sleep == SleepTime(interval, polls[k].elapsed)
    && CounterStep(ticks[k].errors, ticks[k].paused)
       == CountErrors(if k == 0 then 0 else ticks[k - 1].errors, IsTruthyBatch(polls[k].donations), polls[k].fault)
  }

  /** What a pass reads and writes: both files, the index and the last sampled total. */
  datatype MonitorState = MonitorState(
    donationsFile: Stored<Record>,
    totalsFile: Stored<Sample>,
    knownIds: set<string>,
    lastTotal: Option<Amount>)

  /** Whether the donations step of a pass found a new donation. */
  predicate Found(s: MonitorState, donations: Option<seq<Payload>>) {
    IsTruthyBatch(donations) && Ingest(s.knownIds, donations.value, None).added != []
  }

  /** The state after the donations step of a pass (collecter.py:161-162). */
  function AfterDonations(s: MonitorState, donations: Option<seq<Payload>>): MonitorState {
    if !IsTruthyBatch(donations) then s
    else
      var intake := Ingest(s.knownIds, donations.value, None);
      s.(knownIds := intake.known,
         donationsFile := if intake.added != [] then Json(Merged(Contents(s.donationsFile), intake)) else s.donationsFile)
  }

  /** The state after one pass. A pass that raised before the donations step
      changed nothing; one that raised after it keeps what that step saved; a
      clean pass also takes the sample when the snapshot gate is open. */
  function AfterPoll(s: MonitorState, p: Poll): MonitorState {
    match p.fault
    case DuringDonations => s
    case DuringTotal => AfterDonations(s, p.donations)
    case Clean =>
      var t := AfterDonations(s, p.donations);
      if SnapshotDue(s.lastTotal, p.total, Found(s, p.donations))
      then t.(totalsFile := Json(Contents(s.totalsFile) + [Sample(RaisedAmount(p.total.value), p.timestamp, None)]),
              lastTotal := Some(RaisedAmount(p.total.value)))
      else t
  }

  /** The state after the passes of `polls`, in order. */
  function AfterPolls(s: MonitorState, polls: seq<Poll>): MonitorState
    decreases |polls|
  {
    if polls == [] then s else AfterPoll(AfterPolls(s, polls[..|polls| - 1]), polls[|polls| - 1])
  }

  /** `after` keeps everything of `before`: every stored record, every known id
      and the whole sample series as a prefix. */
  ghost predicate Extends(before: MonitorState, after: MonitorState) {
    && multiset(Contents(before.donationsFile)) <= multiset(Contents(after.donationsFile))
    && before.knownIds <= after.knownIds
    && Contents(before.totalsFile) <= Contents(after.totalsFile)
  }

  /** A set `last_total` is the amount of the newest sample in the series. */
  ghost predicate LastTotalSampled(s: MonitorState) {
    s.lastTotal.Some? ==>
      var series := Contents(s.totalsFile);
      series != [] && series[|series| - 1].amount == s.lastTotal.value
  }

  /** The index holds exactly the ids of the ledger file, which has no duplicates. */
  ghost predicate StateConsistent(s: MonitorState) {
    Consistent(Contents(s.donationsFile), s.knownIds)
  }

  /** One pass only extends the files and the index, keeps the index exact, and
      keeps `last_total` equal to the newest sample. */
  lemma PollKeepsLedger(s: MonitorState, p: Poll)
    ensures Extends(s, AfterPoll(s, p))
    ensures StateConsistent(s) ==> StateConsistent(AfterPoll(s, p))
    ensures LastTotalSampled(s) ==> LastTotalSampled(AfterPoll(s, p))
  {
    var t := AfterDonations(s, p.donations);
    if IsTruthyBatch(p.donations) {
      var ledger := Contents(s.donationsFile);
      var intake := Ingest(s.knownIds, p.donations.value, None);
      IngestFreshIds(s.knownIds, p.donations.value, None);
      if intake.added != [] {
        MergeKeepsEveryRecord(ledger, intake, "");
        if StateConsistent(s) {
          MergeKeepsLedgerConsistent(ledger, s.knownIds, p.donations.value, None);
        }
      }
    }
    assert Extends(s, t);
    if p.fault == Clean && SnapshotDue(s.lastTotal, p.total, Found(s, p.donations)) {
      var series := Contents(s.totalsFile);
      assert series <= series + [Sample(RaisedAmount(p.total.value), p.timestamp, None)];
    }
  }

  /** Any run of passes only extends the files and the index, and keeps the
      index exact and `last_total` equal to the newest sample. */
  lemma {:induction false} PollsKeepLedger(s: MonitorState, polls: seq<Poll>)
    ensures Extends(s, AfterPolls(s, polls))
    ensures StateConsistent(s) ==> StateConsistent(AfterPolls(s, polls))
    ensures LastTotalSampled(s) ==> LastTotalSampled(AfterPolls(s, polls))
  {
    if polls != [] {
      var mid := AfterPolls(s, polls[..|polls| - 1]);
      PollsKeepLedger(s, polls[..|polls| - 1]);
      PollKeepsLedger(mid, polls[|polls| - 1]);
      var last := AfterPolls(s, polls);
      assert multiset(Contents(s.donationsFile)) <= multiset(Contents(mid.donationsFile)) <= multiset(Contents(last.donationsFile));
      assert Contents(s.totalsFile) <= Contents(mid.totalsFile) <= Contents(last.totalsFile);
    }
  }

  class DonationMonitor {
    var donationsFile: Stored<Record>
    var totalsFile: Stored<Sample>
    var knownIds: set<string>
    var lastTotal: Option<Amount>

    /** The index holds exactly the ids of the ledger file, which has no duplicates. */
    ghost predicate Valid()
      reads this
    {
      Consistent(Contents(donationsFile), knownIds)
    }

    /** The monitor's fields as one value. */
    function State(): MonitorState
      reads this
    {
      MonitorState(donationsFile, totalsFile, knownIds, lastTotal)
    }

    constructor (donations: Stored<Record>, totals: Stored<Sample>)
      ensures donationsFile == donations && totalsFile == totals && lastTotal == None
      ensures knownIds == (if donations.Json? then IdSet(donations.items) else {})
      ensures WellFormedLedgerFile(donations) ==> Valid()
    {
      donationsFile := donations;
      totalsFile := totals;
      knownIds := {};
      lastTotal := None;
      new;
      LoadExistingData();
    }

    /** Rebuild the index from the ledger file: unchanged when there is no file,
        empty when it cannot be decoded. */
    method LoadExistingData()
      modifies this`knownIds
      ensures knownIds == match donationsFile
        case Absent => old(knownIds)
        case Corrupt => {}
        case Json(s) => IdSet(s)
    {
      match donationsFile
      case Absent =>
      case Corrupt => knownIds := {};
      case Json(s) => knownIds := IdSet(s);
    }

    /** Append one sample to the series, dropping nothing. */
    method SaveTotalRaisedUpdate(reply: TotalReply, timestamp: int)
      modifies this`totalsFile
      ensures totalsFile == Json(Contents(old(totalsFile)) + [Sample(RaisedAmount(reply), timestamp, None)])
      ensures |Contents(totalsFile)| == |Contents(old(totalsFile))| + 1
    {
      var updates := Contents(totalsFile);
      updates := updates + [Sample(RaisedAmount(reply), timestamp, None)];
      totalsFile := Json(updates);
    }

    /** Ingest a donations reply; write the merged ledger and answer true exactly
        when it held a new donation. */
    method SaveNewDonations(donations: Option<seq<Payload>>) returns (found: bool)
      modifies this`donationsFile, this`knownIds
      ensures !IsTruthyBatch(donations) ==> !found && unchanged(this)
      ensures IsTruthyBatch(donations) ==>
        var intake := Ingest(old(knownIds), donations.value, None);
        && found == (intake.added != [])
        && knownIds == intake.known
        && donationsFile == if found then Json(Merged(Contents(old(donationsFile)), intake)) else old(donationsFile)
      ensures !found ==> knownIds == old(knownIds) && donationsFile == old(donationsFile)
      ensures old(Valid()) ==> Valid()
    {
      if !IsTruthyBatch(donations) {
        return false;
      }
      var existing := Contents(donationsFile);
      var added, known := CollectNew(knownIds, donations.value, None);
      knownIds := known;
      IngestFreshIds(old(knownIds), donations.value, None);
      if added != [] {
        donationsFile := Json(SortNewestFirst(existing + added));
        found := true;
        if old(Valid()) {
          MergeKeepsLedgerConsistent(existing, old(knownIds), donations.value, None);
        }
      } else {
        found := false;
      }
    }

    /** One pass of the monitor loop without an exception (collecter.py:158-178). */
    method Check(donations: Option<seq<Payload>>, total: Option<TotalReply>, timestamp: int)
      returns (found: bool)
      modifies this
      ensures found == (IsTruthyBatch(donations) && Ingest(old(knownIds), donations.value, None).added != [])
      ensures knownIds == if IsTruthyBatch(donations) then Ingest(old(knownIds), donations.value, None).known else old(knownIds)
      ensures donationsFile == if found then Json(Merged(Contents(old(donationsFile)), Ingest(old(knownIds), donations.value, None))) else old(donationsFile)
      ensures !SnapshotDue(old(lastTotal), total, found) ==> totalsFile == old(totalsFile) && lastTotal == old(lastTotal)
      ensures SnapshotDue(old(lastTotal), total, found) ==>
        && totalsFile == Json(Contents(old(totalsFile)) + [Sample(RaisedAmount(total.value), timestamp, None)])
        && lastTotal == Some(RaisedAmount(total.value))
      ensures old(Valid()) ==> Valid()
    {
      found := false;
      if IsTruthyBatch(donations) {
        found := SaveNewDonations(donations);
      }
      if total.Some? && found {
        var current := RaisedAmount(total.value);
        if lastTotal.None? || current != lastTotal.value {
          SaveTotalRaisedUpdate(total.value, timestamp);
          lastTotal := Some(current);
        }
      }
    }

    /** The monitor loop (collecter.py:149-194) over the polls that happen before
        the operator stops it. */
    method Run(polls: seq<Poll>, interval: int) returns (ticks: seq<Tick>)
      modifies this
      ensures |ticks| == |polls|
      ensures forall k :: 0 <= k < |polls| ==> TickFollows(polls, ticks, interval, k)
      ensures State() == AfterPolls(old(State()), polls)
      ensures old(Valid()) ==> Valid()
    {
      var errors: nat := 0;
      ticks := [];
      var i := 0;
      while i < |polls|
        invariant 0 <= i <= |polls|
        invariant |ticks| == i
        invariant errors < MaxConsecutiveErrors
        invariant errors == if i == 0 then 0 else ticks[i - 1].errors
        invariant forall k :: 0 <= k < i ==> TickFollows(polls, ticks, interval, k)
        invariant State() == AfterPolls(old(State()), polls[..i])
        invariant old(Valid()) ==> Valid()
      {
        var poll := polls[i];
        assert polls[..i + 1][..i] == polls[..i];
        var paused := false;
        var before := errors;
        match poll.fault {
          case Clean =>
            var found := Check(poll.donations, poll.total, poll.timestamp);
            if IsTruthyBatch(poll.donations) {
              errors := 0;
            }
          case DuringDonations =>
            errors := errors + 1;
          case DuringTotal =>
            if IsTruthyBatch(poll.donations) {
              var found := SaveNewDonations(poll.donations);
              errors := 0;
            }
            errors := errors + 1;
        }
        if poll.fault != Clean && errors >= MaxConsecutiveErrors {
          paused := true;
          errors := 0;
        }
        assert CounterStep(errors, paused) == CountErrors(before, IsTruthyBatch(poll.donations), poll.fault);
        ghost var previous := ticks;
        ticks := ticks + [Tick(errors, paused, SleepTime(interval, poll.elapsed))];
        forall k | 0 <= k <= i
          ensures TickFollows(polls, ticks, interval, k)
        {
          if k < i {
            assert TickFollows(polls, previous, interval, k);
            assert ticks[k] == previous[k] && (k > 0 ==> ticks[k - 1] == previous[k - 1]);
          } else {
            assert ticks[k] == Tick(errors, paused, SleepTime(interval, polls[k].elapsed));
            assert k > 0 ==> ticks[k - 1].errors == before;
          }
        }
        i := i + 1;
      }
      assert polls[..i] == polls;
    }
  }
}
