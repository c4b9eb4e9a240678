# Donation ledger ingestion, modelled in Dafny

This project models the incremental ingestion and deduplication engine of a
fundraising-data collector. Two Python programs share this engine. The
continuous monitor (`collecter.py`, class `DonationMonitor`) polls once per
interval. The single-shot collector (`github_collector.py`, class
`GitHubDonationCollector`) runs one cycle per scheduled trigger.

Each program keeps the set of donation ids it has already seen. It has a ledger
file of donation records and a file of total-raised samples. Given a batch of
raw donations from the upstream API, it appends each entry whose id is truthy
and not yet known. It adds that id to the known set, so a repeat later in the
same batch is skipped. It then re-sorts the whole ledger newest-first by
`completed_at` and reports whether anything changed.

Around this engine sit four rules:

- the monitor samples the total only when new donations arrived and the total
  moved;
- the collector keeps only the newest 100 samples;
- the monitor counts consecutive failing polls and pauses at five;
- the collector fails a cycle when either reply is missing.

Modules, one per component:

- `ledger.dfy` (`Ledger`) holds the records, the replies and the two files.
  Each file is `Absent`, `Corrupt` or a decoded `Json` list, and a read
  soft-fails to `[]`. The module also defines Python's code-point order on
  strings, the stable newest-first insertion sort, and the consistency between
  the ledger and the known-id index.
- `ingestion.dfy` (`Ingestion`) holds the intake of one batch. `Ingest` is the
  specification: it walks the batch front to back, threading the index.
  `FirstNewOccurrences` and `TruthyIds` are an independent reference for the
  same selection. `CollectNew` is the loop both programs run.
- `monitor.dfy` (`Monitor`) models `collecter.py`: the `DonationMonitor` class,
  the snapshot gate, the error counter and the drift-corrected sleep.
- `collector.dfy` (`Collector`) models `github_collector.py`: the
  `GitHubDonationCollector` class and the 100-sample retention rule.

Both files are fields of each class. Network replies, clock readings and the
exceptions a poll raises are parameters. On these points the model follows the
code exactly:

- The code resets the monitor's error counter only when the donations reply is
  truthy (`collecter.py:161-163`). A poll whose fetch failed without raising
  leaves the counter as it was.
- An entry with an empty-string id is skipped like a missing one, because the
  code tests `donation_id` for truthiness.
- The monitor's sample series has no cap (`collecter.py:61-74`). Only the
  single-shot collector keeps the newest 100.
- The single-shot collector also rewrites the ledger and answers true when the
  ledger read back empty, even if the batch held nothing new
  (`github_collector.py:119`).

## Model

| member | source | states |
|---|---|---|
| `Ledger.LexLeReflexive` | collecter.py:112 | Every timestamp string is ordered no later than itself under the code-point order Python uses for `str`. |
| `Ledger.LexLeTotal` | collecter.py:112 | Any two timestamp strings are comparable, so the sort key is a total preorder. |
| `Ledger.LexLeTransitive` | collecter.py:112 | The string order is transitive. |
| `Ledger.LexLeAntisymmetric` | collecter.py:112 | Two strings each no later than the other are equal. |
| `Ledger.SortNewestFirstCorrect` | collecter.py:112 | The re-sorted ledger is non-increasing by `completed_at` (missing keyed as `""`) and is a permutation of its input. |
| `Ledger.SortNewestFirstStable` | github_collector.py:121 | Records with equal timestamps keep their input order, as Python's stable `sort(reverse=True)` does. |
| `Ledger.SortKeepsIds` | github_collector.py:121 | Sorting keeps the multiset of records, the id set, "every record has an id" and "no two records share an id". |
| `Ingestion.CollectNew` | collecter.py:92-108 | The loop's new records and index equal `Ingest`. The records are the first new occurrences in batch order, and the index grows by exactly the batch's truthy ids. |
| `Ingestion.IngestSelectsFirstNewOccurrences` | collecter.py:93-108 | An entry is appended iff its id is truthy, not known, and not carried by an earlier entry of the batch. Afterwards the index is the old one plus every truthy id of the batch. |
| `Ingestion.IngestFreshIds` | github_collector.py:101-117 | Every new record has a truthy, previously unknown id and carries the given `recorded_at` stamp. The new records' ids are pairwise distinct, and the index grows by exactly those ids. |
| `Ingestion.KnownBatchChangesNothing` | collecter.py:93-110 | A batch whose truthy ids are all known adds no record and leaves the index unchanged. |
| `Ingestion.FreshIffUnknownId` | collecter.py:110-136 | New records are found (the method answers True) iff the batch holds a truthy id not yet known. |
| `Ingestion.IngestIdempotent` | collecter.py:95 | Feeding the same batch again after it was ingested adds nothing and changes no id. |
| `Ingestion.MergeKeepsEveryRecord` | collecter.py:106-112 | The written ledger is newest-first and is exactly the old ledger plus the new records as a multiset, so no old record is dropped or altered. Records with equal timestamps keep ledger-then-batch order. |
| `Ingestion.MergeKeepsLedgerConsistent` | collecter.py:95-116 | Suppose the ledger's ids are present, distinct and inside the index. Then the merged ledger and the extended index keep all three facts, and an exact index stays exact. |
| `Ingestion.NewerDonationComesFirst` | collecter.py:92-112 | Into an empty ledger, the batch `[b (2024-01-02), a (2024-01-01)]` yields the ledger `[b, a]` and the index `{a, b}`. |
| `Monitor.CountErrors` | collecter.py:149-187 | A truthy donations reply resets the counter. An exception adds one to the counter as the donations step left it: 0 after a truthy reply, otherwise the old count. Reaching 5 pauses the monitor and resets the counter to 0, so the counter stays in 0..4 between polls. |
| `Monitor.SleepTime` | collecter.py:190-191 | The sleep is at least 0, and at most the interval when both times are non-negative. It is 0 exactly when the pass overran. Pass plus sleep lasts exactly the interval unless the pass overran. |
| `Monitor.DonationMonitor.constructor` | collecter.py:8-17 | The index holds the ids of the stored ledger and `last_total` is unset. A well-formed ledger file gives a consistent monitor. |
| `Monitor.DonationMonitor.LoadExistingData` | collecter.py:19-28 | The index becomes exactly the ids of stored records that have an id. It is empty for an undecodable file and untouched when there is no file. |
| `Monitor.DonationMonitor.SaveTotalRaisedUpdate` | collecter.py:50-74 | Exactly one sample is appended at the end of the existing series and nothing is dropped. |
| `Monitor.DonationMonitor.SaveNewDonations` | collecter.py:78-136 | A falsy batch answers False and changes nothing. Otherwise the index is extended as `Ingest` says. The ledger is rewritten as the sorted merge iff something was new, and the answer says so. Consistency of index and ledger is preserved. |
| `Monitor.DonationMonitor.Check` | collecter.py:156-178 | A sample is appended iff the total reply is truthy, new donations were found, and `last_total` is unset or differs from the total. `last_total` changes exactly then. |
| `Monitor.DonationMonitor.Run` | collecter.py:149-194 | Each poll's tick follows `CountErrors` from the previous counter and sleeps `SleepTime(interval, elapsed)`. The counter stays below 5. The final files, index and `last_total` are `AfterPolls` of the starting ones: a clean pass acts as `Check`, a pass that raised before the donations step changes nothing, and one that raised after it keeps what `save_new_donations` saved. Consistency is preserved across all polls. |
| `Monitor.PollKeepsLedger` | collecter.py:158-178 | One pass never drops a stored record, a known id or a sample: the old series is a prefix of the new one. It keeps the index exact, and a set `last_total` stays the amount of the newest sample. |
| `Monitor.PollsKeepLedger` | collecter.py:152-178 | Any sequence of passes keeps the same three facts: the ledger, index and series only grow, the index stays exact, and `last_total` matches the newest sample. |
| `Collector.Retain` | github_collector.py:73-77 | The kept series has length `min(100, old + 1)` and ends with the new sample. Its other entries are the newest entries of the old series, so the oldest are the ones dropped. |
| `Collector.RetainDropsOldestOnly` | github_collector.py:75-77 | Starting within the cap, the series stays within 100. Below the cap nothing is dropped. At the cap exactly the oldest sample is dropped. |
| `Collector.GitHubDonationCollector.constructor` | github_collector.py:8-16 | The index holds the ids of the stored ledger. A well-formed ledger file gives a consistent collector. |
| `Collector.GitHubDonationCollector.LoadExistingData` | github_collector.py:18-27 | The index becomes exactly the ids of stored records that have an id. It is empty for an undecodable file and untouched when there is no file. |
| `Collector.GitHubDonationCollector.UpdateTotalRaised` | github_collector.py:49-84 | A falsy reply answers False and changes nothing. Otherwise the series becomes `Retain(old, sample)` and the answer is True. |
| `Collector.GitHubDonationCollector.UpdateDonations` | github_collector.py:86-142 | A falsy batch answers False and changes nothing. Otherwise the index is extended as `Ingest` says. The sorted merge is written, and True answered, iff something was new or the ledger read back empty. Consistency is preserved. |
| `Collector.GitHubDonationCollector.RunUpdate` | github_collector.py:144-185 | A falsy donations reply fails before anything changes. A falsy total reply fails but keeps the donations already saved. Both truthy: success, with `has_changes` true. New records carry the `recorded_at` reading and the sample its own `last_updated` reading. |

## Left out

- Fetching over HTTP (`get_total_raised`, `get_donations` in both files), with its timeouts and error printing. Each reply is an `Option` parameter, where `None` stands for a failed fetch. An empty total object is also `None`.
- Reading and writing JSON files, and `os.path.exists`. Each file is a field holding `Absent`, `Corrupt` or a decoded list. A file that decodes to something other than a list of objects is not modelled.
- Converting the total with `float`. Amounts are integers compared by equality.
- Wall-clock values (`time.time`, `datetime.utcnow`) are parameters. The per-record `recorded_at` readings of one call collapse into one value. Times in the sleep rule are integers.
- Console output: the emoji messages, the 10-second status line and its `last_check_time` field (`collecter.py:165-170`), timestamp reformatting and comment truncation.
- `main()` in both files, its connection checks and `exit` codes, `KeyboardInterrupt` handling, and all of `auto_update.py` (git and process plumbing).
- Python's comparison of a `None` timestamp with a string, which raises. A JSON `null` in `completed_at` is read as a missing key and sorts as `""`. A `null` id in a stored record is read as a missing id. Python would add `None` to the set, which never matters because only truthy ids are looked up.
- Upstream ids are strings. Numeric ids are not modelled.
- Monitor.DonationMonitor.Run: models exceptions only at two points. One point is before the donations step changed anything; the other is after it, before the total step changed anything. An exception midway through `save_new_donations`, after ids were added to the set but before the file was written, is not modelled. The infinite loop is modelled over the finite list of polls seen before the operator stops it. The sleeps and the 5-second pause are reported as ticks, not performed. Each poll's `elapsed` is a free parameter; in the code it is measured after the pause, so a pass that paused always overruns an interval shorter than 5 seconds and sleeps 0.
- Collector.GitHubDonationCollector.RunUpdate: the `except Exception` path, which answers False after an I/O fault, is not modelled.
- Collector.RetainDropsOldestOnly: states the one-in-one-out shape only for a series already within the cap. `Collector.Retain` states the general case.
