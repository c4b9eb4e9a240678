/** Donation records, the two persisted files, the newest-first ordering of the
    ledger and the consistency between the ledger and the index of known ids.
    Shared by the continuous monitor (collecter.py) and the single-shot
    collector (github_collector.py), which both keep the same ledger file. */
module Ledger {

  datatype Option<+T> = None | Some(value: T)

  /** A currency value as the upstream API reports it, kept as an opaque number. */
  type Amount = int

  /** One entry of the donations endpoint's reply; a field the payload lacks is None. */
  datatype Payload = Payload(
    id: Option<string>,
    amount: Option<Amount>,
    completedAt: Option<string>,
    donorName: Option<string>,
    donorComment: Option<string>,
    currency: Option<string>)

  /** One object of the ledger file. The engine writes every key; an object read
      back from disk may lack `id` or `completed_at`, which is None here. */
  datatype Record = Record(
    id: Option<string>,
    amount: Option<Amount>,
    completedAt: Option<string>,
    donorName: Option<string>,
    donorComment: Option<string>,
    currency: Option<string>,
    recordedAt: Option<string>)

  /** The reply of the total-raised endpoint; `totalRaised` is None when the key is missing. */
  datatype TotalReply = TotalReply(totalRaised: Option<Amount>)

  /** One sample of the total-raised series (`last_updated` only in the single-shot collector). */
  datatype Sample = Sample(amount: Amount, timestamp: int, lastUpdated: Option<string>)

  /** What a JSON file holds: no file, undecodable content, or a decoded list. */
  datatype Stored<T> = Absent | Corrupt | Json(items: seq<T>)

  /** The soft-failing read both collectors use: absent or undecodable reads as []. */
  function Contents<T>(f: Stored<T>): seq<T> {
    if f.Json? then f.items else []
  }

  /** The reply's total, or 0 when the reply carries none. */
  function RaisedAmount(t: TotalReply): Amount {
    match t.totalRaised
    case Some(a) => a
    case None => 0
  }

  /** A donations reply is truthy when it arrived and is a non-empty list. */
  predicate IsTruthyBatch(reply: Option<seq<Payload>>) {
    reply.Some? && reply.value != []
  }

  // ---------------------------------------------------------------------------
  // Ordering: Python compares `str` values code point by code point.

  /** a <= b in the lexicographic order of Python strings. */
  predicate LexLe(a: string, b: string) {
    a == [] || (b != [] && (a[0] < b[0] || (a[0] == b[0] && LexLe(a[1..], b[1..]))))
  }

  lemma {:induction false} LexLeReflexive(a: string)
    ensures LexLe(a, a)
  {
    if a != [] {
      LexLeReflexive(a[1..]);
    }
  }

  lemma {:induction false} LexLeTotal(a: string, b: string)
    ensures LexLe(a, b) || LexLe(b, a)
  {
    if a != [] && b != [] && a[0] == b[0] {
      LexLeTotal(a[1..], b[1..]);
    }
  }

  lemma {:induction false} LexLeTransitive(a: string, b: string, c: string)
    requires LexLe(a, b) && LexLe(b, c)
    ensures LexLe(a, c)
  {
    if a != [] && b != [] && c != [] && a[0] == b[0] && b[0] == c[0] {
      LexLeTransitive(a[1..], b[1..], c[1..]);
    }
  }

  lemma {:induction false} LexLeAntisymmetric(a: string, b: string)
    requires LexLe(a, b) && LexLe(b, a)
    ensures a == b
  {
    if a != [] && b != [] {
      LexLeAntisymmetric(a[1..], b[1..]);
      assert a == [a[0]] + a[1..] && b == [b[0]] + b[1..];
    }
  }

  /** Strings that agree up to some point compare as their remainders do. */
  lemma {:induction false} LexLeCommonPrefix(p: string, a: string, b: string)
    requires LexLe(a, b)
    ensures LexLe(p + a, p + b)
  {
    if p != [] {
      LexLeCommonPrefix(p[1..], a, b);
      assert (p + a)[1..] == p[1..] + a && (p + b)[1..] == p[1..] + b;
    } else {
      assert p + a == a && p + b == b;
    }
  }

  /** The sort key: a record's completion time, with a missing one sorting as "". */
  function Key(r: Record): string {
    match r.completedAt
    case Some(t) => t
    case None => ""
  }

  /** Non-increasing by completion time: the newest donation comes first. */
  predicate NewestFirst(s: seq<Record>) {
    forall i, j :: 0 <= i < j < |s| ==> LexLe(Key(s[j]), Key(s[i]))
  }

  /** The records of `s` whose key is `k`, in the order of `s`. */
  function WithKey(s: seq<Record>, k: string): seq<Record> {
    if s == [] then []
    else (if Key(s[0]) == k then [s[0]] else []) + WithKey(s[1..], k)
  }

  /** Puts `x` in front of the first record that is not newer than it. */
  function Insert(x: Record, s: seq<Record>): seq<Record> {
    if s == [] || LexLe(Key(s[0]), Key(x)) then [x] + s
    else [s[0]] + Insert(x, s[1..])
  }

  /** The newest-first re-sort of the ledger: an insertion sort that, like
      Python's stable sort, keeps records with equal keys in their original order. */
  function SortNewestFirst(s: seq<Record>): seq<Record> {
    if s == [] then [] else Insert(s[0], SortNewestFirst(s[1..]))
  }

  lemma {:induction false} InsertPermutes(x: Record, s: seq<Record>)
    ensures multiset(Insert(x, s)) == multiset{x} + multiset(s)
  {
    if s != [] && !LexLe(Key(s[0]), Key(x)) {
      InsertPermutes(x, s[1..]);
      assert s == [s[0]] + s[1..];
    }
  }

  lemma NewestFirstTail(s: seq<Record>)
    requires s != [] && NewestFirst(s)
    ensures NewestFirst(s[1..])
  {
  }

  lemma NewestFirstCons(x: Record, s: seq<Record>)
    requires NewestFirst(s)
    requires forall k :: 0 <= k < |s| ==> LexLe(Key(s[k]), Key(x))
    ensures NewestFirst([x] + s)
  {
  }

  lemma {:induction false} InsertNewestFirst(x: Record, s: seq<Record>)
    requires NewestFirst(s)
    ensures NewestFirst(Insert(x, s))
  {
    if s == [] {
    } else if LexLe(Key(s[0]), Key(x)) {
      forall k | 0 <= k < |s|
        ensures LexLe(Key(s[k]), Key(x))
      {
        if k > 0 {
          LexLeTransitive(Key(s[k]), Key(s[0]), Key(x));
        }
      }
      NewestFirstCons(x, s);
    } else {
      var tail := s[1..];
      var t := Insert(x, tail);
      NewestFirstTail(s);
      InsertNewestFirst(x, tail);
      InsertPermutes(x, tail);
      LexLeTotal(Key(s[0]), Key(x));
      forall k | 0 <= k < |t|
        ensures LexLe(Key(t[k]), Key(s[0]))
      {
        assert t[k] in multiset(t);
        if t[k] != x {
          assert t[k] in multiset(tail);
          var m :| 0 <= m < |tail| && tail[m] == t[k];
          assert s[m + 1] == t[k];
        }
      }
      NewestFirstCons(s[0], t);
    }
  }

  /** The sort puts the ledger newest first and keeps exactly the records it was given. */
  lemma {:induction false} SortNewestFirstCorrect(s: seq<Record>)
    ensures NewestFirst(SortNewestFirst(s))
    ensures multiset(SortNewestFirst(s)) == multiset(s)
  {
    if s != [] {
      SortNewestFirstCorrect(s[1..]);
      InsertNewestFirst(s[0], SortNewestFirst(s[1..]));
      InsertPermutes(s[0], SortNewestFirst(s[1..]));
      assert s == [s[0]] + s[1..];
    }
  }

  lemma WithKeyCons(x: Record, s: seq<Record>, k: string)
    ensures WithKey([x] + s, k) == (if Key(x) == k then [x] else []) + WithKey(s, k)
  {
  }

  lemma {:induction false} InsertStable(x: Record, s: seq<Record>, k: string)
    ensures WithKey(Insert(x, s), k) == WithKey([x] + s, k)
  {
    if s != [] && !LexLe(Key(s[0]), Key(x)) {
      var tail := s[1..];
      var sx := if Key(s[0]) == k then [s[0]] else [];
      var xs := if Key(x) == k then [x] else [];
      InsertStable(x, tail, k);
      LexLeReflexive(Key(x));
      assert Key(s[0]) != Key(x);
      assert sx + xs == xs + sx;
      calc {
        WithKey(Insert(x, s), k);
        { WithKeyCons(s[0], Insert(x, tail), k); }
        sx + WithKey(Insert(x, tail), k);
        { WithKeyCons(x, tail, k); }
        sx + (xs + WithKey(tail, k));
        xs + (sx + WithKey(tail, k));
        { WithKeyCons(s[0], tail, k); assert s == [s[0]] + tail; }
        xs + WithKey(s, k);
        { WithKeyCons(x, s, k); }
        WithKey([x] + s, k);
      }
    }
  }

  /** Stability: among records with the same timestamp the sort keeps the input order. */
  lemma {:induction false} SortNewestFirstStable(s: seq<Record>, k: string)
    ensures WithKey(SortNewestFirst(s), k) == WithKey(s, k)
  {
    if s != [] {
      SortNewestFirstStable(s[1..], k);
      InsertStable(s[0], SortNewestFirst(s[1..]), k);
      WithKeyCons(s[0], SortNewestFirst(s[1..]), k);
      WithKeyCons(s[0], s[1..], k);
      assert s == [s[0]] + s[1..];
    }
  }

  // ---------------------------------------------------------------------------
  // The ledger and the index of known ids.

  /** Every record carries an id. */
  predicate AllKeyed(s: seq<Record>) {
    forall r :: r in s ==> r.id.Some?
  }

  /** No two records share an id. */
  predicate DistinctIds(s: seq<Record>) {
    forall i, j :: 0 <= i < j < |s| ==> s[i].id != s[j].id
  }

  /** The ids of the stored records that have one. */
  function IdSet(s: seq<Record>): set<string> {
    set r | r in s && r.id.Some? :: r.id.value
  }

  /** The known-id index is exactly the set of ids of a duplicate-free ledger. */
  ghost predicate Consistent(ledger: seq<Record>, known: set<string>) {
    AllKeyed(ledger) && DistinctIds(ledger) && IdSet(ledger) == known
  }

  /** A ledger file from which loading yields a consistent index. */
  ghost predicate WellFormedLedgerFile(f: Stored<Record>) {
    f.Json? ==> AllKeyed(f.items) && DistinctIds(f.items)
  }

  lemma {:induction false} InsertKeepsIdsDistinct(x: Record, s: seq<Record>)
    requires DistinctIds(s)
    requires forall r :: r in s ==> r.id != x.id
    ensures DistinctIds(Insert(x, s))
  {
    if s != [] && !LexLe(Key(s[0]), Key(x)) {
      var tail := s[1..];
      var t := Insert(x, tail);
      InsertKeepsIdsDistinct(x, tail);
      InsertPermutes(x, tail);
      forall k | 0 <= k < |t|
        ensures t[k].id != s[0].id
      {
        assert t[k] in multiset(t);
        if t[k] != x {
          assert t[k] in multiset(tail);
          var m :| 0 <= m < |tail| && tail[m] == t[k];
          assert s[m + 1] == t[k];
        }
      }
      var u := [s[0]] + t;
      forall i, j | 0 <= i < j < |u|
        ensures u[i].id != u[j].id
      {
        assert u[j] == t[j - 1];
        if i > 0 {
          assert u[i] == t[i - 1];
        }
      }
    }
  }

  /** Sorting neither loses nor duplicates an id. */
  lemma {:induction false} SortKeepsIds(s: seq<Record>)
    ensures multiset(SortNewestFirst(s)) == multiset(s)
    ensures AllKeyed(s) ==> AllKeyed(SortNewestFirst(s))
    ensures IdSet(SortNewestFirst(s)) == IdSet(s)
    ensures DistinctIds(s) ==> DistinctIds(SortNewestFirst(s))
  {
    SortNewestFirstCorrect(s);
    var sorted := SortNewestFirst(s);
    assert forall r :: r in sorted <==> r in s by {
      forall r ensures r in sorted <==> r in s {
        assert r in sorted <==> r in multiset(sorted);
        assert r in s <==> r in multiset(s);
      }
    }
    if s != [] && DistinctIds(s) {
      var tail := s[1..];
      SortKeepsIds(tail);
      assert DistinctIds(tail) by {
        forall i, j | 0 <= i < j < |tail| ensures tail[i].id != tail[j].id {
          assert tail[i] == s[i + 1] && tail[j] == s[j + 1];
        }
      }
      forall r | r in SortNewestFirst(tail)
        ensures r.id != s[0].id
      {
        assert r in multiset(SortNewestFirst(tail));
        var m :| 0 <= m < |tail| && tail[m] == r;
        assert s[m + 1] == r;
      }
      InsertKeepsIdsDistinct(s[0], SortNewestFirst(tail));
    }
  }
}
