// What a leader's tenure guarantees of its ledger, and what a worker's copy of it is worth.

module Replication {
  import opened Membership
  import opened Options
  import opened Ledgers

  ghost predicate UniqueTasks(ledger: seq<TaskRecord>) {
    forall i, j :: 0 <= i < j < |ledger| ==> ledger[i].taskID != ledger[j].taskID
  }

  // ---------------------------------------------------------------------------
  // Losing records: in order, and pending ones last
  // ---------------------------------------------------------------------------

  predicate IsSubsequence(a: seq<TaskRecord>, b: seq<TaskRecord>)
    decreases |b|
  {
    a == [] || (b != [] && ((a[0] == b[0] && IsSubsequence(a[1..], b[1..])) || IsSubsequence(a, b[1..])))
  }

  lemma {:induction false} SubsequenceOfItself(a: seq<TaskRecord>)
    ensures IsSubsequence(a, a)
  {
    if a != [] { SubsequenceOfItself(a[1..]); }
  }

  lemma {:induction false} SubsequenceMembers(a: seq<TaskRecord>, b: seq<TaskRecord>)
    requires IsSubsequence(a, b)
    ensures |a| <= |b| && forall r <- a :: r in b
    decreases |b|
  {
    if a != [] {
      assert forall r <- a :: r == a[0] || r in a[1..];
      if a[0] == b[0] && IsSubsequence(a[1..], b[1..]) {
        SubsequenceMembers(a[1..], b[1..]);
      } else {
        SubsequenceMembers(a, b[1..]);
      }
    }
  }

  lemma {:induction false} SubsequenceTwice(a: seq<TaskRecord>, b: seq<TaskRecord>, c: seq<TaskRecord>)
    requires IsSubsequence(a, b) && IsSubsequence(b, c)
    ensures IsSubsequence(a, c)
    decreases |c|
  {
    if a != [] {
      if b[0] == c[0] && IsSubsequence(b[1..], c[1..]) {
        if a[0] == b[0] && IsSubsequence(a[1..], b[1..]) {
          SubsequenceTwice(a[1..], b[1..], c[1..]);
        } else {
          SubsequenceTwice(a, b[1..], c[1..]);
        }
      } else {
        SubsequenceTwice(a, b, c[1..]);
      }
    }
  }

  lemma {:induction false} SubsequenceUnique(a: seq<TaskRecord>, b: seq<TaskRecord>)
    requires IsSubsequence(a, b) && UniqueTasks(b)
    ensures UniqueTasks(a)
    decreases |b|
  {
    if a != [] {
      if a[0] == b[0] && IsSubsequence(a[1..], b[1..]) {
        SubsequenceUnique(a[1..], b[1..]);
        SubsequenceMembers(a[1..], b[1..]);
        forall j | 0 < j < |a| ensures a[0].taskID != a[j].taskID {
          assert a[j] in a[1..];
        }
        assert forall i, j :: 0 < i < j < |a| ==> a[i] == a[1..][i - 1] && a[j] == a[1..][j - 1];
      } else {
        SubsequenceUnique(a, b[1..]);
      }
    }
  }

  /** A pending record was dropped only when no finished one was left to drop. */
  ghost predicate SparesPending(kept: seq<TaskRecord>, ledger: seq<TaskRecord>) {
    (exists r <- ledger :: !IsFinished(r) && r !in kept) ==> forall r <- kept :: !IsFinished(r)
  }

  /** The pending records, in order. */
  function Unfinished(ledger: seq<TaskRecord>): (rest: seq<TaskRecord>)
    ensures |rest| <= |ledger|
  {
    if ledger == [] then []
    else Unfinished(ledger[..|ledger| - 1]) + if IsFinished(ledger[|ledger| - 1]) then [] else [ledger[|ledger| - 1]]
  }

  /** Only the finished records among the oldest `n` are gone. */
  ghost predicate ShedsFinished(kept: seq<TaskRecord>, ledger: seq<TaskRecord>, n: nat) {
    n <= |ledger| && kept == Unfinished(ledger[..n]) + ledger[n..]
  }

  /** Every finished record is gone, and the oldest `n` pending ones. */
  ghost predicate ShedsPending(kept: seq<TaskRecord>, ledger: seq<TaskRecord>, n: nat) {
    n <= |Unfinished(ledger)| && kept == Unfinished(ledger)[n..]
  }

  /** What is gone is the oldest finished records and, only once no finished one is left, the oldest pending ones. */
  ghost predicate ShedsOldest(kept: seq<TaskRecord>, ledger: seq<TaskRecord>) {
    (exists n: nat :: ShedsFinished(kept, ledger, n)) || (exists n: nat :: ShedsPending(kept, ledger, n))
  }

  lemma {:induction false} UnfinishedOfConcat(a: seq<TaskRecord>, b: seq<TaskRecord>)
    ensures Unfinished(a + b) == Unfinished(a) + Unfinished(b)
  {
    if b == [] {
      assert a + b == a;
    } else {
      var front, last := b[..|b| - 1], b[|b| - 1];
      UnfinishedOfConcat(a, front);
      assert (a + b)[..|a + b| - 1] == a + front;
    }
  }

  lemma {:induction false} UnfinishedTwice(a: seq<TaskRecord>)
    ensures Unfinished(Unfinished(a)) == Unfinished(a)
    ensures forall n: nat :: n <= |Unfinished(a)| ==> Unfinished(Unfinished(a)[..n]) == Unfinished(a)[..n]
  {
    forall r <- Unfinished(a) ensures !IsFinished(r) { UnfinishedMembers(a); }
    AllUnfinished(Unfinished(a));
    forall n: nat | n <= |Unfinished(a)| ensures Unfinished(Unfinished(a)[..n]) == Unfinished(a)[..n] {
      AllUnfinished(Unfinished(a)[..n]);
    }
  }

  lemma {:induction false} UnfinishedMembers(a: seq<TaskRecord>)
    ensures forall r :: r in Unfinished(a) <==> r in a && !IsFinished(r)
  {
    if a != [] {
      UnfinishedMembers(a[..|a| - 1]);
      assert a == a[..|a| - 1] + [a[|a| - 1]];
    }
  }

  lemma {:induction false} AllUnfinished(a: seq<TaskRecord>)
    requires forall r <- a :: !IsFinished(r)
    ensures Unfinished(a) == a
  {
    if a != [] {
      AllUnfinished(a[..|a| - 1]);
      assert a == a[..|a| - 1] + [a[|a| - 1]];
    }
  }

  lemma UnfinishedAfter(b: seq<TaskRecord>, c: seq<TaskRecord>, n: nat)
    requires ShedsFinished(b, c, n)
    ensures Unfinished(b) == Unfinished(c)
  {
    hide Unfinished;
    UnfinishedOfConcat(Unfinished(c[..n]), c[n..]);
    UnfinishedTwice(c[..n]);
    UnfinishedOfConcat(c[..n], c[n..]);
    assert c[..n] + c[n..] == c;
  }

  lemma FinishedTwice(a: seq<TaskRecord>, b: seq<TaskRecord>, c: seq<TaskRecord>, m: nat, n: nat)
    requires ShedsFinished(a, b, m) && ShedsFinished(b, c, n)
    ensures ShedsOldest(a, c)
  {
    hide Unfinished;
    var u := Unfinished(c[..n]);
    UnfinishedTwice(c[..n]);
    if m <= |u| {
      assert b[..m] == u[..m] && b[..m] + b[m..] == b;
      assert ShedsFinished(a, c, n);
    } else {
      var e := m - |u|;
      assert b[..m] == u + c[n..][..e] && b[m..] == c[n + e..];
      assert c[..n + e] == c[..n] + c[n..][..e];
      UnfinishedOfConcat(u, c[n..][..e]);
      UnfinishedOfConcat(c[..n], c[n..][..e]);
      assert ShedsFinished(a, c, n + e);
    }
  }

  lemma OldestTwice(a: seq<TaskRecord>, b: seq<TaskRecord>, c: seq<TaskRecord>)
    requires ShedsOldest(a, b) && ShedsOldest(b, c)
    ensures ShedsOldest(a, c)
  {
    hide Unfinished;
    if n: nat :| ShedsFinished(b, c, n) {
      UnfinishedAfter(b, c, n);
      if m: nat :| ShedsFinished(a, b, m) {
        FinishedTwice(a, b, c, m, n);
      } else {
        var m: nat :| ShedsPending(a, b, m);
        assert ShedsPending(a, c, m);
      }
    } else {
      var n: nat :| ShedsPending(b, c, n);
      UnfinishedMembers(c);
      AllUnfinished(b);
      if m: nat :| ShedsFinished(a, b, m) {
        AllUnfinished(b[..m]);
        assert a == b;
      } else {
        var m: nat :| ShedsPending(a, b, m);
        assert a == Unfinished(c)[n + m..];
        assert ShedsPending(a, c, n + m);
      }
    }
  }

  ghost predicate ShedsInOrder(kept: seq<TaskRecord>, ledger: seq<TaskRecord>) {
    IsSubsequence(kept, ledger) && SparesPending(kept, ledger) && ShedsOldest(kept, ledger)
  }

  lemma ShedsTwice(a: seq<TaskRecord>, b: seq<TaskRecord>, c: seq<TaskRecord>)
    requires ShedsInOrder(a, b) && ShedsInOrder(b, c)
    ensures ShedsInOrder(a, c)
  {
    hide ShedsOldest;
    SubsequenceTwice(a, b, c);
    SubsequenceMembers(a, b);
    OldestTwice(a, b, c);
  }

  lemma {:induction false} RemovalIsSubsequence(ledger: seq<TaskRecord>, v: nat)
    requires v < |ledger|
    ensures IsSubsequence(ledger[..v] + ledger[v + 1..], ledger)
  {
    var rest := ledger[..v] + ledger[v + 1..];
    if v == 0 {
      assert rest == ledger[1..];
      SubsequenceOfItself(rest);
      assert IsSubsequence(rest, ledger[1..]);
    } else {
      RemovalIsSubsequence(ledger[1..], v - 1);
      assert rest[1..] == ledger[1..][..v - 1] + ledger[1..][v..];
    }
  }

  lemma {:induction false} NothingFinishedBefore(ledger: seq<TaskRecord>)
    ensures var v := OldestFinished(ledger);
            forall i :: 0 <= i < (if v < 0 then |ledger| else v) ==> !IsFinished(ledger[i])
  {
    if ledger != [] && !IsFinished(ledger[0]) {
      NothingFinishedBefore(ledger[1..]);
      forall i | 0 <= i < (if OldestFinished(ledger) < 0 then |ledger| else OldestFinished(ledger))
        ensures !IsFinished(ledger[i]) {
        assert i > 0 ==> ledger[i] == ledger[1..][i - 1];
      }
    }
  }

  lemma EvictionSheds(ledger: seq<TaskRecord>)
    requires ledger != []
    ensures ShedsInOrder(Evicted(ledger), ledger)
  {
    hide IsSubsequence, Unfinished;
    var f := OldestFinished(ledger);
    NothingFinishedBefore(ledger);
    if f < 0 {
      RemovalIsSubsequence(ledger, 0);
      SubsequenceMembers(Evicted(ledger), ledger);
      AllUnfinished(ledger);
      assert Evicted(ledger) == ledger[1..];
      assert ShedsPending(Evicted(ledger), ledger, 1);
    } else {
      RemovalIsSubsequence(ledger, f);
      RemovalSpares(ledger, f);
      RemovalSheds(ledger, f);
    }
  }

  lemma RemovalSpares(ledger: seq<TaskRecord>, v: nat)
    requires v < |ledger| && IsFinished(ledger[v])
    ensures SparesPending(ledger[..v] + ledger[v + 1..], ledger)
  {
    var rest := ledger[..v] + ledger[v + 1..];
    forall r <- ledger | !IsFinished(r) ensures r in rest {
      var k :| 0 <= k < |ledger| && ledger[k] == r;
      assert r == rest[if k < v then k else k - 1];
    }
  }

  lemma RemovalSheds(ledger: seq<TaskRecord>, v: nat)
    requires v < |ledger| && IsFinished(ledger[v]) && forall i :: 0 <= i < v ==> !IsFinished(ledger[i])
    ensures ShedsFinished(ledger[..v] + ledger[v + 1..], ledger, v + 1)
  {
    hide Unfinished;
    AllUnfinished(ledger[..v]);
    OnlyRecord(ledger[v]);
    UnfinishedOfConcat(ledger[..v], [ledger[v]]);
    assert ledger[..v + 1] == ledger[..v] + [ledger[v]];
    assert ledger[..v] + [] == ledger[..v];
  }

  lemma {:induction false} MakingRoomSheds(ledger: seq<TaskRecord>, size: nat)
    requires size > 0
    ensures ShedsInOrder(MakeRoom(ledger, size), ledger)
    decreases |ledger|
  {
    hide Evicted, ShedsInOrder;
    if |ledger| < size {
      NothingShed(ledger);
    } else {
      EvictionSheds(ledger);
      MakingRoomSheds(Evicted(ledger), size);
      ShedsTwice(MakeRoom(ledger, size), Evicted(ledger), ledger);
    }
  }

  lemma NothingShed(ledger: seq<TaskRecord>)
    ensures ShedsInOrder(ledger, ledger)
  {
    SubsequenceOfItself(ledger);
    assert ledger[..0] == [] && ledger[0..] == ledger;
    assert ShedsFinished(ledger, ledger, 0);
  }

  /**
   * Appending keeps the ledger within its size and each task in it once. What it evicts is the oldest finished records
   * and, only once no finished one is left, the oldest pending ones.
   */
  lemma AppendIsBounded(l: LeaderState, r: TaskRecord)
    requires l.cfg.size > 0 && UniqueTasks(l.ledger) && IndexOf(l.ledger, r.taskID) < 0
    ensures var ledger' := Appended(l, r).ledger;
            && UniqueTasks(ledger') && 0 < |ledger'| <= l.cfg.size && ledger'[|ledger'| - 1] == Capped(r)
            && ShedsInOrder(ledger'[..|ledger'| - 1], l.ledger)
            && (|l.ledger| < l.cfg.size ==> ledger' == l.ledger + [Capped(r)])
  {
    hide ShedsInOrder;
    var room := MakeRoom(l.ledger, l.cfg.size);
    MakingRoomSheds(l.ledger, l.cfg.size);
    ShedsFacts(room, l.ledger);
    assert (room + [Capped(r)])[..|room|] == room;
    forall i | 0 <= i < |room| ensures room[i].taskID != r.taskID { assert room[i] in l.ledger; }
  }

  lemma ShedsFacts(kept: seq<TaskRecord>, ledger: seq<TaskRecord>)
    requires ShedsInOrder(kept, ledger)
    ensures |kept| <= |ledger| && forall r <- kept :: r in ledger
    ensures UniqueTasks(ledger) ==> UniqueTasks(kept)
  {
    SubsequenceMembers(kept, ledger);
    if UniqueTasks(ledger) { SubsequenceUnique(kept, ledger); }
  }

  // ---------------------------------------------------------------------------
  // Trimming a snapshot to the frame budget
  // ---------------------------------------------------------------------------

  lemma {:induction false} DroppingIsSubsequence(ledger: seq<TaskRecord>, drop: nat, any: bool)
    ensures IsSubsequence(WithoutFirst(ledger, drop, any), ledger)
    ensures !any ==> forall r <- ledger :: !IsFinished(r) ==> r in WithoutFirst(ledger, drop, any)
  {
    var kept := WithoutFirst(ledger, drop, any);
    if ledger == [] || drop == 0 {
      SubsequenceOfItself(ledger);
    } else if any || IsFinished(ledger[0]) {
      DroppingIsSubsequence(ledger[1..], drop - 1, any);
      assert kept == WithoutFirst(ledger[1..], drop - 1, any);
      assert IsSubsequence(kept, ledger[1..]);
    } else {
      DroppingIsSubsequence(ledger[1..], drop, any);
      assert kept[1..] == WithoutFirst(ledger[1..], drop, any);
    }
  }

  /** Dropping anything drops a prefix. */
  lemma {:induction false} DroppingAnything(ledger: seq<TaskRecord>, drop: nat)
    ensures WithoutFirst(ledger, drop, true) == ledger[if drop < |ledger| then drop else |ledger|..]
  {
    if ledger != [] && drop > 0 { DroppingAnything(ledger[1..], drop - 1); }
  }

  /** Dropping finished records drops the finished ones of a prefix: exactly `drop` of them if there are as many. */
  lemma {:induction false} DroppingFinished(ledger: seq<TaskRecord>, drop: nat) returns (n: nat)
    ensures ShedsFinished(WithoutFirst(ledger, drop, false), ledger, n)
    ensures drop <= CountFinished(ledger) ==> |WithoutFirst(ledger, drop, false)| == |ledger| - drop
  {
    hide Unfinished, CountFinished, WithoutFirst;
    DroppingIs(ledger, drop);
    if ledger == [] || drop == 0 {
      n := 0;
      AllUnfinished(ledger[..0]);
      assert ledger == [] ==> CountFinished(ledger) == 0;
    } else {
      var head, tail := ledger[0], ledger[1..];
      var d := if IsFinished(head) then drop - 1 else drop;
      var k := DroppingFinished(tail, d);
      n := k + 1;
      OnlyRecord(head);
      CountOfConcat([head], tail);
      assert [head] + tail == ledger;
      KeptOfTail(head, tail, WithoutFirst(tail, d, false), k);
    }
  }

  lemma DroppingIs(ledger: seq<TaskRecord>, drop: nat)
    ensures WithoutFirst(ledger, drop, false) ==
            if ledger == [] || drop == 0 then ledger
            else if IsFinished(ledger[0]) then WithoutFirst(ledger[1..], drop - 1, false)
            else [ledger[0]] + WithoutFirst(ledger[1..], drop, false)
  {
  }

  lemma KeptOfTail(head: TaskRecord, tail: seq<TaskRecord>, kept: seq<TaskRecord>, k: nat)
    requires ShedsFinished(kept, tail, k)
    ensures ShedsFinished(if IsFinished(head) then kept else [head] + kept, [head] + tail, k + 1)
  {
    hide Unfinished;
    OnlyRecord(head);
    UnfinishedOfConcat([head], tail[..k]);
    assert ([head] + tail)[..k + 1] == [head] + tail[..k] && ([head] + tail)[k + 1..] == tail[k..];
    assert [] + Unfinished(tail[..k]) == Unfinished(tail[..k]);
    assert [head] + (Unfinished(tail[..k]) + tail[k..]) == ([head] + Unfinished(tail[..k])) + tail[k..];
  }

  lemma OnlyRecord(r: TaskRecord)
    ensures Unfinished([r]) == if IsFinished(r) then [] else [r]
    ensures CountFinished([r]) == if IsFinished(r) then 1 else 0
  {
    assert [r][..0] == [];
  }

  lemma {:induction false} CountOfConcat(a: seq<TaskRecord>, b: seq<TaskRecord>)
    ensures CountFinished(a + b) == CountFinished(a) + CountFinished(b)
  {
    if b == [] {
      assert a + b == a;
    } else {
      var front, last := b[..|b| - 1], b[|b| - 1];
      CountOfConcat(a, front);
      assert (a + b)[..|a + b| - 1] == a + front;
    }
  }

  lemma {:induction false} RestIsUnfinished(ledger: seq<TaskRecord>)
    ensures CountFinished(ledger) + |Unfinished(ledger)| == |ledger|
  {
    if ledger != [] { RestIsUnfinished(ledger[..|ledger| - 1]); }
  }

  /** A round drops the older half (at least one) of the finished records or, if there are none, of everything. */
  lemma HalvingSheds(ledger: seq<TaskRecord>)
    ensures ShedsInOrder(Halved(ledger), ledger)
    ensures ledger != [] ==>
              var finished := |ledger| - |Unfinished(ledger)|;
              var of := if finished == 0 then |ledger| else finished;
              |Halved(ledger)| == |ledger| - if of == 1 then 1 else of / 2
  {
    var done := CountFinished(ledger);
    RestIsUnfinished(ledger);
    DroppingIsSubsequence(ledger, if done == 0 then HalfOf(|ledger|) else HalfOf(done), done == 0);
    SubsequenceMembers(Halved(ledger), ledger);
    if done == 0 {
      DroppingAnything(ledger, HalfOf(|ledger|));
      AllUnfinished(ledger);
      assert ShedsPending(Halved(ledger), ledger, if HalfOf(|ledger|) < |ledger| then HalfOf(|ledger|) else |ledger|);
    } else {
      var n := DroppingFinished(ledger, HalfOf(done));
    }
  }

  /**
   * A trimmed snapshot fits the budget, says the same of term, roster and version, and carries the ledger's records in
   * order but for the oldest finished ones and, only once no finished one is left, the oldest pending ones.
   */
  lemma {:induction false} TrimmingSheds(cfg: LeaderConfig, p: Snapshot)
    ensures Fits(cfg, p) ==> Trimmed(cfg, p) == Some(p)
    ensures Trimmed(cfg, p).Some? ==>
              var t := Trimmed(cfg, p).value;
              Fits(cfg, t) && t == p.(ledger := t.ledger) && ShedsInOrder(t.ledger, p.ledger)
    decreases |p.ledger|
  {
    hide Halved, ShedsInOrder, Fits;
    if Fits(cfg, p) {
      NothingShed(p.ledger);
    } else if p.ledger != [] {
      HalvedShrinks(p.ledger);
      TrimmingSheds(cfg, p.(ledger := Halved(p.ledger)));
      HalvingSheds(p.ledger);
      if Trimmed(cfg, p).Some? { ShedsTwice(Trimmed(cfg, p).value.ledger, Halved(p.ledger), p.ledger); }
    }
  }

  // ---------------------------------------------------------------------------
  // When trimming ends
  // ---------------------------------------------------------------------------

  /** The ledger after so many trimming rounds. */
  function HalvedTimes(ledger: seq<TaskRecord>, rounds: nat): seq<TaskRecord>
    decreases rounds
  {
    if rounds == 0 then ledger else HalvedTimes(Halved(ledger), rounds - 1)
  }

  /** The loop's guard fails after so many rounds. */
  ghost predicate FitsAfter(cfg: LeaderConfig, p: Snapshot, rounds: nat) {
    Fits(cfg, p.(ledger := HalvedTimes(p.ledger, rounds)))
  }

  lemma {:induction false} EmptyStaysEmpty(rounds: nat)
    ensures HalvedTimes([], rounds) == []
  {
    HalvedShrinks([]);
    if rounds > 0 { EmptyStaysEmpty(rounds - 1); }
  }

  lemma OneRoundMore(cfg: LeaderConfig, p: Snapshot, rounds: nat)
    ensures FitsAfter(cfg, p, rounds + 1) <==> FitsAfter(cfg, p.(ledger := Halved(p.ledger)), rounds)
  {
    hide Halved, Fits;
    var q := p.(ledger := Halved(p.ledger));
    assert q.(ledger := HalvedTimes(q.ledger, rounds)) == p.(ledger := HalvedTimes(p.ledger, rounds + 1));
  }

  /** For any size at all: the loop ends exactly if the snapshot fits after some number of rounds. */
  lemma {:induction false} TrimmingEndsExactlyWhen(cfg: LeaderConfig, p: Snapshot)
    ensures Trimmed(cfg, p).Some? <==> exists rounds: nat :: FitsAfter(cfg, p, rounds)
    decreases |p.ledger|
  {
    hide Halved, Fits;
    assert p.(ledger := p.ledger) == p;
    if Fits(cfg, p) {
      assert FitsAfter(cfg, p, 0);
    } else if p.ledger == [] {
      forall rounds: nat ensures !FitsAfter(cfg, p, rounds) { EmptyStaysEmpty(rounds); }
    } else {
      var q := p.(ledger := Halved(p.ledger));
      HalvedShrinks(p.ledger);
      TrimmingEndsExactlyWhen(cfg, q);
      if rounds: nat :| FitsAfter(cfg, p, rounds) {
        assert !FitsAfter(cfg, p, 0);
        OneRoundMore(cfg, p, rounds - 1);
        assert FitsAfter(cfg, q, rounds - 1);
      }
      if rounds: nat :| FitsAfter(cfg, q, rounds) {
        OneRoundMore(cfg, p, rounds);
      }
    }
  }

  /** A record more never makes the encoding shorter, as for any encoding of a list. */
  ghost predicate GrowsWithLedger(cfg: LeaderConfig) {
    forall p: Snapshot, a, b :: IsSubsequence(a, b) ==> cfg.bytes(p.(ledger := a)) <= cfg.bytes(p.(ledger := b))
  }

  /**
   * What a leader can check beforehand: whatever the size, trimming ends if this snapshot with an empty ledger fits;
   * and if records only add to the size, it ends exactly then.
   */
  lemma {:induction false} TrimmingEndsIfEmptyFits(cfg: LeaderConfig, p: Snapshot)
    ensures Fits(cfg, p.(ledger := [])) ==> Trimmed(cfg, p).Some?
    ensures GrowsWithLedger(cfg) ==> (Trimmed(cfg, p).Some? <==> Fits(cfg, p.(ledger := [])))
    decreases |p.ledger|
  {
    hide Halved;
    assert p.(ledger := p.ledger) == p;
    if Fits(cfg, p) {
      assert IsSubsequence([], p.ledger);
    } else if p.ledger != [] {
      HalvedShrinks(p.ledger);
      TrimmingEndsIfEmptyFits(cfg, p.(ledger := Halved(p.ledger)));
    }
  }

  /** Every worker named costs at least a byte, as in any encoding of a list. */
  ghost predicate CountsRoster(cfg: LeaderConfig) {
    forall p: Snapshot :: |p.workers| <= cfg.bytes(p)
  }

  /** A roster longer than the budget can never be sent, whatever the ledger and however much of it is trimmed. */
  lemma RosterOverBudget(cfg: LeaderConfig, p: Snapshot)
    requires CountsRoster(cfg) && |p.workers| > cfg.budget
    ensures Trimmed(cfg, p) == None && forall rounds: nat :: !FitsAfter(cfg, p, rounds)
  {
    TrimmingEndsExactlyWhen(cfg, p);
  }

  // ---------------------------------------------------------------------------
  // Edits: what happens to records that stay in the ledger
  // ---------------------------------------------------------------------------

  /** How often a result for the task has been reported upward. */
  function Reports(reported: seq<TaskResult>, id: TaskID): nat {
    if reported == [] then 0
    else Reports(reported[..|reported| - 1], id) + if reported[|reported| - 1].taskID == id then 1 else 0
  }

  /** Only records of `ids` move, none moves once finished, and finishing one is reported exactly once. */
  predicate EditsRecord(l: LeaderState, l': LeaderState, ids: set<TaskID>, i: nat)
    requires i < |l.ledger| == |l'.ledger|
  {
    var r, r' := l.ledger[i], l'.ledger[i];
    && r'.taskID == r.taskID
    && (IsFinished(r) || r.taskID !in ids ==> r' == r)
    && Reports(l'.reported, r.taskID) ==
       Reports(l.reported, r.taskID) + if !IsFinished(r) && IsFinished(r') then 1 else 0
  }

  predicate ReportsNothing(l: LeaderState, l': LeaderState, id: TaskID) {
    Reports(l'.reported, id) == Reports(l.reported, id)
  }

  ghost predicate Edits(l: LeaderState, l': LeaderState, ids: set<TaskID>) {
    && l'.cfg == l.cfg && l'.term == l.term && l'.attached == l.attached
    && l'.sent == l.sent && l'.sentWorkers == l.sentWorkers && l'.sentTerm == l.sentTerm
    && l.version <= l'.version && (l.version == l'.version ==> l'.ledger == l.ledger)
    && |l'.ledger| == |l.ledger|
    && (forall i :: 0 <= i < |l.ledger| ==> EditsRecord(l, l', ids, i))
    && (forall id :: IndexOf(l.ledger, id) < 0 ==> ReportsNothing(l, l', id))
  }

  lemma EditsTwice(a: LeaderState, b: LeaderState, c: LeaderState, ids: set<TaskID>, more: set<TaskID>)
    requires Edits(a, b, ids) && Edits(b, c, more)
    ensures Edits(a, c, ids + more)
  {
    hide Reports;
    forall i | 0 <= i < |a.ledger| ensures EditsRecord(a, c, ids + more, i) {
      assert EditsRecord(a, b, ids, i) && EditsRecord(b, c, more, i);
    }
    forall id | IndexOf(a.ledger, id) < 0 ensures ReportsNothing(a, c, id) {
      SameIDs(a, b, ids);
      assert ReportsNothing(a, b, id) && ReportsNothing(b, c, id);
    }
  }

  lemma SameIDs(l: LeaderState, l': LeaderState, ids: set<TaskID>)
    requires Edits(l, l', ids)
    ensures UniqueTasks(l.ledger) ==> UniqueTasks(l'.ledger)
    ensures forall id :: IndexOf(l.ledger, id) < 0 <==> IndexOf(l'.ledger, id) < 0
  {
    hide Reports;
    forall i | 0 <= i < |l.ledger| ensures l'.ledger[i].taskID == l.ledger[i].taskID {
      assert EditsRecord(l, l', ids, i);
    }
    forall id ensures IndexOf(l.ledger, id) < 0 <==> IndexOf(l'.ledger, id) < 0 {
      var i, j := IndexOf(l.ledger, id), IndexOf(l'.ledger, id);
      assert i >= 0 ==> l'.ledger[i] in l'.ledger;
      assert j >= 0 ==> l.ledger[j] in l.ledger;
    }
  }

  lemma NoEdits(l: LeaderState, l': LeaderState, ids: set<TaskID>)
    requires l'.cfg == l.cfg && l'.term == l.term && l'.attached == l.attached && l'.ledger == l.ledger
    requires l'.sent == l.sent && l'.sentWorkers == l.sentWorkers && l'.sentTerm == l.sentTerm
    requires l'.version == l.version && l'.reported == l.reported
    ensures Edits(l, l', ids)
  {
  }

  /** The record of `id`, if there is one, is pending. */
  ghost predicate IsPending(l: LeaderState, id: TaskID) {
    forall r <- l.ledger :: r.taskID == id ==> !IsFinished(r)
  }

  lemma WithAssigneeEdits(l: LeaderState, id: TaskID, w: NodeID)
    requires IsPending(l, id)
    ensures Edits(l, WithAssignee(l, id, w), {id})
  {
  }

  lemma CompletedEdits(l: LeaderState, res: TaskResult)
    requires UniqueTasks(l.ledger)
    ensures Edits(l, Completed(l, res), {res.taskID})
  {
    hide Closed;
    var l', i := Completed(l, res), IndexOf(l.ledger, res.taskID);
    if i >= 0 && !IsFinished(l.ledger[i]) {
      ClosedIs(l.ledger[i], res);
      assert l'.reported[..|l'.reported| - 1] == l.reported;
    } else {
      NoEdits(l, l', {res.taskID});
    }
  }

  lemma ClosedIs(r: TaskRecord, res: TaskResult)
    ensures Closed(r, res).taskID == r.taskID && IsFinished(Closed(r, res))
  {
  }

  lemma LaunchedEdits(l: LeaderState, t: Task)
    requires UniqueTasks(l.ledger)
    ensures Edits(l, Launched(l, t), {t.taskID})
  {
    hide Completed, Edits;
    if l.inflight >= MAX_INFLIGHT {
      CompletedEdits(l, TaskResult(t.taskID, l.cfg.self, false, BUSY));
    } else {
      NoEdits(l, Launched(l, t), {t.taskID});
    }
  }

  lemma {:induction false} AssignFromEdits(l: LeaderState, t: Task, workers: seq<NodeID>, k: nat)
    requires k <= |workers| && UniqueTasks(l.ledger) && IsPending(l, t.taskID)
    ensures Edits(l, AssignFrom(l, t, workers, k), {t.taskID})
    decreases |workers| - k
  {
    hide Edits, WithAssignee, Launched;
    var ids := {t.taskID};
    assert ids + ids == ids;
    if k == |workers| {
      WithAssigneeEdits(l, t.taskID, l.cfg.self);
      SameIDs(l, WithAssignee(l, t.taskID, l.cfg.self), ids);
      LaunchedEdits(WithAssignee(l, t.taskID, l.cfg.self), t);
      EditsTwice(l, WithAssignee(l, t.taskID, l.cfg.self), AssignFrom(l, t, workers, k), ids, ids);
    } else {
      var sent := l.(taskSends := l.taskSends + 1);
      var moved := sent.(next := (l.next + k + 1) % |workers|);
      NoEdits(l, sent, ids);
      NoEdits(l, moved, ids);
      if l.cfg.delivers(l.taskSends) {
        WithAssigneeEdits(moved, t.taskID, workers[(l.next + k) % |workers|]);
        EditsTwice(l, moved, AssignFrom(l, t, workers, k), ids, ids);
      } else {
        AssignFromEdits(sent, t, workers, k + 1);
        EditsTwice(l, sent, AssignFrom(l, t, workers, k), ids, ids);
      }
    }
  }

  function TaskIDs(ts: seq<Task>): set<TaskID> {
    set t <- ts :: t.taskID
  }

  ghost predicate AllPending(l: LeaderState, ts: seq<Task>) {
    && (forall i, j :: 0 <= i < j < |ts| ==> ts[i].taskID != ts[j].taskID)
    && (forall t <- ts :: IsPending(l, t.taskID))
  }

  lemma {:induction false} AssignAllEdits(l: LeaderState, ts: seq<Task>)
    requires UniqueTasks(l.ledger) && AllPending(l, ts)
    ensures Edits(l, AssignAll(l, ts), TaskIDs(ts))
  {
    hide Edits, AssignFrom, IdList;
    if ts == [] {
      NoEdits(l, l, TaskIDs(ts));
    } else {
      var front, t := ts[..|ts| - 1], ts[|ts| - 1];
      var l1 := AssignAll(l, front);
      AssignAllEdits(l, front);
      SameIDs(l, l1, TaskIDs(front));
      StillPending(l, l1, TaskIDs(front), t.taskID);
      AssignFromEdits(l1, t, IdList(l1.attached), 0);
      EditsTwice(l, l1, AssignAll(l, ts), TaskIDs(front), {t.taskID});
      assert TaskIDs(ts) == TaskIDs(front) + {t.taskID} by {
        assert ts == front + [t];
      }
    }
  }

  lemma StillPending(l: LeaderState, l': LeaderState, ids: set<TaskID>, id: TaskID)
    requires Edits(l, l', ids) && IsPending(l, id) && id !in ids
    ensures IsPending(l', id)
  {
    forall r <- l'.ledger | r.taskID == id ensures !IsFinished(r) {
      var i :| 0 <= i < |l'.ledger| && l'.ledger[i] == r;
      assert EditsRecord(l, l', ids, i);
    }
  }

  /** The task of a record that is to be issued again. */
  predicate Yields(r: TaskRecord, keep: TaskRecord -> bool, t: Task) {
    keep(r) && Reissuable(r) && t == Task(r.taskID, r.kind, r.body)
  }

  ghost predicate Wanted(ledger: seq<TaskRecord>, keep: TaskRecord -> bool, t: Task) {
    exists r <- ledger :: Yields(r, keep, t)
  }

  /** `ts` are exactly the pending, re-issuable records kept, each once. */
  ghost predicate Lists(ts: seq<Task>, ledger: seq<TaskRecord>, keep: TaskRecord -> bool) {
    && (forall i, j :: 0 <= i < j < |ts| ==> ts[i].taskID != ts[j].taskID)
    && (forall t :: t in ts <==> Wanted(ledger, keep, t))
  }

  lemma WantedOneMore(ledger: seq<TaskRecord>, r: TaskRecord, keep: TaskRecord -> bool, t: Task)
    ensures Wanted(ledger + [r], keep, t) <==> Wanted(ledger, keep, t) || Yields(r, keep, t)
  {
    assert r in ledger + [r];
  }

  lemma ListsOneMore(ts: seq<Task>, ledger: seq<TaskRecord>, r: TaskRecord, keep: TaskRecord -> bool)
    requires Lists(ts, ledger, keep) && UniqueTasks(ledger + [r])
    ensures Lists(ts + if keep(r) && Reissuable(r) then [Task(r.taskID, r.kind, r.body)] else [], ledger + [r], keep)
  {
    var all := ts + if keep(r) && Reissuable(r) then [Task(r.taskID, r.kind, r.body)] else [];
    forall t ensures t in all <==> Wanted(ledger + [r], keep, t) {
      WantedOneMore(ledger, r, keep, t);
    }
    forall i, j | 0 <= i < j < |all| ensures all[i].taskID != all[j].taskID {
      if j == |ts| {
        assert ts[i] in ts;
        var x :| x in ledger && Yields(x, keep, ts[i]);
        var k :| 0 <= k < |ledger| && ledger[k] == x;
        assert (ledger + [r])[k] == x && (ledger + [r])[|ledger|] == r;
      }
    }
  }

  lemma {:induction false} PendingTasksAre(ledger: seq<TaskRecord>, keep: TaskRecord -> bool)
    requires UniqueTasks(ledger)
    ensures Lists(PendingTasks(ledger, keep), ledger, keep)
  {
    if ledger == [] {
    } else {
      var front, r := ledger[..|ledger| - 1], ledger[|ledger| - 1];
      PendingTasksAre(front, keep);
      assert ledger == front + [r];
      ListsOneMore(PendingTasks(front, keep), front, r, keep);
    }
  }

  lemma PendingTasksPend(l: LeaderState, l': LeaderState, keep: TaskRecord -> bool)
    requires UniqueTasks(l.ledger) && l'.ledger == l.ledger
    ensures AllPending(l', PendingTasks(l.ledger, keep))
  {
    hide PendingTasks;
    PendingTasksAre(l.ledger, keep);
    var ts := PendingTasks(l.ledger, keep);
    forall t <- ts ensures IsPending(l', t.taskID) {
      var r :| r in l.ledger && Yields(r, keep, t);
    }
  }

  // ---------------------------------------------------------------------------
  // One tenure
  // ---------------------------------------------------------------------------

  ghost predicate LedgerInv(l: LeaderState) {
    l.cfg.size > 0 && UniqueTasks(l.ledger) && |l.ledger| <= l.cfg.size
  }

  /** Whether the ledger holds the task's record, finished. */
  predicate HoldsFinished(ledger: seq<TaskRecord>, id: TaskID) {
    IndexOf(ledger, id) >= 0 && IsFinished(ledger[IndexOf(ledger, id)])
  }

  /** A finished record can only be evicted, and a task is reported exactly when its record becomes finished. */
  predicate KeepsRecord(l: LeaderState, l': LeaderState, id: TaskID) {
    && (HoldsFinished(l.ledger, id) && IndexOf(l'.ledger, id) >= 0 ==>
          l'.ledger[IndexOf(l'.ledger, id)] == l.ledger[IndexOf(l.ledger, id)])
    && Reports(l'.reported, id) ==
       Reports(l.reported, id) + if HoldsFinished(l'.ledger, id) && !HoldsFinished(l.ledger, id) then 1 else 0
  }

  ghost predicate Tenure(l: LeaderState, l': LeaderState) {
    && l'.cfg == l.cfg && l.term <= l'.term
    && l.version <= l'.version && (l.version == l'.version ==> l'.ledger == l.ledger)
    && (forall id :: KeepsRecord(l, l', id))
  }

  lemma IndexIsUnique(ledger: seq<TaskRecord>, i: nat)
    requires UniqueTasks(ledger) && i < |ledger|
    ensures IndexOf(ledger, ledger[i].taskID) == i
  {
    assert ledger[i] in ledger;
  }

  lemma EditsKeep(l: LeaderState, l': LeaderState, ids: set<TaskID>, id: TaskID)
    requires Edits(l, l', ids) && UniqueTasks(l.ledger)
    ensures KeepsRecord(l, l', id) && (IndexOf(l'.ledger, id) == IndexOf(l.ledger, id))
  {
    hide Reports;
    SameIDs(l, l', ids);
    var i := IndexOf(l.ledger, id);
    if i >= 0 {
      assert EditsRecord(l, l', ids, i);
      IndexIsUnique(l'.ledger, i);
    } else {
      assert ReportsNothing(l, l', id);
    }
  }

  lemma EditsAreTenure(l: LeaderState, l': LeaderState, ids: set<TaskID>)
    requires Edits(l, l', ids) && LedgerInv(l)
    ensures LedgerInv(l') && Tenure(l, l')
  {
    hide KeepsRecord;
    SameIDs(l, l', ids);
    forall id ensures KeepsRecord(l, l', id) { EditsKeep(l, l', ids, id); }
  }

  lemma LedIsTenure(l: LeaderState, t: Task)
    requires LedgerInv(l)
    ensures LedgerInv(Led(l, t)) && Tenure(l, Led(l, t))
  {
    hide Appended, AssignFrom, ShedsInOrder, Edits, IdList, Reports, KeepsRecord;
    if IndexOf(l.ledger, t.taskID) >= 0 {
      NoEdits(l, l, {});
      EditsAreTenure(l, l, {});
    } else {
      var r := TaskRecord(t.taskID, Pending, t.kind, t.body, [], NO_NODE);
      var l1, l' := Appended(l, r), Led(l, t);
      AppendIsBounded(l, r);
      AppendedFacts(l, r);
      NewIsPending(l, l1, r);
      AssignFromEdits(l1, t, IdList(l1.attached), 0);
      EditsAreTenure(l1, l', {t.taskID});
      forall id ensures KeepsRecord(l, l', id) {
        AppendThenEdit(l, l1, l', r, id);
      }
    }
  }

  lemma AppendedFacts(l: LeaderState, r: TaskRecord)
    requires l.cfg.size > 0
    ensures var l' := Appended(l, r);
            && l' == l.(ledger := l'.ledger, version := l.version + 1, dirty := true)
  {
  }

  lemma NewIsPending(l: LeaderState, l1: LeaderState, r: TaskRecord)
    requires UniqueTasks(l1.ledger) && l1.ledger != [] && l1.ledger[|l1.ledger| - 1] == Capped(r) && !IsFinished(r)
    ensures IsPending(l1, r.taskID)
  {
  }

  lemma AppendThenEdit(l: LeaderState, l1: LeaderState, l': LeaderState, r: TaskRecord, id: TaskID)
    requires UniqueTasks(l.ledger) && UniqueTasks(l1.ledger) && l1.reported == l.reported && !IsFinished(r)
    requires IndexOf(l.ledger, r.taskID) < 0 && l1.ledger != [] && l1.ledger[|l1.ledger| - 1] == Capped(r)
    requires ShedsInOrder(l1.ledger[..|l1.ledger| - 1], l.ledger) && Edits(l1, l', {r.taskID})
    ensures KeepsRecord(l, l', id)
  {
    hide Reports, ShedsInOrder, Edits;
    EditsKeep(l1, l', {r.taskID}, id);
    AppendKeeps(l, l1, r, id);
  }

  /** Appending a pending record finishes nothing; every other record is either evicted or still what it was. */
  lemma AppendKeeps(l: LeaderState, l1: LeaderState, r: TaskRecord, id: TaskID)
    requires UniqueTasks(l.ledger) && UniqueTasks(l1.ledger) && l1.ledger != []
    requires l1.ledger[|l1.ledger| - 1] == Capped(r) && !IsFinished(r) && IndexOf(l.ledger, r.taskID) < 0
    requires ShedsInOrder(l1.ledger[..|l1.ledger| - 1], l.ledger)
    ensures var j := IndexOf(l1.ledger, id);
            && (HoldsFinished(l1.ledger, id) ==> HoldsFinished(l.ledger, id))
            && (HoldsFinished(l.ledger, id) && j >= 0 ==> l1.ledger[j] == l.ledger[IndexOf(l.ledger, id)])
  {
    hide ShedsInOrder;
    ShedsFacts(l1.ledger[..|l1.ledger| - 1], l.ledger);
    var j := IndexOf(l1.ledger, id);
    if 0 <= j < |l1.ledger| - 1 {
      assert l1.ledger[j] == l1.ledger[..|l1.ledger| - 1][j];
      assert l1.ledger[j] in l.ledger;
      var i :| 0 <= i < |l.ledger| && l.ledger[i] == l1.ledger[j];
      IndexIsUnique(l.ledger, i);
    }
  }

  lemma HandledIsTenure(l: LeaderState, e: LeadEvent)
    requires LedgerInv(l)
    ensures LedgerInv(Handled(l, e)) && Tenure(l, Handled(l, e))
  {
    hide Led, Completed, Departed, Reissued, Synced, Edits, LedgerInv, Tenure, IdList;
    HasRoom(l);
    match e
    case Submit(task) => LedIsTenure(l, task);
    case ResultIn(res) => CompletedIsTenure(l, l, res);
    case OwnResult(res) => CompletedIsTenure(l, l.(inflight := if l.inflight > 0 then l.inflight - 1 else 0), res);
    case WorkerGone(worker) =>
      ReassigningIsTenure(l, l.(attached := l.attached - {worker}), AssignedTo(worker));
      DepartedIs(l, worker);
    case Tick =>
      ReassigningIsTenure(l, l.(reissueDue := false), Anyone());
      ReissuedIs(l);
      UntouchedIsTenure(l, l);
    case Resync =>
      SyncedIs(l, IdList(l.attached));
      UntouchedIsTenure(l, Synced(l, IdList(l.attached)));
    case _ => UntouchedIsTenure(l, Handled(l, e));
  }

  lemma DepartedIs(l: LeaderState, w: NodeID)
    ensures Departed(l, w) == AssignAll(l.(attached := l.attached - {w}), PendingTasks(l.ledger, AssignedTo(w)))
  {
  }

  lemma ReissuedIs(l: LeaderState)
    ensures Reissued(l) ==
            if l.reissueDue then AssignAll(l.(reissueDue := false), PendingTasks(l.ledger, Anyone())) else l
  {
  }

  lemma SyncedIs(l: LeaderState, workers: seq<NodeID>)
    ensures Synced(l, workers) == l.(sent := Synced(l, workers).sent)
    ensures Synced(l, workers).sent ==
            l.sent + if workers == [] || Payload(l, workers).None? then [] else [Payload(l, workers).value]
  {
    assert l.sent + [] == l.sent;
  }

  /** Changes to anything but the ledger, its version and the reports. */
  lemma UntouchedIsTenure(l: LeaderState, l': LeaderState)
    requires LedgerInv(l) && l'.cfg == l.cfg && l.term <= l'.term
    requires l'.ledger == l.ledger && l'.version == l.version && l'.reported == l.reported
    ensures LedgerInv(l') && Tenure(l, l')
  {
  }

  lemma CompletedIsTenure(l: LeaderState, l1: LeaderState, res: TaskResult)
    requires LedgerInv(l) && l1 == l.(inflight := l1.inflight)
    ensures LedgerInv(Completed(l1, res)) && Tenure(l, Completed(l1, res))
  {
    hide Completed, Edits, Reports;
    CompletedEdits(l1, res);
    EditsAreTenure(l1, Completed(l1, res), {res.taskID});
    SameStart(l, l1, Completed(l1, res));
  }

  lemma SameStart(l: LeaderState, l1: LeaderState, l': LeaderState)
    requires l1.cfg == l.cfg && l1.term == l.term && l1.ledger == l.ledger && l1.version == l.version &&
             l1.reported == l.reported
    requires Tenure(l1, l')
    ensures Tenure(l, l')
  {
    hide Reports, IndexOf;
    forall id ensures KeepsRecord(l, l', id) { assert KeepsRecord(l1, l', id); }
  }

  lemma ReassigningIsTenure(l: LeaderState, l1: LeaderState, keep: TaskRecord -> bool)
    requires LedgerInv(l) && l1 == l.(attached := l1.attached, reissueDue := l1.reissueDue)
    ensures var l' := AssignAll(l1, PendingTasks(l.ledger, keep));
            LedgerInv(l') && Tenure(l, l')
  {
    hide Edits, AssignAll, PendingTasks, Tenure;
    var ts := PendingTasks(l.ledger, keep);
    PendingTasksPend(l, l1, keep);
    AssignAllEdits(l1, ts);
    EditsAreTenure(l1, AssignAll(l1, ts), TaskIDs(ts));
    SameStart(l, l1, AssignAll(l1, ts));
  }

  lemma FlushIsTenure(l: LeaderState)
    requires LedgerInv(l)
    ensures LedgerInv(Flushed(l)) && Tenure(l, Flushed(l))
  {
    hide Flushed, LedgerInv, Tenure, IdList;
    HasRoom(l);
    FlushedIs(l);
    BumpIsTenure(l, Flushed(l));
  }

  lemma FlushedIs(l: LeaderState)
    ensures var l' := Flushed(l);
            && l' == l.(version := l'.version, dirty := l'.dirty, sentWorkers := l'.sentWorkers,
                        sentTerm := l'.sentTerm, sent := l'.sent)
            && l'.version == l.version + if IdList(l.attached) != l.sentWorkers then 1 else 0
  {
    hide Trimmed, IdList;
  }

  lemma BumpIsTenure(l: LeaderState, l': LeaderState)
    requires LedgerInv(l) && l'.cfg == l.cfg && l'.term == l.term && l'.ledger == l.ledger && l'.reported == l.reported
    requires l.version <= l'.version
    ensures LedgerInv(l') && Tenure(l, l')
  {
  }

  /**
   * One event of a tenure keeps the ledger bounded and each task in it once; a finished record is never changed, only
   * evicted; a task is reported exactly when its record becomes finished; and the ledger moves only if its version
   * does.
   */
  lemma StepKeepsTenure(l: LeaderState, e: LeadEvent)
    requires LedgerInv(l)
    ensures LedgerInv(LeadStep(l, e)) && Tenure(l, LeadStep(l, e))
  {
    hide Handled, Flushed, LedgerInv, IdList;
    HasRoom(l);
    HandledIsTenure(l, e);
    var h := Handled(l, e);
    HasRoom(h);
    FlushIsTenure(h);
    FlushedIs(h);
    SameEnd(l, h, Flushed(h));
  }

  lemma HasRoom(l: LeaderState)
    requires LedgerInv(l)
    ensures l.cfg.size > 0
  {
  }

  lemma SameEnd(l: LeaderState, h: LeaderState, l': LeaderState)
    requires Tenure(l, h)
    requires l'.cfg == h.cfg && l'.term == h.term && l'.ledger == h.ledger && l'.reported == h.reported &&
             h.version <= l'.version
    ensures Tenure(l, l')
  {
    hide Reports, IndexOf;
    forall id ensures KeepsRecord(l, l', id) { assert KeepsRecord(l, h, id); }
  }

  /**
   * A tenure: a promotion from a sound ledger, which every copy of an earlier tenure's is (`Failover.CopyIsSound`), and
   * which it owes everybody; its first flush; and then event after event.
   */
  ghost predicate IsTenure(promoted: LeaderState, states: seq<LeaderState>, events: seq<LeadEvent>) {
    && |states| == |events| + 1
    && LedgerInv(promoted) && promoted.sent == [] && promoted.dirty && states[0] == Flushed(promoted)
    && forall i :: 0 <= i < |events| ==> TenureStep(states[i], events[i], states[i + 1])
  }

  ghost predicate TenureStep(l: LeaderState, e: LeadEvent, l': LeaderState) {
    l.cfg.size > 0 && l' == LeadStep(l, e)
  }

  lemma {:induction false} TenureKeepsLedger(promoted: LeaderState, states: seq<LeaderState>, events: seq<LeadEvent>,
                                             k: nat)
    requires IsTenure(promoted, states, events) && k < |states|
    ensures LedgerInv(states[k]) && (k > 0 ==> Tenure(states[k - 1], states[k]))
  {
    hide LeadStep, LedgerInv, Tenure, Flushed;
    FlushIsTenure(promoted);
    if k > 0 {
      TenureKeepsLedger(promoted, states, events, k - 1);
      assert TenureStep(states[k - 1], events[k - 1], states[k]);
      StepKeepsTenure(states[k - 1], events[k - 1]);
    }
  }

  /** The first result wins: while a finished task stays in the leader's ledger its record never changes. */
  lemma {:induction false} FirstResultWins(promoted: LeaderState, states: seq<LeaderState>, events: seq<LeadEvent>,
                                           i: nat, j: nat, id: TaskID)
    requires IsTenure(promoted, states, events) && i <= j < |states|
    requires HoldsFinished(states[i].ledger, id) && forall k :: i < k <= j ==> IndexOf(states[k].ledger, id) >= 0
    ensures HoldsFinished(states[j].ledger, id)
    ensures states[j].ledger[IndexOf(states[j].ledger, id)] == states[i].ledger[IndexOf(states[i].ledger, id)]
  {
    hide Reports, TenureStep, LedgerInv;
    if i < j {
      FirstResultWins(promoted, states, events, i, j - 1, id);
      TenureKeepsLedger(promoted, states, events, j);
      assert KeepsRecord(states[j - 1], states[j], id);
    }
  }

  /**
   * Exactly once: over any stretch in which a task stays in the ledger, whether or not it was there before, it is
   * reported once if its record becomes finished in that stretch, and otherwise not at all.
   */
  lemma {:induction false} ReportedExactlyOnce(promoted: LeaderState, states: seq<LeaderState>, events: seq<LeadEvent>,
                                               i: nat, j: nat, id: TaskID)
    requires IsTenure(promoted, states, events) && i <= j < |states|
    requires forall k :: i < k <= j ==> IndexOf(states[k].ledger, id) >= 0
    ensures Reports(states[j].reported, id) == Reports(states[i].reported, id) +
            if HoldsFinished(states[j].ledger, id) && !HoldsFinished(states[i].ledger, id) then 1 else 0
  {
    hide Reports, TenureStep, LedgerInv;
    if i < j {
      ReportedExactlyOnce(promoted, states, events, i, j - 1, id);
      if HoldsFinished(states[i].ledger, id) { FirstResultWins(promoted, states, events, i, j - 1, id); }
      TenureKeepsLedger(promoted, states, events, j);
      assert KeepsRecord(states[j - 1], states[j], id);
    }
  }

  // ---------------------------------------------------------------------------
  // Snapshots: a version names one content
  // ---------------------------------------------------------------------------

  predicate SameKey(a: Snapshot, b: Snapshot) {
    a.term == b.term && a.version == b.version
  }

  /** What was sent under the current version is what would be sent now, but for the term. */
  ghost predicate SaysCurrent(l: LeaderState, s: Snapshot) {
    && s.term <= l.term && s.version <= l.version
    && (s.version == l.version ==> Payload(l.(term := s.term), IdList(l.attached)) == Some(s))
  }

  ghost predicate SyncInv(l: LeaderState) {
    && l.sentWorkers == IdList(l.attached)
    && (forall s <- l.sent :: SaysCurrent(l, s))
    && (forall s, t | s in l.sent && t in l.sent :: SameKey(s, t) ==> s == t)
  }

  /** One more snapshot of the state as it is. */
  ghost predicate Resent(l: LeaderState, h: LeaderState) {
    var p := Payload(l, IdList(l.attached));
    p.Some? && h == l.(sent := l.sent + [p.value])
  }

  /** What handling an event does to the replication state, before the flush. */
  ghost predicate Handles(l: LeaderState, h: LeaderState) {
    && h.cfg == l.cfg && l.term <= h.term && l.version <= h.version && (h.version == l.version ==> h.ledger == l.ledger)
    && h.sentWorkers == l.sentWorkers
    && (h.sent == l.sent || Resent(l, h))
  }

  lemma EditsHandle(l: LeaderState, l1: LeaderState, h: LeaderState, ids: set<TaskID>)
    requires l1.cfg == l.cfg && l1.term == l.term && l.version <= l1.version &&
             (l1.version == l.version ==> l1.ledger == l.ledger)
    requires l1.sentWorkers == l.sentWorkers && l1.sent == l.sent && Edits(l1, h, ids)
    ensures Handles(l, h)
  {
  }

  lemma HandledHandles(l: LeaderState, e: LeadEvent)
    requires LedgerInv(l)
    ensures Handles(l, Handled(l, e))
  {
    hide Completed, AssignAll, Edits, PendingTasks, Appended, IdList, Payload, AssignFrom;
    match e
    case Submit(task) =>
      var r := TaskRecord(task.taskID, Pending, task.kind, task.body, [], NO_NODE);
      if IndexOf(l.ledger, task.taskID) < 0 {
        var l1 := Appended(l, r);
        AppendIsBounded(l, r);
        AppendedFacts(l, r);
        NewIsPending(l, l1, r);
        AssignFromEdits(l1, task, IdList(l1.attached), 0);
        EditsHandle(l, l1, Handled(l, e), {task.taskID});
      }
    case ResultIn(res) =>
      CompletedEdits(l, res);
      EditsHandle(l, l, Handled(l, e), {res.taskID});
    case OwnResult(res) =>
      var l1 := l.(inflight := if l.inflight > 0 then l.inflight - 1 else 0);
      CompletedEdits(l1, res);
      EditsHandle(l, l1, Handled(l, e), {res.taskID});
    case WorkerGone(worker) =>
      var l1, ts := l.(attached := l.attached - {worker}), PendingTasks(l.ledger, AssignedTo(worker));
      PendingTasksPend(l, l1, AssignedTo(worker));
      AssignAllEdits(l1, ts);
      EditsHandle(l, l1, Handled(l, e), TaskIDs(ts));
    case Tick =>
      var l1, ts := l.(reissueDue := false), PendingTasks(l.ledger, Anyone());
      PendingTasksPend(l, l1, Anyone());
      AssignAllEdits(l1, ts);
      if l.reissueDue { EditsHandle(l, l1, Handled(l, e), TaskIDs(ts)); }
    case Resync => SyncedIs(l, IdList(l.attached));
    case _ =>
  }

  lemma PayloadIs(l: LeaderState, workers: seq<NodeID>)
    ensures var p := Payload(l, workers);
            p.Some? ==> p.value.term == l.term && p.value.workers == workers && p.value.version == l.version
  {
    TrimmingSheds(l.cfg, Snapshot(l.term, workers, l.ledger, l.version));
  }

  /** The payload is a function of configuration, term, roster, ledger and version. */
  lemma SamePayload(a: LeaderState, b: LeaderState, workers: seq<NodeID>)
    requires b.cfg == a.cfg && b.term == a.term && b.ledger == a.ledger && b.version == a.version
    ensures Payload(a, workers) == Payload(b, workers)
  {
  }

  lemma ResentIsCurrent(l: LeaderState, l': LeaderState)
    requires SyncInv(l) && Resent(l, l')
    ensures SyncInv(l')
  {
    hide Payload, IdList;
    var s := Payload(l, IdList(l.attached)).value;
    PayloadIs(l, IdList(l.attached));
    assert l.(term := s.term) == l;
    forall t <- l'.sent ensures SaysCurrent(l', t) && (SameKey(s, t) ==> s == t) {
      assert t in l.sent ==> SaysCurrent(l, t);
      SamePayload(l.(term := t.term), l'.(term := t.term), IdList(l.attached));
    }
  }

  lemma FlushKeepsSync(l: LeaderState, h: LeaderState)
    requires SyncInv(l) && Handles(l, h) && h.sent == l.sent
    ensures SyncInv(Flushed(h))
  {
    hide Payload, IdList, Synced, Flushed;
    var workers := IdList(h.attached);
    var l' := Flushed(h);
    FlushSends(h);
    var q := l'.(sent := l.sent);
    forall s <- l.sent ensures SaysCurrent(q, s) {
      assert SaysCurrent(l, s);
      if s.version == q.version {
        SamePayload(l.(term := s.term), q.(term := s.term), workers);
      }
    }
    if l'.sent != l.sent {
      ResentIsCurrent(q, l');
    }
  }

  /** A flush sends either nothing or the state it leaves behind. */
  lemma FlushSends(h: LeaderState)
    ensures var l' := Flushed(h);
            && l' == h.(version := l'.version, dirty := l'.dirty, sentWorkers := IdList(h.attached),
                        sentTerm := l'.sentTerm, sent := l'.sent)
            && l'.version == h.version + (if IdList(h.attached) != h.sentWorkers then 1 else 0)
            && (l'.sent == h.sent || Resent(l'.(sent := h.sent), l'))
  {
    hide Payload, IdList;
    var l' := Flushed(h);
    if OutOfDate(Rostered(h)) {
      SamePayload(MarkedSent(Rostered(h)), l'.(sent := h.sent), IdList(h.attached));
    }
  }

  lemma StepKeepsSync(l: LeaderState, e: LeadEvent)
    requires LedgerInv(l) && SyncInv(l)
    ensures SyncInv(LeadStep(l, e))
  {
    hide Handled, Flushed, SyncInv, IdList, Payload;
    HasRoom(l);
    HandledHandles(l, e);
    var h := Handled(l, e);
    if h.sent == l.sent {
      FlushKeepsSync(l, h);
    } else {
      ResentIsCurrent(l, h);
      HandlesItself(h);
      FlushKeepsSync(h, h);
    }
  }

  lemma HandlesItself(l: LeaderState)
    ensures Handles(l, l)
  {
  }

  /** The first flush of a tenure: nothing has been sent in it yet. */
  lemma FirstFlush(l: LeaderState)
    requires l.sent == []
    ensures SyncInv(Flushed(l))
  {
    hide Payload, IdList, Flushed;
    FlushSends(l);
    if Flushed(l).sent != [] { ResentIsCurrent(Flushed(l).(sent := []), Flushed(l)); }
  }

  // ---------------------------------------------------------------------------
  // The worker's copy
  // ---------------------------------------------------------------------------

  /**
   * A worker's replica. `held` is cleared by a new attachment; then the next snapshot is taken whatever its version.
   */
  datatype CopyState = CopyState(size: nat, held: bool, term: nat, version: nat, ledger: seq<TaskRecord>)

  predicate NewerKey(term: nat, version: nat, heldTerm: nat, heldVersion: nat) {
    if term != heldTerm then term > heldTerm else version > heldVersion
  }

  predicate Accepts(c: CopyState, s: Snapshot) {
    !c.held || NewerKey(s.term, s.version, c.term, c.version)
  }

  /** A leader configured with a larger ledger: the newest records are kept. */
  function Newest(ledger: seq<TaskRecord>, size: nat): seq<TaskRecord> {
    if |ledger| > size then ledger[|ledger| - size..] else ledger
  }

  function Received(c: CopyState, s: Snapshot): CopyState {
    if Accepts(c, s) then CopyState(c.size, true, s.term, s.version, Newest(s.ledger, c.size)) else c
  }

  function ReceivedAll(c: CopyState, ss: seq<Snapshot>): CopyState {
    if ss == [] then c else Received(ReceivedAll(c, ss[..|ss| - 1]), ss[|ss| - 1])
  }

  class Replica {
    const self: NodeID
    const size: nat
    var leading: bool
    var leader: NodeID
    var nodeTerm: nat
    var held: bool
    var term: nat
    var version: nat
    var ledger: seq<TaskRecord>

    ghost function State(): CopyState reads this {
      CopyState(size, held, term, version, ledger)
    }

    constructor (self: NodeID, size: nat)
      ensures !leading && leader == NO_NODE && State() == CopyState(size, false, 0, 0, [])
    {
      this.self, this.size := self, size;
      leading, leader, nodeTerm, held, term, version, ledger := false, NO_NODE, 0, false, 0, 0, [];
    }

    /**
     * The worker side: only its own leader's snapshots count, and only newer ones, but a newer term is always adopted.
     */
    method HandleStateSync(from: NodeID, named: NodeID, s: Snapshot)
      modifies this`nodeTerm, this`held, this`term, this`version, this`ledger
      ensures var ours := !leading && from == leader && (named == NO_NODE || named == from);
              && State() == (if ours then Received(old(State()), s) else old(State()))
              && nodeTerm == if ours && s.term > old(nodeTerm) then s.term else old(nodeTerm)
    {
      if leading || from != leader || (named != NO_NODE && named != from) {
        return;
      }
      if s.term > nodeTerm {
        nodeTerm := s.term;
      }
      if held && !NewerKey(s.term, s.version, term, version) {
        return;
      }
      var kept := s.ledger;
      if |kept| > size {
        kept := kept[|kept| - size..];
      }
      ledger := kept;
      version := s.version;
      term := s.term;
      held := true;
    }

    /** A new attachment is a new replication session. */
    method Attach(to: NodeID)
      modifies this`leader, this`held
      ensures leader == to && State() == old(State()).(held := false)
    {
      leader := to;
      held := false;
    }
  }

  predicate HoldsKeyOf(c: CopyState, s: Snapshot) {
    c.held && c.term == s.term && c.version == s.version
  }

  /** Each snapshot accepted has a strictly greater (term, version) than the one held before it. */
  lemma AcceptedKeysIncrease(c: CopyState, s: Snapshot)
    requires c.held
    ensures var c' := Received(c, s);
            && c'.held && (c' == c || NewerKey(c'.term, c'.version, c.term, c.version))
            && !NewerKey(s.term, s.version, c'.term, c'.version)
  {
  }

  /** So whatever arrives, a copy never goes back, and changes only to one under a greater key. */
  lemma {:induction false} CopyOnlyAdvances(c: CopyState, ss: seq<Snapshot>, i: nat, j: nat)
    requires i <= j <= |ss| && ReceivedAll(c, ss[..i]).held
    ensures var a, b := ReceivedAll(c, ss[..i]), ReceivedAll(c, ss[..j]);
            b.held && (b == a || NewerKey(b.term, b.version, a.term, a.version))
  {
    hide Received;
    if i < j {
      CopyOnlyAdvances(c, ss, i, j - 1);
      assert ss[..j][..j - 1] == ss[..j - 1];
      AcceptedKeysIncrease(ReceivedAll(c, ss[..j - 1]), ss[j - 1]);
    }
  }

  lemma {:induction false} HoldsTheGreatest(c: CopyState, ss: seq<Snapshot>)
    requires !c.held && ss != []
    ensures var c' := ReceivedAll(c, ss);
            && c'.size == c.size && c'.held
            && (exists s <- ss :: HoldsKeyOf(c', s) && c'.ledger == Newest(s.ledger, c.size))
            && (forall s <- ss :: !NewerKey(s.term, s.version, c'.term, c'.version))
  {
    var front, last := ss[..|ss| - 1], ss[|ss| - 1];
    assert ss == front + [last];
    assert last in ss;
    if front != [] {
      HoldsTheGreatest(c, front);
      var c1 := ReceivedAll(c, front);
      var s :| s in front && HoldsKeyOf(c1, s) && c1.ledger == Newest(s.ledger, c.size);
      assert s in ss;
    }
  }

  /**
   * The replication session: whatever part of one tenure's snapshots reaches a newly attached worker, in whatever order
   * and however often, it holds the greatest key that reached it, and exactly the ledger the leader sent under that
   * key.
   */
  lemma WorkerHoldsWhatWasSent(l: LeaderState, c: CopyState, ss: seq<Snapshot>)
    requires SyncInv(l) && !c.held && ss != [] && forall s <- ss :: s in l.sent
    ensures var c' := ReceivedAll(c, ss);
            && (exists s <- ss :: HoldsKeyOf(c', s))
            && (forall s <- ss :: !NewerKey(s.term, s.version, c'.term, c'.version))
            && (forall s <- l.sent :: HoldsKeyOf(c', s) ==> c'.ledger == Newest(s.ledger, c.size))
  {
    hide SaysCurrent, Newest;
    HoldsTheGreatest(c, ss);
    var c' := ReceivedAll(c, ss);
    var s :| s in ss && HoldsKeyOf(c', s) && c'.ledger == Newest(s.ledger, c.size);
    forall t <- l.sent | HoldsKeyOf(c', t) ensures c'.ledger == Newest(t.ledger, c.size) {
      assert SameKey(s, t);
    }
  }

  /** So two workers reached by the same snapshots hold the same copy, whatever the order. */
  lemma ReplicasAgree(l: LeaderState, c: CopyState, ss: seq<Snapshot>, tt: seq<Snapshot>)
    requires SyncInv(l) && !c.held && ss != [] && (forall s <- ss :: s in l.sent) && (forall s :: s in ss <==> s in tt)
    ensures ReceivedAll(c, ss) == ReceivedAll(c, tt)
  {
    hide SyncInv, Newest, ReceivedAll;
    assert ss[0] in tt;
    HoldsTheGreatest(c, ss);
    HoldsTheGreatest(c, tt);
    WorkerHoldsWhatWasSent(l, c, ss);
    var a, b := ReceivedAll(c, ss), ReceivedAll(c, tt);
    var s :| s in tt && HoldsKeyOf(b, s) && b.ledger == Newest(s.ledger, c.size);
    var t :| t in ss && HoldsKeyOf(a, t);
    assert HoldsKeyOf(a, s);
  }

  /** Over a whole tenure the snapshots keep their promise, so `WorkerHoldsWhatWasSent` applies in every state of it. */
  lemma {:induction false} TenureKeepsSync(promoted: LeaderState, states: seq<LeaderState>, events: seq<LeadEvent>,
                                           k: nat)
    requires IsTenure(promoted, states, events) && k < |states|
    ensures SyncInv(states[k])
  {
    hide LeadStep, LedgerInv, Tenure, SyncInv, Flushed;
    if k == 0 {
      FirstFlush(promoted);
    } else {
      TenureKeepsLedger(promoted, states, events, k - 1);
      assert TenureStep(states[k - 1], events[k - 1], states[k]);
      TenureKeepsSync(promoted, states, events, k - 1);
      StepKeepsSync(states[k - 1], events[k - 1]);
    }
  }
}
