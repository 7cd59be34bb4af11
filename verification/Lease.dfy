/** The snapshot lease: a compare-and-set register that records who acquired the
    lease and when, and acquisitions that read their clock, then the register,
    then write, with anything in between. */
module Lease {
  import opened Basics

  datatype Lock = Lock(node: nat, at: int)

  /** A lease a writer that saw `seen` may take at `now`. */
  predicate Free(seen: seq<Lock>, node: nat, now: int, duration: nat) {
    seen == [] || seen[|seen| - 1].node == node || seen[|seen| - 1].at + duration <= now
  }

  datatype Outcome = Acquired | Busy | Failed

  /** What an acquisition comes to that reads the history h, and into whose way
      `others` write before it does. */
  function OutcomeOf(h: seq<Lock>, node: nat, now: int, duration: nat, others: seq<Lock>): Outcome {
    if !Free(h, node, now, duration) then Busy else if others != [] then Failed else Acquired
  }

  function HistoryAfter(h: seq<Lock>, node: nat, now: int, duration: nat, others: seq<Lock>): seq<Lock> {
    h + others + if OutcomeOf(h, node, now, duration, others) == Acquired then [Lock(node, now)] else []
  }

  /** The key-value bucket holding the lease record. The writes it accepted are
      its revisions; the last one is the current value. */
  class MetaStore {
    var history: seq<Lock>

    constructor ()
      ensures history == []
    {
      history := [];
    }

    /** Create succeeds only on a missing key. */
    method Create(l: Lock) returns (ok: bool)
      modifies this
      ensures ok == (old(history) == []) && history == if ok then [l] else old(history)
    {
      ok := history == [];
      if ok {
        history := [l];
      }
    }

    /** Update succeeds only on the revision the caller read. */
    method Update(l: Lock, revision: nat) returns (ok: bool)
      modifies this
      ensures ok == (revision == |old(history)|) && history == if ok then old(history) + [l] else old(history)
    {
      ok := revision == |history|;
      if ok {
        history := history + [l];
      }
    }

    /** One acquisition; `others` are the writes that land between its read and
        its write. It acquires exactly when the record it read was free to it
        and nobody wrote in between. */
    method AcquireLease(node: nat, now: int, duration: nat, others: seq<Lock>) returns (r: Outcome)
      modifies this
      ensures r == Acquired <==> Free(old(history), node, now, duration) && others == []
      ensures r == Busy <==> !Free(old(history), node, now, duration)
      ensures history == old(history) + others + if r == Acquired then [Lock(node, now)] else []
      ensures r == OutcomeOf(old(history), node, now, duration, others)
      ensures history == HistoryAfter(old(history), node, now, duration, others)
    {
      var missing := history == [];
      var revision := |history|;
      var busy := !missing && history[revision - 1].node != node && history[revision - 1].at + duration > now;
      history := history + others;
      if busy {
        return Busy;
      }
      var ok;
      if missing {
        ok := Create(Lock(node, now));
      } else {
        ok := Update(Lock(node, now), revision);
      }
      return if ok then Acquired else Failed;
    }
  }

  /******* Runs of many acquisitions *******/

  /** seen: how many revisions the acquisition found when it read the register. */
  datatype Attempt = Attempt(node: nat, now: int, seen: Option<nat>)

  datatype State = State(history: seq<Lock>, attempts: map<nat, Attempt>, clocks: map<nat, int>)

  datatype Action = Begin(id: nat, node: nat, now: int) | Read(id: nat) | Write(id: nat)

  /** A write succeeds on the revision that was read, which is then still the
      current one, if that record left the lease free. */
  function Step(st: State, a: Action, duration: nat): State {
    match a
    case Begin(id, node, now) =>
      if id in st.attempts then st
      else st.(attempts := st.attempts[id := Attempt(node, now, None)], clocks := st.clocks[node := now])
    case Read(id) =>
      if id in st.attempts then st.(attempts := st.attempts[id := st.attempts[id].(seen := Some(|st.history|))]) else st
    case Write(id) =>
      if id !in st.attempts || st.attempts[id].seen.None? then st
      else
        var t := st.attempts[id];
        var done := st.(attempts := st.attempts - {id});
        if t.seen.value == |st.history| && Free(st.history, t.node, t.now, duration)
        then done.(history := st.history + [Lock(t.node, t.now)])
        else done
  }

  function Run(acts: seq<Action>, duration: nat): State {
    if acts == [] then State([], map[], map[])
    else Step(Run(acts[..|acts| - 1], duration), acts[|acts| - 1], duration)
  }

  /******* The compare-and-set, over runs *******/

  lemma RunNext(acts: seq<Action>, duration: nat, m: nat)
    requires m < |acts|
    ensures Run(acts[..m + 1], duration) == Step(Run(acts[..m], duration), acts[m], duration)
  {
    assert acts[..m + 1][..m] == acts[..m];
  }

  /** The register only grows, by the record of the attempt that writes. */
  lemma StepAppends(st: State, a: Action, duration: nat)
    ensures var h, h' := st.history, Step(st, a, duration).history;
            || h' == h
            || (&& a.Write? && a.id in st.attempts && st.attempts[a.id].seen == Some(|h|)
                && Free(h, st.attempts[a.id].node, st.attempts[a.id].now, duration)
                && h' == h + [Lock(st.attempts[a.id].node, st.attempts[a.id].now)])
  {
  }

  lemma GrowsNext(acts: seq<Action>, duration: nat, m: nat)
    requires m < |acts|
    ensures Run(acts[..m], duration).history <= Run(acts[..m + 1], duration).history
  {
    RunNext(acts, duration, m);
    StepAppends(Run(acts[..m], duration), acts[m], duration);
  }

  lemma {:induction false} HistoryGrows(acts: seq<Action>, duration: nat, r: nat, m: nat)
    requires r <= m <= |acts|
    ensures Run(acts[..r], duration).history <= Run(acts[..m], duration).history
  {
    if r < m {
      HistoryGrows(acts, duration, r, m - 1);
      GrowsNext(acts, duration, m - 1);
    }
  }

  lemma SeenBefore(st: State, a: Action, duration: nat, id: nat)
    requires a != Read(id) && id in Step(st, a, duration).attempts && Step(st, a, duration).attempts[id].seen.Some?
    ensures id in st.attempts && Step(st, a, duration).attempts[id] == st.attempts[id]
  {
  }

  lemma SeesNow(st: State, duration: nat, id: nat)
    requires id in Step(st, Read(id), duration).attempts
    ensures id in st.attempts
    ensures Step(st, Read(id), duration).attempts[id] == st.attempts[id].(seen := Some(|st.history|))
  {
  }

  /** What an attempt has seen is the register as it was at its last read. */
  lemma {:induction false} LastRead(acts: seq<Action>, duration: nat, m: nat, id: nat) returns (r: nat)
    requires m <= |acts| && id in Run(acts[..m], duration).attempts
    requires Run(acts[..m], duration).attempts[id].seen.Some?
    ensures r < m && acts[r] == Read(id) && forall v :: r < v < m ==> acts[v] != Read(id)
    ensures id in Run(acts[..r], duration).attempts
    ensures Run(acts[..m], duration).attempts[id].seen.value == |Run(acts[..r], duration).history|
    ensures Run(acts[..m], duration).attempts[id].node == Run(acts[..r], duration).attempts[id].node
    ensures Run(acts[..m], duration).attempts[id].now == Run(acts[..r], duration).attempts[id].now
  {
    var before, a := Run(acts[..m - 1], duration), acts[m - 1];
    RunNext(acts, duration, m - 1);
    if a == Read(id) {
      r := m - 1;
      SeesNow(before, duration, id);
    } else {
      SeenBefore(before, a, duration, id);
      r := LastRead(acts, duration, m - 1, id);
    }
  }

  /** The compare-and-set: in every run, a write that is accepted at step u found the
      register exactly as its attempt had last read it, and appended that
      attempt's record. */
  lemma AcceptedUnchanged(acts: seq<Action>, duration: nat, u: nat) returns (r: nat)
    requires u < |acts| && Run(acts[..u + 1], duration).history != Run(acts[..u], duration).history
    ensures acts[u].Write? && r < u && acts[r] == Read(acts[u].id)
    ensures forall v :: r < v < u ==> acts[v] != Read(acts[u].id)
    ensures Run(acts[..u], duration).history == Run(acts[..r], duration).history
    ensures acts[u].id in Run(acts[..r], duration).attempts
    ensures var t := Run(acts[..r], duration).attempts[acts[u].id];
            Run(acts[..u + 1], duration).history == Run(acts[..r], duration).history + [Lock(t.node, t.now)]
  {
    RunNext(acts, duration, u);
    StepAppends(Run(acts[..u], duration), acts[u], duration);
    r := LastRead(acts, duration, u, acts[u].id);
    HistoryGrows(acts, duration, r, u);
  }

  /** Between its read and its write an attempt is left alone by other actions. */
  lemma {:induction false} AttemptStands(acts: seq<Action>, duration: nat, r: nat, m: nat, id: nat)
    requires r <= m <= |acts| && id in Run(acts[..r], duration).attempts
    requires forall v :: r <= v < m ==> acts[v] != Read(id) && acts[v] != Write(id)
    ensures id in Run(acts[..m], duration).attempts
    ensures Run(acts[..m], duration).attempts[id] == Run(acts[..r], duration).attempts[id]
  {
    if r < m {
      AttemptStands(acts, duration, r, m - 1, id);
      RunNext(acts, duration, m - 1);
    }
  }

  lemma WriteAcquires(st: State, id: nat, duration: nat, before: seq<Lock>)
    requires id in st.attempts && st.attempts[id].seen == Some(|before|) && before <= st.history
    ensures Step(st, Write(id), duration).history ==
            HistoryAfter(before, st.attempts[id].node, st.attempts[id].now, duration, st.history[|before|..])
  {
    assert st.history == before + st.history[|before|..];
    if |st.history| == |before| {
      assert st.history == before;
    }
  }

  /** A read at step r and the next write of the same attempt at step u, with any
      actions of others between, do to the register what AcquireLease does when
      the records that landed meanwhile are its `others`. */
  lemma RunAcquires(acts: seq<Action>, duration: nat, r: nat, u: nat)
    requires r < u < |acts| && acts[r].Read? && acts[u] == Write(acts[r].id)
    requires acts[r].id in Run(acts[..r], duration).attempts
    requires forall v :: r < v < u ==> acts[v] != Read(acts[r].id) && acts[v] != Write(acts[r].id)
    ensures var before, landed := Run(acts[..r], duration), Run(acts[..u], duration).history;
            && before.history <= landed
            && var t := before.attempts[acts[r].id];
            Run(acts[..u + 1], duration).history ==
            HistoryAfter(before.history, t.node, t.now, duration, landed[|before.history|..])
  {
    var id := acts[r].id;
    RunNext(acts, duration, r);
    SeesNow(Run(acts[..r], duration), duration, id);
    AttemptStands(acts, duration, r + 1, u, id);
    HistoryGrows(acts, duration, r, u);
    RunNext(acts, duration, u);
    WriteAcquires(Run(acts[..u], duration), id, duration, Run(acts[..r], duration).history);
  }

  /******* Exclusion *******/

  /** A change of owner raises the recorded time by the whole duration. */
  predicate HandsOver(h: seq<Lock>, duration: nat) {
    forall i :: 0 < i < |h| && h[i].node != h[i - 1].node ==> h[i].at >= h[i - 1].at + duration
  }

  lemma {:induction false} EveryRunHandsOver(acts: seq<Action>, duration: nat)
    ensures HandsOver(Run(acts, duration).history, duration)
  {
    if acts != [] {
      EveryRunHandsOver(acts[..|acts| - 1], duration);
    }
  }

  /** Each node runs one acquisition at a time (the acquisition is named after the
      node) on a clock that never goes back. */
  predicate Disciplined(st: State, a: Action) {
    a.Begin? ==> a.id == a.node && (a.node in st.clocks ==> st.clocks[a.node] <= a.now)
  }

  predicate DisciplinedRun(acts: seq<Action>, duration: nat) {
    acts == [] ||
    (DisciplinedRun(acts[..|acts| - 1], duration) &&
     Disciplined(Run(acts[..|acts| - 1], duration), acts[|acts| - 1]))
  }

  predicate RecordedByClock(st: State) {
    && (forall id :: id in st.attempts ==>
          st.attempts[id].node == id && id in st.clocks && st.attempts[id].now == st.clocks[id])
    && (forall i :: 0 <= i < |st.history| ==>
          st.history[i].node in st.clocks && st.history[i].at <= st.clocks[st.history[i].node])
    && (forall i :: 0 < i < |st.history| && st.history[i].node == st.history[i - 1].node ==>
          st.history[i - 1].at <= st.history[i].at)
  }

  lemma {:induction false} DisciplineKeepsTime(acts: seq<Action>, duration: nat)
    requires DisciplinedRun(acts, duration)
    ensures RecordedByClock(Run(acts, duration))
  {
    if acts != [] {
      DisciplineKeepsTime(acts[..|acts| - 1], duration);
    }
  }

  /** Recorded times never go back. */
  predicate Ascending(h: seq<Lock>) {
    forall k :: 0 < k < |h| ==> h[k - 1].at <= h[k].at
  }

  /** The windows [t, t + duration) of different nodes never overlap. */
  predicate Disjoint(h: seq<Lock>, duration: nat) {
    forall i, j :: 0 <= i < |h| && 0 <= j < |h| && h[i].node != h[j].node ==>
      h[i].at + duration <= h[j].at || h[j].at + duration <= h[i].at
  }

  lemma {:induction false} TimesNeverGoBack(h: seq<Lock>, duration: nat, i: nat, j: nat)
    requires i <= j < |h| && HandsOver(h, duration) && Ascending(h)
    ensures h[i].at <= h[j].at && (h[i].node != h[j].node ==> h[i].at + duration <= h[j].at)
  {
    if i < j {
      TimesNeverGoBack(h, duration, i, j - 1);
    }
  }

  lemma AscendingDisjoint(h: seq<Lock>, duration: nat)
    requires HandsOver(h, duration) && Ascending(h)
    ensures Disjoint(h, duration)
  {
    forall i, j | 0 <= i < |h| && 0 <= j < |h| && h[i].node != h[j].node
      ensures h[i].at + duration <= h[j].at || h[j].at + duration <= h[i].at
    {
      if i < j {
        TimesNeverGoBack(h, duration, i, j);
      } else {
        TimesNeverGoBack(h, duration, j, i);
      }
    }
  }

  /** Whichever other node takes the lease next, when it is free to it, no two
      windows will overlap. */
  ghost predicate Excludes(h: seq<Lock>, duration: nat)
    requires h != []
  {
    forall b: nat, t: int :: b != h[|h| - 1].node && Free(h, b, t, duration) ==>
      Disjoint(h + [Lock(b, t)], duration)
  }

  lemma AscendingExcludes(h: seq<Lock>, duration: nat)
    requires h != [] && HandsOver(h, duration) && Ascending(h)
    ensures Excludes(h, duration)
  {
    forall b: nat, t: int | b != h[|h| - 1].node && Free(h, b, t, duration)
      ensures Disjoint(h + [Lock(b, t)], duration)
    {
      AscendingDisjoint(h + [Lock(b, t)], duration);
    }
  }

  /** The guard that AcquireLease does not have. An acquisition that finds the lease
      free keeps exclusion, whoever comes next, if and only if the time it is
      about to write is not before the time it has just read. */
  lemma WriteExactly(h: seq<Lock>, node: nat, now: int, duration: nat)
    requires duration >= 1 && h != [] && HandsOver(h, duration) && Ascending(h) && Free(h, node, now, duration)
    ensures Excludes(h + [Lock(node, now)], duration) <==> h[|h| - 1].at <= now
  {
    var last, h' := h[|h| - 1], h + [Lock(node, now)];
    if last.at <= now {
      AscendingExcludes(h', duration);
    } else {
      var b, t := node + 1, if last.at < now + duration then now + duration else last.at;
      var h'' := h' + [Lock(b, t)];
      assert Free(h', b, t, duration);
      assert h''[|h| - 1] == last && h''[|h| + 1] == Lock(b, t);
      assert !Disjoint(h'', duration);
    }
  }

  lemma {:induction false} ExcludesAscending(h: seq<Lock>, duration: nat)
    requires duration >= 1 && HandsOver(h, duration)
    requires forall k :: 1 <= k <= |h| ==> Excludes(h[..k], duration)
    ensures Ascending(h)
  {
    if |h| >= 2 {
      var init, last := h[..|h| - 1], h[|h| - 1];
      forall k | 1 <= k <= |init| ensures Excludes(init[..k], duration) {
        assert init[..k] == h[..k];
      }
      ExcludesAscending(init, duration);
      assert h[..|h|] == h == init + [Lock(last.node, last.at)];
      WriteExactly(init, last.node, last.at, duration);
    }
  }

  /** Lease exclusion, exactly: in every run, however many acquisitions interleave,
      each moment of its history keeps other nodes' windows apart from the ones
      before if and only if the recorded times never go back. */
  lemma ExclusionExactly(acts: seq<Action>, duration: nat)
    requires duration >= 1
    ensures var h := Run(acts, duration).history;
            Ascending(h) <==> forall k :: 1 <= k <= |h| ==> Excludes(h[..k], duration)
  {
    var h := Run(acts, duration).history;
    EveryRunHandsOver(acts, duration);
    if Ascending(h) {
      forall k | 1 <= k <= |h| ensures Excludes(h[..k], duration) {
        AscendingExcludes(h[..k], duration);
      }
    } else if forall k :: 1 <= k <= |h| ==> Excludes(h[..k], duration) {
      ExcludesAscending(h, duration);
    }
  }

  /** A node that runs one acquisition at a time on a clock that never goes back
      meets the condition: across the whole history of a disciplined run, the
      windows of different nodes never overlap. */
  lemma LeaseExclusion(acts: seq<Action>, duration: nat)
    requires DisciplinedRun(acts, duration)
    ensures Ascending(Run(acts, duration).history) && Disjoint(Run(acts, duration).history, duration)
  {
    var h := Run(acts, duration).history;
    EveryRunHandsOver(acts, duration);
    DisciplineKeepsTime(acts, duration);
    assert Ascending(h) by {
      forall k | 0 < k < |h| ensures h[k - 1].at <= h[k].at {
        assert h[k].node != h[k - 1].node ==> h[k].at >= h[k - 1].at + duration;
      }
    }
    AscendingDisjoint(h, duration);
  }

  /** An undisturbed read and write of an acquisition that finds the lease free. */
  lemma ReadThenWrite(st: State, id: nat, duration: nat)
    requires id in st.attempts && Free(st.history, st.attempts[id].node, st.attempts[id].now, duration)
    ensures Step(Step(st, Read(id), duration), Write(id), duration) ==
            st.(history := st.history + [Lock(st.attempts[id].node, st.attempts[id].now)],
                attempts := st.attempts - {id})
  {
    assert st.attempts[id := st.attempts[id].(seen := Some(|st.history|))] - {id} == st.attempts - {id};
  }

  /** Two acquisitions at once on one node, such as a refresh beside a second
      snapshot, can write an older time over a newer one, and another node then
      acquires inside the newer window: node a records t and then the earlier v,
      and b's time u is free of v's window and lies within a duration of t. */
  lemma ConcurrentAcquisitionsOverlap(a: nat, b: nat, v: int, t: int, u: int, duration: nat)
    requires a != b && v < t && v + duration <= u && t - duration < u < t + duration
    ensures var st := Run([Begin(1, a, v), Begin(2, a, t), Begin(3, b, u)], duration);
            var st1 := Step(Step(st, Read(2), duration), Write(2), duration);
            var st2 := Step(Step(st1, Read(1), duration), Write(1), duration);
            var h := Step(Step(st2, Read(3), duration), Write(3), duration).history;
            h == [Lock(a, t), Lock(a, v), Lock(b, u)] && !Disjoint(h, duration)
  {
    var acts := [Begin(1, a, v), Begin(2, a, t), Begin(3, b, u)];
    var st := Run(acts, duration);
    ThreeBegun(acts, duration);
    ReadThenWrite(st, 2, duration);
    var st1 := Step(Step(st, Read(2), duration), Write(2), duration);
    assert st1.history == [Lock(a, t)];
    ReadThenWrite(st1, 1, duration);
    var st2 := Step(Step(st1, Read(1), duration), Write(1), duration);
    assert st2.history == [Lock(a, t), Lock(a, v)];
    ReadThenWrite(st2, 3, duration);
    var h := [Lock(a, t), Lock(a, v), Lock(b, u)];
    assert h[0].node != h[2].node;
  }

  lemma ThreeBegun(acts: seq<Action>, duration: nat)
    requires |acts| == 3 && forall i :: 0 <= i < 3 ==> acts[i].Begin? && acts[i].id == i + 1
    ensures var st := Run(acts, duration);
            && st.history == []
            && st.attempts == map[1 := Attempt(acts[0].node, acts[0].now, None),
                                  2 := Attempt(acts[1].node, acts[1].now, None),
                                  3 := Attempt(acts[2].node, acts[2].now, None)]
  {
    var one, two := acts[..1], acts[..2];
    assert one[..0] == [] && two[..1] == one && acts[..2] == two;
    assert Run(one, duration) == Step(Run([], duration), acts[0], duration);
    assert Run(two, duration) == Step(Run(one, duration), acts[1], duration);
    assert Run(acts, duration) == Step(Run(two, duration), acts[2], duration);
  }

  /******* Refreshing *******/

  /** The first write of `node` after position j, if any. */
  function NextBy(h: seq<Lock>, node: nat, j: nat): (k: nat)
    requires j <= |h|
    ensures j <= k <= |h| && (k < |h| ==> h[k].node == node)
    ensures forall l :: j <= l < k ==> h[l].node != node
    decreases |h| - j
  {
    if j == |h| || h[j].node == node then j else NextBy(h, node, j + 1)
  }

  /** The holder's hold on the register from write `first` until its context is
      cancelled: `when[k]` is the true time at which write k landed; no clock
      runs ahead of it; and up to the cancellation the holder's next write lands,
      or the context is cancelled, before the time of its previous one plus the
      duration. What the holder or anybody does later is not restricted. */
  predicate Refreshed(h: seq<Lock>, when: seq<int>, duration: nat, first: nat, cancelled: int) {
    && |when| == |h| && first < |h|
    && (forall a, b :: 0 <= a <= b < |when| ==> when[a] <= when[b])
    && (forall a :: 0 <= a < |h| && when[a] <= cancelled ==> h[a].at <= when[a])
    && (forall j :: first <= j < |h| && h[j].node == h[first].node && when[j] <= cancelled ==>
          var next := NextBy(h, h[first].node, j + 1);
          (if next < |h| && when[next] <= cancelled then when[next] else cancelled) < h[j].at + duration)
  }

  lemma {:induction false} HolderKeeps(h: seq<Lock>, when: seq<int>, duration: nat, first: nat, cancelled: int, k: nat)
    requires HandsOver(h, duration) && Refreshed(h, when, duration, first, cancelled)
    requires first <= k < |h| && when[k] <= cancelled
    ensures h[k].node == h[first].node
  {
    if k > first {
      HolderKeeps(h, when, duration, first, cancelled, k - 1);
      var next := NextBy(h, h[first].node, k);
      assert when[k] <= if next < |h| && when[next] <= cancelled then when[next] else cancelled;
    }
  }

  /** Lease continuity: in every run, however many acquisitions there are and
      however they interleave, no other node's write is accepted from a holder's
      first acquisition until the cancellation of its context, as long as its
      refreshes land in time. */
  lemma LeaseContinuity(acts: seq<Action>, duration: nat, when: seq<int>, first: nat, cancelled: int, k: nat)
    requires Refreshed(Run(acts, duration).history, when, duration, first, cancelled)
    requires first <= k < |when| && when[k] <= cancelled
    ensures Run(acts, duration).history[k].node == Run(acts, duration).history[first].node
  {
    EveryRunHandsOver(acts, duration);
    HolderKeeps(Run(acts, duration).history, when, duration, first, cancelled, k);
  }
}
