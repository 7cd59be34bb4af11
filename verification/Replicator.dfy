/** The replicator of one node: shard streams by number, publishing with its
    snapshot trigger, and the listener loop over the shared sequence map. */
module Replicator {
  import opened Basics
  import opened Cbor
  import opened SequenceMap

  const SNAPSHOT_SHARD: nat := 1

  /******* Stream names *******/

  function Digits(n: nat): (d: seq<byte>)
    ensures |d| > 0
  {
    if n < 10 then [48 + n] else Digits(n / 10) + [48 + n % 10]
  }

  function FromDigits(d: seq<byte>): int {
    if d == [] then 0 else FromDigits(d[..|d| - 1]) * 10 + d[|d| - 1] - 48
  }

  lemma {:induction false} DigitsRoundTrip(n: nat)
    ensures FromDigits(Digits(n)) == n
  {
    var d := Digits(n);
    if n < 10 {
      assert d[..|d| - 1] == [];
    } else {
      DigitsRoundTrip(n / 10);
      assert d[..|d| - 1] == Digits(n / 10);
    }
  }

  /** Stream prefix, "-c" when compressed, "-" and the shard number. */
  function StreamName(prefix: Name, compressed: bool, shard: nat): Name {
    prefix + (if compressed then [45, 99] else []) + [45] + Digits(shard)
  }

  lemma {:induction false} DigitsAre(n: nat, i: nat)
    requires i < |Digits(n)|
    ensures 48 <= Digits(n)[i] <= 57
  {
    if n >= 10 && i < |Digits(n / 10)| {
      DigitsAre(n / 10, i);
    }
  }

  /** Shards never share a stream, hence never share an entry of the sequence map;
      nor do compressed and uncompressed streams. */
  lemma StreamNamesDistinct(prefix: Name, compressed: bool, a: nat, compressed': bool, b: nat)
    requires StreamName(prefix, compressed, a) == StreamName(prefix, compressed', b)
    ensures a == b && compressed == compressed'
  {
    var x, y := StreamName(prefix, compressed, a), StreamName(prefix, compressed', b);
    DigitsAre(a, 0);
    DigitsAre(b, 0);
    assert x[|prefix| + 1] == (if compressed then 99 else Digits(a)[0]);
    assert y[|prefix| + 1] == (if compressed' then 99 else Digits(b)[0]);
    var head := prefix + (if compressed then [45, 99] else []) + [45];
    assert x[|head|..] == Digits(a) && y[|head|..] == Digits(b);
    DigitsRoundTrip(a);
    DigitsRoundTrip(b);
  }

  /******* The listener, as a function of what the stream delivers *******/

  /** Sequences that Publish puts into the map before the message arrives, then
      the message, whether the callback handled it, and how the file behaves
      when the listener saves. */
  datatype Delivery = Delivery(published: seq<nat>, message: nat, handled: bool, disk: Disk)

  /** stored: what the sequence map holds for the stream; applied: messages
      passed to the callback; cursors: the cursor after each save of one. */
  datatype Listener = Listener(stored: nat, cursor: nat, applied: seq<nat>, cursors: seq<nat>, stopped: bool)

  function MaxAll(a: nat, s: seq<nat>): nat {
    if s == [] then a else Max(MaxAll(a, s[..|s| - 1]), s[|s| - 1])
  }

  function Receive(l: Listener, d: Delivery): Listener {
    var stored := MaxAll(l.stored, d.published);
    if l.stopped then l
    else if d.message <= l.cursor then l.(stored := stored)
    else if !d.handled then l.(stored := stored, stopped := true)
    else if d.message > stored && d.disk != DiskOk then
      l.(stored := if d.disk == SeekFails then stored else d.message,
         applied := l.applied + [d.message], stopped := true)
    else
      var v := Max(stored, d.message);
      Listener(v, v, l.applied + [d.message], l.cursors + [v], false)
  }

  function ReceiveAll(l: Listener, ds: seq<Delivery>): Listener {
    if ds == [] then l else Receive(ReceiveAll(l, ds[..|ds| - 1]), ds[|ds| - 1])
  }

  function Started(stored: nat): Listener {
    Listener(stored, stored, [], [], false)
  }

  predicate Increasing(s: seq<nat>) {
    forall i, j :: 0 <= i < j < |s| ==> s[i] < s[j]
  }

  /** Handled messages increase, also up to one whose save failed. */
  predicate CursorInv(l: Listener) {
    && l.cursor <= l.stored && |l.cursors| <= |l.applied| <= |l.cursors| + 1
    && (!l.stopped ==> |l.applied| == |l.cursors| && forall i :: 0 <= i < |l.applied| ==> l.applied[i] <= l.cursor)
    && Increasing(l.applied)
    && (forall i :: 0 <= i < |l.cursors| ==> l.applied[i] <= l.cursors[i])
    && (l.cursors != [] ==> l.cursors[|l.cursors| - 1] == l.cursor)
  }

  lemma {:induction false} MaxAllBounds(a: nat, s: seq<nat>)
    ensures MaxAll(a, s) >= a && (MaxAll(a, s) == a || MaxAll(a, s) in s)
    ensures forall x :: x in s ==> x <= MaxAll(a, s)
  {
    if s != [] {
      MaxAllBounds(a, s[..|s| - 1]);
      assert forall x :: x in s ==> x in s[..|s| - 1] || x == s[|s| - 1];
    }
  }

  /** Sequences put into the map for the stream while one delivery is processed,
      in order. */
  function SavesOf(l: Listener, d: Delivery): seq<nat> {
    if l.stopped then []
    else d.published + if d.message > l.cursor && d.handled && d.disk != SeekFails then [d.message] else []
  }

  function SavedBy(start: nat, ds: seq<Delivery>): seq<nat> {
    if ds == [] then []
    else
      var init := ds[..|ds| - 1];
      SavedBy(start, init) + SavesOf(ReceiveAll(Started(start), init), ds[|ds| - 1])
  }

  lemma ReceiveStores(l: Listener, d: Delivery)
    ensures Receive(l, d).stored == MaxAll(l.stored, SavesOf(l, d))
  {
    if !l.stopped && d.message > l.cursor && d.handled && d.disk != SeekFails {
      assert SavesOf(l, d)[..|SavesOf(l, d)| - 1] == d.published;
    } else {
      assert d.published + [] == d.published;
    }
  }

  lemma AppliedIncreases(applied: seq<nat>, cursor: nat, message: nat)
    requires Increasing(applied) && cursor < message && forall i :: 0 <= i < |applied| ==> applied[i] <= cursor
    ensures Increasing(applied + [message])
  {
  }

  lemma SavedKeeps(l: Listener, message: nat, v: nat)
    requires CursorInv(l) && !l.stopped && l.cursor < message <= v
    ensures CursorInv(Listener(v, v, l.applied + [message], l.cursors + [v], false))
  {
    AppliedIncreases(l.applied, l.cursor, message);
  }

  lemma UnsavedKeeps(l: Listener, message: nat, stored: nat)
    requires CursorInv(l) && !l.stopped && l.cursor < message && l.cursor <= stored
    ensures CursorInv(l.(stored := stored, applied := l.applied + [message], stopped := true))
  {
    AppliedIncreases(l.applied, l.cursor, message);
  }

  lemma ReceiveKeeps(l: Listener, d: Delivery)
    requires CursorInv(l)
    ensures var l' := Receive(l, d);
            && CursorInv(l') && l'.cursor >= l.cursor && l'.stored == MaxAll(l.stored, SavesOf(l, d))
            && (|l'.cursors| > |l.cursors| ==> l'.cursor == l'.stored)
  {
    ReceiveStores(l, d);
    MaxAllBounds(l.stored, d.published);
    if !l.stopped && d.message > l.cursor && d.handled {
      var stored := MaxAll(l.stored, d.published);
      if d.message > stored && d.disk != DiskOk {
        UnsavedKeeps(l, d.message, if d.disk == SeekFails then stored else d.message);
      } else {
        SavedKeeps(l, d.message, Max(stored, d.message));
      }
    }
  }

  /** Whatever is delivered, redelivered or reordered, and whatever Publish saves
      meanwhile: a listener that starts from the map handles strictly increasing
      messages, and each one it saves leaves the cursor at the largest sequence
      put into the map for the stream so far by either path. */
  lemma {:induction false} CursorFollowsMap(start: nat, ds: seq<Delivery>)
    ensures var l := ReceiveAll(Started(start), ds);
            && CursorInv(l) && l.cursor >= start && l.stored == MaxAll(start, SavedBy(start, ds))
    ensures ds != [] ==>
              var before, l := ReceiveAll(Started(start), ds[..|ds| - 1]), ReceiveAll(Started(start), ds);
              |l.cursors| > |before.cursors| ==> l.cursor == MaxAll(start, SavedBy(start, ds))
  {
    if ds != [] {
      var init, d := ds[..|ds| - 1], ds[|ds| - 1];
      CursorFollowsMap(start, init);
      var l := ReceiveAll(Started(start), init);
      ReceiveKeeps(l, d);
      MaxAllConcat(start, SavedBy(start, init), SavesOf(l, d));
    }
  }

  lemma {:induction false} MaxAllConcat(a: nat, s: seq<nat>, t: seq<nat>)
    ensures MaxAll(a, s + t) == MaxAll(MaxAll(a, s), t)
  {
    if t == [] {
      assert s + t == s;
    } else {
      assert (s + t)[..|s + t| - 1] == s + t[..|t| - 1];
      MaxAllConcat(a, s, t[..|t| - 1]);
    }
  }

  /******* Snapshot cadence *******/

  /** Whether a publish answered by `save` with `seqNo` starts a snapshot. */
  predicate Triggers(maxEntries: nat, shards: nat, shard: nat, seqNo: nat)
    requires shards >= 1
  {
    var every := maxEntries / shards;
    every != 0 && seqNo % every == 0 && shard == SNAPSHOT_SHARD
  }

  /** Exactly the multiples of the cadence, and only in the first shard. */
  lemma TriggersExactly(maxEntries: nat, shards: nat, shard: nat, seqNo: nat)
    requires shards >= 1
    ensures Triggers(maxEntries, shards, shard, seqNo) <==>
              maxEntries / shards >= 1 && shard == 1 && exists q: nat :: q * (maxEntries / shards) == seqNo
  {
    var every := maxEntries / shards;
    if every >= 1 {
      if q: nat :| q * every == seqNo {
        MultipleMod(q, every);
      }
      if seqNo % every == 0 {
        var q := seqNo / every;
        assert q * every == seqNo;
      }
    }
  }

  /** The publish of `ack` starts a snapshot, `stored` being what the map held. */
  predicate StartsSnapshot(maxEntries: nat, shards: nat, stored: nat, ack: nat)
    requires shards >= 1
  {
    Triggers(maxEntries, shards, SNAPSHOT_SHARD, Max(stored, ack))
  }

  /** Any maxEntries consecutive sequences of the first shard hold a trigger. */
  lemma WindowTriggers(maxEntries: nat, shards: nat, first: nat) returns (t: nat)
    requires shards >= 1 && maxEntries / shards != 0
    ensures first <= t < first + maxEntries && Triggers(maxEntries, shards, SNAPSHOT_SHARD, t)
  {
    QuotientSmall(maxEntries, shards);
    t := NextMultiple(first, maxEntries / shards);
  }

  lemma QuotientSmall(a: nat, b: nat)
    requires b >= 1
    ensures a / b <= a
  {
    var q := a / b;
    assert a == q * b + a % b;
    assert q * b >= q;
  }

  lemma NextMultiple(first: nat, m: nat) returns (t: nat)
    requires m >= 1
    ensures first <= t < first + m && t % m == 0
  {
    var q, r := first / m, first % m;
    assert first == q * m + r;
    if r == 0 {
      t := first;
    } else {
      t := first + m - r;
      assert t == (q + 1) * m;
      MultipleMod(q + 1, m);
    }
  }

  lemma MultipleMod(q: nat, m: nat)
    requires m > 0
    ensures (q * m) % m == 0
  {
    var x: int, r := q - (q * m) / m, (q * m) % m;
    assert x * m == r by {
      assert q * m == ((q * m) / m) * m + r;
    }
    ZeroMultiple(x, m, r);
  }

  lemma ZeroMultiple(x: int, m: int, r: int)
    requires x * m == r && 0 <= r < m
    ensures r == 0
  {
    assert x >= 1 ==> x * m >= m;
    assert x <= -1 ==> x * m <= -m;
  }

  /** Entry e of the first shard is gone once maxEntries later ones exist. If
      every publish of those was answered with its own sequence, a snapshot was
      started at e or after it, before e went. */
  lemma DiscardedAfterSnapshot(maxEntries: nat, shards: nat, stored: seq<nat>, e: nat) returns (t: nat)
    requires shards >= 1 && maxEntries / shards != 0 && 1 <= e
    requires |stored| >= e + maxEntries   // stored[i]: the map's entry when sequence i was acknowledged
    requires forall i :: e <= i < e + maxEntries ==> stored[i] <= i
    ensures e <= t < e + maxEntries && StartsSnapshot(maxEntries, shards, stored[t], t)
  {
    t := WindowTriggers(maxEntries, shards, e);
  }

  /** Saves in an order that puts each trigger after its successor, as when the
      listener saves another node's message before Publish saves its own. */
  function Overtaken(n: nat, hit: nat -> bool): seq<nat> {
    if n == 0 then []
    else if n >= 2 && hit(n - 1) then Overtaken(n - 2, hit) + [n] + [n - 1]
    else Overtaken(n - 1, hit) + [n]
  }

  function Upto(n: nat): (r: set<nat>)
    ensures forall k :: k in r <==> 1 <= k <= n
  {
    if n == 0 then {} else Upto(n - 1) + {n}
  }

  /** What `save` answers to the last of a list of saves of one stream. */
  function Answer(name: Name, saves: seq<nat>): nat {
    Lookup(AdvanceAll(map[], seq(|saves|, i requires 0 <= i < |saves| => (name, saves[i]))), name)
  }

  lemma {:induction false} AnswerIsMax(name: Name, saves: seq<nat>)
    ensures Answer(name, saves) == MaxAll(0, saves)
  {
    var pairs := seq(|saves|, i requires 0 <= i < |saves| => (name, saves[i]));
    if saves != [] {
      var init := saves[..|saves| - 1];
      AnswerIsMax(name, init);
      assert pairs[..|pairs| - 1] == seq(|init|, i requires 0 <= i < |init| => (name, init[i]));
    }
  }

  lemma NextOrder(order: seq<nat>, n: nat)
    requires n >= 1 && OrderOf(order, Upto(n - 1))
    ensures OrderOf(order + [n], Upto(n))
  {
  }

  lemma OrderSnoc(order: seq<nat>, keys: set<nat>, x: nat)
    requires OrderOf(order, keys) && x !in keys
    ensures OrderOf(order + [x], keys + {x})
  {
  }

  lemma SwappedOrder(order: seq<nat>, n: nat)
    requires n >= 2 && OrderOf(order, Upto(n - 2))
    ensures OrderOf(order + [n] + [n - 1], Upto(n))
  {
    OrderSnoc(order, Upto(n - 2), n);
    OrderSnoc(order + [n], Upto(n - 2) + {n}, n - 1);
    assert Upto(n - 2) + {n} + {n - 1} == Upto(n);
  }

  lemma {:induction false} OvertakenOrder(n: nat, hit: nat -> bool)
    ensures OrderOf(Overtaken(n, hit), Upto(n))
  {
    if n >= 2 && hit(n - 1) {
      OvertakenOrder(n - 2, hit);
      SwappedOrder(Overtaken(n - 2, hit), n);
    } else if n > 0 {
      OvertakenOrder(n - 1, hit);
      NextOrder(Overtaken(n - 1, hit), n);
    }
  }

  lemma MaxSnoc(order: seq<nat>, x: nat)
    ensures MaxAll(0, order + [x]) == Max(MaxAll(0, order), x)
  {
    assert (order + [x])[..|order|] == order;
  }

  lemma {:induction false} OvertakenMax(n: nat, hit: nat -> bool)
    ensures MaxAll(0, Overtaken(n, hit)) == n
  {
    if n >= 2 && hit(n - 1) {
      OvertakenMax(n - 2, hit);
      MaxSnoc(Overtaken(n - 2, hit), n);
      MaxSnoc(Overtaken(n - 2, hit) + [n], n - 1);
    } else if n > 0 {
      OvertakenMax(n - 1, hit);
      MaxSnoc(Overtaken(n - 1, hit), n);
    }
  }

  /** At no point is the largest sequence so far a hit. */
  predicate NeverHits(saves: seq<nat>, hit: nat -> bool) {
    saves == [] || (NeverHits(saves[..|saves| - 1], hit) && !hit(MaxAll(0, saves)))
  }

  lemma NeverHitsSnoc(saves: seq<nat>, x: nat, hit: nat -> bool)
    requires NeverHits(saves, hit) && !hit(Max(MaxAll(0, saves), x))
    ensures NeverHits(saves + [x], hit)
  {
    assert (saves + [x])[..|saves|] == saves;
  }

  lemma {:induction false} NeverHitsAt(saves: seq<nat>, hit: nat -> bool, j: nat)
    requires NeverHits(saves, hit) && j < |saves|
    ensures !hit(MaxAll(0, saves[..j + 1]))
  {
    if j + 1 == |saves| {
      assert saves[..j + 1] == saves;
    } else {
      assert saves[..|saves| - 1][..j + 1] == saves[..j + 1];
      NeverHitsAt(saves[..|saves| - 1], hit, j);
    }
  }

  lemma NextSkips(saves: seq<nat>, n: nat, hit: nat -> bool)
    requires NeverHits(saves, hit) && MaxAll(0, saves) <= n && !hit(n)
    ensures NeverHits(saves + [n], hit) && MaxAll(0, saves + [n]) == n
  {
    MaxSnoc(saves, n);
    NeverHitsSnoc(saves, n, hit);
  }

  lemma SwapSkips(saves: seq<nat>, n: nat, hit: nat -> bool)
    requires n >= 1 && NeverHits(saves, hit) && MaxAll(0, saves) <= n && !hit(n)
    ensures NeverHits(saves + [n] + [n - 1], hit)
  {
    NextSkips(saves, n, hit);
    NeverHitsSnoc(saves + [n], n - 1, hit);
  }

  /** The largest sequence saved so far is never a trigger, triggers being apart. */
  lemma {:induction false} OvertakenSkips(n: nat, hit: nat -> bool)
    requires !hit(n) && forall i: nat, j: nat :: hit(i) && hit(j) ==> j != i + 1
    ensures NeverHits(Overtaken(n, hit), hit)
  {
    if n >= 2 && hit(n - 1) {
      OvertakenSkips(n - 2, hit);
      OvertakenMax(n - 2, hit);
      SwapSkips(Overtaken(n - 2, hit), n, hit);
    } else if n > 0 {
      if n > 1 {
        OvertakenSkips(n - 1, hit);
      }
      OvertakenMax(n - 1, hit);
      NextSkips(Overtaken(n - 1, hit), n, hit);
    }
  }

  /** The answer to save j of the list starts a snapshot. */
  predicate StartsAt(maxEntries: nat, shards: nat, name: Name, order: seq<nat>, j: nat)
    requires shards >= 1 && j < |order|
  {
    Triggers(maxEntries, shards, SNAPSHOT_SHARD, Answer(name, order[..j + 1]))
  }

  /** Otherwise not: unless every single sequence triggers, there is an order of
      saves of all sequences up to any n that is no trigger, each at most one
      place early or late, in which no save of the first shard is answered with
      a trigger, so no snapshot ever starts. */
  lemma MapAheadSkipsTriggers(maxEntries: nat, shards: nat, name: Name, n: nat) returns (order: seq<nat>)
    requires shards >= 1 && maxEntries / shards >= 2 && n % (maxEntries / shards) != 0
    ensures OrderOf(order, Upto(n))
    ensures forall j :: 0 <= j < |order| ==> !StartsAt(maxEntries, shards, name, order, j)
  {
    var every := maxEntries / shards;
    var hit := (i: nat) => i % every == 0;
    forall i: nat, j: nat | hit(i) && hit(j) ensures j != i + 1 {
      NotMultiple(i, every);
    }
    order := Overtaken(n, hit);
    OvertakenOrder(n, hit);
    OvertakenSkips(n, hit);
    forall j | 0 <= j < |order| ensures !StartsAt(maxEntries, shards, name, order, j) {
      AnswerIsMax(name, order[..j + 1]);
      NeverHitsAt(order, hit, j);
    }
  }

  lemma NotMultiple(i: nat, m: nat)
    requires m >= 2 && i % m == 0
    ensures (i + 1) % m != 0
  {
    if (i + 1) % m == 0 {
      var a: int, b: int := i / m, (i + 1) / m;
      assert i == a * m && i + 1 == b * m;
      assert (b - a) * m == 1;
      ZeroMultiple(b - a, m, 1);
    }
  }

  /** With a trigger at every sequence nothing can skip one. */
  lemma EverySequenceTriggers(maxEntries: nat, shards: nat, stored: nat, ack: nat)
    requires shards >= 1 && maxEntries / shards == 1
    ensures StartsSnapshot(maxEntries, shards, stored, ack)
  {
  }

  /******* The replicator object *******/

  /** Lost: the stream took the message, but the publisher sees an error. */
  datatype Ack = Acked | Refused | Lost

  datatype Outcome = Published | PublishError

  datatype Verdict = Skipped | Applied | Failed | SaveFailed

  class Replicator {
    const shards: nat
    const prefix: Name
    const compressed: bool
    var streamMap: map<nat, Name>           // shard number to stream
    var streams: map<Name, seq<seq<byte>>>  // the shared streams: all messages accepted; the n-th has sequence n
    const repState: ReplicationState
    var snapshots: nat                      // snapshots started

    ghost predicate Valid()
      reads this, repState
    {
      && repState.open
      && (forall s :: s in streamMap <==> 1 <= s <= shards)
      && (forall s :: s in streamMap ==> streamMap[s] == StreamName(prefix, compressed, s) && streamMap[s] in streams)
    }

    /** One stream per shard, numbered from 1. A stream that exists is attached to
        as it is, with the messages of all nodes; a missing one is added. */
    constructor (shards: nat, prefix: Name, compressed: bool, repState: ReplicationState,
                 existing: map<Name, seq<seq<byte>>>)
      requires repState.open
      ensures Valid() && this.shards == shards && this.repState == repState && snapshots == 0
      ensures forall n :: n in existing ==> n in streams && streams[n] == existing[n]
      ensures forall n :: n in streams && n !in existing ==>
                streams[n] == [] && exists s :: 1 <= s <= shards && n == StreamName(prefix, compressed, s)
    {
      this.shards, this.prefix, this.compressed, this.repState := shards, prefix, compressed, repState;
      streamMap, streams, snapshots := map[], existing, 0;
      new;
      var i := 0;
      while i < shards
        invariant 0 <= i <= shards && repState.open && snapshots == 0
        invariant forall s :: s in streamMap <==> 1 <= s <= i
        invariant forall s :: s in streamMap ==>
                    streamMap[s] == StreamName(prefix, compressed, s) && streamMap[s] in streams
        invariant forall n :: n in existing ==> n in streams && streams[n] == existing[n]
        invariant forall n :: n in streams && n !in existing ==>
                    streams[n] == [] && exists s :: 1 <= s <= shards && n == StreamName(prefix, compressed, s)
        modifies this
      {
        var shard := i + 1;
        var name := StreamName(prefix, compressed, shard);
        if name !in streams {
          streams := streams[name := []];
        }
        streamMap := streamMap[shard := name];
        i := i + 1;
      }
    }

    /** The shard of a hash always has a stream, so the invalid-shard panic cannot
        happen; the message lands at the end of that stream and of no other,
        after those of other nodes that got there first. With snapshots on, an
        acknowledged sequence is saved and may start a snapshot. */
    method Publish(hash: nat, payload: seq<byte>, others: seq<seq<byte>>, ack: Ack,
                   snapshotsOn: bool, maxEntries: nat, disk: Disk)
      returns (r: Outcome)
      requires Valid() && shards >= 1
      modifies this, repState
      ensures Valid() && (old(repState.Valid()) ==> repState.Valid())
      ensures var name := StreamName(prefix, compressed, hash % shards + 1);
              && name in old(streams) && streamMap == old(streamMap)
              && streams == old(streams)[name := old(streams)[name] + others + if ack == Refused then [] else [payload]]
              && (r == PublishError <==>
                    || ack != Acked
                    || (snapshotsOn && disk != DiskOk && Advances(old(repState.seqs), name, |streams[name]|)))
              && repState.seqs == (if ack == Acked && snapshotsOn && (r == Published || disk != SeekFails)
                                   then Advance(old(repState.seqs), name, |streams[name]|) else old(repState.seqs))
              && var started := r == Published && snapshotsOn &&
                   Triggers(maxEntries, shards, hash % shards + 1, Lookup(repState.seqs, name));
              snapshots == if started then old(snapshots) + 1 else old(snapshots)
      ensures hash % shards != 0 ==> snapshots == old(snapshots)
    {
      var shard := hash % shards + 1;
      assert shard in streamMap;
      var name := streamMap[shard];
      streams := streams[name := streams[name] + others + if ack == Refused then [] else [payload]];
      if ack != Acked {
        return PublishError;
      }
      if snapshotsOn {
        var answer := repState.Save(name, |streams[name]|, disk);
        if !answer.Saved? {
          return PublishError;
        }
        if Triggers(maxEntries, shards, shard, answer.seqNo) {
          snapshots := snapshots + 1;
        }
      }
      return Published;
    }

    /** The listener loop of one shard over a finite stretch of deliveries. */
    method Listen(shard: nat, ds: seq<Delivery>) returns (applied: seq<nat>, cursors: seq<nat>)
      requires Valid() && shard in streamMap
      modifies repState
      ensures Valid() && (old(repState.Valid()) ==> repState.Valid())
      ensures var l := ReceiveAll(Started(Lookup(old(repState.seqs), streamMap[shard])), ds);
              applied == l.applied && cursors == l.cursors && Lookup(repState.seqs, streamMap[shard]) == l.stored
      ensures forall n :: n in old(repState.seqs) && n != streamMap[shard] ==>
                n in repState.seqs && repState.seqs[n] == old(repState.seqs)[n]
    {
      var name := streamMap[shard];
      var savedSeq := repState.Get(name);
      ghost var l := Started(savedSeq);
      applied, cursors := [], [];
      var i, stopped := 0, false;
      while i < |ds| && !stopped
        invariant 0 <= i <= |ds| && Valid()
        invariant l == ReceiveAll(Started(Lookup(old(repState.seqs), name)), ds[..i])
        invariant Tracks(l, savedSeq, applied, cursors, stopped) && Lookup(repState.seqs, name) == l.stored
        invariant SameBut(old(repState.seqs), repState.seqs, name)
        invariant old(repState.Valid()) ==> repState.Valid()
      {
        assert ds[..i + 1][..i] == ds[..i];
        savedSeq, applied, cursors, stopped := Turn(repState, name, savedSeq, applied, cursors, ds[i], l);
        l := Receive(l, ds[i]);
        i := i + 1;
      }
      StoppedStays(Started(Lookup(old(repState.seqs), name)), ds, i);
    }
  }

  /** The variables of the loop hold what the listener l stands for. */
  predicate Tracks(l: Listener, cursor: nat, applied: seq<nat>, cursors: seq<nat>, stopped: bool) {
    applied == l.applied && cursors == l.cursors && cursor == l.cursor && stopped == l.stopped
  }

  method Turn(repState: ReplicationState, name: Name, cursor: nat, applied: seq<nat>, cursors: seq<nat>,
              d: Delivery, ghost l: Listener)
    returns (cursor': nat, applied': seq<nat>, cursors': seq<nat>, stopped: bool)
    requires repState.open && Tracks(l, cursor, applied, cursors, false) && Lookup(repState.seqs, name) == l.stored
    modifies repState
    ensures repState.open && SameBut(old(repState.seqs), repState.seqs, name)
    ensures old(repState.Valid()) ==> repState.Valid()
    ensures Tracks(Receive(l, d), cursor', applied', cursors', stopped)
    ensures Lookup(repState.seqs, name) == Receive(l, d).stored
  {
    var verdict;
    cursor', verdict := Handle(repState, name, cursor, d);
    applied', cursors' := applied, cursors;
    if verdict == Applied {
      applied', cursors' := applied + [d.message], cursors + [cursor'];
    } else if verdict == SaveFailed {
      applied' := applied + [d.message];
    }
    stopped := verdict == Failed || verdict == SaveFailed;
  }

  /** One turn of the loop: stale messages are skipped, a failing callback or a
      failing save ends it, and a saved message's answer is the new cursor. */
  method Handle(repState: ReplicationState, name: Name, cursor: nat, d: Delivery)
    returns (cursor': nat, verdict: Verdict)
    requires repState.open
    modifies repState
    ensures repState.open && SameBut(old(repState.seqs), repState.seqs, name)
    ensures old(repState.Valid()) ==> repState.Valid()
    ensures var stored := MaxAll(Lookup(old(repState.seqs), name), d.published);
            && verdict == (if d.message <= cursor then Skipped
                           else if !d.handled then Failed
                           else if d.message > stored && d.disk != DiskOk then SaveFailed
                           else Applied)
            && cursor' == (if verdict == Applied then Max(stored, d.message) else cursor)
            && Lookup(repState.seqs, name) ==
                 if verdict == Applied || (verdict == SaveFailed && d.disk != SeekFails) then Max(stored, d.message)
                 else stored
  {
    cursor', verdict := cursor, Skipped;
    SavePublished(repState, name, d.published);
    if d.message > cursor {
      if d.handled {
        var answer := repState.Save(name, d.message, d.disk);
        if answer.Saved? {
          cursor', verdict := answer.seqNo, Applied;
        } else {
          verdict := SaveFailed;
        }
      } else {
        verdict := Failed;
      }
    }
  }

  method SavePublished(repState: ReplicationState, name: Name, acks: seq<nat>)
    requires repState.open
    modifies repState
    ensures repState.open && SameBut(old(repState.seqs), repState.seqs, name)
    ensures old(repState.Valid()) ==> repState.Valid()
    ensures Lookup(repState.seqs, name) == MaxAll(Lookup(old(repState.seqs), name), acks)
  {
    var i := 0;
    while i < |acks|
      invariant 0 <= i <= |acks| && repState.open && SameBut(old(repState.seqs), repState.seqs, name)
      invariant old(repState.Valid()) ==> repState.Valid()
      invariant Lookup(repState.seqs, name) == MaxAll(Lookup(old(repState.seqs), name), acks[..i])
    {
      assert acks[..i + 1][..i] == acks[..i];
      var _ := repState.Save(name, acks[i], DiskOk);
      i := i + 1;
    }
    assert acks[..i] == acks;
  }

  /** Two maps that differ at most in one entry. */
  ghost predicate SameBut(m: SeqMap, m': SeqMap, name: Name) {
    forall n :: n in m && n != name ==> n in m' && m'[n] == m[n]
  }

  lemma {:induction false} StoppedStays(l: Listener, ds: seq<Delivery>, i: nat)
    requires i <= |ds| && (i == |ds| || ReceiveAll(l, ds[..i]).stopped)
    ensures ReceiveAll(l, ds) == ReceiveAll(l, ds[..i])
    decreases |ds|
  {
    if i == |ds| {
      assert ds[..i] == ds;
    } else {
      var init := ds[..|ds| - 1];
      assert init[..i] == ds[..i];
      StoppedStays(l, init, i);
    }
  }
}
