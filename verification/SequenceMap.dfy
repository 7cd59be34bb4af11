/** The durable sequence map: a map from stream name to sequence, rewritten at
    offset 0 of its file on every advance and never truncated. */
module SequenceMap {
  import opened Basics
  import opened Cbor

  /** How the file behaves during one save. */
  datatype Disk = DiskOk | SeekFails | WriteFails(written: nat)

  datatype Answer = Saved(seqNo: nat) | NotInitialized | DiskError

  /** Writing `bytes` at offset 0 leaves whatever lay beyond them. */
  function Overwrite(file: seq<byte>, bytes: seq<byte>): seq<byte> {
    bytes + if |bytes| <= |file| then file[|bytes|..] else []
  }

  /** What `save` makes of the map. */
  function Advance(m: SeqMap, stream: Name, seqNo: nat): SeqMap {
    if Advances(m, stream, seqNo) then m[stream := seqNo] else m
  }

  predicate Advances(m: SeqMap, stream: Name, seqNo: nat) {
    stream in m ==> m[stream] < seqNo
  }

  function Lookup(m: SeqMap, stream: Name): nat {
    if stream in m then m[stream] else 0
  }

  ghost function PickKey(m: SeqMap): (k: Name)
    requires m != map[]
    ensures k in m
  {
    var k :| k in m;
    k
  }

  ghost function EntriesLength(m: SeqMap): nat
    decreases |m|
  {
    if m == map[] then 0
    else
      var k := PickKey(m);
      |Entry(k, m[k])| + EntriesLength(m - {k})
  }

  /** The length of every encoding of the map. */
  ghost function EncodedLength(m: SeqMap): nat {
    1 + Width(|m|) + EntriesLength(m)
  }

  /** The file is exactly one encoding of the map; a new map has an empty file. */
  ghost predicate Encodes(file: seq<byte>, m: SeqMap) {
    (file == [] && m == map[]) || exists order :: OrderOf(order, m.Keys) && file == EncodeMap(order, m)
  }

  lemma {:induction false} EntriesAgree(order: seq<Name>, m: SeqMap, m': SeqMap)
    requires forall k :: k in order ==> k in m && k in m' && m[k] == m'[k]
    ensures Entries(order, m) == Entries(order, m')
  {
    if order != [] {
      EntriesAgree(order[1..], m, m');
    }
  }

  lemma {:induction false} AnyOrderEntries(order: seq<Name>, m: SeqMap)
    requires OrderOf(order, m.Keys)
    ensures |Entries(order, m)| == EntriesLength(m)
    decreases |m|
  {
    if m == map[] {
      OrderSize(order, m.Keys);
    } else {
      var k := PickKey(m);
      assert k in order;
      var j :| 0 <= j < |order| && order[j] == k;
      var rest := order[..j] + order[j + 1..];
      EntriesWithout(order, m, j);
      OrderWithout(order, m.Keys, j);
      assert (m - {k}).Keys == m.Keys - {k};
      EntriesAgree(rest, m, m - {k});
      AnyOrderEntries(rest, m - {k});
    }
  }

  lemma AnyOrderLength(order: seq<Name>, m: SeqMap)
    requires OrderOf(order, m.Keys)
    ensures |EncodeMap(order, m)| == EncodedLength(m)
  {
    OrderSize(order, m.Keys);
    AnyOrderEntries(order, m);
  }

  /** The encoding never shrinks. */
  lemma LengthGrows(m: SeqMap, m': SeqMap)
    requires forall k :: k in m ==> k in m' && m[k] <= m'[k]
    ensures EncodedLength(m) <= EncodedLength(m')
  {
    var small, large := SomeOrder(m.Keys), SomeOrder(m'.Keys);
    EncodingMonotone(small, m, large, m');
    AnyOrderLength(small, m);
    AnyOrderLength(large, m');
  }

  lemma EncodesLength(file: seq<byte>, m: SeqMap)
    requires Encodes(file, m)
    ensures |file| <= EncodedLength(m)
  {
    if file != [] {
      var order :| OrderOf(order, m.Keys) && file == EncodeMap(order, m);
      AnyOrderLength(order, m);
    }
  }

  /** A file that encodes a map decodes to it, so a restart reads back what was saved. */
  lemma DecodesBack(file: seq<byte>, m: SeqMap)
    requires Encodes(file, m) && Encodable(m) && file != []
    ensures DecodeMap(file) == Some(m)
  {
    var order :| OrderOf(order, m.Keys) && file == EncodeMap(order, m);
    MapRoundTrip(order, m, []);
    assert file + [] == file;
  }

  /** A whole encoding written over a file: the decoder reads no further than it,
      and nothing lies beyond it exactly when the file was not longer. */
  lemma Overwritten(file: seq<byte>, order: seq<Name>, m: SeqMap)
    requires OrderOf(order, m.Keys)
    ensures var file' := Overwrite(file, EncodeMap(order, m));
            && (Encodable(m) ==> DecodeMap(file') == Some(m))
            && (Encodes(file', m) <==> |file| <= EncodedLength(m))
  {
    var bytes := EncodeMap(order, m);
    AnyOrderLength(order, m);
    if Encodable(m) {
      MapRoundTrip(order, m, if |bytes| <= |file| then file[|bytes|..] else []);
    }
    if |file| <= |bytes| {
      assert Overwrite(file, bytes) == bytes;
    }
    if Encodes(Overwrite(file, bytes), m) {
      EncodesLength(Overwrite(file, bytes), m);
    }
  }

  class ReplicationState {
    var seqs: SeqMap
    var file: seq<byte>
    var open: bool

    ghost predicate Valid()
      reads this
    {
      open && |file| <= EncodedLength(seqs)
    }

    constructor ()
      ensures !open && seqs == map[] && file == []
    {
      seqs, file, open := map[], [], false;
    }

    /** Opens a file and loads its map. The error case is content that is no map. */
    method Init(content: seq<byte>) returns (ok: bool)
      modifies this
      ensures open && file == content
      ensures content == [] ==> ok && seqs == map[]
      ensures content != [] ==> ok == DecodeMap(content).Some? && (ok ==> Some(seqs) == DecodeMap(content))
      ensures forall m :: Encodable(m) && Encodes(content, m) ==> ok && seqs == m && Valid()
    {
      file, open, seqs, ok := content, true, map[], true;
      if |content| >= 1 {
        var decoded := DecodeMap(content);
        ok := decoded.Some?;
        if ok {
          seqs := decoded.value;
        }
      }
      forall m | Encodable(m) && Encodes(content, m) ensures ok && seqs == m && Valid() {
        if content != [] {
          DecodesBack(content, m);
        } else {
          EmptyEncodes(m);
        }
        EncodesLength(content, m);
      }
    }

    /** Records a sequence if it advances its stream, and rewrites the file. The
        answer is what the map then holds; a failed write leaves the map ahead of
        the file, and only the next advance rewrites it. A written file decodes
        to the map, and is exactly one encoding of it unless the file was longer
        before: which it never is if it was written by earlier saves. */
    method Save(stream: Name, seqNo: nat, disk: Disk) returns (answer: Answer)
      modifies this
      ensures open == old(open) && (old(Valid()) ==> Valid())
      ensures !open ==> answer == NotInitialized && seqs == old(seqs) && file == old(file)
      ensures open && !Advances(old(seqs), stream, seqNo) ==>
                answer == Saved(Lookup(old(seqs), stream)) && seqs == old(seqs) && file == old(file)
      ensures open && Advances(old(seqs), stream, seqNo) ==>
                match disk
                case SeekFails => answer == DiskError && seqs == old(seqs) && file == old(file)
                case WriteFails(_) => answer == DiskError && seqs == Advance(old(seqs), stream, seqNo)
                case DiskOk =>
                  && answer == Saved(seqNo) && seqs == Advance(old(seqs), stream, seqNo)
                  && (Encodable(seqs) ==> DecodeMap(file) == Some(seqs))
                  && (Encodes(file, seqs) <==> |old(file)| <= EncodedLength(seqs))
                  && (old(Valid()) ==> Encodes(file, seqs))
      ensures answer.Saved? ==> answer.seqNo == Lookup(seqs, stream) && answer.seqNo >= seqNo
    {
      if !open {
        return NotInitialized;
      }
      if stream in seqs && seqNo <= seqs[stream] {
        return Saved(seqs[stream]);
      }
      if disk == SeekFails {
        return DiskError;
      }
      LengthGrows(seqs, seqs[stream := seqNo]);
      seqs := seqs[stream := seqNo];
      var ok := Rewrite(disk);
      answer := if ok then Saved(seqNo) else DiskError;
    }

    /** Writes the encoding of the map over the file, or as much of it as the
        disk takes. */
    method Rewrite(disk: Disk) returns (ok: bool)
      modifies `file
      ensures |file| <= EncodedLength(seqs) || |file| == |old(file)|
      ensures ok == !disk.WriteFails?
      ensures ok && Encodable(seqs) ==> DecodeMap(file) == Some(seqs)
      ensures ok ==> (Encodes(file, seqs) <==> |old(file)| <= EncodedLength(seqs))
    {
      ok := !disk.WriteFails?;
      var bytes, order := EncodeSeqs();
      AnyOrderLength(order, seqs);
      var done := if disk.WriteFails? && disk.written < |bytes| then disk.written else |bytes|;
      ghost var before := file;
      file := Overwrite(file, bytes[..done]);
      if ok {
        assert bytes[..done] == bytes;
        Overwritten(before, order, seqs);
      }
    }

    /** The encoder walks the map in whatever order iteration yields. */
    method EncodeSeqs() returns (bytes: seq<byte>, ghost order: seq<Name>)
      ensures OrderOf(order, seqs.Keys) && bytes == EncodeMap(order, seqs)
    {
      var keys, left := [], seqs.Keys;
      while left != {}
        invariant left <= seqs.Keys && OrderOf(keys, seqs.Keys - left)
      {
        var k :| k in left;
        keys, left := keys + [k], left - {k};
      }
      order := keys;
      bytes := EncodeMap(keys, seqs);
    }

    method Get(stream: Name) returns (seqNo: nat)
      ensures seqNo == Lookup(seqs, stream)
    {
      if stream in seqs {
        return seqs[stream];
      }
      return 0;
    }
  }

  lemma EmptyEncodes(m: SeqMap)
    requires Encodes([], m)
    ensures m == map[]
  {
  }

  function AdvanceAll(m: SeqMap, saves: seq<(Name, nat)>): SeqMap {
    if saves == [] then m
    else
      var last := saves[|saves| - 1];
      Advance(AdvanceAll(m, saves[..|saves| - 1]), last.0, last.1)
  }

  lemma {:induction false} AdvanceAllEncodable(saves: seq<(Name, nat)>)
    requires |saves| < U64
    requires forall i :: 0 <= i < |saves| ==> |saves[i].0| < U64 && saves[i].1 < U64
    ensures Encodable(AdvanceAll(map[], saves)) && |AdvanceAll(map[], saves)| <= |saves|
  {
    if saves != [] {
      var init, last := saves[..|saves| - 1], saves[|saves| - 1];
      AdvanceAllEncodable(init);
      var m := AdvanceAll(map[], init);
      assert m[last.0 := last.1].Keys == m.Keys + {last.0};
      assert |m.Keys + {last.0}| <= |m.Keys| + 1;
    }
  }

  /** A save on a working disk. */
  method SaveNext(state: ReplicationState, stream: Name, seqNo: nat)
    requires state.Valid() && Encodes(state.file, state.seqs)
    modifies state
    ensures state.Valid() && Encodes(state.file, state.seqs) && state.seqs == Advance(old(state.seqs), stream, seqNo)
  {
    var _ := state.Save(stream, seqNo, DiskOk);
  }

  method SaveAll(state: ReplicationState, saves: seq<(Name, nat)>)
    requires state.Valid() && Encodes(state.file, state.seqs)
    modifies state
    ensures state.Valid() && Encodes(state.file, state.seqs) && state.seqs == AdvanceAll(old(state.seqs), saves)
  {
    if saves != [] {
      var last := saves[|saves| - 1];
      SaveAll(state, saves[..|saves| - 1]);
      SaveNext(state, last.0, last.1);
    }
  }

  /** Two processes, one after the other, over the same file: what the second
      loads is what the first saved, however often each stream advanced. */
  method RestartReadsBack(saves: seq<(Name, nat)>) returns (loaded: SeqMap)
    requires |saves| < U64
    requires forall i :: 0 <= i < |saves| ==> |saves[i].0| < U64 && saves[i].1 < U64
    ensures loaded == AdvanceAll(map[], saves)
  {
    var first := new ReplicationState();
    var _ := first.Init([]);
    assert Encodable(map[]) && Encodes([], map[]);
    SaveAll(first, saves);
    AdvanceAllEncodable(saves);
    var second := new ReplicationState();
    var _ := second.Init(first.file);
    loaded := second.seqs;
  }
}
