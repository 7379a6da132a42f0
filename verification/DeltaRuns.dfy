/** One stream over a link: the sender, frames in flight, the reader, and
    acknowledgements travelling back at any speed. */
module DeltaRuns {
  import opened Wire
  import opened WireSize
  import opened ClientValidation
  import opened Delta
  import opened Delivering
  import opened Reading

  /** The frames list holds every frame ever sent; those past the yielded ones are in flight. */
  datatype Link = Link(
    sender: Delivery,
    readAcks: bool,
    handed: seq<SubscriptionItem>,
    frames: seq<SubscriptionItem>,
    reader: Reader,
    yielded: seq<SubscriptionItem>,
    acks: seq<SnapshotAck>,
    refused: bool)

  datatype Move =
    | Hand(item: SubscriptionItem, memo: Memo)
    | Read
    | Install
    | HearNextAck
    | AcksLost

  function Connect(selection: Selection, topics: set<TopicRef>, deltas: bool): Link {
    Link(Delivery(topics, map[]), topics != {}, [], [], Opening(selection, deltas), [], [], false)
  }

  function MoveOnce<V, P>(c: Codec<V, P>, l: Link, move: Move, limit: nat): Link {
    match move
    case Hand(item, memo) =>
      var (sender, frame) := Encode(c, l.sender, item, memo);
      l.(sender := sender, handed := l.handed + [item], frames := l.frames + [frame])
    case Read =>
      if l.refused || |l.yielded| >= |l.frames| then l
      else
        var (reader, result) := ReadNext(c, l.reader, l.frames[|l.yielded|], limit);
        if result.Ok? then l.(reader := reader, yielded := l.yielded + [result.value]) else l.(refused := true)
    case Install =>
      if l.reader.pendingAck.None? then l
      else l.(reader := l.reader.(pendingAck := None), acks := l.acks + [l.reader.pendingAck.value])
    case HearNextAck =>
      if !l.readAcks || l.acks == [] then l
      else l.(sender := Confirm(c, l.sender, l.acks[0]), acks := l.acks[1..])
    case AcksLost => l.(readAcks := false, sender := CLOSED)
  }

  function Moves<V, P>(c: Codec<V, P>, l: Link, moves: seq<Move>, limit: nat): Link {
    if moves == [] then l else MoveOnce(c, Moves(c, l, moves[..|moves| - 1], limit), moves[|moves| - 1], limit)
  }

  // ---- what the service hands over

  function SnapshotIn(item: SubscriptionItem): Option<DataEnvelope> {
    if TopicIn(item).Some? then TopicIn(item).value.snapshot else None
  }

  /** A snapshot agrees with the topic state around it. */
  predicate Agrees(item: SubscriptionItem) {
    SnapshotIn(item).Some? ==>
      var topic := TopicIn(item).value;
      && topic.health == Available
      && topic.snapshot.value.metadata.source == topic.source
      && topic.snapshot.value.metadata.generation == topic.generation
  }

  predicate SameLine(a: EnvelopeMetadata, b: EnvelopeMetadata) {
    a.source == b.source && a.generation == b.generation
  }

  /** Later snapshots of one generation carry larger sequences. */
  predicate Rising(items: seq<SubscriptionItem>) {
    forall i, j :: 0 <= i < j < |items| && SnapshotIn(items[i]).Some? && SnapshotIn(items[j]).Some?
                   && SameLine(SnapshotIn(items[i]).value.metadata, SnapshotIn(items[j]).value.metadata) ==>
      SnapshotIn(items[i]).value.metadata.sequence < SnapshotIn(items[j]).value.metadata.sequence
  }

  predicate ItemFits<V, P>(c: Codec<V, P>, item: SubscriptionItem, texts: set<string>, limit: nat) {
    && Agrees(item) && !item.SnapshotItem?
    && (SnapshotIn(item).Some? ==>
          && ReplySize(item) <= limit
          && SnapshotIn(item).value.payload in texts && Canonical(c, SnapshotIn(item).value.payload))
  }

  /** What is required of the handed stream: the client's validator accepts it, its
      snapshots agree, rise, fit a frame, and are canonical published texts. */
  ghost predicate Orderly<V, P>(c: Codec<V, P>, selection: Selection, items: seq<SubscriptionItem>, texts: set<string>,
                                limit: nat)
  {
    && AcceptAll(selection, items).Ok?
    && Rising(items)
    && (forall i :: 0 <= i < |items| ==> ItemFits(c, items[i], texts, limit))
  }

  lemma OrderlyFront<V, P>(c: Codec<V, P>, selection: Selection, items: seq<SubscriptionItem>, item: SubscriptionItem,
                           texts: set<string>, limit: nat)
    requires Orderly(c, selection, items + [item], texts, limit)
    ensures Orderly(c, selection, items, texts, limit) && ItemFits(c, item, texts, limit)
    ensures forall i :: 0 <= i < |items| && SnapshotIn(items[i]).Some? && SnapshotIn(item).Some?
                        && SameLine(SnapshotIn(items[i]).value.metadata, SnapshotIn(item).value.metadata) ==>
              SnapshotIn(items[i]).value.metadata.sequence < SnapshotIn(item).value.metadata.sequence
  {
    var all := items + [item];
    assert all[..|items|] == items && all[|items|] == item;
    assert forall i :: 0 <= i < |items| ==> all[i] == items[i];
  }

  // ---- the mirror: the reader's baselines as a function of the stream

  function Mirror(handed: seq<SubscriptionItem>, frames: seq<SubscriptionItem>, deltas: bool, n: nat)
    : map<Key, DataEnvelope>
    requires n <= |handed| && n <= |frames|
  {
    if n == 0 then map[]
    else Mirrored(Mirror(handed, frames, deltas, n - 1), handed[n - 1], frames[n - 1].SnapshotItem? && deltas)
  }

  lemma {:induction false} MirrorExtends(handed: seq<SubscriptionItem>, frames: seq<SubscriptionItem>, deltas: bool,
                                         item: SubscriptionItem, frame: SubscriptionItem, n: nat)
    requires n <= |handed| == |frames|
    ensures Mirror(handed + [item], frames + [frame], deltas, n) == Mirror(handed, frames, deltas, n)
  {
    if n > 0 {
      MirrorExtends(handed, frames, deltas, item, frame, n - 1);
    }
  }

  /** The item replaces or removes the baseline of the key. */
  predicate Touches(item: SubscriptionItem, key: Key) {
    match TopicIn(item)
    case Some(topic) => KeyOf(topic.source) == key
    case None =>
      item.Update? && match item.envelope.update
                      case TopicReset(source, _, _) => KeyOf(source) == key
                      case SessionEnded(session, _) => key.session == session
                      case _ => false
  }

  /** The m-th item put this snapshot under the key, as a snapshot frame, and nothing since has touched it. */
  predicate LatestAt(handed: seq<SubscriptionItem>, frames: seq<SubscriptionItem>, key: Key, snapshot: DataEnvelope,
                     m: nat)
  {
    && m < |handed| && m < |frames|
    && SnapshotIn(handed[m]) == Some(snapshot) && KeyOf(TopicIn(handed[m]).value.source) == key
    && frames[m].SnapshotItem?
    && forall i :: m < i < |handed| ==> !Touches(handed[i], key)
  }

  lemma {:induction false} LatestMirrored(handed: seq<SubscriptionItem>, frames: seq<SubscriptionItem>, key: Key,
                                          snapshot: DataEnvelope, m: nat, n: nat)
    requires LatestAt(handed, frames, key, snapshot, m) && m < n <= |handed| && n <= |frames|
    ensures var mirror := Mirror(handed, frames, true, n);
            key in mirror && mirror[key] == snapshot
    decreases n
  {
    if n > m + 1 {
      LatestMirrored(handed, frames, key, snapshot, m, n - 1);
      assert !Touches(handed[n - 1], key);
    }
  }

  // ---- the invariant

  /** A baseline of the sender is the latest snapshot handed for its key; if it is
      acknowledged, the reader has already taken it in. */
  ghost predicate BaselineOk(l: Link, key: Key) {
    key in l.sender.baselines ==>
      && key.topic in l.sender.topics
      && var baseline := l.sender.baselines[key];
         && (exists m: nat :: LatestAt(l.handed, l.frames, key, baseline.snapshot, m)
                         && (baseline.acknowledged ==> m < |l.yielded|))
         && (baseline.acknowledged ==> l.reader.deltas)
  }

  /** An acknowledgement under way names a snapshot that the reader has taken in. */
  ghost predicate AckOk<V, P>(c: Codec<V, P>, l: Link, ack: SnapshotAck) {
    && l.reader.deltas
    && exists j: nat :: j < |l.yielded| && j < |l.handed| && AckOf(c, l.handed[j]) == Some(ack)
  }

  /** The i-th frame, read in its turn, gives back the i-th item. */
  predicate Decodes<V, P>(c: Codec<V, P>, l: Link, limit: nat, i: nat)
    requires i < |l.handed| == |l.frames|
  {
    Decode(c, l.frames[i], Mirror(l.handed, l.frames, l.reader.deltas, i), limit) == Ok(l.handed[i])
  }

  ghost predicate LinkOk<V, P>(c: Codec<V, P>, selection: Selection, l: Link, limit: nat) {
    && !l.refused
    && |l.yielded| <= |l.handed| == |l.frames|
    && l.yielded == l.handed[..|l.yielded|]
    && l.reader.baselines == Mirror(l.handed, l.frames, l.reader.deltas, |l.yielded|)
    && AcceptAll(selection, l.yielded) == Ok(l.reader.validation)
    && (!l.readAcks ==> l.sender.topics == {})
    && (forall key :: BaselineOk(l, key))
    && (forall i :: |l.yielded| <= i < |l.handed| ==> Decodes(c, l, limit, i))
    && (forall ack :: ack in l.acks ==> AckOk(c, l, ack))
    && (l.reader.pendingAck.Some? ==> AckOk(c, l, l.reader.pendingAck.value))
  }

  // ---- handing over one more item

  lemma FullDecodes<V, P>(c: Codec<V, P>, item: SubscriptionItem, target: DataEnvelope, base: Option<DataEnvelope>)
    requires SnapshotIn(item) == Some(target) && Agrees(item)
    ensures Reconstruct(c, SnapshotFrame(CursorIn(item), target.metadata, Full(target.payload)), base) == Ok(item)
  {
  }

  lemma DeltaDecodes<V(!new), P(!new)>(c: Codec<V, P>, item: SubscriptionItem, base: DataEnvelope, target: DataEnvelope,
                                       memo: Memo, texts: set<string>)
    requires Laws(c) && CollisionFree(c, texts) && MemoOk(c, target.payload, texts, memo)
    requires SnapshotIn(item) == Some(target) && Agrees(item)
    requires base.payload in texts && target.payload in texts && Canonical(c, target.payload)
    requires SameLine(base.metadata, target.metadata) && base.metadata.sequence < target.metadata.sequence
    requires Between(c, base, target, memo).Some?
    ensures Reconstruct(c, SnapshotFrame(CursorIn(item), target.metadata, Between(c, base, target, memo).value), Some(base))
            == Ok(item)
  {
    DeltaIffCanonical(c, base, target, memo, CursorIn(item), texts);
  }

  /** What the sender knows of an acknowledged baseline. */
  lemma BaselineKnown<V, P>(c: Codec<V, P>, selection: Selection, l: Link, item: SubscriptionItem, key: Key,
                            texts: set<string>, limit: nat)
    requires LinkOk(c, selection, l, limit) && Orderly(c, selection, l.handed + [item], texts, limit)
    requires key in l.sender.baselines && l.sender.baselines[key].acknowledged
    ensures var base := l.sender.baselines[key].snapshot;
            && l.reader.deltas && key in l.reader.baselines && l.reader.baselines[key] == base
            && base.payload in texts
            && BaselineFor(Mirror(l.handed, l.frames, l.reader.deltas, |l.handed|), key) == Some(base)
            && (SnapshotIn(item).Some? && SameLine(base.metadata, SnapshotIn(item).value.metadata) ==>
                  base.metadata.sequence < SnapshotIn(item).value.metadata.sequence)
  {
    assert BaselineOk(l, key);
    var base := l.sender.baselines[key].snapshot;
    var m: nat :| LatestAt(l.handed, l.frames, key, base, m) && m < |l.yielded|;
    OrderlyFront(c, selection, l.handed, item, texts, limit);
    assert ItemFits(c, l.handed[m], texts, limit);
    LatestMirrored(l.handed, l.frames, key, base, m, |l.handed|);
    LatestMirrored(l.handed, l.frames, key, base, m, |l.yielded|);
  }

  lemma EncodedAs<V, P>(c: Codec<V, P>, d: Delivery, item: SubscriptionItem, memo: Memo)
    ensures var frame := Encode(c, d, item, memo).1;
            if frame.SnapshotItem? && !item.SnapshotItem? then
              && SnapshotIn(item).Some?
              && var target := SnapshotIn(item).value;
                 var key := KeyOf(TopicIn(item).value.source);
                 && frame.frame == SnapshotFrame(CursorIn(item), target.metadata, frame.frame.payload)
                 && (frame.frame.payload == Full(target.payload)
                     || (Usable(d, key, target)
                         && Between(c, d.baselines[key].snapshot, target, memo) == Some(frame.frame.payload)))
            else frame == item
  {
  }

  lemma SnapshotDecodes<V(!new), P(!new)>(c: Codec<V, P>, selection: Selection, l: Link, item: SubscriptionItem,
                                          memo: Memo, frame: SnapshotFrame, texts: set<string>, limit: nat)
    requires Laws(c) && CollisionFree(c, texts)
    requires LinkOk(c, selection, l, limit) && Orderly(c, selection, l.handed + [item], texts, limit)
    requires ItemFits(c, item, texts, limit) && SnapshotIn(item).Some?
    requires MemoOk(c, SnapshotIn(item).value.payload, texts, memo)
    requires Encode(c, l.sender, item, memo).1 == SnapshotItem(frame)
    ensures Reconstruct(c, frame, BaselineFor(Mirror(l.handed, l.frames, l.reader.deltas, |l.handed|),
                                              KeyOf(frame.metadata.source))) == Ok(item)
  {
    var target := SnapshotIn(item).value;
    var key := KeyOf(TopicIn(item).value.source);
    EncodedAs(c, l.sender, item, memo);
    if frame.payload == Full(target.payload) {
      FullDecodes(c, item, target, BaselineFor(Mirror(l.handed, l.frames, l.reader.deltas, |l.handed|), key));
    } else {
      BaselineKnown(c, selection, l, item, key, texts, limit);
      DeltaDecodes(c, item, l.sender.baselines[key].snapshot, target, memo, texts);
    }
  }

  lemma FrameDecodes<V(!new), P(!new)>(c: Codec<V, P>, selection: Selection, l: Link, item: SubscriptionItem, memo: Memo,
                                       texts: set<string>, limit: nat)
    requires Laws(c) && CollisionFree(c, texts)
    requires SnapshotIn(item).Some? ==> MemoOk(c, SnapshotIn(item).value.payload, texts, memo)
    requires LinkOk(c, selection, l, limit) && Orderly(c, selection, l.handed + [item], texts, limit)
    ensures Decode(c, Encode(c, l.sender, item, memo).1, Mirror(l.handed, l.frames, l.reader.deltas, |l.handed|), limit)
            == Ok(item)
  {
    OrderlyFront(c, selection, l.handed, item, texts, limit);
    EncodedAs(c, l.sender, item, memo);
    var frame := Encode(c, l.sender, item, memo).1;
    if frame.SnapshotItem? {
      SnapshotDecodes(c, selection, l, item, memo, frame.frame, texts, limit);
    }
  }

  lemma LatestStays(handed: seq<SubscriptionItem>, frames: seq<SubscriptionItem>, item: SubscriptionItem,
                    frame: SubscriptionItem, key: Key, snapshot: DataEnvelope, m: nat)
    requires LatestAt(handed, frames, key, snapshot, m) && !Touches(item, key) && |handed| == |frames|
    ensures LatestAt(handed + [item], frames + [frame], key, snapshot, m)
  {
  }

  lemma HandBaseline<V, P>(c: Codec<V, P>, l: Link, item: SubscriptionItem, memo: Memo, key: Key, limit: nat)
    requires |l.yielded| <= |l.handed| == |l.frames| && BaselineOk(l, key)
    ensures BaselineOk(MoveOnce(c, l, Hand(item, memo), limit), key)
  {
    var next := MoveOnce(c, l, Hand(item, memo), limit);
    var frame := Encode(c, l.sender, item, memo).1;
    if key in next.sender.baselines {
      if Touches(item, key) {
        assert LatestAt(next.handed, next.frames, key, next.sender.baselines[key].snapshot, |l.handed|);
      } else {
        var baseline := l.sender.baselines[key];
        var m: nat :| LatestAt(l.handed, l.frames, key, baseline.snapshot, m)
                      && (baseline.acknowledged ==> m < |l.yielded|);
        LatestStays(l.handed, l.frames, item, frame, key, baseline.snapshot, m);
      }
    }
  }

  lemma AckStays<V, P>(c: Codec<V, P>, l: Link, next: Link, ack: SnapshotAck)
    requires AckOk(c, l, ack) && next.reader.deltas == l.reader.deltas
    requires l.yielded <= next.yielded && l.handed <= next.handed
    ensures AckOk(c, next, ack)
  {
    var j: nat :| j < |l.yielded| && j < |l.handed| && AckOf(c, l.handed[j]) == Some(ack);
    assert next.handed[j] == l.handed[j];
  }

  lemma HandDecodes<V(!new), P(!new)>(c: Codec<V, P>, selection: Selection, l: Link, item: SubscriptionItem, memo: Memo,
                                      texts: set<string>, limit: nat, i: nat)
    requires Laws(c) && CollisionFree(c, texts)
    requires SnapshotIn(item).Some? ==> MemoOk(c, SnapshotIn(item).value.payload, texts, memo)
    requires LinkOk(c, selection, l, limit) && Orderly(c, selection, l.handed + [item], texts, limit)
    requires |l.yielded| <= i <= |l.handed|
    ensures Decodes(c, MoveOnce(c, l, Hand(item, memo), limit), limit, i)
  {
    var frame := Encode(c, l.sender, item, memo).1;
    MirrorExtends(l.handed, l.frames, l.reader.deltas, item, frame, i);
    if i == |l.handed| {
      FrameDecodes(c, selection, l, item, memo, texts, limit);
    } else {
      assert Decodes(c, l, limit, i);
    }
  }

  lemma EncodeTopics<V, P>(c: Codec<V, P>, d: Delivery, item: SubscriptionItem, memo: Memo)
    ensures Encode(c, d, item, memo).0.topics == d.topics
  {
  }

  lemma HandKeeps<V(!new), P(!new)>(c: Codec<V, P>, selection: Selection, l: Link, item: SubscriptionItem, memo: Memo,
                                    texts: set<string>, limit: nat)
    requires Laws(c) && CollisionFree(c, texts)
    requires SnapshotIn(item).Some? ==> MemoOk(c, SnapshotIn(item).value.payload, texts, memo)
    requires LinkOk(c, selection, l, limit) && Orderly(c, selection, l.handed + [item], texts, limit)
    ensures LinkOk(c, selection, MoveOnce(c, l, Hand(item, memo), limit), limit)
  {
    hide Encode, Orderly, Decodes, BaselineOk, AckOk, AcceptAll, Mirror, MemoOk;
    EncodeTopics(c, l.sender, item, memo);
    var next := MoveOnce(c, l, Hand(item, memo), limit);
    var frame := Encode(c, l.sender, item, memo).1;
    MirrorExtends(l.handed, l.frames, l.reader.deltas, item, frame, |l.yielded|);
    forall key ensures BaselineOk(next, key) {
      HandBaseline(c, l, item, memo, key, limit);
    }
    forall i | |l.yielded| <= i < |next.handed| ensures Decodes(c, next, limit, i) {
      HandDecodes(c, selection, l, item, memo, texts, limit, i);
    }
    forall ack | AckOk(c, l, ack) ensures AckOk(c, next, ack) {
      AckStays(c, l, next, ack);
    }
  }

  // ---- reading

  lemma {:induction false} AcceptPrefix(selection: Selection, items: seq<SubscriptionItem>, n: nat)
    requires AcceptAll(selection, items).Ok? && n <= |items|
    ensures AcceptAll(selection, items[..n]).Ok?
  {
    if n < |items| {
      AcceptPrefix(selection, items[..|items| - 1], n);
      assert items[..|items| - 1][..n] == items[..n];
    } else {
      assert items[..n] == items;
    }
  }

  lemma AcceptNext(selection: Selection, items: seq<SubscriptionItem>, k: nat, v: Validation)
    requires AcceptAll(selection, items).Ok? && k < |items| && AcceptAll(selection, items[..k]) == Ok(v)
    ensures Accept(v, items[k]).Ok? && AcceptAll(selection, items[..k + 1]) == Accept(v, items[k])
  {
    hide Accept;
    AcceptPrefix(selection, items, k + 1);
    var more := items[..k + 1];
    assert more[..k] == items[..k] && more[k] == items[k];
  }

  lemma ReadAccepts<V, P>(c: Codec<V, P>, r: Reader, frame: SubscriptionItem, item: SubscriptionItem, limit: nat)
    requires Decode(c, frame, r.baselines, limit) == Ok(item) && Accept(r.validation, item).Ok?
    ensures ReadNext(c, r, frame, limit)
            == (Advanced(c, r, Accept(r.validation, item).value, item, frame.SnapshotItem? && r.deltas), Ok(item))
  {
  }

  /** The reader's next frame, whatever it is, yields the next item handed over. */
  lemma ReadYields<V, P>(c: Codec<V, P>, selection: Selection, l: Link, texts: set<string>, limit: nat)
    requires LinkOk(c, selection, l, limit) && Orderly(c, selection, l.handed, texts, limit)
    requires |l.yielded| < |l.frames|
    ensures var k := |l.yielded|;
            var (reader, result) := ReadNext(c, l.reader, l.frames[k], limit);
            && result == Ok(l.handed[k])
            && reader == Advanced(c, l.reader, reader.validation, l.handed[k],
                                  l.frames[k].SnapshotItem? && l.reader.deltas)
            && AcceptAll(selection, l.handed[..k + 1]) == Ok(reader.validation)
  {
    var k := |l.yielded|;
    assert Decodes(c, l, limit, k);
    AcceptNext(selection, l.handed, k, l.reader.validation);
    ReadAccepts(c, l.reader, l.frames[k], l.handed[k], limit);
  }

  lemma ReadShape<V, P>(c: Codec<V, P>, selection: Selection, l: Link, next: Link, texts: set<string>, limit: nat)
    requires LinkOk(c, selection, l, limit) && Orderly(c, selection, l.handed, texts, limit)
    requires |l.yielded| < |l.frames| && next == MoveOnce(c, l, Read, limit)
    ensures next == l.(reader := next.reader, yielded := l.handed[..|l.yielded| + 1])
    ensures next.reader.deltas == l.reader.deltas
    ensures AcceptAll(selection, next.yielded) == Ok(next.reader.validation)
    ensures next.reader.baselines == Mirror(l.handed, l.frames, l.reader.deltas, |l.yielded| + 1)
    ensures next.reader.pendingAck == l.reader.pendingAck
            || (l.reader.deltas && next.reader.pendingAck.Some?
                && next.reader.pendingAck == AckOf(c, l.handed[|l.yielded|]))
  {
    hide ReadNext, BaselineOk, AckOk, Orderly, AcceptAll, Mirrored, AckOf;
    ReadYields(c, selection, l, texts, limit);
    assert l.handed[..|l.yielded| + 1] == l.yielded + [l.handed[|l.yielded|]];
  }

  lemma ReadKeeps<V, P>(c: Codec<V, P>, selection: Selection, l: Link, texts: set<string>, limit: nat)
    requires LinkOk(c, selection, l, limit) && Orderly(c, selection, l.handed, texts, limit)
    ensures LinkOk(c, selection, MoveOnce(c, l, Read, limit), limit)
  {
    hide Mirror, Accept, AcceptAll, Orderly, ReadNext;
    var next := MoveOnce(c, l, Read, limit);
    if |l.yielded| < |l.frames| {
      ReadShape(c, selection, l, next, texts, limit);
      forall key ensures BaselineOk(next, key) {
        assert BaselineOk(l, key);
      }
      forall i | |next.yielded| <= i < |next.handed| ensures Decodes(c, next, limit, i) {
        assert Decodes(c, l, limit, i);
      }
      forall ack | AckOk(c, l, ack) ensures AckOk(c, next, ack) {
        AckStays(c, l, next, ack);
      }
    }
  }

  // ---- acknowledging

  lemma InstallKeeps<V, P>(c: Codec<V, P>, selection: Selection, l: Link, limit: nat)
    requires LinkOk(c, selection, l, limit)
    ensures LinkOk(c, selection, MoveOnce(c, l, Install, limit), limit)
  {
    var next := MoveOnce(c, l, Install, limit);
    forall key ensures BaselineOk(next, key) {
      assert BaselineOk(l, key);
    }
    forall i | |next.yielded| <= i < |next.handed| ensures Decodes(c, next, limit, i) {
      assert Decodes(c, l, limit, i);
    }
    forall ack | AckOk(c, l, ack) ensures AckOk(c, next, ack) {
      AckStays(c, l, next, ack);
    }
  }

  /** An acknowledgement confirms exactly the baseline it was sent for: were the
      baseline newer, its sequence would be larger than the one acknowledged. */
  lemma AckNamesBaseline<V, P>(c: Codec<V, P>, selection: Selection, l: Link, ack: SnapshotAck, key: Key,
                               texts: set<string>, limit: nat)
    requires LinkOk(c, selection, l, limit) && Orderly(c, selection, l.handed, texts, limit) && AckOk(c, l, ack)
    requires key == KeyOf(ack.metadata.source) && key in l.sender.baselines
    requires l.sender.baselines[key].snapshot.metadata == ack.metadata
    ensures exists m: nat :: LatestAt(l.handed, l.frames, key, l.sender.baselines[key].snapshot, m) && m < |l.yielded|
  {
    assert BaselineOk(l, key);
    var snapshot := l.sender.baselines[key].snapshot;
    var m: nat :| LatestAt(l.handed, l.frames, key, snapshot, m);
    var j: nat :| j < |l.yielded| && j < |l.handed| && AckOf(c, l.handed[j]) == Some(ack);
    assert SnapshotIn(l.handed[j]).value.metadata == ack.metadata;
    assert m == j;
  }

  lemma HearBaseline<V, P>(c: Codec<V, P>, selection: Selection, l: Link, next: Link, key: Key, texts: set<string>,
                           limit: nat)
    requires LinkOk(c, selection, l, limit) && Orderly(c, selection, l.handed, texts, limit)
    requires l.readAcks && l.acks != [] && next == MoveOnce(c, l, HearNextAck, limit)
    ensures BaselineOk(next, key)
  {
    assert BaselineOk(l, key);
    var ack := l.acks[0];
    assert AckOk(c, l, ack);
    if next.sender != l.sender && key == KeyOf(ack.metadata.source) {
      AckNamesBaseline(c, selection, l, ack, key, texts, limit);
    }
  }

  lemma HearKeeps<V, P>(c: Codec<V, P>, selection: Selection, l: Link, texts: set<string>, limit: nat)
    requires LinkOk(c, selection, l, limit) && Orderly(c, selection, l.handed, texts, limit)
    ensures LinkOk(c, selection, MoveOnce(c, l, HearNextAck, limit), limit)
  {
    var next := MoveOnce(c, l, HearNextAck, limit);
    if l.readAcks && l.acks != [] {
      forall key ensures BaselineOk(next, key) {
        HearBaseline(c, selection, l, next, key, texts, limit);
      }
      forall i | |next.yielded| <= i < |next.handed| ensures Decodes(c, next, limit, i) {
        assert Decodes(c, l, limit, i);
      }
      forall ack | AckOk(c, l, ack) ensures AckOk(c, next, ack) {
        AckStays(c, l, next, ack);
      }
    }
  }

  lemma LostKeeps<V, P>(c: Codec<V, P>, selection: Selection, l: Link, limit: nat)
    requires LinkOk(c, selection, l, limit)
    ensures LinkOk(c, selection, MoveOnce(c, l, AcksLost, limit), limit)
  {
    var next := MoveOnce(c, l, AcksLost, limit);
    forall i | |next.yielded| <= i < |next.handed| ensures Decodes(c, next, limit, i) {
      assert Decodes(c, l, limit, i);
    }
    forall ack | AckOk(c, l, ack) ensures AckOk(c, next, ack) {
      AckStays(c, l, next, ack);
    }
  }

  // ---- whole runs

  /** Every memo consulted was written by some earlier patch of the same payload. */
  ghost predicate HonestMoves<V, P>(c: Codec<V, P>, moves: seq<Move>, texts: set<string>) {
    forall move :: move in moves && move.Hand? && SnapshotIn(move.item).Some? ==>
      MemoOk(c, SnapshotIn(move.item).value.payload, texts, move.memo)
  }

  lemma MoveKeeps<V(!new), P(!new)>(c: Codec<V, P>, selection: Selection, l: Link, move: Move, texts: set<string>,
                                    limit: nat)
    requires Laws(c) && CollisionFree(c, texts) && LinkOk(c, selection, l, limit)
    requires move.Hand? && SnapshotIn(move.item).Some? ==> MemoOk(c, SnapshotIn(move.item).value.payload, texts, move.memo)
    requires Orderly(c, selection, MoveOnce(c, l, move, limit).handed, texts, limit)
    ensures LinkOk(c, selection, MoveOnce(c, l, move, limit), limit)
    ensures Orderly(c, selection, l.handed, texts, limit)
  {
    match move
    case Hand(item, memo) =>
      OrderlyFront(c, selection, l.handed, item, texts, limit);
      HandKeeps(c, selection, l, item, memo, texts, limit);
    case Read => ReadKeeps(c, selection, l, texts, limit);
    case Install => InstallKeeps(c, selection, l, limit);
    case HearNextAck => HearKeeps(c, selection, l, texts, limit);
    case AcksLost => LostKeeps(c, selection, l, limit);
  }

  lemma ConnectOk<V, P>(c: Codec<V, P>, selection: Selection, topics: set<TopicRef>, deltas: bool, limit: nat)
    ensures LinkOk(c, selection, Connect(selection, topics, deltas), limit)
  {
  }

  lemma HandedFront<V, P>(c: Codec<V, P>, l: Link, move: Move, limit: nat)
    ensures l.handed == MoveOnce(c, l, move, limit).handed
            || (move.Hand? && MoveOnce(c, l, move, limit).handed == l.handed + [move.item])
  {
  }

  lemma {:induction false} LinkRuns<V(!new), P(!new)>(c: Codec<V, P>, selection: Selection, topics: set<TopicRef>,
                                                      deltas: bool, moves: seq<Move>, texts: set<string>, limit: nat)
    requires Laws(c) && CollisionFree(c, texts) && HonestMoves(c, moves, texts)
    requires Orderly(c, selection, Moves(c, Connect(selection, topics, deltas), moves, limit).handed, texts, limit)
    ensures LinkOk(c, selection, Moves(c, Connect(selection, topics, deltas), moves, limit), limit)
    decreases |moves|
  {
    if moves == [] {
      ConnectOk(c, selection, topics, deltas, limit);
    } else {
      var front, last := moves[..|moves| - 1], moves[|moves| - 1];
      var l := Moves(c, Connect(selection, topics, deltas), front, limit);
      HandedFront(c, l, last, limit);
      if last.Hand? {
        OrderlyFront(c, selection, l.handed, last.item, texts, limit);
      }
      assert last in moves;
      LinkRuns(c, selection, topics, deltas, front, texts, limit);
      MoveKeeps(c, selection, l, last, texts, limit);
    }
  }

  /** Delta transparency. Whatever the timing of frames and acknowledgements, and even
      when patches come from the shared memo, the reader refuses nothing and has
      yielded exactly a prefix of what was handed to the encoder; reading on yields
      the next item. */
  lemma DeltasAreTransparent<V(!new), P(!new)>(c: Codec<V, P>, selection: Selection, topics: set<TopicRef>, deltas: bool,
                                               moves: seq<Move>, texts: set<string>, limit: nat)
    requires Laws(c) && CollisionFree(c, texts) && HonestMoves(c, moves, texts)
    requires Orderly(c, selection, Moves(c, Connect(selection, topics, deltas), moves, limit).handed, texts, limit)
    ensures var l := Moves(c, Connect(selection, topics, deltas), moves, limit);
            && !l.refused && l.yielded <= l.handed && |l.handed| == |l.frames|
            && (|l.yielded| < |l.handed| ==>
                  MoveOnce(c, l, Read, limit).yielded == l.handed[..|l.yielded| + 1])
  {
    LinkRuns(c, selection, topics, deltas, moves, texts, limit);
    var l := Moves(c, Connect(selection, topics, deltas), moves, limit);
    if |l.yielded| < |l.handed| {
      ReadShape(c, selection, l, MoveOnce(c, l, Read, limit), texts, limit);
    }
  }

  predicate IsDelta(frame: SubscriptionItem) {
    frame.SnapshotItem? && frame.frame.payload.Delta?
  }

  /** A delta is only ever sent against a snapshot that the reader holds installed,
      has acknowledged, and still shares source and generation; a stream whose
      acknowledgement side is closed, or whose reader takes no deltas, carries none. */
  lemma DeltasRestOnInstalledBaselines<V(!new), P(!new)>(
      c: Codec<V, P>, selection: Selection, topics: set<TopicRef>, deltas: bool, moves: seq<Move>,
      item: SubscriptionItem, memo: Memo, texts: set<string>, limit: nat)
    requires Laws(c) && CollisionFree(c, texts) && HonestMoves(c, moves, texts)
    requires Orderly(c, selection, Moves(c, Connect(selection, topics, deltas), moves, limit).handed + [item], texts, limit)
    ensures var l := Moves(c, Connect(selection, topics, deltas), moves, limit);
            var frame := Encode(c, l.sender, item, memo).1;
            IsDelta(frame) ==>
              && l.readAcks && l.reader.deltas
              && var key := KeyOf(frame.frame.metadata.source);
                 && key in l.sender.baselines && l.sender.baselines[key].acknowledged
                 && key in l.reader.baselines
                 && l.reader.baselines[key] == l.sender.baselines[key].snapshot
                 && SameLine(l.reader.baselines[key].metadata, frame.frame.metadata)
                 && l.reader.baselines[key].metadata.sequence == frame.frame.payload.baseSequence
                 && frame.frame.payload.baseSequence < frame.frame.metadata.sequence
  {
    var l := Moves(c, Connect(selection, topics, deltas), moves, limit);
    OrderlyFront(c, selection, l.handed, item, texts, limit);
    LinkRuns(c, selection, topics, deltas, moves, texts, limit);
    var frame := Encode(c, l.sender, item, memo).1;
    if IsDelta(frame) {
      var key := KeyOf(TopicIn(item).value.source);
      assert BaselineOk(l, key);
      BaselineKnown(c, selection, l, item, key, texts, limit);
    }
  }
}
