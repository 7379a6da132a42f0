/** Snapshot deltas: building a patch against a baseline, and rebuilding the snapshot. */
module Delta {
  import opened Wire
  import opened WireSize

  /** The JSON, patch and digest libraries, taken as given. V is a parsed value, P a
      parsed patch; simple patches only add, remove and replace. */
  datatype Codec<!V, !P> = Codec(
    parse: string -> Option<V>,
    render: V -> string,
    diff: (V, V) -> P,
    apply: (P, V) -> Option<V>,
    parsePatch: string -> Option<P>,
    renderPatch: P -> string,
    simple: P -> bool,
    digest: string -> Hash)

  /** What is assumed of them: a difference is simple, survives printing, and applies. */
  ghost predicate Laws<V(!new), P(!new)>(c: Codec<V, P>) {
    forall a, b ::
      && c.simple(c.diff(a, b))
      && c.parsePatch(c.renderPatch(c.diff(a, b))) == Some(c.diff(a, b))
      && c.apply(c.diff(a, b), a) == Some(b)
  }

  /** Text that printing its parsed value gives back. */
  predicate Canonical<V, P>(c: Codec<V, P>, text: string) {
    c.parse(text).Some? && c.render(c.parse(text).value) == text
  }

  /** No two of the texts in play share a digest. */
  ghost predicate CollisionFree<V, P>(c: Codec<V, P>, texts: set<string>) {
    forall a, b :: a in texts && b in texts && c.digest(a) == c.digest(b) ==> a == b
  }

  /** The patch computed afresh, if both texts parse. */
  function FreshPatch<V, P>(c: Codec<V, P>, base: string, target: string): Option<string> {
    match c.parse(base)
    case None => None
    case Some(before) =>
      match c.parse(target)
      case None => None
      case Some(after) => Some(c.renderPatch(c.diff(before, after)))
  }

  /** The one patch a payload remembers, with the digest of the baseline it starts from. */
  type Memo = Option<(Hash, string)>

  /** A memo holds the patch from some text in play. */
  ghost predicate MemoOk<V, P>(c: Codec<V, P>, target: string, texts: set<string>, memo: Memo) {
    memo.Some? ==>
      exists base :: base in texts && c.digest(base) == memo.value.0 && FreshPatch(c, base, target) == Some(memo.value.1)
  }

  function PatchFrom<V, P>(c: Codec<V, P>, base: string, target: string, memo: Memo): Option<string> {
    if memo.Some? && memo.value.0 == c.digest(base) then Some(memo.value.1) else FreshPatch(c, base, target)
  }

  /** A remembered patch is the patch that would be computed. */
  lemma MemoIsFresh<V, P>(c: Codec<V, P>, base: string, target: string, texts: set<string>, memo: Memo)
    requires CollisionFree(c, texts) && base in texts && MemoOk(c, target, texts, memo)
    ensures PatchFrom(c, base, target, memo) == FreshPatch(c, base, target)
  {
  }

  function Between<V, P>(c: Codec<V, P>, base: DataEnvelope, target: DataEnvelope, memo: Memo): Option<SnapshotPayload> {
    match PatchFrom(c, base.payload, target.payload, memo)
    case None => None
    case Some(patch) => Some(Delta(base.metadata.sequence, c.digest(target.payload), patch))
  }

  datatype Mismatch =
    | BaselineMismatch
    | InvalidBaseline
    | InvalidPatch
    | UnsupportedOperation
    | PatchFailed
    | HashMismatch
    | OverFrameLimit

  /** The payload text of a frame, rebuilt against the baseline if it is a delta. */
  function Rebuild<V, P>(c: Codec<V, P>, frame: SnapshotFrame, base: Option<DataEnvelope>): Result<JsonPayload, Mismatch> {
    match frame.payload
    case Full(payload) => Ok(payload)
    case Delta(baseSequence, hash, patchText) =>
      if !(&& base.Some?
           && base.value.metadata.source == frame.metadata.source
           && base.value.metadata.generation == frame.metadata.generation
           && base.value.metadata.sequence == baseSequence
           && baseSequence < frame.metadata.sequence)
      then Err(BaselineMismatch)
      else
        var value := c.parse(base.value.payload);
        if value.None? then Err(InvalidBaseline)
        else
          var patch := c.parsePatch(patchText);
          if patch.None? then Err(InvalidPatch)
          else if !c.simple(patch.value) then Err(UnsupportedOperation)
          else
            var patched := c.apply(patch.value, value.value);
            if patched.None? then Err(PatchFailed)
            else if c.digest(c.render(patched.value)) != hash then Err(HashMismatch)
            else Ok(c.render(patched.value))
  }

  /** The item that a snapshot frame stands for. */
  function Reconstruct<V, P>(c: Codec<V, P>, frame: SnapshotFrame, base: Option<DataEnvelope>)
    : Result<SubscriptionItem, Mismatch>
  {
    match Rebuild(c, frame, base)
    case Err(e) => Err(e)
    case Ok(payload) =>
      var topic := TopicSnapshot(frame.metadata.source, frame.metadata.generation, Available,
                                 Some(DataEnvelope(frame.metadata, payload)));
      Ok(match frame.cursor
         case None => TopicFrame(topic)
         case Some(cursor) => Update(UpdateEnvelope(cursor, TopicChanged(topic))))
  }

  /** A delta against its own baseline rebuilds the target exactly when the target text
      is canonical; any other target is refused for its digest, never misread. */
  lemma DeltaIffCanonical<V(!new), P(!new)>(c: Codec<V, P>, base: DataEnvelope, target: DataEnvelope, memo: Memo,
                                            cursor: Option<ServiceCursor>, texts: set<string>)
    requires Laws(c) && CollisionFree(c, texts) && MemoOk(c, target.payload, texts, memo)
    requires base.payload in texts && target.payload in texts
    requires c.parse(target.payload).Some? ==> c.render(c.parse(target.payload).value) in texts
    requires base.metadata.source == target.metadata.source
    requires base.metadata.generation == target.metadata.generation
    requires base.metadata.sequence < target.metadata.sequence
    requires Between(c, base, target, memo).Some?
    ensures var frame := SnapshotFrame(cursor, target.metadata, Between(c, base, target, memo).value);
            && (Canonical(c, target.payload) ==> Rebuild(c, frame, Some(base)) == Ok(target.payload))
            && (!Canonical(c, target.payload) ==> Rebuild(c, frame, Some(base)) == Err(HashMismatch))
  {
    MemoIsFresh(c, base.payload, target.payload, texts, memo);
    var before := c.parse(base.payload).value;
    var after := c.parse(target.payload).value;
    var patch := c.diff(before, after);
    assert c.parsePatch(c.renderPatch(patch)) == Some(patch);
    assert c.apply(patch, before) == Some(after) && c.simple(patch);
  }

  /** A payload shared by every queue that holds it, with its write-once memo cells. */
  class Payload<V(!new), P(!new)> {
    const codec: Codec<V, P>
    const text: string
    ghost const texts: set<string>
    var hash: Option<Hash>
    var patch: Memo

    ghost predicate Valid()
      reads this
    {
      && text in texts
      && (hash.Some? ==> hash.value == codec.digest(text))
      && MemoOk(codec, text, texts, patch)
    }

    constructor (codec: Codec<V, P>, text: string, ghost texts: set<string>)
      requires text in texts
      ensures Valid() && this.codec == codec && this.text == text && this.texts == texts
      ensures hash.None? && patch.None?
    {
      this.codec := codec;
      this.text := text;
      this.texts := texts;
      hash := None;
      patch := None;
    }

    /** The digest is computed once and never changes afterwards. */
    method Digest() returns (h: Hash)
      requires Valid()
      modifies this`hash
      ensures Valid() && h == codec.digest(text)
      ensures hash == Some(h)
    {
      if hash.None? {
        hash := Some(codec.digest(text));
      }
      h := hash.value;
    }

    /** Whichever cell answers, the result is the freshly computed patch, and a patch
        once remembered is never replaced. */
    method PatchAgainst(base: Payload<V, P>) returns (result: Option<string>)
      requires Valid() && base.Valid() && base.codec == codec && base.texts == texts
      requires CollisionFree(codec, texts)
      modifies this, base`hash
      ensures Valid() && base.Valid()
      ensures result == FreshPatch(codec, base.text, text)
      ensures old(patch).Some? ==> patch == old(patch)
    {
      MemoIsFresh(codec, base.text, text, texts, patch);
      var digest := base.Digest();
      if patch.Some? && patch.value.0 == digest {
        return Some(patch.value.1);
      }
      var before := codec.parse(base.text);
      if before.None? {
        return None;
      }
      var after := codec.parse(text);
      if after.None? {
        return None;
      }
      var computed := codec.renderPatch(codec.diff(before.value, after.value));
      if |computed| < |text| && patch.None? {
        patch := Some((digest, computed));
        assert FreshPatch(codec, base.text, text) == Some(computed);
      }
      result := Some(computed);
    }
  }
}
