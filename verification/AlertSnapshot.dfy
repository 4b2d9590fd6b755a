/**
 The snapshot slot of a Backend Alert: five fields written once.  The caller passes the digest it
 recomputed from the stored bytes; the slot decides between first write, identical retry and conflict.
 */
module AlertSnapshot {
  import opened Common
  import opened BackendLedger

  const REFERENCE_MAX_LENGTH := 2048
  const SHA256_LENGTH := 64
  const CONTENT_TYPE_MAX_LENGTH := 100

  datatype Offer = Offer(reference: string, sha256: string, contentType: string, sizeBytes: int, receivedAt: int)

  datatype BadOffer = BadReference | BadSha256 | BadContentType | BadSize

  function Problem(o: Offer): Option<BadOffer> {
    if Blank(o.reference) || |o.reference| > REFERENCE_MAX_LENGTH then Some(BadReference)
    else if Blank(o.sha256) || |o.sha256| != SHA256_LENGTH then Some(BadSha256)
    else if Blank(o.contentType) || |o.contentType| > CONTENT_TYPE_MAX_LENGTH then Some(BadContentType)
    else if o.sizeBytes <= 0 then Some(BadSize)
    else None
  }

  function Fold(c: char): char {
    if 'a' <= c <= 'z' then c - 'a' + 'A' else c
  }

  predicate EqualIgnoringCase(a: string, b: string) {
    |a| == |b| && forall i :: 0 <= i < |a| ==> Fold(a[i]) == Fold(b[i])
  }

  /** The slot as a value. */
  datatype Slot = Slot(reference: Option<string>, sha256: Option<string>, contentType: Option<string>,
                       sizeBytes: Option<int>, receivedAt: Option<int>)

  function Filled(o: Offer): Slot {
    Slot(Some(o.reference), Some(o.sha256), Some(o.contentType), Some(o.sizeBytes), Some(o.receivedAt))
  }

  const EMPTY_SLOT := Slot(None, None, None, None, None)

  class Alert {
    var snapshotReference: Option<string>
    var snapshotSha256: Option<string>
    var snapshotContentType: Option<string>
    var snapshotSizeBytes: Option<int>
    var snapshotReceivedAtUtc: Option<int>

    ghost function Current(): Slot
      reads this
    {
      Slot(snapshotReference, snapshotSha256, snapshotContentType, snapshotSizeBytes, snapshotReceivedAtUtc)
    }

    constructor ()
      ensures Current() == EMPTY_SLOT
    {
      snapshotReference, snapshotSha256, snapshotContentType := None, None, None;
      snapshotSizeBytes, snapshotReceivedAtUtc := None, None;
    }

    /** Any bad argument is refused before the slot is looked at. */
    method AttachSnapshot(o: Offer) returns (r: Result<AttachVerdict, BadOffer>)
      modifies this
      ensures (Current(), r) == Attempt(old(Current()), o)
    {
      var problem := Problem(o);
      if problem.Some? {
        return Err(problem.value);
      }
      if snapshotReference.None? {
        snapshotReference, snapshotSha256, snapshotContentType := Some(o.reference), Some(o.sha256), Some(o.contentType);
        snapshotSizeBytes, snapshotReceivedAtUtc := Some(o.sizeBytes), Some(o.receivedAt);
        return Ok(Attached);
      }
      if snapshotSha256.Some? && EqualIgnoringCase(snapshotSha256.value, o.sha256) {
        return Ok(AttachDuplicate);
      }
      return Ok(AttachConflict);
    }
  }

  function Attempt(s: Slot, o: Offer): (Slot, Result<AttachVerdict, BadOffer>) {
    if Problem(o).Some? then (s, Err(Problem(o).value))
    else if s.reference.None? then (Filled(o), Ok(Attached))
    else if s.sha256.Some? && EqualIgnoringCase(s.sha256.value, o.sha256) then (s, Ok(AttachDuplicate))
    else (s, Ok(AttachConflict))
  }

  function Attempts(s: Slot, offers: seq<Offer>): (r: (Slot, seq<Result<AttachVerdict, BadOffer>>))
    ensures |r.1| == |offers|
    decreases |offers|
  {
    if offers == [] then (s, [])
    else
      var (s1, first) := Attempt(s, offers[0]);
      var (s2, rest) := Attempts(s1, offers[1..]);
      (s2, [first] + rest)
  }

  predicate Acceptable(o: Offer) {
    Problem(o).None?
  }

  function LaterAnswer(first: Offer, o: Offer): Result<AttachVerdict, BadOffer> {
    if !Acceptable(o) then Err(Problem(o).value)
    else if EqualIgnoringCase(first.sha256, o.sha256) then Ok(AttachDuplicate)
    else Ok(AttachConflict)
  }

  /** Over any sequence of attempts on a fresh Alert, the slot ends with exactly the first acceptable
      offer; that attempt alone is answered `Attached`, every acceptable one after it is a duplicate
      when its digest is the same up to letter case and a conflict otherwise. */
  lemma {:induction false} FirstWriteWins(offers: seq<Offer>, k: nat)
    requires k < |offers| && Acceptable(offers[k]) && forall i :: 0 <= i < k ==> !Acceptable(offers[i])
    ensures var (slot, answers) := Attempts(EMPTY_SLOT, offers);
            && slot == Filled(offers[k])
            && (forall i :: 0 <= i < |offers| ==> (answers[i] == Ok(Attached) <==> i == k))
            && (forall i :: k < i < |offers| ==> answers[i] == LaterAnswer(offers[k], offers[i]))
  {
    if k == 0 {
      LaterAttempts(offers[0], offers[1..]);
      assert Attempts(EMPTY_SLOT, offers).1[1..] == Attempts(Filled(offers[0]), offers[1..]).1;
    } else {
      FirstWriteWins(offers[1..], k - 1);
      assert Attempts(EMPTY_SLOT, offers).1[1..] == Attempts(EMPTY_SLOT, offers[1..]).1;
    }
  }

  lemma {:induction false} LaterAttempts(first: Offer, offers: seq<Offer>)
    ensures var (slot, answers) := Attempts(Filled(first), offers);
            && slot == Filled(first)
            && forall i :: 0 <= i < |offers| ==> answers[i] == LaterAnswer(first, offers[i])
    decreases |offers|
  {
    if offers != [] {
      LaterAttempts(first, offers[1..]);
      assert Attempts(Filled(first), offers).1[1..] == Attempts(Filled(first), offers[1..]).1;
    }
  }

  /** How two digests are written: 64 characters each, and if the digests differ so do the texts, in more
      than letter case. */
  predicate WrittenFaithfully(hex: Digest -> string, a: Digest, b: Digest) {
    && |hex(a)| == SHA256_LENGTH && !Blank(hex(a))
    && |hex(b)| == SHA256_LENGTH && !Blank(hex(b))
    && (EqualIgnoringCase(hex(a), hex(b)) ==> a == b)
  }

  /** The slot decides as the ledger's attach rule does on the digests themselves. */
  lemma SlotDecidesLikeLedger(existing: Option<Snapshot>, slot: Slot, o: Offer, incoming: Digest, hex: Digest -> string)
    requires Acceptable(o) && o.sha256 == hex(incoming)
    requires existing.None? ==> slot == EMPTY_SLOT
    requires existing.Some? ==> slot.reference.Some? && slot.sha256 == Some(hex(existing.value.sha256))
                                && WrittenFaithfully(hex, existing.value.sha256, incoming)
    ensures Attempt(slot, o).1 == Ok(Attach(existing, incoming))
    ensures Attach(existing, incoming) != Attached ==> Attempt(slot, o).0 == slot
  {
    if existing.Some? && existing.value.sha256 != incoming {
      assert !EqualIgnoringCase(hex(existing.value.sha256), hex(incoming));
    }
  }

  /** A text of one character, 64 times. */
  function Repeated(c: char): (s: string)
    ensures |s| == SHA256_LENGTH && forall i :: 0 <= i < |s| ==> s[i] == c
  {
    seq(SHA256_LENGTH, _ => c)
  }

  /** Two snapshots of an alert that holds one already: the retry is a duplicate, the other a conflict, and
      the slot keeps the first. */
  lemma SlotInstance() returns (held: Snapshot, slot: Slot, retry: Offer, other: Offer, hex: Digest -> string)
    ensures held.sha256 != Sha256([2]) && slot.sha256 == Some(hex(held.sha256)) && slot.reference.Some?
    ensures WrittenFaithfully(hex, held.sha256, held.sha256) && WrittenFaithfully(hex, held.sha256, Sha256([2]))
    ensures retry.sha256 == hex(held.sha256) && Attempt(slot, retry) == (slot, Ok(AttachDuplicate))
    ensures other.sha256 == hex(Sha256([2])) && Attempt(slot, other) == (slot, Ok(AttachConflict))
  {
    hex := d => if d == Sha256([1]) then Repeated('a') else Repeated('b');
    held := Snapshot(Sha256([1]), 1);
    retry := Offer("alerts/7", hex(held.sha256), "image/jpeg", 1, 5);
    other := Offer("alerts/7", hex(Sha256([2])), "image/jpeg", 1, 6);
    slot := Filled(retry);
    assert Fold(hex(held.sha256)[0]) == 'A' && Fold(hex(Sha256([2]))[0]) == 'B';
    assert !IsWhiteSpace(retry.reference[0]) && !IsWhiteSpace(retry.contentType[0]);
    assert !IsWhiteSpace(retry.sha256[0]) && !IsWhiteSpace(other.sha256[0]);
    SlotDecidesLikeLedger(Some(held), slot, retry, held.sha256, hex);
    SlotDecidesLikeLedger(Some(held), slot, other, Sha256([2]), hex);
  }
}
