/**
  The one-shot range mirror of scripts/mirror-i2v-models.py: 64 MiB ranges with inclusive
  bounds (section 14.1.2 of RFC 9110), a retry loop around every part, a running digest, and
  completion of the multipart upload only after the final size and SHA-256 check.
*/
module Mirror {
  import opened Basics
  import opened Multipart

  const PART_BYTES := 64 * 1024 * 1024
  const MAX_ATTEMPTS := 8

  datatype Source = Source(expectedBytes: nat, sha: Digest, targetFilename: string)

  datatype StoredObject = StoredObject(content: Bytes, sha: Digest, targetFilename: string)

  /** What happens to the bytes of an uploaded part. */
  datatype PartReply = Stored | StoredWithoutReply | Lost

  /** One attempt at one part: the request fails, or a body arrives in chunks and is uploaded. */
  datatype Attempt = Unavailable | Served(chunks: seq<Bytes>, upload: PartReply)

  datatype Completion = Acknowledged | AppliedWithoutReply | NotApplied

  // -------------------------------------------------------------------- the ranges

  function PartCount(n: nat): nat {
    (n + PART_BYTES - 1) / PART_BYTES
  }

  function Start(part: nat): nat {
    part * PART_BYTES
  }

  /** The inclusive upper bound; the source is never empty. */
  function End(n: nat, part: nat): int {
    (if Start(part) + PART_BYTES < n then Start(part) + PART_BYTES else n) - 1
  }

  function PartSize(n: nat, part: nat): int {
    End(n, part) - Start(part) + 1
  }

  predicate InPart(n: nat, part: nat, offset: nat) {
    part < PartCount(n) && Start(part) <= offset <= End(n, part)
  }

  /** The ranges tile [0, n): consecutive, none empty, first at 0 and last at n - 1. */
  lemma RangesAreConsecutive(n: nat, part: nat)
    requires part < PartCount(n)
    ensures 0 < PartSize(n, part) <= PART_BYTES
    ensures part == 0 ==> Start(part) == 0
    ensures if part + 1 < PartCount(n) then End(n, part) + 1 == Start(part + 1) else End(n, part) == n - 1
  {
  }

  /** The source's loop over `range(0, n, PART_BYTES)` makes one turn for each part. */
  lemma StartWithin(n: nat, part: nat)
    ensures Start(part) < n <==> part < PartCount(n)
  {
  }

  /** No gap and no overlap: every offset lies in exactly one range. */
  lemma RangesPartition(n: nat, offset: nat)
    ensures offset < n <==> exists part :: InPart(n, part, offset)
    ensures forall p, q :: InPart(n, p, offset) && InPart(n, q, offset) ==> p == q
  {
    if offset < n {
      assert InPart(n, offset / PART_BYTES, offset);
    }
    forall p, q | InPart(n, p, offset) && InPart(n, q, offset)
      ensures p == q
    {
      RangesAreConsecutive(n, p);
      RangesAreConsecutive(n, q);
    }
  }

  // -------------------------------------------------------------------- reading a part

  function Flatten(chunks: seq<Bytes>): Bytes {
    if chunks == [] then [] else Flatten(chunks[..|chunks| - 1]) + chunks[|chunks| - 1]
  }

  lemma {:induction false} FlattenGrows(chunks: seq<Bytes>, k: nat)
    requires k <= |chunks|
    ensures |Flatten(chunks[..k])| <= |Flatten(chunks)|
  {
    if k < |chunks| {
      FlattenGrows(chunks[..|chunks| - 1], k);
      assert chunks[..|chunks| - 1][..k] == chunks[..k];
    } else {
      assert chunks[..k] == chunks;
    }
  }

  /** `_read_part`: the body, exactly when it has the expected size. */
  method ReadPart(chunks: seq<Bytes>, expected: nat) returns (body: Option<Bytes>)
    ensures body == if |Flatten(chunks)| == expected then Some(Flatten(chunks)) else None
  {
    var buffer: Bytes := [];
    for k := 0 to |chunks|
      invariant buffer == Flatten(chunks[..k]) && |buffer| <= expected
    {
      assert chunks[..k + 1][..k] == chunks[..k];
      if chunks[k] != [] {
        buffer := buffer + chunks[k];
        if |buffer| > expected {
          FlattenGrows(chunks, k + 1);
          return None;
        }
      }
    }
    assert chunks[..|chunks|] == chunks;
    return if |buffer| != expected then None else Some(buffer);
  }

  // -------------------------------------------------------------------- specification

  /** The body an attempt transfers, if it succeeds. */
  function Transferred(a: Attempt, expected: nat): Option<Bytes> {
    if a.Served? && a.upload.Stored? && |Flatten(a.chunks)| == expected then Some(Flatten(a.chunks)) else None
  }

  type Service = (nat, nat) -> Attempt

  /** The first success among the attempts that are left. */
  function FirstTransfer(serve: Service, part: nat, expected: nat, attempt: nat): (body: Option<Bytes>)
    ensures body.Some? ==> |body.value| == expected
    decreases MAX_ATTEMPTS - attempt
  {
    if attempt >= MAX_ATTEMPTS then None
    else if Transferred(serve(part, attempt), expected).Some? then Transferred(serve(part, attempt), expected)
    else FirstTransfer(serve, part, expected, attempt + 1)
  }

  /** It is the body of the first of eight attempts that succeeds. */
  lemma {:induction false} FirstOfEight(serve: Service, part: nat, expected: nat, attempt: nat)
    requires attempt <= 8
    ensures FirstTransfer(serve, part, expected, attempt).None? <==>
            forall k: nat :: attempt <= k < 8 ==> Transferred(serve(part, k), expected).None?
    ensures forall k: nat | attempt <= k < 8 && Transferred(serve(part, k), expected).Some? ::
              (forall j: nat :: attempt <= j < k ==> Transferred(serve(part, j), expected).None?) ==>
              FirstTransfer(serve, part, expected, attempt) == Transferred(serve(part, k), expected)
    decreases 8 - attempt
  {
    if attempt < 8 { FirstOfEight(serve, part, expected, attempt + 1); }
  }

  function PartBody(serve: Service, n: nat, part: nat): Option<Bytes>
    requires part < PartCount(n)
  {
    RangesAreConsecutive(n, part);
    FirstTransfer(serve, part, PartSize(n, part), 0)
  }

  /** What the first `count` parts concatenate to, when each has a successful attempt. */
  function Gathered(serve: Service, n: nat, count: nat): Option<Bytes>
    requires count <= PartCount(n)
  {
    if count == 0 then Some([])
    else
      var before := Gathered(serve, n, count - 1);
      var last := PartBody(serve, n, count - 1);
      if before.Some? && last.Some? then Some(before.value + last.value) else None
  }

  /** The final size check can never fail: successful parts always add up to the source's size. */
  lemma {:induction false} GatheredLength(serve: Service, n: nat, count: nat)
    requires count <= PartCount(n) && Gathered(serve, n, count).Some?
    ensures |Gathered(serve, n, count).value| == if count == PartCount(n) then n else Start(count)
  {
    if count > 0 {
      GatheredLength(serve, n, count - 1);
      RangesAreConsecutive(n, count - 1);
    }
  }

  /** The bytes a range request asks for. */
  function Range(content: Bytes, part: nat): (r: Bytes)
    requires part < PartCount(|content|)
    ensures |r| == PartSize(|content|, part)
  {
    RangesAreConsecutive(|content|, part);
    content[Start(part)..End(|content|, part) + 1]
  }

  /** A service is faithful to `content` when a successful attempt returns the requested range. */
  ghost predicate Faithful(serve: Service, content: Bytes) {
    forall part: nat, attempt: nat :: part < PartCount(|content|) ==>
      var body := Transferred(serve(part, attempt), |Range(content, part)|);
      body.Some? ==> body.value == Range(content, part)
  }

  lemma {:induction false} FaithfulTransfer(serve: Service, content: Bytes, part: nat, attempt: nat)
    requires Faithful(serve, content) && part < PartCount(|content|)
    ensures FirstTransfer(serve, part, |Range(content, part)|, attempt) in {None, Some(Range(content, part))}
    decreases MAX_ATTEMPTS - attempt
  {
    if attempt < MAX_ATTEMPTS && Transferred(serve(part, attempt), |Range(content, part)|).None? {
      FaithfulTransfer(serve, content, part, attempt + 1);
    }
  }

  /** Adding the next range to a prefix gives the next prefix. */
  lemma PrefixStep(content: Bytes, part: nat)
    requires part < PartCount(|content|)
    ensures Covered(|content|, part) == Start(part) <= |content|
    ensures content[..Covered(|content|, part)] + Range(content, part) == content[..Covered(|content|, part + 1)]
  {
    RangesAreConsecutive(|content|, part);
  }

  /** The bytes covered by the first `count` ranges. */
  function Covered(n: nat, count: nat): (c: nat)
    ensures c <= n
  {
    if Start(count) < n then Start(count) else n
  }

  /** A faithful service gives the range or nothing. */
  lemma FaithfulPart(serve: Service, content: Bytes, part: nat)
    requires Faithful(serve, content) && part < PartCount(|content|) && PartBody(serve, |content|, part).Some?
    ensures PartBody(serve, |content|, part).value == Range(content, part)
  {
    FaithfulTransfer(serve, content, part, 0);
  }

  lemma AllCovered(n: nat)
    ensures Covered(n, PartCount(n)) == n
  {
  }

  lemma {:induction false} GatheredPrefix(serve: Service, content: Bytes, count: nat)
    requires Faithful(serve, content)
    requires count <= PartCount(|content|) && Gathered(serve, |content|, count).Some?
    ensures Gathered(serve, |content|, count).value == content[..Covered(|content|, count)]
  {
    if count > 0 {
      var last := count - 1;
      GatheredPrefix(serve, content, last);
      FaithfulPart(serve, content, last);
      PrefixStep(content, last);
      assert Gathered(serve, |content|, count).value == Gathered(serve, |content|, last).value + Range(content, last);
    }
  }

  /** From a faithful service the gathered parts are the content itself. */
  lemma GatheredContent(serve: Service, content: Bytes)
    requires Faithful(serve, content) && Gathered(serve, |content|, PartCount(|content|)).Some?
    ensures Gathered(serve, |content|, PartCount(|content|)).value == content
  {
    GatheredPrefix(serve, content, PartCount(|content|));
    AllCovered(|content|);
  }

  // -------------------------------------------------------------------- the transfer

  /** The parts that were uploaded have numbers within 1..count. */
  predicate Numbered(parts: map<nat, Bytes>, count: nat) {
    forall k :: k in parts ==> 1 <= k <= count
  }

  datatype Outcome = Mirrored | Failed

  class Bucket {
    /** The object at the source's content-addressed key, and the open multipart upload. */
    var stored: Option<StoredObject>
    var parts: map<nat, Bytes>

    /** The inner retry loop: at most MAX_ATTEMPTS attempts at one part. */
    method TransferPart(serve: Service, part: nat, expected: nat) returns (body: Option<Bytes>)
      modifies this`parts
      ensures body == FirstTransfer(serve, part, expected, 0)
      ensures body.Some? ==> part + 1 in parts && parts[part + 1] == body.value
      ensures forall k :: k != part + 1 ==> (k in parts <==> k in old(parts)) && (k in parts ==> parts[k] == old(parts)[k])
    {
      var attempt := 0;
      while attempt < MAX_ATTEMPTS
        invariant attempt <= MAX_ATTEMPTS
        invariant FirstTransfer(serve, part, expected, attempt) == FirstTransfer(serve, part, expected, 0)
        invariant forall k :: k != part + 1 ==>
                    (k in parts <==> k in old(parts)) && (k in parts ==> parts[k] == old(parts)[k])
      {
        var reply := serve(part, attempt);
        if reply.Served? {
          body := ReadPart(reply.chunks, expected);
          if body.Some? && !reply.upload.Lost? {
            parts := parts[part + 1 := body.value];
          }
          if body.Some? && reply.upload.Stored? { return; }
        }
        attempt := attempt + 1;
      }
      body := None;
    }

    /** `_head_matches`: None when there is no object, an error when it is a different one. */
    predicate Conflicts(source: Source)
      reads this
    {
      stored.Some? && (|stored.value.content| != source.expectedBytes
                       || stored.value.sha != source.sha
                       || stored.value.targetFilename != source.targetFilename)
    }

    /**
      `_mirror_one`.  The object appears exactly when all parts transfer, the running digest is
      the expected one and the completion is applied; it is then the digested bytes.
    */
    method MirrorOne(source: Source, sha: Bytes -> Digest, serve: Service, completion: Completion)
      returns (outcome: Outcome)
      requires source.expectedBytes > 0
      modifies this
      ensures old(stored).Some? ==>
                && stored == old(stored)
                && (outcome.Mirrored? <==>
                      && |stored.value.content| == source.expectedBytes
                      && stored.value.sha == source.sha && stored.value.targetFilename == source.targetFilename)
      ensures old(stored).None? ==>
                var all := Gathered(serve, source.expectedBytes, PartCount(source.expectedBytes));
                && stored == (if all.Some? && sha(all.value) == source.sha && !completion.NotApplied?
                              then Some(StoredObject(all.value, source.sha, source.targetFilename)) else None)
                && (outcome.Mirrored? <==> stored.Some? && completion.Acknowledged?)
                && (stored.Some? ==> |stored.value.content| == source.expectedBytes && sha(stored.value.content) == source.sha)
      // completed or aborted, no upload is left behind
      ensures parts == if old(stored).Some? then old(parts) else map[]
    {
      if stored.Some? {
        return if Conflicts(source) then Failed else Mirrored;
      }
      var digested := TransferAll(source.expectedBytes, serve);
      if digested.None? || sha(digested.value) != source.sha || completion.NotApplied? {
        parts := map[];
        return Failed;
      }
      GatheredLength(serve, source.expectedBytes, PartCount(source.expectedBytes));
      stored := Some(StoredObject(Assemble(parts, PartCount(source.expectedBytes)), source.sha, source.targetFilename));
      parts := map[];
      outcome := if completion.Acknowledged? && !Conflicts(source) then Mirrored else Failed;
    }

    /** The part loop with its running digest; the numbered parts assemble to the digested bytes. */
    method TransferAll(n: nat, serve: Service) returns (digested: Option<Bytes>)
      modifies this`parts
      ensures digested == Gathered(serve, n, PartCount(n))
      ensures digested.Some? ==>
                HasParts(parts, PartCount(n)) && Assemble(parts, PartCount(n)) == digested.value
      ensures Numbered(parts, PartCount(n))
    {
      parts := map[];
      var buffer: Bytes := [];
      var part := 0;
      StartWithin(n, part);
      while Start(part) < n
        invariant Start(part) < n <==> part < PartCount(n)
        invariant part <= PartCount(n)
        invariant Gathered(serve, n, part) == Some(buffer)
        invariant HasParts(parts, part) && Assemble(parts, part) == buffer
        invariant Numbered(parts, part)
        decreases PartCount(n) - part
      {
        var body := TransferNext(serve, n, part, buffer);
        if body.None? {
          GatheredStops(serve, n, part + 1, PartCount(n));
          return None;
        }
        buffer := buffer + body.value;
        part := part + 1;
        StartWithin(n, part);
      }
      digested := Some(buffer);
    }

    /** One turn of the part loop. */
    method TransferNext(serve: Service, n: nat, part: nat, ghost digested: Bytes) returns (body: Option<Bytes>)
      requires part < PartCount(n) && HasParts(parts, part) && Assemble(parts, part) == digested
      modifies this`parts
      ensures body == PartBody(serve, n, part)
      ensures body.Some? ==> HasParts(parts, part + 1) && Assemble(parts, part + 1) == digested + body.value
      ensures old(Numbered(parts, part)) ==> Numbered(parts, part + 1)
    {
      RangesAreConsecutive(n, part);
      ghost var before := parts;
      body := TransferPart(serve, part, PartSize(n, part));
      AssembleFrame(before, parts, part);
    }
  }

  /** One part without a successful attempt dooms the whole transfer. */
  lemma {:induction false} GatheredStops(serve: Service, n: nat, count: nat, total: nat)
    requires count <= total <= PartCount(n) && Gathered(serve, n, count).None?
    ensures Gathered(serve, n, total).None?
  {
    if count < total { GatheredStops(serve, n, count, total - 1); }
  }
}
