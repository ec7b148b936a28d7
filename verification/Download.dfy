/** The streaming download and its post-checks (`crates/openvhost-pkg/src/download.rs`, `download_with`). */
module Download {
  import opened Prelude

  newtype Byte = x: int | 0 <= x < 0x100

  datatype Progress = Started(total: Option<nat>) | Downloaded(bytes: nat) | Verified

  datatype PkgError =
    | TooLarge(cap: nat)
    | DownloadStalled(received: nat, expected: Option<nat>)
    | Network
    | Io(op: string)
    | HashMismatch(pinned: string, actual: string)

  /** What the body yields next. */
  datatype Item = Chunk(bytes: seq<Byte>) | BodyError | EndOfBody

  /**
   * One wait for the body: how long it was silent, what came, and, should the write of a chunk fail, how much of it
   * reached the file. After the last arrival of a stream there is only silence.
   */
  datatype Arrival = Arrival(gap: nat, item: Item, writeFailsAfter: Option<nat>)

  /** `cap` and `stall` are the limits, `sha256` the pinned hash, `hash` the digest function. */
  datatype Job = Job(cap: nat, stall: nat, declared: Option<nat>, sha256: string, hash: seq<Byte> -> string,
                     syncOk: bool, seekOk: bool)

  /** The bytes of the first `n` arrivals. */
  function Bytes(stream: seq<Arrival>, n: nat): seq<Byte>
    requires n <= |stream|
  {
    if n == 0 then [] else Bytes(stream, n - 1) + ChunkOf(stream[n - 1])
  }

  function ChunkOf(a: Arrival): seq<Byte> {
    if a.item.Chunk? then a.item.bytes else []
  }

  /** Arrival `i` is a chunk that came in time, stays under the cap and is written. */
  predicate Normal(job: Job, stream: seq<Arrival>, i: nat)
    requires i < |stream|
  {
    && stream[i].gap < job.stall
    && stream[i].item.Chunk?
    && Saturating(|Bytes(stream, i + 1)|) <= job.cap
    && stream[i].writeFailsAfter.None?
  }

  ghost predicate NormalUpTo(job: Job, stream: seq<Arrival>, n: nat)
    requires n <= |stream|
  {
    forall i :: 0 <= i < n ==> Normal(job, stream, i)
  }

  /** `n` is where the transfer stops being a plain sequence of chunks. */
  ghost predicate FirstAbnormal(job: Job, stream: seq<Arrival>, n: nat) {
    n <= |stream| && NormalUpTo(job, stream, n) && (n < |stream| ==> !Normal(job, stream, n))
  }

  lemma FirstAbnormalUnique(job: Job, stream: seq<Arrival>, n: nat, m: nat)
    requires FirstAbnormal(job, stream, n) && FirstAbnormal(job, stream, m)
    ensures n == m
  {
  }

  /** What the caller gets and what is left at the archive path. */
  datatype Outcome = Outcome(result: Result<seq<Byte>, PkgError>, disk: Option<seq<Byte>>)

  function Silent(job: Job, stream: seq<Arrival>, n: nat): bool {
    n >= |stream| || stream[n].gap >= job.stall
  }

  /** The declared length arrived, reached the disk, and hashes to the pin. */
  predicate Verifies(job: Job, file: seq<Byte>) {
    && (job.declared.Some? ==> Saturating(|file|) == job.declared.value)
    && job.syncOk && job.hash(file) == job.sha256
  }

  /** The checks after the body has ended. */
  function Ended(job: Job, file: seq<Byte>): Outcome {
    if job.declared.Some? && Saturating(|file|) != job.declared.value then Outcome(Err(Network), None)
    else if !job.syncOk then Outcome(Err(Io("sync")), Some(file))
    else if job.hash(file) != job.sha256 then Outcome(Err(HashMismatch(job.sha256, job.hash(file))), None)
    else if !job.seekOk then Outcome(Err(Io("seek")), Some(file))
    else Outcome(Ok(file), Some(file))
  }

  /** The transfer's outcome, read off the arrival at which it stopped being plain chunks. */
  function OutcomeAt(job: Job, stream: seq<Arrival>, n: nat): Outcome
    requires n <= |stream|
  {
    var file := Bytes(stream, n);
    if Silent(job, stream, n) then Outcome(Err(DownloadStalled(Saturating(|file|), job.declared)), None)
    else match stream[n].item
      case EndOfBody => Ended(job, file)
      case BodyError => Outcome(Err(Network), Some(file))
      case Chunk(bytes) =>
        if Saturating(|file + bytes|) > job.cap then Outcome(Err(TooLarge(job.cap)), None)
        else
          var kept := match stream[n].writeFailsAfter
            case Some(k) => if k <= |bytes| then bytes[..k] else bytes
            case None => bytes;
          Outcome(Err(Io("write")), Some(file + kept))
  }

  /** The loop as a function of the whole timed stream; `n` says where it stopped. */
  ghost predicate Refines(job: Job, before: Option<seq<Byte>>, stream: seq<Arrival>, out: Outcome, n: nat) {
    if job.declared.Some? && job.declared.value > job.cap then out == Outcome(Err(TooLarge(job.cap)), before)
    else if before.Some? then out == Outcome(Err(Io("create_new")), before)
    else FirstAbnormal(job, stream, n) && out == OutcomeAt(job, stream, n)
  }

  function SizesUpTo(stream: seq<Arrival>, n: nat): seq<Progress>
    requires n <= |stream|
  {
    if n == 0 then [] else SizesUpTo(stream, n - 1) + [Downloaded(Saturating(|Bytes(stream, n)|))]
  }

  /** The checks after the last chunk, in order. */
  method CheckBody(job: Job, file: seq<Byte>, hashed: seq<Byte>, total: nat) returns (out: Outcome, verified: bool)
    requires hashed == file && total == Saturating(|file|)
    ensures out == Ended(job, file)
    ensures verified <==> Verifies(job, file)
  {
    if job.declared.Some? && total != job.declared.value {
      return Outcome(Err(Network), None), false;
    }
    if !job.syncOk {
      return Outcome(Err(Io("sync")), Some(file)), false;
    }
    var actual := job.hash(hashed);
    if actual != job.sha256 {
      return Outcome(Err(HashMismatch(job.sha256, actual)), None), false;
    }
    return if job.seekOk then Outcome(Ok(file), Some(file)) else Outcome(Err(Io("seek")), Some(file)), true;
  }

  /** The body came to its end after `n` chunks, in time. */
  predicate EndsAt(job: Job, stream: seq<Arrival>, n: nat) {
    n < |stream| && stream[n].gap < job.stall && stream[n].item.EndOfBody?
  }

  /**
   * The streaming loop. `stopped` is the outcome when it stops short of the end of the body. `peak` is the largest
   * size the archive had while the loop was writing it.
   */
  method Receive(job: Job, stream: seq<Arrival>)
    returns (stopped: Option<Outcome>, n: nat, file: seq<Byte>, hashed: seq<Byte>, total: nat,
             sizes: seq<Progress>, peak: nat)
    ensures FirstAbnormal(job, stream, n)
    ensures sizes == SizesUpTo(stream, n)
    ensures stopped.None? <==> EndsAt(job, stream, n)
    ensures stopped.None? ==> file == hashed == Bytes(stream, n) && total == Saturating(|file|) && peak == |file|
    ensures stopped.Some? ==> stopped.value == OutcomeAt(job, stream, n)
    ensures job.cap < U64_MAX ==> peak <= job.cap && (stopped.Some? && stopped.value.disk.Some? ==>
                                                        |stopped.value.disk.value| <= job.cap)
  {
    stopped, n, file, hashed, total, sizes, peak := None, 0, [], [], 0, [], 0;
    while true
      invariant n <= |stream| && NormalUpTo(job, stream, n)
      invariant file == hashed == Bytes(stream, n) && total == Saturating(|file|)
      invariant n > 0 ==> total <= job.cap
      invariant peak == |file| && sizes == SizesUpTo(stream, n) && stopped.None?
      decreases |stream| - n
    {
      if n >= |stream| || stream[n].gap >= job.stall {
        stopped := Some(Outcome(Err(DownloadStalled(total, job.declared)), None));
        return;
      }
      if stream[n].item.EndOfBody? {
        return;
      }
      if stream[n].item.BodyError? {
        stopped := Some(Outcome(Err(Network), Some(file)));
        return;
      }
      var chunk := stream[n].item.bytes;
      assert Bytes(stream, n + 1) == file + chunk;
      total := Saturating(total + |chunk|);
      if total > job.cap {
        stopped := Some(Outcome(Err(TooLarge(job.cap)), None));
        return;
      }
      hashed := hashed + chunk;
      if stream[n].writeFailsAfter.Some? {
        var k := stream[n].writeFailsAfter.value;
        file := file + if k <= |chunk| then chunk[..k] else chunk;
        stopped, peak := Some(Outcome(Err(Io("write")), Some(file))), |file|;
        return;
      }
      file := file + chunk;
      peak := |file|;
      sizes := sizes + [Downloaded(total)];
      n := n + 1;
    }
  }

  /** Downloads into an archive path that held `before`. */
  method DownloadWith(job: Job, before: Option<seq<Byte>>, stream: seq<Arrival>)
    returns (out: Outcome, n: nat, progress: seq<Progress>, peak: nat)
    ensures Refines(job, before, stream, out, n)
    ensures before.None? && job.cap < U64_MAX ==> peak <= job.cap && (out.disk.Some? ==> |out.disk.value| <= job.cap)
    ensures before.None? && !(job.declared.Some? && job.declared.value > job.cap) ==>
              && n <= |stream|
              && progress == [Started(job.declared)] + SizesUpTo(stream, n) +
                 if EndsAt(job, stream, n) && Verifies(job, Bytes(stream, n)) then [Verified] else []
  {
    n, progress, peak := 0, [], 0;
    if job.declared.Some? && job.declared.value > job.cap {
      return Outcome(Err(TooLarge(job.cap)), before), n, progress, peak;
    }
    progress := [Started(job.declared)];
    if before.Some? {
      return Outcome(Err(Io("create_new")), before), n, progress, peak;
    }
    var stopped, file, hashed, total, sizes;
    stopped, n, file, hashed, total, sizes, peak := Receive(job, stream);
    progress := progress + sizes;
    if stopped.Some? {
      return stopped.value, n, progress, peak;
    }
    var verified;
    out, verified := CheckBody(job, file, hashed, total);
    if verified {
      progress := progress + [Verified];
    }
  }

  // ---- what the outcome means ----

  /** Success is exactly: the body ended before anything abnormal, has the declared length, and hashes to the pin. */
  lemma SuccessIff(job: Job, stream: seq<Arrival>, n: nat, out: Outcome)
    requires job.cap < U64_MAX && (job.declared.Some? ==> job.declared.value <= job.cap)
    requires Refines(job, None, stream, out, n)
    ensures out.result.Ok? <==>
              && n < |stream| && stream[n].item.EndOfBody? && stream[n].gap < job.stall
              && (job.declared.Some? ==> |Bytes(stream, n)| == job.declared.value)
              && job.hash(Bytes(stream, n)) == job.sha256 && job.syncOk && job.seekOk
    ensures out.result.Ok? ==>
              out.disk == Some(out.result.value) && out.result.value == Bytes(stream, n) && |out.result.value| <= job.cap
  {
    BytesUnderCap(job, stream, n);
  }

  lemma BytesUnderCap(job: Job, stream: seq<Arrival>, n: nat)
    requires n <= |stream| && NormalUpTo(job, stream, n) && job.cap < U64_MAX
    ensures |Bytes(stream, n)| <= job.cap
  {
    if n > 0 {
      assert Normal(job, stream, n - 1);
    }
  }

  /** A stall is reported exactly when the first abnormal thing is a gap of at least the window. */
  lemma StalledIff(job: Job, stream: seq<Arrival>, n: nat, out: Outcome)
    requires job.declared.Some? ==> job.declared.value <= job.cap
    requires Refines(job, None, stream, out, n)
    ensures (out.result.Err? && out.result.error.DownloadStalled?) <==>
            exists m :: FirstAbnormal(job, stream, m) && Silent(job, stream, m)
    ensures out.result.Err? && out.result.error.DownloadStalled? ==>
              && out.result.error.expected == job.declared
              && (job.cap < U64_MAX ==> out.result.error.received == |Bytes(stream, n)|)
    ensures (out.result.Err? && out.result.error.DownloadStalled?) <==> (n < |stream| ==> stream[n].gap >= job.stall)
  {
    if job.cap < U64_MAX {
      BytesUnderCap(job, stream, n);
    }
    forall m | FirstAbnormal(job, stream, m) && Silent(job, stream, m) ensures m == n {
      FirstAbnormalUnique(job, stream, n, m);
    }
  }

  /** Arrival `n` came in time. */
  predicate InTime(job: Job, stream: seq<Arrival>, n: nat) {
    n < |stream| && stream[n].gap < job.stall
  }

  /** The body ended in time after `n` chunks, with the declared number of bytes if one was declared. */
  predicate Whole(job: Job, stream: seq<Arrival>, n: nat) {
    InTime(job, stream, n) && stream[n].item.EndOfBody?
    && (job.declared.Some? ==> |Bytes(stream, n)| == job.declared.value)
  }

  /** Arrival `n` is a chunk that came in time and takes the body past the cap. */
  predicate PastCap(job: Job, stream: seq<Arrival>, n: nat) {
    InTime(job, stream, n) && stream[n].item.Chunk? && |Bytes(stream, n + 1)| > job.cap
  }

  /** A hash mismatch is reported, with both hashes, exactly when a whole body was synced and does not hash to the pin. */
  lemma HashMismatchIff(job: Job, stream: seq<Arrival>, n: nat, out: Outcome)
    requires job.cap < U64_MAX && (job.declared.Some? ==> job.declared.value <= job.cap)
    requires Refines(job, None, stream, out, n)
    ensures (out.result.Err? && out.result.error.HashMismatch?) <==>
              Whole(job, stream, n) && job.syncOk && job.hash(Bytes(stream, n)) != job.sha256
    ensures out.result.Err? && out.result.error.HashMismatch? ==>
              out.result.error == HashMismatch(job.sha256, job.hash(Bytes(stream, n))) && out.disk.None?
  {
    BytesUnderCap(job, stream, n);
  }

  /** The cap is reported exactly when a chunk takes the body past it; nothing is left on disk. */
  lemma TooLargeIff(job: Job, stream: seq<Arrival>, n: nat, out: Outcome)
    requires job.cap < U64_MAX && (job.declared.Some? ==> job.declared.value <= job.cap)
    requires Refines(job, None, stream, out, n)
    ensures (out.result.Err? && out.result.error.TooLarge?) <==> PastCap(job, stream, n)
    ensures out.result.Err? && out.result.error.TooLarge? ==> out.result.error.cap == job.cap && out.disk.None?
  {
    BytesUnderCap(job, stream, n);
  }

  /**
   * A network error is reported exactly when the body breaks or ends in time with another length than declared. A
   * broken body leaves what had arrived, a body of the wrong length leaves nothing.
   */
  lemma NetworkIff(job: Job, stream: seq<Arrival>, n: nat, out: Outcome)
    requires job.cap < U64_MAX && (job.declared.Some? ==> job.declared.value <= job.cap)
    requires Refines(job, None, stream, out, n)
    ensures out.result == Err(Network) <==>
              && InTime(job, stream, n)
              && (stream[n].item.BodyError? || (stream[n].item.EndOfBody? && !Whole(job, stream, n)))
    ensures out.result == Err(Network) ==>
              out.disk == if stream[n].item.BodyError? then Some(Bytes(stream, n)) else None
  {
    BytesUnderCap(job, stream, n);
  }

  /**
   * A disk error names the call that failed: the write of a chunk under the cap, the sync of a whole body, or the seek
   * after its hash was right. What had reached the file stays there.
   */
  lemma DiskErrorIff(job: Job, stream: seq<Arrival>, n: nat, out: Outcome)
    requires job.cap < U64_MAX && (job.declared.Some? ==> job.declared.value <= job.cap)
    requires Refines(job, None, stream, out, n)
    ensures out.result == Err(Io("write")) <==>
              InTime(job, stream, n) && stream[n].item.Chunk? && !PastCap(job, stream, n)
    ensures out.result == Err(Io("sync")) <==> Whole(job, stream, n) && !job.syncOk
    ensures out.result == Err(Io("seek")) <==>
              && Whole(job, stream, n) && job.syncOk && job.hash(Bytes(stream, n)) == job.sha256 && !job.seekOk
    ensures out.result.Err? && out.result.error.Io? ==>
              && out.result.error.op in ["write", "sync", "seek"] && out.disk.Some?
              && Bytes(stream, n) <= out.disk.value
              && (stream[n].item.EndOfBody? ==> out.disk.value == Bytes(stream, n))
              && (stream[n].item.Chunk? ==> out.disk.value <= Bytes(stream, n + 1))
  {
    BytesUnderCap(job, stream, n);
    assert ["write", "sync", "seek"][0] == "write" && ["write", "sync", "seek"][1] == "sync";
    assert ["write", "sync", "seek"][2] == "seek";
  }

  /** What is refused before the body is read leaves the archive path as it was. */
  lemma RefusedUpFront(job: Job, before: Option<seq<Byte>>, stream: seq<Arrival>, out: Outcome, n: nat)
    requires Refines(job, before, stream, out, n)
    ensures job.declared.Some? && job.declared.value > job.cap ==>
              out.result == Err(TooLarge(job.cap)) && out.disk == before
    ensures !(job.declared.Some? && job.declared.value > job.cap) && before.Some? ==>
              out.result == Err(Io("create_new")) && out.disk == before
  {
  }

  /** The cap, stall, length and hash failures leave no archive; a body, write or sync error leaves it to the staging. */
  lemma FailuresRemoveArchive(job: Job, stream: seq<Arrival>, n: nat, out: Outcome)
    requires job.declared.Some? ==> job.declared.value <= job.cap
    requires Refines(job, None, stream, out, n) && out.result.Err?
    ensures out.result.error.TooLarge? || out.result.error.DownloadStalled? || out.result.error.HashMismatch? ==>
              out.disk.None?
    ensures out.disk.Some? <==>
              || out.result.error.Io?
              || (out.result.error.Network? && stream[n].item.BodyError?)
  {
  }

  /** Exactly when nothing is left at the archive path, read off the stream. */
  lemma ArchiveRemovedIff(job: Job, stream: seq<Arrival>, n: nat, out: Outcome)
    requires job.cap < U64_MAX && (job.declared.Some? ==> job.declared.value <= job.cap)
    requires Refines(job, None, stream, out, n)
    ensures out.disk.None? <==>
              || !InTime(job, stream, n)
              || PastCap(job, stream, n)
              || (stream[n].item.EndOfBody? && !Whole(job, stream, n))
              || (Whole(job, stream, n) && job.syncOk && job.hash(Bytes(stream, n)) != job.sha256)
  {
    BytesUnderCap(job, stream, n);
  }

  lemma SliceKept(before: seq<Byte>, more: seq<Byte>, from: nat, to: nat)
    requires from <= to <= |before|
    ensures (before + more)[from..to] == before[from..to]
  {
  }

  lemma SliceAdded(before: seq<Byte>, more: seq<Byte>)
    ensures (before + more)[|before|..|before| + |more|] == more
  {
  }

  /** Each chunk is in the file at the place where the bytes before it end; the file is nothing else. */
  lemma {:induction false} ChunkAt(stream: seq<Arrival>, i: nat, n: nat)
    requires i < n <= |stream|
    ensures |Bytes(stream, 0)| == 0
    ensures |Bytes(stream, i + 1)| == |Bytes(stream, i)| + (if stream[i].item.Chunk? then |stream[i].item.bytes| else 0)
    ensures |Bytes(stream, i + 1)| <= |Bytes(stream, n)|
    ensures stream[i].item.Chunk? ==>
              Bytes(stream, n)[|Bytes(stream, i)|..|Bytes(stream, i + 1)|] == stream[i].item.bytes
  {
    if i + 1 < n {
      ChunkAt(stream, i, n - 1);
      SliceKept(Bytes(stream, n - 1), ChunkOf(stream[n - 1]), |Bytes(stream, i)|, |Bytes(stream, i + 1)|);
    } else {
      SliceAdded(Bytes(stream, i), ChunkOf(stream[i]));
    }
  }

  lemma {:induction false} SizeAt(stream: seq<Arrival>, n: nat, i: nat)
    requires n <= |stream|
    ensures |SizesUpTo(stream, n)| == n
    ensures i < n ==> SizesUpTo(stream, n)[i] == Downloaded(Saturating(|Bytes(stream, i + 1)|))
  {
    if n > 0 {
      SizeAt(stream, n - 1, i);
    }
  }

  /** The progress reported is one figure for each chunk: the bytes received with it, and never falling. */
  lemma SizesAre(stream: seq<Arrival>, n: nat, i: nat)
    requires i < n <= |stream| && |Bytes(stream, n)| <= U64_MAX
    ensures |SizesUpTo(stream, n)| == n
    ensures SizesUpTo(stream, n)[i] == Downloaded(|Bytes(stream, i + 1)|)
    ensures |Bytes(stream, i)| <= |Bytes(stream, i + 1)| <= |Bytes(stream, n)|
  {
    ChunkAt(stream, i, n);
    SizeAt(stream, n, i);
  }

  /** Same items, same write results; only the waits differ, and all of them are shorter than the window. */
  ghost predicate SameButWaits(job: Job, a: seq<Arrival>, b: seq<Arrival>) {
    && |a| == |b|
    && forall i :: 0 <= i < |a| ==>
         a[i].item == b[i].item && a[i].writeFailsAfter == b[i].writeFailsAfter
         && a[i].gap < job.stall && b[i].gap < job.stall
  }

  lemma {:induction false} SameBytes(job: Job, a: seq<Arrival>, b: seq<Arrival>, n: nat)
    requires SameButWaits(job, a, b) && n <= |a|
    ensures Bytes(a, n) == Bytes(b, n)
  {
    if n > 0 {
      SameBytes(job, a, b, n - 1);
    }
  }

  /** However long a transfer takes, while no single wait reaches the window its outcome does not depend on time. */
  lemma TotalTimeIrrelevant(job: Job, a: seq<Arrival>, b: seq<Arrival>, n: nat, out: Outcome)
    requires SameButWaits(job, a, b) && Refines(job, None, a, out, n)
    ensures Refines(job, None, b, out, n)
  {
    if !(job.declared.Some? && job.declared.value > job.cap) {
      forall i | 0 <= i < |a| ensures Normal(job, a, i) == Normal(job, b, i) {
        SameBytes(job, a, b, i + 1);
      }
      SameBytes(job, a, b, n);
    }
  }
}
