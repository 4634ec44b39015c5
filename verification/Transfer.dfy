/**
 File transfer with resume: internal/client/help_bootstrap.go against the remote side of internal/agent/tools/file.go.

 What happens to each call is decided by an oracle: it is served, or its request is lost, or its reply is lost after
 the remote side has acted; either loss may or may not be reported as the tunnel being down.
 */
module Transfer {
  import opened Options
  import opened Bytes

  datatype Fate = Served | LostRequest(down: bool) | LostReply(down: bool) | Cancelled

  type Oracle = nat -> Fate

  /** The remote file, absent or with its bytes, and the number of calls made so far. */
  datatype Net = Net(file: Option<seq<byte>>, k: nat)

  datatype Req = Read(off: nat, length: nat) | Truncate | WriteAt(at: nat, data: seq<byte>) | Stat

  datatype Resp = Chunk(bytes: seq<byte>, eof: bool) | Done | Size(n: nat)

  datatype Result<T> = Ok(value: T) | Fail(down: bool)

  // ---------- the remote side ----------

  /** pwrite: the file is created or extended as needed, a gap reads as zeros. */
  function Patch(file: seq<byte>, at: nat, data: seq<byte>): (r: seq<byte>) {
    var base := if |file| < at then file + seq(at - |file|, _ => 0) else file;
    base[..at] + data + if at + |data| < |base| then base[at + |data|..] else []
  }

  /** Byte by byte: the new data where it was written, and elsewhere what was there, or zero. */
  lemma PatchMeans(file: seq<byte>, at: nat, data: seq<byte>)
    ensures var r := Patch(file, at, data);
            && |r| == (if |file| < at + |data| then at + |data| else |file|)
            && forall i :: 0 <= i < |r| ==>
                 r[i] == if at <= i < at + |data| then data[i - at] else if i < |file| then file[i] else 0
  {
  }

  /** io.ReadFull of `length` bytes from an offset: a short read is the end of the file. */
  function ReadFull(file: seq<byte>, off: nat, length: nat): Resp {
    if off + length <= |file| then Chunk(file[off..off + length], false)
    else Chunk(if off <= |file| then file[off..] else [], true)
  }

  function Content(file: Option<seq<byte>>): seq<byte> { if file.Some? then file.value else [] }

  /** The file afterwards, and the answer; none is an error of the tool itself. */
  function Serve(file: Option<seq<byte>>, r: Req): (Option<seq<byte>>, Option<Resp>) {
    match r
    case Read(off, length) => (file, if file.Some? then Some(ReadFull(file.value, off, length)) else None)
    case Truncate => (Some([]), Some(Done))
    case WriteAt(at, data) => (Some(Patch(Content(file), at, data)), Some(Done))
    case Stat => (file, if file.Some? then Some(Size(|file.value|)) else None)
  }

  function Call(o: Oracle, n: Net, r: Req): (Net, Result<Resp>) {
    var (file, resp) := Serve(n.file, r);
    match o(n.k)
    case Served => (Net(file, n.k + 1), if resp.Some? then Ok(resp.value) else Fail(false))
    case LostRequest(down) => (Net(n.file, n.k + 1), Fail(down))
    case LostReply(down) => (Net(file, n.k + 1), Fail(down))
    case Cancelled => (Net(n.file, n.k + 1), Fail(false))
  }

  const CHUNK_RETRIES: nat := 3

  /** Up to three more attempts, unless the tunnel is down or the transfer is cancelled. */
  function CallRetry(o: Oracle, n: Net, r: Req): (Net, Result<Resp>) { Attempts(o, n, r, n.k + CHUNK_RETRIES) }

  /** Attempts from call number n.k up to number `last`. */
  function Attempts(o: Oracle, n: Net, r: Req, last: nat): (Net, Result<Resp>)
    decreases last - n.k
  {
    var (n', res) := Call(o, n, r);
    if res.Ok? || res.down || o(n.k).Cancelled? || n.k >= last then (n', res) else Attempts(o, n', r, last)
  }

  // ---------- upload ----------

  /** The chunk loop, one write at a time. */
  function SendChunks(o: Oracle, n: Net, local: seq<byte>, off: nat, chunk: nat): (Net, Result<nat>)
    requires chunk > 0
    decreases |local| - off
  {
    if off >= |local| then (n, Ok(off))
    else
      var end := if off + chunk < |local| then off + chunk else |local|;
      var (n', res) := CallRetry(o, n, WriteAt(off, local[off..end]));
      if res.Fail? then (n', Fail(res.down)) else SendChunks(o, n', local, end, chunk)
  }

  /** One run of doUploadFile: from the start, or from the size the remote file claims. */
  function UploadOnce(o: Oracle, n: Net, local: seq<byte>, resume: bool, chunk: nat): (Net, Result<nat>)
    requires chunk > 0
  {
    var (n1, st) := if resume then Call(o, n, Stat) else (n, Fail(false));
    var off := if st.Ok? && st.value.Size? then st.value.n else 0;
    if off > 0 then SendChunks(o, n1, local, off, chunk)
    else
      var (n2, res) := CallRetry(o, n1, Truncate);
      if res.Fail? then (n2, Fail(res.down)) else SendChunks(o, n2, local, 0, chunk)
  }

  const MAX_RECONNECTS: nat := 5

  /** transferLoop: while the tunnel is what failed, and until giveUp (cancelled, or no reconnect), resume. */
  function Upload(o: Oracle, giveUp: nat -> bool, n: Net, local: seq<byte>, resume: bool, chunk: nat,
                  attempt: nat): (Net, Result<nat>)
    requires chunk > 0 && attempt <= MAX_RECONNECTS
    decreases MAX_RECONNECTS - attempt
  {
    var (n', res) := UploadOnce(o, n, local, resume, chunk);
    if res.Ok? || attempt == MAX_RECONNECTS || !res.down || giveUp(attempt) then (n', res)
    else Upload(o, giveUp, n', local, true, chunk, attempt + 1)
  }

  // ---------- download ----------

  datatype Down = Down(net: Net, local: Option<seq<byte>>, res: Result<nat>)

  /** The read loop, from `total` on. */
  function Fetch(o: Oracle, n: Net, local: Option<seq<byte>>, total: nat, chunk: nat): Down
    requires chunk > 0
    decreases |Content(n.file)| - total
  {
    var (n', res) := CallRetry(o, n, Read(total, chunk));
    if res.Fail? then Down(n', local, Fail(res.down))
    else if !res.value.Chunk? then Down(n', local, Fail(false))
    else
      var bytes := res.value.bytes;
      var local' := if bytes != [] then Some(Patch(Content(local), total, bytes)) else local;
      if res.value.eof then Down(n', local', Ok(total + |bytes|))
      else if bytes == [] then Down(n', local', Fail(false))
      else
        RetryReads(o, n, total, chunk, n.k + CHUNK_RETRIES);
        Fetch(o, n', local', total + |bytes|, chunk)
  }

  /** One run of doDownloadFile: from the start into a new file, or into the file there is. */
  function DownloadOnce(o: Oracle, n: Net, local: Option<seq<byte>>, off: nat, chunk: nat): Down
    requires chunk > 0
  {
    if off > 0 && local.None? then Down(n, local, Fail(false))
    else
      var (n1, _) := Call(o, n, Stat);
      Fetch(o, n1, if off > 0 then local else Some([]), off, chunk)
  }

  function Download(o: Oracle, giveUp: nat -> bool, n: Net, local: Option<seq<byte>>, off: nat, chunk: nat,
                    attempt: nat): Down
    requires chunk > 0 && attempt <= MAX_RECONNECTS
    decreases MAX_RECONNECTS - attempt
  {
    var d := DownloadOnce(o, n, local, off, chunk);
    if d.res.Ok? || attempt == MAX_RECONNECTS || !d.res.down || giveUp(attempt) then d
    else Download(o, giveUp, d.net, d.local, |Content(d.local)|, chunk, attempt + 1)
  }

  /** Reading changes nothing, and an answer is what the file holds there. */
  lemma {:induction false} RetryReads(o: Oracle, n: Net, off: nat, length: nat, last: nat)
    ensures var (n', res) := Attempts(o, n, Read(off, length), last);
            && n'.file == n.file
            && (res.Ok? ==> n.file.Some? && res.value == ReadFull(n.file.value, off, length))
    decreases last - n.k
  {
    var (n', res) := Call(o, n, Read(off, length));
    if !(res.Ok? || res.down || o(n.k).Cancelled? || n.k >= last) {
      RetryReads(o, n', off, length, last);
    }
  }

  // ---------- download: what is kept ----------

  /** What is read at the end of a prefix extends it, and at the end of the file completes it. */
  lemma ReadExtends(file: seq<byte>, local: seq<byte>, chunk: nat)
    requires local <= file
    ensures var r := ReadFull(file, |local|, chunk);
            && Patch(local, |local|, r.bytes) == local + r.bytes <= file
            && (r.eof ==> local + r.bytes == file) && (r.bytes == [] ==> local + r.bytes == local)
  {
  }

  lemma {:induction false} FetchKeeps(o: Oracle, n: Net, local: seq<byte>, chunk: nat)
    requires chunk > 0 && local <= Content(n.file)
    ensures var d := Fetch(o, n, Some(local), |local|, chunk);
            && d.net.file == n.file && d.local.Some? && d.local.value <= Content(n.file)
            && (d.res.Ok? ==> n.file == d.local && d.res.value == |d.local.value|)
    decreases |Content(n.file)| - |local|
  {
    RetryReads(o, n, |local|, chunk, n.k + CHUNK_RETRIES);
    var (n', res) := CallRetry(o, n, Read(|local|, chunk));
    if res.Ok? {
      var file, bytes := n.file.value, res.value.bytes;
      ReadExtends(file, local, chunk);
      if !res.value.eof && bytes != [] {
        FetchKeeps(o, n', local + bytes, chunk);
      }
    }
  }

  lemma CallStatKeeps(o: Oracle, n: Net)
    ensures var (n', res) := Call(o, n, Stat);
            n'.file == n.file && (res.Ok? ==> n.file.Some? && res.value == Size(|n.file.value|))
  {
  }

  lemma DownloadOnceKeeps(o: Oracle, n: Net, local: Option<seq<byte>>, off: nat, chunk: nat)
    requires chunk > 0
    requires off > 0 ==> local.Some? && off == |local.value| && local.value <= Content(n.file)
    ensures var d := DownloadOnce(o, n, local, off, chunk);
            && d.net.file == n.file && d.local.Some? && d.local.value <= Content(n.file)
            && (d.res.Ok? ==> n.file == d.local && d.res.value == |d.local.value|)
  {
    CallStatKeeps(o, n);
    var (n1, _) := Call(o, n, Stat);
    FetchKeeps(o, n1, if off > 0 then local.value else [], chunk);
  }

  lemma {:induction false} DownloadKeeps(o: Oracle, giveUp: nat -> bool, n: Net, local: Option<seq<byte>>, off: nat,
                                         chunk: nat, attempt: nat)
    requires chunk > 0 && attempt <= MAX_RECONNECTS
    requires off > 0 ==> local.Some? && off == |local.value| && local.value <= Content(n.file)
    ensures var d := Download(o, giveUp, n, local, off, chunk, attempt);
            && d.net.file == n.file && d.local.Some? && d.local.value <= Content(n.file)
            && (d.res.Ok? ==> n.file == d.local && d.res.value == |d.local.value|)
    decreases MAX_RECONNECTS - attempt
  {
    DownloadOnceKeeps(o, n, local, off, chunk);
    var d := DownloadOnce(o, n, local, off, chunk);
    if !(d.res.Ok? || attempt == MAX_RECONNECTS || !d.res.down || giveUp(attempt)) {
      DownloadKeeps(o, giveUp, d.net, d.local, |d.local.value|, chunk, attempt + 1);
    }
  }

  /** However calls fail and wherever the transfer stops, a download from the start leaves a prefix of the remote
      file, and one that reports success leaves the file. */
  lemma DownloadExact(o: Oracle, giveUp: nat -> bool, remote: Option<seq<byte>>, local: Option<seq<byte>>, chunk: nat)
    requires chunk > 0
    ensures var d := Download(o, giveUp, Net(remote, 0), local, 0, chunk, 0);
            && d.net.file == remote && d.local.Some? && d.local.value <= Content(remote)
            && (d.res.Ok? ==> d.local == remote)
  {
    DownloadKeeps(o, giveUp, Net(remote, 0), local, 0, chunk, 0);
  }

  // ---------- upload: what is kept ----------

  /** The remote file is absent or a prefix of the local one. */
  predicate Prefix(file: Option<seq<byte>>, local: seq<byte>) { Content(file) <= local }

  lemma PatchPrefix(file: seq<byte>, local: seq<byte>, at: nat, end: nat)
    requires file <= local && at <= |file| && at <= end <= |local|
    ensures Patch(file, at, local[at..end]) == local[..if |file| < end then end else |file|]
  {
  }

  lemma CallWriteKeeps(o: Oracle, n: Net, local: seq<byte>, at: nat, end: nat)
    requires Prefix(n.file, local) && at <= |Content(n.file)| && at <= end <= |local|
    ensures var (n', res) := Call(o, n, WriteAt(at, local[at..end]));
            && Prefix(n'.file, local) && |Content(n'.file)| >= |Content(n.file)|
            && (res.Ok? ==> n'.file.Some? && |n'.file.value| >= end)
  {
    PatchPrefix(Content(n.file), local, at, end);
  }

  lemma {:induction false} RetryWrites(o: Oracle, n: Net, local: seq<byte>, at: nat, end: nat, last: nat)
    requires Prefix(n.file, local) && at <= |Content(n.file)| && at <= end <= |local|
    ensures var (n', res) := Attempts(o, n, WriteAt(at, local[at..end]), last);
            && Prefix(n'.file, local) && |Content(n'.file)| >= |Content(n.file)|
            && (res.Ok? ==> n'.file.Some? && |n'.file.value| >= end)
    decreases last - n.k
  {
    var r := WriteAt(at, local[at..end]);
    CallWriteKeeps(o, n, local, at, end);
    var (n', res) := Call(o, n, r);
    if !(res.Ok? || res.down || o(n.k).Cancelled? || n.k >= last) {
      RetryWrites(o, n', local, at, end, last);
    }
  }

  lemma {:induction false} RetryTruncates(o: Oracle, n: Net, local: seq<byte>, last: nat)
    requires Prefix(n.file, local)
    ensures var (n', res) := Attempts(o, n, Truncate, last); Prefix(n'.file, local) && (res.Ok? ==> n'.file.Some?)
    decreases last - n.k
  {
    var (n', res) := Call(o, n, Truncate);
    if !(res.Ok? || res.down || o(n.k).Cancelled? || n.k >= last) {
      RetryTruncates(o, n', local, last);
    }
  }

  lemma {:induction false} SendChunksKeeps(o: Oracle, n: Net, local: seq<byte>, off: nat, chunk: nat)
    requires chunk > 0 && Prefix(n.file, local) && n.file.Some? && off <= |n.file.value|
    ensures var (n', res) := SendChunks(o, n, local, off, chunk);
            Prefix(n'.file, local) && (res.Ok? ==> n'.file == Some(local))
    decreases |local| - off
  {
    if off < |local| {
      var end := if off + chunk < |local| then off + chunk else |local|;
      RetryWrites(o, n, local, off, end, n.k + CHUNK_RETRIES);
      var (n', res) := CallRetry(o, n, WriteAt(off, local[off..end]));
      if res.Ok? {
        SendChunksKeeps(o, n', local, end, chunk);
      }
    } else {
      assert n.file.value == local;
    }
  }

  lemma UploadOnceKeeps(o: Oracle, n: Net, local: seq<byte>, resume: bool, chunk: nat)
    requires chunk > 0 && Prefix(n.file, local)
    ensures var (n', res) := UploadOnce(o, n, local, resume, chunk);
            Prefix(n'.file, local) && (res.Ok? ==> n'.file == Some(local))
  {
    CallStatKeeps(o, n);
    var (n1, st) := if resume then Call(o, n, Stat) else (n, Fail(false));
    var off := if st.Ok? && st.value.Size? then st.value.n else 0;
    if off > 0 {
      SendChunksKeeps(o, n1, local, off, chunk);
    } else {
      RetryTruncates(o, n1, local, n1.k + CHUNK_RETRIES);
      var (n2, res) := CallRetry(o, n1, Truncate);
      if res.Ok? {
        SendChunksKeeps(o, n2, local, 0, chunk);
      }
    }
  }

  lemma {:induction false} UploadKeeps(o: Oracle, giveUp: nat -> bool, n: Net, local: seq<byte>, resume: bool,
                                       chunk: nat, attempt: nat)
    requires chunk > 0 && attempt <= MAX_RECONNECTS && Prefix(n.file, local)
    ensures var (n', res) := Upload(o, giveUp, n, local, resume, chunk, attempt);
            Prefix(n'.file, local) && (res.Ok? ==> n'.file == Some(local))
    decreases MAX_RECONNECTS - attempt
  {
    UploadOnceKeeps(o, n, local, resume, chunk);
    var (n', res) := UploadOnce(o, n, local, resume, chunk);
    if !(res.Ok? || attempt == MAX_RECONNECTS || !res.down || giveUp(attempt)) {
      UploadKeeps(o, giveUp, n', local, true, chunk, attempt + 1);
    }
  }

  // ---------- upload: the condition is exact ----------

  /** The first call is lost with the tunnel, everything after it is served. */
  function FirstLost(k: nat): Fate { if k == 0 then LostRequest(true) else Served }

  function Never(attempt: nat): bool { false }

  lemma ServedWrite(n: Net, at: nat, data: seq<byte>)
    requires n.k > 0
    ensures CallRetry(FirstLost, n, WriteAt(at, data))
            == (Net(Some(Patch(Content(n.file), at, data)), n.k + 1), Ok(Done))
  {
  }

  /** With every call served, the chunk loop leaves the first `off` bytes alone. */
  lemma {:induction false} ServedChunks(n: Net, local: seq<byte>, off: nat, chunk: nat)
    requires chunk > 0 && n.k > 0 && n.file.Some? && off <= |n.file.value|
    ensures var (n', res) := SendChunks(FirstLost, n, local, off, chunk);
            && res.Ok? && n'.file.Some? && off <= |n'.file.value| && n'.file.value[..off] == n.file.value[..off]
            && (off >= |local| ==> n' == n)
    decreases |local| - off
  {
    if off < |local| {
      var end := if off + chunk < |local| then off + chunk else |local|;
      ServedWrite(n, off, local[off..end]);
      var (n', _) := CallRetry(FirstLost, n, WriteAt(off, local[off..end]));
      ServedChunks(n', local, end, chunk);
      var (n'', _) := SendChunks(FirstLost, n', local, end, chunk);
      assert n''.file.value[..off] == n''.file.value[..end][..off];
      assert n'.file.value[..off] == n'.file.value[..end][..off];
    }
  }

  /** A remote file that is not a prefix survives a lost truncation, and the resume builds on it. */
  lemma StaleRemoteSurvives(stale: seq<byte>, local: seq<byte>, chunk: nat)
    requires chunk > 0 && !(stale <= local)
    ensures var (n', res) := Upload(FirstLost, Never, Net(Some(stale), 0), local, false, chunk, 0);
            res.Ok? && n'.file != Some(local)
  {
    var n1 := Net(Some(stale), 1);
    assert CallRetry(FirstLost, Net(Some(stale), 0), Truncate) == (n1, Fail(true));
    assert UploadOnce(FirstLost, Net(Some(stale), 0), local, false, chunk) == (n1, Fail(true));
    var n2 := Net(Some(stale), 2);
    assert Call(FirstLost, n1, Stat) == (n2, Ok(Size(|stale|)));
    ServedChunks(n2, local, |stale|, chunk);
    assert UploadOnce(FirstLost, n1, local, true, chunk) == SendChunks(FirstLost, n2, local, |stale|, chunk);
    assert Upload(FirstLost, Never, Net(Some(stale), 0), local, false, chunk, 0)
        == Upload(FirstLost, Never, n1, local, true, chunk, 1);
  }

  /** An upload that reports success has made the remote file equal to the local one, under every pattern of failures,
      if and only if the remote file was absent or a prefix of the local one to begin with. */
  lemma UploadExactIff(remote: Option<seq<byte>>, local: seq<byte>, chunk: nat)
    requires chunk > 0
    ensures (forall o: Oracle, giveUp: nat -> bool ::
               var (n', res) := Upload(o, giveUp, Net(remote, 0), local, false, chunk, 0);
               res.Ok? ==> n'.file == Some(local))
            <==> Prefix(remote, local)
  {
    if Prefix(remote, local) {
      forall o: Oracle, giveUp: nat -> bool
        ensures var (n', res) := Upload(o, giveUp, Net(remote, 0), local, false, chunk, 0);
                res.Ok? ==> n'.file == Some(local)
      {
        UploadKeeps(o, giveUp, Net(remote, 0), local, false, chunk, 0);
      }
    } else {
      StaleRemoteSurvives(remote.value, local, chunk);
    }
  }

  // ---------- what the retries are for ----------

  /** The tunnel stays up, nobody cancels, and of any four calls in a row one is served. */
  ghost predicate Tolerable(o: Oracle) {
    && (forall k :: o(k) in {Served, LostRequest(false), LostReply(false)})
    && (forall k :: ServedSoon(o, k))
  }

  ghost predicate ServedSoon(o: Oracle, k: nat) { exists j :: k <= j <= k + CHUNK_RETRIES && o(j) == Served }

  /** The tool itself has an answer. */
  predicate Answerable(file: Option<seq<byte>>, r: Req) { r.Truncate? || r.WriteAt? || file.Some? }

  lemma {:induction false} ServedInTime(o: Oracle, n: Net, r: Req, last: nat, j: nat)
    requires Tolerable(o) && Answerable(n.file, r) && n.k <= j <= last && o(j) == Served
    ensures Attempts(o, n, r, last).1.Ok?
    decreases j - n.k
  {
    assert o(n.k) in {Served, LostRequest(false), LostReply(false)};
    var (n', res) := Call(o, n, r);
    if !res.Ok? {
      ServedInTime(o, n', r, last, j);
    }
  }

  lemma RetryServed(o: Oracle, n: Net, r: Req)
    requires Tolerable(o) && Answerable(n.file, r)
    ensures CallRetry(o, n, r).1.Ok?
  {
    assert ServedSoon(o, n.k);
    var j :| n.k <= j <= n.k + CHUNK_RETRIES && o(j) == Served;
    ServedInTime(o, n, r, n.k + CHUNK_RETRIES, j);
  }

  lemma {:induction false} FetchServed(o: Oracle, n: Net, local: seq<byte>, chunk: nat)
    requires chunk > 0 && Tolerable(o) && n.file.Some? && local <= n.file.value
    ensures Fetch(o, n, Some(local), |local|, chunk).res.Ok?
    decreases |Content(n.file)| - |local|
  {
    RetryServed(o, n, Read(|local|, chunk));
    RetryReads(o, n, |local|, chunk, n.k + CHUNK_RETRIES);
    var (n', res) := CallRetry(o, n, Read(|local|, chunk));
    ReadExtends(n.file.value, local, chunk);
    if !res.value.eof {
      FetchServed(o, n', local + res.value.bytes, chunk);
    }
  }

  /** A download over such a tunnel succeeds, at once, and fetches the file whatever was there before. */
  lemma DownloadSucceeds(o: Oracle, giveUp: nat -> bool, remote: seq<byte>, local: Option<seq<byte>>, chunk: nat)
    requires chunk > 0 && Tolerable(o)
    ensures var d := Download(o, giveUp, Net(Some(remote), 0), local, 0, chunk, 0);
            d.res == Ok(|remote|) && d.local == Some(remote) && d.net.file == Some(remote)
  {
    var n := Net(Some(remote), 0);
    CallStatKeeps(o, n);
    FetchServed(o, Call(o, n, Stat).0, [], chunk);
    DownloadOnceKeeps(o, n, local, 0, chunk);
  }

  lemma {:induction false} SendServed(o: Oracle, n: Net, local: seq<byte>, off: nat, chunk: nat)
    requires chunk > 0 && Tolerable(o)
    ensures var res := SendChunks(o, n, local, off, chunk).1; res == Ok(if off <= |local| then |local| else off)
    decreases |local| - off
  {
    if off < |local| {
      var end := if off + chunk < |local| then off + chunk else |local|;
      RetryServed(o, n, WriteAt(off, local[off..end]));
      SendServed(o, CallRetry(o, n, WriteAt(off, local[off..end])).0, local, end, chunk);
    }
  }

  lemma {:induction false} TruncateClears(o: Oracle, n: Net, last: nat)
    ensures Attempts(o, n, Truncate, last).1.Ok? ==> Attempts(o, n, Truncate, last).0.file == Some([])
    decreases last - n.k
  {
    var (n', res) := Call(o, n, Truncate);
    if !(res.Ok? || res.down || o(n.k).Cancelled? || n.k >= last) {
      TruncateClears(o, n', last);
    }
  }

  /** An upload over such a tunnel succeeds, at once, and replaces whatever the remote file was. */
  lemma UploadSucceeds(o: Oracle, giveUp: nat -> bool, remote: Option<seq<byte>>, local: seq<byte>, chunk: nat)
    requires chunk > 0 && Tolerable(o)
    ensures var (n', res) := Upload(o, giveUp, Net(remote, 0), local, false, chunk, 0);
            res == Ok(|local|) && n'.file == Some(local)
  {
    var n := Net(remote, 0);
    RetryServed(o, n, Truncate);
    TruncateClears(o, n, CHUNK_RETRIES);
    var n' := CallRetry(o, n, Truncate).0;
    SendServed(o, n', local, 0, chunk);
    SendChunksKeeps(o, n', local, 0, chunk);
  }

  /** A resumed upload over such a tunnel completes a file that was begun. */
  lemma ResumeSucceeds(o: Oracle, giveUp: nat -> bool, n: Net, local: seq<byte>, chunk: nat)
    requires chunk > 0 && Tolerable(o) && Prefix(n.file, local)
    ensures var (n', res) := Upload(o, giveUp, n, local, true, chunk, 0);
            res == Ok(|local|) && n'.file == Some(local)
  {
    var (n1, st) := Call(o, n, Stat);
    CallStatKeeps(o, n);
    RetryServed(o, n1, Truncate);
    var off := if st.Ok? && st.value.Size? then st.value.n else 0;
    SendServed(o, n1, local, off, chunk);
    SendServed(o, CallRetry(o, n1, Truncate).0, local, 0, chunk);
    UploadOnceKeeps(o, n, local, true, chunk);
  }
}
