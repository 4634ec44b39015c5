/**
 Transfers survive a tunnel that breaks: with at most five losses of the tunnel, and enough luck for the retries in
 between, every upload and download of internal/client/help_bootstrap.go completes.
 */
module TransferRecovery {
  import opened Options
  import opened Bytes
  import opened Transfer

  predicate IsDown(f: Fate) { (f.LostRequest? || f.LostReply?) && f.down }

  /** Nobody cancels this call, and in the four from here on one is served or the tunnel is lost. */
  ghost predicate DecidedSoon(o: Oracle, k: nat) {
    o(k) != Cancelled && exists j :: k <= j <= k + CHUNK_RETRIES && Decisive(o(j))
  }

  predicate Decisive(f: Fate) { f == Served || IsDown(f) }

  /** Nobody cancels, and no call uses up its retries while the tunnel is up. */
  ghost predicate Flaky(o: Oracle) { forall k :: DecidedSoon(o, k) }

  /** How often the tunnel is lost from call i up to call j. */
  function Losses(o: Oracle, i: nat, j: nat): nat {
    if j <= i then 0 else Losses(o, i, j - 1) + if IsDown(o(j - 1)) then 1 else 0
  }

  ghost predicate AtMost(o: Oracle, k: nat, losses: nat) { forall j :: Losses(o, k, j) <= losses }

  lemma {:induction false} LossesSplit(o: Oracle, i: nat, m: nat, j: nat)
    requires i <= m <= j
    ensures Losses(o, i, j) == Losses(o, i, m) + Losses(o, m, j)
    decreases j
  {
    if m < j { LossesSplit(o, i, m, j - 1); }
  }

  /** A loss uses up one of them. */
  lemma OneLess(o: Oracle, k: nat, k': nat, losses: nat)
    requires AtMost(o, k, losses) && k < k' && IsDown(o(k' - 1))
    ensures losses > 0 && AtMost(o, k', losses - 1)
  {
    assert Losses(o, k, k') <= losses;
    forall j: nat
      ensures Losses(o, k', j) <= losses - 1
    {
      if j >= k' {
        LossesSplit(o, k, k', j);
        assert Losses(o, k, j) <= losses;
      }
    }
  }

  // ---------- one call and one run ----------

  /** A success, or the loss of the tunnel in the very last call. */
  predicate Decided(o: Oracle, k: nat, k': nat, failed: bool, down: bool) {
    k < k' && (failed ==> down && IsDown(o(k' - 1)))
  }

  lemma {:induction false} AttemptsDecide(o: Oracle, n: Net, r: Req, last: nat, j: nat)
    requires Flaky(o) && Answerable(n.file, r) && n.k <= j <= last && Decisive(o(j))
    ensures var (n', res) := Attempts(o, n, r, last); Decided(o, n.k, n'.k, res.Fail?, res.Fail? && res.down)
    decreases j - n.k
  {
    var (n', res) := Call(o, n, r);
    assert DecidedSoon(o, n.k);
    if !res.Ok? && !res.down {
      AttemptsDecide(o, n', r, last, j);
    }
  }

  lemma RetryDecides(o: Oracle, n: Net, r: Req)
    requires Flaky(o) && Answerable(n.file, r)
    ensures var (n', res) := CallRetry(o, n, r); Decided(o, n.k, n'.k, res.Fail?, res.Fail? && res.down)
  {
    assert DecidedSoon(o, n.k);
    var j :| n.k <= j <= n.k + CHUNK_RETRIES && Decisive(o(j));
    AttemptsDecide(o, n, r, n.k + CHUNK_RETRIES, j);
  }

  lemma {:induction false} FetchDecides(o: Oracle, n: Net, local: seq<byte>, chunk: nat)
    requires chunk > 0 && Flaky(o) && n.file.Some? && local <= n.file.value
    ensures var d := Fetch(o, n, Some(local), |local|, chunk);
            Decided(o, n.k, d.net.k, d.res.Fail?, d.res.Fail? && d.res.down)
    decreases |Content(n.file)| - |local|
  {
    RetryDecides(o, n, Read(|local|, chunk));
    RetryReads(o, n, |local|, chunk, n.k + CHUNK_RETRIES);
    var (n', res) := CallRetry(o, n, Read(|local|, chunk));
    ReadExtends(n.file.value, local, chunk);
    if res.Ok? && !res.value.eof {
      FetchDecides(o, n', local + res.value.bytes, chunk);
    }
  }

  lemma DownloadOnceDecides(o: Oracle, n: Net, local: Option<seq<byte>>, off: nat, chunk: nat)
    requires chunk > 0 && Flaky(o) && n.file.Some?
    requires off > 0 ==> local.Some? && off == |local.value| && local.value <= n.file.value
    ensures var d := DownloadOnce(o, n, local, off, chunk);
            Decided(o, n.k, d.net.k, d.res.Fail?, d.res.Fail? && d.res.down)
  {
    CallStatKeeps(o, n);
    FetchDecides(o, Call(o, n, Stat).0, if off > 0 then local.value else [], chunk);
  }

  lemma {:induction false} SendDecides(o: Oracle, n: Net, local: seq<byte>, off: nat, chunk: nat)
    requires chunk > 0 && Flaky(o)
    ensures var (n', res) := SendChunks(o, n, local, off, chunk);
            (n' == n && res.Ok?) || Decided(o, n.k, n'.k, res.Fail?, res.Fail? && res.down)
    decreases |local| - off
  {
    if off < |local| {
      var end := if off + chunk < |local| then off + chunk else |local|;
      RetryDecides(o, n, WriteAt(off, local[off..end]));
      var (n', res) := CallRetry(o, n, WriteAt(off, local[off..end]));
      if res.Ok? {
        SendDecides(o, n', local, end, chunk);
      }
    }
  }

  lemma UploadOnceDecides(o: Oracle, n: Net, local: seq<byte>, resume: bool, chunk: nat)
    requires chunk > 0 && Flaky(o)
    ensures var (n', res) := UploadOnce(o, n, local, resume, chunk);
            Decided(o, n.k, n'.k, res.Fail?, res.Fail? && res.down)
  {
    var (n1, st) := if resume then Call(o, n, Stat) else (n, Fail(false));
    var off := if st.Ok? && st.value.Size? then st.value.n else 0;
    if off > 0 {
      SendDecides(o, n1, local, off, chunk);
    } else {
      RetryDecides(o, n1, Truncate);
      SendDecides(o, CallRetry(o, n1, Truncate).0, local, 0, chunk);
    }
  }

  // ---------- whole transfers ----------

  lemma {:induction false} DownloadContinues(o: Oracle, n: Net, local: Option<seq<byte>>, off: nat, chunk: nat,
                                             attempt: nat)
    requires chunk > 0 && Flaky(o) && n.file.Some? && attempt <= MAX_RECONNECTS
    requires AtMost(o, n.k, MAX_RECONNECTS - attempt)
    requires off > 0 ==> local.Some? && off == |local.value| && local.value <= n.file.value
    ensures var d := Download(o, Never, n, local, off, chunk, attempt);
            d.res == Ok(|n.file.value|) && d.local == n.file
    decreases MAX_RECONNECTS - attempt
  {
    DownloadOnceDecides(o, n, local, off, chunk);
    DownloadOnceKeeps(o, n, local, off, chunk);
    var d := DownloadOnce(o, n, local, off, chunk);
    if d.res.Fail? {
      OneLess(o, n.k, d.net.k, MAX_RECONNECTS - attempt);
      DownloadContinues(o, d.net, d.local, |Content(d.local)|, chunk, attempt + 1);
    }
  }

  /** A download that can reconnect completes although the tunnel is lost up to five times. */
  lemma DownloadRecovers(o: Oracle, remote: seq<byte>, local: Option<seq<byte>>, chunk: nat)
    requires chunk > 0 && Flaky(o) && AtMost(o, 0, MAX_RECONNECTS)
    ensures var d := Download(o, Never, Net(Some(remote), 0), local, 0, chunk, 0);
            d.res == Ok(|remote|) && d.local == Some(remote)
  {
    DownloadContinues(o, Net(Some(remote), 0), local, 0, chunk, 0);
  }

  lemma {:induction false} UploadContinues(o: Oracle, n: Net, local: seq<byte>, resume: bool, chunk: nat, attempt: nat)
    requires chunk > 0 && Flaky(o) && attempt <= MAX_RECONNECTS && AtMost(o, n.k, MAX_RECONNECTS - attempt)
    ensures Upload(o, Never, n, local, resume, chunk, attempt).1.Ok?
    decreases MAX_RECONNECTS - attempt
  {
    UploadOnceDecides(o, n, local, resume, chunk);
    var (n', res) := UploadOnce(o, n, local, resume, chunk);
    if res.Fail? {
      OneLess(o, n.k, n'.k, MAX_RECONNECTS - attempt);
      UploadContinues(o, n', local, true, chunk, attempt + 1);
    }
  }

  /** So does an upload; the remote file is the local one if it was absent or a prefix to begin with. */
  lemma UploadRecovers(o: Oracle, remote: Option<seq<byte>>, local: seq<byte>, chunk: nat)
    requires chunk > 0 && Flaky(o) && AtMost(o, 0, MAX_RECONNECTS)
    ensures var (n', res) := Upload(o, Never, Net(remote, 0), local, false, chunk, 0);
            res.Ok? && (Prefix(remote, local) ==> n'.file == Some(local))
  {
    UploadContinues(o, Net(remote, 0), local, false, chunk, 0);
    if Prefix(remote, local) {
      UploadKeeps(o, Never, Net(remote, 0), local, false, chunk, 0);
    }
  }
}
