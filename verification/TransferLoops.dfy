/**
 The retry, chunk and reconnect loops of internal/client/help_bootstrap.go, against the functions of module Transfer.
 */
module TransferLoops {
  import opened Options
  import opened Bytes
  import opened Transfer

  /** One turn of the read loop. */
  lemma FetchTurn(o: Oracle, n: Net, local: Option<seq<byte>>, total: nat, chunk: nat)
    requires chunk > 0
    ensures var (n', res) := CallRetry(o, n, Read(total, chunk));
            && (res.Fail? ==> Fetch(o, n, local, total, chunk) == Down(n', local, Fail(res.down)))
            && (res.Ok? ==>
                  && n'.file == n.file && res.value.Chunk?
                  && var bytes := res.value.bytes;
                  && var local' := if bytes != [] then Some(Patch(Content(local), total, bytes)) else local;
                  && (res.value.eof ==> Fetch(o, n, local, total, chunk) == Down(n', local', Ok(total + |bytes|)))
                  && (!res.value.eof ==>
                        && bytes != [] && total + |bytes| <= |Content(n.file)|
                        && Fetch(o, n, local, total, chunk) == Fetch(o, n', local', total + |bytes|, chunk)))
  {
    RetryReads(o, n, total, chunk, n.k + CHUNK_RETRIES);
  }

  /** The remote side as the client meets it. */
  class Link {
    const o: Oracle
    var file: Option<seq<byte>>
    var k: nat

    function Value(): Net
      reads this
    {
      Net(file, k)
    }

    constructor (o: Oracle, file: Option<seq<byte>>)
      ensures this.o == o && Value() == Net(file, 0)
    {
      this.o, this.file, this.k := o, file, 0;
    }

    method CallTool(r: Req) returns (res: Result<Resp>)
      modifies this
      ensures (Value(), res) == Call(o, old(Value()), r)
    {
      var (after, answer) := Serve(file, r);
      var fate := o(k);
      k := k + 1;
      match fate {
        case Served =>
          file := after;
          return if answer.Some? then Ok(answer.value) else Fail(false);
        case LostRequest(down) => return Fail(down);
        case LostReply(down) =>
          file := after;
          return Fail(down);
        case Cancelled => return Fail(false);
      }
    }

    method CallToolRetry(r: Req) returns (res: Result<Resp>)
      modifies this
      ensures (Value(), res) == CallRetry(o, old(Value()), r)
    {
      var attempt := 0;
      while true
        invariant attempt <= CHUNK_RETRIES && k == old(k) + attempt
        invariant Attempts(o, Value(), r, old(k) + CHUNK_RETRIES) == CallRetry(o, old(Value()), r)
        decreases CHUNK_RETRIES - attempt
      {
        var cancelled := o(k).Cancelled?;
        res := CallTool(r);
        if res.Ok? || res.down || cancelled || attempt == CHUNK_RETRIES {
          return;
        }
        attempt := attempt + 1;
      }
    }

    method SendFrom(local: seq<byte>, start: nat, chunk: nat) returns (res: Result<nat>)
      requires chunk > 0
      modifies this
      ensures (Value(), res) == SendChunks(o, old(Value()), local, start, chunk)
    {
      var offset := start;
      while offset < |local|
        invariant SendChunks(o, Value(), local, offset, chunk) == SendChunks(o, old(Value()), local, start, chunk)
        decreases |local| - offset
      {
        var end := if offset + chunk < |local| then offset + chunk else |local|;
        var r := CallToolRetry(WriteAt(offset, local[offset..end]));
        if r.Fail? {
          return Fail(r.down);
        }
        offset := end;
      }
      return Ok(offset);
    }

    method DoUploadFile(local: seq<byte>, resume: bool, chunk: nat) returns (res: Result<nat>)
      requires chunk > 0
      modifies this
      ensures (Value(), res) == UploadOnce(o, old(Value()), local, resume, chunk)
    {
      var offset := 0;
      if resume {
        var st := CallTool(Stat);
        if st.Ok? && st.value.Size? {
          offset := st.value.n;
        }
      }
      if offset == 0 {
        var r := CallToolRetry(Truncate);
        if r.Fail? {
          return Fail(r.down);
        }
      }
      res := SendFrom(local, offset, chunk);
    }

    method UploadFile(giveUp: nat -> bool, local: seq<byte>, offset: nat, chunk: nat) returns (res: Result<nat>)
      requires chunk > 0
      modifies this
      ensures (Value(), res) == Upload(o, giveUp, old(Value()), local, offset > 0, chunk, 0)
    {
      var resume := offset > 0;
      var attempt := 0;
      while true
        invariant attempt <= MAX_RECONNECTS
        invariant Upload(o, giveUp, Value(), local, resume, chunk, attempt)
               == Upload(o, giveUp, old(Value()), local, offset > 0, chunk, 0)
        decreases MAX_RECONNECTS - attempt
      {
        res := DoUploadFile(local, resume, chunk);
        if res.Ok? || attempt == MAX_RECONNECTS || !res.down || giveUp(attempt) {
          return;
        }
        resume := true;
        attempt := attempt + 1;
      }
    }

    method FetchInto(local: Option<seq<byte>>, start: nat, chunk: nat)
      returns (out: Option<seq<byte>>, res: Result<nat>)
      requires chunk > 0
      modifies this
      ensures Down(Value(), out, res) == Fetch(o, old(Value()), local, start, chunk)
    {
      out := local;
      var total: nat := start;
      while true
        invariant Fetch(o, Value(), out, total, chunk) == Fetch(o, old(Value()), local, start, chunk)
        decreases |Content(file)| - total
      {
        FetchTurn(o, Value(), out, total, chunk);
        var r := CallToolRetry(Read(total, chunk));
        if r.Fail? {
          return out, Fail(r.down);
        }
        if !r.value.Chunk? {
          return out, Fail(false);
        }
        var bytes := r.value.bytes;
        if |bytes| > 0 {
          out := Some(Patch(Content(out), total, bytes));
          total := total + |bytes|;
        }
        if r.value.eof {
          return out, Ok(total);
        }
        if |bytes| == 0 {
          return out, Fail(false);
        }
      }
    }

    method DoDownloadFile(local: Option<seq<byte>>, offset: nat, chunk: nat)
      returns (out: Option<seq<byte>>, res: Result<nat>)
      requires chunk > 0
      modifies this
      ensures Down(Value(), out, res) == DownloadOnce(o, old(Value()), local, offset, chunk)
    {
      if offset > 0 && local.None? {
        return local, Fail(false);
      }
      out := if offset > 0 then local else Some([]);
      var _ := CallTool(Stat);
      out, res := FetchInto(out, offset, chunk);
    }

    method DownloadFile(giveUp: nat -> bool, local: Option<seq<byte>>, offset: nat, chunk: nat)
      returns (out: Option<seq<byte>>, res: Result<nat>)
      requires chunk > 0
      modifies this
      ensures Down(Value(), out, res) == Download(o, giveUp, old(Value()), local, offset, chunk, 0)
    {
      out := local;
      var off: nat := offset;
      var attempt := 0;
      while true
        invariant attempt <= MAX_RECONNECTS
        invariant Download(o, giveUp, Value(), out, off, chunk, attempt)
               == Download(o, giveUp, old(Value()), local, offset, chunk, 0)
        decreases MAX_RECONNECTS - attempt
      {
        out, res := DoDownloadFile(out, off, chunk);
        if res.Ok? || attempt == MAX_RECONNECTS || !res.down || giveUp(attempt) {
          return;
        }
        off := |Content(out)|;
        attempt := attempt + 1;
      }
    }
  }
}
