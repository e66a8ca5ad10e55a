/** Uploading the base image (cli/infrastructure/qemu/util.go:21-78): a loop that reads into one buffer
    and sends the whole buffer each time. Reads fill the buffer as long as the file lasts and sends take
    all bytes. */
module ImageUpload {
  import opened Common

  const BUFFER_SIZE := 4 * 1024 * 1024

  datatype Exit = Success | Cancelled | ReadFailed | SendFailed | FinishFailed | ShortUpload(sent: int, size: int)

  /** Byte j of what the loop sends for a file: the file itself, then what the buffer still held from the
      chunk before, or zeros if there was none. */
  function StreamByte(file: seq<byte>, bufferSize: nat, j: nat): byte {
    if j < |file| then file[j]
    else if bufferSize <= j && j - bufferSize < |file| then file[j - bufferSize]
    else 0
  }

  predicate IsStream(file: seq<byte>, bufferSize: nat, sent: seq<byte>) {
    forall j :: 0 <= j < |sent| ==> sent[j] == StreamByte(file, bufferSize, j)
  }

  /** Number of buffers a complete upload sends, and of bytes. */
  function Chunks(size: nat, bufferSize: nat): nat
    requires bufferSize > 0
  {
    (size + bufferSize - 1) / bufferSize
  }

  function StreamLength(size: nat, bufferSize: nat): nat
    requires bufferSize > 0
  {
    bufferSize * Chunks(size, bufferSize)
  }

  method Read(file: seq<byte>, pos: nat, buffer: array<byte>) returns (n: nat)
    requires pos <= |file|
    modifies buffer
    ensures n == if |file| - pos < buffer.Length then |file| - pos else buffer.Length
    ensures buffer[..] == file[pos..pos + n] + old(buffer[n..])
  {
    n := if |file| - pos < buffer.Length then |file| - pos else buffer.Length;
    forall i | 0 <= i < n { buffer[i] := file[pos + i]; }
  }

  /** What the buffer holds after `sent` bytes have been sent: the last chunk, or zeros. */
  predicate Holds(file: seq<byte>, bufferSize: nat, sent: nat, content: seq<byte>) {
    |content| == bufferSize && (sent == 0 || sent >= bufferSize)
    && forall i :: 0 <= i < bufferSize ==>
         content[i] == if sent == 0 then 0 else StreamByte(file, bufferSize, sent - bufferSize + i)
  }

  /** Reading the next piece of the file over the old content makes the next chunk of the stream. */
  lemma NextChunk(file: seq<byte>, bufferSize: nat, sent: nat, n: nat, before: seq<byte>, after: seq<byte>)
    requires Holds(file, bufferSize, sent, before) && sent < |file|
    requires n == if |file| - sent < bufferSize then |file| - sent else bufferSize
    requires after == file[sent..sent + n] + before[n..]
    ensures Holds(file, bufferSize, sent + bufferSize, after)
  {
    forall i | 0 <= i < bufferSize ensures after[i] == StreamByte(file, bufferSize, sent + i) {
      if i < n {
        assert after[i] == file[sent + i];
      } else {
        assert after[i] == before[i];
      }
    }
  }

  lemma StreamGrows(file: seq<byte>, bufferSize: nat, sent: seq<byte>, chunk: seq<byte>)
    requires IsStream(file, bufferSize, sent) && Holds(file, bufferSize, |sent| + bufferSize, chunk) && bufferSize > 0
    ensures IsStream(file, bufferSize, sent + chunk)
  {}

  /** The length of a number of chunks, by counting. */
  function Offset(bufferSize: nat, chunks: nat): nat {
    if chunks == 0 then 0 else Offset(bufferSize, chunks - 1) + bufferSize
  }

  lemma {:induction false} OffsetIs(bufferSize: nat, chunks: nat)
    ensures Offset(bufferSize, chunks) == bufferSize * chunks
  {
    if chunks > 0 {
      OffsetIs(bufferSize, chunks - 1);
      assert bufferSize * chunks == bufferSize * (chunks - 1) + bufferSize;
    }
  }

  lemma {:induction false} OffsetGrows(bufferSize: nat, x: nat, y: nat)
    requires x < y
    ensures Offset(bufferSize, x) + bufferSize <= Offset(bufferSize, y)
  {
    if x < y - 1 { OffsetGrows(bufferSize, x, y - 1); }
  }

  /** Where the loop is after `chunk` sends. */
  predicate Sending(file: seq<byte>, bufferSize: nat, chunk: nat, sent: seq<byte>, content: seq<byte>) {
    && |sent| == Offset(bufferSize, chunk) && |sent| < |file| + bufferSize
    && IsStream(file, bufferSize, sent) && Holds(file, bufferSize, |sent|, content)
  }

  lemma SendingOn(file: seq<byte>, bufferSize: nat, chunk: nat, sent: seq<byte>, n: nat, before: seq<byte>, after: seq<byte>)
    requires bufferSize > 0 && Sending(file, bufferSize, chunk, sent, before) && |sent| < |file|
    requires n == if |file| - |sent| < bufferSize then |file| - |sent| else bufferSize
    requires after == file[|sent|..|sent| + n] + before[n..]
    ensures Sending(file, bufferSize, chunk + 1, sent + after, after)
  {
    assert Holds(file, bufferSize, |sent| + bufferSize, after) by {
      NextChunk(file, bufferSize, |sent|, n, before, after);
    }
    var longer := sent + after;
    assert |longer| == |sent| + bufferSize;
    assert IsStream(file, bufferSize, longer) by {
      StreamGrows(file, bufferSize, sent, after);
    }
  }

  /** The context is first found cancelled in iteration `cancelAt`, a read first fails in `readFailsAt` and a
      send in `sendFailsAt`, unless the loop has ended before; iteration n, after the last chunk, only meets
      the end of the file. Each exit is taken exactly when its failure comes first, in the order the loop
      tests for them, and success exactly when nothing failed; what has been sent is a whole number of chunks
      of the stream, as many as iterations were completed. */
  method Upload(file: seq<byte>, bufferSize: nat, cancelAt: nat, readFailsAt: nat, sendFailsAt: nat, finishes: bool)
    returns (r: Exit, sent: seq<byte>)
    requires bufferSize > 0
    ensures IsStream(file, bufferSize, sent)
    ensures var n := Chunks(|file|, bufferSize);
            && (r.Cancelled? <==> cancelAt <= n && cancelAt <= readFailsAt && cancelAt <= sendFailsAt)
            && (r.ReadFailed? <==> readFailsAt <= n && readFailsAt < cancelAt && readFailsAt <= sendFailsAt)
            && (r.SendFailed? <==> sendFailsAt < n && sendFailsAt < cancelAt && sendFailsAt < readFailsAt)
            && (r.Success? <==> n < cancelAt && n < readFailsAt && n <= sendFailsAt && finishes)
            && (r.FinishFailed? <==> n < cancelAt && n < readFailsAt && n <= sendFailsAt && !finishes)
            && !r.ShortUpload?
    ensures r.Cancelled? ==> |sent| == bufferSize * cancelAt
    ensures r.ReadFailed? ==> |sent| == bufferSize * readFailsAt
    ensures r.SendFailed? ==> |sent| == bufferSize * sendFailsAt
    ensures r.Success? || r.FinishFailed? ==> |sent| == StreamLength(|file|, bufferSize)
  {
    var buffer := new byte[bufferSize](_ => 0);
    sent := [];
    var transferred, chunk := 0, 0;
    var pos := 0;
    ghost var n := Chunks(|file|, bufferSize);
    while true
      invariant fresh(buffer) && buffer.Length == bufferSize
      invariant pos == (if transferred < |file| then transferred else |file|)
      invariant transferred == |sent|
      invariant chunk <= cancelAt && chunk <= readFailsAt && chunk <= sendFailsAt
      invariant Sending(file, bufferSize, chunk, sent, buffer[..])
      decreases |file| - pos
    {
      ChunkNumber(|file|, bufferSize, chunk);
      OffsetIs(bufferSize, chunk);
      if chunk == cancelAt {
        return Cancelled, sent;
      }
      if chunk == readFailsAt {
        return ReadFailed, sent;
      }
      ghost var before := buffer[..];
      var count := Read(file, pos, buffer);
      if count == 0 { break; }
      if chunk == sendFailsAt {
        return SendFailed, sent;
      }
      SendingOn(file, bufferSize, chunk, sent, count, before, buffer[..]);
      sent := sent + buffer[..];
      transferred, pos, chunk := transferred + bufferSize, pos + count, chunk + 1;
    }
    if !finishes { return FinishFailed, sent; }
    if transferred < |file| { return ShortUpload(transferred, |file|), sent; }
    return Success, sent;
  }

  /** All chunks together cover the file, with less than one buffer to spare. */
  lemma ChunksCover(size: nat, bufferSize: nat)
    requires bufferSize > 0
    ensures size <= Offset(bufferSize, Chunks(size, bufferSize)) < size + bufferSize
    ensures StreamLength(size, bufferSize) == Offset(bufferSize, Chunks(size, bufferSize))
  {
    var q := Chunks(size, bufferSize);
    OffsetIs(bufferSize, q);
    assert size + bufferSize - 1 == bufferSize * q + (size + bufferSize - 1) % bufferSize;
  }

  /** While less than the file has been sent, fewer than all chunks have; once it has, all of them have. */
  lemma ChunkNumber(size: nat, bufferSize: nat, chunk: nat)
    requires bufferSize > 0 && Offset(bufferSize, chunk) < size + bufferSize
    ensures Offset(bufferSize, chunk) < size <==> chunk < Chunks(size, bufferSize)
    ensures chunk <= Chunks(size, bufferSize)
  {
    var q := Chunks(size, bufferSize);
    ChunksCover(size, bufferSize);
    if chunk > q {
      OffsetGrows(bufferSize, q, chunk);
    } else if chunk < q {
      OffsetGrows(bufferSize, chunk, q);
    }
  }

  /** The first bytes sent are the file; the tail repeats the chunk before. */
  lemma UploadedContent(file: seq<byte>, bufferSize: nat, sent: seq<byte>)
    requires bufferSize > 0 && IsStream(file, bufferSize, sent) && |sent| == StreamLength(|file|, bufferSize)
    ensures |file| <= |sent| < |file| + bufferSize && sent[..|file|] == file
    ensures forall j :: |file| <= j < |sent| ==> sent[j] == if bufferSize <= j then sent[j - bufferSize] else 0
  {
    ChunksCover(|file|, bufferSize);
    AtLeastOneChunk(|file|, bufferSize);
  }

  lemma AtLeastOneChunk(size: nat, bufferSize: nat)
    requires bufferSize > 0
    ensures size > 0 ==> StreamLength(size, bufferSize) >= bufferSize
    ensures size <= bufferSize && size > 0 ==> StreamLength(size, bufferSize) == bufferSize
    ensures size == 0 ==> StreamLength(size, bufferSize) == 0
  {
    var q := Chunks(size, bufferSize);
    ChunksCover(size, bufferSize);
    if q > 0 { OffsetGrows(bufferSize, 0, q); }
    if q > 1 { OffsetGrows(bufferSize, 1, q); }
  }

  /** The stream is declared with twice the file's size; what is sent fits exactly when the file is empty
      or at least half a buffer long. */
  lemma DeclaredLengthFits(size: nat, bufferSize: nat)
    requires bufferSize > 0
    ensures StreamLength(size, bufferSize) <= 2 * size <==> size == 0 || 2 * size >= bufferSize
  {
    ChunksCover(size, bufferSize);
    AtLeastOneChunk(size, bufferSize);
  }

  /** With the buffer the program uses, every non-empty image below two mebibytes overruns its declaration. */
  lemma SmallImagesOverrun(size: nat)
    ensures StreamLength(size, BUFFER_SIZE) > 2 * size <==> 0 < size < 2 * 1024 * 1024
  {
    DeclaredLengthFits(size, BUFFER_SIZE);
  }
}
