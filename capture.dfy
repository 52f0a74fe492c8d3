/** The chunked copy that captures a script's output while forwarding it.
    The reader is the list of what its successive Read calls return; once
    that list is used up the reader reports end of file. The writer is the
    list of what its successive Write calls return; once that list is used
    up every write succeeds. The chunks handed to the writer are returned
    as a log, in the order they were written. */
module Capture {
  import opened Wrappers

  newtype byte = x: int | 0 <= x < 256

  /** Size of the read buffer: one Read delivers at most this many bytes. */
  const BufSize := 1024

  /** An error a Read or a Write can return; `EOF` is io.EOF. */
  datatype IoError = EOF | Failed(reason: string)

  /** What one Read returns: the bytes placed in the buffer and the error. */
  datatype ReadResult = ReadResult(data: seq<byte>, err: Option<IoError>)

  /** What the `i`-th Read returns. */
  function ReadAt(rs: seq<ReadResult>, i: nat): ReadResult {
    if i < |rs| then rs[i] else ReadResult([], Some(EOF))
  }

  /** What the `j`-th Write returns. */
  function WriteAt(ws: seq<Option<IoError>>, j: nat): Option<IoError> {
    if j < |ws| then ws[j] else None
  }

  /** The non-empty chunks delivered by the first `n` reads, in order. */
  function NonEmpty(rs: seq<ReadResult>, n: nat): seq<seq<byte>> {
    if n == 0 then []
    else
      var d := ReadAt(rs, n - 1).data;
      NonEmpty(rs, n - 1) + if |d| > 0 then [d] else []
  }

  /** Every chunk passed on is non-empty, which the `n > 0` test guarantees.
      The upper bound is not derived here: it is the reader's own promise
      that a Read fills at most the 1024-byte buffer, taken as the requires. */
  lemma {:induction false} NonEmptyChunkSizes(rs: seq<ReadResult>, n: nat)
    requires forall i :: 0 <= i < |rs| ==> |rs[i].data| <= BufSize
    ensures forall j :: 0 <= j < |NonEmpty(rs, n)| ==> 0 < |NonEmpty(rs, n)[j]| <= BufSize
  {
    if n > 0 {
      NonEmptyChunkSizes(rs, n - 1);
    }
  }

  /** The bytes delivered by the first `n` reads, joined in order. */
  function AllData(rs: seq<ReadResult>, n: nat): seq<byte> {
    if n == 0 then [] else AllData(rs, n - 1) + ReadAt(rs, n - 1).data
  }

  /** The first `n` chunks of `chunks` joined end to end. */
  function Concat(chunks: seq<seq<byte>>, n: nat): seq<byte>
    requires n <= |chunks|
  {
    if n == 0 then [] else Concat(chunks, n - 1) + chunks[n - 1]
  }

  /** The append step used by `CapturedIsForwarded`: joining a prefix does
      not look past it. */
  lemma {:induction false} ConcatAppend(chunks: seq<seq<byte>>, c: seq<byte>, n: nat)
    requires n <= |chunks|
    ensures Concat(chunks + [c], n) == Concat(chunks, n)
  {
    if n > 0 {
      ConcatAppend(chunks, c, n - 1);
    }
  }

  /** What is captured is exactly what is passed on: joining the non-empty
      chunks gives every byte read. */
  lemma {:induction false} CapturedIsForwarded(rs: seq<ReadResult>, n: nat)
    ensures Concat(NonEmpty(rs, n), |NonEmpty(rs, n)|) == AllData(rs, n)
  {
    if n > 0 {
      CapturedIsForwarded(rs, n - 1);
      var d := ReadAt(rs, n - 1).data;
      if |d| > 0 {
        ConcatAppend(NonEmpty(rs, n - 1), d, |NonEmpty(rs, n - 1)|);
      } else {
        assert NonEmpty(rs, n) == NonEmpty(rs, n - 1);
        assert AllData(rs, n - 1) + d == AllData(rs, n - 1);
      }
    }
  }

  /** The error the loop reports for the read error `e`: io.EOF is success. */
  function Normalize(e: IoError): Option<IoError> {
    if e == EOF then None else Some(e)
  }

  /** Reads until a Read returns an error or a Write fails. Everything read is
      captured in `out`; each non-empty chunk is written once, in order, and
      `written` is the list of those writes. `k` is the number of Read calls.
      A failed write ends the loop with that write's error, the failing chunk
      already captured; otherwise the last read's error ends it, io.EOF
      reported as no error and any other error unchanged. */
  method CopyAndCapture(rs: seq<ReadResult>, ws: seq<Option<IoError>>)
    returns (out: seq<byte>, written: seq<seq<byte>>, err: Option<IoError>, ghost k: nat)
    requires forall i :: 0 <= i < |rs| ==> |rs[i].data| <= BufSize
    ensures 1 <= k <= |rs| + 1
    ensures written == NonEmpty(rs, k)
    ensures out == AllData(rs, k)
    ensures out == Concat(written, |written|)
    ensures forall j :: 0 <= j < |written| ==> 0 < |written[j]| <= BufSize
    ensures forall i :: 0 <= i < k - 1 ==> ReadAt(rs, i).err.None?
    ensures forall j :: 0 <= j < |NonEmpty(rs, k - 1)| ==> WriteAt(ws, j).None?
    ensures var last := ReadAt(rs, k - 1);
            if |last.data| > 0 && WriteAt(ws, |written| - 1).Some?
            then err == WriteAt(ws, |written| - 1)
            else last.err.Some? && err == Normalize(last.err.value)
  {
    out, written := [], [];
    var i := 0;
    while true
      invariant 0 <= i <= |rs|
      invariant forall j :: 0 <= j < i ==> ReadAt(rs, j).err.None?
      invariant written == NonEmpty(rs, i)
      invariant out == AllData(rs, i)
      invariant forall j :: 0 <= j < |written| ==> WriteAt(ws, j).None?
      decreases |rs| - i
    {
      var r := ReadAt(rs, i);
      if |r.data| > 0 {
        var d := r.data;
        out := out + d;
        written := written + [d];
        var werr := WriteAt(ws, |written| - 1);
        if werr.Some? {
          err := werr;
          break;
        }
      }
      if r.err.Some? {
        err := Normalize(r.err.value);
        break;
      }
      i := i + 1;
    }
    k := i + 1;
    NonEmptyChunkSizes(rs, k);
    CapturedIsForwarded(rs, k);
  }
}
