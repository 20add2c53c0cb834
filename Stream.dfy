/** The output stream both formatters write to (Go's `io.Writer`). */
module Stream {
  import opened Wrappers

  /** An opaque write failure; `attempt` numbers the write that failed. */
  datatype IoError = IoError(attempt: nat)

  /** All chunks of a sequence of writes, joined. */
  function Concat(chunks: seq<string>): (r: string)
  {
    if chunks == [] then "" else chunks[0] + Concat(chunks[1..])
  }

  lemma {:induction false} ConcatAppend(a: seq<string>, b: seq<string>)
    ensures Concat(a + b) == Concat(a) + Concat(b)
  {
    if a == [] {
      assert a + b == b;
    } else {
      assert (a + b)[1..] == a[1..] + b;
      ConcatAppend(a[1..], b);
    }
  }

  /** Whatever a stream holds after the first k of a planned sequence of writes
      is a prefix of what it would hold after all of them. */
  lemma {:induction false} ConcatPrefix(chunks: seq<string>, k: nat)
    requires k <= |chunks|
    ensures Concat(chunks[..k]) <= Concat(chunks)
    ensures Concat(chunks) == Concat(chunks[..k]) + Concat(chunks[k..])
  {
    assert chunks == chunks[..k] + chunks[k..];
    ConcatAppend(chunks[..k], chunks[k..]);
  }

  lemma TakeOneMore(chunks: seq<string>, k: nat)
    requires k < |chunks|
    ensures chunks[..k + 1] == chunks[..k] + [chunks[k]]
  {
  }

  /** A stream that accepts `budget` more writes and then fails every write.
      `written` holds the accepted chunks, `attempts` counts every write tried. */
  class Writer {
    var written: seq<string>
    var budget: nat
    var attempts: nat

    constructor (budget: nat)
      ensures written == [] && this.budget == budget && attempts == 0
    {
      written := [];
      this.budget := budget;
      attempts := 0;
    }

    method Write(s: string) returns (err: Option<IoError>)
      modifies this
      ensures attempts == old(attempts) + 1
      ensures old(budget) > 0 ==> err == None && written == old(written) + [s] && budget == old(budget) - 1
      ensures old(budget) == 0 ==> err == Some(IoError(old(attempts))) && written == old(written) && budget == 0
    {
      if budget > 0 {
        written := written + [s];
        budget := budget - 1;
        err := None;
      } else {
        err := Some(IoError(attempts));
      }
      attempts := attempts + 1;
    }
  }
}
