/** `getRawBody` (api/checkout.js): the request stream's chunks, collected and concatenated. */
module RawBody {
  import opened Payloads

  /** `Buffer.concat(chunks)` */
  function Concat(chunks: seq<Bytes>): Bytes {
    if chunks == [] then [] else chunks[0] + Concat(chunks[1..])
  }

  function TotalLength(chunks: seq<Bytes>): nat {
    if chunks == [] then 0 else |chunks[0]| + TotalLength(chunks[1..])
  }

  lemma {:induction false} ConcatAppend(a: seq<Bytes>, b: seq<Bytes>)
    ensures Concat(a + b) == Concat(a) + Concat(b)
  {
    if a == [] {
      assert a + b == b;
    } else {
      assert (a + b)[0] == a[0] && (a + b)[1..] == a[1..] + b;
      ConcatAppend(a[1..], b);
    }
  }

  /** The body is exactly as long as all chunks together. */
  lemma {:induction false} ConcatLength(chunks: seq<Bytes>)
    ensures |Concat(chunks)| == TotalLength(chunks)
  {
    if chunks != [] {
      ConcatLength(chunks[1..]);
    }
  }

  /** What has arrived so far is a prefix of the whole body. */
  lemma ConcatPrefix(chunks: seq<Bytes>, i: int)
    requires 0 <= i <= |chunks|
    ensures Concat(chunks[..i]) <= Concat(chunks)
  {
    assert chunks == chunks[..i] + chunks[i..];
    ConcatAppend(chunks[..i], chunks[i..]);
  }

  /** Arrival order is kept: chunk i sits right after the chunks that arrived before it. */
  lemma ConcatChunkAt(chunks: seq<Bytes>, i: int)
    requires 0 <= i < |chunks|
    ensures Concat(chunks) == Concat(chunks[..i]) + chunks[i] + Concat(chunks[i + 1..])
  {
    var before, here, rest := chunks[..i], chunks[i], chunks[i + 1..];
    assert chunks[i..] == [here] + rest;
    assert chunks == before + chunks[i..];
    calc {
      Concat(chunks);
      { ConcatAppend(before, chunks[i..]); }
      Concat(before) + Concat([here] + rest);
      { ConcatCons(here, rest); }
      Concat(before) + here + Concat(rest);
    }
  }

  lemma ConcatCons(c: Bytes, rest: seq<Bytes>)
    ensures Concat([c] + rest) == c + Concat(rest)
  {
    var s := [c] + rest;
    assert s != [] && s[0] == c && s[1..] == rest;
  }

  /** The `for await` loop pushes each chunk as it arrives; the chunks are then concatenated. */
  method GetRawBody(stream: seq<Bytes>) returns (raw: Bytes)
    ensures raw == Concat(stream)
    ensures |raw| == TotalLength(stream)
  {
    var chunks: seq<Bytes> := [];
    var i := 0;
    while i < |stream|
      invariant 0 <= i <= |stream|
      invariant chunks == stream[..i]
    {
      chunks := chunks + [stream[i]];
      i := i + 1;
    }
    assert chunks == stream;
    raw := Concat(chunks);
    ConcatLength(stream);
  }
}
