/**
 Extraction budgets (internal/updater/limits.go:36-73; updater.go:674-681): what an
 archive may expand to, whatever its headers say and however it is read.
 */
module Budgets {

  import opened Octets

  datatype Status = More | Eof | Failed | TooLarge

  /**
   A reader over fixed data: it gives what it likes of what is asked, fails when it likes, and comes
   back empty-handed only finitely often.
   */
  class Stream {
    const data: Bytes
    var at: nat
    var patience: nat

    ghost predicate Valid()
      reads this
    {
      at <= |data|
    }

    constructor (data: Bytes, patience: nat)
      ensures Valid() && this.data == data && at == 0 && this.patience == patience
    {
      this.data, at, this.patience := data, 0, patience;
    }

    method Read(size: nat) returns (chunk: Bytes, status: Status)
      requires Valid()
      modifies this
      ensures Valid() && at == old(at) + |chunk| && |chunk| <= size
      ensures chunk == data[old(at)..at]
      ensures !status.TooLarge? && (status.Eof? ==> at == |data|)
      ensures patience <= old(patience) && (chunk == [] && status.More? ==> patience < old(patience))
    {
      var n: nat :| n <= size && at + n <= |data|;
      chunk := data[at..at + n];
      at := at + n;
      if n == 0 && patience == 0 {
        status := if at == |data| then Eof else Failed;
        return;
      }
      if n == 0 {
        patience := patience - 1;
      }
      if at == |data| {
        status :| !status.TooLarge?;
      } else {
        status :| status.More? || status.Failed?;
      }
    }
  }

  /** The budgeted reader. */
  class ExpansionReader {
    const source: Stream
    const budget: nat
    var remaining: nat
    /** What has been handed out. */
    ghost var delivered: Bytes

    ghost predicate Valid()
      reads this, source
    {
      && source.Valid()
      && |delivered| + remaining == budget
      && delivered <= source.data
      && |delivered| <= source.at
      && (remaining > 0 ==> source.at == |delivered|)
    }

    constructor (source: Stream, budget: nat)
      requires source.Valid() && source.at == 0
      ensures Valid() && this.source == source && this.budget == budget && delivered == []
    {
      this.source, this.budget, remaining, delivered := source, budget, budget, [];
    }

    method Read(size: nat) returns (chunk: Bytes, status: Status)
      requires Valid()
      modifies this, source
      ensures Valid() && delivered == old(delivered) + chunk && |chunk| <= size
      ensures status.TooLarge? ==> chunk == [] && |delivered| == budget < |source.data|
      ensures size > 0 && status.Eof? && old(source.at) == |old(delivered)| ==> delivered == source.data
      ensures old(source.at) == |old(delivered)| && !status.TooLarge? ==> source.at == |delivered|
      ensures source.patience <= old(source.patience)
      ensures size > 0 && chunk == [] && status.More? ==> source.patience < old(source.patience)
    {
      if size == 0 {
        return [], More;
      }
      if remaining == 0 {
        var probe, state := source.Read(1);
        if |probe| > 0 {
          return [], TooLarge;
        }
        return [], state;
      }
      var most := if size > remaining then remaining else size;
      chunk, status := source.Read(most);
      remaining := remaining - |chunk|;
      delivered := delivered + chunk;
    }
  }

  function Concat(chunks: seq<Bytes>): Bytes {
    if chunks == [] then [] else Concat(chunks[..|chunks| - 1]) + chunks[|chunks| - 1]
  }

  /** Any number of reads with any buffer sizes hand out a prefix of the stream, of at most the budget. */
  method ReadMany(r: ExpansionReader, sizes: seq<nat>) returns (chunks: seq<Bytes>)
    requires r.Valid() && r.delivered == []
    modifies r, r.source
    ensures r.Valid() && |chunks| == |sizes|
    ensures Concat(chunks) <= r.source.data && |Concat(chunks)| + r.remaining == r.budget
  {
    chunks := [];
    for i := 0 to |sizes|
      invariant r.Valid() && |chunks| == i && Concat(chunks) == r.delivered
    {
      var chunk, _ := r.Read(sizes[i]);
      assert (chunks + [chunk])[..i] == chunks;
      chunks := chunks + [chunk];
    }
  }

  /**
   Reading on until something other than more comes back. Unless the reader itself fails,
   the end is reached exactly if the stream is within the budget, and then all of it has
   been handed out; otherwise exactly the budget has.
   */
  method ReadOut(r: ExpansionReader, buffer: nat -> nat) returns (data: Bytes, status: Status)
    requires r.Valid() && r.delivered == [] && r.source.at == 0
    requires forall round :: buffer(round) > 0
    modifies r, r.source
    ensures r.Valid() && !status.More? && data <= r.source.data && |data| <= r.budget
    ensures !status.Failed? ==> (status.Eof? <==> |r.source.data| <= r.budget)
    ensures status.Eof? ==> data == r.source.data
    ensures status.TooLarge? ==> |data| == r.budget
  {
    data, status := [], More;
    var round := 0;
    while status.More?
      invariant r.Valid() && data == r.delivered
      invariant !status.TooLarge? ==> r.source.at == |data|
      invariant status.Eof? ==> data == r.source.data
      invariant status.TooLarge? ==> |data| == r.budget < |r.source.data|
      decreases status.More?, r.remaining + r.source.patience
    {
      var chunk;
      chunk, status := r.Read(buffer(round));
      data, round := data + chunk, round + 1;
    }
  }

  // ---------------------------------------------------------------- declared sizes

  newtype uint64 = n: int | 0 <= n < 0x1_0000_0000_0000_0000

  function Total(sizes: seq<uint64>): nat {
    if sizes == [] then 0 else Total(sizes[..|sizes| - 1]) + sizes[|sizes| - 1] as int
  }

  lemma {:induction false} TotalGrows(sizes: seq<uint64>, i: nat)
    requires i <= |sizes|
    ensures Total(sizes[..i]) <= Total(sizes)
  {
    if i < |sizes| {
      TotalGrows(sizes[..|sizes| - 1], i);
      assert sizes[..|sizes| - 1][..i] == sizes[..i];
    } else {
      assert sizes[..i] == sizes;
    }
  }

  /** The declared sizes are within the limit as numbers, although they are added up in 64 bits. */
  method SizesWithin(sizes: seq<uint64>, totalBytes: nat) returns (ok: bool)
    requires totalBytes < 0x8000_0000_0000_0000
    ensures ok <==> Total(sizes) <= totalBytes
  {
    var expanded: uint64 := 0;
    for i := 0 to |sizes|
      invariant expanded as int == Total(sizes[..i]) <= totalBytes
    {
      assert sizes[..i + 1][..i] == sizes[..i];
      if sizes[i] > totalBytes as uint64 - expanded {
        TotalGrows(sizes, i + 1);
        return false;
      }
      expanded := expanded + sizes[i];
    }
    assert sizes[..|sizes|] == sizes;
    ok := true;
  }

  // ---------------------------------------------------------------- one binary

  datatype Binary = Content(bytes: Bytes) | Refused

  /** io.LimitReader: at most `left` more bytes, then the end. */
  method ReadLimited(source: Stream, left: nat, size: nat) returns (chunk: Bytes, status: Status)
    requires source.Valid()
    modifies source
    ensures source.Valid() && source.at == old(source.at) + |chunk| && |chunk| <= left && |chunk| <= size
    ensures chunk == source.data[old(source.at)..source.at]
    ensures !status.TooLarge? && (status.Eof? ==> left == 0 || source.at == |source.data|)
    ensures source.patience <= old(source.patience)
    ensures chunk == [] && status.More? ==> source.patience < old(source.patience)
  {
    if left == 0 {
      return [], Eof;
    }
    chunk, status := source.Read(if size > left then left else size);
  }

  /**
   Read until the end, one byte more than allowed at most, so that too much shows. However
   the stream is cut up, it is returned whole if it is not empty and within the limit, and
   refused otherwise; a failing reader is the one other way to be refused.
   */
  method ReadBoundedBinary(source: Stream, limit: nat, buffer: nat -> nat) returns (r: Binary, failed: bool)
    requires source.Valid() && source.at == 0
    modifies source
    ensures source.Valid() && source.at <= limit + 1
    ensures failed ==> r == Refused
    ensures !failed ==> r == if 0 < |source.data| <= limit then Content(source.data) else Refused
  {
    var data: Bytes, status, round := [], More, 0;
    while status.More?
      invariant source.Valid() && source.at == |data| <= limit + 1 && data == source.data[..source.at]
      invariant !status.TooLarge? && (status.Eof? ==> |data| == limit + 1 || source.at == |source.data|)
      decreases status.More?, limit + 1 - |data| + source.patience
    {
      var chunk;
      chunk, status := ReadLimited(source, limit + 1 - |data|, buffer(round));
      data, round := data + chunk, round + 1;
    }
    failed := status.Failed?;
    if failed || |data| > limit || |data| == 0 {
      return Refused, failed;
    }
    assert source.data[..|source.data|] == source.data;
    r := Content(data);
  }
}
