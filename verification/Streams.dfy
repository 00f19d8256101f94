/**
 Stream input and output of the JavaScript library (stdlib.js:61-116): `readAll` over
 the iterator with its one reused buffer, and `writeAll` over partial writes.  A stream
 is the operation kind behind its `read` or `write` and the answers libuv will give.
 */
module Streams {
  import opened Prelude
  import opened Results

  /** How a call of the library ends; Blocked when the answer it waits for never comes. */
  datatype Ending<T> = Returned(value: T) | Threw(error: Value) | Blocked

  // ---------------------------------------------------------------- what arrives

  /** Errors are thrown by the primitives, end of stream is the value -1n. */
  predicate IsEof(kind: OpKind, raw: Raw) {
    CreateResultValue(kind, raw, true) == Ready(BigInt(-1))
  }

  predicate IsFailure(kind: OpKind, raw: Raw) {
    CreateResultValue(kind, raw, true).Ready? && CreateResultValue(kind, raw, true).v.Error?
  }

  predicate IsStream(kind: OpKind) {
    kind == FsRead || kind == TcpRead
  }

  /** The stream does not go on after this answer. */
  predicate Ends(kind: OpKind, raw: Raw) {
    IsEof(kind, raw) || IsFailure(kind, raw)
  }

  /** Index of the first answer that ends the stream or fails; all of them, if none does. */
  function Stop(kind: OpKind, incoming: seq<Raw>): (k: nat)
    ensures k <= |incoming|
    ensures k < |incoming| ==> Ends(kind, incoming[k])
    ensures forall i :: 0 <= i < k ==> !Ends(kind, incoming[i])
  {
    if incoming == [] || Ends(kind, incoming[0]) then 0
    else 1 + Stop(kind, incoming[1..])
  }

  function Bytes(incoming: seq<Raw>): seq<seq<Byte>> {
    seq(|incoming|, i requires 0 <= i < |incoming| => incoming[i].bytes)
  }

  /** Everything delivered before the stream ended. */
  function Delivered(kind: OpKind, incoming: seq<Raw>): seq<Byte> {
    Flatten(Bytes(incoming[..Stop(kind, incoming)]))
  }

  lemma StopIs(kind: OpKind, incoming: seq<Raw>, k: nat)
    requires k <= |incoming| && forall i :: 0 <= i < k ==> !Ends(kind, incoming[i])
    requires k < |incoming| ==> Ends(kind, incoming[k])
    ensures Stop(kind, incoming) == k
  {
    hide IsEof, IsFailure;
  }

  /** The bytes of each answer that goes on come after those before it. */
  lemma DeliveredGrows(kind: OpKind, before: seq<Raw>, raw: Raw)
    requires (forall x :: x in before ==> !Ends(kind, x)) && !Ends(kind, raw)
    ensures Delivered(kind, []) == [] && Delivered(kind, before + [raw]) == Delivered(kind, before) + raw.bytes
  {
    hide Ends, Flatten;
    var more := before + [raw];
    NothingYet([]);
    StopIs(kind, [], 0);
    StopIs(kind, before, |before|);
    StopIs(kind, more, |more|);
    assert before[..|before|] == before && more[..|more|] == more;
    assert Bytes(more) == Bytes(before) + [raw.bytes];
    FlattenSnoc(Bytes(before), raw.bytes);
  }

  /** The answer that ends or fails the stream adds nothing, and nothing after it does. */
  lemma DeliveredStops(kind: OpKind, before: seq<Raw>, raw: Raw, after: seq<Raw>)
    requires (forall x :: x in before ==> !Ends(kind, x)) && Ends(kind, raw)
    ensures Stop(kind, before + [raw] + after) == |before|
    ensures Delivered(kind, before + [raw] + after) == Delivered(kind, before)
  {
    hide Ends, Flatten, Bytes;
    var all := before + [raw] + after;
    StopIs(kind, before, |before|);
    StopIs(kind, all, |before|);
    assert before[..|before|] == before && all[..|before|] == before;
  }

  /** libuv puts at most a buffer's length into the buffer, and errors bring no bytes. */
  predicate Fits(raw: Raw, size: nat) {
    |raw.bytes| <= size && if raw.code >= 0 then |raw.bytes| == raw.code else raw.bytes == []
  }

  /** Any bytes that fit the buffer can be read, and any error can occur. */
  lemma EveryReadFits(bytes: seq<Byte>, code: int, host: string, size: nat)
    ensures |bytes| <= size ==> Fits(Raw(|bytes|, bytes, host), size)
    ensures code < 0 ==> Fits(Raw(code, [], host), size)
  {
  }

  /** A short, zero or full read, an error, or end of stream, told apart by the value alone. */
  lemma ReadValueTellsAll(kind: OpKind, raw: Raw, size: nat)
    requires IsStream(kind) && Fits(raw, size)
    ensures CreateResultValue(kind, raw, true).Ready?
    ensures var v := CreateResultValue(kind, raw, true).v;
            && (IsEof(kind, raw) <==> (kind == FsRead && raw.code == 0) || (kind == TcpRead && raw.code == UV_EOF))
            && (v.Error? <==> IsFailure(kind, raw))
            && (!v.Error? ==> v.BigInt? && (v.n != -1 ==> v.n == |raw.bytes|))
            && (v.Error? || v == BigInt(-1) ==> raw.bytes == [])
  {
  }

  // ---------------------------------------------------------------- what leaves

  /** How one `write(view)` ends: a count, the value -1n, or an exception. */
  datatype WriteAnswer = Accept(n: nat) | Refuse | Fail(error: Value)

  const CHECK_FAILED := Error("Write failed, stream closed prematurely or error occurred", -1)

  /** The write primitives of files and sockets, for a view of `len` bytes. */
  function WriteAnswerOf(kind: OpKind, raw: Raw): (a: WriteAnswer)
    requires kind == FsWrite || kind.TcpWrite?
  {
    var v := CreateResultValue(kind, raw, true).v;
    if v.Error? then Fail(v) else if v == BigInt(-1) then Refuse else Accept(v.n)
  }

  /** They throw on errors and never answer -1n; a socket accepts all of the view, a file a part. */
  lemma FilesAndSocketsNeverRefuse(kind: OpKind, raw: Raw)
    requires kind == FsWrite || kind.TcpWrite?
    ensures WriteAnswerOf(kind, raw) ==
              if raw.code < 0 then Fail(Error("write", raw.code))
              else Accept(if kind.TcpWrite? then kind.len else raw.code)
  {
  }

  function Min(a: nat, b: nat): (m: nat)
    ensures m <= a && m <= b && (m == a || m == b)
  {
    if a < b then a else b
  }

  /** Bytes that successive answers take from a buffer with `len` bytes left. */
  function Taken(answers: seq<WriteAnswer>, len: nat): (n: nat)
    ensures n <= len
  {
    if answers == [] || !answers[0].Accept? then 0
    else var n := Min(answers[0].n, len); n + Taken(answers[1..], len - n)
  }

  lemma {:induction false} TakenSnoc(answers: seq<WriteAnswer>, len: nat, a: WriteAnswer)
    requires forall x :: x in answers ==> x.Accept?
    ensures Taken([], len) == 0
    ensures Taken(answers + [a], len) ==
              Taken(answers, len) + if a.Accept? then Min(a.n, len - Taken(answers, len)) else 0
  {
    if answers == [] {
      assert [a][1..] == [];
    } else {
      assert (answers + [a])[1..] == answers[1..] + [a];
      TakenSnoc(answers[1..], len - Min(answers[0].n, len), a);
    }
  }

  /** Positive counts make progress: as many of them as there are bytes take everything. */
  lemma {:induction false} PositiveCountsFinish(answers: seq<WriteAnswer>, len: nat)
    requires forall a :: a in answers ==> a.Accept? && a.n > 0
    ensures Taken(answers, len) >= Min(|answers|, len)
  {
    if answers != [] && len > 0 {
      PositiveCountsFinish(answers[1..], len - Min(answers[0].n, len));
    }
  }

  // ---------------------------------------------------------------- streams

  ghost function Contents(chunks: seq<array<Byte>>): seq<seq<Byte>>
    reads chunks
  {
    seq(|chunks|, i requires 0 <= i < |chunks| reads chunks => chunks[i][..])
  }

  function Length(bs: seq<seq<Byte>>): nat {
    |Flatten(bs)|
  }

  class Stream {
    const readKind: OpKind
    var incoming: seq<Raw>          // answers to reads still to come
    var answers: seq<WriteAnswer>   // answers to writes still to come
    var sent: seq<Byte>             // bytes accepted from writers

    constructor (readKind: OpKind, incoming: seq<Raw>, answers: seq<WriteAnswer>)
      requires IsStream(readKind)
      ensures this.readKind == readKind && this.incoming == incoming && this.answers == answers && sent == []
    {
      this.readKind, this.incoming, this.answers, sent := readKind, incoming, answers, [];
    }

    /** read(buffer): the primitive fills a prefix of the buffer and returns the count. */
    method Read(buffer: array<Byte>) returns (r: Ending<Value>)
      requires IsStream(readKind) && forall raw :: raw in incoming ==> Fits(raw, buffer.Length)
      modifies `incoming, buffer
      ensures old(incoming) == [] ==> r == Blocked && incoming == []
      ensures old(incoming) != [] ==>
                var raw := old(incoming)[0];
                && incoming == old(incoming)[1..]
                && |raw.bytes| <= buffer.Length && buffer[..|raw.bytes|] == raw.bytes
                && r == if IsFailure(readKind, raw) then Threw(CreateResultValue(readKind, raw, true).v)
                        else if IsEof(readKind, raw) then Returned(BigInt(-1))
                        else Returned(BigInt(|raw.bytes|))
    {
      if incoming == [] {
        return Blocked;
      }
      var raw := incoming[0];
      ReadValueTellsAll(readKind, raw, buffer.Length);
      incoming := incoming[1..];
      forall i | 0 <= i < |raw.bytes| {
        buffer[i] := raw.bytes[i];
      }
      var value := CreateResultValue(readKind, raw, true).v;
      r := if value.Error? then Threw(value) else Returned(value);
    }

    /**
     readAll (stdlib.js:67-84) over the iterator (stdlib.js:104-115).  Whatever the
     pattern of short and zero reads, the result is all the bytes before end of stream.
     */
    method ReadAll(chunkSize: nat) returns (r: Ending<array<Byte>>)
      requires IsStream(readKind) && forall raw :: raw in incoming ==> Fits(raw, chunkSize)
      modifies `incoming
      ensures var k, all := Stop(readKind, old(incoming)), old(incoming);
              if k == |all| then r == Blocked && incoming == []
              else
                && incoming == all[k + 1..]
                && if IsFailure(readKind, all[k]) then r == Threw(CreateResultValue(readKind, all[k], true).v)
                   else r.Returned? && fresh(r.value) && r.value[..] == Delivered(readKind, all)
    {
      hide CreateResultValue, IsEof, IsFailure, Flatten, Bytes, Fits;
      NothingYet(incoming);
      var chunks: seq<array<Byte>> := [];
      var totalBytes := 0;
      var buffer := new Byte[chunkSize];
      ghost var all, n := incoming, 0;
      while true
        invariant n <= Stop(readKind, all) && incoming == all[n..]
        invariant fresh(chunks) && buffer !in chunks
        invariant Flatten(Contents(chunks)) == Flatten(Bytes(all[..n])) && totalBytes == Length(Contents(chunks))
        decreases |incoming|
      {
        var bytesRead := this.Read(buffer);
        if bytesRead.Blocked? {
          return Blocked;
        } else if bytesRead.Threw? {
          return Threw(bytesRead.error);
        } else if bytesRead.value == BigInt(-1) {
          break;
        }
        DeliveredSnoc(all, n);
        if bytesRead.value.n > 0 {
          var chunk := CopyOf(buffer, bytesRead.value.n);
          ChunksSnoc(chunks, chunk);
          chunks := chunks + [chunk];
          totalBytes := totalBytes + chunk.Length;
        }
        n := n + 1;
      }
      var result := Concatenated(chunks, totalBytes);
      r := Returned(result);
    }

    /** chunk.slice(): a copy of the view, safe from the next read. */
    method CopyOf(buffer: array<Byte>, n: nat) returns (copy: array<Byte>)
      requires n <= buffer.Length
      ensures fresh(copy) && copy[..] == buffer[..n]
    {
      copy := new Byte[n];
      forall i | 0 <= i < n {
        copy[i] := buffer[i];
      }
    }

    /** The second loop of readAll: result.set(chunk, offset). */
    method Concatenated(chunks: seq<array<Byte>>, totalBytes: nat) returns (result: array<Byte>)
      requires totalBytes == Length(Contents(chunks))
      ensures fresh(result) && result[..] == Flatten(Contents(chunks))
    {
      result := new Byte[totalBytes];
      var offset, i := 0, 0;
      while i < |chunks|
        invariant i <= |chunks|
        invariant offset == Length(Contents(chunks[..i])) <= totalBytes
        invariant result[..offset] == Flatten(Contents(chunks[..i]))
      {
        var chunk := chunks[i];
        PrefixSnoc(chunks, i);
        forall j | 0 <= j < chunk.Length {
          result[offset + j] := chunk[j];
        }
        offset := offset + chunk.Length;
        i := i + 1;
      }
      assert chunks[..i] == chunks;
    }

    /** write(buffer.subarray(offset)): no more than the view is accepted. */
    method Write(buffer: array<Byte>, offset: nat) returns (r: Ending<int>)
      requires offset <= buffer.Length
      modifies `answers, `sent
      ensures old(answers) == [] ==> r == Blocked && answers == [] && sent == old(sent)
      ensures old(answers) != [] ==>
                && answers == old(answers)[1..]
                && match old(answers)[0]
                   case Accept(n) =>
                     var m := Min(n, buffer.Length - offset);
                     r == Returned(m) && sent == old(sent) + buffer[offset..offset + m]
                   case Refuse => r == Returned(-1) && sent == old(sent)
                   case Fail(v) => r == Threw(v) && sent == old(sent)
    {
      if answers == [] {
        return Blocked;
      }
      match answers[0] {
        case Accept(n) =>
          var m := Min(n, buffer.Length - offset);
          r, sent := Returned(m), sent + buffer[offset..offset + m];
        case Refuse => r := Returned(-1);
        case Fail(v) => r := Threw(v);
      }
      answers := answers[1..];
    }

    /**
     writeAll (stdlib.js:92-102).  After `k` counts the stream holds exactly the first bytes
     of the buffer, once each and in order; it returns when that is all of them, and throws
     or blocks only before.
     */
    method WriteAll(buffer: array<Byte>) returns (r: Ending<int>, ghost k: nat)
      modifies `answers, `sent
      ensures k <= |old(answers)| && (forall a :: a in old(answers)[..k] ==> a.Accept?)
      ensures var n := Taken(old(answers)[..k], buffer.Length);
              && sent == old(sent) + buffer[..n]
              && match r
                 case Returned(total) => n == total == buffer.Length && answers == old(answers)[k..]
                 case Threw(v) =>
                   && n < buffer.Length && k < |old(answers)| && answers == old(answers)[k + 1..]
                   && (old(answers)[k] == Fail(v) || (old(answers)[k] == Refuse && v == CHECK_FAILED))
                 case Blocked => n < buffer.Length && k == |old(answers)| && answers == []
      ensures (forall a :: a in old(answers) ==> a.Accept? && a.n > 0) && |old(answers)| >= buffer.Length
              ==> r == Returned(buffer.Length)
    {
      var totalWritten, totalLength := 0, buffer.Length;
      ghost var all := answers;
      k := 0;
      PositiveCounts(all, totalLength);
      while totalWritten < totalLength
        invariant k <= |all| && answers == all[k..] && forall a :: a in all[..k] ==> a.Accept?
        invariant totalWritten == Taken(all[..k], totalLength) && sent == old(sent) + buffer[..totalWritten]
        decreases |answers|
      {
        var bytesWritten := Write(buffer, totalWritten);
        if bytesWritten.Blocked? {
          assert all[..k] == all;
          return Blocked, k;
        } else if bytesWritten.Threw? {
          return Threw(bytesWritten.error), k;
        } else if bytesWritten.value == -1 {
          return Threw(CHECK_FAILED), k;
        }
        assert all[..k + 1] == all[..k] + [all[k]];
        TakenSnoc(all[..k], totalLength, all[k]);
        totalWritten := totalWritten + bytesWritten.value;
        k := k + 1;
      }
      r := Returned(totalWritten);
    }
  }

  lemma PositiveCounts(answers: seq<WriteAnswer>, len: nat)
    ensures (forall a :: a in answers ==> a.Accept? && a.n > 0) && |answers| >= len ==> Taken(answers, len) == len
  {
    if (forall a :: a in answers ==> a.Accept? && a.n > 0) && |answers| >= len {
      PositiveCountsFinish(answers, len);
    }
  }

  lemma NothingYet(all: seq<Raw>)
    ensures Flatten(Contents([])) == [] == Flatten(Bytes(all[..0]))
  {
    assert Contents([]) == [] && Bytes(all[..0]) == [];
  }

  lemma DeliveredSnoc(all: seq<Raw>, n: nat)
    requires n < |all|
    ensures Flatten(Bytes(all[..n + 1])) == Flatten(Bytes(all[..n])) + all[n].bytes
  {
    assert Bytes(all[..n + 1]) == Bytes(all[..n]) + [all[n].bytes];
    FlattenSnoc(Bytes(all[..n]), all[n].bytes);
  }

  lemma ChunksSnoc(chunks: seq<array<Byte>>, chunk: array<Byte>)
    ensures Flatten(Contents(chunks + [chunk])) == Flatten(Contents(chunks)) + chunk[..]
  {
    assert Contents(chunks + [chunk]) == Contents(chunks) + [chunk[..]];
    FlattenSnoc(Contents(chunks), chunk[..]);
  }

  lemma PrefixSnoc(chunks: seq<array<Byte>>, i: nat)
    requires i < |chunks|
    ensures Flatten(Contents(chunks[..i + 1])) == Flatten(Contents(chunks[..i])) + chunks[i][..]
    ensures Length(Contents(chunks[..i + 1])) <= Length(Contents(chunks))
  {
    assert Contents(chunks[..i + 1]) == Contents(chunks[..i]) + [chunks[i][..]];
    FlattenSnoc(Contents(chunks[..i]), chunks[i][..]);
    assert Contents(chunks) == Contents(chunks[..i + 1]) + Contents(chunks[i + 1..]);
    FlattenAppend(Contents(chunks[..i + 1]), Contents(chunks[i + 1..]));
  }

  /**
   writeAll at one end, readAll at the other: if the pieces that arrive, however they are
   cut, are together what was sent, then the reader gets the writer's buffer back.
   */
  method SendAndReceive(buffer: array<Byte>, answers: seq<WriteAnswer>, kind: OpKind, pieces: seq<Raw>, chunkSize: nat)
    returns (wrote: Ending<int>, read: Ending<array<Byte>>, sent: seq<Byte>)
    requires IsStream(kind) && forall raw :: raw in pieces ==> Fits(raw, chunkSize)
    ensures wrote.Returned? ==> sent == buffer[..]
    ensures var k := Stop(kind, pieces);
            wrote.Returned? && k < |pieces| && IsEof(kind, pieces[k]) && Delivered(kind, pieces) == sent
            ==> read.Returned? && read.value[..] == buffer[..]
  {
    hide Delivered, CreateResultValue;
    var writer := new Stream(kind, [], answers);
    ghost var k;
    wrote, k := writer.WriteAll(buffer);
    sent := writer.sent;
    assert [] + buffer[..buffer.Length] == buffer[..];
    var reader := new Stream(kind, pieces, []);
    read := reader.ReadAll(chunkSize);
  }
}
