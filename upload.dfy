/** The uploaded file as the multipart parser hands it over: one event per
    file part, each with its declared MIME type and its data chunks. */
module Upload {

  type Bytes = seq<bv8>

  /** One `file` event: the MIME type the parser reports and the chunks its
      stream delivers, in arrival order. */
  datatype FilePart = FilePart(mimeType: string, chunks: seq<Bytes>)

  /** `Buffer.concat`: the chunks joined end to end. */
  function Concat(chunks: seq<Bytes>): Bytes
  {
    if chunks == [] then [] else chunks[0] + Concat(chunks[1..])
  }

  /** The `fileBuffer` list after the given file events: every part's chunks,
      part after part. */
  function AllChunks(parts: seq<FilePart>): seq<Bytes>
  {
    if parts == [] then []
    else AllChunks(parts[..|parts| - 1]) + parts[|parts| - 1].chunks
  }

  /** The `mimeType` variable after the given file events: "" before any,
      then the type of the latest part. */
  function LastMimeType(parts: seq<FilePart>): string
  {
    if parts == [] then "" else parts[|parts| - 1].mimeType
  }

  /** The bytes the handler forwards to the analyzer. */
  function Forwarded(parts: seq<FilePart>): Bytes
  {
    Concat(AllChunks(parts))
  }

  /** The bytes of each part on its own. */
  function PartBytes(parts: seq<FilePart>): (r: seq<Bytes>)
    ensures |r| == |parts|
    ensures forall i :: 0 <= i < |parts| ==> r[i] == Concat(parts[i].chunks)
  {
    if parts == [] then []
    else [Concat(parts[0].chunks)] + PartBytes(parts[1..])
  }

  /** Concatenation distributes over appending chunk lists. */
  lemma {:induction false} ConcatAppend(a: seq<Bytes>, b: seq<Bytes>)
    ensures Concat(a + b) == Concat(a) + Concat(b)
  {
    if a == [] {
      assert a + b == b;
    } else {
      assert (a + b)[1..] == a[1..] + b;
      ConcatAppend(a[1..], b);
    }
  }

  /** Chunk `j` sits in the joined buffer right after the bytes of the chunks
      before it, unchanged: nothing is dropped, reordered or altered. */
  lemma ChunkPlacement(chunks: seq<Bytes>, j: nat)
    requires j < |chunks|
    ensures var offset := |Concat(chunks[..j])|;
      offset + |chunks[j]| <= |Concat(chunks)| &&
      Concat(chunks)[offset .. offset + |chunks[j]|] == chunks[j]
  {
    assert chunks == chunks[..j] + ([chunks[j]] + chunks[j + 1..]);
    ConcatAppend(chunks[..j], [chunks[j]] + chunks[j + 1..]);
    assert ([chunks[j]] + chunks[j + 1..])[1..] == chunks[j + 1..];
  }

  /** A further file part appends its own bytes after everything forwarded so
      far. */
  lemma ForwardedAppendPart(parts: seq<FilePart>, part: FilePart)
    ensures Forwarded(parts + [part]) == Forwarded(parts) + Concat(part.chunks)
  {
    assert (parts + [part])[..|parts|] == parts;
    ConcatAppend(AllChunks(parts), part.chunks);
  }

  /** The forwarded payload is the parts' own bytes joined in arrival order. */
  lemma {:induction false} ForwardedIsPartsInOrder(parts: seq<FilePart>)
    ensures Forwarded(parts) == Concat(PartBytes(parts))
  {
    if parts != [] {
      var init := parts[..|parts| - 1];
      var last := parts[|parts| - 1];
      assert parts == init + [last];
      ForwardedIsPartsInOrder(init);
      ForwardedAppendPart(init, last);
      PartBytesAppend(init, last);
      ConcatAppend(PartBytes(init), [Concat(last.chunks)]);
      assert Concat([Concat(last.chunks)]) == Concat(last.chunks) + Concat([]);
    }
  }

  lemma PartBytesAppend(parts: seq<FilePart>, part: FilePart)
    ensures PartBytes(parts + [part]) == PartBytes(parts) + [Concat(part.chunks)]
  {
  }
}
