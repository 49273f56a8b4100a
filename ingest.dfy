/**
 * The policy chunker: every `.txt` file of the policy directory is split into
 * its non-blank lines, each stripped of surrounding whitespace; each line
 * becomes one document whose metadata names the file it came from and whose
 * id is `id_<k>`, numbered consecutively across all files.
 */
module Ingest {
  import opened Text
  import Seqs

  /** A directory entry: the file name and the lines `readlines()` returns for it. */
  type Entry = (string, seq<string>)

  /** One chunk: its text and the file it came from. */
  datatype Chunk = Chunk(document: string, source: string)

  predicate IsTextFile(name: string) {
    EndsWith(name, ".txt")
  }

  /** The stripped, non-blank lines of a file, in file order. */
  function StrippedLines(lines: seq<string>): (r: seq<string>)
    ensures |r| <= |lines|
    ensures forall k :: 0 <= k < |r| ==> r[k] != [] && IsStripped(r[k])
  {
    if lines == [] then []
    else
      var rest := StrippedLines(lines[..|lines| - 1]);
      var l := lines[|lines| - 1];
      if Strip(l) != [] then rest + [Strip(l)] else rest
  }

  /** A line is kept exactly when it is not blank, and what is kept is the stripped line. */
  lemma {:induction false} StrippedLinesExact(lines: seq<string>)
    ensures forall l :: l in lines && !IsBlank(l) ==> Strip(l) in StrippedLines(lines)
    ensures forall k :: 0 <= k < |StrippedLines(lines)| ==>
      exists l :: l in lines && !IsBlank(l) && StrippedLines(lines)[k] == Strip(l)
  {
    if lines != [] {
      var init := lines[..|lines| - 1];
      var last := lines[|lines| - 1];
      var r := StrippedLines(lines);
      assert r == if Strip(last) != [] then StrippedLines(init) + [Strip(last)] else StrippedLines(init);
      StrippedLinesExact(init);
      assert forall m :: m in lines ==> m in init || m == last;
      forall k | 0 <= k < |StrippedLines(lines)|
        ensures exists l :: l in lines && !IsBlank(l) && StrippedLines(lines)[k] == Strip(l)
      {
        if k < |StrippedLines(init)| {
          var l :| l in init && !IsBlank(l) && StrippedLines(init)[k] == Strip(l);
          assert l in lines;
        } else {
          assert r[k] == Strip(last) && last in lines;
        }
      }
    } else {
      assert StrippedLines(lines) == [];
    }
  }

  /** The chunks one directory entry contributes: none unless its name ends in `.txt`. */
  function EntryChunks(entry: Entry): (r: seq<Chunk>)
    ensures !IsTextFile(entry.0) ==> r == []
    ensures forall k :: 0 <= k < |r| ==> r[k].source == entry.0
  {
    if IsTextFile(entry.0) then LineChunks(entry.0, StrippedLines(entry.1)) else []
  }

  /** One chunk per line, all from the same file. */
  function LineChunks(filename: string, lines: seq<string>): (r: seq<Chunk>)
    ensures |r| == |lines|
    ensures forall k :: 0 <= k < |lines| ==> r[k] == Chunk(lines[k], filename)
  {
    seq(|lines|, k requires 0 <= k < |lines| => Chunk(lines[k], filename))
  }

  /** Every chunk of a listing: files in listing order, lines in file order. */
  function Chunks(listing: seq<Entry>): (r: seq<Chunk>)
  {
    if listing == [] then []
    else Chunks(listing[..|listing| - 1]) + EntryChunks(listing[|listing| - 1])
  }

  function Documents(chunks: seq<Chunk>): (r: seq<string>)
    ensures |r| == |chunks|
    ensures forall k :: 0 <= k < |chunks| ==> r[k] == chunks[k].document
  {
    seq(|chunks|, k requires 0 <= k < |chunks| => chunks[k].document)
  }

  function SourceOf(chunk: Chunk): map<string, string> {
    map["source" := chunk.source]
  }

  function Metadatas(chunks: seq<Chunk>): (r: seq<map<string, string>>)
    ensures |r| == |chunks|
    ensures forall k :: 0 <= k < |chunks| ==> r[k] == SourceOf(chunks[k])
  {
    seq(|chunks|, k requires 0 <= k < |chunks| => SourceOf(chunks[k]))
  }

  function ChunkId(k: nat): string {
    "id_" + NatText(k)
  }

  /** The first `n` chunk ids. */
  function Ids(n: nat): (r: seq<string>)
    ensures |r| == n
    ensures forall k :: 0 <= k < n ==> r[k] == ChunkId(k)
  {
    seq(n, k requires 0 <= k < n => ChunkId(k))
  }

  /**
   * `ingest_directory`: the three lists handed to `collection.add`, built by
   * walking the listing and, for each text file, its stripped non-blank lines.
   */
  method IngestDirectory(listing: seq<Entry>)
    returns (documents: seq<string>, metadatas: seq<map<string, string>>, ids: seq<string>)
    ensures documents == Documents(Chunks(listing))
    ensures metadatas == Metadatas(Chunks(listing))
    ensures ids == Ids(|Chunks(listing)|)
  {
    documents, metadatas, ids := [], [], [];
    var chunkIdx: nat := 0;
    var f := 0;
    while f < |listing|
      invariant 0 <= f <= |listing|
      invariant chunkIdx == |Chunks(listing[..f])|
      invariant documents == Documents(Chunks(listing[..f]))
      invariant metadatas == Metadatas(Chunks(listing[..f]))
      invariant ids == Ids(chunkIdx)
    {
      var (filename, fileLines) := listing[f];
      ChunksStep(listing, f);
      if EndsWith(filename, ".txt") {
        var lines := StrippedLines(fileLines);
        documents, metadatas, ids, chunkIdx :=
          AddLines(filename, lines, documents, metadatas, ids, chunkIdx, Chunks(listing[..f]));
      } else {
        assert Chunks(listing[..f + 1]) == Chunks(listing[..f]);
      }
      f := f + 1;
    }
    assert listing[..f] == listing;
  }

  /**
   * The inner loop of `ingest_directory`: each line of one file is appended as
   * a document with that file as its source and the next id.
   */
  method AddLines(filename: string, lines: seq<string>,
                  documents: seq<string>, metadatas: seq<map<string, string>>, ids: seq<string>,
                  chunkIdx: nat, ghost done: seq<Chunk>)
    returns (documents': seq<string>, metadatas': seq<map<string, string>>, ids': seq<string>, chunkIdx': nat)
    requires chunkIdx == |done|
    requires documents == Documents(done) && metadatas == Metadatas(done) && ids == Ids(chunkIdx)
    ensures chunkIdx' == |done + LineChunks(filename, lines)|
    ensures documents' == Documents(done + LineChunks(filename, lines))
    ensures metadatas' == Metadatas(done + LineChunks(filename, lines))
    ensures ids' == Ids(chunkIdx')
  {
    documents', metadatas', ids', chunkIdx' := documents, metadatas, ids, chunkIdx;
    ghost var added := LineChunks(filename, lines);
    ghost var sofar := done;
    var j := 0;
    while j < |lines|
      invariant 0 <= j <= |lines|
      invariant sofar == done + added[..j]
      invariant chunkIdx' == |sofar|
      invariant documents' == Documents(sofar) && metadatas' == Metadatas(sofar) && ids' == Ids(chunkIdx')
    {
      AppendChunk(sofar, Chunk(lines[j], filename));
      NextId(chunkIdx');
      assert added[..j + 1] == added[..j] + [Chunk(lines[j], filename)];
      documents' := documents' + [lines[j]];
      metadatas' := metadatas' + [map["source" := filename]];
      ids' := ids' + ["id_" + NatText(chunkIdx')];
      chunkIdx' := chunkIdx' + 1;
      sofar := sofar + [Chunk(lines[j], filename)];
      j := j + 1;
    }
    assert added[..j] == added;
  }

  lemma ChunksStep(listing: seq<Entry>, f: nat)
    requires f < |listing|
    ensures Chunks(listing[..f + 1]) == Chunks(listing[..f]) + EntryChunks(listing[f])
  {
    assert listing[..f + 1][..f] == listing[..f];
  }

  /** Appending one chunk appends its document and its metadata. */
  lemma AppendChunk(done: seq<Chunk>, c: Chunk)
    ensures Documents(done + [c]) == Documents(done) + [c.document]
    ensures Metadatas(done + [c]) == Metadatas(done) + [map["source" := c.source]]
  {
    assert Documents(done + [c]) == Documents(done) + [c.document] by {
      assert forall k :: 0 <= k < |done| ==> (done + [c])[k] == done[k];
    }
    assert Metadatas(done + [c]) == Metadatas(done) + [map["source" := c.source]] by {
      assert forall k :: 0 <= k < |done| ==> (done + [c])[k] == done[k];
    }
  }

  /** The id after the first `n` is `id_<n>`. */
  lemma NextId(n: nat)
    ensures Ids(n + 1) == Ids(n) + ["id_" + NatText(n)]
  {
    assert Ids(n + 1) == Ids(n) + [ChunkId(n)];
  }


  /** Chunks of a concatenated listing: the first part's chunks, then the second's. */
  lemma {:induction false} ChunksAppend(a: seq<Entry>, b: seq<Entry>)
    ensures Chunks(a + b) == Chunks(a) + Chunks(b)
    decreases |b|
  {
    if b == [] {
      assert a + b == a;
    } else {
      var b' := b[..|b| - 1];
      var last := b[|b| - 1];
      assert Chunks(a + b) == Chunks(a + b') + EntryChunks(last) by {
        assert (a + b)[..|a + b| - 1] == a + b';
      }
      ChunksAppend(a, b');
    }
  }

  /** Only `.txt` files are read: dropping every other entry changes nothing. */
  lemma {:induction false} OnlyTextFiles(listing: seq<Entry>)
    ensures Chunks(listing) == Chunks(Seqs.Filter(listing, IsTextEntry()))
  {
    if listing != [] {
      var init := listing[..|listing| - 1];
      var last := listing[|listing| - 1];
      assert listing == init + [last];
      OnlyTextFiles(init);
      Seqs.FilterAppend(init, [last], IsTextEntry());
      ChunksAppend(Seqs.Filter(init, IsTextEntry()), Seqs.Filter([last], IsTextEntry()));
      if IsTextFile(last.0) {
        assert Seqs.Filter([last], IsTextEntry()) == [last];
        assert Chunks([last]) == [] + EntryChunks(last);
      } else {
        assert Seqs.Filter([last], IsTextEntry()) == [];
      }
    }
  }

  function IsTextEntry(): Entry -> bool {
    (entry: Entry) => IsTextFile(entry.0)
  }

  /**
   * Every chunk is a stripped, non-empty line of a `.txt` file of the listing,
   * and its source is that file's name.
   */
  lemma {:induction false} ChunksComeFromTextFiles(listing: seq<Entry>)
    ensures forall c :: c in Chunks(listing) ==>
      c.document != [] && IsStripped(c.document) && IsTextFile(c.source) &&
      exists entry :: entry in listing && entry.0 == c.source &&
        exists l :: l in entry.1 && c.document == Strip(l)
  {
    if listing != [] {
      var init := listing[..|listing| - 1];
      var last := listing[|listing| - 1];
      ChunksComeFromTextFiles(init);
      forall c | c in Chunks(listing)
        ensures c.document != [] && IsStripped(c.document) && IsTextFile(c.source) &&
          exists entry :: entry in listing && entry.0 == c.source &&
            exists l :: l in entry.1 && c.document == Strip(l)
      {
        if c in Chunks(init) {
          var entry :| entry in init && entry.0 == c.source &&
            exists l :: l in entry.1 && c.document == Strip(l);
          assert entry in listing;
        } else {
          assert c in EntryChunks(last);
          var lines := StrippedLines(last.1);
          var k :| 0 <= k < |lines| && c == Chunk(lines[k], last.0);
          StrippedLinesExact(last.1);
          var l :| l in last.1 && !IsBlank(l) && lines[k] == Strip(l);
          assert last in listing;
        }
      }
    }
  }

  /** Every non-blank line of every `.txt` file of the listing is ingested, stripped, under its file's name. */
  lemma {:induction false} EveryLineIngested(listing: seq<Entry>, f: nat, l: string)
    requires f < |listing| && IsTextFile(listing[f].0)
    requires l in listing[f].1 && !IsBlank(l)
    ensures Chunk(Strip(l), listing[f].0) in Chunks(listing)
  {
    var init := listing[..|listing| - 1];
    if f == |listing| - 1 {
      var entry := listing[f];
      var lines := StrippedLines(entry.1);
      StrippedLinesExact(entry.1);
      var k :| 0 <= k < |lines| && lines[k] == Strip(l);
      assert EntryChunks(entry)[k] == Chunk(Strip(l), entry.0);
      assert Chunks(listing) == Chunks(init) + EntryChunks(entry);
    } else {
      assert init[f] == listing[f];
      EveryLineIngested(init, f, l);
      assert Chunks(listing) == Chunks(init) + EntryChunks(listing[|listing| - 1]);
    }
  }

  /** Ids are `id_0`, `id_1`, … and therefore pairwise distinct. */
  lemma IdsUnique(n: nat)
    ensures Seqs.NoDuplicates(Ids(n))
  {
    var ids := Ids(n);
    forall i, j | 0 <= i < j < n ensures ids[i] != ids[j] {
      if ids[i] == ids[j] {
        assert NatText(i) == ids[i][3..];
        assert NatText(j) == ids[j][3..];
        NatTextInjective(i, j);
      }
    }
  }

  /** Number of lines that are not blank. */
  function NonBlankCount(lines: seq<string>): (n: nat)
    ensures n <= |lines|
  {
    if lines == [] then 0
    else (if IsBlank(lines[0]) then 0 else 1) + NonBlankCount(lines[1..])
  }

  /** Number of non-blank lines over the `.txt` files of a listing. */
  function TextLineCount(listing: seq<Entry>): nat {
    if listing == [] then 0
    else (if IsTextFile(listing[0].0) then NonBlankCount(listing[0].1) else 0) + TextLineCount(listing[1..])
  }

  lemma {:induction false} NonBlankCountAppend(lines: seq<string>, l: string)
    ensures NonBlankCount(lines + [l]) == NonBlankCount(lines) + (if IsBlank(l) then 0 else 1)
  {
    if lines != [] {
      assert (lines + [l])[1..] == lines[1..] + [l];
      NonBlankCountAppend(lines[1..], l);
    } else {
      assert [l][1..] == [];
    }
  }

  /** A file yields exactly one chunk per non-blank line. */
  lemma {:induction false} StrippedLinesCount(lines: seq<string>)
    ensures |StrippedLines(lines)| == NonBlankCount(lines)
  {
    if lines != [] {
      var init := lines[..|lines| - 1];
      StrippedLinesCount(init);
      assert lines == init + [lines[|lines| - 1]];
      NonBlankCountAppend(init, lines[|lines| - 1]);
    }
  }

  /**
   * `documents`, `metadatas` and `ids` all have one entry per non-blank line
   * of the listing's `.txt` files.
   */
  lemma {:induction false} ChunkCount(listing: seq<Entry>)
    ensures |Documents(Chunks(listing))| == |Metadatas(Chunks(listing))| == |Ids(|Chunks(listing)|)|
    ensures |Chunks(listing)| == TextLineCount(listing)
  {
    if listing != [] {
      ChunkCount(listing[1..]);
      assert listing == [listing[0]] + listing[1..];
      ChunksAppend([listing[0]], listing[1..]);
      assert Chunks([listing[0]]) == [] + EntryChunks(listing[0]);
      StrippedLinesCount(listing[0].1);
    }
  }
}
