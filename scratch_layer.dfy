/** The entry filter that turns a collected artifact tarball into the single
    layer of a scratch image (the tar loop of `DockerScratchPushStep.Execute`).
    Tar headers other than the name are carried as an opaque `H`. */
module ScratchLayer {
  import opened Wrappers

  const RootEntry: string := "./"
  const OutputRoot: string := "output/"
  const SourceRoot: string := "source/"

  datatype TarEntry<H> = TarEntry(name: string, header: H, body: seq<bv8>)

  /** What the tar reader yields: an entry with its body, or an error from
      reading the next header or copying the body. */
  datatype TarRead<H> = Entry(entry: TarEntry<H>) | ReadError(message: string)

  /** Strip one synthetic root: `output/` first, otherwise `source/`. */
  function StripRoot(name: string): (r: string)
  {
    if OutputRoot <= name then name[|OutputRoot|..]
    else if SourceRoot <= name then name[|SourceRoot|..]
    else name
  }

  /** The name an entry gets in the layer, or `None` when it is skipped. */
  function LayerName(name: string): (r: Option<string>)
    ensures r.Some? ==> r.value != ""
  {
    if name == RootEntry then None
    else
      var stripped := StripRoot(name);
      if |stripped| == 0 then None else Some(stripped)
  }

  /** The entry as written to the layer, if it is written at all. */
  function Emit<H>(e: TarEntry<H>): seq<TarEntry<H>>
  {
    match LayerName(e.name)
    case None => []
    case Some(n) => [e.(name := n)]
  }

  /** The layer's entries for a tarball read without error. */
  function LayerEntries<H>(entries: seq<TarEntry<H>>): seq<TarEntry<H>>
  {
    if entries == [] then [] else Emit(entries[0]) + LayerEntries(entries[1..])
  }

  /** The whole loop on a tar stream: the first read error aborts the step. */
  function CopyLayerSpec<H>(stream: seq<TarRead<H>>): Result<seq<TarEntry<H>>>
  {
    if stream == [] then Success([])
    else match stream[0]
      case ReadError(m) => Failure(m)
      case Entry(e) =>
        match CopyLayerSpec(stream[1..])
        case Failure(m) => Failure(m)
        case Success(rest) => Success(Emit(e) + rest)
  }

  /** The tar loop: read entry by entry, skip or rename, write what remains. */
  method CopyLayer<H>(stream: seq<TarRead<H>>) returns (r: Result<seq<TarEntry<H>>>)
    ensures r == CopyLayerSpec(stream)
  {
    var written: seq<TarEntry<H>> := [];
    var i := 0;
    assert stream[i..] == stream;
    assert CopyLayerSpec(stream).Success? ==> written + CopyLayerSpec(stream).value == CopyLayerSpec(stream).value;
    while i < |stream|
      invariant 0 <= i <= |stream|
      invariant CopyLayerSpec(stream) == Prepend(written, CopyLayerSpec(stream[i..]))
    {
      assert stream[i..][1..] == stream[i + 1..];
      match stream[i]
      case ReadError(m) =>
        return Failure(m);
      case Entry(hdr) =>
        assert CopyLayerSpec(stream[i..]) == Prepend(Emit(hdr), CopyLayerSpec(stream[i + 1..]));
        PrependTwice(written, Emit(hdr), CopyLayerSpec(stream[i + 1..]));
        assert written + [] == written;
        i := i + 1;
        if hdr.name == RootEntry {
          continue;
        }
        var name := hdr.name;
        if OutputRoot <= name {
          name := name[|OutputRoot|..];
        } else if SourceRoot <= name {
          name := name[|SourceRoot|..];
        }
        if |name| == 0 {
          continue;
        }
        written := written + [hdr.(name := name)];
    }
    assert stream[i..] == [];
    assert written + [] == written;
    return Success(written);
  }

  /** `Success(prefix + rest)` for a successful tail, the tail's failure otherwise. */
  function Prepend<H>(prefix: seq<TarEntry<H>>, tail: Result<seq<TarEntry<H>>>): Result<seq<TarEntry<H>>>
  {
    match tail
    case Failure(m) => Failure(m)
    case Success(rest) => Success(prefix + rest)
  }

  lemma PrependTwice<H>(a: seq<TarEntry<H>>, b: seq<TarEntry<H>>, tail: Result<seq<TarEntry<H>>>)
    ensures Prepend(a, Prepend(b, tail)) == Prepend(a + b, tail)
  {
    if tail.Success? {
      assert a + (b + tail.value) == (a + b) + tail.value;
    }
  }

  // ---------------------------------------------------------------------------
  // Properties of the filter.

  /** Exactly four names are skipped: the root marker, the empty name, and the
      two bare synthetic roots. */
  lemma SkippedNames(name: string)
    ensures LayerName(name).None? <==> name in {RootEntry, "", OutputRoot, SourceRoot}
  {
    if name == OutputRoot {
      assert StripRoot(name) == [];
    } else if name == SourceRoot {
      assert !(OutputRoot <= name);
      assert StripRoot(name) == [];
    } else if name != RootEntry && name != "" {
      if OutputRoot <= name {
        assert name != name[..|OutputRoot|];
      } else if SourceRoot <= name {
        assert name != name[..|SourceRoot|];
      }
    }
  }

  /** A kept name loses at most one synthetic root, `output/` taking precedence. */
  lemma KeptNameStripsOneRoot(name: string)
    requires LayerName(name).Some?
    ensures var n := LayerName(name).value;
      || (name == OutputRoot + n)
      || (!(OutputRoot <= name) && name == SourceRoot + n)
      || (!(OutputRoot <= name) && !(SourceRoot <= name) && name == n)
  {
    var n := LayerName(name).value;
    if OutputRoot <= name {
      assert name == name[..|OutputRoot|] + name[|OutputRoot|..];
    } else if SourceRoot <= name {
      assert name == name[..|SourceRoot|] + name[|SourceRoot|..];
    }
  }

  /** The filter works entry by entry: a tarball split in two is filtered as
      its two halves, in order. */
  lemma {:induction false} LayerEntriesAppend<H>(a: seq<TarEntry<H>>, b: seq<TarEntry<H>>)
    ensures LayerEntries(a + b) == LayerEntries(a) + LayerEntries(b)
  {
    if a == [] {
      assert a + b == b;
    } else {
      assert (a + b)[0] == a[0];
      assert (a + b)[1..] == a[1..] + b;
      LayerEntriesAppend(a[1..], b);
    }
  }

  /** Every layer entry is an input entry with header and body unchanged and its
      name replaced by the kept name. */
  lemma {:induction false} LayerEntryOrigin<H>(entries: seq<TarEntry<H>>, x: TarEntry<H>)
    requires x in LayerEntries(entries)
    ensures exists e | e in entries :: LayerName(e.name) == Some(x.name) && x == e.(name := x.name)
  {
    var e := entries[0];
    if x in Emit(e) {
      assert e in entries;
    } else {
      LayerEntryOrigin(entries[1..], x);
      var e' :| e' in entries[1..] && LayerName(e'.name) == Some(x.name) && x == e'.(name := x.name);
      assert e' in entries;
    }
  }

  /** Every input entry that has a kept name appears in the layer under it. */
  lemma {:induction false} KeptEntryAppears<H>(entries: seq<TarEntry<H>>, e: TarEntry<H>)
    requires e in entries && LayerName(e.name).Some?
    ensures e.(name := LayerName(e.name).value) in LayerEntries(entries)
  {
    if entries[0] != e {
      KeptEntryAppears(entries[1..], e);
    }
  }

  /** Without read errors the loop succeeds with the filtered entries; with one,
      it fails with the first error's message. */
  lemma {:induction false} CopyLayerOutcome<H>(stream: seq<TarRead<H>>)
    ensures CopyLayerSpec(stream).Failure? <==> exists i | 0 <= i < |stream| :: stream[i].ReadError?
    ensures CopyLayerSpec(stream).Failure? ==>
      CopyLayerSpec(stream).error == stream[FirstIndex(stream, IsReadError).value].message
    ensures CopyLayerSpec(stream).Success? ==> CopyLayerSpec(stream).value == LayerEntries(EntriesOf(stream))
  {
    if stream != [] {
      CopyLayerOutcome(stream[1..]);
      if stream[0].Entry? {
        assert forall i | 0 <= i < |stream[1..]| :: stream[1..][i] == stream[i + 1];
      }
    }
  }

  predicate IsReadError<H>(r: TarRead<H>)
  {
    r.ReadError?
  }

  /** The entries of a tar stream, read errors left out. */
  function EntriesOf<H>(stream: seq<TarRead<H>>): seq<TarEntry<H>>
  {
    if stream == [] then []
    else (if stream[0].Entry? then [stream[0].entry] else []) + EntriesOf(stream[1..])
  }
}
