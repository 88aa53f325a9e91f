/** The `repositories` file of a scratch image archive: one repository mapped
    to `{tag: layerID}` for every tag, written without any escaping
    (the repositories writer of `DockerScratchPushStep.Execute`). */
module RepositoriesIndex {
  import opened Wrappers

  const Quote: char := '"'

  /** A string that can stand between two quotes without escaping and be read
      back: it holds no quote. */
  predicate QuoteFree(s: string)
  {
    Quote !in s
  }

  /** `"tag":"layerID"`. */
  function IndexEntry(tag: string, layerID: string): string
  {
    "\"" + tag + "\":\"" + layerID + "\""
  }

  /** The entries for `tags`, separated by commas. */
  function JoinEntries(tags: seq<string>, layerID: string): string
  {
    if tags == [] then ""
    else if |tags| == 1 then IndexEntry(tags[0], layerID)
    else IndexEntry(tags[0], layerID) + "," + JoinEntries(tags[1..], layerID)
  }

  /** The whole index: `{"repository":{"t1":"L",...,"tn":"L"}}`. */
  function Index(repository: string, tags: seq<string>, layerID: string): string
  {
    "{\"" + repository + "\":{" + JoinEntries(tags, layerID) + "}}"
  }

  /** The writer: the opening, then each entry followed by a comma unless it
      is the last, then the closing braces. */
  method WriteRepositories(repository: string, tags: seq<string>, layerID: string) returns (file: string)
    ensures file == Index(repository, tags, layerID)
  {
    var head := "{\"" + repository + "\":{";
    file := head;
    for i := 0 to |tags|
      invariant file == head + JoinEntries(tags[..i], layerID) + Separator(i, |tags|)
    {
      WriteStep(head, tags, i, layerID);
      ghost var before := file;
      file := file + IndexEntry(tags[i], layerID);
      if i != |tags| - 1 {
        file := file + ",";
      }
      assert file == before + IndexEntry(tags[i], layerID) + Separator(i + 1, |tags|);
    }
    assert tags[..|tags|] == tags;
    file := file + "}}";
  }

  /** The comma written after the `i`-th of `n` entries, pending the next one. */
  function Separator(i: nat, n: nat): string
  {
    if 0 < i < n then "," else ""
  }

  /** One turn of the writer's loop keeps the invariant. */
  lemma WriteStep(head: string, tags: seq<string>, i: nat, layerID: string)
    requires i < |tags|
    ensures head + JoinEntries(tags[..i], layerID) + Separator(i, |tags|) + IndexEntry(tags[i], layerID) + Separator(i + 1, |tags|)
      == head + JoinEntries(tags[..i + 1], layerID) + Separator(i + 1, |tags|)
  {
    assert tags[..i + 1] == tags[..i] + [tags[i]];
    JoinEntriesSnoc(tags[..i], tags[i], layerID);
    if i == 0 {
      assert JoinEntries(tags[..i], layerID) == "";
    }
  }

  /** Appending a tag appends a comma and its entry (no comma before the first). */
  lemma {:induction false} JoinEntriesSnoc(tags: seq<string>, tag: string, layerID: string)
    ensures JoinEntries(tags + [tag], layerID)
      == if tags == [] then IndexEntry(tag, layerID) else JoinEntries(tags, layerID) + "," + IndexEntry(tag, layerID)
  {
    if |tags| == 1 {
      assert (tags + [tag])[1..] == [tag];
    } else if |tags| > 1 {
      assert (tags + [tag])[1..] == tags[1..] + [tag];
      JoinEntriesSnoc(tags[1..], tag, layerID);
    }
  }

  // ---------------------------------------------------------------------------
  // A reader for the index, the writer's partner.

  /** Split `s` at its first quote: the text before it and the text after it. */
  function SplitAtQuote(s: string): (r: Option<(string, string)>)
    ensures r.Some? ==> |r.value.1| < |s|
  {
    if s == [] then None
    else if s[0] == Quote then Some(([], s[1..]))
    else match SplitAtQuote(s[1..])
      case None => None
      case Some((before, after)) => Some(([s[0]] + before, after))
  }

  /** A quoted string at the head of `s`, and the rest. */
  function ParseQuoted(s: string): (r: Option<(string, string)>)
    ensures r.Some? ==> |r.value.1| < |s|
  {
    if s != [] && s[0] == Quote then SplitAtQuote(s[1..]) else None
  }

  /** One or more `"tag":"id"` pairs separated by commas, and the rest. */
  function ParseEntries(s: string): (r: Option<(seq<(string, string)>, string)>)
    ensures r.Some? ==> |r.value.1| < |s|
    decreases |s|
  {
    match ParseQuoted(s)
    case None => None
    case Some((tag, rest)) =>
      if !(":" <= rest) then None
      else match ParseQuoted(rest[1..])
        case None => None
        case Some((id, rest')) =>
          if "," <= rest' then
            match ParseEntries(rest'[1..])
            case None => None
            case Some((more, rest'')) => Some(([(tag, id)] + more, rest''))
          else Some(([(tag, id)], rest'))
  }

  /** The index read back: its repository and its (tag, id) pairs in order. */
  function ParseIndex(s: string): Option<(string, seq<(string, string)>)>
  {
    if !("{" <= s) then None
    else match ParseQuoted(s[1..])
      case None => None
      case Some((repository, rest)) =>
        if !(":{" <= rest) then None
        else if rest[2..] == "}}" then Some((repository, []))
        else match ParseEntries(rest[2..])
          case None => None
          case Some((entries, rest')) =>
            if rest' == "}}" then Some((repository, entries)) else None
  }

  /** Every tag paired with the same layer id, in order. */
  function Pairs(tags: seq<string>, layerID: string): (r: seq<(string, string)>)
    ensures |r| == |tags|
    ensures forall i | 0 <= i < |tags| :: r[i] == (tags[i], layerID)
  {
    if tags == [] then [] else [(tags[0], layerID)] + Pairs(tags[1..], layerID)
  }

  lemma {:induction false} SplitAtQuoteOf(x: string, rest: string)
    requires QuoteFree(x)
    ensures SplitAtQuote(x + [Quote] + rest) == Some((x, rest))
  {
    if x != [] {
      assert (x + [Quote] + rest)[1..] == x[1..] + [Quote] + rest;
      SplitAtQuoteOf(x[1..], rest);
      assert [x[0]] + x[1..] == x;
    }
  }

  lemma ParseQuotedOf(x: string, rest: string)
    requires QuoteFree(x)
    ensures ParseQuoted([Quote] + x + [Quote] + rest) == Some((x, rest))
  {
    assert ([Quote] + x + [Quote] + rest)[1..] == x + [Quote] + rest;
    SplitAtQuoteOf(x, rest);
  }

  /** An entry followed by `x`, cut where the reader cuts it. */
  lemma EntryShape(tag: string, layerID: string, x: string)
    ensures IndexEntry(tag, layerID) + x == [Quote] + tag + [Quote] + (":" + ([Quote] + layerID + [Quote] + x))
  {
  }

  /** The reader takes one entry off the front, then stops or goes on after a comma. */
  lemma ParseEntriesStep(tag: string, layerID: string, tail: string)
    requires QuoteFree(tag) && QuoteFree(layerID)
    ensures !("," <= tail) ==>
      ParseEntries(IndexEntry(tag, layerID) + tail) == Some(([(tag, layerID)], tail))
    ensures "," <= tail && ParseEntries(tail[1..]).Some? ==>
      ParseEntries(IndexEntry(tag, layerID) + tail)
        == Some(([(tag, layerID)] + ParseEntries(tail[1..]).value.0, ParseEntries(tail[1..]).value.1))
  {
    var value := [Quote] + layerID + [Quote] + tail;
    EntryShape(tag, layerID, tail);
    ParseQuotedOf(tag, ":" + value);
    assert (":" + value)[1..] == value;
    ParseQuotedOf(layerID, tail);
  }

  lemma {:induction false} ParseEntriesOf(tags: seq<string>, layerID: string, rest: string)
    requires tags != []
    requires forall i | 0 <= i < |tags| :: QuoteFree(tags[i])
    requires QuoteFree(layerID)
    requires !("," <= rest)
    ensures ParseEntries(JoinEntries(tags, layerID) + rest) == Some((Pairs(tags, layerID), rest))
  {
    if |tags| == 1 {
      assert ParseEntries(JoinEntries(tags, layerID) + rest) == Some(([(tags[0], layerID)], rest)) by {
        assert JoinEntries(tags, layerID) + rest == IndexEntry(tags[0], layerID) + rest;
        ParseEntriesStep(tags[0], layerID, rest);
      }
      assert Pairs(tags, layerID) == [(tags[0], layerID)];
    } else {
      var more := JoinEntries(tags[1..], layerID) + rest;
      var tail := "," + more;
      assert JoinEntries(tags, layerID) + rest == IndexEntry(tags[0], layerID) + tail by {
        assert JoinEntries(tags, layerID) == IndexEntry(tags[0], layerID) + "," + JoinEntries(tags[1..], layerID);
      }
      assert tail[1..] == more;
      assert ParseEntries(more) == Some((Pairs(tags[1..], layerID), rest)) by {
        ParseEntriesOf(tags[1..], layerID, rest);
      }
      ParseEntriesStep(tags[0], layerID, tail);
      assert Pairs(tags, layerID) == [(tags[0], layerID)] + Pairs(tags[1..], layerID);
    }
  }

  lemma IndexShape(repository: string, tags: seq<string>, layerID: string)
    ensures Index(repository, tags, layerID)
      == "{" + ([Quote] + repository + [Quote] + (":{" + (JoinEntries(tags, layerID) + "}}")))
  {
  }

  /** Reading the index back yields the repository and every tag mapped to the
      one layer id, in order, when none of them holds a quote. */
  lemma IndexRoundTrip(repository: string, tags: seq<string>, layerID: string)
    requires QuoteFree(repository) && QuoteFree(layerID)
    requires forall i | 0 <= i < |tags| :: QuoteFree(tags[i])
    ensures ParseIndex(Index(repository, tags, layerID)) == Some((repository, Pairs(tags, layerID)))
  {
    var body := JoinEntries(tags, layerID) + "}}";
    var s := Index(repository, tags, layerID);
    IndexShape(repository, tags, layerID);
    assert s[1..] == [Quote] + repository + [Quote] + (":{" + body);
    ParseQuotedOf(repository, ":{" + body);
    assert ParseQuoted(s[1..]) == Some((repository, ":{" + body));
    assert (":{" + body)[2..] == body;
    if tags == [] {
      assert body == "}}";
    } else {
      assert "}}"[0] != ',';
      ParseEntriesOf(tags, layerID, "}}");
      assert body != "}}" by {
        assert body[0] == Quote;
      }
    }
  }
}
