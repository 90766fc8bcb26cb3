/** The result formatting inside `SearchTools.search_internet` and
    `SearchTools.search_news`: the Serper request itself is outside the model,
    and its decoded JSON body (or the exception that prevented it) is an input. */
module SearchTools {
  import opened Text

  /** `top_result_to_return`: only this many results are looked at. */
  const TopResultsToReturn: nat := 4
  const SearchErrorPrefix: string := "An error occurred during the search: "
  const Dashes: string := "-----------------"
  /** The last part of every block: a newline, then the dashes. */
  const Rule: string := "\n" + Dashes

  /** One element of the decoded result list: a JSON object with string
      values, or any other JSON value, which Python cannot index with a
      string key (the message of the `TypeError` that raises). */
  datatype Entry = Record(fields: map<string, string>) | NonRecord(typeError: string)

  /** The decoded body of the reply, or the message of the exception raised
      before it was available (no `SERPER_API_KEY`, the request failed, the
      body was not JSON). */
  datatype Response = Decoded(body: map<string, seq<Entry>>) | RequestFailed(message: string)

  /** What a rendered block says, read back from the text. */
  datatype Hit = Hit(title: string, link: string, snippet: string)

  /** The entry has all three keys the block needs; any other entry that is
      an object raises `KeyError`, which the loop swallows. */
  predicate Usable(e: Entry)
  {
    e.Record? && "title" in e.fields && "link" in e.fields && "snippet" in e.fields
  }

  function Block(title: string, link: string, snippet: string): string
  {
    Join(["Title: " + title, "Link: " + link, "Snippet: " + snippet, Rule])
  }

  function BlockOf(e: Entry): string
    requires Usable(e)
  {
    Block(e.fields["title"], e.fields["link"], e.fields["snippet"])
  }

  function HitOf(e: Entry): Hit
    requires Usable(e)
  {
    Hit(e.fields["title"], e.fields["link"], e.fields["snippet"])
  }

  /** The blocks of the usable entries, in their order. */
  function Blocks(entries: seq<Entry>): seq<string>
  {
    if |entries| == 0 then []
    else (if Usable(entries[0]) then [BlockOf(entries[0])] else []) + Blocks(entries[1..])
  }

  function Hits(entries: seq<Entry>): seq<Hit>
  {
    if |entries| == 0 then []
    else (if Usable(entries[0]) then [HitOf(entries[0])] else []) + Hits(entries[1..])
  }

  /** The message of the first entry that is not an object, if any. */
  function FirstTypeError(entries: seq<Entry>): Option<string>
  {
    if |entries| == 0 then None
    else if entries[0].NonRecord? then Some(entries[0].typeError)
    else FirstTypeError(entries[1..])
  }

  /** `results[:top_result_to_return]`. */
  function Top(results: seq<Entry>): seq<Entry>
  {
    results[..if |results| < TopResultsToReturn then |results| else TopResultsToReturn]
  }

  /** The reply for a result list: an entry that is not an object aborts the
      whole loop, otherwise the blocks are joined with newlines. */
  function ListReply(results: seq<Entry>): string
  {
    match FirstTypeError(Top(results))
    case Some(m) => SearchErrorPrefix + m
    case None => Join(Blocks(Top(results)))
  }

  /** The tool's reply, given the list key (`organic` or `news`). A missing
      key raises `KeyError`, whose text is the key in quotes. */
  function SearchReply(response: Response, listKey: string): string
  {
    match response
    case RequestFailed(m) => SearchErrorPrefix + m
    case Decoded(body) =>
      if listKey in body then ListReply(body[listKey])
      else SearchErrorPrefix + "'" + listKey + "'"
  }

  /** The shared body of both tools: the `try` block and its fallback. */
  method Search(response: Response, listKey: string) returns (reply: string)
    ensures reply == SearchReply(response, listKey)
  {
    if response.RequestFailed? {
      return SearchErrorPrefix + response.message;
    }
    if listKey !in response.body {
      return SearchErrorPrefix + "'" + listKey + "'";
    }
    var results := response.body[listKey];
    var top := results[..if |results| < TopResultsToReturn then |results| else TopResultsToReturn];
    var blocks: seq<string> := [];
    var i := 0;
    while i < |top|
      invariant 0 <= i <= |top|
      invariant FirstTypeError(top[..i]) == None
      invariant blocks == Blocks(top[..i])
    {
      var e := top[i];
      assert top[..i + 1] == top[..i] + [e];
      FirstTypeErrorConcat(top[..i], [e]);
      BlocksConcat(top[..i], [e]);
      if e.NonRecord? {
        assert top == top[..i + 1] + top[i + 1..];
        FirstTypeErrorConcat(top[..i + 1], top[i + 1..]);
        return SearchErrorPrefix + e.typeError;
      }
      if "title" in e.fields && "link" in e.fields && "snippet" in e.fields {
        blocks := blocks + [Join(["Title: " + e.fields["title"], "Link: " + e.fields["link"],
                                  "Snippet: " + e.fields["snippet"], Rule])];
      }
      i := i + 1;
    }
    assert top[..i] == top;
    reply := Join(blocks);
  }

  /** `search_internet`: reads the `organic` list. */
  method SearchInternet(response: Response) returns (reply: string)
    ensures reply == SearchReply(response, "organic")
  {
    reply := Search(response, "organic");
  }

  /** `search_news`: the same, reading the `news` list. */
  method SearchNews(response: Response) returns (reply: string)
    ensures reply == SearchReply(response, "news")
  {
    reply := Search(response, "news");
  }

  // ----- properties of the reply -----

  lemma {:induction false} FirstTypeErrorConcat(a: seq<Entry>, b: seq<Entry>)
    ensures FirstTypeError(a + b) == if FirstTypeError(a).Some? then FirstTypeError(a) else FirstTypeError(b)
  {
    if |a| == 0 {
      assert a + b == b;
    } else {
      assert (a + b)[0] == a[0];
      assert (a + b)[1..] == a[1..] + b;
      FirstTypeErrorConcat(a[1..], b);
    }
  }

  /** Blocks keep the order of their entries. */
  lemma {:induction false} BlocksConcat(a: seq<Entry>, b: seq<Entry>)
    ensures Blocks(a + b) == Blocks(a) + Blocks(b)
  {
    if |a| == 0 {
      assert a + b == b;
    } else {
      assert (a + b)[0] == a[0];
      assert (a + b)[1..] == a[1..] + b;
      BlocksConcat(a[1..], b);
    }
  }

  /** An entry lacking a title, link or snippet contributes nothing, and the
      entries after it are still rendered. */
  lemma SkippedEntryContributesNothing(a: seq<Entry>, e: Entry, b: seq<Entry>)
    requires !Usable(e)
    ensures Blocks(a + [e] + b) == Blocks(a + b)
  {
    BlocksConcat(a + [e], b);
    BlocksConcat(a, [e]);
    BlocksConcat(a, b);
    assert Blocks([e]) == [] by {
      assert [e][1..] == [];
    }
  }

  /** Every block is the block of some entry: the witness. */
  lemma {:induction false} BlockSource(entries: seq<Entry>, k: nat) returns (j: nat)
    requires k < |Blocks(entries)|
    ensures j < |entries| && Usable(entries[j]) && Blocks(entries)[k] == BlockOf(entries[j])
  {
    var head := if Usable(entries[0]) then [BlockOf(entries[0])] else [];
    assert Blocks(entries) == head + Blocks(entries[1..]);
    if k < |head| {
      j := 0;
    } else {
      var i := BlockSource(entries[1..], k - |head|);
      j := i + 1;
    }
  }

  /** There are never more blocks than entries. */
  lemma {:induction false} BlocksAtMostEntries(entries: seq<Entry>)
    ensures |Blocks(entries)| <= |entries|
  {
    if |entries| > 0 {
      BlocksAtMostEntries(entries[1..]);
    }
  }

  /** Only the first four results are looked at: whatever follows them never
      changes the reply, even when some of the four are skipped. */
  lemma OnlyTopFourMatter(results: seq<Entry>, later: seq<Entry>)
    requires |results| >= TopResultsToReturn
    ensures ListReply(results + later) == ListReply(results)
  {
    assert Top(results + later) == Top(results);
  }

  /** A reply without an error holds at most four blocks. */
  lemma AtMostFourBlocks(results: seq<Entry>)
    ensures |Blocks(Top(results))| <= TopResultsToReturn
  {
    BlocksAtMostEntries(Top(results));
  }

  /** Each block of a reply is rendered from one of the first four results. */
  lemma TopBlockSource(results: seq<Entry>, k: nat) returns (j: nat)
    requires k < |Blocks(Top(results))|
    ensures j < |results| && j < TopResultsToReturn && Usable(results[j])
    ensures Blocks(Top(results))[k] == BlockOf(results[j])
  {
    j := BlockSource(Top(results), k);
    assert Top(results)[j] == results[j];
  }

  /** Each block is exactly the three labelled lines, an empty line and the rule. */
  lemma BlockLines(title: string, link: string, snippet: string)
    requires NoNewline(title) && NoNewline(link) && NoNewline(snippet)
    ensures Lines(Block(title, link, snippet)) ==
              ["Title: " + title, "Link: " + link, "Snippet: " + snippet, "", Dashes]
  {
    NoNewlineConcat("Title: ", title);
    NoNewlineConcat("Link: ", link);
    NoNewlineConcat("Snippet: ", snippet);
    assert NoNewline(Dashes);
    LinesOfBlockParts("Title: " + title, "Link: " + link, "Snippet: " + snippet, Dashes);
  }

  lemma LinesOfBlockParts(t: string, l: string, s: string, d: string)
    requires NoNewline(t) && NoNewline(l) && NoNewline(s) && NoNewline(d)
    ensures Lines(Join([t, l, s, "\n" + d])) == [t, l, s, "", d]
  {
    LinesOfFour(t, l, s, "\n" + d);
    LinesOfOneLine(t);
    LinesOfOneLine(l);
    LinesOfOneLine(s);
    assert "\n" + d == "" + "\n" + d;
    LinesOfSeparated("", d);
    LinesOfOneLine(d);
  }

  /** The reply is empty exactly when no result is both well-formed and
      complete among the first four. */
  lemma EmptyReply(results: seq<Entry>)
    ensures ListReply(results) == "" <==>
              FirstTypeError(Top(results)) == None && Blocks(Top(results)) == []
  {
    var blocks := Blocks(Top(results));
    if FirstTypeError(Top(results)) == None && blocks != [] {
      var j := BlockSource(Top(results), 0);
      var e := Top(results)[j];
      JoinStartsWithFirst(["Title: " + e.fields["title"], "Link: " + e.fields["link"],
                           "Snippet: " + e.fields["snippet"], Rule]);
      JoinStartsWithFirst(blocks);
    }
  }

  lemma JoinStartsWithFirst(parts: seq<string>)
    requires |parts| >= 1
    ensures |Join(parts)| >= |parts[0]| && Join(parts)[..|parts[0]|] == parts[0]
  {
  }

  // ----- reading a reply back -----

  /** Reads consecutive five-line blocks back into hits. */
  function ParseBlockLines(lines: seq<string>): Option<seq<Hit>>
  {
    if |lines| == 0 then Some([])
    else if |lines| < 5 then None
    else if HasPrefix("Title: ", lines[0]) && HasPrefix("Link: ", lines[1]) &&
            HasPrefix("Snippet: ", lines[2]) && lines[3] == "" && lines[4] == Dashes then
      match ParseBlockLines(lines[5..])
      case None => None
      case Some(rest) => Some([Hit(lines[0][7..], lines[1][6..], lines[2][9..])] + rest)
    else None
  }

  /** Reads a successful reply back into the hits it lists. */
  function ParseReply(text: string): Option<seq<Hit>>
  {
    if text == "" then Some([]) else ParseBlockLines(Lines(text))
  }

  predicate OneLineFields(e: Entry)
  {
    Usable(e) ==> NoNewline(e.fields["title"]) && NoNewline(e.fields["link"]) && NoNewline(e.fields["snippet"])
  }

  lemma {:induction false} ParseBlocksOfEntries(entries: seq<Entry>)
    requires forall j :: 0 <= j < |entries| ==> OneLineFields(entries[j])
    ensures ParseBlockLines(LinesOfEach(Blocks(entries))) == Some(Hits(entries))
  {
    if |entries| > 0 {
      var e := entries[0];
      ParseBlocksOfEntries(entries[1..]);
      var rest := LinesOfEach(Blocks(entries[1..]));
      if Usable(e) {
        assert OneLineFields(e);
        BlockLines(e.fields["title"], e.fields["link"], e.fields["snippet"]);
        var five := ["Title: " + e.fields["title"], "Link: " + e.fields["link"],
                     "Snippet: " + e.fields["snippet"], "", Dashes];
        assert Blocks(entries) == [BlockOf(e)] + Blocks(entries[1..]);
        assert LinesOfEach(Blocks(entries)) == five + rest by {
          assert ([BlockOf(e)] + Blocks(entries[1..]))[1..] == Blocks(entries[1..]);
        }
        var lines := five + rest;
        assert lines[5..] == rest;
        assert lines[0][7..] == e.fields["title"];
        assert lines[1][6..] == e.fields["link"];
        assert lines[2][9..] == e.fields["snippet"];
      } else {
        assert Blocks(entries) == Blocks(entries[1..]);
        assert Hits(entries) == Hits(entries[1..]);
      }
    }
  }

  lemma {:induction false} HitsEmptyWithBlocks(entries: seq<Entry>)
    ensures Blocks(entries) == [] <==> Hits(entries) == []
  {
    if |entries| > 0 {
      HitsEmptyWithBlocks(entries[1..]);
    }
  }

  /** Reading a successful reply back gives exactly the title, link and
      snippet of each usable entry among the first four, in order. */
  lemma ReplyRoundTrip(results: seq<Entry>)
    requires FirstTypeError(Top(results)) == None
    requires forall j :: 0 <= j < |Top(results)| ==> OneLineFields(Top(results)[j])
    ensures ParseReply(ListReply(results)) == Some(Hits(Top(results)))
  {
    var top := Top(results);
    var blocks := Blocks(top);
    HitsEmptyWithBlocks(top);
    EmptyReply(results);
    if blocks != [] {
      LinesOfJoin(blocks);
      ParseBlocksOfEntries(top);
    }
  }

  /** A body without the list a tool reads is answered with the error text
      naming that key, whatever else the body holds. */
  lemma MissingListReply(body: map<string, seq<Entry>>, listKey: string)
    requires listKey !in body
    ensures SearchReply(Decoded(body), listKey) == SearchErrorPrefix + "'" + listKey + "'"
    ensures SearchReply(Decoded(body), listKey) == "An error occurred during the search: '" + listKey + "'"
  {
  }
}
