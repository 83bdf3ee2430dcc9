/**
 * The result assembly of `search_web` in app.py. The HTTP request and the
 * HTML parse are not modelled: their outcome is the input, either the
 * exception they raised or the status code with the result blocks found in
 * the page, each with its title link and snippet link text if present.
 */
module Search {
  import opened Wrappers
  import opened Text

  /** One `div.result__body`: the stripped text of its title and snippet links, if found. */
  datatype Block = Block(title: Option<string>, snippet: Option<string>)

  /** What the request and the parse produced. */
  datatype FetchOutcome =
    | Response(status: int, blocks: seq<Block>)
    | Raised(error: string)

  /** `find_all(..., limit=3)`: at most this many result blocks are read. */
  const ResultLimit: nat := 3

  const Blocked: string := "Search Blocked."
  const NoResults: string := "No results."

  predicate Complete(b: Block) {
    b.title.Some? && b.snippet.Some?
  }

  /** The text one complete block contributes: the title after `SOURCE: `, then the snippet after `FACT: ` on the next line. */
  function Entry(title: string, snippet: string): (r: string)
    ensures |r| == |"SOURCE: "| + |title| + |"\nFACT: "| + |snippet|
    ensures r[..8] == "SOURCE: " && r[8..8 + |title|] == title
    ensures r[8 + |title|..15 + |title|] == "\nFACT: " && r[15 + |title|..] == snippet
  {
    "SOURCE: " + title + "\nFACT: " + snippet
  }

  /** What one block adds to `results`: its entry when complete, nothing otherwise. */
  function Contribution(b: Block): (r: seq<string>)
    ensures |r| <= 1 && (r != [] <==> Complete(b))
    ensures Complete(b) ==> r[0] == Entry(b.title.value, b.snippet.value)
  {
    if Complete(b) then [Entry(b.title.value, b.snippet.value)] else []
  }

  /**
   * The entries of the complete blocks, in block order; incomplete blocks are
   * skipped. Each block gives at most one entry, and every entry is a
   * `SOURCE:` entry.
   */
  function Collect(blocks: seq<Block>): (r: seq<string>)
    ensures |r| <= |blocks|
    ensures forall i :: 0 <= i < |r| ==> "SOURCE: " <= r[i]
  {
    if blocks == [] then [] else Contribution(blocks[0]) + Collect(blocks[1..])
  }

  /** The blocks `find_all` hands to the loop. */
  function Scanned(blocks: seq<Block>): (r: seq<Block>)
    ensures r <= blocks
    ensures |r| == if |blocks| < ResultLimit then |blocks| else ResultLimit
  {
    if |blocks| <= ResultLimit then blocks else blocks[..ResultLimit]
  }

  /** The text `search_web` returns for a given fetch outcome; it is never empty. */
  function SearchText(outcome: FetchOutcome): (r: string)
    ensures r != ""
  {
    match outcome
    case Raised(e) => "Error: " + e
    case Response(status, blocks) =>
      if status != 200 then Blocked
      else
        var results := Collect(Scanned(blocks));
        if results != [] then Join("\n\n", results) else NoResults
  }

  /** `search_web(query)` once the request has produced `outcome`. */
  method SearchWeb(outcome: FetchOutcome) returns (text: string)
    ensures text == SearchText(outcome)
  {
    match outcome
    case Raised(e) =>
      text := "Error: " + e;
    case Response(status, blocks) =>
      if status != 200 {
        return Blocked;
      }
      var results := CollectResults(blocks);
      text := if results != [] then Join("\n\n", results) else NoResults;
  }

  /** The loop of `search_web`: the entries of the complete blocks among the first three. */
  method CollectResults(blocks: seq<Block>) returns (results: seq<string>)
    ensures results == Collect(Scanned(blocks))
  {
    results := [];
    var i := 0;
    while i < |blocks| && i < ResultLimit
      invariant 0 <= i <= |blocks| && i <= ResultLimit
      invariant results == Collect(blocks[..i])
    {
      var b := blocks[i];
      CollectStep(blocks, i);
      if b.title.Some? && b.snippet.Some? {
        results := results + [Entry(b.title.value, b.snippet.value)];
      }
      i := i + 1;
    }
    assert blocks[..i] == Scanned(blocks);
  }

  /** One more block adds its contribution at the end. */
  lemma CollectStep(blocks: seq<Block>, i: nat)
    requires i < |blocks|
    ensures Collect(blocks[..i + 1]) == Collect(blocks[..i]) + Contribution(blocks[i])
  {
    assert blocks[..i + 1] == blocks[..i] + [blocks[i]];
    CollectAppend(blocks[..i], [blocks[i]]);
    CollectSingle(blocks[i]);
  }

  /** Collecting distributes over concatenation of the block list. */
  lemma {:induction false} CollectAppend(a: seq<Block>, b: seq<Block>)
    ensures Collect(a + b) == Collect(a) + Collect(b)
  {
    if a == [] {
      assert a + b == b;
    } else {
      var ab := a + b;
      assert ab[0] == a[0] && ab[1..] == a[1..] + b;
      CollectAppend(a[1..], b);
      assert Collect(ab) == Contribution(a[0]) + Collect(a[1..] + b);
    }
  }

  lemma CollectSingle(b: Block)
    ensures Collect([b]) == Contribution(b)
  {
    assert [b][1..] == [];
  }

  /** A block lacking its title or its snippet contributes nothing, wherever it stands. */
  lemma IncompleteBlockSkipped(before: seq<Block>, b: Block, after: seq<Block>)
    requires !Complete(b)
    ensures Collect(before + [b] + after) == Collect(before + after)
  {
    CollectAppend(before + [b], after);
    CollectAppend(before, [b]);
    CollectAppend(before, after);
    CollectSingle(b);
    var c := Collect(before);
    assert c + [] == c;
  }

  /** A complete block contributes exactly its `SOURCE:`/`FACT:` entry, in place. */
  lemma CompleteBlockKept(before: seq<Block>, b: Block, after: seq<Block>)
    requires Complete(b)
    ensures Collect(before + [b] + after)
         == Collect(before) + [Entry(b.title.value, b.snippet.value)] + Collect(after)
  {
    CollectAppend(before + [b], after);
    CollectAppend(before, [b]);
    CollectSingle(b);
  }

  /** At most three entries make it into the result, and only from the first three blocks. */
  lemma OnlyFirstBlocksRead(first: seq<Block>, rest: seq<Block>, status: int)
    requires |first| >= ResultLimit
    ensures |Collect(Scanned(first + rest))| <= ResultLimit
    ensures SearchText(Response(status, first + rest)) == SearchText(Response(status, first))
  {
    assert Scanned(first + rest) == Scanned(first);
  }

  /**
   * The outcomes are told apart by the text: it starts with `SOURCE: ` exactly
   * when the status was 200 and one of the first three blocks was complete;
   * otherwise it is one of the fixed messages or the exception text.
   */
  lemma SearchTextKinds(outcome: FetchOutcome)
    ensures "SOURCE: " <= SearchText(outcome)
        <==> outcome.Response? && outcome.status == 200 && Collect(Scanned(outcome.blocks)) != []
    ensures outcome.Raised? ==> SearchText(outcome) == "Error: " + outcome.error
    ensures outcome.Response? && outcome.status != 200 ==> SearchText(outcome) == Blocked
    ensures outcome.Response? && outcome.status == 200 && Collect(Scanned(outcome.blocks)) == []
        ==> SearchText(outcome) == NoResults
    ensures outcome.Response? && outcome.status == 200 && Collect(Scanned(outcome.blocks)) != []
        ==> SearchText(outcome) == Join("\n\n", Collect(Scanned(outcome.blocks)))
  {
    match outcome
    case Raised(e) =>
      assert SearchText(outcome)[0] == 'E';
    case Response(status, blocks) =>
      var results := Collect(Scanned(blocks));
      if status == 200 && results != [] {
        assert "SOURCE: " <= results[0] <= Join("\n\n", results);
      } else if status != 200 {
        assert Blocked[1] != "SOURCE: "[1];
      } else {
        assert NoResults[0] != "SOURCE: "[0];
      }
  }
}
