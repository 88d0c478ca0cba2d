/** The token table of modules/mcp-tool-state/module.c as a function of a derivation. */
module TokenTable {
  import opened JsonGrammar

  /** `end` is the byte after the token's text, `next` the token after its subtree. */
  datatype Token = Token(start: nat, end: nat, next: nat, kind: char)

  function Kind(text: Bytes): char { if text == [] then ' ' else text[0] }

  /** The tokens of a value whose text starts at byte p and whose first token is t:
      the values and keys of its derivation in preorder. */
  function Layout(n: Node, p: nat, t: nat): (r: seq<Token>)
    ensures |r| == Size(n)
    decreases n, 1
  {
    match n
    case Scalar(text) => [Token(p, p + |text|, t + 1, Kind(text))]
    case Container(open, _, entries) =>
      [Token(p, p + |Text(n)|, t + Size(n), open)] + EntriesLayout(open, entries, p + 1, t + 1)
  }

  function EntriesLayout(open: char, entries: seq<Entry>, p: nat, t: nat): (r: seq<Token>)
    ensures |r| == EntriesSize(open, entries)
    decreases entries, 0
  {
    if entries == [] then []
    else
      var init, e := entries[..|entries| - 1], entries[|entries| - 1];
      EntriesLayout(open, init, p, t) + EntryLayout(open, e, p + |Commas(open, init)|, t + EntriesSize(open, init))
  }

  function EntryLayout(open: char, e: Entry, p: nat, t: nat): (r: seq<Token>)
    ensures |r| == EntrySize(open, e)
    decreases e, 0
  {
    var v := p + |e.lead| + |KeyText(open, e)|;
    if open == '{' then [Token(p + |e.lead|, p + |e.lead| + |e.key|, t + 1, Kind(e.key))] + Layout(e.value, v, t + 1)
    else Layout(e.value, v, t)
  }
}
