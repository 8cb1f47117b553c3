/**
 * The Markdown renderer the generators use (wasabi's `MarkdownRenderer`),
 * as simple templates: inline code, bold, links, titles and pipe tables,
 * and a renderer object that collects blocks and joins them with a blank line.
 */
module Markdown {
  import Strings

  function Code(text: string): string { "`" + text + "`" }

  function Bold(text: string): string { "**" + text + "**" }

  function Link(text: string, url: string): string { "[" + text + "](" + url + ")" }

  function Title(level: nat, text: string): string { Strings.Repeat('#', level) + " " + text }

  function Row(cells: seq<string>): string { "| " + Strings.Join(cells, " | ") + " |" }

  function Rows(rows: seq<seq<string>>): seq<string>
  {
    if |rows| == 0 then [] else [Row(rows[0])] + Rows(rows[1..])
  }

  /** A left-aligned table: header row, divider row, then one line per row. */
  function Table(rows: seq<seq<string>>, header: seq<string>): string
  {
    Row(header) + "\n" + Row(Dividers(|header|)) + "\n"
      + Strings.Join(Rows(rows), "\n")
  }

  function Dividers(n: nat): (r: seq<string>)
    ensures |r| == n
  {
    if n == 0 then [] else Dividers(n - 1) + ["---"]
  }

  /** A renderer collects blocks; its text is the blocks joined by a blank line. */
  class Renderer {
    var data: seq<string>

    constructor ()
      ensures data == []
    {
      data := [];
    }

    method Add(block: string)
      modifies this
      ensures data == old(data) + [block]
    {
      data := data + [block];
    }

    function Text(): string
      reads this
    {
      Strings.Join(data, "\n\n")
    }
  }
}
