/**
 * What a command hands back to the interpreter: the lines it logs on
 * success, or the error it throws. Colours and underlining are dropped;
 * column padding is kept.
 */
module Replies {
  import opened JsValues

  /** Why a handler threw. */
  datatype ErrorKind =
    | Syntax        // wrong token count, malformed `<number>@<domain>`, empty new value
    | NotFound      // a context, folder or mailbox named by the command is not stored
    | Conflict      // the name, domain, DTMF digit or mailbox is already taken
    | NotEmpty      // the context, folder or mailbox still holds mailboxes or messages
    | NotEditable   // the field named by an edit command cannot be edited
    | Rejected      // the repository refused the write

  /** One `logger.info` call: a plain line, or a record logged with `%j`. */
  datatype Line = Text(text: string) | Json(record: Record)

  /** A handler's settled promise. */
  datatype Result = Ok(lines: seq<Line>) | Err(kind: ErrorKind, message: string)

  /** `entryComponents[i]` as `sprintf('%s')` renders it: "undefined" past the end. */
  function TokenAt(tokens: seq<string>, i: nat): string {
    if i < |tokens| then tokens[i] else "undefined"
  }

  /** The message of `invalidSyntax(entryComponents)`: it names the first two tokens as typed. */
  function InvalidSyntax(tokens: seq<string>): string {
    "Invalid Syntax for '" + TokenAt(tokens, 0) + " " + TokenAt(tokens, 1) + "'"
  }

  /** The syntax error names only the command words: whatever arguments follow do not change it. */
  lemma InvalidSyntaxNamesCommand(tokens: seq<string>, more: seq<string>)
    requires |tokens| >= 2
    ensures InvalidSyntax(tokens + more) == InvalidSyntax(tokens[..2])
    ensures InvalidSyntax(tokens[..1]) == "Invalid Syntax for '" + tokens[0] + " undefined'"
  {
    assert (tokens + more)[0] == tokens[..2][0] && (tokens + more)[1] == tokens[..2][1];
  }

  /** `n` spaces. */
  function Spaces(n: nat): (s: string)
    ensures |s| == n && forall i :: 0 <= i < n ==> s[i] == ' '
  {
    if n == 0 then "" else Spaces(n - 1) + " "
  }

  /** `sprintf('%-<width>s', s)`: `s` left-aligned, padded with spaces to `width`, never cut. */
  function PadRight(s: string, width: nat): (p: string)
    ensures |p| == if |s| < width then width else |s|
  {
    if |s| < width then s + Spaces(width - |s|) else s
  }

  /** A padded cell starts with the text it pads and ends in spaces only. */
  lemma PaddedCell(s: string, width: nat)
    ensures PadRight(s, width)[..|s|] == s
    ensures forall i :: |s| <= i < |PadRight(s, width)| ==> PadRight(s, width)[i] == ' '
  {
    if |s| < width {
      var pad := Spaces(width - |s|);
      assert forall i :: |s| <= i < |s| + |pad| ==> (s + pad)[i] == pad[i - |s|];
    }
  }

  /** `sprintf('%-<w1>s %-<w2>s ...', c1, c2, ...)`: each cell padded to its width, one space between cells. */
  function Columns(cells: seq<string>, widths: seq<nat>): string
    requires |cells| == |widths|
  {
    if cells == [] then ""
    else if |cells| == 1 then PadRight(cells[0], widths[0])
    else PadRight(cells[0], widths[0]) + " " + Columns(cells[1..], widths[1..])
  }
}
