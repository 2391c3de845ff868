/** The chat transcript of the client (`chatHistory` in App.js): its entries,
    the plain-text export of the copy button and the fallback used when the
    saved history cannot be read back. */
module Transcript {
  import opened Wrappers
  import opened Strings

  /** The `sender` field: 'user', 'ai' or 'system'. */
  datatype Sender = User | Ai | System

  /** One `{id?, sender, message}` object. Only a user question and the answer
      to it carry an id (a `Date.now()` value); error and system entries have none. */
  datatype Entry = Entry(id: Option<nat>, sender: Sender, message: string)

  function SystemEntry(message: string): Entry {
    Entry(None, System, message)
  }

  /** The label the export puts in front of a message: "You" for the user,
      "AI" for every other sender, system entries included. */
  function Label(s: Sender): string {
    if s == User then "You" else "AI"
  }

  function CopyLine(e: Entry): string {
    Label(e.sender) + ": " + e.message
  }

  function CopyLines(h: seq<Entry>): (lines: seq<string>)
    ensures |lines| == |h|
    ensures forall i :: 0 <= i < |h| ==> lines[i] == CopyLine(h[i])
  {
    if h == [] then [] else [CopyLine(h[0])] + CopyLines(h[1..])
  }

  /** The text the copy button puts on the clipboard: one line per entry, in
      order, joined by newlines. It is empty exactly when the transcript is. */
  function CopyText(h: seq<Entry>): (text: string)
    ensures text == "" <==> h == []
  {
    var lines := CopyLines(h);
    JoinEmptyIff(lines, "\n");
    Join(lines, "\n")
  }

  /** When no message holds a newline, the export splits back into exactly one
      line per entry, each line being that entry's label and message. */
  lemma {:induction false} CopyTextLines(h: seq<Entry>)
    requires h != []
    requires forall i :: 0 <= i < |h| ==> '\n' !in h[i].message
    ensures Split(CopyText(h), '\n') == CopyLines(h)
  {
    var lines := CopyLines(h);
    forall k | 0 <= k < |lines| ensures '\n' !in lines[k] {
      NoNewlineInLine(h[k]);
    }
    SplitJoin(lines, '\n');
  }

  lemma NoNewlineInLine(e: Entry)
    requires '\n' !in e.message
    ensures '\n' !in CopyLine(e)
  {
    var prefix := Label(e.sender) + ": ";
    assert '\n' !in prefix;
    assert CopyLine(e) == prefix + e.message;
    forall i | 0 <= i < |CopyLine(e)| ensures CopyLine(e)[i] != '\n' {
      if i < |prefix| { assert CopyLine(e)[i] == prefix[i]; }
      else { assert CopyLine(e)[i] == e.message[i - |prefix|]; }
    }
  }

  /** Exporting a transcript that gained one entry extends the old export by a
      newline and that entry's line. */
  lemma {:induction false} CopyTextAppend(h: seq<Entry>, e: Entry)
    requires h != []
    ensures CopyText(h + [e]) == CopyText(h) + "\n" + CopyLine(e)
  {
    assert CopyLines(h + [e]) == CopyLines(h) + [CopyLine(e)];
    JoinSnoc(CopyLines(h), CopyLine(e), "\n");
  }

  /** The history the client starts with: the saved value when there is one
      that parses, and the empty history when nothing (or an empty string) is
      saved or the saved text does not parse. `parse` stands for `JSON.parse`,
      `None` for the exception it throws. */
  function InitialHistory(saved: Option<string>, parse: string -> Option<seq<Entry>>): (h: seq<Entry>)
    ensures saved.None? || saved == Some("") ==> h == []
    ensures saved.Some? && parse(saved.value).None? ==> h == []
    ensures saved.Some? && saved.value != "" && parse(saved.value).Some? ==> h == parse(saved.value).value
  {
    match saved
    case None => []
    case Some(text) =>
      if text == "" then []
      else match parse(text)
        case None => []
        case Some(entries) => entries
  }
}
