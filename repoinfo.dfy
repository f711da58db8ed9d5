/**
 * Help listings for a repository's or a cog's commands: an embed with one
 * field per page of each cog's command lines, or a plain text table whose
 * descriptions are trimmed to fit 80 columns. Pagination, the help
 * formatter and the display width of wide characters are external;
 * display widths arrive as a parameter.
 */
module RepoInfo {
  import opened Common

  /** `shorten_line`: a line of 70 or more characters becomes its first 67 and "...". */
  function ShortenLine(line: string): (r: string)
    ensures |line| < 70 ==> r == line
    ensures |line| >= 70 ==> |r| == 70 && r[..67] == line[..67] && r[67..] == "..."
    ensures |r| <= 70
  {
    if |line| < 70 then line else line[..67] + "..."
  }

  /** A shortened line is not shortened again. */
  lemma ShortenLineIdempotent(line: string)
    ensures ShortenLine(ShortenLine(line)) == ShortenLine(line)
  {
    if |line| >= 70 {
      var r := ShortenLine(line);
      assert r[..67] + "..." == r;
    }
  }

  /** The embed title of a cog; a cog without a name is listed as "No Category". */
  function EmbedTitle(cogName: string): (t: string)
    ensures cogName != "" ==> t == "**__" + cogName + ":__**"
    ensures cogName == "" ==> t == "**__No Category:__**"
  {
    if cogName != "" then "**__" + cogName + ":__**" else "**__No Category:__**"
  }

  /** The plain-text title of a cog. */
  function PlainTitle(cogName: string): (t: string)
    ensures cogName != "" ==> t == cogName + ":"
    ensures cogName == "" ==> t == "No Category:"
  {
    if cogName != "" then cogName + ":" else "No Category:"
  }

  /** One command as listed in the embed, before shortening: `**name** doc`. */
  function EntryLine(entry: (string, string)): string {
    "**" + entry.0 + "** " + entry.1
  }

  predicate NameLe(a: (string, string), b: (string, string)) {
    StrLe(a.0, b.0)
  }

  /** The shortened lines of a cog's commands, in name order. */
  function ShortLines(entries: seq<(string, string)>): (r: seq<string>)
    ensures |r| == |entries|
    ensures forall i :: 0 <= i < |r| ==> |r[i]| <= 70
  {
    var sorted := SortBy(entries, NameLe);
    SortByLength(entries, NameLe);
    seq(|sorted|, i requires 0 <= i < |sorted| => ShortenLine(EntryLine(sorted[i])))
  }

  /** The text paged into a cog's embed fields. */
  function CogText(entries: seq<(string, string)>): string {
    Join("\n", ShortLines(entries))
  }

  datatype EmbedField = EmbedField(name: string, value: string, inline: bool)

  /**
   * The field loop as written: the title is reassigned on every page
   * after the first, so page `i` carries `i` copies of " (continued)".
   */
  method PageFieldsAsWritten(title: string, pages: seq<string>) returns (fields: seq<EmbedField>)
    ensures |fields| == |pages|
    ensures forall i :: 0 <= i < |pages| ==> fields[i] == EmbedField(title + Repeat(" (continued)", i), pages[i], false)
  {
    fields := [];
    var t := title;
    var i := 0;
    while i < |pages|
      invariant 0 <= i <= |pages| && |fields| == i
      invariant forall k :: 0 <= k < i ==> fields[k] == EmbedField(title + Repeat(" (continued)", k), pages[k], false)
      invariant i > 0 ==> t == title + Repeat(" (continued)", i - 1)
      invariant i == 0 ==> t == title
      decreases |pages| - i
    {
      if i >= 1 {
        ghost var before := Repeat(" (continued)", i - 1);
        assert Repeat(" (continued)", i) == before + " (continued)";
        t := t + " (continued)";
        assert t == title + (before + " (continued)");
      }
      assert t == title + Repeat(" (continued)", i);
      fields := fields + [EmbedField(t, pages[i], false)];
      i := i + 1;
    }
  }

  /** The title of page `i`: the cog's title, marked as continued after the first page. */
  function ContinuedTitle(title: string, i: nat): string {
    if i < 1 then title else title + " (continued)"
  }

  /** The field loop as intended: every page after the first says " (continued)" once. */
  method PageFields(title: string, pages: seq<string>) returns (fields: seq<EmbedField>)
    ensures |fields| == |pages|
    ensures forall i :: 0 <= i < |pages| ==> fields[i] == EmbedField(ContinuedTitle(title, i), pages[i], false)
    ensures forall i :: 1 <= i < |pages| ==> fields[i].name == title + " (continued)"
  {
    fields := [];
    var i := 0;
    while i < |pages|
      invariant 0 <= i <= |pages| && |fields| == i
      invariant forall k :: 0 <= k < i ==> fields[k] == EmbedField(ContinuedTitle(title, k), pages[k], false)
      decreases |pages| - i
    {
      fields := fields + [EmbedField(ContinuedTitle(title, i), pages[i], false)];
      i := i + 1;
    }
  }

  /** With three pages, the last title says " (continued)" twice as written and once as intended. */
  method ContinuedTitlesPileUp() returns (asWritten: string, asIntended: string)
    ensures asWritten == "**__Todo:__** (continued) (continued)"
    ensures asIntended == "**__Todo:__** (continued)"
  {
    var pages := ["a", "b", "c"];
    var title := EmbedTitle("Todo");
    var c := " (continued)";
    assert Repeat(c, 2) == c + c by {
      assert Repeat(c, 1) == Repeat(c, 0) + c;
    }
    var written := PageFieldsAsWritten(title, pages);
    var intended := PageFields(title, pages);
    asWritten := written[2].name;
    asIntended := intended[2].name;
    assert asWritten == title + Repeat(c, 2);
    TitleLiterals(title, c);
  }

  lemma TitleLiterals(title: string, c: string)
    requires title == "**__Todo:__**" && c == " (continued)"
    ensures title + (c + c) == "**__Todo:__** (continued) (continued)"
    ensures title + c == "**__Todo:__** (continued)"
  {
  }

  // ------------------------------------------------------------ plain text

  /**
   * `width_maker`'s trimming: a description longer than `80 - maxWidth`
   * becomes `doc[:80 - maxWidth - 3] + "..."`, with Python's slice (a
   * negative bound counts from the end).
   */
  function TrimDoc(doc: string, maxWidth: int): (r: string)
    ensures |doc| <= 80 - maxWidth ==> r == doc
    ensures |doc| > 80 - maxWidth ==> r == PySliceTo(doc, 80 - maxWidth - 3) + "..."
    ensures 3 <= 80 - maxWidth ==> |r| <= 80 - maxWidth
  {
    var docMax := 80 - maxWidth;
    if |doc| > docMax then PySliceTo(doc, docMax - 3) + "..." else doc
  }

  /** When the widest name leaves fewer than three columns, a trimmed description can grow. */
  lemma WideNameLengthensDoc()
    ensures TrimDoc("abc", 79) == "a..."
  {
    assert PySliceTo("abc", -2) == "a";
  }

  /** `name or "No Category:"`. */
  function NameOr(name: string): string {
    if name != "" then name else "No Category:"
  }

  /** `max(...)` of the display widths; none when there are no commands (`max` of nothing raises). */
  function MaxWidth(names: seq<string>, width: string -> nat): (r: Option<nat>)
    ensures r.None? <==> |names| == 0
    ensures r.Some? ==> forall n :: n in names ==> width(NameOr(n)) <= r.value
    ensures r.Some? ==> exists n :: n in names && width(NameOr(n)) == r.value
  {
    if |names| == 0 then None
    else
      var rest := MaxWidth(names[1..], width);
      var w := width(NameOr(names[0]));
      if rest.None? || w >= rest.value then
        assert forall n :: n in names ==> n == names[0] || n in names[1..];
        Some(w)
      else
        assert forall n :: n in names ==> n == names[0] || n in names[1..];
        var n0 :| n0 in names[1..] && width(NameOr(n0)) == rest.value;
        assert n0 in names;
        rest
  }

  /** One row `width_maker` yields: the name, its trimmed description and its padding width. */
  datatype Row = Row(name: string, doc: string, width: int)

  function RowOf(cmd: (string, string), maxWidth: int, width: string -> nat): Row {
    Row(cmd.0, TrimDoc(cmd.1, maxWidth), maxWidth - (width(cmd.0) - |cmd.0|))
  }

  /** The generator `width_maker`, over the (name, description) pairs of a cog. */
  method WidthMaker(cmds: seq<(string, string)>, maxWidth: int, width: string -> nat) returns (rows: seq<Row>)
    ensures |rows| == |cmds|
    ensures forall i :: 0 <= i < |cmds| ==> rows[i] == RowOf(cmds[i], maxWidth, width)
    ensures 3 <= 80 - maxWidth ==> forall i :: 0 <= i < |rows| ==> |rows[i].doc| <= 80 - maxWidth
  {
    rows := [];
    var i := 0;
    while i < |cmds|
      invariant 0 <= i <= |cmds| && |rows| == i
      invariant forall k :: 0 <= k < i ==> rows[k] == RowOf(cmds[k], maxWidth, width)
      decreases |cmds| - i
    {
      var nm := cmds[i].0;
      var gap := width(nm) - |nm|;
      var doc := cmds[i].1;
      if |doc| > 80 - maxWidth {
        doc := PySliceTo(doc, 80 - maxWidth - 3) + "...";
      }
      rows := rows + [Row(nm, doc, maxWidth - gap)];
      i := i + 1;
    }
  }

  /** `f"{s:<{w}}"`: left-aligned, padded with spaces to `w` characters, never cut. */
  function PadRight(s: string, w: int): (r: string)
    ensures |r| == if w > |s| then w else |s|
    ensures r[..|s|] == s
    ensures forall i :: |s| <= i < |r| ==> r[i] == ' '
  {
    if w > |s| then s + seq(w - |s|, _ => ' ') else s
  }

  /** One line of the plain table. */
  function PlainLine(row: Row): string {
    "  " + PadRight(row.name, row.width) + " " + row.doc
  }
}
