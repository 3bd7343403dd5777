/**
 * `print_output` (ghfetch/main.py:150-222): the fetched record is written
 * next to the avatar by appending text to fixed rows of the canvas,
 * with one layout per kind of record. The final print loop is outside
 * the model.
 */
module Compositor {
  import opened Wrappers
  import opened Records
  import opened Glyphs

  const COLOR_TITLE := "#068FFF"
  const COLOR_TEXT := "#EEEEEE"
  const COLOR_ARCHIVED := "#F48024"
  const ARCHIVED_PREFIX := "[Archived] "
  const DESCRIPTION_LIMIT := 50
  const ELLIPSIS := "..."

  function Title(t: string): string {
    "[" + COLOR_TITLE + "]" + t + "[/" + COLOR_TITLE + "]"
  }

  function TextTag(t: string): string {
    "[" + COLOR_TEXT + "]" + t + "[/" + COLOR_TEXT + "]"
  }

  function ArchivedTag(t: string): string {
    "[" + COLOR_ARCHIVED + "]" + t + "[/" + COLOR_ARCHIVED + "]"
  }

  /**
   * Each colour helper wraps its text, unchanged, between an opening and a
   * closing tag of its colour: 9 characters before it and 10 after.
   */
  lemma TagsEnclose(t: string)
    ensures var s := Title(t); |s| == |t| + 19 && s[9..9 + |t|] == t && s[..9] == "[" + COLOR_TITLE + "]"
    ensures var s := TextTag(t); |s| == |t| + 19 && s[9..9 + |t|] == t && s[..9] == "[" + COLOR_TEXT + "]"
    ensures var s := ArchivedTag(t); |s| == |t| + 19 && s[9..9 + |t|] == t && s[..9] == "[" + COLOR_ARCHIVED + "]"
  {
  }

  /** `'-' * n`. */
  function Dashes(n: nat): (s: string)
    ensures |s| == n && forall i :: 0 <= i < n ==> s[i] == '-'
  {
    if n == 0 then "" else Dashes(n - 1) + "-"
  }

  /** A labelled row: `f'{title(caption)}: {text(value)}'`. */
  function Labelled(caption: string, value: Json): string {
    Title(caption) + ": " + TextTag(Show(value))
  }

  /**
   * The description as printed: a string longer than 50 characters is
   * cut to its first 50 and marked with "...", anything else is shown
   * as it is.
   */
  function ShownDescription(d: Json): (r: Json)
    ensures d.JStr? ==> r.JStr? && |r.s| <= DESCRIPTION_LIMIT + |ELLIPSIS|
    ensures !d.JStr? || |d.s| <= DESCRIPTION_LIMIT ==> r == d
    ensures d.JStr? && |d.s| > DESCRIPTION_LIMIT ==>
              |r.s| == DESCRIPTION_LIMIT + |ELLIPSIS| && r.s[..DESCRIPTION_LIMIT] == d.s[..DESCRIPTION_LIMIT] &&
              r.s[DESCRIPTION_LIMIT..] == ELLIPSIS
  {
    if d.JStr? && |d.s| > DESCRIPTION_LIMIT then JStr(d.s[..DESCRIPTION_LIMIT] + ELLIPSIS) else d
  }

  /** `', '.join(parts)`. */
  function Join(parts: seq<string>): string {
    if |parts| == 0 then "" else if |parts| == 1 then parts[0] else parts[0] + ", " + Join(parts[1..])
  }

  /** Each language as `f"{title(k)}: {text(v)}"`. */
  function LanguageItems(table: seq<(string, string)>): (items: seq<string>)
    ensures |items| == |table|
  {
    seq(|table|, i requires 0 <= i < |table| => Title(table[i].0) + ": " + TextTag(table[i].1))
  }

  /** What `print_output` needs of a record so that no step raises. */
  predicate Printable(r: Record) {
    && (r.common.description.JNull? || r.common.description.JStr?)
    && (r.User? || r.Organization? ==> r.username.JStr?)
    && (r.Repo? ==> r.languages.Table?)
  }

  /** Rows taken by the fork line: 1 when the repository is a fork, else 0. */
  function ForkShift(r: Record): nat
    requires r.Repo?
  {
    if r.forkedParent.Some? then 1 else 0
  }

  /** The highest row index written, plus one: the rows the canvas needs. */
  function MinRows(r: Record): nat
    requires Printable(r)
  {
    match r
    case User(_, _, _, _, _, _, _, _, _) => 14
    case Organization(_, _, _, _, _, _, _, _) => 14
    case Repo(_, _, _, _, _, _, _, _, languages) =>
      13 + ForkShift(r) + if |languages.entries| > 2 then 1 else 0
  }

  /** Whether `print_output` indexes row `i` of the canvas for record `r`. */
  predicate Written(r: Record, i: int)
    requires Printable(r)
  {
    match r
    case User(_, _, _, _, _, _, _, _, _) => 0 <= i <= 13
    case Organization(_, _, _, _, _, _, _, _) => 1 <= i <= 13
    case Repo(_, _, _, _, _, _, _, _, languages) =>
      1 <= i <= 12 + ForkShift(r) || (|languages.entries| > 2 && i == 13 + ForkShift(r))
  }

  /** The texts the user layout appends to rows 0 to 13 (ghfetch/main.py:168-182). */
  function UserTexts(r: Record): (t: seq<string>)
    requires r.User? && Printable(r)
    ensures |t| == 14
  {
    var c := r.common;
    [ Title(Show(r.username)),
      TextTag(Dashes(|r.username.s|)),
      Labelled("Name", c.name),
      Labelled("Description", ShownDescription(c.description)),
      Labelled("Location", r.location),
      Labelled("Email", r.email),
      Labelled("Company", r.company),
      Labelled("Personal Website", c.website),
      Labelled("Following", r.following),
      Labelled("Followers", r.followers),
      Labelled("Public repos", r.publicRepos),
      Labelled("Public gists", r.publicGists),
      Labelled("Joined at", c.createdAt),
      Labelled("Github URL", c.githubUrl) ]
  }

  /** Text appended to row `i` by the user layout. */
  function UserRow(r: Record, i: int): string
    requires r.User? && Printable(r)
  {
    if 0 <= i < 14 then UserTexts(r)[i] else ""
  }

  /**
   * The texts the organization layout appends to rows 1 to 13
   * (ghfetch/main.py:184-197); the repository and gist counts lack the
   * space after their colon.
   */
  function OrganizationTexts(r: Record): (t: seq<string>)
    requires r.Organization? && Printable(r)
    ensures |t| == 13
  {
    var c := r.common;
    [ Title(Show(r.username)),
      TextTag(Dashes(|r.username.s|)),
      Labelled("Name", c.name),
      Labelled("Description", ShownDescription(c.description)),
      Labelled("Location", r.location),
      Labelled("E-mail", r.email),
      Labelled("Personal Website", c.website),
      Labelled("Following", r.following),
      Labelled("Followers", r.followers),
      Title("Public repos") + ":" + TextTag(Show(r.publicRepos)),
      Title("Public gists") + ":" + TextTag(Show(r.publicGists)),
      Labelled("Joined at", c.createdAt),
      Labelled("Github URL", c.githubUrl) ]
  }

  /** Text appended to row `i` by the organization layout; row 0 is left empty. */
  function OrganizationRow(r: Record, i: int): string
    requires r.Organization? && Printable(r)
  {
    if 1 <= i < 14 then OrganizationTexts(r)[i - 1] else ""
  }

  /** `f'{owner}/{name}'`. */
  function FullName(r: Record): string
    requires r.Repo?
  {
    Show(r.owner) + "/" + Show(r.common.name)
  }

  /**
   * Text appended to row `i` above the details by the repository layout:
   * the title, its underline and, for a fork, the parent.
   */
  function RepoHeaderRow(r: Record, i: int): string
    requires r.Repo? && Printable(r)
  {
    if i == 1 then (if r.archived then ArchivedTag(ARCHIVED_PREFIX) else "") + Title(FullName(r))
    else if i == 2 then TextTag(Dashes(if !r.archived then |FullName(r)| else |FullName(r)| + |ARCHIVED_PREFIX|))
    else if i == 3 && r.forkedParent.Some? then Labelled("Forked from", r.forkedParent.value)
    else ""
  }

  /** Text appended to row `i` by the repository layout (ghfetch/main.py:199-222). */
  function RepoRow(r: Record, i: int): string
    requires r.Repo? && Printable(r)
  {
    var n := ForkShift(r);
    if i < n + 3 then RepoHeaderRow(r, i) else RepoDetailRow(r, i - n - 3)
  }

  /** The eight labelled fields of the repository layout, from the owner to the URL. */
  function RepoFieldTexts(r: Record): (t: seq<string>)
    requires r.Repo? && Printable(r)
    ensures |t| == 8
  {
    var c := r.common;
    [ Labelled("Owner", r.owner),
      Labelled("Description", ShownDescription(c.description)),
      Labelled("License", r.license),
      Labelled("Stars", r.stars),
      Labelled("Watchers", r.watchers),
      Labelled("Forks", r.forks),
      Labelled("Joined at", c.createdAt),
      Labelled("Github URL", c.githubUrl) ]
  }

  /**
   * Text appended to the `k`-th row of the language block: a "Langs"
   * caption, then at most two languages per row.
   */
  function LanguageRow(r: Record, k: int): string
    requires r.Repo? && Printable(r)
  {
    var items := LanguageItems(r.languages.entries);
    if k == 0 then (if |items| > 0 then Title("Langs") + ": " else "")
    else if k == 1 then (if |items| > 2 then Join(items[..2]) + ", " else Join(items))
    else if k == 2 && |items| > 2 then Join(items[2..])
    else ""
  }

  /** Text appended to the `k`-th row below the header of the repository layout. */
  function RepoDetailRow(r: Record, k: int): string
    requires r.Repo? && Printable(r)
  {
    if 0 <= k < 8 then RepoFieldTexts(r)[k] else LanguageRow(r, k - 8)
  }

  /** Text appended to row `i` of the canvas for record `r`. */
  function RowText(r: Record, i: int): string
    requires Printable(r)
  {
    match r
    case User(_, _, _, _, _, _, _, _, _) => UserRow(r, i)
    case Organization(_, _, _, _, _, _, _, _) => OrganizationRow(r, i)
    case Repo(_, _, _, _, _, _, _, _, _) => RepoRow(r, i)
  }

  /** A run of `output[base + k] += rows[k]` statements, one per row of a layout block. */
  method AppendRows(canvas: array<string>, base: nat, rows: seq<string>)
    requires base + |rows| <= canvas.Length
    modifies canvas
    ensures forall i :: 0 <= i < canvas.Length ==>
              canvas[i] == old(canvas[i]) + if base <= i < base + |rows| then rows[i - base] else ""
  {
    for k := 0 to |rows|
      invariant forall i :: 0 <= i < canvas.Length ==>
                  canvas[i] == old(canvas[i]) + if base <= i < base + k then rows[i - base] else ""
    {
      canvas[base + k] := canvas[base + k] + rows[k];
    }
  }

  /** Two appends to one row are one append of both texts. */
  lemma AppendAssoc(a: string, b: string, c: string)
    ensures (a + b) + c == a + (b + c)
  {
  }

  /** `output[k] += text`: row `k` grows by `text`, every other row is kept. */
  method AppendRow(canvas: array<string>, k: int, text: string)
    requires 0 <= k < canvas.Length
    modifies canvas
    ensures canvas[k] == old(canvas[k]) + text
    ensures forall i :: 0 <= i < canvas.Length && i != k ==> canvas[i] == old(canvas[i])
  {
    canvas[k] := canvas[k] + text;
  }

  /**
   * The first writes of the repository layout, with their texts as
   * parameters: the optional archived tag and the title on row 1, the
   * underline on row 2 and, for a fork, the parent on row 3, which
   * shifts the rest of the layout down by `n`.
   */
  method WriteRepoHeader(canvas: array<string>, tag: string, title: string, underline: string, parent: Option<string>)
    returns (n: nat)
    requires 4 <= canvas.Length
    modifies canvas
    ensures n == if parent.Some? then 1 else 0
    ensures forall i :: 0 <= i < canvas.Length ==>
              canvas[i] == old(canvas[i]) + if i == 1 then tag + title
                                            else if i == 2 then underline
                                            else if i == 3 && parent.Some? then parent.value
                                            else ""
  {
    n := 0;
    AppendRow(canvas, n + 1, tag);
    AppendRow(canvas, n + 1, title);
    AppendRow(canvas, n + 2, underline);
    if parent.Some? {
      AppendRow(canvas, n + 3, parent.value);
      n := n + 1;
    }
    AppendAssoc(old(canvas[1]), tag, title);
  }

  /** The title, underline and optional fork rows of the repository layout; `n` is the fork shift. */
  method ComposeRepoHeader(canvas: array<string>, r: Record) returns (n: nat)
    requires r.Repo? && Printable(r) && canvas.Length >= MinRows(r)
    modifies canvas
    ensures n == ForkShift(r)
    ensures forall i :: 0 <= i < canvas.Length ==>
              canvas[i] == old(canvas[i]) + if i < n + 3 then RepoRow(r, i) else ""
  {
    var fullName := FullName(r);
    n := WriteRepoHeader(canvas, if r.archived then ArchivedTag(ARCHIVED_PREFIX) else "", Title(fullName),
                         TextTag(Dashes(if !r.archived then |fullName| else |fullName| + |ARCHIVED_PREFIX|)),
                         if r.forkedParent.Some? then Some(Labelled("Forked from", r.forkedParent.value)) else None);
    forall i | 0 <= i < n + 3
      ensures RepoRow(r, i) == RepoHeaderRow(r, i)
    {
      RepoRowBlocks(r, i);
    }
  }

  /** The eight labelled fields of the repository layout, below the `n` fork rows. */
  method ComposeRepoFields(canvas: array<string>, r: Record, n: nat)
    requires r.Repo? && Printable(r) && canvas.Length >= MinRows(r) && n == ForkShift(r)
    modifies canvas
    ensures forall i :: 0 <= i < canvas.Length ==>
              canvas[i] == old(canvas[i]) + if n + 3 <= i < n + 11 then RepoRow(r, i) else ""
  {
    AppendRows(canvas, n + 3, RepoFieldTexts(r));
    forall i | n + 3 <= i < n + 11
      ensures RepoRow(r, i) == RepoFieldTexts(r)[i - n - 3]
    {
      RepoRowBlocks(r, i);
    }
  }

  /** The user layout (ghfetch/main.py:168-182): rows 0 to 13. */
  method ComposeUser(canvas: array<string>, r: Record)
    requires r.User? && Printable(r) && canvas.Length >= MinRows(r)
    modifies canvas
    ensures forall i :: 0 <= i < canvas.Length ==> canvas[i] == old(canvas[i]) + RowText(r, i)
  {
    AppendRows(canvas, 0, UserTexts(r));
  }

  /** The organization layout (ghfetch/main.py:184-197): rows 1 to 13. */
  method ComposeOrganization(canvas: array<string>, r: Record)
    requires r.Organization? && Printable(r) && canvas.Length >= MinRows(r)
    modifies canvas
    ensures forall i :: 0 <= i < canvas.Length ==> canvas[i] == old(canvas[i]) + RowText(r, i)
  {
    AppendRows(canvas, 1, OrganizationTexts(r));
  }

  /** The language block of the repository layout, below the fields. */
  method ComposeLanguages(canvas: array<string>, r: Record, n: nat)
    requires r.Repo? && Printable(r) && canvas.Length >= MinRows(r) && n == ForkShift(r)
    modifies canvas
    ensures forall i :: 0 <= i < canvas.Length ==>
              canvas[i] == old(canvas[i]) + if n + 11 <= i then RepoRow(r, i) else ""
  {
    var items := LanguageItems(r.languages.entries);
    AppendRow(canvas, n + 11, if |items| > 0 then Title("Langs") + ": " else "");
    if |items| > 2 {
      AppendRow(canvas, n + 12, Join(items[..2]) + ", ");
      AppendRow(canvas, n + 13, Join(items[2..]));
    } else {
      AppendRow(canvas, n + 12, Join(items));
    }
    forall i | n + 11 <= i
      ensures RepoRow(r, i) == LanguageRow(r, i - n - 11)
    {
      RepoRowBlocks(r, i);
    }
  }

  /** The repository layout (ghfetch/main.py:199-222). */
  method ComposeRepo(canvas: array<string>, r: Record)
    requires r.Repo? && Printable(r) && canvas.Length >= MinRows(r)
    modifies canvas
    ensures forall i :: 0 <= i < canvas.Length ==> canvas[i] == old(canvas[i]) + RepoRow(r, i)
  {
    var n := ComposeRepoHeader(canvas, r);
    ComposeRepoFields(canvas, r, n);
    ComposeLanguages(canvas, r, n);
  }

  /** Each row of the repository layout belongs to exactly one of its three blocks. */
  lemma RepoRowBlocks(r: Record, i: int)
    requires r.Repo? && Printable(r)
    ensures var n := ForkShift(r);
            && (i < n + 3 ==> RepoRow(r, i) == RepoHeaderRow(r, i))
            && (n + 3 <= i < n + 11 ==> RepoRow(r, i) == RepoFieldTexts(r)[i - n - 3])
            && (n + 11 <= i ==> RepoRow(r, i) == LanguageRow(r, i - n - 11))
  {
  }

  /** The layout step of `print_output`: appends each field to its row of the canvas. */
  method Compose(canvas: array<string>, r: Record)
    requires Printable(r) && canvas.Length >= MinRows(r)
    modifies canvas
    ensures forall i :: 0 <= i < canvas.Length ==> canvas[i] == old(canvas[i]) + RowText(r, i)
  {
    match r
    case User(_, _, _, _, _, _, _, _, _) => ComposeUser(canvas, r);
    case Organization(_, _, _, _, _, _, _, _) => ComposeOrganization(canvas, r);
    case Repo(_, _, _, _, _, _, _, _, _) => ComposeRepo(canvas, r);
  }

  /**
   * `print_output` up to its print loop: render the avatar's pixels,
   * then write the record beside them. The canvas is never padded, so
   * the avatar must be tall enough for the layout.
   */
  method PrintOutput(pixels: seq<Pixel>, r: Record) returns (output: seq<string>)
    requires Printable(r) && |pixels| / IMAGE_WIDTH >= MinRows(r)
    ensures |output| == |pixels| / IMAGE_WIDTH
    ensures forall i :: 0 <= i < |output| ==> output[i] == RowOf(pixels, i) + RowText(r, i)
  {
    var rows := ImageToUnicode(pixels);
    var canvas := new string[|rows|](i => if 0 <= i < |rows| then rows[i] else "");
    Compose(canvas, r);
    output := canvas[..];
  }

  /** The two language rows together hold the whole `', '.join` of the items. */
  lemma {:induction false} JoinSplit(parts: seq<string>, k: nat)
    requires 0 < k < |parts|
    ensures Join(parts[..k]) + ", " + Join(parts[k..]) == Join(parts)
    decreases k
  {
    if k == 1 {
      assert parts[..1] == [parts[0]];
      assert parts[1..] == parts[k..];
    } else {
      var tail := parts[1..];
      JoinSplit(tail, k - 1);
      assert parts[..k][1..] == tail[..k - 1];
      assert tail[k - 1..] == parts[k..];
      calc {
        Join(parts[..k]) + ", " + Join(parts[k..]);
        (parts[0] + ", " + Join(tail[..k - 1])) + ", " + Join(tail[k - 1..]);
        parts[0] + ", " + (Join(tail[..k - 1]) + ", " + Join(tail[k - 1..]));
        parts[0] + ", " + Join(tail);
      }
    }
  }

  /**
   * The language block lists every language once, in order: split over
   * two rows when there are more than two, on one row otherwise, under
   * a caption that appears exactly when there is a language.
   */
  lemma LanguageBlock(r: Record)
    requires r.Repo? && Printable(r)
    ensures var items := LanguageItems(r.languages.entries);
            && (|items| > 2 ==> LanguageRow(r, 1) + LanguageRow(r, 2) == Join(items))
            && (|items| <= 2 ==> LanguageRow(r, 1) == Join(items) && LanguageRow(r, 2) == "")
            && (LanguageRow(r, 0) == "" <==> |r.languages.entries| == 0)
  {
    var items := LanguageItems(r.languages.entries);
    if |items| > 2 {
      JoinSplit(items, 2);
    }
  }

  /**
   * The fork line takes row 3 and pushes every later row down by one;
   * the rows above it are those of the same repository without a parent.
   */
  lemma ForkShiftsRows(r: Record)
    requires r.Repo? && Printable(r) && r.forkedParent.Some?
    ensures var plain := r.(forkedParent := None);
            && Printable(plain)
            && MinRows(r) == MinRows(plain) + 1
            && RepoRow(r, 3) == Labelled("Forked from", r.forkedParent.value)
            && (forall i :: i < 3 ==> RepoRow(r, i) == RepoRow(plain, i))
            && (forall i :: i >= 3 ==> RepoRow(r, i + 1) == RepoRow(plain, i))
  {
    var plain := r.(forkedParent := None);
    forall i | i >= 3
      ensures RepoRow(r, i + 1) == RepoRow(plain, i)
    {
      ForkShiftsDetail(r, i);
    }
  }

  lemma ForkShiftsDetail(r: Record, i: int)
    requires r.Repo? && Printable(r) && r.forkedParent.Some? && i >= 3
    ensures RepoRow(r, i + 1) == RepoRow(r.(forkedParent := None), i)
  {
    var plain := r.(forkedParent := None);
    assert RepoFieldTexts(r) == RepoFieldTexts(plain);
    assert LanguageRow(r, i - 11) == LanguageRow(plain, i - 11);
  }

  /**
   * Every row a layout writes lies below `MinRows(r)`, the last of them
   * is written, and every other row is left as the avatar drew it.
   */
  lemma LayoutWithinMinRows(r: Record, i: int)
    requires Printable(r)
    ensures Written(r, i) ==> 0 <= i < MinRows(r)
    ensures Written(r, MinRows(r) - 1)
    ensures !Written(r, i) ==> RowText(r, i) == ""
  {
  }
}
