/** What each frame shows of the form (`render_commit` and `activate` in
    src/main.rs), reduced to what the model can state: which area is
    active, the colour and title it gets from the quality of its lines,
    and the position label under the page. */
module View {
  import opened Schema
  import Quality
  import Navigation

  /** How one text area is drawn: the active one in the colour of its
      quality with the titles of its banner, every other one dimmed with
      its plain title. */
  datatype Look = Active(colour: Quality.Colour, titles: seq<string>) | Inactive(title: string)

  /** How area `i` of the current page is drawn. */
  function AreaLook(s: Navigation.Session, i: Slot): Look
    requires Navigation.Valid(s)
  {
    var title := FieldTitles[s.page][i];
    if i == s.witch then
      var lines := s.grid[s.page][i];
      Active(Quality.ColourOf(Quality.ClassOf(lines)), Quality.Banner(lines, title))
    else Inactive(" " + title + " ")
  }

  /** The four areas of the current page, in order, and exactly one of
      them, the area under the cursor, drawn as active. */
  function Frame(s: Navigation.Session): (f: seq<Look>)
    requires Navigation.Valid(s)
    ensures |f| == FieldsPerPage
    ensures forall i :: 0 <= i < FieldsPerPage ==> (f[i].Active? <==> i == s.witch)
  {
    seq(FieldsPerPage, i requires 0 <= i < FieldsPerPage => AreaLook(s, i))
  }

  /** The label drawn under the page. */
  function Footer(s: Navigation.Session): string
    requires Navigation.Valid(s)
  {
    PageLabel(s.page)
  }

  /** The active area is drawn red exactly when one of its lines is longer
      than 72 characters; it always shows its plain title, and shows the
      title with the over-length note exactly when it is red. */
  lemma ActiveRed(s: Navigation.Session)
    requires Navigation.Valid(s)
    ensures Frame(s)[s.witch].Active?
    ensures Frame(s)[s.witch].colour == Quality.Red
            <==> Quality.HasOverLength(Quality.Lengths(s.grid[s.page][s.witch]))
    ensures " " + FieldTitles[s.page][s.witch] + " " in Frame(s)[s.witch].titles
    ensures Frame(s)[s.witch].colour == Quality.Red
            <==> " " + FieldTitles[s.page][s.witch] + Quality.OverLengthNote in Frame(s)[s.witch].titles
  {
    var lines := s.grid[s.page][s.witch];
    var title := FieldTitles[s.page][s.witch];
    assert Frame(s)[s.witch] == Active(Quality.ColourOf(Quality.ClassOf(lines)), Quality.Banner(lines, title));
  }

  /** Typing a line longer than 72 characters into an area turns it red at
      the next frame, with the plain title and the noted title, whatever
      else the area holds. */
  lemma OverLengthInputShowsRed(s: Navigation.Session, lines: seq<string>, j: nat)
    requires Navigation.Valid(s)
    requires j < |lines| && |lines[j]| > Quality.MaxLineLength
    ensures Frame(Navigation.Edit(s, lines))[s.witch] == Active(Quality.Red,
              [" " + FieldTitles[s.page][s.witch] + " ", " " + FieldTitles[s.page][s.witch] + Quality.OverLengthNote])
  {
    var n := Navigation.Edit(s, lines);
    assert n.grid[s.page][s.witch] == lines;
    Quality.OverLengthIsError(Quality.Lengths(lines), j);
    assert Frame(n)[s.witch] == AreaLook(n, s.witch);
  }

  /** The label under the page shows the page's one-based position: the
      digit right after `page ` is `1` on the first page up to `9` on the
      last. */
  lemma FooterFollowsPage(s: Navigation.Session)
    requires Navigation.Valid(s)
    ensures Footer(s)[|LabelNames[s.page]| + 11] as int == '1' as int + s.page
  {
    var b := LabelNames[s.page];
    assert Footer(s) == " " + b + " <== page " + ["123456789"[s.page]] + "/9 ==> " + LabelNames[s.page + 2] + " ";
    assert (" " + b + " <== page " + ["123456789"[s.page]])[|b| + 11] == "123456789"[s.page];
  }
}
