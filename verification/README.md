# rei commit form, modelled in Dafny

`rei` is a terminal form for writing structured git commit messages. It has
nine pages of four text areas each. PageUp and PageDown move between
pages, F7 and F5 between the areas of a page, and any other key is handed
to the active area, which edits its text or leaves it as it is. Esc leaves, and F6 renders the commit message from
a fixed template and hands it to `git commit -m`. While the user types,
the active area is recoloured according to the lengths of its lines.

This project models that core of `src/main.rs`:

- `strings.dfy` (`Strings`): Rust's `join("\n")` and `str::replace`, with
  the facts the rest needs: split after join gives the lines back, and
  replacement works separately on both sides of a seam no match can
  straddle.
- `quality.dfy` (`Quality`): `activate`, the line-length classifier. The
  scan over the lines keeps four flags in the source's branch order. The
  colour is then picked as red, yellow, orange, green, else white. The
  class is also stated without the scan, as the first bracket, in the
  order the code checks the flags, that some line falls in, and the two are proved equal.
- `schema.dfy` (`Schema`): the fixed form. Nine pages, four areas each,
  the titles, and the position label of `PageIndex`'s `Display`.
- `form.dfy` (`Form`): the lines of every area, the 36-field `Commit`
  record, and `get_lines`/`update_commit`. It proves that the map from
  areas to fields is a bijection, and that editing one area changes only
  the field that area feeds.
- `template.dfy` (`Template`): `COMMIT_TEMPLATE` as a head followed by
  35 placeholders, each with the literal text after it. It also models the
  chain of 36 `replace` calls, in source order, with the second
  `%system_before%` call and `%next_description%` filled from
  `next_features`. The main theorem is `Template.SubstituteLayout`: the
  chain fills every placeholder, at every place it appears, with the value
  of the first call that names it, provided no value holds a placeholder.
- `navigation.dfy` (`Navigation`): the key loop of `commit`, as a step
  function over a session (page, active area, lines, record) and a run
  over a sequence of key events that follows the forms each commit opens.
- `view.dfy` (`View`): what a frame shows of the session. Exactly one area,
  the active one, is drawn in the colour of its class, and the page
  label carries the page number.

Behaviour the model keeps exactly as the code has it:

- The classifier never clears `red` once it is set, and checks it first.
  So lines of lengths `[90, 25]` are an error
  (`Quality.OverLengthThenGood`).
- Lengths are bracketed as the branches fall: 20..35 green, 36..50
  yellow, 51..71 orange, over 72 red. Lengths 72 and under 20 set nothing.
- The record is refreshed whenever a key other than Esc, F6, PageUp,
  PageDown, F7 or F5 is read, whether or not it changes the text. F6 renders the
  record as it stands and empties it, but leaves the lines alone. It then
  opens a new, empty form inside the current one (`commit` calls itself),
  and that form reads the following keys. Only when Esc closes it does the
  committing form come back, with its lines kept and its record empty. So
  F6, Esc, F6 commits the template with every placeholder blank
  (`Navigation.ResumeSendsEmpty`, `Template.RenderEmpty`). Esc closes only
  the innermost form, so leaving takes one Esc per commit plus one.
- The `packages` field is read from its area but no `replace` call uses
  it, so it never reaches the message (`Template.RenderIgnoresPackages`).
- The label under the second page calls the first page "Problematics",
  while that page's title is "Problematic" (`Schema.LabelNamesNeighbours`).

## Model

| member | source | states |
|---|---|---|
| Quality.ScanFlags | src/main.rs:415-432 | after the scan, `red` is set iff some line is over 72 characters, and it is never cleared; without such a line each other flag is set iff some line falls in its bracket |
| Quality.Classify | src/main.rs:402-467 | the class picked after the scan equals the first bracket, in the order the code checks the flags, that some line falls in: over-length, then 36..50, then 51..71, then 20..35, else neutral |
| Quality.OverLengthIsError | src/main.rs:419-440 | one line over 72 characters, anywhere among the lines, makes the area an error |
| Quality.ClassifyPermutation | src/main.rs:403-432 | reordering the lines does not change the class |
| Quality.ScanMonotone | src/main.rs:419-432 | a set `red` stays set; without an over-long line no flag is ever cleared |
| Quality.ScanAppend | src/main.rs:419-432 | scanning two blocks of lines is scanning the first, then the second from where the first left off |
| Quality.SingleLine | src/main.rs:419-466 | the class of a single line of each length, bracket by bracket, including the edges 19, 20, 35, 36, 50, 51, 71, 72 and 73 |
| Quality.BracketEdges | src/main.rs:425-431 | length 35 sets only green, 50 only yellow, 51..71 only orange; 72 and lengths under 20 set nothing |
| Quality.OverLengthThenGood | src/main.rs:419-440 | `[90, 25]` leaves red and green set and is an error; `[10, 90]` is an error, `[25]` good, `[25, 60]` a warning |
| Quality.AllGood | src/main.rs:425-461 | any number of lines of 25 characters is good |
| Quality.Activate | src/main.rs:402-467 | the method's two loops compute the expected class of the area's line lengths and the colour that class is drawn in |
| Quality.Lengths | src/main.rs:403-406 | one length per line, in order, each the line's character count |
| Quality.Banner | src/main.rs:407-440 | the frame carries the field title between spaces first, and exactly one more title, the field title with the over-length note, when and only when some line is over 72 characters |
| Strings.SplitJoin | src/main.rs:335-339 | lines without newlines, joined with `\n`, split back into the same lines |
| Strings.ReplaceAllAbsent | src/main.rs:663-705 | `replace` leaves a string without an occurrence of the pattern unchanged |
| Strings.ReplaceAllSplit | src/main.rs:663-705 | when a character next to a seam is foreign to the pattern, `replace` on the whole is `replace` on each side |
| Strings.OccursJoin | src/main.rs:663-705 | two strings without an occurrence of a pattern, joined at a character foreign to it, hold no occurrence |
| Strings.ReplaceAllSelf | src/main.rs:663-705 | replacing a pattern in itself yields the replacement |
| Schema.LabelNamesNeighbours | src/main.rs:227-259 | each page label names the previous page title, the one-based position out of nine, and the next page title, with `/dev/null` past either end; the second page's label says "Problematics" |
| Form.JoinAll | src/main.rs:335-339 | joining keeps the form's shape of nine pages of four areas, and loses nothing: the lines of every area with at least one line and no newline split back out of its text |
| Form.FieldAtOrigin | src/main.rs:353-392 | the area each field is read from gives that field back |
| Form.OriginFieldAt | src/main.rs:353-392 | the field each area feeds is read from that area; with the row above, areas and fields are in bijection |
| Form.ProjectTable | src/main.rs:353-392 | each field of `update_commit`'s record is the joined text of the area it is read from |
| Form.ProjectEmpty | src/main.rs:353-392 | areas never typed into give the default record, every field empty |
| Form.ProjectLocal | src/main.rs:353-392 | after one area's lines change, only the field it feeds differs, and that field is the new lines joined |
| Template.NameParse | src/main.rs:17-173 | each placeholder name is recognised back as its own placeholder, so no two placeholders share a name |
| Template.TokensApart | src/main.rs:17-173 | no `%name%` placeholder occurs inside another |
| Template.CommitTemplateWellFormed | src/main.rs:17-173 | the template's literal text holds no `%`, and the text before the first placeholder ends with a space, so no match can straddle a seam |
| Template.SubstituteLayout | src/main.rs:663-705 | the `replace` chain fills each placeholder, at every occurrence, with the value of the first call naming it, when no value holds a placeholder |
| Template.CallsCover | src/main.rs:663-705 | every placeholder of the template has a `replace` call |
| Template.SourceNotPackages | src/main.rs:663-705 | no call reads the `packages` field |
| Template.RenderFills | src/main.rs:663-705 | with values free of `%`, the message is the template with every placeholder replaced by its field's value, the duplicate `%system_before%` call included |
| Template.RenderComplete | src/main.rs:663-705 | when no value holds a placeholder, no placeholder is left in the message; when no value holds a `%`, no `%` is left either |
| Template.LayoutClean | src/main.rs:17-173 | the template shown with values that hold no placeholder holds none, so no placeholder forms across the seams of the template's text |
| Template.RenderStartsWithTitle | src/main.rs:17-19 | when no value holds a placeholder, the message opens with `# `, the title and a blank line |
| Template.RenderTitleFromArea | src/main.rs:17-19 | the heading of the message is the joined text of the first area of the first page, where `update_commit` reads the title (src/main.rs:353-392) |
| Template.RenderIdempotent | src/main.rs:663-705 | when no value holds a placeholder, running the chain again on the message changes nothing |
| Template.RenderIgnoresPackages | src/main.rs:663-705 | the message does not depend on the `packages` field |
| Template.FillsClean | src/main.rs:663-705 | on a well-formed template, when no value of the record holds a placeholder and the calls cover every placeholder, the chain's result is the template laid out with each placeholder's value |
| Template.RenderClean | src/main.rs:663-705 | for a record none of whose values holds a placeholder, the commit message is the template with each placeholder replaced by its field's value |
| Template.RenderEmpty | src/main.rs:663-705 | the default record gives the template with every placeholder blank |
| Navigation.Step | src/main.rs:659-742 | a pass keeps the cursor on the form; Esc and only Esc exits; F6 and only F6 sends, and sends the stored record and then empties it; an edit re-projects the record, other keys keep it |
| Navigation.Edit | src/main.rs:739-741 | an edit leaves the cursor where it was, puts the new lines in the active area, and leaves the record equal to the projection of all the lines |
| Navigation.FreshSynced | src/main.rs:640-642 | a new form starts on the first page and area with the record projected from its empty areas |
| Navigation.PageMoves | src/main.rs:720-729 | PageUp moves one page forward and PageDown one back, stopping at the last and first page; both make the first area active |
| Navigation.AreaMoves | src/main.rs:730-738 | F7 moves one area forward and F5 one back, stopping at the fourth and first area |
| Navigation.PageRoundTrip | src/main.rs:720-729 | PageDown undoes PageUp except on the last page, and PageUp undoes PageDown except on the first, up to the active area |
| Navigation.AreaRoundTrip | src/main.rs:730-738 | F5 undoes F7 except on the last area, and F7 undoes F5 except on the first |
| Navigation.InputLines | src/main.rs:739-741 | an edit replaces the active area's lines, leaves every other area and the cursor as they were |
| Navigation.InputRecord | src/main.rs:739-741 | after an edit, the record differs from the previous projection only in the active area's field, which becomes the new lines joined |
| Navigation.StepConsistent | src/main.rs:662-741 | every pass keeps the record equal to the projection of the lines or to the empty record; after an edit it is the projection |
| Navigation.Run | src/main.rs:643-742 | a run of keys keeps the cursor on the form; a form closed by Esc leaves fewer keys than it was given, and a form never closed uses them all |
| Navigation.Pass | src/main.rs:659-742 | the same for the run from the pass that reads the first key, which after F6 runs the new form (src/main.rs:719) before going on with the committing one |
| Navigation.RunConsistent | src/main.rs:643-742 | a run keeps the record equal to the projection of the lines or empty |
| Navigation.FreshBounds | src/main.rs:640-738 | from a new form the page stays within 0..8 and the area within 0..3, whatever the keys |
| Navigation.RunSends | src/main.rs:660-719 | the messages a form and the forms its commits open send are the F6 presses read before the Esc that closes it, counting each Esc against the innermost open form; from the outermost form, every F6 before its closing Esc sends one message |
| Navigation.SendsOnSend | src/main.rs:711-719 | the same count for a run whose first key is F6 |
| Navigation.SendsCount | src/main.rs:711-719 | the count after F6 is one, plus the new form's count, plus the resumed form's count |
| Navigation.SendAfterInput | src/main.rs:662-741 | F6 right after an edit sends the projection of every area's current lines |
| Navigation.SendTwice | src/main.rs:640-719 | F6 twice sends the stored record, then the empty record of the new form that reads the second F6, and leaves a further new form open |
| Navigation.SendThenClose | src/main.rs:711-719 | F6 then Esc sends the record and comes back to the committing form with its lines kept and its record empty |
| Navigation.ResumeSendsEmpty | src/main.rs:660-719 | F6, Esc, F6, Esc, Esc sends the record and then the empty record, and closes the form |
| View.Frame | src/main.rs:284-298 | a frame draws four areas, and exactly the one under the cursor as active |
| View.ActiveRed | src/main.rs:284-298 | the active area always shows its plain title; it is red iff one of its lines is over 72 characters, and red iff it also shows the title with the over-length note |
| View.OverLengthInputShowsRed | src/main.rs:433-440 | an edit that leaves a line over 72 characters in the active area turns it red, with the plain title and the title with the over-length note |
| View.FooterFollowsPage | src/main.rs:227-259 | the label under the page shows the digit of the page's one-based position after `page ` |

## Left out

- Terminal drawing is left out: the layout of `render_commit`, the styling in `inactivate` and `update`, the helper lines under each area, and `ratatui::init`/`restore`. `View` keeps only which area is active, its colour and title, and the page label.
- Reading key events through `crossterm` is left out. Events are an abstract datatype, and a failed read or non-key event is `NotAKey`.
- The text area's own editing (`TextArea::input`) is left out. `Input` carries the lines the active area holds after the key.
- Running `git commit` is left out. The message is the record returned by `Navigation.Step`, and `Template.Render` gives its text. The source ignores git's exit status, so nothing depends on it.
- The panics are left out. `git commit` is started with `.spawn().expect("git not founded")` (src/main.rs:714-715), which panics when git cannot be started. The model assumes git starts.
- The `assert!` that waiting for git succeeds (src/main.rs:707-717) is left out. It panics when the wait fails, and the model assumes the wait succeeds.
- The `assert!` that drawing the frame succeeds (src/main.rs:646-656) is left out, because drawing is not modelled.
- The `dojo` loop, `main`, `App` and the `Serialize` derive are left out.
- The orange colour is the enum value `Orange`; the source draws it as RGB 255, 165, 0.
- Strings.ReplaceAll models the empty-pattern case of `str::replace`, but no call in the source uses an empty pattern, so no lemma covers it.
- Schema.PageLabel builds the nine labels from one pattern and a list of page names. The nine literal strings of `Display` are not compared character by character in a proof.
- Template.RenderFills: requires that no field value holds a `%`, which is stronger than "no value holds a placeholder". The statement under the weaker condition is Template.RenderClean.
- Navigation.Step: the source's F7 branch also calls `update` to restyle the page. That call only sets styles, and every frame redraws them, so it is not modelled.
