# Panelcode in Dafny

Panelcode is a small notation for comic page layouts. A document lists
galleries (separated by `@`), each gallery spreads (`;`), each spread
layouts (`|`), each layout panelgroups (`_`). A panelgroup is a list of
units joined by `+` (next column) and `,` (next row). A unit is a panel
count with attributes, such as `2c2` or `r2`. Every level can carry an
option block (`{+ }`, `{: }`, `{:: }`, `{::: }`, `{:::: }`) of attribute
words, letter+digits words and `key=value` expressions. The repository
parses the notation with pyparsing and renders the tree as nested HTML5
divs for a CSS3 grid. It derives each panelgroup's column count and
numbers the panels of each layout: blanks show `*`, and a `u<N>` panel
covers N numbers. Around this sit comment strippers, a text formatter, a
Markov sample generator and a batch task queue.

The model is split into these modules:

- `Grammar` (grammar.dfy): the grammar of parser.py, as a deterministic
  recursive-descent parser over positions. A pyparsing `^` choice is the
  longest match, and the first alternative on a tie.
- `GrammarLaws`: what the grammar guarantees about the trees it builds.
- `GrammarShift`: every grammar element looks only forward, so reading a
  suffix of a text gives the same tree, shifted.
- `Spelling`: the spelling laws of the grammar. Blanks around a separator
  or before the code change nothing, a dot before an attribute word is
  dropped, and a `(` before a term list is dropped.
- `ParseExamples`: whole texts of tests.py parsed to their trees, and the
  `1+2` ≡ `3` equality from text to HTML.
- `Options`: `opts_load` and `opts_render`.
- `Grid`: the panelgroup code that both renderers share:
  - rows;
  - the width search and the derived width;
  - the panelgroup class;
  - the `u` markers;
  - the panel emission.
- `Numbering`: what the emitted panels promise:
  - counts;
  - blanks;
  - spans;
  - numbers running 1, 2, 3, ... without gaps.
- `GridRender`: the document walk of render.py.
- `Decorations` and `GalleryRender`: the document walk of
  panelcode/render.py. This adds image blocks, the `url` anchor, labels,
  the gallery image path and the layout counter.
- `Counts`: `pobj_counts`, and the number of divs a render opens at each
  level.
- `Comments`: the regular-expression comment stripper of
  panelcode/render.py.
- `Format`: the text utilities of panelcode/format.py.
- `Markov`: the transition table of `PanelcodeGenerator`.
- `Preparse`: the line decommenter of preparse.py and utils.py.
- `Batch` and `Batcher`: the two task-queue classes. Each is a Dafny class
  whose fields the methods update.
- `Laws` and `LevelLaws`: the rendering equalities and inequalities that
  tests.py states, proved on parse trees.
- `Text` and `Wrappers`: the Python string built-ins and Option/Result.

The HTML is modelled as a list of line records: open div (kind and
class), close div, panel (class and mark), caption, anchor, and raw text.
The text of each line is a fixed template around the record's fields.
Exceptions the renderer lets escape (`ValueError`, `IndexError`,
`TypeError`) are `Err` results.

Facts of the code that the model keeps:

- The width search scans the option levels from the least specific one
  (the document) down to the panelgroup, and the first `w...` word wins
  (render.py:110-116, panelcode/render.py:439-447).
- An option word that starts with `w` but is not `w` plus an integer
  (for example the attribute word `wide`) raises `ValueError` in
  `int(opt[1:])`. A `w0` word counts as absent, because the loop goes on
  while the width is 0.
- The derived width is the plain maximum of the row lengths. It is 0 when
  every unit has count `00`.
- A panel is blank when its joined argument text contains the letter `x`
  or `z` anywhere. For example, an attribute `box` makes a blank. It is a
  `u` panel when that text contains `u` anywhere.
- The bare-unit alternative of `panelgroup` and `groupunit` never wins in
  pyparsing's longest-match choice, so every panelgroup keeps a term list
  and `r2` is the unit `['', 'r2']` (GrammarLaws.GroupUnitShape,
  GrammarLaws.PanelGroupHasTerms).

## Model

| member | source | states |
|---|---|---|
| Grammar.Skip | parser.py:13-20 | every token starts after a maximal run of blanks: the position reached is at the end or at a non-blank |
| Grammar.TermAt | parser.py:13 | a term is a letter followed by letters, digits and hyphens, taken maximally; it fails exactly when the next non-blank is not a letter |
| Grammar.LitAt | parser.py:22-27 | a literal matches exactly when its characters follow the skipped blanks |
| Grammar.KvWordAt | parser.py:18 | a kv_word is a group of a letter run and a (possibly empty) digit run |
| Grammar.KvExprAt | parser.py:17 | a kv_expr is a group of a key and exactly one value |
| Grammar.Longest | parser.py:20 | the `^` choice returns one of its alternatives, fails only when both fail, and reaches at least as far as each that matched |
| Grammar.OptionalBlock | parser.py:29-43 | an absent option block consumes nothing |
| Grammar.SeparatorAt | parser.py:48-50 | a separator is `+` (next column) or `,` (next row) |
| Grammar.LayoutAt | parser.py:58-59 | a layout never reads past the text and always holds at least one panelgroup (`delimitedList`) |
| Grammar.SpreadAt | parser.py:60-61 | a spread never reads past the text and always holds at least one layout |
| Grammar.GalleryAt | parser.py:62-63 | a gallery never reads past the text and always holds at least one spread |
| Grammar.DocumentAt | parser.py:64-65 | a document never reads past the text and always holds at least one gallery |
| Grammar.Parse | parser.py:67-77 | with tabs expanded to 8 columns, parsing succeeds exactly when the document read from the start leaves only blanks (`parseAll=True`); a parse error's position is a non-blank character of the code |
| Grammar.ExpandTabsNoTabs | parser.py:67-77 | text without tabs is unchanged by tab expansion |
| GrammarLaws.GroupUnitShape | parser.py:51 | a unit is always read as a digit count followed by letter-initial attribute words; the bare attr_word alternative never wins |
| GrammarLaws.PanelGroupHasTerms | parser.py:53-54 | every panelgroup is read by the groupterms alternative and keeps its term list |
| GrammarLaws.UnitAtParen | parser.py:51-54 | at `(` a unit consumes nothing, leaving the parenthesis to groupterms |
| GrammarLaws.WordsStartWithLetters | parser.py:19-20 | every attribute word of a unit starts with a letter |
| GrammarLaws.GroupBlockLeavesUpper | parser.py:22 | a panelgroup block `{` never opens on the brace of a layout, spread, gallery or document block |
| GrammarLaws.LayoutBlockLeavesUpper | parser.py:23 | a layout block never opens on the brace of a spread, gallery or document block |
| GrammarLaws.SpreadBlockLeavesUpper | parser.py:24 | a spread block never opens on the brace of a gallery or document block |
| GrammarLaws.GalleryBlockLeavesUpper | parser.py:25 | a gallery block never opens on the brace of a document block |
| GrammarLaws.BlockAbsent | parser.py:29-43 | when neither opener matches, the option block is absent and consumes nothing |
| GrammarShift.DocumentShift | parser.py:13-65 | a document read inside a text, at a position past a prefix, is the document read from the suffix, ending as many positions later |
| Spelling.SkipBlanks | parser.py:13-20 | blanks before a text only move the first token further on |
| Spelling.UnitAfterBlanks | parser.py:51 | a unit read before or after leading blanks is the same |
| Spelling.GroupTermsAfterBlanks | parser.py:52 | a term list read before or after leading blanks is the same |
| Spelling.PanelGroupAfterBlanks | parser.py:53-54 | a panelgroup read before or after leading blanks is the same |
| Spelling.LayoutAfterBlanks | parser.py:58-59 | a layout read before or after leading blanks is the same |
| Spelling.SpreadAfterBlanks | parser.py:60-61 | a spread read before or after leading blanks is the same |
| Spelling.GalleryAfterBlanks | parser.py:62-63 | a gallery read before or after leading blanks is the same |
| Spelling.DocumentAfterBlanks | parser.py:64-65 | a document read before or after leading blanks is the same |
| Spelling.TermsBlanks | parser.py:50-52 | blanks on either side of a `+` or `,` leave the rest of the term list unchanged and only move its end (tests.py:202-230) |
| Spelling.GroupsBlanks | parser.py:58 | blanks on either side of `_` leave the rest of the layout's panelgroups unchanged |
| Spelling.LayoutsBlanks | parser.py:60 | blanks on either side of the layout separator (a vertical bar) leave the rest of the spread's layouts unchanged |
| Spelling.SpreadsBlanks | parser.py:62 | blanks on either side of `;` leave the rest of the gallery's spreads unchanged |
| Spelling.GalleriesBlanks | parser.py:64 | blanks on either side of `@` leave the rest of the document's galleries unchanged |
| Spelling.ExpandBlanks | parser.py:67-77 | tab expansion of leading blanks followed by tab-free code turns the blanks into blanks and keeps the code |
| Spelling.LeadingBlanks | parser.py:67-77 | blanks before tab-free code do not change whether it parses or what it parses to (tests.py:218, 204) |
| Spelling.DotBeforeAttribute | parser.py:19-51 | a `.` between a count and a letter-initial attribute word is dropped: `n.x` reads as the unit of `nx` (tests.py:172-180) |
| Spelling.ParenthesisBeforeTerms | parser.py:52-54 | a `(` before the term list of a panelgroup is dropped: `(x` reads as the panelgroup of `x` (tests.py:182-191) |
| ParseExamples.TermsGroup | parser.py:53-54 | a term list that ends the text is a panelgroup with no option block |
| ParseExamples.OneGroupLayout | parser.py:58-59 | a panelgroup that ends the text is a layout of one panelgroup |
| ParseExamples.OneLayoutSpread | parser.py:60-61 | a layout that ends the text is a spread of one layout |
| ParseExamples.OneSpreadGallery | parser.py:62-63 | a spread that ends the text is a gallery of one spread |
| ParseExamples.OneGalleryDocument | parser.py:64-65 | a gallery that ends the text is a document of one gallery |
| ParseExamples.SingleGroupParse | parser.py:53-77 | tab-free code that is one panelgroup parses to the document of that panelgroup alone |
| ParseExamples.CountUnit | parser.py:47-51 | a digit run not followed by an attribute word is a unit with that count and no attributes |
| ParseExamples.CountText | parser.py:47-77 | a text that is one digit run between blanks parses to the single unit of that count |
| ParseExamples.SumTermsOf | parser.py:50-52 | two digit runs joined by `+` are read as unit, next column, unit |
| ParseExamples.SumText | parser.py:47-77 | a text `a+b` of two digit runs, with any blanks around them, parses to the single panelgroup `a`, next column, `b` |
| ParseExamples.ParseThree | tests.py:94 | `3` parses to the panelgroup of the one unit 3 |
| ParseExamples.ParseSum | tests.py:94 | `1+2` parses to the panelgroup of units 1 and 2 in one row |
| ParseExamples.SumParsesAlike | tests.py:92-94 | `1+2` and `3` both parse, and their documents render to the same HTML |
| ParseExamples.ParseSpacedSum | tests.py:217-229 | ` 1 + 2 ` parses to the same tree as `1+2` |
| ParseExamples.ParseBrokenSum | tests.py:202-215 | `1\n+\n2` parses to the same tree as `1+2` |
| Options.OptsLoad | render.py:4-21 | the loop sorts the tokens into attribute words, letter+digits words and a key=value dictionary, equal to the reference partition |
| Options.OptsLoadPartition | panelcode/render.py:287-308 | every token lands in exactly one of the three outputs |
| Options.OptsLoadAppend | panelcode/render.py:287-308 | loading is compositional: the words of a + b are the words of a then of b |
| Options.BareTokensAreAttrWords | panelcode/render.py:293-294 | a block of bare words loads as exactly those attribute words |
| Options.KvWordShape | panelcode/render.py:299-304 | every letter+digits word is a letter followed by digits |
| Options.KvExprsUniqueKeys | panelcode/render.py:305-306 | the key=value dictionary holds each key once |
| Options.KvExprsLastWriteWins | panelcode/render.py:305-306 | a key maps to v exactly when the last expression for that key in the block writes v |
| Options.Put | panelcode/render.py:306 | a dictionary store sets one key and leaves every other key's lookup unchanged |
| Options.OptsRender | render.py:24-37 | the rendered class list is the reference rendering of the selected parts |
| Options.KvExprInvisibleByDefault | panelcode/render.py:311-324 | by default a key=value expression adds nothing to the class list |
| Options.RenderDefaultSplits | panelcode/render.py:311-324 | the default class list splits on spaces back into the attribute words followed by the letter+digits words |
| Grid.BuildRows | render.py:76-99 | the loop builds exactly the reference rows of the term list |
| Grid.RowCount | render.py:79-84 | a panelgroup has one row more than it has `,` separators |
| Grid.RowsFlatten | render.py:79-99 | the rows, concatenated, are the units in order with `+` and `,` dropped, empty counts read as `1` and a `0` unit as a `1` unit marked `x` |
| Grid.FirstW | render.py:113-116 | the first `w` word of one option level, or none exactly when the level has none |
| Grid.FindWidth | render.py:110-116 | the loop computes the reference width search: levels from least to most specific, `w0` skipped, a non-integer suffix an error |
| Grid.MaxOrIsMax | render.py:149 | the maximum row length bounds every row and is reached by one |
| Grid.RowLength | render.py:125-147 | a row's length is the sum of count times column span; it fails with ValueError exactly when a count is not an integer |
| Grid.DeriveWidth | render.py:117-149 | the loop computes the reference derived width |
| Grid.AddMarkers | render.py:156-167 | the loop adds the reference `u` markers |
| Grid.EmitUnit | render.py:168-206 | the loop emits the reference panels of one unit and returns the advanced counters |
| Grid.EmitCell | render.py:155-206 | one unit renders as the reference panels of its count and kind |
| Grid.EmitRow | render.py:153-206 | the loop over a row emits the reference panels of its units |
| Grid.EmitRows | render.py:153-206 | the loop over all rows emits the panels of the flattened rows |
| Grid.EmitCellsAppend | render.py:153-206 | emitting a + b is emitting a, then b from the counters a left |
| Grid.RenderPanelGroup | render.py:74-208 | it builds the whole panelgroup: its class with the width added, the panels, the closing div |
| Numbering.KindOfValid | render.py:172-203 | every unit's kind is well formed: blank, regular, or a span whose largest `u<N>` is not negative |
| Numbering.EmitPanelsLength | render.py:170 | a unit with count n yields exactly n panels |
| Numbering.EmitPanelsClass | render.py:171 | every panel of a unit carries the unit's stripped argument text as its class |
| Numbering.EmitPanelsCount | render.py:170-206 | the panels of a unit cover n panel positions |
| Numbering.BlankPanels | render.py:172-177 | blank panels (`x` or `z`, or `u0`) show `*` and advance both the counter and the skip count, so they take no number |
| Numbering.RegularPanels | render.py:203-206 | regular panels show the numbers after the current one, 1 apart |
| Numbering.RangedPanels | render.py:193-199 | a `u<N>` panel with N > 1 shows the range `a-b` of N numbers and advances the counter by N |
| Numbering.StepNumbers | render.py:172-206 | one panel's numbers continue exactly from the counters it was given |
| Numbering.EmitPanelsNumbers | render.py:170-206 | a unit's panel numbers continue the sequence without gap or repeat |
| Numbering.EmitCellsOk | render.py:169 | a row renders exactly when every count is an integer; otherwise the error is ValueError |
| Numbering.EmitCellsCount | render.py:153-206 | a panelgroup yields as many panels as the counts of its units add up to |
| Numbering.EmitCellsNumbers | render.py:153-206 | the numbers of all the panels of a sequence of units continue without gap or repeat |
| Numbering.PanelGroupBody | render.py:150-208 | a rendered panelgroup is its opening div, the panels of its units, and its closing div |
| Numbering.PanelGroupCount | render.py:150-208 | a rendered panelgroup holds exactly the summed count of panels |
| Numbering.PanelGroupNumbers | render.py:150-208 | the numbers of a rendered panelgroup continue the given counters |
| Numbering.UAddOneCases | render.py:159-163 | bare `u` adds `u1`, `u<digits>` adds `u`, anything else adds nothing |
| Numbering.UAddBare | render.py:160-161 | `u1` is added exactly when the unit has a bare `u` |
| Numbering.UAddRanged | render.py:162-163 | `u` is added exactly when the unit has a `u<digits>` word |
| Numbering.NoMarkers | render.py:156-167 | a unit without `u` words gets no markers |
| Numbering.ZeroUnitIsBlank | render.py:91-95 | a `0` unit renders as one blank `*` panel that takes no number |
| Numbering.ZeroUnitKind | render.py:91-95 | the `x` added to a `0` unit makes it blank |
| Numbering.PlainUnitIsRegular | render.py:203-206 | a unit without `x`, `z` or `u` renders as regular numbered panels |
| Numbering.PanelCountAppend | render.py:153-206 | panel counts add over concatenation |
| Numbering.NumbersAppend | render.py:153-206 | the numbers shown add over concatenation |
| Numbering.RangeAppend | render.py:172-206 | consecutive number ranges join into one |
| GridRender.RenderGroups | render.py:74-208 | the loop renders the reference lines of a layout's panelgroups |
| GridRender.RenderLayout | render.py:57-209 | a layout is its div, its optional caption and its panelgroups, with the counters reset to zero |
| GridRender.RenderLayouts | render.py:57-209 | the loop renders the reference lines of a spread's layouts |
| GridRender.RenderSpread | render.py:52-210 | a spread is its div around its layouts |
| GridRender.RenderSpreads | render.py:52-210 | the loop renders the reference lines of a gallery's spreads |
| GridRender.RenderGallery | render.py:47-211 | a gallery is its div around its spreads |
| GridRender.RenderDocument | render.py:40-213 | the whole render is the reference rendering of the document; an exception in any panelgroup stops it |
| GridRender.LayoutNumbering | render.py:57-59 | the panel numbers of every rendered layout are exactly 1, 2, ..., n |
| GridRender.GroupsNumbers | render.py:74-208 | the numbers of a layout's panelgroups continue from panelgroup to panelgroup |
| GridRender.CaptionShape | render.py:63-73 | the layout label emits only caption lines |
| GridRender.PanelGroupDivs | render.py:150-208 | a rendered panelgroup opens exactly one div, a panelgroup div |
| GridRender.GroupsDivs | render.py:74-208 | a layout's panelgroups open one panelgroup div each |
| GridRender.LayoutDivs | render.py:57-209 | a rendered layout opens and closes as many divs of each level as pobj_counts counts for it |
| GridRender.LayoutsDivs | render.py:57-209 | the same for a spread's layouts |
| GridRender.SpreadDivs | render.py:52-210 | the same for one spread |
| GridRender.SpreadsDivs | render.py:52-210 | the same for a gallery's spreads |
| GridRender.GalleryDivs | render.py:47-211 | the same for one gallery |
| GridRender.GalleriesDivs | render.py:47-211 | the same for a document's galleries |
| GridRender.DocumentDivs | render.py:40-213 | a rendered document opens and closes as many gallery, spread, layout and panelgroup divs as pobj_counts counts |
| Counts.CountLayouts | panelcode/render.py:340-342 | the loop counts a spread's panelgroups |
| Counts.CountSpreads | panelcode/render.py:337-342 | the loop counts a gallery's layouts and panelgroups |
| Counts.PobjCounts | panelcode/render.py:327-343 | the counts are the reference statistics of the document |
| Counts.LayoutsStatsShape | panelcode/render.py:340-342 | a list of layouts counts no galleries or spreads, and one layout per entry |
| Counts.SpreadsStatsShape | panelcode/render.py:337-342 | a list of spreads counts no galleries and one spread per entry |
| Counts.GalleriesStatsShape | panelcode/render.py:334-342 | a list of galleries counts one gallery per entry |
| Counts.DivsAppend | panelcode/render.py:353-585 | divs opened add over concatenated output |
| Counts.WrapLevel | panelcode/render.py:353-585 | wrapping output in a div of one level adds exactly one div of that level |
| Decorations.ImgPaths | panelcode/render.py:259 | an `img` value is split on `:` into one path per part |
| Decorations.ImgPathsClean | panelcode/render.py:259 | there is at least one image path, none holds `:`, and each is stripped |
| Decorations.ScanImgLabel | panelcode/render.py:260-268 | the loop finds the reference image label |
| Decorations.ImgLabelPrecedence | panelcode/render.py:260-268 | an `ilabel` value wins; without it and without `autoilabel` there is no image label |
| Decorations.BuildImgTags | panelcode/render.py:269-271 | the loop builds the reference image tags, one per path |
| Decorations.ImgTagsAppend | panelcode/render.py:269-271 | image tags add over concatenated paths |
| Decorations.ScanBeforeAfter | panelcode/render.py:272-280 | the image block goes before the layout exactly when some level mentions `ibefore`, after it exactly when some level mentions `iafter` |
| Decorations.ImgRender | panelcode/render.py:252-284 | img_render returns the reference before, layer and after blocks |
| Decorations.NoImgNoBlocks | panelcode/render.py:258-284 | without `img` all three blocks are empty |
| Decorations.LayerUnlessBeforeAfter | panelcode/render.py:272-283 | with `img`, the image is layered inside the layout exactly when no level asks for `ibefore` or `iafter` |
| Decorations.ImgPathOf | panelcode/render.py:363-370 | the image path is the gallery's `imgpath`, else the global one, else empty |
| Decorations.AnchorHref | panelcode/render.py:395-399 | a `url` without `http` gets `http://` prepended; one with it is used as it is |
| Decorations.RenderLabel | panelcode/render.py:557-577 | the loop builds the reference layout caption |
| Decorations.CaptionPresence | panelcode/render.py:557-577 | at most one caption: there is one exactly when the layout has `label` or some level mentions `autolabel` |
| Decorations.Update | panelcode/render.py:238-240 | a dictionary update keeps keys unique |
| Decorations.UpdateLookup | panelcode/render.py:238-240 | after an update a key maps to the new value if the update has it, else to the old one |
| Decorations.Merged | panelcode/render.py:233-241 | the merged dictionary holds each key once |
| Decorations.MergedLookup | panelcode/render.py:233-241 | a key of the merge maps to its value in the last dictionary that has it |
| Decorations.MergeDicts | panelcode/render.py:233-241 | the loop computes the reference merge |
| Comments.Decomment | panelcode/render.py:192-204 | comment removal never lengthens the text |
| Comments.NoSlashUnchanged | panelcode/render.py:202 | text without `/` holds no comment and is unchanged |
| Comments.LineCommentRemoved | panelcode/render.py:202 | a `//` comment is deleted up to, not including, its newline |
| Comments.LineCommentAtEnd | panelcode/render.py:202 | a `//` comment on the last line is deleted to the end |
| Comments.BlockCommentRemoved | panelcode/render.py:202 | a `/* */` comment whose body holds no `*/` is deleted, closing marker included, and the text after it is read on |
| Comments.UnclosedBlockKept | panelcode/render.py:202 | a block-comment opener without a closer is no comment: its slash is kept and the text is read on |
| Comments.EscapeSkipped | panelcode/render.py:202 | inside a quoted string a backslash pair (`\\.`) is stepped over whole whenever the string still closes after it |
| Comments.QuoteEndEscaped | panelcode/render.py:202 | a body of plain characters and backslash pairs followed by the quote ends exactly at that quote: an escaped quote never closes the string |
| Comments.QuotedKept | panelcode/render.py:202 | a double- or single-quoted string with any backslash escapes is copied verbatim, comment markers and all, and the text after it is decommented |
| Comments.EscapedQuote | panelcode/render.py:202 | `"a\"//b"` is kept whole: the escaped quote does not end it, so its `//` survives |
| Comments.PlainPrefix | panelcode/render.py:202 | characters other than `/` and quotes are copied as they are |
| GalleryRender.RenderLayout | panelcode/render.py:380-581 | a layout is its image blocks, its optional anchor, its div with the panelgroups, the image layer and the label |
| GalleryRender.RenderLayouts | panelcode/render.py:379-581 | the loop renders the reference layouts and advances the layout counter once per layout |
| GalleryRender.RenderSpread | panelcode/render.py:375-582 | a spread is its div around its layouts, and the counter advances by its layout count |
| GalleryRender.RenderSpreads | panelcode/render.py:374-582 | the loop renders the reference spreads; the counter ends at the number of layouts in the gallery |
| GalleryRender.RenderGallery | panelcode/render.py:361-583 | a gallery is its div, with the global and gallery classes, around its spreads, with the counter starting at 0 |
| GalleryRender.PobjToHtml | panelcode/render.py:353-585 | the whole render is the reference rendering of the document |
| GalleryLaws.LayoutHtmlNumbering | panelcode/render.py:382-383 | the panel numbers of every decorated layout are exactly 1, 2, ..., n |
| GalleryLaws.LayoutHtmlDivs | panelcode/render.py:380-581 | a decorated layout opens as many divs of each level as pobj_counts counts for it |
| GalleryLaws.DocumentHtmlDivs | panelcode/render.py:353-585 | the decorated render opens and closes as many divs of each level as pobj_counts counts |
| GalleryLaws.LayoutHtmlAnchors | panelcode/render.py:395-399 | a layout opens one link exactly when it has a `url`, and closes it once |
| GalleryLaws.DocumentHtmlAnchors | panelcode/render.py:353-585 | the render opens and closes as many links as the document has layouts with `url` |
| GalleryLaws.LayoutNumberAt | panelcode/render.py:374-381 | the layout at position k of a gallery's layouts, across spreads, is rendered with counter k + 1 |
| GalleryLaws.SpreadStartAt | panelcode/render.py:374-381 | a spread's layouts are numbered from the number of layouts before it in its gallery |
| GalleryLaws.LayoutLabelNumber | panelcode/render.py:562-568 | with `autolabel` and neither `label` nor `img`, the layout's caption is its number in the gallery |
| GalleryLaws.CatAssoc | panelcode/render.py:353-585 | joining rendered parts is associative |
| Format.DelimStrip | panelcode/format.py:45-57 | the loop cuts every line at the first occurrence of each delimiter in turn |
| Format.Decomment | panelcode/format.py:42-62 | the loop computes the reference decommented text, `#` and `//` by default |
| Format.DecommentLines | panelcode/format.py:42-62 | decommenting keeps the number of lines, makes each line a prefix of the original, and removes every non-empty delimiter |
| Format.DecommentDefault | panelcode/format.py:58-59 | by default no line keeps a `#` or `//` |
| Format.StripDelimsClean | panelcode/format.py:51-54 | a cut line is a prefix of the original and holds no delimiter |
| Format.NonBlank | panelcode/format.py:346-349 | the kept lines are original lines that are not blank |
| Format.NonBlankKeeps | panelcode/format.py:346-349 | every non-blank line is kept |
| Format.TightLinesShape | panelcode/format.py:346-349 | tight_lines leaves exactly the non-blank lines in order, or nothing |
| Format.TightLinesIdempotent | panelcode/format.py:346-349 | tight_lines applied twice is tight_lines applied once |
| Format.RemoveSpaceFilter | panelcode/format.py:342-344 | remove_space with the default replacement deletes every whitespace character and keeps the rest |
| Format.RemoveSpaceNoSpace | panelcode/format.py:342-344 | with a space-free replacement the result holds no whitespace |
| Format.NonSpaceAppend | panelcode/format.py:342-344 | the whitespace filter distributes over concatenation |
| Format.Wrap | panelcode/format.py:351-365 | the loop pads each token once with the wrapper (corrected form, see Findings); a list wrapper shorter than two is an error |
| Format.WrapOneToken | panelcode/format.py:362-364 | padding one token replaces every occurrence of it, which split/join expresses exactly |
| Format.WrapAbsent | panelcode/format.py:351-365 | text holding none of the tokens is unchanged |
| Format.ReplaceSplit | panelcode/format.py:364 | str.replace is joining the pieces of a split with the replacement |
| Format.SplitStrJoin | panelcode/format.py:364 | joining the pieces of a split with the pattern gives back the text |
| Format.WrapStringTwice | panelcode/format.py:360-364 | as written, a string token is padded twice: `@` becomes `  @  ` where the list form gives ` @ ` |
| Format.WrapOnceString | panelcode/format.py:351-365 | in the corrected form a string token and the one-token list agree with the as-written list form |
| Format.AlignColumnZero | panelcode/format.py:313-316 | as written, at column 0 the line `ab#c` becomes `ab# #c`: the line changes beyond whitespace |
| Format.AlignLineAgrees | panelcode/format.py:306-317 | for columns of at least 1 the corrected align_line is the original |
| Format.AlignLineSkip | panelcode/format.py:308-310 | a line whose delimiter has only whitespace before it is left alone when skipping full-line comments |
| Format.AlignLineColumn | panelcode/format.py:306-317 | when a line changes, its delimiter ends up at the target column |
| Format.AlignLineOnlySpace | panelcode/format.py:306-317 | the corrected align_line (AlignLine) changes only whitespace |
| Format.AlignLineNoBreak | panelcode/format.py:306-317 | aligning adds no line break |
| Format.ComputeAutoDist | panelcode/format.py:320-328 | the loop computes the reference automatic column |
| Format.AutoDistBounds | panelcode/format.py:320-328 | the automatic column is at most the cap and at least every line's capped delimiter column |
| Format.AlignLines | panelcode/format.py:329-332 | (corrected form, see Findings) the loop aligns every line for one delimiter with the corrected align_line, which is the original for columns of at least 1 (Format.AlignLineAgrees) |
| Format.Align | panelcode/format.py:289-333 | (corrected form, see Findings) the loop computes the reference alignment for all delimiters, built on the corrected align_line |
| Format.AlignShape | panelcode/format.py:289-333 | (corrected form, see Findings) aligning keeps the number of lines and changes each line only in whitespace; as written this fails at column 0 (Format.AlignColumnZero) |
| Format.AlignAllUntouched | panelcode/format.py:329-332 | a line with none of the delimiters is unchanged |
| Format.FormatStyleByName | panelcode/format.py:226-238 | a mode name selects its own style |
| Format.FormatFallback | panelcode/format.py:226-238 | an unknown or empty mode falls back to flatten (the formatter's own mode when empty) |
| Markov.Transitions | panelcode/format.py:140-153 | one transition per word plus the end marker |
| Markov.PanelcodeGenerator.constructor | panelcode/format.py:69-74 | the generator stores its sample, word cap and crop flag, with no table yet |
| Markov.PanelcodeGenerator.MarkovTable | panelcode/format.py:140-153 | the loop stores the reference table of the decommented sample's words and changes nothing else |
| Markov.GroupValues | panelcode/format.py:148-149 | a key is in the table exactly when some transition has it, and its list is those words in order |
| Markov.TableTotal | panelcode/format.py:147-151 | the table holds one entry per word plus the end marker |
| Markov.TableStart | panelcode/format.py:144-149 | the pair of non-words leads to the first word, or to the end marker for an empty sample |
| Markov.TableFiles | panelcode/format.py:147-149 | every word is filed under the pair of words before it |
| Markov.TableEnd | panelcode/format.py:150-151 | only the last transition writes the end marker |
| Preparse.DecommentLine | preparse.py:9-10 | a decommented line holds no delimiter and is stripped; it is empty exactly when the text before the delimiter is blank |
| Preparse.Decomment | preparse.py:6-14 | an empty delimiter fails exactly when there is a line to split; otherwise there is one output line per input line |
| Preparse.DecommentEntries | utils.py:28-35 | entry i of the output is line i cut at the delimiter and stripped |
| Preparse.DecommentClean | preparse.py:6-14 | every output line is stripped and holds no delimiter |
| Preparse.DecommentBlank | preparse.py:9-14 | a line that is blank before the delimiter becomes an empty line and is not dropped |
| Preparse.DecommentAppend | preparse.py:6-14 | decommenting works line by line over concatenation |
| Batch.BatchProcess.constructor | batch.py:9-19 | a new queue has no sources, tasks or errors and the default template |
| Batch.BatchProcess.AddTreeFiles | batch.py:21-26 | the tree's `.txt` files join the source files that are not there yet; nothing else changes |
| Batch.BatchProcess.Clear | batch.py:28-35 | sources, tasks and errors are emptied; the template is kept |
| Batch.BatchProcess.ClearErrors | batch.py:37-38 | only the errors are emptied |
| Batch.BatchProcess.ClearSources | batch.py:40-44 | only the three source sets are emptied |
| Batch.BatchProcess.ClearTasks | batch.py:46-48 | only the tasks are emptied |
| Batch.BatchProcess.GetErrors | batch.py:50-54 | one error line per error, in order |
| Batch.DefaultTemplate | batch.py:56-62 | the default template path is joined without a separator |
| Batch.ListTreeFiles | batch.py:64-74 | the loop lists the reference tree files |
| Batch.WalkFilesSpec | batch.py:64-74 | every listed file has the extension, and every walked file with it is listed |
| Batch.BatchProcess.Next | batch.py:76-82 | with no task there is nothing to do; otherwise the first task is taken off the queue and handed out |
| Batch.BatchProcess.Queue | batch.py:84-87 | the errors are cleared and the tasks become the source listing |
| Batch.BatchProcess.Sources | batch.py:89-95 | the sources are the files, folders and trees together |
| Batch.BatchProcess.SourceListing | batch.py:97-111 | the loops list the reference files of all sources |
| Batch.ListedShape | batch.py:97-111 | the listing is the distinct files, then each folder's entries, then each tree's files |
| Batch.EndsFilter | batch.py:109-110 | the extension filter keeps only items with the extension |
| Batch.EndsFilterKeeps | batch.py:109-110 | every item with the extension is kept |
| Batch.AppendEach | batch.py:103-108 | the inner loops append every listed name after what is already there, in order |
| Batch.FilterEnds | batch.py:109-110 | the comprehension keeps, in order, exactly the items that end with the extension |
| Batch.AddNewSpec | batch.py:21-26 | adding files keeps the old ones first, keeps them distinct, and holds exactly old and new |
| Batch.BatchProcess.TaskNames | batch.py:113-115 | one name per task: its base name, which it ends with |
| Batcher.BatchProcess.constructor | panelcode/libs/batcher/batch.py:11-23 | a new queue has no sources, tasks or errors, the extension list `.txt` and the default template |
| Batcher.BatchProcess.AddTreeFiles | panelcode/libs/batcher/batch.py:25-30 | every walked file joins the source files that are not there yet |
| Batcher.BatchProcess.Clear | panelcode/libs/batcher/batch.py:32-39 | sources, tasks and errors are emptied; extensions and template are kept |
| Batcher.BatchProcess.ClearErrors | panelcode/libs/batcher/batch.py:41-43 | only the errors are emptied |
| Batcher.BatchProcess.ClearSources | panelcode/libs/batcher/batch.py:45-49 | only the three source sets are emptied |
| Batcher.BatchProcess.ClearTasks | panelcode/libs/batcher/batch.py:51-53 | only the tasks are emptied |
| Batcher.BatchProcess.ExtFilterList | panelcode/libs/batcher/batch.py:55-62 | the loop computes the reference extension filter |
| Batcher.ExtFilterSpec | panelcode/libs/batcher/batch.py:55-62 | the filter keeps, in order, exactly the files ending in one of the extensions, or all files when the extension list is empty |
| Batcher.ExtStrAsList | panelcode/libs/batcher/batch.py:55-62 | a single extension string filters like a one-item list |
| Batcher.EndsWithOneOf | panelcode/libs/batcher/batch.py:61 | an item passes the tuple `endswith` exactly when it ends with one of the extensions |
| Batcher.BatchProcess.GetErrors | panelcode/libs/batcher/batch.py:64-70 | one error line per error, in order |
| Batcher.TemplatesDiffer | panelcode/libs/batcher/batch.py:72-79 | this template path has a `/` separator, unlike the top-level queue's |
| Batcher.ListAllSpec | panelcode/libs/batcher/batch.py:81-88 | every walked file is listed, whatever its extension |
| Batcher.BatchProcess.Next | panelcode/libs/batcher/batch.py:90-97 | with no task there is nothing to do; otherwise the first task is taken off the queue and handed out |
| Batcher.BatchProcess.Queue | panelcode/libs/batcher/batch.py:99-102 | the errors are cleared and the tasks become the filtered source listing |
| Batcher.BatchProcess.Sources | panelcode/libs/batcher/batch.py:104-110 | the sources are the files, folders and trees together |
| Batcher.BatchProcess.SourceListing | panelcode/libs/batcher/batch.py:112-124 | the loops list all sources and filter them by the extensions |
| Batcher.BatchProcess.TaskNames | panelcode/libs/batcher/batch.py:126-128 | one name per task: its base name, which it ends with |
| Laws.SumLaw | tests.py:92-101 | a row `a+b` of plain units renders like the single unit `a+b` after summing (`1+2` as `3`) |
| Laws.WrongSumShows | tests.py:102-103 | `a+b` never renders like a plain unit of any other count |
| Laws.CountShows | tests.py:102-103 | plain units of different counts render differently |
| Laws.CommutativeLaw | tests.py:129-140 | `a+b` renders like `b+a` |
| Laws.ZeroNotElided | tests.py:156-160 | `0+1` does not render like `1`: the zero unit is not an identity |
| Laws.ZeroOrderShows | tests.py:161-167 | `0+1` and `1+0` render differently: the blank's position shows |
| Laws.ElisionLaw | tests.py:172-174 | an empty count renders like the count `1` (`r2` as `1r2`) anywhere in a panelgroup |
| Laws.GroupsCongruence | tests.py:104-121 | panelgroups that render alike make layouts that render alike |
| Laws.LayoutsCongruence | tests.py:107-121 | the same up from layouts to spreads |
| Laws.SpreadsCongruence | tests.py:107-121 | the same up from spreads to galleries |
| Laws.GalleriesCongruence | tests.py:107-121 | the same up from galleries to the document |
| Laws.DocumentCongruence | tests.py:107-121 | documents whose galleries render alike render alike |
| Laws.SumInLayout | tests.py:104-106 | the document `1+2_3` renders exactly like `3_3` |
| LevelLaws.DocumentRenders | tests.py:193-200 | a document of plain panelgroups without options renders without error |
| LevelLaws.JoinedStats | tests.py:193-200 | two units joined at a level give the div counts of that level |
| LevelLaws.LevelInequality | tests.py:193-200 | two units joined by any two different separators among `+ , _ | ; @` render differently |
| LevelLaws.LevelNonCommutative | tests.py:142-151 | joined above the row level, `a X b` and `b X a` render differently when a and b differ |
| LevelLaws.RowCommutative | tests.py:134 | `a,b` renders like `b,a`: a panelgroup is as wide as its longest row |
| LevelLaws.JoinedFirstLine | tests.py:193-200 | the first panelgroup div of a joined pair carries the width of that level's join |

## Left out

- The formatter's `compact`, `flatten`, `indent`, `minify`, `tidy` and
  `join_opt_braces`, and its comment and option decorators
  (panelcode/format.py:172-288, 335-340, 155-161). They are built on
  regular-expression rewrites and textwrap. `FormatStyle` records only
  which of them `format` selects.
- `chain`, `comment_gen` and `markov_gen` (panelcode/format.py:76-138):
  they draw random numbers. Only the table they sample from is modelled.
- The file system: `os.walk` and `os.listdir` enter as a `Listing` value
  that the caller provides.
- Batch.BatchProcess.Next and Batcher.BatchProcess.Next: the processing
  callback is not called. The task is returned for the caller to run, and
  the callback's own errors are not modelled.
- Markov.PanelcodeGenerator.constructor: the defaults `maxwords=100` and
  `crop=True` of panelcode/format.py:69 are not modelled; the caller
  passes both values.
- Text.IsSpace: the six ASCII whitespace characters that Python 2's
  `str.strip()` removes. The wider set that `unicode.strip()` removes is
  not modelled.
- The debugging prints of `clear` and the `**kwargs` attribute setting of
  both constructors are not modelled. The batcher's `cfg` field is not
  modelled either.
- Batch.BatchProcess.GetErrors: an error is a pair of strings. The `str()`
  of arbitrary Python objects is not modelled.
- Python 2 set and dict iteration order is unspecified. Sets are
  modelled as duplicate-free sequences and dicts as association lists, in
  first-insertion order.
- panelcode.parser, which panelcode/render.py imports, is not part of this
  model. Its grammar is taken to be the one of parser.py.
- pyparsing's `ParseException` is modelled as an error position only.
  Its message and its `expected` text are not modelled.
- The render functions' output is a list of line records, not
  newline-terminated indented strings. Indentation is not modelled.
- `pobj_globals`, `parse_fenced_to_html`, `parse_graph_to_html`,
  `html_page_wrapper`, `console_html`, the Markdown renderer and the
  page templates are not modelled. These are string templating and
  third-party calls outside the core. The global options of the decorated
  renderer are a parameter.
- The equalities of tests.py are proved on parse trees, through the
  renderer. From the text, only `1+2` ≡ `3` (ParseExamples.SumParsesAlike)
  runs through both the grammar and the renderer. The other test strings
  are linked to their trees by the general spelling laws of `Spelling`.
- Spelling.LeadingBlanks: blanks after the code are covered only by the
  concrete texts ParseExamples.ParseSpacedSum and CountText/SumText, not by
  a law for any document.
- Spelling.DotBeforeAttribute and Spelling.ParenthesisBeforeTerms: stated
  for one unit and one panelgroup. Their lift to whole texts is not
  stated; the level lemmas of `ParseExamples` show how it goes for one
  panelgroup.
- The tab tests (tests.py:231-243): a tab expands to a number of spaces
  that depends on its column, and the laws above are stated for tab-free
  code only.
- The non-summativity of attributes (tests.py:122-127) and
  tests.py:169-170 are not proved.
- Grammar.DocumentAt and the other grammar functions: their own contracts
  state positions and the shape of what they read. What they accept is
  stated by the `Spelling` and `ParseExamples` lemmas, not by a full
  characterisation of the accepted language.
- Preparse.Decomment also models utils.py:28-35, which is the same
  function.
- Comments.Decomment: its own contract states only a length bound. Its
  behaviour on each kind of text is stated by the lemmas beside it: line
  comments, block comments opened and closed or left unclosed, quoted
  strings of either quote with their escapes, and plain text. An
  unterminated quoted string, which the engine also copies character by
  character, has no lemma of its own.
- The `TypeError` guard around the label code (panelcode/render.py:558,
  575) and the `IndexError` of an empty option list are modelled as
  error results. Whether they occur for parser output is not
  characterised.

## Findings

| source | as written | input that shows it | evidently intended | confidence | as-written member | corrected member |
|---|---|---|---|---|---|---|
| panelcode/format.py:360-364 | a string token is replaced by the wrapped token once before the loop, then the loop pads it again (a string is a one-token list) | `wrap('@', '@', ' ')` gives `'  @  '`, but `wrap('@', ['@'], ' ')` gives `' @ '` | each token is padded once, whether passed as a string or a list | not executed | Format.WrapStringTwice | Format.WrapOnceString |
| panelcode/format.py:313-316 | the gap before the delimiter is collapsed with the slices `[dist-1:idx]` and `[:dist-1]`, which at `dist == 0` become `[-1:idx]` and `[:-1]` | `align_line('ab#c', '#', 0)` (reachable with `-c 0`) gives `'ab# #c'` | alignment changes only whitespace; at column 0 nothing is collapsed | not executed | Format.AlignColumnZero | Format.AlignLineOnlySpace |
