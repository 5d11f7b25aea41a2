# makoto: a verified model of the Markdown-to-HTML scanner

makoto turns Markdown into HTML with `parse_md_to_html`. The function makes a single
left-to-right pass over the characters and builds no tree. It keeps a buffer `html` for
finished output and a buffer `html_line` for the current line. It also keeps a dozen flags
and counters: escapes, `#` runs and headings, `-` runs and rules, `*` runs for italics and
bolds, images under construction, and code spans.

This project models that scanner in Dafny, in two forms:

- **The functional form.** `Makoto.Step` is one pass of the loop body. It is split into
  the source's phases:
  - escapes (`Unescaped`);
  - code spans (`Code`, with the lookahead `CloseFrom`);
  - the end of a line (`EndOfLine`, `FlushImage`, `LastCharacter`, `AppendLine`,
    `CloseLine`);
  - `#` runs (`HeadingRun`);
  - `-` runs (`RuleRun`);
  - images (`ImageSyntax`, `ImageText`);
  - paragraph start and asterisks (`Emphasis`).

  `Run` folds `Step` over the positions, and `Parse` is the HTML the loop leaves behind.
- **The imperative form.** `Makoto.ParseMdToHtml` is the loop itself. Its variables are
  the fields of the class `Makoto.Scanner`, and there is one method per group of handlers.
  `return` plays the part of the source's `continue`. The code-span lookahead is the
  method `Makoto.CodeSpanLookahead`, with its `skip_next` flag.

  Each method is proved to compute the matching step function. The loop is proved to
  return `Parse(md)`.

JavaScript semantics the scanner relies on are written out in `JsStrings`:

- a read outside the string gives `undefined`, which equals no character (`At`);
- `slice` accepts negative indices and clamps both ends (`Slice`);
- `trim` strips the ECMAScript white-space set (`Trim`);
- template literals print numbers in decimal, and `undefined` as the word (`NatToString`,
  `TemplateValue`).

Several kinds of property are proved about the model:

- **Local rules.** These are the behaviour of single characters, in `MakotoQuirks`,
  quirks included:
  - `in_code` never clears;
  - italic and bold state survives a newline;
  - a seventh `#` is counted;
  - a trailing backslash loses the last line;
  - an open image is flushed as text.
- **Sanitization.** In `MakotoSafety`: for every input, each `<` and `>` in the output
  belongs to a tag of one of the forms the scanner writes: `<p>`, `</p>`, `<hr>`, `<i>`,
  `</i>`, `<b>`, `</b>`, `<code>`, `</code>`, `<hN id='header-K'>`, `</hN>`, or
  `<img src="…" alt="…">` with no angle bracket in the source or the alt text.
- **The document theorem.** `MakotoDocument.ParseRendersDocument` covers well-formed
  documents ending in a newline. A document here is a sequence of `MakotoBlocks.Block`
  lines:
  - blank lines;
  - paragraphs;
  - headings;
  - rules;
  - `-` and `#` runs that make no construct;
  - lines that start with an image.

  Each line is made of spans: text, italics, bolds, escapes and images. The theorem says
  that for such a document, `Parse` of its Markdown is its reference rendering
  `MakotoBlocks.Render`, trimmed. Headings are numbered from 0 in document order.

  The theorem rests on the trace lemmas in `MakotoTrace`, `MakotoSteps`, `MakotoSpans`,
  `MakotoRuns`, `MakotoHeads` and `MakotoLines`. Those follow the scanner one character,
  one span and one line at a time.
- **The repository's tests.** `MakotoExamples` works through the inputs of the tests
  whose expectations this snapshot of the code meets. Those whose input does not end in
  a newline get a trailing newline added. The tests are worked as consequences of the
  document theorem. `MakotoTraceExamples` works two inputs without a final newline one
  character at a time, and two lines where an escape makes a counted `-` or `#` vanish.

Where the tests and the code disagree, the model follows the code. The scanner writes
heading ids in single quotes, `id='header-0'`, while the tests expect double quotes. The
tests for links and fenced code blocks expect HTML that this snapshot of `makoto.ts` does
not produce.

## Model

| member | source | states |
|---|---|---|
| Makoto.ParseMdToHtml | makoto.ts:4-276 | the loop over every position returns `Parse(md)`: the html buffer after the one-iteration function `Step` has been applied at each position in turn, from the initial values of the variables |
| Makoto.Scanner.constructor | makoto.ts:5-22 | the variables start as the source declares them: empty buffers, `is_first_line` set, every other flag clear, counters at 0, no image parts |
| Makoto.Scanner.ScanCharacter | makoto.ts:27-42 | one iteration: `<` and `>` become `&lt;` and `&gt;`; a character after an escaping backslash is appended as it is unless it is the last of the input; the new state is `Step` of the old |
| Makoto.Scanner.ScanUnescaped | makoto.ts:43-173 | an unescaped backslash not before a newline sets `backslashed` and writes only the `<p>` of a line it starts; a newline or the last character flushes the line; otherwise code, then the other constructs |
| Makoto.CodeSpanLookahead | makoto.ts:145-161 | the inner loop with `skip_next` finds an unescaped backtick ahead before any newline exactly when `CodeSpanCloses(md, i)` holds |
| Makoto.Scanner.HandleCode | makoto.ts:143-173 | a backtick outside code opens `<code>` only if the lookahead succeeds; a backtick inside code writes `</code>`; any other character inside code is copied; the result says whether the character was taken |
| Makoto.Scanner.HandleConstructs | makoto.ts:174-272 | `#` runs, then `-` runs, then images, then paragraph start and emphasis, each later handler reached only when the earlier ones pass the character on |
| Makoto.Scanner.HandleHeading | makoto.ts:176-189 | the heading handler runs only where the `#`s counted so far start the line, as the two `slice` tests decide with JavaScript's negative-index rules |
| Makoto.Scanner.HandleHeadingMark | makoto.ts:177-188 | a `#` is counted while `heading_level <= 6`; a space after the run opens `<hN id='header-K'>` and advances the id; anything else writes `<p>` and the `#`s |
| Makoto.Scanner.HandleRule | makoto.ts:192-207 | the rule handler runs only where the `-`s counted so far start the line |
| Makoto.Scanner.HandleRuleMark | makoto.ts:193-206 | a `-` is counted; the third, or the second when one more `-` ends the input, makes the line `<hr>`; one or two before a newline or the last input position give `<p>` and the dashes; a run followed by another character is written as `<p>` and the dashes |
| Makoto.Scanner.HandleImage | makoto.ts:209-218 | `!` before `[` and `]` before `(` are dropped; `[` after `!` starts the alt text; `(` after `]` starts the source |
| Makoto.Scanner.HandleImageText | makoto.ts:219-236 | `)` (or the character before a `)` that ends the input, which joins the source) writes `<img src="..." alt="...">` and sets `was_image`; other characters extend the alt text or the source; a character outside an image clears `was_image` |
| Makoto.Scanner.HandleEmphasis | makoto.ts:238-240 | a character that reaches this point at the start of a line opens a paragraph, then emphasis is handled |
| Makoto.Scanner.HandleAsterisks | makoto.ts:242-272 | opening `*`s, closing `*`s, the reset of the closing count by any other character inside an emphasis, and the character itself appended |
| Makoto.Scanner.HandleOpeningAsterisk | makoto.ts:242-251 | the first `*` not followed by another opens `<i>`; the second opens `<b>` |
| Makoto.Scanner.HandleClosingAsterisk | makoto.ts:252-267 | a closing `*` that completes a run as long as the opening one writes `</i>` or `</b>` and clears the emphasis; a first closing `*` before another `*` is held back; any other is written |
| Makoto.Scanner.FlushLine | makoto.ts:51-141 | a newline or the last character: the first line is over, an open image is flushed, the last character is handled, the line goes to the output, and the line is closed |
| Makoto.Scanner.FlushUnfinishedImage | makoto.ts:57-67 | an image still open becomes text: `<p>` unless the line already starts with it, `![` and the alt text, then `](` and the source if the source was started; both parts are cleared |
| Makoto.Scanner.HandleLastCharacter | makoto.ts:69-88 | the last character (not a newline): a backtick closes open code, a rule drops the character, `)` after an image is dropped, and a line that starts here is reset to `<p>` |
| Makoto.Scanner.HandleLastEmphasis | makoto.ts:89-105 | a final `*` closes a bold after another `*`, or an italic; otherwise the character is written if it may be |
| Makoto.Scanner.AppendHtmlLine | makoto.ts:106-111 | the line is appended to the output, followed by `</p>\n` exactly when it starts with `<p>`; the line and the `-` count are reset |
| Makoto.Scanner.CloseHtmlLine | makoto.ts:112-140 | after a rule or an image a newline is added unless the output ends with one (trimmed instead at the last character); an open heading is closed with `</hN>\n`; at the end of the input the output is trimmed |
| Makoto.FindWarnings | makoto.ts:279-283 | `find_warnings` returns no warnings, whatever the input |
| JsStrings.SliceIndex | makoto.ts:176 | a `slice` argument, negative or not, becomes a position within the string |
| JsStrings.SliceFromMinusOne | makoto.ts:176 | a `slice` that starts at -1 (a `#` run that starts the input) selects nothing, because -1 counts back from the end; only the first-line test can anchor such a run |
| JsStrings.Repeat | makoto.ts:186 | `"#".repeat(n)` has exactly `n` characters, each the mark |
| JsStrings.TrimShape | makoto.ts:118 | `trim` returns a contiguous part of its input with no JavaScript white space at either end, and everything it drops before and after that part is white space |
| JsStrings.TrimNewline | makoto.ts:136-139 | trimming ignores a newline at the end, so the newline of the last line never reaches the output |
| JsStrings.TrimDropsTrailing | makoto.ts:127-130 | trimming a string that ends with white space drops exactly that white space |
| JsStrings.NatToString | makoto.ts:182 | a number in a template literal is a non-empty string of decimal digits with no leading zero |
| JsStrings.NatToStringValue | makoto.ts:182 | those digits read back as the number, so distinct heading ids are distinct strings |
| MakotoQuirks.CodeTakesAll | makoto.ts:167-172 | inside a code span the code handler takes every character and stays in code |
| MakotoQuirks.StepKeepsCode | makoto.ts:163 | no iteration clears `in_code`: once it is set, it stays set |
| MakotoQuirks.EndOfLineKeepsCode | makoto.ts:51-141 | the end of a line leaves `in_code` as it found it |
| MakotoQuirks.InCodeNeverClears | makoto.ts:163 | once a state of the loop is inside a code span, every later state is too, across any number of lines and backticks |
| MakotoQuirks.CodeCopiesLiterally | makoto.ts:170-172 | inside code, a character that is no backtick, backslash or newline is appended sanitized, with no other change: `*`, `#`, `-`, `!` and `[` are not interpreted |
| MakotoQuirks.BacktickInCode | makoto.ts:167-169 | inside code every backtick writes `</code>`, the first one and any later one alike |
| MakotoQuirks.BacktickOpens | makoto.ts:143-166 | outside code a backtick sets `in_code` exactly when the lookahead succeeds; then it writes `<code>` and nothing else; otherwise it goes on to the other handlers |
| MakotoQuirks.CloseFromPlain | makoto.ts:147-161 | on input with no backslash ahead, the lookahead succeeds exactly when a backtick comes before every newline |
| MakotoQuirks.CloseFromEscape | makoto.ts:148-153 | a backslash makes the lookahead skip the next character, be it a backtick or a newline |
| MakotoQuirks.NewlineKeepsEmphasis | makoto.ts:51-141 | a newline keeps `in_asterisk` and the opening run length, so an italic or bold still open continues on the next line |
| MakotoQuirks.StepBoundsHeading | makoto.ts:177 | no iteration takes the `#` count above seven |
| MakotoQuirks.HeadingLevelBounded | makoto.ts:177-179 | after any prefix of any input the `#` count is at most seven: the guard `heading_level <= 6` admits a seventh `#` and no more |
| MakotoQuirks.HashCounted | makoto.ts:177-188 | a `#` continuing a run is counted exactly when at most six were; after seven, another `#` writes `<p>` and seven `#`s |
| MakotoQuirks.HashRunEnds | makoto.ts:180-188 | after a `#` run a space opens `<hN id='header-K'>` with the run length and the next id, and any other character writes `<p>` and as many `#`s |
| MakotoQuirks.DashCounted | makoto.ts:193-202 | every `-` of a line-start run is counted; the third sets the rule and makes the line `<hr>`, as does the second when a `-` ends the input; one or two before a newline give `<p>` and the dashes; later dashes change nothing else |
| MakotoQuirks.DashRunEnds | makoto.ts:203-206 | a `-` run followed by another character replaces the line with `<p>` and the dashes |
| MakotoQuirks.BackslashDropped | makoto.ts:43-49 | an unescaped backslash not before a newline writes nothing to the output and only `<p>` at the start of a line, and sets the escape |
| MakotoQuirks.EscapeAfterRun | makoto.ts:36-48 | inside a line, a backslash and the character it escapes add only that character and change no count, so they never reach the `#` and `-` run handlers |
| MakotoQuirks.EscapedCopied | makoto.ts:36-41 | an escaped character that is not the last of the input is appended sanitized, whatever it is |
| MakotoQuirks.EscapedLastUnescaped | makoto.ts:38-42 | the last character of the input is handled as if no backslash escaped it |
| MakotoQuirks.EscapedLastStarClosesItalic | makoto.ts:89-100 | so an escaped `*` that ends the input still closes an open italic |
| MakotoQuirks.TrailingBackslashWritesNothing | makoto.ts:43-48 | a backslash at the end of the input adds nothing to the output |
| MakotoQuirks.LastLineLost | makoto.ts:43-48 | when the input ends with a backslash, the output is what it was before the last character: the last line is never flushed and the output is not trimmed |
| MakotoQuirks.ClosingStar | makoto.ts:252-267 | inside an emphasis a `*` clears it exactly when it completes a closing run as long as the opening one; `*x*` closes with `</i>`, `**x**` with `</b>`, and a lone `*` inside a bold is written |
| MakotoQuirks.OtherResetsClosing | makoto.ts:268-272 | inside an emphasis any other character is written and restarts the closing count |
| MakotoQuirks.OpeningStar | makoto.ts:242-251 | outside an emphasis a `*` not followed by another opens `<i>`; before another it is only counted, and the second opens `<b>` |
| MakotoQuirks.LastCharacterAfterNewline | makoto.ts:84-104 | after a newline the last character replaces the line with `<p>`; it is then written sanitized, or closes an open italic with `</i>`, or is dropped after a rule, inside code when it is a backtick (its `</code>` is erased with the line) or after an image when it is `)`, leaving the line exactly `<p>`; under an open bold a final `*` is written as `<p>*` and the bold stays open, since no `*` precedes it |
| MakotoQuirks.ImageLineKeepsHeading | makoto.ts:112-123 | a line that ends just after an image or a rule clears both marks but leaves `in_heading` and the `#` count as they were, so an open heading is not closed there |
| MakotoQuirks.OrdinaryClearsImage | makoto.ts:234-236 | a character that no image handler takes clears `was_image` and leaves the heading flag alone |
| MakotoQuirks.NewlineFlushesImage | makoto.ts:57-67 | an image still open at a newline is written as a paragraph of the text read so far: `![` and the alt text, and `](` and the source if started |
| MakotoSafety.SafeStep | makoto.ts:27-272 | each iteration keeps both buffers clean and the image parts free of angle brackets. Clean means text with no angle bracket, interleaved with tags of exactly the scanner's forms: the nine fixed tags, `<hN id='header-K'>`, `</hN>`, and `<img src="…" alt="…">` with angle-free parts |
| MakotoSafety.SafeRun | makoto.ts:26-273 | those facts hold after every prefix of the input |
| MakotoSafety.CleanTrim | makoto.ts:118 | trimming keeps clean output clean |
| MakotoSafety.ParseIsClean | makoto.ts:30-34 | for every input the output is clean: each `<` and `>` opens or closes a tag of one of those exact forms, so the input cannot open, close or rename a tag |
| MakotoTrace.TraceOf | makoto.ts:26 | the list of states the loop passes through exists, and its last state holds `Parse(md)` |
| MakotoLines.BlankLine | makoto.ts:106-110 | a blank line adds nothing to the output |
| MakotoLines.ParaLine | makoto.ts:237-240 | a paragraph line gives `<p>`, its spans' HTML and `</p>\n` |
| MakotoLines.HeadingLine | makoto.ts:176-184 | a heading line gives `<hN id='header-K'>`, its spans' HTML and `</hN>\n`, and advances the id by one |
| MakotoLines.RuleLine | makoto.ts:192-197 | a line of three or more `-`s gives exactly `<hr>` and a newline |
| MakotoLines.DashesLine | makoto.ts:198-206 | one or two `-`s, alone or before other text, give `<p>`, the dashes, the text's HTML and `</p>\n` |
| MakotoLines.HashesLine | makoto.ts:185-187 | `#`s followed by neither a space nor another `#` give `<p>`, the `#`s, the text's HTML and `</p>\n` |
| MakotoLines.ImageLineDone | makoto.ts:209-227 | a line that starts with an image gives `<img ...>` and its other spans with no paragraph around them, and a newline only when it also ends with an image |
| MakotoLines.AnyLine | makoto.ts:51-141 | whatever kind of line a well-formed block is, reading it from the start of a line appends its reference HTML, counts its heading, and leaves the scanner at the start of the next line with nothing open |
| MakotoRuns.MidSpans | makoto.ts:242-272 | a run of well-formed spans in the middle of a line appends each span's reference HTML: sanitized text, `<i>`/`<b>` around emphasis, the escaped character, `<img ...>` |
| MakotoDocument.DocFrom | makoto.ts:26-141 | the lines from any line start to the end of the input add their HTML in order, and the last newline trims the output |
| MakotoDocument.ParseRendersDocument | makoto.ts:4-276 | for every well-formed document, `Parse` of its Markdown is its reference HTML, headings numbered from 0 in order, trimmed |
| MakotoTraceExamples.NewLineNoFinalNewline | index.ts:13 | `a\n\n\nb` gives `<p>a</p>\n<p>b</p>`: the last letter, after newlines, starts its own paragraph |
| MakotoTraceExamples.EmptyBold | index.ts:29 | `****a*` gives `<p><b></b>a*</p>`: the bold opens and closes at once, and the final `*` is written |
| MakotoTraceExamples.EscapedDashLost | makoto.ts:192-203 | `-\a` and a newline give just `a`: the counted `-` is never written, because the escape skips the rule handler and the newline clears the count |
| MakotoTraceExamples.EscapedHashLost | makoto.ts:176-186 | `#\a` and a newline give just `a`: the counted `#` is never written, for the same reason |
| MakotoExamples.NewLines | index.ts:15 | `a\n\n\nb\n` gives `<p>a</p>\n<p>b</p>`: blank lines add nothing |
| MakotoExamples.TrailingBlank | index.ts:17 | `a\n\n\nb\n\n` gives the same: the trailing blank line is trimmed away |
| MakotoExamples.OneHeading | index.ts:25 | `# tet offensive\n` gives `<h1 id='header-0'>tet offensive</h1>` |
| MakotoExamples.NumberedHeadings | index.ts:19 | three headings and a paragraph: ids `header-0` to `header-2` in order whatever the level; a `#` inside a title is text |
| MakotoExamples.HashText | index.ts:21 | `#`s inside a line are text, `# Yay` a heading, `#a# b` a paragraph starting with `#` |
| MakotoExamples.Escapes | index.ts:33 | `\*\*cheese\*\*` gives `<p>**cheese**</p>` |
| MakotoExamples.Rules | index.ts:31 | `---`, `--`, `----`, `--a-`, `---` give `<hr>`, `<p>--</p>`, `<hr>`, `<p>--a-</p>`, `<hr>` |
| MakotoExamples.Emphasis | index.ts:27 | `**test abc** *a*` and `## **ch*ch**` give a paragraph with a bold and an italic, and a heading with a bold holding a lone `*` |
| MakotoExamples.EmptyInput | makoto.ts:5-26 | the empty input gives the empty string |

## Left out

- The test harness of `endosulfan.ts` is not part of this model. It prints, keeps global counters and throws on type mismatches; since `Warning` is the record `find_warnings` returns, it alone is kept, as a datatype.
- `web.ts` is not part of this model. It holds browser wiring: the DOM, events, selections and themes.
- `index.ts` is used only for its inputs and expected outputs, as the `MakotoExamples` lemmas.
- `npm/index.d.ts` is not part of this model. It holds type declarations only.
- Links, fenced code blocks, blockquotes, lists and tables are not implemented in `makoto.ts`, so the model has none. The tests at index.ts:39, 41 and 45 are not worked as examples for that reason.
- Heading id quotes: the tests at index.ts:19, 21, 23, 25 and 27 expect double quotes around heading ids. The code writes single quotes, and the model and the examples follow the code.
- `MakotoDocument.ParseRendersDocument` covers only input that ends with a newline. The last character of input without a final newline goes through separate handling (makoto.ts:69-105). That handling is modelled and proved in `LastCharacter` and its methods, but the theorem does not cover it. The examples at index.ts:19, 21, 27 and 31 therefore have a newline added to their input; the trimmed output is the one the tests expect.
- `MakotoDocument.ParseRendersDocument` also leaves several cases out of its document grammar. The scanner's behaviour on them still follows from the per-character lemmas.
  - Code spans are not in the grammar. They are covered by the `MakotoQuirks` code lemmas instead, since `in_code` never clears.
  - Images inside headings are not in the grammar. When such a line ends with the image, the image branch (makoto.ts:112-123) continues before the heading is closed and resets neither `in_heading` nor `heading_level`, so the `</hN>` is written when a later line ends (`ImageLineKeepsHeading`). When other text follows the image, that text clears `was_image` (makoto.ts:234-236, `OrdinaryClearsImage`) and the heading is closed with its line.
  - Escapes inside an italic or a bold are not in the grammar.
  - Emphasis left open across a line is not in the grammar.
  - The `` ` ``, `\` and `[` characters in plain text are not in the grammar.
  - A `-` or `#` run that makes no construct must be followed by text, an italic or a bold (`FollowsDashes`, `FollowsHashes`). A run followed directly by an escape or an image is not in the grammar. After an escape the run is lost: a counted mark is held in its count and written only by the run handlers, when a later character of the line reaches them, but the backslash handler (makoto.ts:43-48) runs first, so the line ends with the count cleared and the marks unwritten, and no `<p>` opens. `-\a` and a newline give just `a` (`EscapeAfterRun`, `EscapedDashLost`, `EscapedHashLost`).
- The sanitize test (index.ts:23), the image tests (index.ts:35, 37) and the code test (index.ts:43) are not worked as concrete examples. General lemmas cover the behaviours they exercise, though not their exact outputs:
  - sanitization by `ParseIsClean`, `CodeCopiesLiterally` and the `Sanitize` function;
  - image flushing by `NewlineFlushesImage`;
  - images by `ImageLineDone`;
  - code by `BacktickOpens` and `CloseFromPlain`.
- SafeStep: states what the buffers look like, not where each character came from. The lemmas do not say that a particular tag was written by a particular handler, only that every tag has one of the scanner's forms.
- ParseIsClean: inside an image tag the source and the alt text are only known to hold no angle bracket. The code does not escape quotes in them, so an input `"` can end the `src` or `alt` value early and add attributes to the `<img>` tag; the model keeps that behaviour and does not claim otherwise.
- `MakotoExamples.Escapes` covers only the first line of the test at index.ts:33. Its second line escapes inside an italic, which the grammar does not cover. The closing behaviour it tests is `EscapedLastStarClosesItalic`.
- Strings are sequences of characters. JavaScript's UTF-16 code units, surrogate pairs included, are not modelled.
