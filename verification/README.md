# A verified model of the Tangle terminal

Tangle shows remote shells in a browser. This project models two parts of it in Dafny and proves properties of them:

* the terminal emulator of the page, `static/term.js`: a machine driven by characters that edits a screen buffer with
  scrollback, scroll region, alternate screen, packed attributes, tab stops, a damage range and rendered rows;
* the server's terminal registry and input queues, `lib/tangle/tty.rb`, `lib/tangle/support/closeable_queue.rb`,
  `lib/tangle/ssh/base.rb` and `lib/tangle/tty_extension.rb`.

`dafny verify dfyconfig.toml` checks the whole project.

## How it is built

The terminal exists twice. `Terminals.Terminal` is the object of the source: fields that methods update and rows that are
objects edited in place by splice loops. `Emulator` is the same terminal as a value, with one function `Step` from a state
and a character to a state, and closed forms (`Screen`) for everything the loops do. Each method is proved to change the
object exactly as the function says, down to `Terminal.Write`, which equals `Emulator.Write`. The proof keeps all row
objects of the screen and of the saved main buffer distinct. Properties of texts and sessions are then proved about
the functions.

What a command means is then said once more on texts alone: `Printing`, `Colours`, `Commands`, `Moving`, `SavedCursor`,
`Settings` and `Requests` state what a printed character or a control sequence leaves, cell by cell and field by field, and
`Showing` what a reader of the page sees of it. They speak of the run over a text and avoid the functions that its steps
are built from (the law about mode 3 names `Resize`), so that functions and methods have to meet an account that is not
their own.

| files | contents |
|---|---|
| Options, Shifts, Attributes, PackedSgr, TabStops | windows that shift by n places, SGR as records and as bits, tab stops |
| Rendering, RenderLoop | a row as HTML, reading it back, and the loop that writes it |
| Screen, Emulator | buffers, commands and the machine as values |
| Shape, LoopMeasure | the shape invariant with its exact guards, and why the loop of `write` ends |
| Damage, DamageExact, DamageLimits | damage tracking and where it stops being right |
| History, Chunks, ControlSequences, Prefixes, Titles, SmallTexts | scrollback, splitting texts, printing and parsing sequences, titles and character sets |
| Showing | a row read back as cells, each in the fields of its own style |
| Printing, Colours, Commands, Moving, SavedCursor, Settings, Requests | what each text leaves, cell by cell and field by field |
| Isolation, Editing, Resizing, Sessions | the alternate screen, laws of editing and resizing, whole sessions |
| ScrollSplices, EditSplices, Terminals, Pages | the splice loops, the terminal object, and the object under the calls of a page |
| CloseableQueue, Registry, Server, ServerObjects | the server side, and its objects under the steps of the server |

## What the code requires of its input

A few commands do not clamp their parameters. The model keeps them as they are. `Emulator.GuardCsi` and `Emulator.Guard`
say what they need, and `Shape.StepShape` proves that a step keeps the shape if and only if its guard holds: CHA needs a
column of at most cols + 1, HVP two parameters, REP room in its row, DECSTBM 1 <= top <= bottom <= rows, and restoring the
cursor a saved position that is still on the screen (`resize` does not clamp it). `scrollback` is any number from 2 on
(1000 in the source). Widths are at least, not exactly, cols: EL 1, ED 1 and DCH with a pending wrap make a row one cell longer.

`write` renders only the damage range. Three things escape it: ICH, DCH, ECH and REP report nothing; RI above the top margin
reports only the region; and modes 3, 47, 1047 and 1049 repaint, with the cursor highlighted, in the middle of `write`.
`Damage.Tracked` says when these are harmless, and `Damage.WriteKeepsSync` proves the page right for all texts whose steps
are tracked. `DamageExact.EveryWriteExactly` gives the exact condition for every guarded text; it is read off the run, as it
compares each row that is not rendered again, in the state the run ends in, with what was last painted there.
`DamageExact.WriteInSyncExactly` is its form for texts that keep the buffer. `DamageLimits` has, for each of the three causes,
a family of texts that can leave the page wrong, with an exact condition on the state before the call.

Where code and documentation disagree the code is followed. The service description calls `terminals` the number of
terminals (tangle.thrift:12), but `TTY.count` counts owners. A comment calls SS2 and SS3 single shifts, but they change
nothing and leave the parser in `escaped`. DECRQSS replies always say that the request was invalid.

## Model

| member | source | states |
|---|---|---|
| Terminals.Terminal.constructor | static/term.js:134-220 | a new terminal is the created state; a size of zero means 80 columns or 24 rows; its rows are distinct objects |
| Terminals.Terminal.Open | static/term.js:346-366 | makes one row element per row, paints all rows and takes the focus |
| Terminals.Terminal.Write | static/term.js:991-1956 | on every guarded text the loop ends and the object is in exactly the state that the run over characters gives, damage range and row elements included; no row object is shared |
| Terminals.Terminal.BeginWrite | static/term.js:997-1003 | the view snaps to the bottom; the damage range is the cursor row, or the whole screen if the view moved |
| Terminals.Terminal.FinishWrite | static/term.js:1954-1955 | the cursor row joins the damage range, and exactly that range is rendered again |
| Terminals.Terminal.Process | static/term.js:1007-1952 | one character does what one step of the machine does, and moves the index by its advance (0 for ESC /, 2 where the next character is swallowed) |
| Terminals.Terminal.ProcessNormal | static/term.js:1010-1087 | C0 controls and printing |
| Terminals.Terminal.PrintChar | static/term.js:1067-1085 | charset translation, the pending wrap with its scroll, the cell, the damage |
| Terminals.Terminal.ProcessEscaped | static/term.js:1089-1268 | escape sequences, incl. the ones that stay `escaped` |
| Terminals.Terminal.SetEscape | static/term.js:1143-1266 | designations, shifts, save and restore cursor, tab set, and what unknown sequences leave |
| Terminals.Terminal.ProcessCharset | static/term.js:1270-1325 | the designated set gets the table of its character; only the line-drawing table is not null |
| Terminals.Terminal.ProcessOsc | static/term.js:1327-1407 | OSC texts, and the title for codes 0 to 2 |
| Terminals.Terminal.ProcessCsi | static/term.js:1409-1857 | prefix, digits, postfix, separators and the final character of a control sequence |
| Terminals.Terminal.ProcessDcs | static/term.js:1859-1942 | DCS texts up to their end |
| Terminals.Terminal.Answer | static/term.js:1863-1925 | the replies to DECRQSS and to a termcap request; requests are always reported as invalid |
| Terminals.Terminal.ExecuteCommand | static/term.js:1434-1853 | the switch over final characters does to the state what the command does |
| Terminals.Terminal.EditScreen | static/term.js:1434-1853 | each editing command gives its closed form on the buffer and its own damage |
| Terminals.Terminal.EditCharacters | static/term.js:2831-2959 | ICH, DCH, ECH and REP report no damage |
| Terminals.Terminal.MoveCursor | static/term.js:1434-1853 | each cursor command puts the cursor where its closed form says |
| Terminals.Terminal.ApplySetting | static/term.js:1434-1853 | SGR, reports, saved cursor, region, tab stops and soft reset; unknown commands change nothing |
| Terminals.Terminal.UpdateRange | static/term.js:2328-2337 | the damage range becomes the smallest range with the row in it |
| Terminals.Terminal.MaxRange | static/term.js:2339-2342 | the damage range becomes the screen |
| Terminals.Terminal.BlankRow | static/term.js:2400-2414 | a new row of cols blanks in the current or the default attribute |
| Terminals.Terminal.AdvanceBase | static/term.js:942-945 | the base advances; at the limit it is halved and the oldest rows are cut off |
| Terminals.Terminal.SpliceRegion | static/term.js:947-971 | the splices of `scroll` in the order of the source |
| Terminals.Terminal.ScrollScreen | static/term.js:939-977 | `scroll` is the region shift of `Screen.Scroll` with its damage, in every valid state incl. the trimming one and with a top margin |
| Terminals.Terminal.LineFeed | static/term.js:2440-2447 | next row, scrolling at or below the bottom margin |
| Terminals.Terminal.IndexCommand | static/term.js:1127-1134 | IND and NEL |
| Terminals.Terminal.ReverseLineFeed | static/term.js:2450-2466 | RI: the row above, or a row inserted at the cursor and one cut at the bottom margin |
| Terminals.Terminal.EraseRight | static/term.js:2375-2384 | the columns from x to the width become blank in the current attribute, and the row is damaged |
| Terminals.Terminal.EraseLeft | static/term.js:2386-2394 | columns 0 to x become blank; at x = cols the row grows by one cell |
| Terminals.Terminal.EraseLine | static/term.js:2396-2398 | the first cols columns become blank |
| Terminals.Terminal.EraseInDisplay | static/term.js:2563-2588 | ED 0, 1 and 2, with their damage; other parameters do nothing |
| Terminals.Terminal.EraseInLine | static/term.js:2599-2611 | EL 0, 1 and 2, with their damage |
| Terminals.Terminal.InsertLines | static/term.js:2881-2901 | the splice loop is one shift of the rows from the cursor to the bottom margin by the whole count, saturating |
| Terminals.Terminal.DeleteLines | static/term.js:2905-2925 | the same in the other direction |
| Terminals.Terminal.ScrollUp | static/term.js:3502-3511 | the splice loop is one shift of the region, with default blanks |
| Terminals.Terminal.ScrollDown | static/term.js:3514-3523 | the same in the other direction |
| Terminals.Terminal.InsertChars | static/term.js:2831-2845 | the splice loop inserts min(n, cols - x) blanks and keeps the row's length |
| Terminals.Terminal.DeleteChars | static/term.js:2929-2942 | the splice loop shifts left and fills with blanks; at the very end of a row it appends one blank |
| Terminals.Terminal.EraseChars | static/term.js:2946-2959 | min(n, cols - x) columns become blank |
| Terminals.Terminal.RepeatPrecedingCharacter | static/term.js:3557-3563 | n copies of the cell before the cursor, or of a default blank in column 0; the cursor moves on unclamped |
| Terminals.Terminal.FindNextStop | static/term.js:2367-2373 | the search loop finds NextStop |
| Terminals.Terminal.FindPrevStop | static/term.js:2359-2365 | the search loop finds PrevStop |
| Terminals.Terminal.SetupStops | static/term.js:2344-2357 | every eighth column; after a resize from the last stop on and only up to the old width |
| Terminals.Terminal.CursorUp | static/term.js:2486-2491 | CUU, clamped at the top |
| Terminals.Terminal.CursorDown | static/term.js:2495-2502 | CUD, clamped at the bottom |
| Terminals.Terminal.CursorForward | static/term.js:2506-2513 | CUF, clamped at the right |
| Terminals.Terminal.CursorBackward | static/term.js:2517-2522 | CUB, clamped at the left |
| Terminals.Terminal.CursorNextLine | static/term.js:2850-2858 | CNL |
| Terminals.Terminal.CursorPrecedingLine | static/term.js:2863-2869 | CPL |
| Terminals.Terminal.CursorCharAbsolute | static/term.js:2873-2877 | CHA, not clamped |
| Terminals.Terminal.CursorPos | static/term.js:2526-2551 | CUP, clamped to the screen |
| Terminals.Terminal.CharPosAbsolute | static/term.js:2963-2970 | HPA |
| Terminals.Terminal.HPositionRelative | static/term.js:2975-2982 | HPR |
| Terminals.Terminal.LinePosAbsolute | static/term.js:3050-3057 | VPA |
| Terminals.Terminal.VPositionRelative | static/term.js:3061-3068 | VPR |
| Terminals.Terminal.HVPosition | static/term.js:3073-3086 | HVP; without a second parameter the column is no number |
| Terminals.Terminal.RestoreCursor | static/term.js:3483-3486 | restore cursor, not clamped |
| Terminals.Terminal.CursorForwardTab | static/term.js:3494-3499 | CHT: the loop tabs forward n times |
| Terminals.Terminal.CursorBackwardTab | static/term.js:3549-3554 | CBT: the loop tabs back n times |
| Terminals.Terminal.CharAttributes | static/term.js:2675-2754 | SGR on the packed attribute is the record interpreter between unpacking and packing |
| Terminals.Terminal.DeviceStatus | static/term.js:2777-2823 | DSR 5 and 6, with and without `?` |
| Terminals.Terminal.SendDeviceAttributes | static/term.js:3019-3046 | DA |
| Terminals.Terminal.SaveCursor | static/term.js:3476-3479 | save cursor |
| Terminals.Terminal.SetScrollRegion | static/term.js:3466-3472 | DECSTBM, not clamped; nothing with a prefix |
| Terminals.Terminal.TabClear | static/term.js:3571-3578 | TBC |
| Terminals.Terminal.TabSet | static/term.js:2475-2478 | HTS |
| Terminals.Terminal.SoftReset | static/term.js:3642-3656 | DECSTR |
| Terminals.Terminal.Send | static/term.js:2216-2227 | the reply is appended to the queue |
| Terminals.Terminal.SetOneMode | static/term.js:3172-3288 | SM with one parameter |
| Terminals.Terminal.ResetOneMode | static/term.js:3370-3460 | RM with one parameter |
| Terminals.Terminal.SetAllModes | static/term.js:3172-3182 | SM with a list; a buffer switch resets the prefix, so the rest of the list is ignored |
| Terminals.Terminal.ResetAllModes | static/term.js:3370-3380 | RM with a list |
| Terminals.Terminal.EnterAlternate | static/term.js:3260-3285 | the main buffer is put aside with the very same row objects; the new screen has only new ones |
| Terminals.Terminal.LeaveAlternate | static/term.js:3436-3457 | the saved buffer comes back and everything is painted |
| Terminals.Terminal.Reinitialize | static/term.js:150-219 | the constructor run on an existing object: what it resets and what survives |
| Terminals.Terminal.ResetScreen | static/term.js:2469-2472 | RIS |
| Terminals.Terminal.RefreshRow | static/term.js:806-902 | one row element gets the rendering of its row, cursor included |
| Terminals.Terminal.RefreshRows | static/term.js:781-906 | exactly the rows from start to end are rendered again |
| Terminals.Terminal.ShowCursor | static/term.js:914-922 | the cursor appears and its row is rendered, unless it was visible |
| Terminals.Terminal.SwitchCursorState | static/term.js:312-322 | the repaint when the focus or the blink timer switches the cursor |
| Terminals.Terminal.ScrollDisp | static/term.js:979-989 | the view moves within the scrollback, clamped, and everything is painted |
| Terminals.Terminal.FitRow | static/term.js:2263-2280 | one row is padded or cut cell by cell to the new width |
| Terminals.Terminal.FitColumns | static/term.js:2263-2280 | all rows are |
| Terminals.Terminal.GrowRows | static/term.js:2285-2297 | rows and row elements are pushed until the new height is reached, although each push is conditional |
| Terminals.Terminal.ShrinkRows | static/term.js:2298-2309 | rows and row elements are popped, although each pop is conditional |
| Terminals.Terminal.ClampCursor | static/term.js:2312-2314 | the cursor stays on the screen; a pending wrap is lost |
| Terminals.Terminal.ResizeTo | static/term.js:2253-2326 | `resize` as a whole, incl. the loss of the saved buffer |
| Terminals.Terminal.Flush | static/term.js:2219-2223 | the queue is emptied when it has been handed on |
| Pages.Perform | static/term.js:312-2326 | on the object, any guarded call of a page does what the session function says and keeps its rows distinct and its shape |
| ScrollSplices.SplicesScroll | static/term.js:939-977 | the push, splice and slice steps of `scroll`, with the base that moves on and back, are the region shift with history |
| EditSplices.InsertLinesRound | static/term.js:2881-2901 | one round of IL adds one to the closed shift, wherever the cursor is |
| EditSplices.DeleteLinesRound | static/term.js:2905-2925 | one round of DL does |
| EditSplices.ScrollRound | static/term.js:3502-3523 | one round of SU or SD does |
| EditSplices.InsertCharsRound | static/term.js:2831-2845 | one round of ICH does |
| EditSplices.DeleteCharsRound | static/term.js:2929-2942 | one round of DCH does, also past the end of the row |
| Shape.StepShape | static/term.js:1007-1952 | one character keeps the shape (rows = base + height, width at least cols, cursor, region, view, damage range, saved buffer, attributes in the palette) if and only if its guard holds |
| Shape.RunShape | static/term.js:1007-1952 | a whole text keeps it if and only if every step meets its guard |
| Shape.WriteShape | static/term.js:991-1956 | `write` ends in shape with the view at the bottom if and only if its text is guarded |
| Shape.TargetShape | static/term.js:2873-3086 | the unclamped cursor commands stay on the screen exactly under their guards |
| Shape.StepAdvances | static/term.js:1184-1188 | the measure of the loop: every step takes a character or leaves `escaped` |
| LoopMeasure.RoundAdvances | static/term.js:1184-1188 | the same for every mode and character, with no guard |
| LoopMeasure.RoundsAreFew | static/term.js:1007-1952 | for every text, guarded or not, the loop makes at most one round more than there are characters |
| LoopMeasure.StepMode | static/term.js:1007-1952 | the mode of the machine moves exactly as that count assumes |
| Titles.TitleIsSet | static/term.js:1327-1407 | ESC ] n ; text BEL makes the text the title if and only if n is at most 2 and the text is not empty, and changes nothing else |
| Titles.DesignatedTranslates | static/term.js:1270-1325 | designating a set translates the next character by its table if that set is in use, and by the table in use otherwise |
| Titles.DesignatedAndShiftedTranslates | static/term.js:1053-1061 | designating set 0 or 1 and shifting to it translates the next character by its table, whatever was in use |
| Emulator.ResizeIsValid | static/term.js:2253-2326 | `resize` keeps the shape for every requested size |
| Screen.IndexIsOk | static/term.js:2440-2447 | index and `scroll` keep the shape of the buffer |
| Screen.LineShiftsAreOk | static/term.js:2881-2925 | the line commands keep it |
| Damage.StepQuiet | static/term.js:1007-1952 | a tracked step keeps every row outside the damage range painted as it is, without a cursor |
| Damage.RunQuiet | static/term.js:1007-1952 | so does a tracked text |
| Damage.WriteKeepsSync | static/term.js:991-1956 | if every row element was a from-scratch rendering before `write`, every row element is one after it, cursor highlight included |
| Damage.ScrollShifts | static/term.js:939-977 | row by row, what `scroll` makes of the visible screen |
| Damage.ReverseIndexCarries | static/term.js:2450-2466 | RI reports all rows it changes when the cursor is not above the top margin or the damage range starts above the cursor |
| Damage.ModesQuiet | static/term.js:3260-3285 | a mode change that repaints in the middle of `write` is harmless if the cursor lands in the damage range |
| DamageExact.RunPaint | static/term.js:1007-1952 | on one buffer a text never renders a row before its end, and its damage range only grows |
| DamageExact.WriteInSyncExactly | static/term.js:991-1956 | for every guarded text on one buffer: the page is right after `write` if and only if every row outside the final damage range looks, in the state the run ends in, as at the start |
| DamageExact.RunPainted | static/term.js:1007-1952 | for every guarded text, what each row element shows before the last rendering: only resets and mode changes paint on the way |
| DamageExact.EveryWriteExactly | static/term.js:991-1956 | for every guarded text, resets, resizes and buffer switches included: the page is right if and only if every row outside the final damage range looks, in the state the run ends in, as it was last painted |
| DamageLimits.DetourInSync | static/term.js:2831-2959 | ICH, DCH, ECH and REP report no damage: made on another row than the cursor's own, they leave the page right if and only if the row as edited looks like the row as it was |
| DamageLimits.RiseInSync | static/term.js:2450-2466 | RI at or above the top margin, with the cursor moved there and back: the page is right if and only if the rows from there to the margin, or to the cursor's own row if that comes first, look blank in the current attribute |
| DamageLimits.ErasedCellStays | static/term.js:2946-2959 | an erased cell that looked different stays on the page |
| DamageLimits.EnteringLeavesHighlight | static/term.js:3260-3285 | entering the alternate screen by any mode and moving to row y leaves the page right if and only if the text began or ends in row 0 |
| DamageLimits.LeavingLeavesHighlight | static/term.js:3436-3457 | leaving it and moving to row y leaves the page right if and only if no cursor shows at the saved place or the saved row lies between the row in which the text began and row y |
| DamageLimits.WideningLeavesHighlight | static/term.js:3205-3208 | mode 3 set or reset in row cy and the cursor moved to row y: the page is right if and only if nothing is resized, no cursor shows, or row cy lies between the row in which the text began and row y |
| Decoding.RenderedLineDecodes | static/term.js:794-903 | the HTML of a row is well nested with at most one open span, and reads back, column by column, as each cell's own style and character, the cursor cell included |
| RenderLoop.RenderCells | static/term.js:811-902 | the loop over cells with its current attribute writes that HTML |
| RenderLoop.StyleText | static/term.js:843-869 | the declarations of a span from the bit fields of an attribute; palette lookups are in range |
| RenderLoop.SpanChange | static/term.js:831-874 | a span closes and opens exactly where the attribute changes |
| PackedSgr.SgrPacked | static/term.js:2675-2754 | the interpreter with shifts and masks refines the record (fg, bg, bold, underline, inverse) for every parameter list, and stays in range |
| PackedSgr.ApplyPacked | static/term.js:2683-2750 | one parameter does |
| Attributes.PackUnpack | static/term.js:2718-2719 | attributes in range survive unpacking and packing |
| Attributes.UnpackPack | static/term.js:2718-2751 | styles in range survive packing and unpacking |
| Attributes.SgrStaysInRange | static/term.js:2675-2754 | every attribute SGR reaches is below 2^21 with colours up to 257, so it is never the cursor mark -1 |
| Attributes.RestyleConcat | static/term.js:2675-2754 | parameter lists may be cut in two anywhere outside 38;5;n and 48;5;n |
| Attributes.InverseTwice | static/term.js:2710-2716 | 7 then 27 is the identity exactly on styles that are not inverse, 27 then 7 exactly on inverse ones |
| TabStops.NextStopIsLeast | static/term.js:2367-2373 | NextStop is the least stop right of x on the screen, else the last column |
| TabStops.PrevStopIsGreatest | static/term.js:2359-2365 | PrevStop is the greatest stop left of x, else column 0 |
| TabStops.ForwardTabsSaturate | static/term.js:3494-3499 | forward tabs stay in the last column |
| TabStops.TabsThereAndBack | static/term.js:3549-3554 | n tabs forward and n back is the identity from a stop with n stops to its right |
| History.ScrollExtendsHistory | static/term.js:939-977 | `scroll` appends to the history whatever it cuts off |
| History.StepHistory | static/term.js:1007-1952 | no step but a scroll touches the lines above the screen |
| History.RunHistory | static/term.js:1007-1952 | over every guarded text on one buffer the scrollback is a verbatim suffix of all rows ever pushed off, of at least min(all, half the limit less one) |
| History.WriteHistory | static/term.js:991-1956 | the same for `write`, with fewer rows than the limit |
| ControlSequences.SequenceRoundTrip | static/term.js:1409-1857 | ESC [ prefix p1;...;pn final, for all naturals and prefixes, runs its command with exactly those and leaves the machine ready for the rest of the text |
| ControlSequences.CursorRequest | static/term.js:2777-2823 | CSI 6 n sends the cursor report and changes nothing else |
| ControlSequences.ReportReturns | static/term.js:2526-2551 | the reported position fed back as CUP restores (min(x, cols - 1), y) |
| ControlSequences.RegionRequest | static/term.js:1886-1905 | DECRQSS r sends the margins and changes nothing else |
| ControlSequences.RegionReturns | static/term.js:3466-3472 | the reported margins fed back as DECSTBM restore the region |
| Prefixes.StepKeepsPrefix | static/term.js:1855-1857 | outside CSI and DCS no prefix is pending |
| Prefixes.ReadyBetweenSequences | static/term.js:991-1956 | after any session of a new terminal the next sequence is read afresh |
| Chunks.StepIgnoresPaint | static/term.js:1007-1952 | damage range and row elements never influence the rest of the state |
| Chunks.RunConcat | static/term.js:1007-1952 | the run over a concatenation is the two runs, less what the first one swallows of the second text |
| Chunks.WriteConcat | static/term.js:991-1956 | for every split: two calls equal one call, damage and painting aside, if the second starts after the swallowed characters |
| Chunks.WriteInChunks | static/term.js:991-1956 | every split after which nothing is swallowed is invisible |
| Isolation.StepKeepsSaved | static/term.js:3260-3285 | a step that does not leave, reset or resize keeps the saved buffer |
| Isolation.AlternateScreenIsIsolated | static/term.js:3256-3457 | enter by 47, 1047 or 1049, run any guarded text that stays inside, leave by any: rows, scrollback, base, view, cursor, region and stops are exactly as saved, and the page shows them |
| Isolation.EnteringAgain | static/term.js:3261-3261 | entering while inside changes nothing but the parser |
| Sessions.SavedThroughSession | static/term.js:3261-3284 | the saved buffer survives any number of calls that stay inside |
| Sessions.OpenedIsReady | static/term.js:346-366 | an opened terminal is in shape, its page is right and its history is empty |
| Sessions.CallIsValid | static/term.js:781-1003 | the shape survives every guarded call |
| Sessions.CallKeepsSync | static/term.js:781-1003 | every tracked call leaves the page right |
| Sessions.CallKeepsHistory | static/term.js:939-989 | every call keeps the scrollback a suffix of the history; a resize fits every recorded row |
| Sessions.ResizeFitsHistory | static/term.js:2263-2312 | `resize` makes of the scrollback what it makes of the history |
| Sessions.SessionInvariants | static/term.js:781-1003 | shape, right page and history over every sequence of calls |
| Sessions.EverySession | static/term.js:134-220 | the same from a new terminal on |
| Editing.InsertThenDeleteLines | static/term.js:2881-2925 | IL n then DL n: everything from the cursor down is back except the last n rows of the region; no other line changed |
| Editing.DeleteThenInsertLines | static/term.js:2881-2925 | DL n then IL n: the first n rows are blank, the others are back |
| Editing.ScrollDownThenUp | static/term.js:3502-3523 | SD n then SU n gives the region back except its last n rows |
| Editing.LineShiftsAdd | static/term.js:2881-2925 | shifting lines by n and then by m is shifting by n + m |
| Editing.InsertThenDeleteChars | static/term.js:2831-2942 | ICH n then DCH n on any row, cell by cell: with room for n characters the columns below the last n are restored; on overlong rows and at a pending wrap, what comes out instead |
| Editing.ReverseIndexIsInsertLine | static/term.js:2450-2466 | RI leaves the buffer IL 1 leaves if and only if the cursor is not below the top margin |
| Editing.IndexIsScrollUp | static/term.js:939-977 | a line feed at or below the bottom margin and SU 1 show the same rows and report the same damage; with a top margin and no trimming they leave the same buffer; without a top margin the old first row becomes the newest scrollback row |
| Resizing.ResizeKeepsOverlap | static/term.js:2263-2312 | the overlap keeps its cells, all else is blank, the base stays, and there are base + height rows |
| Resizing.ShrinkingCutsAtTheWidth | static/term.js:2275-2282 | a narrower screen cuts every row at its width |
| Resizing.GrowThenShrink | static/term.js:2263-2317 | growing and shrinking back restores the first cols cells of every row, scrolled off or visible, and the cursor but for a pending wrap |
| Resizing.GrowThenShrinkShows | static/term.js:2319-2319 | and the page shows what it would have shown before |
| Resizing.GrowTwice | static/term.js:2263-2299 | growing in two steps gives the rows of growing at once |
| Resizing.NoStopsInNewColumns | static/term.js:2281-2282 | new columns get no tab stops |
| Showing.PackedNumber | static/term.js:794-812 | the number of a style is its background, its foreground times 2^9 and the flags times 2^18, 2^19 and 2^20 |
| Showing.DefaultStyle | static/term.js:843-844 | the default number is the style 257 on 256 without flags, and no other |
| Showing.DeclaredStyle | static/term.js:845-870 | the declarations of a cell from the fields of its style: `color` has the style's foreground, raised by 8 exactly for bold colours below 8, and is left out exactly at 257; `background-color` has its background, left out exactly at 256; weight and underline follow their flags and the flag for broken bold |
| Showing.GlyphReads | static/term.js:875-893 | the text of every character reads as that character, and blanks and controls as a no-break space |
| Showing.CellDisplays | static/term.js:836-893 | a cell is shown in a span with its style's declarations, in none for the default style, or highlighted at the cursor |
| Showing.LineDisplays | static/term.js:816-902 | a rendered line reads back as cols cells, each with its character and the declarations of its own style |
| Showing.RowDisplays | static/term.js:781-816 | the same for a row of the screen, highlighted exactly at the cursor when it is on, not hidden and in view |
| Showing.PageDisplays | static/term.js:781-906 | a right page shows, row by row and column by column, the cells of the lines in view |
| Printing.PrintsInPlace | static/term.js:1067-1085 | left of the width the character takes exactly the cursor's cell, in the current attribute and translated, and x grows by one |
| Printing.PrintsInNextRow | static/term.js:1074-1082 | with a wrap pending above the bottom margin it takes the first column of the next row, the only cell to change |
| Printing.PrintsAfterScroll | static/term.js:1074-1082 | at or below the margin the region moves up by one row first, and the character takes the first column of the cursor's row; every row and the new history line by line |
| Printing.ScrolledRows | static/term.js:939-977 | `scroll` moves the rows of the region up by one; what becomes of the old first row and of the lines above it |
| Printing.PrintsText | static/term.js:1067-1085 | a text that fits in its row stands there column by column and changes nothing else |
| Printing.PrintsRowAndOne | static/term.js:1067-1085 | of cols + 1 characters the first cols fill the row and the last starts the next row |
| Colours.SgrRun | static/term.js:2675-2754 | SGR leaves everything but the current attribute as it was |
| Colours.SixteenColours | static/term.js:2684-2697 | 30 + c, 40 + c, 90 + c and 100 + c set exactly foreground or background, to c or c + 8 |
| Colours.PaletteColours | static/term.js:2736-2751 | 38;5;n sets exactly the foreground and 48;5;n the background, to the low byte of n |
| Colours.PaletteWithoutNumber | static/term.js:2736-2751 | what an incomplete palette group does |
| Colours.SixteenArePalette | static/term.js:2684-2751 | 30 + c, 40 + c, 90 + c and 100 + c leave the state that 38;5;c, 48;5;c, 38;5;c + 8 and 48;5;c + 8 leave, parameters aside |
| Colours.FlagsAndDefaults | static/term.js:2698-2735 | 0 is the default style; 1, 4, 22 and 24 change exactly their flag; 39 and 49 exactly their colour |
| Colours.InverseExchanges | static/term.js:2707-2721 | 7 and 27 change the inverse flag and exchange the colours exactly if it changes |
| Colours.OthersChangeNothing | static/term.js:2684-2753 | no other single parameter changes anything |
| Colours.SgrSplits | static/term.js:2675-2754 | a list acts like two sequences split at any group boundary |
| Commands.CommandRun | static/term.js:1434-1853 | an editing command changes the buffer and the damage range only |
| Commands.EraseInLineCells | static/term.js:2599-2611 | EL cell by cell: 0 blanks from the cursor on, 1 up to and with it, 2 the width; a row of cols grows by one cell for EL 1 at a pending wrap; nothing else changes |
| Commands.EraseInDisplayCells | static/term.js:2563-2588 | ED cell by cell, for every line of the buffer |
| Commands.EraseCharsCells | static/term.js:2946-2959 | ECH cell by cell |
| Commands.RepeatCells | static/term.js:3557-3563 | REP cell by cell, and where the cursor ends |
| Commands.InsertCharsCells | static/term.js:2831-2845 | ICH cell by cell |
| Commands.DeleteCharsCells | static/term.js:2929-2942 | DCH cell by cell |
| Commands.InsertLinesRows | static/term.js:2881-2901 | IL row by row: down from the cursor to the margin, or, with the cursor below the region, up between margin and cursor |
| Commands.DeleteLinesRows | static/term.js:2905-2925 | DL row by row, the other way round |
| Commands.ScrollRows | static/term.js:3502-3523 | SU moves the region up and SD down, with default blanks |
| Commands.OmittedParameter | static/term.js:1428-1434 | a command without a parameter does what it does with 0 |
| Commands.LongScrollDown | static/term.js:1627-1637 | SD with several parameters does not edit |
| Commands.FurtherParameters | static/term.js:1434-1853 | the other editing commands look at their first parameter only |
| Commands.EraseDamage | static/term.js:2563-2611 | the rows that ED and EL report |
| Commands.ShiftDamage | static/term.js:2881-2925 | the rows that IL, DL, SU and SD report |
| Commands.SilentCommands | static/term.js:2929-2959 | ICH, DCH, ECH and REP report nothing |
| Moving.ArrowKeys | static/term.js:2486-2522 | A is up, B down, C right and D left, stopping at the edges, and nothing else changes |
| Moving.LinesAndRelatives | static/term.js:2850-2869 | E and F go down and up to the first column; a and e right and down |
| Moving.Positions | static/term.js:2526-2551 | CUP and HVP clamp row and column to the screen |
| Moving.ColumnsAndRows | static/term.js:2963-2970 | the absolute column and row commands; G goes up to the column of a pending wrap |
| Moving.ColumnMovesAgainstCup | static/term.js:2506-2522 | every move along a row, from any place, leaves the buffer that CUP to the place of arrival leaves |
| Moving.RowMovesAgainstCup | static/term.js:2486-2502 | and so does every move between rows |
| Moving.ReturnAndBackspace | static/term.js:1036-1046 | CR goes to the first column and BS one column back |
| Moving.Tabs | static/term.js:2359-2373 | HT and CHT go to the first stop after the cursor, CBT to the last before it, and stop at the edges |
| Moving.TabsAdd | static/term.js:3494-3499 | n + 1 tabs are one tab and n tabs, both ways |
| SavedCursor.StepKeepsSavedCursor | static/term.js:1007-1952 | only ESC 7 and CSI s change the saved cursor, resets, buffer switches and resizes included |
| SavedCursor.RunKeepsSavedCursor | static/term.js:1007-1952 | so a run without them keeps it |
| SavedCursor.SaveRun | static/term.js:3476-3479 | saving stores the cursor and changes nothing else |
| SavedCursor.RestoreRun | static/term.js:3483-3486 | restoring puts the cursor where it was saved and changes nothing else |
| SavedCursor.SaveThenRestore | static/term.js:1227-1236 | after any guarded text that does not save again, restoring by either spelling puts the cursor in the place saved by either spelling, if that is still on the screen |
| Settings.LineFeeds | static/term.js:1022-1034 | LF, VT, FF and IND go to the next row or move the region up, keeping the column unless line ends are converted; NEL goes to the first column |
| Settings.ReverseFeeds | static/term.js:2450-2466 | RI goes to the row above or moves the rows down to the bottom margin |
| Settings.TabStopCommands | static/term.js:3571-3578 | HTS adds the cursor's column; TBC takes it away, or all |
| Settings.ScrollRegion | static/term.js:3466-3472 | the margins are the parameters less one, zero meaning the edge, and the cursor is homed |
| Settings.SoftResets | static/term.js:3642-3656 | exactly what a soft reset sets |
| Settings.StatusReports | static/term.js:2777-2823 | the answer to 5, and silence for everything but 5 and 6 |
| Settings.PrivateReport | static/term.js:2777-2823 | the answer to ? 6 |
| Settings.Identifications | static/term.js:3019-3046 | the answers by prefix, and silence unless the parameter is 0 |
| Settings.CursorMode | static/term.js:3258-3260 | mode 25 set shows the cursor and reset hides it (3433-3435), and nothing else changes |
| Settings.AsciiMode | static/term.js:3197-3204 | mode 2 puts all four sets back to ASCII |
| Settings.OtherPrivateModes | static/term.js:3186-3257 | no other private mode changes what is modelled |
| Settings.PublicModes | static/term.js:3172-3182 | nor does any mode without a prefix |
| Settings.ModesOneByOne | static/term.js:3172-3181 | a list of modes is its modes one by one, but the rest of the list is ignored after the alternate screen is entered |
| Settings.WidthMode | static/term.js:3205-3208 | mode 3 set resizes to 132 columns and remembers the width; reset goes back to it and forgets it |
| Settings.FullReset | static/term.js:2469-2472 | RIS leaves an empty screen of the same size with everything default, and a right page |
| Settings.NewTerminalIsFresh | static/term.js:134-220 | so does making and opening a terminal |
| Settings.EntersFreshScreen | static/term.js:3261-3284 | entering the alternate screen does too, and keeps the main buffer |
| Settings.LeavesForSavedScreen | static/term.js:3436-3456 | leaving it brings the main buffer back and nothing else |
| Settings.ViewMoves | static/term.js:979-989 | `scrollDisp` moves the view down by a positive and up by a negative number, within the scrollback, and paints it |
| Settings.WriteReads | static/term.js:991-1003 | `write` brings the view to the bottom and reads its text, and changes nothing else but the page |
| Settings.CursorSwitches | static/term.js:908-922 | the cursor's state becomes what it is told |
| Settings.PostfixIgnored | static/term.js:1422-1426 | an intermediate character in front of the final one is ignored |
| Settings.UnknownFinal | static/term.js:1850-1852 | a control sequence with an unknown final character changes nothing |
| Settings.UnknownEscape | static/term.js:1250-1266 | an escape sequence that means nothing changes nothing |
| Settings.SwallowsAfterHash | static/term.js:1239-1242 | ESC # swallows one character and does nothing else |
| Settings.SwallowsAfterPercent | static/term.js:1143-1149 | ESC % swallows one and goes back to an ASCII set 0 |
| Settings.OtherControls | static/term.js:1010-1068 | control characters outside the nine that are read change nothing |
| Settings.IgnoredTexts | static/term.js:1113-1121 | APC and PM are read up to BEL without effect |
| Settings.LockingShifts | static/term.js:1202-1225 | the set that each locking shift puts to use; the parser stays `escaped` |
| Settings.SingleShifts | static/term.js:1193-1201 | single shifts change nothing and leave it there too |
| Settings.DecimalSpells | static/term.js:2777-2823 | a number is printed as the digits that spell it, without leading zeros |
| Requests.StatusAnswer | static/term.js:1868-1906 | the reply to DECRQSS, text by text |
| Requests.TermcapAnswer | static/term.js:1908-1921 | the reply to a termcap request |
| Requests.OtherRequests | static/term.js:1908-1925 | no other request is answered |
| Requests.UnsignedStrings | static/term.js:1864-1866 | nor is a string that opens like none |
| Resizing.ResizePlaces | static/term.js:2300-2317 | the cursor is clamped, the region freed, the saved main buffer dropped, and nothing else changes |
| Resizing.StopsAdded | static/term.js:2344-2357 | exactly which stops a resize adds |
| Servers.ArrivedIsAccepted | lib/tangle/tty_extension.rb:24-41 | what has arrived for a terminal is what a run accepted for its owner and id while it was registered, in order |
| Servers.SentIsAccepted | lib/tangle/ssh/base.rb:82-85 | a new terminal's channel is sent exactly the input accepted before the first kill, once its shell is open |
| Servers.InputRenews | lib/tangle/ssh/base.rb:82-85 | accepted input renews the time of last use exactly with an open channel and no kill before |
| Servers.OpeningRenews | lib/tangle/ssh/base.rb:82-85 | opening the shell renews it exactly if input was waiting before any kill |
| Servers.SweepTakes | lib/tangle/ssh/base.rb:41-44 | a sweep takes off exactly the terminals with a listener that were last used more than half an hour ago |
| CloseableQueues.CloseableQueue.OnData | lib/tangle/support/closeable_queue.rb:25-36 | a consumer takes waiting items until the end of file, or waits |
| CloseableQueues.CloseableQueue.Proxy | lib/tangle/support/closeable_queue.rb:27-34 | data goes to the callback and the consumer asks again; the sentinel runs the close callback and stops it |
| CloseableQueues.CloseableQueue.PushItem | lib/tangle/support/closeable_queue.rb:8-8 | waiting consumers are called in turn while there are items; the result says whether data was passed on |
| CloseableQueues.CloseableQueue.Close | lib/tangle/support/closeable_queue.rb:11-13 | the sentinel is pushed like an item |
| CloseableQueues.CloseableQueue.OnClose | lib/tangle/support/closeable_queue.rb:18-20 | the close callback is stored |
| CloseableQueues.AttachLate | lib/tangle/ssh/base.rb:82-85 | a shell that opens late is sent all that is waiting, in order, up to the first close |
| CloseableQueues.PushAttached | lib/tangle/support/closeable_queue.rb:25-36 | each arrival keeps the queue a function of what has arrived |
| CloseableQueues.QueueSafety | lib/tangle/support/closeable_queue.rb:11-36 | over every interleaving of input, kills and the opening: what was sent is exactly what arrived before the first close, in order, then at most one close callback, then nothing |
| CloseableQueues.PerformedInOrder | lib/tangle/support/closeable_queue.rb:11-36 | calls from one side of the reactor are performed in their order |
| CloseableQueues.TwoConsumersInterfere | lib/tangle/support/closeable_queue.rb:22-25 | two consumers split the data, and one of them goes on after the close callback |
| Registries.RegisterIsFlat | lib/tangle/tty.rb:40-45 | << adds one entry to the flat map |
| Registries.UnregisterIsFlat | lib/tangle/tty.rb:48-55 | delete takes one entry away and leaves no owner without terminals |
| Registries.CountsOwners | lib/tangle/tty.rb:57-59 | the number of owners is the number of terminals if and only if each owner has exactly one |
| Registries.Registry.Count | lib/tangle/tty.rb:57-59 | `count` returns the former |
| Registries.Tty.Feed | lib/tangle/ssh/base.rb:82-85 | input is pushed, and passing it on renews the time of last use |
| Registries.Tty.SetWriteCallbacks | lib/tangle/ssh/base.rb:82-85 | the close callback is stored, the consumer is attached, and passing on what waited renews the time of last use |
| Registries.Registry.Create | lib/tangle/tty.rb:22-31 | a new terminal is registered and has its listener |
| Registries.Registry.Get | lib/tangle/tty.rb:33-37 | lookup by owner and id |
| Registries.Registry.Add | lib/tangle/tty.rb:40-45 | the nested assignment is the flat one |
| Registries.Registry.Delete | lib/tangle/tty.rb:48-55 | the nested deletion is the flat one |
| Registries.Registry.Close | lib/tangle/ssh/base.rb:32-35 | the listeners run and one kill is published; closing again changes no entry |
| Registries.Registry.SweepOwner | lib/tangle/tty.rb:70-74 | the inner iteration, with deletions from the map it runs over |
| Registries.Registry.Sweep | lib/tangle/tty.rb:76-84 | exactly the expired terminals are gone and each got exactly one kill |
| Servers.HandleInput | lib/tangle/tty_extension.rb:24-33 | input reaches the terminal's queue, or the message gets an error if and only if there is none |
| Servers.HandleKill | lib/tangle/tty_extension.rb:36-41 | a kill pushes the sentinel, or does nothing |
| Servers.SweepIsFilter | lib/tangle/tty.rb:76-84 | the registry after a sweep is the registry without what expires |
| Servers.StepIsOk | lib/tangle/tty.rb:22-84 | every step keeps the invariant of registry and queues |
| Servers.EveryRun | lib/tangle/tty.rb:22-84 | over every run a terminal can be looked up if and only if it was made and no close took it off, and each channel was sent exactly what was accepted before the first kill |
| Servers.GoneIsSilent | lib/tangle/tty_extension.rb:24-33 | nothing arrives for a terminal once a close took it off |
| Servers.FoundUnlessClosedListening | lib/tangle/ssh/base.rb:28-35 | after any run a terminal is still found if and only if every close of it came before its listener was added |
| Servers.FoundUnlessClosed | lib/tangle/tty.rb:22-31 | when every terminal is made as `TTY.create` makes it, it is found if and only if it has never been closed |
| ServerObjects.EmptyRepresents | lib/tangle/tty.rb:16-18 | an empty registry stands for a server without terminals |
| ServerObjects.Create | lib/tangle/tty.rb:22-31 | on the objects, creation does what the two steps of the server value do |
| ServerObjects.CloseTty | lib/tangle/ssh/base.rb:32-35 | on the objects, a close does what the step does |
| ServerObjects.Sweep | lib/tangle/tty.rb:76-84 | on the objects, the sweep does what the step does |
| ServerObjects.Input | lib/tangle/tty_extension.rb:24-33 | on the objects, input does what the step does, incl. the terminal's time of last use |
| ServerObjects.Kill | lib/tangle/tty_extension.rb:36-41 | on the objects, a kill does what the step does |
| ServerObjects.OpenShell | lib/tangle/ssh/base.rb:82-85 | on the objects, the opening of the shell does what the step does |

## Left out

- Browser elements, events, mouse reporting, key mapping, focus events, blink and send timers, bell and logging: user interface. Row elements are the strings set as their HTML. That `refresh` takes the element out of the page meanwhile is not modelled.
- Fields kept together: charsets, charset, glevel and gcharset are one field `charsets`; state, params, currentParam and prefix are one field `parser`, in which currentParam is split into a number and a text; refreshStart, refreshEnd and children are one field `paint`. Assignments to one of them are updates of that record.
- postfix: stored but never consulted.
- insertMode, originMode, wraparoundMode, applicationKeypad, applicationCursor and the mouse flags: stored but never consulted by what is modelled.
- The missing number that HVP stores in x without a second parameter is -1, a column no valid state has.
- HVP and some other commands write defaults back into their parameter list, which nothing reads afterwards.
- The tab stops are a set and not an object; the source replaces that object on reset, before it could be shared with the saved buffer.
- The line-drawing table, the palette, the flag for broken bold and the identification strings of the terminal are parameters (`Env`); all other national tables are null in the source.
- savedX and savedY are 0 where the source has them undefined, which its restore command turns into 0 as well.
- Terminals.Terminal.Write: a guard that fails ends the modelled run at that character: what the source does from a state out of shape is not described.
- Damage.WriteKeepsSync: its condition on each step (`Damage.Tracked`) is enough but not always needed, because damage reported later in the same text can cover a step that escapes it; `DamageExact.EveryWriteExactly` is the exact condition.
- The commands that are never dispatched (setAttrInRectangle, fillRectangle, insertColumns, deleteColumns and others commented out).
- EventMachine's queue is not part of the repository: it is taken as a FIFO of items and a FIFO of waiting consumers, with operations scheduled from other threads run in order by the reactor. `on_close` and the first pop of an opening shell are one operation.
- Registry iteration follows no particular order, which covers the insertion order of a Ruby hash; the mutex is not modelled, each registry operation being one step.
- Kills are counted as published messages; that the page answers them is not modelled.
- remote.rb, local.rb, server, client, command line, Thrift code and deployment: network and cloud calls or thin wrappers.
- static/tty.js: windows and tabs, which would add only list facts.
- Characters outside the basic plane: a Dafny character is a Unicode scalar, while the source reads UTF-16 units one by one, so that such a character takes two cells there and one here.
- Terminals.Terminal.SendDeviceAttributes: the strings that the source chooses by the terminal's name are parameters.
- Terminals.Terminal.SoftReset: does not model the insert, origin, wraparound and keypad flags, which nothing modelled consults.
- Terminals.Terminal.SetOneMode: does not model the stored flags of modes 1, 4, 6, 7 and of the mouse, for the same reason.
- Terminals.Terminal.ResetOneMode: likewise.
- Terminals.Terminal.Reinitialize: does not model the flags that the constructor clears and nothing modelled consults.
- Terminals.Terminal.Flush: does not record what is handed to the handler.
- DamageExact.WriteInSyncExactly: its condition speaks of the state the run ends in; conditions on the state before the call are given for the families of texts in `DamageLimits`.
