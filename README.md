# Block canvas model

`block_agent.py` is a small desktop application. A user generates lettered square blocks on a
canvas. A vision assistant looks at a screenshot of the canvas and replies with a command such
as `up T` or `down T`, and the application moves the named block. This project models, in
Dafny, the deterministic core of that application:

- the grid on which new blocks are placed;
- block generation from the letter entry;
- the two draggable canvas entities, blocks and lines, with their move and drag handlers;
- the command dispatcher that parses a command and moves the first block with the named letter.

Modules and files:

- `text.dfy` (`Text`): ASCII models of `str.isalpha`, `str.upper`, `str.strip` and `str.split()`.
- `layout.dfy` (`Layout`): canvas points, `blocks_per_row` and the grid slot of the n-th block.
- `blocks.dfy` (`Blocks`): classes `DraggableBlock` and `DraggableLine`. Each one's position and
  drag anchor are mutable fields updated by its handlers.
- `commands.dfy` (`Commands`): chat messages with their exact texts, and the pure meaning of a
  command (`Resolve`, `Dispatch`).
- `app.dfy` (`App`): class `BlockApp`. It holds the block list, the chat log and the cycle
  counter. Its `GenerateBlock` and `ProcessCommand` methods are proved against the functions of
  `Commands` and `Layout`.

`BlockApp.Valid` is kept by every method. It says three things:

- blocks are distinct objects with upper-case letters;
- each block's letter is drawn at its centre;
- the i-th block was created at the i-th grid slot.

A block's creation slot (`self.x`, `self.y`) is a constant. Its canvas position is a separate
mutable field, because the source never updates `self.x`/`self.y` after moving a block.

The code behaves as follows where a reader might expect otherwise, and the model does the same:

- The code does not reject a duplicate letter. `GenerateBlock` appends a new block whenever the
  letter is accepted.
- The code has no "unknown action" outcome. With a valid letter, an action other than `up` or
  `down` falls through the `for ... else` and reports "No block with letter X found", even when
  such a block exists (`Commands.OtherActionNotFound`, `Commands.SidewaysBExample`).
- The fallback command from the instruction entry is upper-cased, while the action is compared
  case-sensitively with `up` and `down`. So a command taken from the entry never moves a block
  (`App.NoReplyNeverMoves`).

## Model

| member | source | states |
|---|---|---|
| Layout.BlocksPerRow | block_agent.py:199 | the column count n satisfies n*50 <= width < (n+1)*50 |
| Layout.Slot | block_agent.py:278-289 | the slot of the n-th block is inside the margin, left of perRow*50+10, and aligned to the 50-pixel grid |
| Layout.SlotNumberInverts | block_agent.py:280-286 | row*perRow + column of the n-th slot gives back n |
| Layout.SlotInjective | block_agent.py:278-289 | different block counts never get the same slot when perRow >= 1 |
| Layout.TwoColumnsExample | block_agent.py:278-289 | on a grid two columns wide the first three blocks go to (10, 10), (60, 10) and (10, 60) |
| Layout.SlotSuccessor | block_agent.py:280-286 | the next slot is one block to the right, or the first column of the next row after a full row |
| Text.IsAlpha | block_agent.py:209 | `str.isalpha`: true exactly for a non-empty string of ASCII letters; AcceptedLetter and Resolve build on it |
| Text.UpperChar | block_agent.py:142 | lower-case letters map to upper case, every other character is kept, and no result is lower case |
| Text.Upper | block_agent.py:142 | upper-casing keeps the length and maps every character by UpperChar |
| Text.Strip | block_agent.py:142 | the result is s without its leading and trailing whitespace, and neither starts nor ends with whitespace |
| Text.StripUnique | block_agent.py:142 | any non-space-bounded run surrounded only by whitespace is the result of strip |
| Text.StripIdempotent | block_agent.py:142 | stripping twice is stripping once |
| Text.Split | block_agent.py:249 | every word of split is non-empty and holds no whitespace |
| Text.SplitJoin | block_agent.py:249 | splitting words joined by single spaces gives the words back |
| Text.SplitBlank | block_agent.py:249 | a string of whitespace splits into no words |
| Text.SplitNoLower | block_agent.py:249 | a string without lower-case letters splits into words without lower-case letters |
| App.AcceptedLetter | block_agent.py:208-209 | an entry is accepted exactly when its stripped form is one ASCII letter, and the block letter is that letter upper-cased |
| App.AcceptedSingle | block_agent.py:208-209 | a lone letter is accepted, upper-cased |
| App.AcceptedPadded | block_agent.py:140-142 | any amount of whitespace before and after the letter is ignored |
| App.AcceptedAfterStrip | block_agent.py:140-142 | stripping the entry first changes nothing |
| App.PaddedEntryExample | block_agent.py:140-142 | the entry " b " is accepted as B |
| App.BlockApp.constructor | block_agent.py:195-199 | a new application has no blocks, an empty chat, counter 0 and the column count of its canvas width |
| App.BlockApp.GenerateBlock | block_agent.py:206-217 | an accepted letter appends one fresh block with that letter at the slot of the old block count and reports it, even if the letter is already present; otherwise the blocks are unchanged and the hint is reported |
| App.DistinctOrigins | block_agent.py:278-289 | no two blocks were created at the same slot |
| App.CommandText | block_agent.py:242-246 | the command is the reply when one was read; otherwise it is the stripped, upper-cased entry, of the stripped length and without lower-case letters |
| App.NoReplyNeverMoves | block_agent.py:242-262 | a command taken from the entry never moves a block |
| App.BlockApp.ProcessCommand | block_agent.py:221-272 | the counter always advances; without a screenshot nothing else changes; otherwise exactly the block chosen by Dispatch moves by Shift, every other block stays, and the chat gains the report |
| App.BlockApp.RunCommand | block_agent.py:249-272 | the chat gains Report(Dispatch(command, letters)), and only the first block with that letter moves, in the direction of the action |
| App.BlockApp.Execute | block_agent.py:250-272 | the same, for the words of the command |
| App.BlockApp.MoveFirst | block_agent.py:256-268 | with action up/down and a block lettered l, only the first such block moves and the move is reported; otherwise nothing moves and "not found" is reported |
| App.BlockApp.MoveAt | block_agent.py:258-265 | only block i moves, by Shift in the given direction |
| App.BlockApp.FindTarget | block_agent.py:256-268 | the scan stops exactly when the action is up/down and some block has letter l, and then at the first such block |
| App.BlockA | block_agent.py:195-217 | on a fresh canvas 100 pixels wide, an entry accepted as A puts block A at (10, 10) and reports it |
| App.BlocksAB | block_agent.py:206-217 | a second entry accepted as B puts block B at (60, 10), to the right of A |
| App.ThreeBlocks | block_agent.py:206-217 | a third entry accepted as C starts the second row at (10, 60), and the chat holds the three reports in order |
| App.RaiseB | block_agent.py:256-261 | with blocks A, B, C at their slots and a reply resolving to "up B", B rises by 20 and A and C stay |
| App.GenerateThenRaise | block_agent.py:195-272 | the whole session from a fresh canvas: A, B and C generated, then "up B" raises B from (60, 10) to (60, -10), and the chat ends with the move report |
| Commands.Render | block_agent.py:214-272 | the exact chat text of each message, written at lines 214, 217, 260, 264, 268, 270 and 272; RenderShape and RenderInjective state its properties |
| Commands.RenderShape | block_agent.py:214-272 | each message text has a fixed length and marker character, and carries the letter at a fixed position |
| Commands.RenderInjective | block_agent.py:214-272 | different chat messages have different texts |
| Commands.ActionOf | block_agent.py:258-262 | the action is Up exactly for 'up' and Down exactly for 'down', compared case-sensitively |
| Commands.Shift | block_agent.py:90-96 | moving by the default step keeps x and decreases y for up, increases y for down |
| Commands.FirstIndex | block_agent.py:256-257 | there is no index exactly when the letter is absent; otherwise it is the first position holding the letter |
| Commands.Resolve | block_agent.py:249-272 | Malformed exactly when there are not two words; NotSingleLetter exactly when the second is not one letter; Moved exactly when the action is up/down and the letter is present, at its first position |
| Commands.ResolveTwoWords | block_agent.py:254-268 | with a valid letter, the outcome is a move of the first match when the action is up/down and a match exists, else "not found" |
| Commands.Dispatch | block_agent.py:249-272 | the outcome of a command is Resolve applied to its whitespace-separated words; MoveCommand, OtherActionNotFound, BadLetterRejected and WordCountMalformed state it on concrete command shapes |
| Commands.Report | block_agent.py:258-272 | the chat line of each outcome: the move report, the not-found line, the letter message, or the format message |
| Commands.MoveCommand | block_agent.py:256-265 | "up X" and "down X" move the first block lettered X, or report "not found" if there is none |
| Commands.OtherActionNotFound | block_agent.py:256-268 | any other action with a valid letter reports "not found", whatever the blocks are |
| Commands.BadLetterRejected | block_agent.py:254-270 | a second word that is not one letter is rejected with the letter message |
| Commands.WordCountMalformed | block_agent.py:249-272 | words joined by spaces are a malformed command unless there are exactly two |
| Commands.ExtraWordExample | block_agent.py:249-272 | "up A extra" is malformed |
| Commands.BlankMalformed | block_agent.py:249-272 | a command of only whitespace is malformed |
| Commands.LowerCaseNotFound | block_agent.py:256-268 | a lower-case letter never matches the upper-case block letters |
| Commands.NoLowerNeverMoves | block_agent.py:258-262 | a command without lower-case letters never moves a block |
| Commands.UpBExample | block_agent.py:256-261 | "up B" on blocks A, B, C moves the block at index 1 |
| Commands.SidewaysBExample | block_agent.py:256-268 | "sideways B" on blocks A, B, C reports that there is no block B |
| Blocks.DraggableBlock.constructor | block_agent.py:58-65 | the square sits at the given slot, the letter at its centre, and the anchor at (0, 0) |
| Blocks.DraggableBlock.MoveUp | block_agent.py:90-92 | square and letter both go up by the distance, 20 by default; x is unchanged |
| Blocks.DraggableBlock.MoveDown | block_agent.py:94-96 | square and letter both go down by the distance, 20 by default; x is unchanged |
| Blocks.UpThenDown | block_agent.py:90-96 | moving up then down by the same distance restores square and letter exactly |
| Blocks.DraggableBlock.OnStart | block_agent.py:71-74 | the pointer becomes the anchor; nothing moves |
| Blocks.DraggableBlock.OnDrag | block_agent.py:76-84 | the block moves by pointer minus anchor, and the pointer becomes the anchor |
| Blocks.DraggableBlock.OnDrop | block_agent.py:86-88 | the anchor is reset to (0, 0); nothing moves |
| Blocks.GestureTelescopes | block_agent.py:76-84 | the per-event deltas of a drag sum to the last pointer minus the first anchor |
| Blocks.DraggableBlock.PressAndDrag | block_agent.py:67-84 | after a press at p0 and drags at p1..pk the block has moved by pk - p0 and the anchor is pk |
| Blocks.DraggableLine.constructor | block_agent.py:100-104 | the line runs between the given ends, with its tag, and the anchor at (0, 0) |
| Blocks.DraggableLine.OnStart | block_agent.py:110-112 | the pointer becomes the anchor |
| Blocks.DraggableLine.OnDrag | block_agent.py:114-119 | both ends move by pointer minus anchor, so the line keeps its direction and length |
| Blocks.DraggableLine.OnDrop | block_agent.py:121-122 | the anchor is reset to (0, 0) |

## Left out

- `ChatGPTInterface` (HTTP request, base64 encoding, JSON response). The assistant's reply is an
  input of `ProcessCommand`: `Some(text)` when the response held a message, `None` when reading
  it failed and the bare `except` kept the entry command.
- Exceptions raised outside the bare `except`. `requests.post` and `response.json()` (lines
  54-55) and the screenshot `save` (line 301) can raise before the reply is read. Then
  `process_command` stops after the counter increment: no chat line, no move, and the entry is
  kept. The model treats this like a missing screenshot: `ProcessCommand` with
  `screenshotSaved == false` yields exactly that state.
- A reply whose content is not a string is not modelled. The source would fail on it at `split`.
- Screenshot capture and the file-existence check. Whether the screenshot was saved is the
  `screenshotSaved` input. The counter is kept, but the file name it builds is not.
- The five-second polling loop with `time.sleep`. It waits on the wall clock and never changes
  the outcome.
- The tkinter widgets: chat panel, entry boxes, buttons, canvas item creation and colours. The
  chat panel is a log of `Message` values whose texts `Render` gives. Clearing the entry boxes is
  left out, because the entries are inputs.
- `print` calls: they only write debugging output.
- `create_movable_lines`: it is never called. The line's width and fill colour are drawing
  attributes and are not kept.
- Unicode. `isalpha`, `upper`, `strip` and `split` are modelled on ASCII only. Python's
  whitespace is modelled as the characters 9-13 and 28-32. Non-ASCII letters, and upper-casing
  that changes length, are out.
- Canvas tags. `on_drag` moves every canvas item carrying the block's letter as its tag, so
  blocks that share a letter would be dragged together. Repeated `tag_bind` calls on one tag
  would also replace each other. The model drags one block at a time.
- A canvas narrower than 50 pixels. `blocks_per_row` would be 0 and `find_empty_space_for_block`
  would raise `ZeroDivisionError`. The `BlockApp` constructor requires a width of at least 50.
