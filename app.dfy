/** The application object: the blocks on the canvas in creation order, the chat log, and
    the two operations that change them, block generation and command processing. */
module App {
  import opened Text
  import opened Layout
  import opened Blocks
  import opened Commands

  /** The letter `generate_block` accepts from the entry box: the entry is stripped and
      upper-cased and must then be exactly one alphabetic character. */
  function AcceptedLetter(entry: string): (r: Option<char>)
    ensures r.Some? <==> |Strip(entry)| == 1 && IsLetter(Strip(entry)[0])
    ensures r.Some? ==> r.value == UpperChar(Strip(entry)[0]) && IsUpper(r.value)
  {
    var letter := Upper(Strip(entry));
    if |letter| == 1 && IsAlpha(letter) then Some(letter[0]) else None
  }

  /** A lone letter is accepted, upper-cased. */
  lemma AcceptedSingle(c: char)
    requires IsLetter(c)
    ensures AcceptedLetter([c]) == Some(UpperChar(c))
  {
    assert StrippedAt([c], [c], 0);
    StripUnique([c], [c], 0);
  }

  /** Whitespace around the letter is ignored, however much there is on either side. */
  lemma AcceptedPadded(before: string, c: char, after: string)
    requires forall k :: 0 <= k < |before| ==> IsSpace(before[k])
    requires forall k :: 0 <= k < |after| ==> IsSpace(after[k])
    requires IsLetter(c)
    ensures AcceptedLetter(before + [c] + after) == Some(UpperChar(c))
  {
    var s := before + [c] + after;
    assert s[|before|..|before| + 1] == [c];
    assert StrippedAt(s, [c], |before|);
    StripUnique(s, [c], |before|);
  }

  /** Pre-stripping the entry changes nothing. */
  lemma AcceptedAfterStrip(entry: string)
    ensures AcceptedLetter(Strip(entry)) == AcceptedLetter(entry)
  {
    StripIdempotent(entry);
  }

  /** The command `process_command` parses: the assistant's reply when the response holds
      one, otherwise the stripped, upper-cased instruction entry. */
  function CommandText(entry: string, reply: Option<string>): (r: string)
    ensures reply.Some? ==> r == reply.value
    ensures reply.None? ==> |r| == |Strip(entry)| && forall k :: 0 <= k < |r| ==> !IsLower(r[k])
  {
    if reply.Some? then reply.value else Upper(Strip(entry))
  }

  /** Without a reply nothing moves: the upper-cased entry never names the action 'up' or
      'down'. */
  lemma NoReplyNeverMoves(entry: string, letters: seq<char>)
    ensures !Dispatch(CommandText(entry, None), letters).Moved?
  {
    NoLowerNeverMoves(CommandText(entry, None), letters);
  }

  /** The letters of `bs` in order. */
  function LettersOf(bs: seq<DraggableBlock>): (r: seq<char>)
    ensures |r| == |bs| && forall k :: 0 <= k < |bs| ==> r[k] == bs[k].letter
  {
    seq(|bs|, k requires 0 <= k < |bs| => bs[k].letter)
  }

  class BlockApp {
    /** Grid columns, fixed from the canvas width when the application starts. */
    const blocksPerRow: nat
    /** `current_blocks`: every block ever generated, oldest first. */
    var blocks: seq<DraggableBlock>
    /** The lines written to the chat panel, oldest first. */
    var chat: seq<Message>
    /** Number of commands processed; it names the screenshot of each cycle. */
    var counter: nat

    /** Blocks are distinct objects with upper-case letters, and the i-th block was
        created at the i-th grid slot. */
    ghost predicate Valid()
      reads this`blocks, blocks
    {
      blocksPerRow >= 1 &&
      (forall i, j :: 0 <= i < j < |blocks| ==> blocks[i] != blocks[j]) &&
      forall i :: 0 <= i < |blocks| ==>
        blocks[i].Valid() && blocks[i].origin == Slot(i, blocksPerRow) && IsUpper(blocks[i].letter)
    }

    /** The blocks' letters in list order. */
    function Letters(): (r: seq<char>)
      reads this`blocks
      ensures |r| == |blocks| && forall i :: 0 <= i < |blocks| ==> r[i] == blocks[i].letter
    {
      LettersOf(blocks)
    }

    constructor (canvasWidth: nat)
      requires canvasWidth >= BlockSize
      ensures Valid()
      ensures blocksPerRow == BlocksPerRow(canvasWidth)
      ensures blocks == [] && chat == [] && counter == 0
    {
      blocksPerRow := BlocksPerRow(canvasWidth);
      blocks := [];
      chat := [];
      counter := 0;
    }

    /** `generate_block`: an accepted letter gets a new block at the slot of the current
        block count, appended to the list; anything else only writes a hint to the chat.
        A letter that is already on the canvas is accepted again. */
    method GenerateBlock(entry: string)
      requires Valid()
      modifies this`blocks, this`chat
      ensures Valid()
      ensures AcceptedLetter(entry).None? ==>
        blocks == old(blocks) && chat == old(chat) + [EnterSingleLetter]
      ensures AcceptedLetter(entry).Some? ==>
        var n, c := |old(blocks)|, AcceptedLetter(entry).value;
        |blocks| == n + 1 && blocks[..n] == old(blocks) && fresh(blocks[n]) &&
        blocks[n].letter == c && blocks[n].shapePos == Slot(n, blocksPerRow) &&
        blocks[n].dragData == Origin &&
        chat == old(chat) + [Generated(c)]
    {
      var letter := Upper(Strip(entry));
      if |letter| == 1 && IsAlpha(letter) {
        var at := Slot(|blocks|, blocksPerRow);
        var block := new DraggableBlock(at, letter[0]);
        blocks := blocks + [block];
        chat := chat + [Generated(letter[0])];
      } else {
        chat := chat + [EnterSingleLetter];
      }
    }

    /** `process_command`: the counter that names the screenshot always advances. When no
        screenshot was saved nothing else happens. Otherwise the command is the assistant's
        reply when one could be read from the response, and the stripped, upper-cased
        instruction entry when not; the first block in list order whose letter it names is
        moved up or down by the default step, and every other block stays where it was. */
    method ProcessCommand(screenshotSaved: bool, entry: string, reply: Option<string>)
      requires Valid()
      modifies this`chat, this`counter, blocks`shapePos, blocks`labelPos
      ensures Valid()
      ensures counter == old(counter) + 1
      ensures !screenshotSaved ==>
        chat == old(chat) &&
        forall k :: 0 <= k < |blocks| ==> blocks[k].shapePos == old(blocks[k].shapePos)
      ensures screenshotSaved ==>
        var o := Dispatch(CommandText(entry, reply), Letters());
        chat == old(chat) + [Report(o)] &&
        forall k :: 0 <= k < |blocks| ==>
          blocks[k].shapePos == if o.Moved? && o.index == k then Shift(old(blocks[k].shapePos), o.dir)
                                else old(blocks[k].shapePos)
    {
      counter := counter + 1;
      if screenshotSaved {
        RunCommand(CommandText(entry, reply));
      }
    }

    /** Parse `command` into words and act on them. */
    method RunCommand(command: string)
      requires Valid()
      modifies this`chat, blocks`shapePos, blocks`labelPos
      ensures Valid()
      ensures var o := Dispatch(command, Letters());
        chat == old(chat) + [Report(o)] &&
        forall k :: 0 <= k < |blocks| ==>
          blocks[k].shapePos == if o.Moved? && o.index == k then Shift(old(blocks[k].shapePos), o.dir)
                                else old(blocks[k].shapePos)
    {
      var parts := Split(command);
      Execute(parts);
    }

    /** The branches of `process_command` on the words `ws` of the command. */
    method Execute(ws: seq<string>)
      requires Valid()
      modifies this`chat, blocks`shapePos, blocks`labelPos
      ensures Valid()
      ensures var o := Resolve(ws, Letters());
        chat == old(chat) + [Report(o)] &&
        forall k :: 0 <= k < |blocks| ==>
          blocks[k].shapePos == if o.Moved? && o.index == k then Shift(old(blocks[k].shapePos), o.dir)
                                else old(blocks[k].shapePos)
    {
      if |ws| == 2 {
        var action, blockLetter := ws[0], ws[1];
        if |blockLetter| == 1 && IsAlpha(blockLetter) {
          var l := blockLetter[0];
          assert blockLetter == [l] && ws == [action, [l]];
          ResolveTwoWords(action, l, Letters());
          MoveFirst(action, l);
        } else {
          chat := chat + [LetterNotAlphabetic];
        }
      } else {
        chat := chat + [InvalidCommand];
      }
    }

    /** The scan and the move: the first block lettered `l` moves in the direction of
        `action` when there is one; otherwise nothing moves and "not found" is reported. */
    method MoveFirst(action: string, l: char)
      requires Valid()
      modifies this`chat, blocks`shapePos, blocks`labelPos
      ensures Valid()
      ensures var d, f := ActionOf(action), FirstIndex(Letters(), l);
        chat == old(chat) + [if d.Some? && f.Some? then MovedBlock(l, d.value) else NoBlock(l)] &&
        forall k :: 0 <= k < |blocks| ==>
          blocks[k].shapePos == if d.Some? && f == Some(k) then Shift(old(blocks[k].shapePos), d.value)
                                else old(blocks[k].shapePos)
    {
      var found, i := FindTarget(action, l);
      if found {
        assert FirstIndex(Letters(), l) == Some(i);
        var d := if action == "up" then Up else Down;
        MoveAt(i, d);
        chat := chat + [MovedBlock(l, d)];
      } else {
        chat := chat + [NoBlock(l)];
      }
    }

    /** `move_up()` or `move_down()` on the block at `i`, with the default step. */
    method MoveAt(i: nat, d: Direction)
      requires Valid() && i < |blocks|
      modifies blocks`shapePos, blocks`labelPos
      ensures Valid()
      ensures forall k :: 0 <= k < |blocks| ==>
        blocks[k].shapePos == if k == i then Shift(old(blocks[k].shapePos), d) else old(blocks[k].shapePos)
    {
      var block := blocks[i];
      match d
      case Up => block.MoveUp();
      case Down => block.MoveDown();
    }

    /** The `for ... else` scan of `process_command`: it stops at the first block lettered
        `l` when `action` is 'up' or 'down'. A block with that letter and any other action
        does not stop the scan, which then runs to the end without finding anything. */
    method FindTarget(action: string, l: char) returns (found: bool, index: nat)
      ensures found <==> ActionOf(action).Some? && l in Letters()
      ensures found ==> index < |blocks| && blocks[index].letter == l &&
                        forall k :: 0 <= k < index ==> blocks[k].letter != l
    {
      found, index := false, 0;
      while index < |blocks|
        invariant 0 <= index <= |blocks|
        invariant forall k :: 0 <= k < index ==> blocks[k].letter != l || ActionOf(action).None?
      {
        if blocks[index].letter == l {
          if action == "up" {
            found := true;
            break;
          } else if action == "down" {
            found := true;
            break;
          }
        }
        index := index + 1;
      }
    }
  }

  /** Blocks never share a creation slot. */
  lemma DistinctOrigins(app: BlockApp)
    requires app.Valid()
    ensures forall i, j :: 0 <= i < j < |app.blocks| ==> app.blocks[i].origin != app.blocks[j].origin
  {
    forall i, j | 0 <= i < j < |app.blocks|
      ensures app.blocks[i].origin != app.blocks[j].origin
    {
      SlotInjective(i, j, app.blocksPerRow);
    }
  }

  /** A lower-case letter padded with blanks, " b ", is accepted as B. */
  lemma PaddedEntryExample()
    ensures AcceptedLetter(" b ") == Some('B')
  {
    AcceptedPadded(" ", 'b', " ");
  }

  /** A fresh application on a canvas 100 pixels wide, so two columns, after an entry
      accepted as A: block A sits at the first slot. */
  method BlockA(ea: string) returns (app: BlockApp)
    requires AcceptedLetter(ea) == Some('A')
    ensures app.Valid() && app.blocksPerRow == 2 && app.Letters() == "A" && app.counter == 0
    ensures app.blocks[0].shapePos == Point(10, 10)
    ensures app.chat == [Generated('A')]
    ensures fresh(app) && fresh(app.blocks[0])
  {
    app := new BlockApp(100);
    app.GenerateBlock(ea);
    TwoColumnsExample();
  }

  /** Then an entry accepted as B: block B sits to the right of A. */
  method BlocksAB(ea: string, eb: string) returns (app: BlockApp)
    requires AcceptedLetter(ea) == Some('A') && AcceptedLetter(eb) == Some('B')
    ensures app.Valid() && app.blocksPerRow == 2 && app.Letters() == "AB" && app.counter == 0
    ensures app.blocks[0].shapePos == Point(10, 10) && app.blocks[1].shapePos == Point(60, 10)
    ensures app.chat == [Generated('A'), Generated('B')]
    ensures fresh(app) && fresh(app.blocks[0]) && fresh(app.blocks[1])
  {
    app := BlockA(ea);
    app.GenerateBlock(eb);
    TwoColumnsExample();
  }

  /** Then an entry accepted as C: the row of two is full, so block C starts the second
      row. */
  method ThreeBlocks(ea: string, eb: string, ec: string) returns (app: BlockApp)
    requires AcceptedLetter(ea) == Some('A') && AcceptedLetter(eb) == Some('B')
    requires AcceptedLetter(ec) == Some('C')
    ensures app.Valid() && app.Letters() == "ABC" && app.counter == 0
    ensures app.blocks[0].shapePos == Point(10, 10) && app.blocks[1].shapePos == Point(60, 10)
    ensures app.blocks[2].shapePos == Point(10, 60)
    ensures app.chat == [Generated('A'), Generated('B'), Generated('C')]
    ensures fresh(app) && forall k :: 0 <= k < |app.blocks| ==> fresh(app.blocks[k])
  {
    app := BlocksAB(ea, eb);
    app.GenerateBlock(ec);
    TwoColumnsExample();
  }

  /** Blocks A, B and C at the first three slots of a canvas two columns wide, then a
      reply such as "up B": B rises by 20 and the other two stay at their slots. */
  method RaiseB(app: BlockApp, reply: string)
    requires app.Valid() && app.Letters() == "ABC"
    requires app.blocks[0].shapePos == Point(10, 10) && app.blocks[1].shapePos == Point(60, 10)
    requires app.blocks[2].shapePos == Point(10, 60)
    requires Dispatch(reply, "ABC") == Moved(1, 'B', Up)
    modifies app`chat, app`counter, app.blocks`shapePos, app.blocks`labelPos
    ensures app.blocks[0].shapePos == Point(10, 10) && app.blocks[1].shapePos == Point(60, -10)
    ensures app.blocks[2].shapePos == Point(10, 60)
    ensures app.chat == old(app.chat) + [MovedBlock('B', Up)]
  {
    app.ProcessCommand(true, "", Some(reply));
  }

  /** The whole session: A, B and C generated from their entries on a fresh canvas two
      columns wide, then the reply "up B". */
  method GenerateThenRaise(ea: string, eb: string, ec: string) returns (app: BlockApp)
    requires AcceptedLetter(ea) == Some('A') && AcceptedLetter(eb) == Some('B')
    requires AcceptedLetter(ec) == Some('C')
    ensures app.Letters() == "ABC"
    ensures app.blocks[0].shapePos == Point(10, 10) && app.blocks[1].shapePos == Point(60, -10)
    ensures app.blocks[2].shapePos == Point(10, 60)
    ensures app.chat == [Generated('A'), Generated('B'), Generated('C')] + [MovedBlock('B', Up)]
  {
    app := ThreeBlocks(ea, eb, ec);
    UpBExample();
    RaiseB(app, "up B");
  }
}
