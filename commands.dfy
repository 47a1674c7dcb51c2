/** The chat messages of the application and the pure meaning of a two-word move command
    such as "up T": how it is parsed and which block it moves. */
module Commands {
  import opened Text
  import opened Layout
  import Blocks

  datatype Option<T> = None | Some(value: T)

  datatype Direction = Up | Down

  /** The lines the application writes to its chat panel. */
  datatype Message =
    | Generated(letter: char)
    | EnterSingleLetter
    | MovedBlock(letter: char, dir: Direction)
    | NoBlock(letter: char)
    | LetterNotAlphabetic
    | InvalidCommand

  /** The exact text of each chat message. */
  function Render(m: Message): string {
    match m
    case Generated(l) => "Generated block: " + [l]
    case EnterSingleLetter => "Enter a single letter to generate a block."
    case MovedBlock(l, Up) => "AI Agent: Moved block " + [l] + " up."
    case MovedBlock(l, Down) => "AI Agent: Moved block " + [l] + " down."
    case NoBlock(l) => "No block with letter " + [l] + " found."
    case LetterNotAlphabetic => "Block letter must be a single alphabetic character."
    case InvalidCommand => "Invalid command. Format is: <ACTION> <BLOCK_LETTER>"
  }

  /** Length of each message's text, a position in it and the character there; texts of
      the same length are told apart at the same position. */
  function Fingerprint(m: Message): (int, nat, char) {
    match m
    case Generated(_) => (18, 0, 'G')
    case EnterSingleLetter => (42, 0, 'E')
    case MovedBlock(_, Up) => (27, 0, 'A')
    case MovedBlock(_, Down) => (29, 0, 'A')
    case NoBlock(_) => (29, 0, 'N')
    case LetterNotAlphabetic => (51, 50, '.')
    case InvalidCommand => (51, 50, '>')
  }

  /** Where the letter of a message with a letter sits in its text. */
  function LetterPosition(m: Message): nat {
    match m
    case Generated(_) => 17
    case MovedBlock(_, _) => 22
    case NoBlock(_) => 21
    case _ => 0
  }

  lemma RenderShape(m: Message)
    ensures var (n, i, c) := Fingerprint(m); |Render(m)| == n && i < n && Render(m)[i] == c
    ensures (m.Generated? || m.MovedBlock? || m.NoBlock?) ==>
      LetterPosition(m) < |Render(m)| && Render(m)[LetterPosition(m)] == m.letter
  {
    match m
    case Generated(_) =>
    case EnterSingleLetter =>
    case MovedBlock(_, Up) =>
    case MovedBlock(_, Down) =>
    case NoBlock(_) =>
    case LetterNotAlphabetic =>
    case InvalidCommand =>
  }

  /** The chat transcript is unambiguous: different messages have different texts. */
  lemma RenderInjective(m: Message, n: Message)
    requires Render(m) == Render(n)
    ensures m == n
  {
    RenderShape(m);
    RenderShape(n);
    SameFingerprint(m, n);
  }

  /** Messages with the same fingerprint and the same letter are the same message. */
  lemma SameFingerprint(m: Message, n: Message)
    requires Fingerprint(m).0 == Fingerprint(n).0
    requires Fingerprint(m).1 == Fingerprint(n).1 ==> Fingerprint(m).2 == Fingerprint(n).2
    requires m.Generated? || m.MovedBlock? || m.NoBlock? ==>
      LetterPosition(m) == LetterPosition(n) ==> m.letter == n.letter
    ensures m == n
  {
  }

  /** The action word, compared case-sensitively with 'up' and 'down'. */
  function ActionOf(action: string): (r: Option<Direction>)
    ensures r == Some(Up) <==> action == "up"
    ensures r == Some(Down) <==> action == "down"
  {
    if action == "up" then Some(Up)
    else if action == "down" then Some(Down)
    else None
  }

  /** Where a block's square goes when moved by the default step of `move_up` and
      `move_down`. */
  function Shift(p: Point, d: Direction): (q: Point)
    ensures q.x == p.x
    ensures d == Up ==> q.y < p.y
    ensures d == Down ==> q.y > p.y
  {
    match d
    case Up => Point(p.x, p.y - Blocks.DefaultStep)
    case Down => Point(p.x, p.y + Blocks.DefaultStep)
  }

  /** Position of the first occurrence of `l` in `letters`, scanning in list order. */
  function FirstIndex(letters: seq<char>, l: char): (r: Option<nat>)
    ensures r.None? <==> l !in letters
    ensures r.Some? ==> r.value < |letters| && letters[r.value] == l &&
                        forall k :: 0 <= k < r.value ==> letters[k] != l
  {
    if letters == [] then None
    else if letters[0] == l then Some(0)
    else match FirstIndex(letters[1..], l)
      case None => None
      case Some(i) => Some(i + 1)
  }

  /** What the dispatcher does with a command, given the letters of the blocks in order. */
  datatype Outcome =
    | Moved(index: nat, letter: char, dir: Direction)
    | NotFound(letter: char)
    | NotSingleLetter
    | Malformed

  /** The second word is one alphabetic character. */
  predicate SingleLetter(w: string) {
    |w| == 1 && IsAlpha(w)
  }

  /** Resolve the words of a command against the blocks' `letters`. A matching block with
      an action other than 'up' or 'down' is not an error of its own: the scan goes on and
      ends in "not found". */
  function Resolve(ws: seq<string>, letters: seq<char>): (r: Outcome)
    ensures r.Malformed? <==> |ws| != 2
    ensures r.NotSingleLetter? <==> |ws| == 2 && !SingleLetter(ws[1])
    ensures r.Moved? <==> |ws| == 2 && SingleLetter(ws[1]) && ActionOf(ws[0]).Some? && ws[1][0] in letters
    ensures r.Moved? ==> r.index < |letters| && letters[r.index] == r.letter && ws[1] == [r.letter] &&
                         (forall k :: 0 <= k < r.index ==> letters[k] != r.letter) &&
                         ActionOf(ws[0]) == Some(r.dir)
    ensures r.NotFound? ==> ws[1] == [r.letter]
  {
    if |ws| != 2 then Malformed
    else if !SingleLetter(ws[1]) then NotSingleLetter
    else
      var l := ws[1][0];
      match (ActionOf(ws[0]), FirstIndex(letters, l))
      case (Some(d), Some(i)) => Moved(i, l, d)
      case _ => NotFound(l)
  }

  /** With a valid letter, the outcome is a move of the first block with that letter when the
      action is 'up' or 'down' and such a block exists, and "not found" otherwise. */
  lemma ResolveTwoWords(action: string, l: char, letters: seq<char>)
    requires IsLetter(l)
    ensures var d, f := ActionOf(action), FirstIndex(letters, l);
      Resolve([action, [l]], letters) ==
        if d.Some? && f.Some? then Moved(f.value, l, d.value) else NotFound(l)
  {
    assert SingleLetter([l]);
  }

  /** Split `command` on whitespace and resolve its words against the blocks' `letters`. */
  function Dispatch(command: string, letters: seq<char>): Outcome {
    Resolve(Split(command), letters)
  }

  /** The chat line for an outcome. */
  function Report(o: Outcome): Message {
    match o
    case Moved(_, l, d) => MovedBlock(l, d)
    case NotFound(l) => NoBlock(l)
    case NotSingleLetter => LetterNotAlphabetic
    case Malformed => InvalidCommand
  }

  /** The two words of "`action` `l`". */
  lemma TwoWords(action: string, l: char)
    requires action != [] && NoSpace(action) && !IsSpace(l)
    ensures Split(action + " " + [l]) == [action, [l]]
  {
    SplitJoin([action, [l]]);
    assert Join([action, [l]]) == action + " " + [l];
  }

  /** "up X" and "down X" move the first block lettered X, and report "not found" if there
      is none. */
  lemma MoveCommand(action: string, d: Direction, l: char, letters: seq<char>)
    requires ActionOf(action) == Some(d) && IsLetter(l)
    ensures Dispatch(action + " " + [l], letters) ==
      if l in letters then Moved(FirstIndex(letters, l).value, l, d) else NotFound(l)
  {
    assert action != [] && NoSpace(action);
    CommandOfTwoWords(action, l, letters);
  }

  /** Any other action word with a valid letter reports "not found", even when a block with
      that letter exists. */
  lemma OtherActionNotFound(action: string, l: char, letters: seq<char>)
    requires action != [] && NoSpace(action) && action != "up" && action != "down"
    requires IsLetter(l)
    ensures Dispatch(action + " " + [l], letters) == NotFound(l)
  {
    CommandOfTwoWords(action, l, letters);
  }

  lemma CommandOfTwoWords(action: string, l: char, letters: seq<char>)
    requires action != [] && NoSpace(action) && IsLetter(l)
    ensures Dispatch(action + " " + [l], letters) == Resolve([action, [l]], letters)
  {
    TwoWords(action, l);
  }

  /** A second word that is longer than one character or not a letter is rejected,
      whatever the blocks are. */
  lemma BadLetterRejected(action: string, w: string, letters: seq<char>)
    requires action != [] && NoSpace(action) && w != [] && NoSpace(w)
    requires !SingleLetter(w)
    ensures Dispatch(action + " " + w, letters) == NotSingleLetter
  {
    SplitJoin([action, w]);
    assert Join([action, w]) == action + " " + w;
  }

  /** Words joined by spaces make a malformed command unless there are exactly two. */
  lemma WordCountMalformed(ws: seq<string>, letters: seq<char>)
    requires forall i :: 0 <= i < |ws| ==> ws[i] != [] && NoSpace(ws[i])
    requires |ws| != 2
    ensures Dispatch(Join(ws), letters) == Malformed
  {
    SplitJoin(ws);
  }

  /** "up A extra" is malformed. */
  lemma ExtraWordExample(letters: seq<char>)
    ensures Dispatch("up A extra", letters) == Malformed
  {
    WordCountMalformed(["up", "A", "extra"], letters);
    assert Join(["up", "A", "extra"]) == "up A extra";
  }

  /** A command of only whitespace is malformed. */
  lemma BlankMalformed(command: string, letters: seq<char>)
    requires forall i :: 0 <= i < |command| ==> IsSpace(command[i])
    ensures Dispatch(command, letters) == Malformed
  {
    SplitBlank(command);
  }

  /** Block letters are upper case, so a lower-case letter in a command never matches. */
  lemma LowerCaseNotFound(action: string, l: char, letters: seq<char>)
    requires action != [] && NoSpace(action) && IsLower(l)
    requires forall k :: 0 <= k < |letters| ==> IsUpper(letters[k])
    ensures Dispatch(action + " " + [l], letters) == NotFound(l)
  {
    CommandOfTwoWords(action, l, letters);
    assert l !in letters;
    ResolveTwoWords(action, l, letters);
  }

  /** A command without lower-case letters has no 'up' or 'down' action word. */
  lemma NoLowerNeverMoves(command: string, letters: seq<char>)
    requires forall k :: 0 <= k < |command| ==> !IsLower(command[k])
    ensures !Dispatch(command, letters).Moved?
  {
    var ws := Split(command);
    SplitNoLower(command);
    if |ws| == 2 {
      var action := ws[0];
      assert action != [] && !IsLower(action[0]);
      assert action != "up" && action != "down";
    }
  }

  /** "up B" on blocks A, B, C moves the block at index 1. */
  lemma UpBExample()
    ensures Dispatch("up B", "ABC") == Moved(1, 'B', Up)
  {
    MoveCommand("up", Up, 'B', "ABC");
    assert "up" + " " + ['B'] == "up B";
  }

  /** "sideways B" on blocks A, B, C reports that no block B exists. */
  lemma SidewaysBExample()
    ensures Dispatch("sideways B", "ABC") == NotFound('B')
  {
    OtherActionNotFound("sideways", 'B', "ABC");
    assert "sideways" + " " + ['B'] == "sideways B";
  }
}
