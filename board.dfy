/**
 * What one successful board poll draws: the board document is abstracted to
 * the sequence of its entries' colour names, and the frame is the content of
 * the whole pixel buffer after the render.
 */
module Board {
  import opened Colours

  /** Number of pixels on the strip. */
  const LedCount: nat := 50

  /**
   * The colour name read for index i. An entry the document does not have
   * reads as the empty name, which is outside the colour table.
   */
  function NameAt(board: seq<string>, i: nat): (name: string)
    ensures i < |board| ==> name == board[i]
    ensures i >= |board| ==> name !in Palette
  {
    if i < |board| then board[i] else ""
  }

  /** The buffer after a render: every pixel drawn from its own entry, on a cleared strip. */
  function Frame(board: seq<string>): (f: seq<Rgb>)
  {
    seq(LedCount, i requires 0 <= i < LedCount => PixelFor(NameAt(board, i)))
  }

  /** The buffer of a strip that has only been cleared. */
  function Blank(): (f: seq<Rgb>)
    ensures f == Frame([])
  {
    seq(LedCount, _ => Black)
  }

  /**
   * The indices below k that a render passes to setPixelColor, in the order
   * it passes them: those whose entry names a colour of the table.
   */
  function WritesBelow(board: seq<string>, k: nat): seq<nat>
  {
    if k == 0 then []
    else WritesBelow(board, k - 1) + (if NameAt(board, k - 1) in Palette then [k - 1] else [])
  }

  /**
   * The writes of a render go to indices below k only, each index at most
   * once and in increasing order, and they are exactly the indices whose
   * entry names a table colour.
   */
  lemma {:induction false} WritesBelowOrdered(board: seq<string>, k: nat)
    ensures forall j :: 0 <= j < |WritesBelow(board, k)| ==> WritesBelow(board, k)[j] < k
    ensures forall j, l :: 0 <= j < l < |WritesBelow(board, k)| ==> WritesBelow(board, k)[j] < WritesBelow(board, k)[l]
    ensures forall i :: 0 <= i < k ==> (i in WritesBelow(board, k) <==> NameAt(board, i) in Palette)
  {
    if k > 0 {
      WritesBelowOrdered(board, k - 1);
    }
  }

  /** A pixel is black after a render exactly when its entry names no colour of the table. */
  lemma FrameBlackIffUnrecognised(board: seq<string>, i: nat)
    requires i < LedCount
    ensures |Frame(board)| == LedCount
    ensures Frame(board)[i] == Black <==> NameAt(board, i) !in Palette
    ensures NameAt(board, i) in Palette ==> Frame(board)[i] == Palette[NameAt(board, i)]
  {
  }

  /** Pixel i depends on entry i alone. */
  lemma FrameLocal(b1: seq<string>, b2: seq<string>, i: nat)
    requires i < LedCount
    requires NameAt(b1, i) == NameAt(b2, i)
    ensures Frame(b1)[i] == Frame(b2)[i]
  {
  }

  /** Entries past the last pixel are never read. */
  lemma FrameIgnoresExtraEntries(board: seq<string>, extra: seq<string>)
    requires |board| >= LedCount
    ensures Frame(board + extra) == Frame(board)
  {
    forall i | 0 <= i < LedCount
      ensures Frame(board + extra)[i] == Frame(board)[i]
    {
      FrameLocal(board + extra, board, i);
    }
  }

  /** A board whose names are all outside the table draws the blank strip. */
  lemma FrameOfUnknownNamesIsBlank(board: seq<string>)
    requires forall i :: 0 <= i < |board| ==> board[i] !in Palette
    ensures Frame(board) == Blank()
  {
    forall i | 0 <= i < LedCount
      ensures Frame(board)[i] == Blank()[i]
    {
      FrameBlackIffUnrecognised(board, i);
    }
  }
}
