/**
 * The firmware's state and its loop iteration. The network and the JSON
 * documents are inputs: one Replies value per iteration holds what the two
 * servers answer. The POST requests the firmware sends are recorded, in
 * order, with the endpoint each one went to.
 */
module Sketch {
  import opened Colours
  import opened Board

  /** The two server URLs the HTTP client can be pointed at. */
  datatype Endpoint = BoardUrl | BrightnessUrl

  /** Every iteration past this many starts a brightness refresh. */
  const RefreshAfter: int := 200

  /** Brightness set at startup. */
  const InitialBrightness: int := 255

  /** The success status code; every other code is treated as a failure. */
  const StatusOk: int := 200

  /**
   * What the servers answer during one iteration: the board poll's status
   * and colour names, and the status and value of the brightness request,
   * which are read only when that iteration refreshes the brightness.
   */
  datatype Replies = Replies(boardStatus: int, board: seq<string>, brightnessStatus: int, brightness: int)

  /** The firmware's observable state as a value. */
  datatype Snapshot = Snapshot(
    pixels: seq<Rgb>,
    brightness: int,
    frameCounter: int,
    endpoint: Endpoint,
    posts: seq<Endpoint>)

  /** The state after setup: cleared strip, full brightness, counter 0, client on the board URL. */
  function Init(): (s: Snapshot)
    ensures Settled(s)
  {
    Snapshot(Blank(), InitialBrightness, 0, BoardUrl, [])
  }

  /** Whether the iteration that starts in s refreshes the brightness. */
  predicate Fires(s: Snapshot)
  {
    s.frameCounter + 1 > RefreshAfter
  }

  /** The board poll: one POST to the current endpoint, and a render on success. */
  function Poll(s: Snapshot, r: Replies): (t: Snapshot)
  {
    s.(posts := s.posts + [s.endpoint],
       pixels := if r.boardStatus == StatusOk then Frame(r.board) else s.pixels)
  }

  /**
   * The brightness refresh: counter back to 0, one POST to the brightness
   * URL, the new value applied only on success, and the client pointed back
   * at the board URL.
   */
  function Refresh(s: Snapshot, r: Replies): (t: Snapshot)
  {
    var switched := s.(frameCounter := 0, endpoint := BrightnessUrl);
    var asked := switched.(posts := switched.posts + [switched.endpoint]);
    var applied := if r.brightnessStatus == StatusOk then asked.(brightness := r.brightness) else asked;
    applied.(endpoint := BoardUrl)
  }

  /** One iteration of the loop. */
  function Step(s: Snapshot, r: Replies): (t: Snapshot)
  {
    var polled := Poll(s, r);
    var counted := polled.(frameCounter := polled.frameCounter + 1);
    if counted.frameCounter > RefreshAfter then Refresh(counted, r) else counted
  }

  /** The state after one iteration per element of rs, in order. */
  function Run(s: Snapshot, rs: seq<Replies>): Snapshot
  {
    if rs == [] then s else Step(Run(s, rs[..|rs| - 1]), rs[|rs| - 1])
  }

  /** The state between iterations: a full buffer, the counter in range, the client on the board URL. */
  predicate Settled(s: Snapshot)
  {
    |s.pixels| == LedCount && 0 <= s.frameCounter <= RefreshAfter && s.endpoint == BoardUrl
  }

  /**
   * The firmware's globals: the strip's pixel buffer and brightness, the
   * frame counter and the URL the HTTP client is set to.
   */
  class Controller {
    var pixels: array<Rgb>
    var brightness: int
    var frameCounter: int
    var endpoint: Endpoint
    /** The URL of every POST sent so far, in order: a trace, not a variable of the firmware. */
    ghost var posts: seq<Endpoint>
    /** The index of every setPixelColor call so far, in order: a trace as well. */
    ghost var written: seq<nat>

    ghost predicate Valid()
      reads this
    {
      pixels.Length == LedCount && 0 <= frameCounter <= RefreshAfter && endpoint == BoardUrl
    }

    /** The state as a value. */
    ghost function State(): (s: Snapshot)
      reads this, pixels
    {
      Snapshot(pixels[..], brightness, frameCounter, endpoint, posts)
    }

    /** setup(): a cleared strip at brightness 255, the counter at 0, the client on the board URL. */
    constructor ()
      ensures Valid() && fresh(pixels)
      ensures State() == Init()
    {
      pixels := new Rgb[LedCount](_ => Black);
      brightness := InitialBrightness;
      frameCounter := 0;
      endpoint := BoardUrl;
      posts := [];
      written := [];
    }

    /** strip.clear(): every pixel black. */
    method Clear()
      modifies pixels
      ensures pixels[..] == seq(pixels.Length, _ => Black)
    {
      for i := 0 to pixels.Length
        invariant forall k :: 0 <= k < i ==> pixels[k] == Black
      {
        pixels[i] := Black;
      }
    }

    /** strip.setPixelColor(n, r, g, b): pixel n takes c, the others keep theirs. */
    method SetPixelColor(n: nat, c: Rgb)
      requires n < pixels.Length
      modifies pixels, this`written
      ensures pixels[n] == c
      ensures forall k :: 0 <= k < pixels.Length && k != n ==> pixels[k] == old(pixels[k])
      ensures written == old(written) + [n]
    {
      pixels[n] := c;
      written := written + [n];
    }

    /**
     * The render of a successful board poll: clear the buffer, then write
     * indices 0 to LedCount - 1 in order, each from its own entry, leaving
     * pixels whose name is not in the table black.
     */
    method Render(board: seq<string>)
      requires pixels.Length == LedCount
      modifies pixels, this`written
      ensures pixels[..] == Frame(board)
      ensures written == old(written) + WritesBelow(board, LedCount)
    {
      Clear();
      for i := 0 to LedCount
        invariant forall k :: 0 <= k < i ==> pixels[k] == Frame(board)[k]
        invariant forall k :: i <= k < LedCount ==> pixels[k] == Black
        invariant written == old(written) + WritesBelow(board, i)
      {
        var name := NameAt(board, i);
        match Lookup(name)
        case Some(c) =>
          SetPixelColor(i, c);
        case None =>
      }
    }

    /**
     * loop(): poll the board and render it on status 200, count the
     * iteration, and once the counter passes 200 refresh the brightness
     * from the brightness URL before returning to the board URL.
     */
    method Loop(r: Replies)
      requires Valid()
      modifies this, pixels
      ensures Valid() && pixels == old(pixels)
      ensures State() == Step(old(State()), r)
      ensures written == old(written) + (if r.boardStatus == StatusOk then WritesBelow(r.board, LedCount) else [])
    {
      posts := posts + [endpoint];
      if r.boardStatus == StatusOk {
        Render(r.board);
      }
      frameCounter := frameCounter + 1;
      if frameCounter > RefreshAfter {
        frameCounter := 0;
        endpoint := BrightnessUrl;
        posts := posts + [endpoint];
        if r.brightnessStatus == StatusOk {
          brightness := r.brightness;
        }
        endpoint := BoardUrl;
      }
    }
  }

  /** A settled state stays settled: the counter stays in 0..200 and the client ends on the board URL. */
  lemma StepKeepsSettled(s: Snapshot, r: Replies)
    requires Settled(s)
    ensures Settled(Step(s, r))
  {
  }

  /**
   * An iteration sends one POST to the current endpoint, and a second one,
   * to the brightness URL, exactly when it refreshes; the counter is 0 after
   * a refresh and one more otherwise.
   */
  lemma StepRequests(s: Snapshot, r: Replies)
    ensures Step(s, r).posts == s.posts + [s.endpoint] + (if Fires(s) then [BrightnessUrl] else [])
    ensures Step(s, r).frameCounter == if Fires(s) then 0 else s.frameCounter + 1
    ensures Step(s, r).endpoint == if Fires(s) then BoardUrl else s.endpoint
  {
  }

  /** A failed board poll leaves the buffer as it was; a successful one replaces all of it. */
  lemma StepPixels(s: Snapshot, r: Replies)
    ensures r.boardStatus != StatusOk ==> Step(s, r).pixels == s.pixels
    ensures r.boardStatus == StatusOk ==> Step(s, r).pixels == Frame(r.board)
  {
  }

  /** The brightness changes only in a refresh whose request succeeded, and then to the value received. */
  lemma StepBrightness(s: Snapshot, r: Replies)
    ensures Fires(s) && r.brightnessStatus == StatusOk ==> Step(s, r).brightness == r.brightness
    ensures !(Fires(s) && r.brightnessStatus == StatusOk) ==> Step(s, r).brightness == s.brightness
  {
  }
}
