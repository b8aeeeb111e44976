# visin-playout firmware, modelled in Dafny

The firmware runs on an ESP32 that drives a strip of 50 addressable LEDs.
Every `loop()` iteration POSTs to the "current board" endpoint. On status 200
it clears the strip's pixel buffer. It then draws pixel `i` from the colour
name of board entry `i`, using a fixed table of eight names (WHITE, GREEN,
COLOR1..COLOR6). Names outside the table stay black. The iteration is then
counted. When the counter passes 200, it is reset. The HTTP client is pointed
at the brightness endpoint, and the strip's brightness is set from the reply
if that reply has status 200. The client is then pointed back at the board
endpoint.

The project has four modules:

- `Colours` (`colours.dfy`): the colour table. `Lookup` is the source's
  chain of name comparisons. It is checked against `Palette`, the same table
  written as a map.
- `Board` (`board.dfy`): `Frame(board)`, the whole pixel buffer that a
  successful poll leaves. The JSON document is reduced to the sequence of
  its entries' colour names. An entry the document lacks reads as a name
  outside the table.
- `Sketch` (`sketch.dfy`): the firmware's globals as the class `Controller`.
  Its fields are the pixel array, the brightness, `frameCounter` and the URL
  the HTTP client is set to. Two ghost fields record traces that the
  firmware does not keep: the URL of every POST sent, and the index of every
  `setPixelColor` call. The class has
  `setup()` as its constructor and `loop()` as `Loop`, with `Clear`,
  `SetPixelColor` and the render loop `Render`. `Loop` is proved equal to
  the value-level `Step` on `Snapshot`. Network replies are an input
  (`Replies`): both status codes, the board's names and the brightness value.
- `Schedule` (`schedule.dfy`): runs of many iterations from setup, stated
  by iteration number. The counter is the iteration count modulo 201. The
  refresh fires on every 201st iteration, whatever the board replies were.
  The buffer and the brightness are those of the last successful poll of
  each kind.

The refresh condition is `frameCounter > 200`. Its period is 201 iterations,
not 200, and the model keeps it as written.

## Model

| member | source | states |
|---|---|---|
| `Colours.Lookup` | src/main.cpp:81-112 | a name gives a triple exactly when it is one of the eight table names, and then gives that name's entry of the table, which is never black |
| `Colours.PixelFor` | src/main.cpp:74-112 | after a render a pixel is black exactly when its name is not in the table, and otherwise shows the table's triple for it |
| `Colours.RecognisedTriples` | src/main.cpp:81-112 | each of the eight names gives its fixed literal triple, e.g. WHITE (255,255,255), GREEN (186,128,36), COLOR6 (184,0,172) |
| `Board.NameAt` | src/main.cpp:77 | the name read for index i is entry i when the board has it, and a name outside the table otherwise |
| `Board.Blank` | src/main.cpp:74 | a cleared buffer is exactly what rendering a board with no entries leaves |
| `Board.Frame` | src/main.cpp:74-113 | no contract of its own: the buffer after a render, whose properties the `Board.Frame*` lemmas state |
| `Board.WritesBelowOrdered` | src/main.cpp:75-112 | the setPixelColor calls of a render go to indices below 50 only, in strictly increasing order, and hit exactly the indices whose entry names a table colour |
| `Board.FrameBlackIffUnrecognised` | src/main.cpp:74-113 | after a render pixel i is black exactly when entry i names no table colour, and otherwise has that colour |
| `Board.FrameLocal` | src/main.cpp:75-77 | pixel i of a render depends only on entry i of the board |
| `Board.FrameIgnoresExtraEntries` | src/main.cpp:75 | entries after the 50th never affect the buffer |
| `Board.FrameOfUnknownNamesIsBlank` | src/main.cpp:74-113 | a board with no table names renders as an all-black buffer |
| `Sketch.Init` | src/main.cpp:47-60 | the state after setup is settled: a full 50-pixel buffer, the counter in 0..200 and the client on the board URL, which is where every run lemma starts |
| `Sketch.Poll` | src/main.cpp:66-120 | no contract of its own: the board POST and render, stated by `Sketch.StepRequests` and `Sketch.StepPixels` |
| `Sketch.Refresh` | src/main.cpp:122-147 | no contract of its own: the brightness refresh, stated by `Sketch.StepRequests` and `Sketch.StepBrightness` |
| `Sketch.Step` | src/main.cpp:64-147 | no contract of its own: one `loop()` iteration as a value, which `Sketch.Controller.Loop` is proved equal to and the `Sketch.Step*` lemmas describe |
| `Sketch.Controller.constructor` | src/main.cpp:50-61 | setup leaves a fresh 50-pixel buffer, all black, at brightness 255, with the counter at 0 and the client on the board URL |
| `Sketch.Controller.Clear` | src/main.cpp:74 | every pixel of the buffer becomes black |
| `Sketch.Controller.SetPixelColor` | src/main.cpp:83 | pixel n takes the given triple, no other pixel changes, and the write is appended to the write log; n must be inside the strip |
| `Sketch.Controller.Render` | src/main.cpp:74-113 | the buffer afterwards is exactly `Frame(board)`, whatever it held before, and the writes it makes are exactly `WritesBelow(board, 50)`: increasing indices below 50 whose name is in the table |
| `Sketch.Controller.Loop` | src/main.cpp:64-148 | one iteration takes the state to `Step` of the old state; the counter stays in 0..200, the client ends on the board URL, and the array is the same object; a failed board poll makes no setPixelColor call at all, and a successful one makes exactly the ordered render writes `WritesBelow(board, 50)` |
| `Sketch.StepKeepsSettled` | src/main.cpp:122-147 | from a state with counter in 0..200 and the client on the board URL, an iteration leads to such a state again |
| `Sketch.StepRequests` | src/main.cpp:66-147 | an iteration POSTs once to the current URL, and once more to the brightness URL exactly when counter + 1 > 200; the counter then resets to 0, otherwise it grows by one |
| `Sketch.StepPixels` | src/main.cpp:68-120 | a non-200 board reply leaves the buffer unchanged; a 200 reply replaces all of it with the rendered frame |
| `Sketch.StepBrightness` | src/main.cpp:133-143 | brightness becomes the received value when the iteration refreshes and the reply is 200, and is unchanged in every other case |
| `Schedule.RunCounter` | src/main.cpp:122-127 | from a settled state, after k iterations the counter is (start + k) mod 201 and the state is still settled |
| `Schedule.FiresEvery201` | src/main.cpp:122-124 | from setup, iteration k (from 0) refreshes the brightness exactly when k + 1 is a multiple of 201, whatever the board replies were |
| `Schedule.RunRequests` | src/main.cpp:128-146 | from setup, every iteration POSTs to the board URL, and every 201st also POSTs to the brightness URL |
| `Schedule.BoardPolls` | src/main.cpp:64-66 | n iterations from setup send exactly n board polls |
| `Schedule.BrightnessRequests` | src/main.cpp:122-133 | n iterations from setup send exactly n/201 brightness requests, one per 201 iterations |
| `Schedule.RunBrightness` | src/main.cpp:55-143 | after any run from setup the brightness is the value of the last refresh whose reply was 200, or 255 if there was none |
| `Schedule.RunPixels` | src/main.cpp:68-120 | after any run from setup the buffer is the frame of the last board reply with status 200, or all black if there was none |

## Left out

- Wi-Fi access-point setup and `Serial` (src/main.cpp:52, 57): I/O with no effect on the modelled state.
- The HTTP client itself (`addHeader`, `begin`, `POST`, `end`, `getStream`): the model keeps only the URL the client is set to and the log of POSTs with their URLs. Opening and closing connections is not modelled. The `http.end()` after a successful poll (src/main.cpp:119) does not change the URL.
- ArduinoJson parsing (src/main.cpp:71-72, 138-141): the board is the sequence of its entries' colour names, and the brightness is an integer input. A missing entry reads as the empty name. The library's exact value for a missing field is not modelled, and neither are parse errors, which count as a 200 reply with some names.
- `strip.show()` and `strip.begin()`: hardware output, so only the buffer that would be sent is modelled.
- The brightness is kept as the integer received. `setBrightness` takes a `uint8_t`, and the truncation to 8 bits is not modelled. The library also rescales the stored pixel bytes when brightness changes, and that is not modelled either: the buffer holds the triples as passed to `setPixelColor`.
- The frame-rate sleep after a successful render (src/main.cpp:116): timing only.
- Channel order: the strip is wired GRB (src/main.cpp:79-80), and the triples are kept in the order they are passed.
- No brightness clamping and no bounds check on short board arrays. The code does neither. Short arrays read as unknown names, and brightness values outside 0..255 are stored unchanged.
- The Arduino runtime's endless repetition of `loop()` is a list of replies folded by `Run`, not a method.
