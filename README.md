# soft-render: frame fill, frame-loop state and profdiff, in Dafny

This project models three pieces of the soft-render repository and proves
properties of them.

- **The soft-render fill** (`main.c`). Each frame, the loop writes every
  pixel of a locked 24-bit RGB texture in place. Pixel `(x, y)` takes bytes
  `y * pitch + 3 * x` to `+2`: red is `(x > width / 2) * 128`, green is
  `y % 64`, blue is `x % 64`. Module `Pixels`, file `pixels.dfy`.
- **The frame-loop state** (`main.c`). This is the `run` flag, the window
  size that resize events set, the size the texture was last created for,
  and whether a texture exists. The texture is re-created exactly when the
  size changes. Module `FrameLoop`, file `frame_loop.dfy`. The pure
  functions `ApplyEvent`, `Frame` and `RunFrames` specify the class
  `FrameLoop.Loop`, whose fields are the locals of `run`.
- **The block table** (`prof.h`). It holds the closed enumeration `loop`,
  `draw`, `pixel`, the per-block record `struct profblock` (the datatype
  `Prof.ProfBlock`), and the name table. Module `Prof`, file `prof.dfy`.
  The C integer types it uses (`unsigned`, SDL's `Sint32`) are in module
  `CTypes`, file `ctypes.dfy`.
- **The profdiff tool** (`profdiff.c`). It checks the argument count and
  loads one fixed-length block table per file into consecutive slots. It
  then reports every block of every file, and compares each file with the
  next one, skipping the `pixel` block. Module `ProfDiff`, file
  `profdiff.dfy`. The functions `ReportLines` and `DiffLines` specify the
  printing loops.

External calls are inputs:

- An SDL event batch is a `seq<Event>`.
- Texture creation and locking are success flags, in `FrameInput`.
- `fopen`/`fread` are a map `fs` from each file name that can be opened to
  the table read from it.
- Printed lines are `Line` records that carry the values the format string
  prints.

## Model

| member | source | states |
|---|---|---|
| `Prof.Ordinal` | prof.h:4-9 | the ordinals are LOOP = 0, DRAW = 1, PIXEL = 2, all below `PROFNAME_LAST` = 3 |
| `Prof.FromOrdinal` | prof.h:4-9 | every index below `PROFNAME_LAST` is the ordinal of some block |
| `Prof.OrdinalInjective` | prof.h:4-9 | distinct enumerators have distinct ordinals |
| `Prof.NameTable` | prof.h:23-29 | `profstr` has exactly `PROFNAME_LAST` entries, and the entry at each block's ordinal names it: "loop", "draw", "pixel" |
| `Prof.NamesDistinct` | prof.h:25-29 | the three names are pairwise distinct |
| `Prof.TableLength` | prof.h:8-21 | a table of `struct profblock` records (the datatype `Prof.ProfBlock`: three counters, three clocks, `active`) has fixed length `PROFNAME_LAST`, so every block's ordinal indexes it; profdiff reads this length per file |
| `Pixels.Fill` | main.c:115-132 | after the nested loops, the buffer is `Rendered` of the old buffer: bytes of the frame get their channel value, every other byte is unchanged |
| `Pixels.PixelBytes` | main.c:119-127 | pixel `(x, y)` in range occupies `y*pitch + 3*x`, `+1`, `+2`, holding R, G, B in that order; R is 128 exactly when `x > width/2` and 0 otherwise; G = `y % 64` and B = `x % 64`, both below 64 |
| `Pixels.WrittenInBounds` | main.c:117-120 | with `pitch >= 3*width`, every byte written for an in-range pixel lies below `pitch*height` |
| `Pixels.PixelsDisjoint` | main.c:117-123 | distinct pixels write disjoint byte triples |
| `Pixels.PaddingUnchanged` | main.c:117-123 | the padding bytes `3*width .. pitch-1` of each visible row keep their value |
| `Pixels.TailUnchanged` | main.c:117 | every byte from `pitch*height` on keeps its value |
| `Pixels.ChangedIsPixelByte` | main.c:117-123 | any byte the fill changes is channel `c < 3` of a pixel with `x < width` and `y < height` |
| `FrameLoop.ToUnsigned` | main.c:61-62 | storing the `Sint32` event data into `unsigned` keeps it modulo 2^32 |
| `FrameLoop.RunAfterEvents` | main.c:49-72 | after a batch, `run` is set iff it was set before and no event was a quit or a window close; polling never changes the texture or the size it was created for |
| `FrameLoop.SizeWithoutResize` | main.c:59-63 | a batch without resize events leaves the window size unchanged |
| `FrameLoop.SizeFromLastResize` | main.c:59-63 | after a batch, the window size is the one the last resize event reported |
| `FrameLoop.ResizeKeepsRun` | main.c:59-63 | a resize event sets width and height and leaves `run` alone |
| `FrameLoop.ReallocExactlyOnChange` | main.c:75-100 | creation fails (and `run` returns 3) only if the size changed; otherwise, afterwards the texture's size equals the window size, and the state changes only if the size changed |
| `FrameLoop.FirstFrameReallocates` | main.c:13-16 | from 256x256 versus 0x0, the first iteration reallocates unless its events resize to exactly 0x0, and always when it has no resize |
| `FrameLoop.NoReallocWithoutResize` | main.c:75-98 | after an iteration that continues, a batch without resizes does not reallocate |
| `FrameLoop.StopEndsRun` | main.c:47-58 | after a quit or close event the current frame still completes, then `run` returns 0, whatever input would follow |
| `FrameLoop.Lock` | main.c:107-111 | locking leaves the state alone; it continues iff a texture exists and SDL reports success, and otherwise `run` returns 1 |
| `FrameLoop.Loop.constructor` | main.c:12-16 | the initial locals: `run` set, 256x256, old size 0x0, no texture |
| `FrameLoop.Loop.HandleEvent` | main.c:50-71 | the fields after one event are `ApplyEvent` of the fields before |
| `FrameLoop.Loop.PollEvents` | main.c:49-72 | the fields after a batch are `ApplyEvents` of the fields before |
| `FrameLoop.Loop.Reallocate` | main.c:75-100 | reallocates iff the size differs from the old size; on success the old size becomes the current size; failure drops the texture |
| `FrameLoop.Loop.Iterate` | main.c:47-112 | one iteration's new state and status are `Frame` of the old state |
| `FrameLoop.Loop.Run` | main.c:47-154 | `while (run)` over a script of frames yields `RunFrames` of the initial state |
| `ProfDiff.Reciprocal` | profdiff.c:50 | `1 / x` is finite iff `x != 0`, and is then the inverse of `x` |
| `ProfDiff.AvgRate` | profdiff.c:68-72 | `1 / (clock / count)` is `count / clock` for a nonzero count and clock; it is non-finite for a zero clock; it is 0 for a zero count and a nonzero clock |
| `ProfDiff.RateDiff` | profdiff.c:74 | the difference is finite iff both rates are, and then it is `b - a` |
| `ProfDiff.RateExample` | profdiff.c:62-74 | 100 counts in 1 s versus 200 counts in 1 s give rates 100 and 200 and a difference of 100 |
| `ProfDiff.Loaded` | profdiff.c:39 | the arguments after the program name fill `argc - 1` slots |
| `ProfDiff.ReportAt` | profdiff.c:41-53 | line `4*i` is the header of file `i`; line `4*i + 1 + k` reports block `k` of file `i` with its name and its counts |
| `ProfDiff.ReportLength` | profdiff.c:41-53 | the report has `1 + PROFNAME_LAST` lines per file |
| `ProfDiff.BlockLinesAt` | profdiff.c:43-52 | each file's block lines are exactly `PROFNAME_LAST`, in block order |
| `ProfDiff.PairRowsShape` | profdiff.c:58-87 | within a comparison, every block but `pixel` gives one line, in ascending order, each comparing that block of file `i` with file `i + 1` |
| `ProfDiff.PairDiffLines` | profdiff.c:55-87 | each comparison is a header followed by the `loop` and `draw` lines |
| `ProfDiff.DiffAt` | profdiff.c:55-88 | the diff has `3 * (data_count - 1)` lines, and lines `3*i .. 3*i+2` compare file `i` with file `i + 1` |
| `ProfDiff.DiffLength` | profdiff.c:55 | the number of diff lines is three per adjacent pair |
| `ProfDiff.DiffOnlyAdjacent` | profdiff.c:55-86 | every diff line is about files `i` and `i + 1`; none is about `pixel`; its two counts are the files' `count_total`, unchanged |
| `ProfDiff.LoadFiles` | profdiff.c:22-37 | `argv[i]` goes into slot `i - 1` in argument order; at the first file that cannot be opened the loop stops, with the earlier slots loaded and the rest untouched |
| `ProfDiff.PrintReport` | profdiff.c:41-53 | the lines printed are `ReportLines` of the filled slots |
| `ProfDiff.PrintDiff` | profdiff.c:55-88 | the lines printed are `DiffLines` of the filled slots |
| `ProfDiff.Run` | profdiff.c:12-91 | `argc < 3`: usage message, code 1, no file opened. A file that cannot be opened: code 1 after opening exactly the files up to it, nothing printed. Otherwise: code 0, the report then the diff |

## Left out

- SDL start-up (`SDL_Init`, window and renderer creation, main.c:19-45)
  and cleanup (main.c:148-154) are outside the loop state and are foreign
  library calls. `run` returns 1, 2 or 3 from them.
- Unlocking, `RenderCopy`/`Present`, `SDL_GL_SwapWindow` and `SDL_Delay`
  (main.c:136-145) change none of the modelled state.
- `FrameLoop.Loop.Iterate` stops at the lock. The fill into the locked
  buffer is `Pixels.Fill`, whose requires (`pitch >= 3*width`,
  `pitch*height <= length`) stand for SDL's promise about the buffer of a
  texture of the current size.
- Pixels.Fill: bytes are 0..255. Two things are assumed, not derived
  from the requires. First, the store of 128 into a `char` gives the byte
  0x80, which holds for a two's-complement `char` but is
  implementation-defined for a signed one. Second, the `unsigned` product
  `y * pitch` (main.c:119) does not wrap modulo 2^32, which holds for real
  texture sizes. The requires bound `pitch * height` only by the buffer
  length, so for a buffer of more than 2^32 bytes the model writes where
  the C code, wrapping, would not.
- The fill has no bounds check and no out-of-bounds error path, as in the
  source. A write outside the buffer is ruled out by `Pixels.Fill`'s
  requires, not reported as an error.
- FrameLoop.Lock: `SDL_LockTexture` is taken to fail when there is no
  texture (`texture == NULL`). Apart from that, lock success is an input.
  This decides the first-frame case where the events resize the window
  to 0x0: no texture is ever created, and `run` returns 1 at the lock.
- The `printf("resize …")` on reallocation (main.c:78) and the
  `fprintf(stderr, "SDL_LockTexture: …")` on a failed lock (main.c:109)
  are console output only. They change no modelled state and are not
  modelled.
- Event kinds other than quit, window close and window resize are one
  `OtherEvent` or `OtherWindowEvent`. The fall-through from the window-event
  case into `default` does nothing.
- ProfDiff.Run: names are kept whole. The `strncpy` truncation to 128
  bytes and the missing terminator (profdiff.c:30) are not modelled. More
  than 128 files overflow `data` (profdiff.c:15), and the requires rules
  that out.
- ProfDiff.LoadFiles: decoding `struct profblock` from disk, and short or
  failed `fread` calls (profdiff.c:34), are not modelled. An opened file
  yields exactly one table of `PROFNAME_LAST` blocks.
- ProfDiff.AvgRate: `float` rounding is not modelled. Clocks are ideal
  reals. Infinities and NaN are one `NonFinite` value, so `inf - inf`
  (NaN) and `inf - x` (infinite) are not told apart. The `printf`
  formatting of rates and clocks is not modelled.
- The `clock_t` fields `current_clock_start`/`current_clock_end`
  (prof.h:19-20) are only used by timing code, which is not part of this
  model.
- The raytracer and the profiler's start, end, frame-reset and persistence
  routines are not part of this model: their source files are not among
  the modelled files.
- A block's average rate only makes sense when `count_total > 0`. The
  code does not check this, and neither does the model:
  `ProfDiff.AvgRate` gives the floating-point outcome for zero counts and
  clocks.
