# Infomap diagnostic logger, modelled in Dafny

This project models the diagnostic machinery of Infomap's `Logger.h`:

- the visibility policy: a verbosity level and a silence flag;
- `Log`: a level-gated output stream that decides when it is built, and again at each `hide`, whether its writes reach standard output;
- `Logger`: the indentation tracker and its cached indentation string;
- the benchmark recorder, which opens its file lazily and at most once and then appends one line per call;
- the `INDENTED_RELEASE_OUT` gate on `MAX_INDENT_LEVEL`.

The C++ keeps all of this in static members. Here it lives in one `Logging.Logger` object. Standard output, standard error and the benchmark file are also fields of that object, each an append-only history:

- standard output is a sequence of `Piece`s: formatted values, the precision directive and other manipulators;
- standard error is a sequence of lines;
- the benchmark file is the text that this process writes to it.

`Logging.Log` is a class with the three fields `level`, `maxLevel` and `visible`. It holds a reference to the `Logger` whose standard output it writes.

Files:

- `text.dfy` (module `Text`) has the string helpers. These are the blank run that `indent()` builds, the decimal form an output stream gives an `unsigned int` (with its parser, which proves the digits can be read back), and splitting on a separator.
- `logging.dfy` (module `Logging`) has the model itself, plus lemmas about the policy and the benchmark line format.
- `scenarios.dfy` (module `LoggingScenarios`) has client methods. They show what a caller can conclude from the contracts about sequences of calls.

Other design points:

- Widths are explicit. `uint` is a 32-bit unsigned integer.
- `pushIndentLevel` wraps around at 2^32, as `++` on an `unsigned int` does.
- The length `indent()` compares and builds is the unsigned product `s_indentLevel * s_indentWidth` taken modulo 2^32 (`Logging.IndentLength`). It equals the true product whenever that fits in 32 bits.
- The constructor of `Logger` gives the statics their values at program start. The initial verbosity, silence, indentation width and indentation limit are defined outside the header, so they are constructor parameters. The indentation depth starts at 0. The cached string and the benchmark filename start empty. The benchmark sink starts unopened.

Details of the code that are easy to misread:

- `init` does not store the number precision anywhere. It sends `std::setprecision` through a default `Log()`. That stream has level 0 and upper bound `UINT_MAX`, so it is visible exactly when not silent. After `init(v, true, p)` the precision is therefore never applied (`Logging.Logger.Init`).
- `s_silent` is declared `unsigned int`, but it is only ever set from a `bool` and read as one, so it is a `bool` here.
- `indent()` only checks the cached string's length, never its characters. It is correct because the cache only ever holds blanks. That fact is part of `Logger.Valid()`, and `Text.BlankIsSpaces` proves that a string of blanks is determined by its length.

## Model

| member | source | states |
|---|---|---|
| `Logging.Log.constructor` | NonOverlappingCodes/2009-Community-Infomap-MapEquation/src/utils/Logger.h:53-58 | defaults level 0 and upper bound UINT_MAX; `visible` holds iff not silent and `level <= verboseLevel <= maxLevel` under the policy at construction |
| `Logging.Log.Copy` | NonOverlappingCodes/2009-Community-Infomap-MapEquation/src/utils/Logger.h:60-65 | the copy has the same sink, level, upper bound and visibility as the original |
| `Logging.Log.Assign` | NonOverlappingCodes/2009-Community-Infomap-MapEquation/src/utils/Logger.h:67-73 | afterwards level, upper bound and visibility equal the other stream's; the stream itself is returned |
| `Logging.Log.LevelVisible` | NonOverlappingCodes/2009-Community-Infomap-MapEquation/src/utils/Logger.h:75-78 | the stream's own bounds judged by the current policy, so false for inverted bounds or when silent |
| `Logging.Log.Hide` | NonOverlappingCodes/2009-Community-Infomap-MapEquation/src/utils/Logger.h:80-83 | `hide(true)` makes the stream invisible; `hide(false)` makes it visible iff its bounds pass the current policy; nothing else changes |
| `Logging.Log.Write` | NonOverlappingCodes/2009-Community-Infomap-MapEquation/src/utils/Logger.h:90-103 | data or a manipulator is appended to standard output iff the stream is visible, otherwise standard output is unchanged; the stream's fields are unchanged and it returns itself |
| `Logging.Logger.constructor` | NonOverlappingCodes/2009-Community-Infomap-MapEquation/src/utils/Logger.h:222-229 | program start: depth 0, empty cache and filename, unopened benchmark sink, empty histories, object invariant established |
| `Logging.Logger.SetVerboseLevel` | NonOverlappingCodes/2009-Community-Infomap-MapEquation/src/utils/Logger.h:117-120 | sets the verbosity level and changes nothing else |
| `Logging.Logger.SetSilent` | NonOverlappingCodes/2009-Community-Infomap-MapEquation/src/utils/Logger.h:127-130 | sets the silence flag and changes nothing else |
| `Logging.Logger.Init` | NonOverlappingCodes/2009-Community-Infomap-MapEquation/src/utils/Logger.h:105-110 | verbosity and silence take the given values; the precision directive reaches standard output iff not silent |
| `Logging.Logger.PushIndentLevel` | NonOverlappingCodes/2009-Community-Infomap-MapEquation/src/utils/Logger.h:176-179 | the depth grows by one, modulo 2^32 |
| `Logging.Logger.PopIndentLevel` | NonOverlappingCodes/2009-Community-Infomap-MapEquation/src/utils/Logger.h:181-187 | above zero: the depth drops by one and standard error is unchanged; at zero: the depth stays 0 and exactly one warning line is appended to standard error |
| `Logging.Logger.Indent` | NonOverlappingCodes/2009-Community-Infomap-MapEquation/src/utils/Logger.h:189-194 | returns the cache, which afterwards is exactly the blanks for the current depth times width, so repeated calls agree |
| `Logging.Logger.IndentedReleaseOut` | NonOverlappingCodes/2009-Community-Infomap-MapEquation/src/utils/Logger.h:301-303 | while the depth is at most MAX_INDENT_LEVEL the cache is rebuilt for the depth and the indentation and then the text go to standard output; beyond it nothing is written and the cache is untouched |
| `Logging.Logger.SetBenchmarkFilename` | NonOverlappingCodes/2009-Community-Infomap-MapEquation/src/utils/Logger.h:201-204 | only the recorded path changes; an already opened sink is unaffected |
| `Logging.Logger.Benchmark` | NonOverlappingCodes/2009-Community-Infomap-MapEquation/src/utils/Logger.h:206-219 | the first call opens the sink on the path current then, and an empty path never opens; later calls reuse that outcome; a closed sink gets nothing; an open one gets `tag` + newline or the full six-field line |
| `Logging.IndentLength` | NonOverlappingCodes/2009-Community-Infomap-MapEquation/src/utils/Logger.h:191-192 | the unsigned product of depth and width equals the true product whenever that fits in 32 bits |
| `Logging.Logger.LevelVisible` | NonOverlappingCodes/2009-Community-Infomap-MapEquation/src/utils/Logger.h:112-115 | silence hides every stream; a level above the upper bound is never visible; otherwise visible exactly when the verbosity lies within the bounds |
| `Logging.DefaultBoundVisible` | NonOverlappingCodes/2009-Community-Infomap-MapEquation/src/utils/Logger.h:53-58 | with the default upper bound UINT_MAX, visibility is exactly "not silent and level at most the verbosity" |
| `Logging.FullLineIsJoin` | NonOverlappingCodes/2009-Community-Infomap-MapEquation/src/utils/Logger.h:215-217 | the full line is elapsed, tag, codelength and the three counts in that order, separated by tabs and ended by a newline |
| `Logging.FullLineFields` | NonOverlappingCodes/2009-Community-Infomap-MapEquation/src/utils/Logger.h:215-217 | when no text field holds a tab, the line without its newline splits on tabs into exactly those six fields |
| `Logging.FullLineRoundTrip` | NonOverlappingCodes/2009-Community-Infomap-MapEquation/src/utils/Logger.h:215-217 | parsing a full line gives back the record written, counts included |
| `Text.Spaces` | NonOverlappingCodes/2009-Community-Infomap-MapEquation/src/utils/Logger.h:192 | the rebuilt indentation has the requested length and only blanks |
| `Text.BlankIsSpaces` | NonOverlappingCodes/2009-Community-Infomap-MapEquation/src/utils/Logger.h:191 | a string of blanks equals the rebuilt string of its length, so the length check alone keeps the cache correct |
| `Text.Decimal` | NonOverlappingCodes/2009-Community-Infomap-MapEquation/src/utils/Logger.h:216-217 | an unsigned count is written as a non-empty run of digits without leading zeros |
| `Text.DecimalRoundTrip` | NonOverlappingCodes/2009-Community-Infomap-MapEquation/src/utils/Logger.h:216-217 | reading back the digits written for a count gives the count |
| `LoggingScenarios.InitThenBuildStreams` | NonOverlappingCodes/2009-Community-Infomap-MapEquation/src/utils/Logger.h:105-115 | after `init(1, false, 6)` a level-0 stream is visible, a level-2 stream is not, and the precision directive was written |
| `LoggingScenarios.SnapshotUntilHide` | NonOverlappingCodes/2009-Community-Infomap-MapEquation/src/utils/Logger.h:53-83 | silencing the policy does not stop an existing stream or its copy; `hide(false)` then does |
| `LoggingScenarios.HideAndRestore` | NonOverlappingCodes/2009-Community-Infomap-MapEquation/src/utils/Logger.h:80-103 | writes after `hide(true)` are dropped, and `hide(false)` restores them when the policy allows |
| `LoggingScenarios.NestedIndentation` | NonOverlappingCodes/2009-Community-Infomap-MapEquation/src/utils/Logger.h:176-194 | three pushes with width 2 give six blanks; a fourth pop after three balancing pops warns once and leaves depth 0 |
| `LoggingScenarios.PushThenPop` | NonOverlappingCodes/2009-Community-Infomap-MapEquation/src/utils/Logger.h:176-187 | a push then a pop restores the depth without a warning, below the wrap-around point |
| `LoggingScenarios.IndentTwice` | NonOverlappingCodes/2009-Community-Infomap-MapEquation/src/utils/Logger.h:189-194 | two `indent()` calls with no push or pop between them return the same string |
| `LoggingScenarios.IndentationLimit` | NonOverlappingCodes/2009-Community-Infomap-MapEquation/src/utils/Logger.h:301-303 | output at depth 1 with limit 1 is written with its indentation; at depth 2 it is dropped |
| `LoggingScenarios.BenchmarkOpensOnce` | NonOverlappingCodes/2009-Community-Infomap-MapEquation/src/utils/Logger.h:201-219 | the sink keeps the path set before the first call; a later path has no effect; a tag-only line and a full line follow in order |
| `LoggingScenarios.BenchmarkOpenFails` | NonOverlappingCodes/2009-Community-Infomap-MapEquation/src/utils/Logger.h:209-210 | when the first open fails no later call writes, even one whose own open would succeed |
| `LoggingScenarios.BenchmarkWithoutFilename` | NonOverlappingCodes/2009-Community-Infomap-MapEquation/src/utils/Logger.h:209-210 | with no filename set the sink never opens and nothing is written, even when the file system would allow it |
| `LoggingScenarios.SampleFullLine` | NonOverlappingCodes/2009-Community-Infomap-MapEquation/src/utils/Logger.h:215-217 | the line for counts 4, 2, 3 has six fields, the tag second and `3` last |

## Left out

- `Prensentation/metrics/overlap_nmi.py` is not part of this model. It is floating-point entropy arithmetic, not part of the logger.
- Real I/O is not modelled. `std::cout`, `std::cerr` and the benchmark file are append-only histories. `SafeOutFile` is not part of this model: whether the file opens is the `openSucceeds` argument of `Benchmark`, read only on the first call. An empty filename never opens, whatever that argument says. The file's open mode and its earlier contents are not modelled; the history holds only what this process writes.
- Elapsed time and doubles are opaque strings. The clock (`Stopwatch`), the formatting of `double` values, and the effect of `setprecision` on later formatting are outside the model. So `elapsed` and `codelength` are passed in as already formatted strings.
- The getters `verboseLevel()`, `isSilent()` and `indentLevel()` are not separate members: the fields of `Logger` are read directly.
- `getOutputStream` always returns `std::cout`, so every `Log` writes to `Logger.stdout`. Because `operator=` cannot reseat the C++ reference member, the model's `logger` field is a constant.
- The `hideIf` marker has no member of its own. The friend `operator<<` that calls `hide` is modelled as a call to `Hide`. The member `operator<<(const hideIf&)` is a no-op competing with that friend; which one C++ overload resolution picks is not modelled.
- The macro layer is compile-time selection and is left out, except for `INDENTED_RELEASE_OUT`:
  - `DEBUG_OUT` and `DEBUG_EXEC` compile to nothing under `NO_DEBUG_LOGGING`.
  - `ASSERT` compiles to nothing unless `ASSERT_ENABLED` is defined.
  - `PRINT_FUNCTION_NAME` writes the file name and the enclosing function's signature to standard output at run time, because this header defines neither `RELEASE` nor `NO_LOGGING`. Compiler-supplied names are outside the model, so it is left out with the rest of the macro layer.
  - `RELEASE_OUT`, `ALL_OUT` and `INFO_OUT` write to standard output unconditionally.
- The `LogLevel` enum is never used, so it is left out.
- Thread safety is left out; the source has none.
