/** The diagnostic state of Logger.h: the visibility policy and the
    level-gated stream (`Log`), the indentation tracker and the benchmark
    recorder (`Logger`). Everything the C++ keeps in static members lives in
    one `Logger` object; standard output, standard error and the benchmark
    file are append-only histories in the same object. */
module Logging {
  import opened Text

  const WORD: int := 0x1_0000_0000
  const UINT_MAX: int := WORD - 1

  /** `unsigned int`, 32 bits wide. */
  type uint = x: int | 0 <= x < WORD

  /** One insertion into standard output: a value already formatted by the
      stream, the precision directive `init` sends, or another manipulator
      such as `std::endl`. */
  datatype Piece =
    | Data(text: string)
    | SetPrecision(digits: uint)
    | Manipulator(name: string)

  /** The line `popIndentLevel` writes to standard error on underflow. */
  const POP_WARNING: string := "Warning: Calling Logger::popIndentLevel when already zero!"

  /** `s_indentLevel * s_indentWidth`, an unsigned product that wraps at 2^32. */
  function IndentLength(level: uint, width: uint): (n: uint)
    ensures level * width < WORD ==> n == level * width
  {
    MulNonnegative(level, width);
    Wrap(level * width)
  }

  lemma {:induction false} MulNonnegative(a: nat, b: nat)
    ensures 0 <= a * b
  {
    if a > 0 {
      MulNonnegative(a - 1, b);
      assert a * b == (a - 1) * b + b;
    }
  }

  /** Reduction modulo 2^32, as an unsigned result is stored. */
  function Wrap(x: nat): (n: uint)
    ensures x < WORD ==> n == x
  {
    x % WORD
  }

  /** The arguments of one full `benchmark` call; elapsed time and codelength
      are doubles, given here as the text the stream formats them to. */
  datatype BenchmarkRecord = BenchmarkRecord(
    elapsed: string,
    tag: string,
    codelength: string,
    numTopModules: uint,
    numNonTrivialTopModules: uint,
    numLevels: uint)

  /** The line a full `benchmark` call writes. */
  function FullLine(r: BenchmarkRecord): (line: string)
  {
    r.elapsed + "\t" + r.tag + "\t" + r.codelength + "\t" +
    Decimal(r.numTopModules) + "\t" + Decimal(r.numNonTrivialTopModules) + "\t" +
    Decimal(r.numLevels) + "\n"
  }

  function ParseUint(s: string): (r: Option<uint>)
    ensures r.Some? ==> ParseDecimal(s) == Some(r.value)
  {
    match ParseDecimal(s)
    case Some(n) => if n <= UINT_MAX then Some(n) else None
    case None => None
  }

  /** Reads one line of the benchmark file as a full record: six fields
      separated by tabs, the last three unsigned decimals, then a newline. */
  function ParseFullLine(line: string): (r: Option<BenchmarkRecord>)
  {
    if |line| == 0 || line[|line| - 1] != '\n' then None
    else
      var f := Split(line[..|line| - 1], '\t');
      if |f| != 6 then None
      else
        match (ParseUint(f[3]), ParseUint(f[4]), ParseUint(f[5]))
        case (Some(a), Some(b), Some(c)) => Some(BenchmarkRecord(f[0], f[1], f[2], a, b, c))
        case _ => None
  }

  predicate TabFree(r: BenchmarkRecord)
  {
    '\t' !in r.elapsed && '\t' !in r.tag && '\t' !in r.codelength
  }

  /** The six fields of a full line, in the order `benchmark` writes them. */
  function RecordFields(r: BenchmarkRecord): (f: seq<string>)
    ensures |f| == 6
  {
    [r.elapsed, r.tag, r.codelength,
     Decimal(r.numTopModules), Decimal(r.numNonTrivialTopModules), Decimal(r.numLevels)]
  }

  /** A full line is its six fields joined by tabs, then a newline. */
  lemma FullLineIsJoin(r: BenchmarkRecord)
    ensures FullLine(r) == Join(RecordFields(r), '\t') + "\n"
  {
    var f := RecordFields(r);
    assert Join(f[5..], '\t') == f[5];
    assert Join(f[4..], '\t') == f[4] + "\t" + f[5];
    assert Join(f[3..], '\t') == f[3] + "\t" + (f[4] + "\t" + f[5]);
    assert Join(f[2..], '\t') == f[2] + "\t" + (f[3] + "\t" + (f[4] + "\t" + f[5]));
    assert Join(f[1..], '\t') == f[1] + "\t" + (f[2] + "\t" + (f[3] + "\t" + (f[4] + "\t" + f[5])));
    assert Join(f, '\t') == f[0] + "\t" + (f[1] + "\t" + (f[2] + "\t" + (f[3] + "\t" + (f[4] + "\t" + f[5]))));
  }

  /** A full line ends in a newline and, when no text field holds a tab,
      splits into exactly the six fields in call order. */
  lemma FullLineFields(r: BenchmarkRecord)
    requires TabFree(r)
    ensures |FullLine(r)| > 0 && FullLine(r)[|FullLine(r)| - 1] == '\n'
    ensures Split(FullLine(r)[..|FullLine(r)| - 1], '\t') == RecordFields(r)
  {
    DecimalHasNo(r.numTopModules, '\t');
    DecimalHasNo(r.numNonTrivialTopModules, '\t');
    DecimalHasNo(r.numLevels, '\t');
    FullLineIsJoin(r);
    var line := FullLine(r);
    assert line[..|line| - 1] == Join(RecordFields(r), '\t');
    SplitJoin(RecordFields(r), '\t');
  }

  /** Reading a full line back gives the record that was written. */
  lemma FullLineRoundTrip(r: BenchmarkRecord)
    requires TabFree(r)
    ensures ParseFullLine(FullLine(r)) == Some(r)
  {
    FullLineFields(r);
    DecimalRoundTrip(r.numTopModules);
    DecimalRoundTrip(r.numNonTrivialTopModules);
    DecimalRoundTrip(r.numLevels);
  }

  /** The benchmark file handle, a function-local static in `benchmark`:
      not yet constructed, or constructed once on a path with an outcome. */
  datatype BenchmarkSink = Unopened | Attempted(path: string, isOpen: bool)
  {
    predicate IsOpen() { Attempted? && isOpen }
  }

  /** With the default upper bound only the lower bound and silence matter. */
  lemma DefaultBoundVisible(l: Logger, level: uint)
    ensures l.LevelVisible(level, UINT_MAX) <==> !l.silent && level <= l.verboseLevel
  {
  }

  /** The process-wide state of `Log` and `Logger`, plus the outside world. */
  class Logger {
    // Log::s_verboseLevel and Log::s_silent
    var verboseLevel: uint
    var silent: bool
    // Logger::s_indentLevel, s_indentString, s_indentWidth, MAX_INDENT_LEVEL
    var indentLevel: uint
    var indentString: string
    const indentWidth: uint
    var maxIndentLevel: uint
    // Logger::s_benchmarkFilename and the static `logFile` of `benchmark`
    var benchmarkFilename: string
    var benchmarkSink: BenchmarkSink
    // std::cout, std::cerr (one entry per line) and the benchmark file's text
    var stdout: seq<Piece>
    var stderr: seq<string>
    var benchmarkFile: string

    /** The cached indentation is only ever blanks, so its length decides
        whether it is current; nothing reaches the benchmark file unless the
        sink opened. */
    ghost predicate Valid()
      reads this
    {
      AllBlank(indentString) &&
      (!benchmarkSink.IsOpen() ==> benchmarkFile == "")
    }

    /** The state at program start; the initial policy, indentation width and
        indentation limit are the static definitions of the library. */
    constructor (verboseLevel: uint, silent: bool, indentWidth: uint, maxIndentLevel: uint)
      ensures Valid()
      ensures this.verboseLevel == verboseLevel && this.silent == silent
      ensures this.indentWidth == indentWidth && this.maxIndentLevel == maxIndentLevel
      ensures indentLevel == 0 && indentString == ""
      ensures benchmarkFilename == "" && benchmarkSink == Unopened
      ensures stdout == [] && stderr == [] && benchmarkFile == ""
    {
      this.verboseLevel := verboseLevel;
      this.silent := silent;
      this.indentWidth := indentWidth;
      this.maxIndentLevel := maxIndentLevel;
      indentLevel := 0;
      indentString := "";
      benchmarkFilename := "";
      benchmarkSink := Unopened;
      stdout := [];
      stderr := [];
      benchmarkFile := "";
    }

    /** `Log::levelVisible(level, maxLevel)`: silence hides every stream, a
        stream whose lower bound exceeds its upper bound never writes, and
        otherwise a stream writes exactly when the verbosity lies within its
        bounds. */
    function LevelVisible(level: uint, maxLevel: uint): (r: bool)
      reads this
      ensures silent ==> !r
      ensures level > maxLevel ==> !r
      ensures !silent ==> (r <==> level <= verboseLevel <= maxLevel)
    {
      !silent && verboseLevel >= level && verboseLevel <= maxLevel
    }

    method SetVerboseLevel(level: uint)
      requires Valid()
      modifies this`verboseLevel
      ensures Valid()
      ensures verboseLevel == level
    {
      verboseLevel := level;
    }

    method SetSilent(silent: bool)
      requires Valid()
      modifies this`silent
      ensures Valid()
      ensures this.silent == silent
    {
      this.silent := silent;
    }

    /** `Log::init`: sets the policy, then sends the precision directive
        through a default stream, which is visible exactly when not silent. */
    method Init(verboseLevel: uint, silent: bool, numberPrecision: uint)
      requires Valid()
      modifies this`verboseLevel, this`silent, this`stdout
      ensures Valid()
      ensures this.verboseLevel == verboseLevel && this.silent == silent
      ensures stdout == old(stdout) + (if silent then [] else [SetPrecision(numberPrecision)])
    {
      SetVerboseLevel(verboseLevel);
      SetSilent(silent);
      var log := new Log(this);
      var _ := log.Write(SetPrecision(numberPrecision));
    }

    /** `pushIndentLevel`: one level deeper, with unsigned wrap-around. */
    method PushIndentLevel()
      requires Valid()
      modifies this`indentLevel
      ensures Valid()
      ensures indentLevel == (old(indentLevel) + 1) % WORD
      ensures old(indentLevel) < UINT_MAX ==> indentLevel == old(indentLevel) + 1
    {
      indentLevel := (indentLevel + 1) % WORD;
    }

    /** `popIndentLevel`: one level shallower, or a warning when already at zero. */
    method PopIndentLevel()
      requires Valid()
      modifies this`indentLevel, this`stderr
      ensures Valid()
      ensures old(indentLevel) == 0 ==> indentLevel == 0 && stderr == old(stderr) + [POP_WARNING]
      ensures old(indentLevel) > 0 ==> indentLevel == old(indentLevel) - 1 && stderr == old(stderr)
    {
      if indentLevel == 0 {
        stderr := stderr + [POP_WARNING];
      } else {
        indentLevel := indentLevel - 1;
      }
    }

    /** `indent()`: rebuilds the cache when its length is stale and returns it;
        the result is always the blanks for the current depth. */
    method Indent() returns (s: string)
      requires Valid()
      modifies this`indentString
      ensures Valid()
      ensures s == indentString
      ensures s == Spaces(IndentLength(indentLevel, indentWidth))
    {
      var n := IndentLength(indentLevel, indentWidth);
      if |indentString| != n {
        indentString := Spaces(n);
      } else {
        BlankIsSpaces(indentString);
      }
      s := indentString;
    }

    /** `INDENTED_RELEASE_OUT(x)`: the indentation and then `x` go to standard
        output, but only while the depth is within `MAX_INDENT_LEVEL`. */
    method IndentedReleaseOut(x: seq<Piece>)
      requires Valid()
      modifies this`stdout, this`indentString
      ensures Valid()
      ensures indentLevel <= maxIndentLevel ==>
        stdout == old(stdout) + [Data(Spaces(IndentLength(indentLevel, indentWidth)))] + x
      ensures indentLevel <= maxIndentLevel ==>
        indentString == Spaces(IndentLength(indentLevel, indentWidth))
      ensures indentLevel > maxIndentLevel ==>
        stdout == old(stdout) && indentString == old(indentString)
    {
      if indentLevel <= maxIndentLevel {
        var s := Indent();
        stdout := stdout + [Data(s)] + x;
      }
    }

    /** `setBenchmarkFilename`: only records the path. */
    method SetBenchmarkFilename(filename: string)
      requires Valid()
      modifies this`benchmarkFilename
      ensures Valid()
      ensures benchmarkFilename == filename
    {
      benchmarkFilename := filename;
    }

    /** `benchmark`: on the first call the sink is opened on the path recorded
        at that moment, with `openSucceeds` standing for whether the file
        opened (an empty path never opens); later calls reuse that outcome. An open sink gets the tag
        alone or the full six-field line; a closed one gets nothing. */
    method Benchmark(tag: string, codelength: string, numTopModules: uint,
                     numNonTrivialTopModules: uint, numLevels: uint,
                     elapsed: string, openSucceeds: bool, writeOnlyTag: bool := false)
      requires Valid()
      modifies this`benchmarkSink, this`benchmarkFile
      ensures Valid()
      ensures benchmarkSink ==
        if old(benchmarkSink).Unopened?
        then Attempted(benchmarkFilename, openSucceeds && benchmarkFilename != "")
        else old(benchmarkSink)
      ensures !benchmarkSink.IsOpen() ==> benchmarkFile == old(benchmarkFile)
      ensures benchmarkSink.IsOpen() && writeOnlyTag ==>
        benchmarkFile == old(benchmarkFile) + tag + "\n"
      ensures benchmarkSink.IsOpen() && !writeOnlyTag ==>
        benchmarkFile == old(benchmarkFile) + FullLine(BenchmarkRecord(
          elapsed, tag, codelength, numTopModules, numNonTrivialTopModules, numLevels))
    {
      if benchmarkSink.Unopened? {
        benchmarkSink := Attempted(benchmarkFilename, openSucceeds && benchmarkFilename != "");
      }
      if benchmarkSink.IsOpen() {
        if writeOnlyTag {
          benchmarkFile := benchmarkFile + tag + "\n";
        } else {
          benchmarkFile := benchmarkFile + FullLine(BenchmarkRecord(
            elapsed, tag, codelength, numTopModules, numNonTrivialTopModules, numLevels));
        }
      }
    }
  }

  /** A level-gated stream: whether it writes is decided when it is built
      and again at each `Hide`, and at no other time. All streams write to the standard
      output held by `logger`. */
  class Log {
    const logger: Logger
    var level: uint
    var maxLevel: uint
    var visible: bool

    /** `Log(level = 0, maxLevel = UINT_MAX)`: snapshots the current policy. */
    constructor (logger: Logger, level: uint := 0, maxLevel: uint := UINT_MAX)
      ensures this.logger == logger && this.level == level && this.maxLevel == maxLevel
      ensures visible <==> !logger.silent && level <= logger.verboseLevel <= maxLevel
    {
      this.logger := logger;
      this.level := level;
      this.maxLevel := maxLevel;
      visible := logger.LevelVisible(level, maxLevel);
    }

    /** The copy constructor: same sink, bounds and visibility. */
    constructor Copy(other: Log)
      ensures logger == other.logger
      ensures level == other.level && maxLevel == other.maxLevel && visible == other.visible
    {
      logger := other.logger;
      level := other.level;
      maxLevel := other.maxLevel;
      visible := other.visible;
    }

    /** `operator=`: takes the other stream's bounds and visibility. */
    method Assign(other: Log) returns (self: Log)
      modifies this
      ensures self == this
      ensures level == old(other.level) && maxLevel == old(other.maxLevel)
      ensures visible == old(other.visible)
    {
      level, maxLevel, visible := other.level, other.maxLevel, other.visible;
      self := this;
    }

    /** `levelVisible()`: this stream's bounds against the current policy,
        so it is false for inverted bounds. */
    function LevelVisible(): (r: bool)
      reads this, logger
      ensures r <==> logger.LevelVisible(level, maxLevel)
      ensures r ==> level <= maxLevel && !logger.silent
    {
      logger.LevelVisible(level, maxLevel)
    }

    /** `hide(value)`: forced off, or recomputed under the current policy. */
    method Hide(value: bool)
      modifies this`visible
      ensures value ==> !visible
      ensures !value ==> (visible <==> LevelVisible())
    {
      visible := !value && LevelVisible();
    }

    /** `operator<<` for data and for manipulators: forwarded to standard
        output only while visible; the stream itself is returned. */
    method Write(p: Piece) returns (self: Log)
      modifies logger`stdout
      ensures self == this
      ensures visible ==> logger.stdout == old(logger.stdout) + [p]
      ensures !visible ==> logger.stdout == old(logger.stdout)
    {
      if visible {
        logger.stdout := logger.stdout + [p];
      }
      self := this;
    }
  }
}
