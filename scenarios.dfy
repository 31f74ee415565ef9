/** Clients of the logger model: what a caller can conclude from the
    contracts alone about sequences of calls. */
module LoggingScenarios {
  import opened Text
  import opened Logging

  /** After `init(1, false, 6)` a level-0 stream writes and a level-2 one does not. */
  method InitThenBuildStreams() returns (low: bool, high: bool, out: seq<Piece>)
    ensures low && !high
    ensures out == [SetPrecision(6)]
  {
    var l := new Logger(0, true, 4, 10);
    l.Init(1, false, 6);
    var a := new Log(l, 0);
    var b := new Log(l, 2);
    low, high, out := a.visible, b.visible, l.stdout;
  }

  /** Silencing the policy leaves an existing stream writing; only `Hide`
      takes the new policy into account. A copy keeps the snapshot too. */
  method SnapshotUntilHide() returns (out: seq<Piece>, copyVisible: bool)
    ensures out == [Data("before"), Data("copied")]
    ensures copyVisible
  {
    var l := new Logger(1, false, 4, 10);
    var log := new Log(l, 1);
    l.SetSilent(true);
    var _ := log.Write(Data("before"));
    var copy := new Log.Copy(log);
    log.Hide(false);
    var _ := log.Write(Data("hidden"));
    var _ := copy.Write(Data("copied"));
    out, copyVisible := l.stdout, copy.visible;
  }

  /** `hide(true)` stops writes regardless of the policy, and `hide(false)`
      restores them when the policy allows. */
  method HideAndRestore() returns (out: seq<Piece>)
    ensures out == [Data("a"), Manipulator("endl"), Data("c")]
  {
    var l := new Logger(3, false, 4, 10);
    var log := new Log(l, 0, 5);
    var _ := log.Write(Data("a"));
    var _ := log.Write(Manipulator("endl"));
    log.Hide(true);
    var _ := log.Write(Data("b"));
    log.Hide(false);
    var _ := log.Write(Data("c"));
    out := l.stdout;
  }

  /** Three pushes with width 2 give six blanks; a fourth pop after three
      balancing ones warns once and stays at zero. */
  method NestedIndentation() returns (indent: string, depth: uint, warnings: seq<string>)
    ensures indent == "      "
    ensures depth == 0 && warnings == [POP_WARNING]
  {
    var l := new Logger(0, false, 2, 10);
    l.PushIndentLevel();
    l.PushIndentLevel();
    l.PushIndentLevel();
    indent := l.Indent();
    l.PopIndentLevel();
    l.PopIndentLevel();
    l.PopIndentLevel();
    assert l.stderr == [];
    l.PopIndentLevel();
    depth, warnings := l.indentLevel, l.stderr;
  }

  /** A push followed by a pop restores the depth without a warning, as long
      as the push does not wrap around. */
  method PushThenPop(l: Logger)
    requires l.Valid() && l.indentLevel < UINT_MAX
    modifies l`indentLevel, l`stderr
    ensures l.Valid()
    ensures l.indentLevel == old(l.indentLevel) && l.stderr == old(l.stderr)
  {
    l.PushIndentLevel();
    l.PopIndentLevel();
  }

  /** Two `indent()` calls with no push or pop between them agree. */
  method IndentTwice(l: Logger) returns (first: string, second: string)
    requires l.Valid()
    modifies l`indentString
    ensures l.Valid()
    ensures first == second
    ensures |first| == IndentLength(l.indentLevel, l.indentWidth)
  {
    first := l.Indent();
    second := l.Indent();
  }

  /** Indented output is dropped once the depth passes the limit. */
  method IndentationLimit() returns (out: seq<Piece>)
    ensures out == [Data(" "), Data("x")]
  {
    var l := new Logger(0, false, 1, 1);
    l.PushIndentLevel();
    l.IndentedReleaseOut([Data("x")]);
    assert IndentLength(1, 1) == 1 && Spaces(1) == " ";
    l.PushIndentLevel();
    l.IndentedReleaseOut([Data("y")]);
    out := l.stdout;
  }

  /** The sink opens on the path set before the first call; a later path has
      no effect. A tag-only line and a full line follow each other. */
  method BenchmarkOpensOnce(tag: string) returns (sink: BenchmarkSink, file: string)
    ensures sink == Attempted("run.tsv", true)
    ensures file == tag + "\n" + FullLine(BenchmarkRecord("0.5", tag, "1.23", 4, 2, 3))
  {
    var l := new Logger(0, false, 4, 10);
    l.SetBenchmarkFilename("run.tsv");
    l.Benchmark(tag, "1.23", 4, 2, 3, "0.25", true, writeOnlyTag := true);
    l.SetBenchmarkFilename("other.tsv");
    l.Benchmark(tag, "1.23", 4, 2, 3, "0.5", false);
    sink, file := l.benchmarkSink, l.benchmarkFile;
  }

  /** When the first open fails, no later call writes, even one whose own
      open would have succeeded. */
  method BenchmarkOpenFails() returns (sink: BenchmarkSink, file: string)
    ensures sink == Attempted("missing/run.tsv", false)
    ensures file == ""
  {
    var l := new Logger(0, false, 4, 10);
    l.SetBenchmarkFilename("missing/run.tsv");
    l.Benchmark("start", "0", 0, 0, 0, "0", false);
    l.SetBenchmarkFilename("late.tsv");
    l.Benchmark("next", "1.23", 4, 2, 3, "0.5", true);
    sink, file := l.benchmarkSink, l.benchmarkFile;
  }

  /** Without a benchmark filename the sink never opens, whatever the file
      system would allow. */
  method BenchmarkWithoutFilename() returns (sink: BenchmarkSink, file: string)
    ensures sink == Attempted("", false)
    ensures file == ""
  {
    var l := new Logger(0, false, 4, 10);
    l.Benchmark("start", "0", 0, 0, 0, "0", true, writeOnlyTag := true);
    l.Benchmark("next", "1.23", 4, 2, 3, "0.5", true);
    sink, file := l.benchmarkSink, l.benchmarkFile;
  }

  /** A full line for codelength 1.23 and counts 4, 2, 3 has six fields, the
      tag second and "3" last. */
  lemma SampleFullLine(tag: string, elapsed: string)
    requires '\t' !in tag && '\t' !in elapsed
    ensures var line := FullLine(BenchmarkRecord(elapsed, tag, "1.23", 4, 2, 3));
      var f := Split(line[..|line| - 1], '\t');
      |f| == 6 && f[1] == tag && f[5] == "3"
  {
    FullLineFields(BenchmarkRecord(elapsed, tag, "1.23", 4, 2, 3));
  }
}
