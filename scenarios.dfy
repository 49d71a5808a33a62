/** Whole-package runs of the configurations the package's tests exercise,
    each returning the bytes that reach the sinks. */
module OutScenarios {
  import opened Prelude
  import opened Levels
  import opened Format
  import opened Out

  lemma DiskFullLine(r: Registry)
    requires r.Valid() && r.Prefix(Error) == Some("error")
    ensures r.Message(Error, Fprint([Str("disk"), Str("full")])) == "error: diskfull\n"
  {
    var body: seq<Byte> := "diskfull";
    assert Fprint([Str("disk"), Str("full")]) == body by {
      FprintPair(Str("disk"), Str("full"));
    }
    LineWithPrefix(r, Error, "error", body, "error: diskfull\n");
  }

  /** Default configuration: an Error-level Print of "disk", "full" puts
      "error: diskfull\n" on standard error. */
  method DefaultErrorPrint() returns (out: seq<Byte>)
    ensures out == "error: diskfull\n"
  {
    var r := new Registry();
    DiskFullLine(r);
    r.Print(Error, [Str("disk"), Str("full")]);
    out := Written(r.sinks, Stderr);
  }

  /** With the threshold at Error an Info-level Print writes nothing at all. */
  method ThresholdSuppresses() returns (sinks: map<Sink, seq<Byte>>)
    ensures sinks == map[]
  {
    var r := new Registry();
    r.SetCurrent(Error);
    r.Print(Info, [Str("hello!")]);
    sinks := r.sinks;
  }

  lemma WarnValuesLine(r: Registry)
    requires r.Valid() && r.Prefix(Warn) == Some("warn")
    ensures r.Message(Warn, Fprint([Value("1"), Value("2")])) == "warn: 1 2\n"
  {
    FprintTwoValues();
    LineWithPrefix(r, Warn, "warn", "1 2", "warn: 1 2\n");
  }

  /** Giving Warn its own writer redirects Warn alone: its line lands on the
      new writer while Error still resolves to DefaultWriter. */
  method SetWriterRedirectsOneLevel() returns (own: seq<Byte>, errorSink: Sink)
    ensures own == "warn: 1 2\n"
    ensures errorSink == Stderr
  {
    var r := new Registry();
    assert r.Writer(Error) == Stderr;
    r.SetWriter(Warn, Some(Buf(1)));
    errorSink := r.Writer(Error);
    WarnValuesLine(r);
    r.Print(Warn, [Value("1"), Value("2")]);
    own := Written(r.sinks, Buf(1));
  }

  lemma DashLine(r: Registry)
    requires r.Valid() && r.Prefix(Info) == Some("-")
    ensures r.Message(Info, Fprint([Str("hello"), Str("world!")])) == "-: helloworld!\n"
  {
    FprintTwoStrings();
    LineWithPrefix(r, Info, "-", "helloworld!", "-: helloworld!\n");
  }

  /** SetPrefix("-") on Info makes its lines start with "-: "; SetPrefix("")
      makes the full prefix empty again. */
  method PrefixSetAndClear() returns (line: seq<Byte>, cleared: seq<Byte>)
    ensures line == "-: helloworld!\n"
    ensures cleared == []
  {
    var r := new Registry();
    r.SetPrefix(Info, "-");
    DashLine(r);
    r.Print(Info, [Str("hello"), Str("world!")]);
    line := Written(r.sinks, Stderr);
    r.SetPrefix(Info, "");
    cleared := r.FullPrefixString(Info);
  }

  /** fmt.Sprintf(_, "state") for the one template Fatalf("bad %s", "state")
      hands it: the normalised template's newline is part of the output. */
  function BadState(t: seq<Byte>): seq<Byte> {
    if t == "bad %s\n" then "bad state\n" else t
  }

  lemma BadStateLine(r: Registry)
    requires r.Valid() && r.Prefix(Error) == Some("error")
    ensures r.Message(Error, BadState(EnsureTrailingNewline("bad %s"))) == "error: bad state\n"
  {
    var template: seq<Byte> := "bad %s";
    var body: seq<Byte> := "bad state\n";
    var pfx: seq<Byte> := "error: ";
    assert BadState(EnsureTrailingNewline(template)) == body by {
      assert template + [Newline] == "bad %s\n";
    }
    assert r.Message(Error, body) == pfx + body by {
      assert r.FullPrefixString(Error) == pfx;
    }
    assert pfx + body == "error: bad state\n";
  }

  /** Fatalf("bad %s", "state") writes "error: bad state\n" to standard error
      and ends with status 255; the formatter sees the template with its
      newline already added. */
  method FatalfBadState() returns (out: seq<Byte>, status: int)
    ensures out == "error: bad state\n"
    ensures status == 255
  {
    var r := new Registry();
    BadStateLine(r);
    status := r.Fatalf("bad %s", BadState);
    out := Written(r.sinks, Stderr);
  }
}
