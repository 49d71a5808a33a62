/** Package out's process-wide state and its emission pipeline. */
module Out {
  import opened Prelude
  import opened Levels
  import opened Format

  /** An io.Writer: the two standard streams or any other byte sink
      (a bytes.Buffer, a file, ioutil.Discard) told apart by an id. */
  datatype Sink = Stderr | Stdout | Buf(id: nat)

  /** Everything sink `s` has received so far. */
  function Written(sinks: map<Sink, seq<Byte>>, s: Sink): seq<Byte> {
    if s in sinks then sinks[s] else []
  }

  /** The sinks after `b` was written to `s`: writes only ever append, and
      every other sink keeps what it had. */
  function Appended(sinks: map<Sink, seq<Byte>>, s: Sink, b: seq<Byte>): (r: map<Sink, seq<Byte>>)
    ensures Written(r, s) == Written(sinks, s) + b
    ensures forall t :: t != s ==> Written(r, t) == Written(sinks, t)
  {
    sinks[s := Written(sinks, s) + b]
  }

  /** What DefaultPrefixFunction writes for a prefix table entry: nothing for
      nil, otherwise the prefix followed by ": ". */
  function PrefixText(pfx: Option<seq<Byte>>): seq<Byte> {
    match pfx
    case None => []
    case Some(p) => p + PrefixSeparator
  }

  /** The package-level variables of out.go together with the byte sinks
      they write to. */
  class Registry {
    /** `writer`: the configured io.Writer of each ordered level, None for nil. */
    var writer: array<Option<Sink>>
    /** `prefix`: the prefix of each ordered level, None for nil. */
    var prefix: array<Option<seq<Byte>>>
    /** `currentLevel`: the visibility threshold. */
    var currentLevel: Level
    /** `DefaultWriter`: the fallback sink. */
    var defaultWriter: Sink
    /** The bytes each sink has received. */
    var sinks: map<Sink, seq<Byte>>

    /** Both tables have one slot per ordered level, and no slot of `prefix`
        holds an empty non-nil prefix (SetPrefix stores nil instead). */
    ghost predicate Valid()
      reads this`writer, this`prefix, prefix
    {
      writer.Length == LevelsCount && prefix.Length == LevelsCount &&
      forall i :: 0 <= i < LevelsCount ==> prefix[i] != Some([])
    }

    /** Package initialisation: empty tables, threshold Info, DefaultWriter
        os.Stderr, then init() installs the four default prefixes. */
    constructor ()
      ensures Valid() && fresh(writer) && fresh(prefix)
      ensures forall i :: 0 <= i < LevelsCount ==> writer[i] == None
      ensures Prefix(Crit) == None && Prefix(Info) == None && Prefix(Verbose) == None
      ensures Prefix(Error) == Some("error") && Prefix(Warn) == Some("warn")
      ensures Prefix(Debug) == Some("debug") && Prefix(Trace) == Some("trace")
      ensures currentLevel == Info && defaultWriter == Stderr && sinks == map[]
    {
      writer := new Option<Sink>[LevelsCount](_ => None);
      prefix := new Option<seq<Byte>>[LevelsCount](_ => None);
      currentLevel := Info;
      defaultWriter := Stderr;
      sinks := map[];
      new;
      SetPrefix(Error, "error");
      SetPrefix(Warn, "warn");
      SetPrefix(Debug, "debug");
      SetPrefix(Trace, "trace");
    }

    /** Level.Visible: at or above the threshold in severity. */
    function Visible(lvl: Level): (b: bool)
      reads this`currentLevel
      ensures b <==> lvl <= currentLevel
    {
      lvl <= currentLevel
    }

    /** Level.Writer: the sink a level's output goes to. The pseudo-levels
        name their standard stream whatever the table holds, any other
        negative level falls back to DefaultWriter, and an ordered level uses
        its configured writer or, while that is nil, DefaultWriter. */
    function Writer(lvl: Level): (w: Sink)
      reads this`writer, this`prefix, this`defaultWriter, writer, prefix
      requires Valid() && lvl < LevelsCount
      ensures lvl == StdErr ==> w == Stderr
      ensures lvl == StdOut ==> w == Stdout
      ensures lvl < StdErr ==> w == defaultWriter
      ensures IsOrdered(lvl) && writer[lvl].None? ==> w == defaultWriter
      ensures IsOrdered(lvl) && writer[lvl].Some? ==> w == writer[lvl].value
    {
      if lvl < 0 then
        if lvl == StdErr then Stderr
        else if lvl == StdOut then Stdout
        else defaultWriter
      else
        match writer[lvl]
        case None => defaultWriter
        case Some(wr) => wr
    }

    /** Level.Prefix: the configured prefix, nil for pseudo-levels. */
    function Prefix(lvl: Level): (p: Option<seq<Byte>>)
      reads this`writer, this`prefix, prefix
      requires Valid() && lvl < LevelsCount
      ensures lvl < 0 ==> p == None
      ensures IsOrdered(lvl) ==> p == prefix[lvl]
      ensures p != Some([])
    {
      if lvl < 0 then None else prefix[lvl]
    }

    /** Level.FullPrefixString with the default prefix hook: the bytes that
        open every message of the level. */
    function FullPrefixString(lvl: Level): (r: seq<Byte>)
      reads this`writer, this`prefix, prefix
      requires Valid() && lvl < LevelsCount
      ensures r == [] <==> Prefix(lvl) == None
      ensures lvl < 0 ==> r == []
      ensures Prefix(lvl).Some? ==> r == Prefix(lvl).value + ": "
    {
      PrefixText(Prefix(lvl))
    }

    /** The buffer Print and Printf hand to the print hook for `body`. */
    function Message(lvl: Level, body: seq<Byte>): (m: seq<Byte>)
      reads this`writer, this`prefix, prefix
      requires Valid() && lvl < LevelsCount
      ensures var text := FullPrefixString(lvl) + body;
        |text| <= |m| <= |text| + 1 && m[..|text|] == text
      ensures |m| > 0 && m[|m| - 1] == Newline
      ensures |body| > 0 && body[|body| - 1] == Newline ==> m == FullPrefixString(lvl) + body
    {
      EnsureTrailingNewline(FullPrefixString(lvl) + body)
    }

    /** Level.SetWriter: only this level's slot changes; None stands for nil
        and makes the level fall back to DefaultWriter again. */
    method SetWriter(lvl: Level, wr: Option<Sink>)
      requires Valid() && IsOrdered(lvl)
      modifies writer
      ensures Valid()
      ensures writer[lvl] == wr
      ensures forall i :: 0 <= i < LevelsCount && i != lvl ==> writer[i] == old(writer[i])
      ensures Writer(lvl) == (if wr.None? then defaultWriter else wr.value)
      ensures forall l :: l < LevelsCount && l != lvl ==> Writer(l) == old(Writer(l))
    {
      writer[lvl] := wr;
    }

    /** Level.SetCurrent: any level may become the threshold. */
    method SetCurrent(lvl: Level)
      requires Valid()
      modifies this`currentLevel
      ensures Valid()
      ensures currentLevel == lvl
      ensures forall l :: Visible(l) <==> l <= lvl
    {
      currentLevel := lvl;
    }

    /** Level.SetPrefix: an empty text clears the prefix (stores nil), any
        other text becomes the prefix; no other level changes. */
    method SetPrefix(lvl: Level, pfx: seq<Byte>)
      requires Valid() && IsOrdered(lvl)
      modifies prefix
      ensures Valid()
      ensures Prefix(lvl) == (if |pfx| == 0 then None else Some(pfx))
      ensures FullPrefixString(lvl) == (if |pfx| == 0 then [] else pfx + ": ")
      ensures forall i :: 0 <= i < LevelsCount && i != lvl ==> prefix[i] == old(prefix[i])
    {
      if |pfx| == 0 {
        prefix[lvl] := None;
      } else {
        prefix[lvl] := Some(pfx);
      }
    }

    /** DefaultPrefixFunction: writes the level's full prefix into `bf`. */
    method DefaultPrefixFunction(lvl: Level, bf: seq<Byte>) returns (bf': seq<Byte>)
      requires Valid() && lvl < LevelsCount
      ensures bf' == bf + FullPrefixString(lvl)
    {
      bf' := bf;
      match Prefix(lvl) {
        case None =>
        case Some(pfx) =>
          bf' := bf' + pfx;
          bf' := bf' + PrefixSeparator;
      }
    }

    /** DefaultPrintFunction: writes `b` to the level's sink. */
    method DefaultPrintFunction(lvl: Level, b: seq<Byte>)
      requires Valid() && lvl < LevelsCount
      modifies this`sinks
      ensures sinks == Appended(old(sinks), Writer(lvl), b)
    {
      sinks := Appended(sinks, Writer(lvl), b);
    }

    /** The part Print and Printf share once the body is formatted: nothing
        at all when the level is not visible; otherwise the full prefix, the
        body and a newline if one is missing are assembled in a fresh buffer
        and appended to the level's sink, and to no other sink. */
    method Emit(lvl: Level, body: seq<Byte>)
      requires Valid()
      requires Visible(lvl) ==> lvl < LevelsCount
      modifies this`sinks
      ensures Valid()
      ensures !Visible(lvl) ==> sinks == old(sinks)
      ensures Visible(lvl) ==> sinks == Appended(old(sinks), Writer(lvl), Message(lvl, body))
    {
      if Visible(lvl) {
        var textBuf: seq<Byte> := [];
        textBuf := DefaultPrefixFunction(lvl, textBuf);
        textBuf := textBuf + body;
        ghost var text := textBuf;
        assert text == FullPrefixString(lvl) + body;
        if |textBuf| == 0 || textBuf[|textBuf| - 1] != Newline {
          textBuf := textBuf + [Newline];
        }
        assert textBuf == EnsureTrailingNewline(text);
        DefaultPrintFunction(lvl, textBuf);
      }
    }

    /** Level.Print: the body is fmt.Fprint of the operands. */
    method Print(lvl: Level, a: seq<Operand>)
      requires Valid()
      requires Visible(lvl) ==> lvl < LevelsCount
      modifies this`sinks
      ensures Valid()
      ensures !Visible(lvl) ==> sinks == old(sinks)
      ensures Visible(lvl) ==> sinks == Appended(old(sinks), Writer(lvl), Message(lvl, Fprint(a)))
    {
      Emit(lvl, Fprint(a));
    }

    /** Level.Printf: the body is fmt.Fprintf of template `t`; the formatter,
        applied to its arguments, is the parameter `sprintf`. */
    method Printf(lvl: Level, t: seq<Byte>, sprintf: seq<Byte> -> seq<Byte>)
      requires Valid()
      requires Visible(lvl) ==> lvl < LevelsCount
      modifies this`sinks
      ensures Valid()
      ensures !Visible(lvl) ==> sinks == old(sinks)
      ensures Visible(lvl) ==> sinks == Appended(old(sinks), Writer(lvl), Message(lvl, sprintf(t)))
    {
      Emit(lvl, sprintf(t));
    }

    /** Fatalf: the template gets a trailing newline if it lacks one, the
        message goes out at Error, and the process exits with status 255,
        returned here as `exitCode`. */
    method Fatalf(t: seq<Byte>, sprintf: seq<Byte> -> seq<Byte>) returns (exitCode: int)
      requires Valid()
      modifies this`sinks
      ensures Valid()
      ensures exitCode == 255
      ensures !Visible(Error) ==> sinks == old(sinks)
      ensures Visible(Error) ==>
        sinks == Appended(old(sinks), Writer(Error), Message(Error, sprintf(EnsureTrailingNewline(t))))
    {
      var template := t;
      if |template| < 1 || template[|template| - 1] != Newline {
        template := template + [Newline];
      }
      Printf(Error, template, sprintf);
      exitCode := 255;
    }
  }

  /** The threshold is downward closed: a level more severe than a visible
      one is visible too, and once the threshold is an ordered level both
      pseudo-levels are visible. */
  lemma VisibleDownwardClosed(r: Registry, a: Level, b: Level)
    requires a <= b && r.Visible(b)
    ensures r.Visible(a)
    ensures r.currentLevel >= Crit ==> r.Visible(StdErr) && r.Visible(StdOut)
  {
  }

  /** With the default threshold Info, exactly Crit, Error, Warn and Info
      among the ordered levels are visible. */
  lemma DefaultThreshold(r: Registry)
    requires r.currentLevel == Info
    ensures forall l :: IsOrdered(l) ==> (r.Visible(l) <==> l in {Crit, Error, Warn, Info})
    ensures r.Visible(StdErr) && r.Visible(StdOut)
  {
  }

  /** Whatever the configuration, the bytes a visible message puts on its sink
      end with a newline, start with the level's full prefix and the body,
      and add at most one byte to them; an invisible message adds nothing. */
  lemma EmittedBytes(r: Registry, lvl: Level, body: seq<Byte>, before: map<Sink, seq<Byte>>, after: map<Sink, seq<Byte>>)
    requires r.Valid() && lvl < LevelsCount
    requires after == (if r.Visible(lvl) then Appended(before, r.Writer(lvl), r.Message(lvl, body)) else before)
    ensures forall s :: s != r.Writer(lvl) ==> Written(after, s) == Written(before, s)
    ensures !r.Visible(lvl) ==> Written(after, r.Writer(lvl)) == Written(before, r.Writer(lvl))
    ensures r.Visible(lvl) ==>
      var old_, text := Written(before, r.Writer(lvl)), r.FullPrefixString(lvl) + body;
      var new_ := Written(after, r.Writer(lvl));
      |old_| + |text| <= |new_| <= |old_| + |text| + 1 &&
      new_[..|old_| + |text|] == old_ + text &&
      new_[|new_| - 1] == Newline
  {
    if r.Visible(lvl) {
      var old_, text := Written(before, r.Writer(lvl)), r.FullPrefixString(lvl) + body;
      var m := r.Message(lvl, body);
      assert Written(after, r.Writer(lvl)) == old_ + m;
      assert (old_ + m)[..|old_| + |text|] == old_ + m[..|text|];
    }
  }

  /** The exact line of a level that has prefix `p`, for a body that does
      not already end in a newline: prefix, ": ", body, newline. */
  lemma LineWithPrefix(r: Registry, lvl: Level, p: seq<Byte>, body: seq<Byte>, line: seq<Byte>)
    requires r.Valid() && lvl < LevelsCount && r.Prefix(lvl) == Some(p)
    requires body == [] || body[|body| - 1] != Newline
    requires line == p + ": " + body + "\n"
    ensures r.Message(lvl, body) == line
  {
  }

  /** The exact line of a level without prefix, for a body that does not
      already end in a newline: the body and a newline. */
  lemma LineWithoutPrefix(r: Registry, lvl: Level, body: seq<Byte>, line: seq<Byte>)
    requires r.Valid() && lvl < LevelsCount && r.Prefix(lvl) == None
    requires body == [] || body[|body| - 1] != Newline
    requires line == body + "\n"
    ensures r.Message(lvl, body) == line
  {
  }
}
