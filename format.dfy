/** Text assembly used by package out: the operand spacing of fmt.Fprint and
    the trailing-newline rule shared by Print, Printf and Fatalf. */
module Format {
  import opened Prelude

  const Newline: Byte := '\n'

  /** Written after a non-nil prefix by DefaultPrefixFunction. */
  const PrefixSeparator: seq<Byte> := ": "

  /** The trailing-newline rule: a newline is appended when the text is empty
      or its last byte is not already a newline. Print and Printf apply it to
      the assembled buffer, Fatalf to its template. */
  function EnsureTrailingNewline(s: seq<Byte>): (r: seq<Byte>)
    ensures |s| <= |r| <= |s| + 1
    ensures r[..|s|] == s
    ensures |r| > 0 && r[|r| - 1] == Newline
    ensures |s| > 0 && s[|s| - 1] == Newline ==> r == s
  {
    if |s| == 0 || s[|s| - 1] != Newline then s + [Newline] else s
  }

  /** Applying the rule twice is the same as applying it once. */
  lemma EnsureTrailingNewlineIdempotent(s: seq<Byte>)
    ensures EnsureTrailingNewline(EnsureTrailingNewline(s)) == EnsureTrailingNewline(s)
  {
  }

  /** An operand of Print, already rendered to its default textual form.
      Only whether it is a Go string matters to the spacing rule. */
  datatype Operand = Str(text: seq<Byte>) | Value(text: seq<Byte>)

  const Space: seq<Byte> := " "

  /** What fmt.Fprint writes before an operand: one space when it is not the
      first operand and neither it nor the previous one is a string. */
  function SpaceBefore(x: Operand, prevString: bool, first: bool): seq<Byte> {
    if !first && !x.Str? && !prevString then Space else []
  }

  /** fmt.Fprint's operand loop, carrying whether the previous operand was a
      string and whether the next one is the first. */
  function PrintOperands(a: seq<Operand>, prevString: bool, first: bool): seq<Byte>
    decreases |a|
  {
    if a == [] then []
    else SpaceBefore(a[0], prevString, first) + a[0].text + PrintOperands(a[1..], a[0].Str?, false)
  }

  /** The body that fmt.Fprint writes for operands `a`. */
  function Fprint(a: seq<Operand>): (r: seq<Byte>)
    ensures a == [] ==> r == []
    ensures |a| == 1 ==> r == a[0].text
  {
    if |a| == 1 then
      assert a == [a[0]];
      PrintOperandsSingle(a[0], false, true);
      PrintOperands(a, false, true)
    else
      PrintOperands(a, false, true)
  }

  /** The space fmt.Fprint puts between two neighbouring operands. */
  function Gap(prev: Operand, next: Operand): (g: seq<Byte>)
    ensures g == " " <==> !prev.Str? && !next.Str?
    ensures g == [] <==> prev.Str? || next.Str?
  {
    SpaceBefore(next, prev.Str?, false)
  }

  lemma PrintOperandsSingle(x: Operand, prevString: bool, first: bool)
    ensures PrintOperands([x], prevString, first) == SpaceBefore(x, prevString, first) + x.text
  {
  }

  lemma Regroup(a: seq<Byte>, b: seq<Byte>, c: seq<Byte>, d: seq<Byte>)
    ensures a + (b + c + d) == (a + b) + c + d
  {
  }

  lemma {:induction false} PrintOperandsSnoc(a: seq<Operand>, x: Operand, prevString: bool, first: bool)
    ensures PrintOperands(a + [x], prevString, first)
         == PrintOperands(a, prevString, first)
            + (if a != [] then Gap(a[|a| - 1], x) else SpaceBefore(x, prevString, first))
            + x.text
    decreases |a|
  {
    if a == [] {
      assert a + [x] == [x];
      PrintOperandsSingle(x, prevString, first);
    } else {
      var rest, lead := a[1..], SpaceBefore(a[0], prevString, first) + a[0].text;
      var gap := if rest != [] then Gap(rest[|rest| - 1], x) else SpaceBefore(x, a[0].Str?, false);
      assert (a + [x])[0] == a[0] && (a + [x])[1..] == rest + [x];
      assert gap == Gap(a[|a| - 1], x);
      calc {
        PrintOperands(a + [x], prevString, first);
        lead + PrintOperands(rest + [x], a[0].Str?, false);
        { PrintOperandsSnoc(rest, x, a[0].Str?, false); }
        lead + (PrintOperands(rest, a[0].Str?, false) + gap + x.text);
        { Regroup(lead, PrintOperands(rest, a[0].Str?, false), gap, x.text); }
        (lead + PrintOperands(rest, a[0].Str?, false)) + gap + x.text;
        PrintOperands(a, prevString, first) + gap + x.text;
      }
    }
  }

  /** The spacing rule operand by operand: appending an operand appends its
      text, preceded by one space exactly when it and the operand before it
      are both non-strings. */
  lemma FprintSnoc(a: seq<Operand>, x: Operand)
    ensures Fprint(a + [x]) == Fprint(a) + (if a == [] then [] else Gap(a[|a| - 1], x)) + x.text
  {
    PrintOperandsSnoc(a, x, false, true);
  }

  /** The texts of the operands, in order. */
  function Texts(a: seq<Operand>): (ts: seq<seq<Byte>>)
    ensures |ts| == |a|
    ensures forall i :: 0 <= i < |a| ==> ts[i] == a[i].text
  {
    seq(|a|, i requires 0 <= i < |a| => a[i].text)
  }

  /** The texts glued together with nothing between them. */
  function Concat(ts: seq<seq<Byte>>): seq<Byte> {
    if ts == [] then [] else Concat(ts[..|ts| - 1]) + ts[|ts| - 1]
  }

  /** The texts separated by single spaces. */
  function JoinSpaced(ts: seq<seq<Byte>>): seq<Byte> {
    if ts == [] then []
    else if |ts| == 1 then ts[0]
    else JoinSpaced(ts[..|ts| - 1]) + " " + ts[|ts| - 1]
  }

  /** Operands that are all strings are concatenated without spaces
      ("hello", "world!" gives "helloworld!"). */
  lemma {:induction false} FprintAllStrings(a: seq<Operand>)
    requires forall i :: 0 <= i < |a| ==> a[i].Str?
    ensures Fprint(a) == Concat(Texts(a))
    decreases |a|
  {
    if a != [] {
      var init, x := a[..|a| - 1], a[|a| - 1];
      assert a == init + [x];
      FprintAllStrings(init);
      FprintSnoc(init, x);
      assert Texts(a)[..|a| - 1] == Texts(init);
    }
  }

  /** Operands none of which is a string are separated by single spaces
      (1, 2.0 gives "1 2"). */
  lemma {:induction false} FprintNoStrings(a: seq<Operand>)
    requires forall i :: 0 <= i < |a| ==> !a[i].Str?
    ensures Fprint(a) == JoinSpaced(Texts(a))
    decreases |a|
  {
    if a != [] {
      var init, x := a[..|a| - 1], a[|a| - 1];
      assert a == init + [x];
      FprintNoStrings(init);
      FprintSnoc(init, x);
      assert Texts(a)[..|a| - 1] == Texts(init);
    }
  }

  /** Two operands: the first text, the gap, the second text. */
  lemma FprintPair(x: Operand, y: Operand)
    ensures Fprint([x, y]) == x.text + Gap(x, y) + y.text
  {
    assert [x] + [y] == [x, y];
    FprintSnoc([x], y);
    PrintOperandsSingle(x, false, true);
  }

  /** Two strings are glued: "hello", "world!" gives "helloworld!". */
  lemma FprintTwoStrings()
    ensures Fprint([Str("hello"), Str("world!")]) == "helloworld!"
  {
    FprintPair(Str("hello"), Str("world!"));
  }

  /** Two numbers are spaced: 1, 2.0 (rendered "2") gives "1 2". */
  lemma FprintTwoValues()
    ensures Fprint([Value("1"), Value("2")]) == "1 2"
  {
    FprintPair(Value("1"), Value("2"));
  }

  /** A string operand holding a space is the only way to space strings:
      "hello", " ", "world!" gives "hello world!". */
  lemma FprintExplicitSpace()
    ensures Fprint([Str("hello"), Str(" "), Str("world!")]) == "hello world!"
  {
    FprintPair(Str("hello"), Str(" "));
    assert [Str("hello"), Str(" ")] + [Str("world!")] == [Str("hello"), Str(" "), Str("world!")];
    FprintSnoc([Str("hello"), Str(" ")], Str("world!"));
  }
}
