// The command field of the task form (dashboard/src/components/tasks/TaskSubmitForm.tsx):
// `parseCommand` splits what the user typed, `command.join(" ")` fills the field from a template.
module CommandLine {

  const SINGLE: char := '\''
  const DOUBLE: char := '\"'
  const SPACE: char := ' '

  /** The variables of the parsing loop. */
  datatype Scan = Scan(result: seq<string>, current: string, inSingle: bool, inDouble: bool)

  const START: Scan := Scan([], "", false, false)

  /** One turn of the loop. */
  function Step(s: Scan, ch: char): Scan {
    if ch == SINGLE && !s.inDouble then s.(inSingle := !s.inSingle)
    else if ch == DOUBLE && !s.inSingle then s.(inDouble := !s.inDouble)
    else if ch == SPACE && !s.inSingle && !s.inDouble then
      if s.current != "" then s.(result := s.result + [s.current], current := "") else s
    else s.(current := s.current + [ch])
  }

  function ScanAll(s: Scan, input: string): Scan {
    if input == "" then s else Step(ScanAll(s, input[..|input| - 1]), input[|input| - 1])
  }

  function Finish(s: Scan): seq<string> {
    if s.current != "" then s.result + [s.current] else s.result
  }

  function Parse(input: string): seq<string> {
    Finish(ScanAll(START, input))
  }

  method ParseCommand(input: string) returns (result: seq<string>)
    ensures result == Parse(input)
    ensures NoneEmpty(result)
  {
    result := [];
    var current: string := "";
    var inSingle, inDouble := false, false;
    for i := 0 to |input|
      invariant Scan(result, current, inSingle, inDouble) == ScanAll(START, input[..i])
      invariant NoneEmpty(result)
    {
      var ch := input[i];
      assert input[..i + 1][..i] == input[..i];
      if ch == SINGLE && !inDouble {
        inSingle := !inSingle;
      } else if ch == DOUBLE && !inSingle {
        inDouble := !inDouble;
      } else if ch == SPACE && !inSingle && !inDouble {
        if current != "" {
          result := result + [current];
          current := "";
        }
      } else {
        current := current + [ch];
      }
    }
    assert input[..|input|] == input;
    if current != "" {
      result := result + [current];
    }
  }

  /** JavaScript's `args.join(" ")`. */
  function Join(args: seq<string>): string {
    if args == [] then ""
    else if |args| == 1 then args[0]
    else Join(args[..|args| - 1]) + [SPACE] + args[|args| - 1]
  }

  predicate NoneEmpty(args: seq<string>) {
    forall k :: 0 <= k < |args| ==> args[k] != ""
  }

  predicate IsPlain(arg: string) {
    arg != "" && SPACE !in arg && SINGLE !in arg && DOUBLE !in arg
  }

  predicate AllPlain(args: seq<string>) {
    forall k :: 0 <= k < |args| ==> IsPlain(args[k])
  }

  // ---------- Scanning a concatenation ----------

  lemma {:induction false} ScanConcat(s: Scan, a: string, b: string)
    ensures ScanAll(s, a + b) == ScanAll(ScanAll(s, a), b)
  {
    if b == "" {
      assert a + b == a;
    } else {
      ScanConcat(s, a, b[..|b| - 1]);
      assert (a + b)[..|a + b| - 1] == a + b[..|b| - 1];
    }
  }

  // ---------- The parser never yields an empty argument ----------

  lemma {:induction false} ScanKeepsNonEmpty(input: string)
    ensures NoneEmpty(ScanAll(START, input).result)
  {
    if input != "" {
      ScanKeepsNonEmpty(input[..|input| - 1]);
    }
  }

  lemma ParseYieldsNoEmptyArgument(input: string)
    ensures NoneEmpty(Parse(input))
  {
    ScanKeepsNonEmpty(input);
  }

  // ---------- Plain arguments survive join and parse ----------

  lemma {:induction false} ScanPlain(s: Scan, arg: string)
    requires !s.inSingle && !s.inDouble
    requires SPACE !in arg && SINGLE !in arg && DOUBLE !in arg
    ensures ScanAll(s, arg) == s.(current := s.current + arg)
  {
    if arg != "" {
      ScanPlain(s, arg[..|arg| - 1]);
      assert arg == arg[..|arg| - 1] + [arg[|arg| - 1]];
      assert s.current + arg == (s.current + arg[..|arg| - 1]) + [arg[|arg| - 1]];
    }
  }

  lemma {:induction false} ScanPlainJoin(args: seq<string>)
    requires args != [] && AllPlain(args)
    ensures ScanAll(START, Join(args)) == Scan(args[..|args| - 1], args[|args| - 1], false, false)
  {
    var last := args[|args| - 1];
    if |args| == 1 {
      ScanPlain(START, last);
    } else {
      var front := args[..|args| - 1];
      ScanPlainJoin(front);
      ScanConcat(START, Join(front), [SPACE]);
      ScanConcat(START, Join(front) + [SPACE], last);
      assert front == front[..|front| - 1] + [front[|front| - 1]];
      var mid := Step(ScanAll(START, Join(front)), SPACE);
      ScanOne(ScanAll(START, Join(front)), SPACE);
      assert mid == Scan(front, "", false, false);
      ScanPlain(mid, last);
      assert "" + last == last;
    }
  }

  // ---------- Counting: what a lossless parse costs ----------

  function TotalLength(args: seq<string>): nat {
    if args == [] then 0 else TotalLength(args[..|args| - 1]) + |args[|args| - 1]|
  }

  lemma TotalLengthSnoc(args: seq<string>, a: string)
    ensures TotalLength(args + [a]) == TotalLength(args) + |a|
  {
    assert (args + [a])[..|args|] == args;
  }

  /** Characters kept so far, plus one for each separator that ended an argument. */
  function Weight(s: Scan): nat {
    TotalLength(s.result) + |s.current| + |s.result|
  }

  function CountSpaces(input: string): nat {
    if input == "" then 0
    else CountSpaces(input[..|input| - 1]) + (if input[|input| - 1] == SPACE then 1 else 0)
  }

  lemma {:induction false} CountSpacesConcat(a: string, b: string)
    ensures CountSpaces(a + b) == CountSpaces(a) + CountSpaces(b)
  {
    if b == "" {
      assert a + b == a;
    } else {
      CountSpacesConcat(a, b[..|b| - 1]);
      assert (a + b)[..|a + b| - 1] == a + b[..|b| - 1];
    }
  }

  lemma {:induction false} NoSpacesCounted(input: string)
    requires CountSpaces(input) == 0
    ensures SPACE !in input
  {
    if input != "" {
      NoSpacesCounted(input[..|input| - 1]);
    }
  }

  lemma StepWeight(s: Scan, ch: char)
    ensures Weight(Step(s, ch)) <= Weight(s) + 1
    ensures Weight(Step(s, ch)) == Weight(s) + 1 && !s.inSingle && !s.inDouble ==>
              ch != SINGLE && ch != DOUBLE &&
              |Step(s, ch).result| == |s.result| + (if ch == SPACE then 1 else 0)
  {
    TotalLengthSnoc(s.result, s.current);
  }

  /** The weight never exceeds the characters read; if it equals them, no quote was read and every
      space ended an argument. */
  lemma {:induction false} ScanWeight(input: string)
    ensures var s := ScanAll(START, input);
            Weight(s) <= |input| &&
            (Weight(s) == |input| ==>
               !s.inSingle && !s.inDouble && SINGLE !in input && DOUBLE !in input &&
               |s.result| == CountSpaces(input))
  {
    if input != "" {
      var front, ch := input[..|input| - 1], input[|input| - 1];
      ScanWeight(front);
      StepWeight(ScanAll(START, front), ch);
      assert input == front + [ch];
    }
  }

  function SpacesIn(args: seq<string>): nat {
    if args == [] then 0 else SpacesIn(args[..|args| - 1]) + CountSpaces(args[|args| - 1])
  }

  lemma {:induction false} JoinShape(args: seq<string>)
    requires args != []
    ensures |Join(args)| == TotalLength(args) + |args| - 1
    ensures CountSpaces(Join(args)) == SpacesIn(args) + |args| - 1
    ensures forall k :: 0 <= k < |args| ==> forall c :: c in args[k] ==> c in Join(args)
  {
    if |args| == 1 {
      assert args[..0] == [];
    } else {
      var front, last := args[..|args| - 1], args[|args| - 1];
      JoinShape(front);
      CountSpacesConcat(Join(front), [SPACE]);
      CountSpacesConcat(Join(front) + [SPACE], last);
      assert CountSpaces([SPACE]) == 1 by { assert [SPACE][..0] == ""; }
      forall k | 0 <= k < |args|
        ensures forall c :: c in args[k] ==> c in Join(args)
      {
        if k < |front| { assert args[k] == front[k]; }
      }
    }
  }

  lemma {:induction false} NoSpacesInAny(args: seq<string>)
    requires SpacesIn(args) == 0
    ensures forall k :: 0 <= k < |args| ==> SPACE !in args[k]
  {
    if args != [] {
      NoSpacesInAny(args[..|args| - 1]);
      NoSpacesCounted(args[|args| - 1]);
    }
  }

  lemma LosslessParseIsPlain(args: seq<string>)
    requires Parse(Join(args)) == args
    ensures AllPlain(args)
  {
    if args != [] {
      var input := Join(args);
      var s := ScanAll(START, input);
      ParseYieldsNoEmptyArgument(input);
      ScanWeight(input);
      JoinShape(args);
      TotalLengthSnoc(s.result, s.current);
      assert Weight(s) == |input| && |s.result| == |args| - 1;
      NoSpacesInAny(args);
    }
  }

  /** Filling the field from a template and parsing it back gives the same arguments exactly when
      every argument is non-empty and free of spaces and quotes. */
  lemma RoundTripExactly(args: seq<string>)
    ensures Parse(Join(args)) == args <==> AllPlain(args)
  {
    if AllPlain(args) {
      if args != [] {
        ScanPlainJoin(args);
        assert args == args[..|args| - 1] + [args[|args| - 1]];
      }
    }
    if Parse(Join(args)) == args {
      LosslessParseIsPlain(args);
    }
  }

  // ---------- A printer the parser does invert ----------

  function QuoteChar(c: char): string {
    if c == SINGLE then [DOUBLE, c, DOUBLE] else [SINGLE, c, SINGLE]
  }

  function Quote(arg: string): string {
    if arg == "" then "" else Quote(arg[..|arg| - 1]) + QuoteChar(arg[|arg| - 1])
  }

  function JoinQuoted(args: seq<string>): string {
    if args == [] then "" else JoinQuoted(args[..|args| - 1]) + [SPACE] + Quote(args[|args| - 1])
  }

  lemma ScanOne(s: Scan, ch: char)
    ensures ScanAll(s, [ch]) == Step(s, ch)
  {
    assert [ch][..0] == "";
  }

  lemma ScanThree(s: Scan, a: char, b: char, c: char)
    ensures ScanAll(s, [a, b, c]) == Step(Step(Step(s, a), b), c)
  {
    assert [a, b, c][..2] == [a, b] && [a, b][..1] == [a];
    ScanOne(s, a);
  }

  lemma {:induction false} ScanQuoted(s: Scan, arg: string)
    requires !s.inSingle && !s.inDouble
    ensures ScanAll(s, Quote(arg)) == s.(current := s.current + arg)
  {
    if arg == "" {
      assert s.current + arg == s.current;
    } else {
      var front, c := arg[..|arg| - 1], arg[|arg| - 1];
      ScanQuoted(s, front);
      ScanConcat(s, Quote(front), QuoteChar(c));
      var q := if c == SINGLE then DOUBLE else SINGLE;
      ScanThree(s.(current := s.current + front), q, c, q);
      assert s.current + arg == (s.current + front) + [c];
    }
  }

  lemma {:induction false} ScanJoinQuoted(args: seq<string>)
    requires NoneEmpty(args)
    ensures var s := ScanAll(START, JoinQuoted(args));
            Finish(s) == args && !s.inSingle && !s.inDouble
  {
    if args != [] {
      var front, last := args[..|args| - 1], args[|args| - 1];
      ScanJoinQuoted(front);
      var s := ScanAll(START, JoinQuoted(front));
      ScanConcat(START, JoinQuoted(front), [SPACE]);
      ScanOne(s, SPACE);
      var mid := Step(s, SPACE);
      assert mid == Scan(front, "", false, false);
      ScanConcat(START, JoinQuoted(front) + [SPACE], Quote(last));
      ScanQuoted(mid, last);
      assert "" + last == last;
      assert args == front + [last];
    }
  }

  /** A list of arguments is the result of parsing some input exactly when none of them is empty. */
  lemma ParseIsOntoNonEmptyLists(args: seq<string>)
    ensures (exists input :: Parse(input) == args) <==> NoneEmpty(args)
    ensures NoneEmpty(args) ==> Parse(JoinQuoted(args)) == args
  {
    if input :| Parse(input) == args {
      ParseYieldsNoEmptyArgument(input);
    }
    if NoneEmpty(args) {
      ScanJoinQuoted(args);
      assert Parse(JoinQuoted(args)) == args;
    }
  }
}
