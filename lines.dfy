/** `text.split("\n")`: the text is cut at every line break, and joining the
    pieces with line breaks gives the text back. */
module Lines {

  predicate NoBreak(s: string) {
    '\n' !in s
  }

  /** Number of line breaks in `s`. */
  function Breaks(s: string): nat {
    if s == [] then 0 else (if s[0] == '\n' then 1 else 0) + Breaks(s[1..])
  }

  /** `s.split("\n")`. An empty text gives one empty line, never none. */
  function Split(s: string): (lines: seq<string>)
    ensures |lines| >= 1
    decreases |s|
  {
    if s == [] then [""]
    else
      var rest := Split(s[1..]);
      if s[0] == '\n' then [""] + rest
      else [[s[0]] + rest[0]] + rest[1..]
  }

  /** `lines.join("\n")` */
  function Join(lines: seq<string>): string
    decreases |lines|
  {
    if |lines| == 0 then ""
    else if |lines| == 1 then lines[0]
    else lines[0] + "\n" + Join(lines[1..])
  }

  /** Joining the pieces gives the text back. */
  lemma {:induction false} JoinSplit(s: string)
    ensures Join(Split(s)) == s
    decreases |s|
  {
    if s != [] {
      var rest := Split(s[1..]);
      JoinSplit(s[1..]);
      if s[0] == '\n' {
        assert Split(s) == [""] + rest;
        assert ([""] + rest)[1..] == rest;
      } else {
        var r := [[s[0]] + rest[0]] + rest[1..];
        assert Split(s) == r;
        if |rest| == 1 {
          assert Join(r) == [s[0]] + rest[0];
        } else {
          assert r[1..] == rest[1..];
          assert Join(rest) == rest[0] + "\n" + Join(rest[1..]);
          assert Join(r) == [s[0]] + rest[0] + "\n" + Join(rest[1..]);
        }
        assert s == [s[0]] + s[1..];
      }
    }
  }

  /** No piece contains a line break, and there is one piece more than
      there are line breaks. */
  lemma {:induction false} SplitPieces(s: string)
    ensures forall i :: 0 <= i < |Split(s)| ==> NoBreak(Split(s)[i])
    ensures |Split(s)| == Breaks(s) + 1
    decreases |s|
  {
    if s != [] {
      SplitPieces(s[1..]);
      var rest := Split(s[1..]);
      if s[0] != '\n' {
        var r := [[s[0]] + rest[0]] + rest[1..];
        assert Split(s) == r;
        assert NoBreak(rest[0]);
        assert NoBreak([s[0]] + rest[0]);
        forall i | 1 <= i < |r| ensures NoBreak(r[i]) {
          assert r[i] == rest[i];
        }
      } else {
        forall i | 1 <= i < |Split(s)| ensures NoBreak(Split(s)[i]) {
          assert Split(s)[i] == rest[i - 1];
        }
      }
    }
  }

  /** Splitting a break-free prefix followed by more text glues the prefix
      onto the first piece of the rest. */
  lemma {:induction false} SplitPrefix(w: string, t: string)
    requires NoBreak(w)
    ensures Split(w + t) == [w + Split(t)[0]] + Split(t)[1..]
    decreases |w|
  {
    if w != [] {
      assert (w + t)[1..] == w[1..] + t;
      assert (w + t)[0] == w[0];
      SplitPrefix(w[1..], t);
      assert [w[0]] + (w[1..] + Split(t)[0]) == w + Split(t)[0];
    } else {
      var p := Split(t);
      assert w + t == t && w + p[0] == p[0];
      assert p == [p[0]] + p[1..];
    }
  }

  /** Splitting the join of break-free pieces gives the pieces back. */
  lemma {:induction false} SplitJoin(lines: seq<string>)
    requires |lines| >= 1
    requires forall i :: 0 <= i < |lines| ==> NoBreak(lines[i])
    ensures Split(Join(lines)) == lines
    decreases |lines|
  {
    if |lines| == 1 {
      SplitPrefix(lines[0], "");
      assert lines[0] + "" == lines[0];
    } else {
      var tail := Join(lines[1..]);
      SplitJoin(lines[1..]);
      assert Join(lines) == lines[0] + ("\n" + tail);
      SplitPrefix(lines[0], "\n" + tail);
      assert ("\n" + tail)[1..] == tail;
      assert Split("\n" + tail) == [""] + lines[1..];
      assert lines[0] + "" == lines[0];
    }
  }
}
