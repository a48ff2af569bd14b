/** Splitting a rendered trace into chunks and joining it again (litehive/domain/agent.py). */
module Traces {
  import opened Text

  predicate BreakAt(s: string, i: int) {
    0 <= i && i + 1 < |s| && s[i] == '\n' && s[i + 1] == '\n'
  }

  ghost predicate Unbroken(s: string) {
    forall i :: !BreakAt(s, i)
  }

  /** The leftmost blank-line separator, or the length when there is none. */
  function FirstBreak(s: string): (i: nat)
    ensures i == |s| || BreakAt(s, i)
    ensures i <= |s| && forall j :: j < i ==> !BreakAt(s, j)
  {
    if s == "" then 0 else if BreakAt(s, 0) then 0
    else
      var i := FirstBreak(s[1..]);
      assert forall j :: BreakAt(s, j) && j > 0 ==> BreakAt(s[1..], j - 1);
      1 + i
  }

  /** Python's text.split("\n\n"). */
  function Split(s: string): (r: seq<string>)
    ensures |r| > 0
    decreases |s|
  {
    var i := FirstBreak(s);
    if i == |s| then [s] else [s[..i]] + Split(s[i + 2..])
  }

  /** Python's "\n\n".join(chunks). */
  function Join(chunks: seq<string>): string {
    if chunks == [] then ""
    else if |chunks| == 1 then chunks[0]
    else chunks[0] + "\n\n" + Join(chunks[1..])
  }

  /** Strips every piece and drops the empty ones. */
  function Tidy(pieces: seq<string>): seq<string> {
    if pieces == [] then []
    else if Strip(pieces[0]) == "" then Tidy(pieces[1..])
    else [Strip(pieces[0])] + Tidy(pieces[1..])
  }

  function FromText(s: string): seq<string> {
    Tidy(Split(s))
  }

  /** What a chunk looks like: trimmed, not empty, and free of separators. */
  ghost predicate Clean(chunk: string) {
    chunk != "" && Strip(chunk) == chunk && Unbroken(chunk)
  }

  ghost predicate AllClean(chunks: seq<string>) {
    forall i :: 0 <= i < |chunks| ==> Clean(chunks[i])
  }

  // ----- chunks are clean ---------------------------------------------------------------

  lemma StripIsUnbroken(s: string)
    requires Unbroken(s)
    ensures Unbroken(Strip(s))
  {
    hide IsSpace, Strip;
    var front, back := StripParts(s);
    forall i ensures BreakAt(Strip(s), i) ==> BreakAt(s, i + |front|) {
    }
  }

  lemma {:induction false} StripTwice(s: string)
    ensures Strip(Strip(s)) == Strip(s)
  {
    hide IsSpace;
    var r := Strip(s);
    if r != "" {
      assert StripLeft(r) == r;
      assert StripRight(r) == r;
    }
  }

  lemma {:induction false} PiecesAreUnbroken(s: string)
    ensures forall i :: 0 <= i < |Split(s)| ==> Unbroken(Split(s)[i])
    decreases |s|
  {
    var i := FirstBreak(s);
    if i < |s| {
      PiecesAreUnbroken(s[i + 2..]);
      assert forall j :: BreakAt(s[..i], j) ==> BreakAt(s, j);
    } else {
      assert forall j :: BreakAt(s, j) ==> j < i;
    }
  }

  lemma {:induction false} TidyIsClean(pieces: seq<string>)
    requires forall i :: 0 <= i < |pieces| ==> Unbroken(pieces[i])
    ensures AllClean(Tidy(pieces))
  {
    hide IsSpace, Strip, Unbroken;
    if pieces != [] {
      TidyIsClean(pieces[1..]);
      StripIsUnbroken(pieces[0]);
      StripTwice(pieces[0]);
    }
  }

  lemma ChunksAreClean(s: string)
    ensures AllClean(FromText(s))
  {
    PiecesAreUnbroken(s);
    TidyIsClean(Split(s));
  }

  // ----- the round trip -----------------------------------------------------------------

  /** A clean chunk cannot lend a newline to the separator after it. */
  lemma BreakAfterChunk(chunk: string, rest: string)
    requires Clean(chunk)
    ensures FirstBreak(chunk + "\n\n" + rest) == |chunk|
  {
    var s := chunk + "\n\n" + rest;
    var n := |chunk|;
    assert s[n] == '\n' && s[n + 1] == '\n' && s[n - 1] == chunk[n - 1];
    assert chunk[n - 1] != '\n';
    assert BreakAt(s, n);
    assert forall j :: j < n - 1 && BreakAt(s, j) ==> BreakAt(chunk, j);
  }

  lemma NoBreakInChunk(chunk: string)
    requires Clean(chunk)
    ensures FirstBreak(chunk) == |chunk|
  {
    var i := FirstBreak(chunk);
    assert !BreakAt(chunk, i);
  }

  lemma {:induction false} SplitUndoesJoin(chunks: seq<string>)
    requires chunks != [] && AllClean(chunks)
    ensures Split(Join(chunks)) == chunks
  {
    hide Clean, FirstBreak, BreakAt;
    if |chunks| == 1 {
      NoBreakInChunk(chunks[0]);
      assert chunks == [chunks[0]];
    } else {
      var s, rest := Join(chunks), Join(chunks[1..]);
      BreakAfterChunk(chunks[0], rest);
      assert s[..|chunks[0]|] == chunks[0] && s[|chunks[0]| + 2..] == rest;
      SplitUndoesJoin(chunks[1..]);
      assert chunks == [chunks[0]] + chunks[1..];
    }
  }

  lemma {:induction false} TidyKeepsClean(chunks: seq<string>)
    requires AllClean(chunks)
    ensures Tidy(chunks) == chunks
  {
    if chunks != [] {
      TidyKeepsClean(chunks[1..]);
    }
  }

  /** Joining and splitting gives the chunks back exactly when every chunk is clean. */
  lemma RoundTripExactlyWhenClean(chunks: seq<string>)
    ensures FromText(Join(chunks)) == chunks <==> AllClean(chunks)
  {
    hide Clean, Split, Tidy;
    ChunksAreClean(Join(chunks));
    if AllClean(chunks) {
      TidyKeepsClean(chunks);
      if chunks == [] {
        NoTextNoChunks();
      } else {
        SplitUndoesJoin(chunks);
      }
    }
  }

  lemma NoTextNoChunks()
    ensures FromText("") == []
  {
    assert Split("") == [""];
    assert Strip("") == "";
  }

  /** So for every text the chunks survive storing and re-reading, and normalising twice changes nothing. */
  lemma TraceRoundTrip(s: string)
    ensures FromText(Join(FromText(s))) == FromText(s)
    ensures Join(FromText(Join(FromText(s)))) == Join(FromText(s))
  {
    ChunksAreClean(s);
    RoundTripExactlyWhenClean(FromText(s));
  }

  // ----- nothing visible is lost --------------------------------------------------------

  /** The characters of a text that are not white space, in order. */
  function Ink(s: string): string {
    if s == "" then "" else Ink(s[..|s| - 1]) + if IsSpace(s[|s| - 1]) then "" else [s[|s| - 1]]
  }

  lemma InkStep(s: string, c: char)
    ensures Ink(s + [c]) == Ink(s) + if IsSpace(c) then "" else [c]
  {
    assert (s + [c])[..|s|] == s;
  }

  lemma {:induction false} InkOfConcat(a: string, b: string)
    ensures Ink(a + b) == Ink(a) + Ink(b)
  {
    assert Ink("") == "";
    hide IsSpace, Ink;
    if b == "" {
      assert a + b == a;
    } else {
      var rest, c := b[..|b| - 1], b[|b| - 1];
      InkOfConcat(a, rest);
      InkStep(a + rest, c);
      InkStep(rest, c);
      assert b == rest + [c] && a + b == a + rest + [c];
    }
  }

  lemma {:induction false} InkOfSpace(s: string)
    requires Blank(s)
    ensures Ink(s) == ""
  {
    if s != "" {
      InkOfSpace(s[..|s| - 1]);
    }
  }

  lemma InkOfStrip(s: string)
    ensures Ink(Strip(s)) == Ink(s)
  {
    hide IsSpace, Strip;
    var front, back := StripParts(s);
    InkOfConcat(front + Strip(s), back);
    InkOfConcat(front, Strip(s));
    InkOfSpace(front);
    InkOfSpace(back);
  }

  lemma {:induction false} InkOfSplit(s: string)
    ensures Ink(Join(Tidy(Split(s)))) == Ink(s)
    decreases |s|
  {
    hide IsSpace, Strip, Tidy, Join, Ink;
    var i := FirstBreak(s);
    if i == |s| {
      InkOfTidy(s, []);
      NothingIsInkless();
      assert [s] + [] == [s] && Ink(s) + "" == Ink(s);
    } else {
      InkOfSplit(s[i + 2..]);
      InkOfTidy(s[..i], Split(s[i + 2..]));
      InkOfBreak(s, i);
    }
  }

  lemma InkOfBreak(s: string, i: nat)
    requires BreakAt(s, i)
    ensures Ink(s) == Ink(s[..i]) + Ink(s[i + 2..])
  {
    hide IsSpace, Ink;
    var a, b := s[..i], s[i + 2..];
    assert s == a + "\n\n" + b;
    InkOfConcat(a + "\n\n", b);
    InkOfConcat(a, "\n\n");
    SeparatorIsInkless();
    assert Ink(a) + "" == Ink(a);
  }

  lemma SeparatorIsInkless()
    ensures Ink("\n\n") == ""
  {
    InkOfSpace("\n\n");
  }

  lemma NothingIsInkless()
    ensures Ink(Join(Tidy([]))) == ""
  {}

  lemma InkOfTidy(piece: string, rest: seq<string>)
    ensures Ink(Join(Tidy([piece] + rest))) == Ink(piece) + Ink(Join(Tidy(rest)))
  {
    hide IsSpace, Strip, Ink;
    var chunk, chunks := Strip(piece), Tidy(rest);
    assert ([piece] + rest)[1..] == rest;
    InkOfStrip(piece);
    SeparatorIsInkless();
    NothingIsInkless();
    if chunk == "" {
      InkOfConcat("", "");
      assert Ink("") + Ink("") == Ink("");
      assert Ink(piece) + Ink(Join(chunks)) == Ink(Join(chunks));
    } else if chunks == [] {
      assert [chunk] + chunks == [chunk];
      assert Ink(chunk) + "" == Ink(chunk);
    } else {
      assert ([chunk] + chunks)[1..] == chunks;
      InkOfConcat(chunk + "\n\n", Join(chunks));
      InkOfConcat(chunk, "\n\n");
      assert Ink(chunk) + "" == Ink(chunk);
    }
  }

  lemma NothingVisibleIsLost(s: string)
    ensures Ink(Join(FromText(s))) == Ink(s)
  {
    InkOfSplit(s);
  }

  /** Chunks are separated by one blank line, in both directions. */
  lemma BlankLineSeparates(a: string, b: string)
    requires Clean(a) && Clean(b)
    ensures Join([a, b]) == a + "\n\n" + b && FromText(a + "\n\n" + b) == [a, b]
  {
    hide Clean, Split, Tidy;
    assert [a, b][1..] == [b];
    RoundTripExactlyWhenClean([a, b]);
  }
}
