/** Artifacts that flip between a plain and a gzip file (litehive/agents/artifacts.py). */
module Artifacts {
  import opened Common

  /** Path to decoded text, for plain and gzip files alike. */
  type Files = map<string, string>

  const COMPRESS_MIN_BYTES: nat := 4096

  function Utf8Length(s: string): nat {
    if s == "" then 0
    else
      var c := s[|s| - 1] as int;
      Utf8Length(s[..|s| - 1]) + if c < 0x80 then 1 else if c < 0x800 then 2 else if c < 0x10000 then 3 else 4
  }

  /** Reading a text file turns every CR LF and lone CR into LF. */
  function AsRead(s: string): string {
    if s == "" then ""
    else if s[0] == '\r' then "\n" + AsRead(if |s| > 1 && s[1] == '\n' then s[2..] else s[1..])
    else [s[0]] + AsRead(s[1..])
  }

  function Gz(path: string): string { path + ".gz" }

  function Lookup(files: Files, path: string): Option<string> {
    if path in files then Some(files[path]) else None
  }

  /** An artifact is named by its plain path. */
  datatype Op =
    | WriteStream(name: string, content: string, compress: bool)
    | WriteText(name: string, suffix: string, content: string, compress: bool)
    | RemoveText(name: string, suffix: string)

  function Stem(op: Op): string {
    match op
    case WriteStream(name, _, _) => name + ".txt"
    case WriteText(name, suffix, _, _) => name + suffix
    case RemoveText(name, suffix) => name + suffix
  }

  predicate Compresses(op: Op) {
    !op.RemoveText? && op.compress && Utf8Length(op.content) >= COMPRESS_MIN_BYTES
  }

  function Target(op: Op): string {
    if Compresses(op) then Gz(Stem(op)) else Stem(op)
  }

  /** The variant that must go before the target is written. */
  function Stale(op: Op): string {
    if Compresses(op) then Stem(op) else Gz(Stem(op))
  }

  /** A plain stream is not rewritten when what a reader sees there already equals the new content. */
  predicate Skips(files: Files, op: Op) {
    op.WriteStream? && !Compresses(op) && Stem(op) in files && AsRead(files[Stem(op)]) == op.content
  }

  function After(files: Files, op: Op): Files {
    if op.RemoveText? then files - {Stem(op), Gz(Stem(op))}
    else if Skips(files, op) then files - {Stale(op)}
    else (files - {Stale(op)})[Target(op) := op.content]
  }

  /** The state of the directory after each single file step. */
  function Steps(files: Files, op: Op): seq<Files> {
    if op.RemoveText? then [files - {Stem(op)}, files - {Stem(op), Gz(Stem(op))}]
    else
      var cleared := files - {Stale(op)};
      (if Stale(op) in files then [cleared] else []) +
      (if Skips(files, op) then [] else [cleared[Target(op) := op.content]])
  }

  class ArtifactService {
    var files: Files
    var history: seq<Files>

    constructor ()
      ensures files == map[] && history == []
    {
      files, history := map[], [];
    }

    method Unlink(path: string)
      modifies this
      ensures files == old(files) - {path} && history == old(history) + [files]
    {
      files := files - {path};
      history := history + [files];
    }

    method Put(path: string, content: string)
      modifies this
      ensures files == old(files)[path := content] && history == old(history) + [files]
    {
      files := files[path := content];
      history := history + [files];
    }

    method PutIfChanged(path: string, content: string)
      modifies this
      ensures
        if path in old(files) && AsRead(old(files)[path]) == content then files == old(files) && history == old(history)
        else files == old(files)[path := content] && history == old(history) + [files]
    {
      if path in files && AsRead(files[path]) == content {
        return;
      }
      Put(path, content);
    }

    method WriteStreamFile(name: string, content: string, compress: bool)
      modifies this
      ensures files == After(old(files), WriteStream(name, content, compress))
      ensures history == old(history) + Steps(old(files), WriteStream(name, content, compress))
    {
      var plain, compressed := name + ".txt", name + ".txt" + ".gz";
      ghost var op := WriteStream(name, content, compress);
      VariantsDiffer(plain);
      AbsentStale(files, op);
      if compress && content == "" {
        if compressed in files { Unlink(compressed); }
        PutIfChanged(plain, "");
        return;
      }
      if compress && Utf8Length(content) >= COMPRESS_MIN_BYTES {
        if plain in files { Unlink(plain); }
        Put(compressed, content);
        return;
      }
      if compressed in files { Unlink(compressed); }
      PutIfChanged(plain, content);
    }

    method WriteTextFile(name: string, suffix: string, content: string, compress: bool) returns (path: string)
      modifies this
      ensures files == After(old(files), WriteText(name, suffix, content, compress))
      ensures history == old(history) + Steps(old(files), WriteText(name, suffix, content, compress))
      ensures path == Target(WriteText(name, suffix, content, compress))
    {
      var plain, compressed := name + suffix, name + suffix + ".gz";
      AbsentStale(files, WriteText(name, suffix, content, compress));
      if compress && Utf8Length(content) >= COMPRESS_MIN_BYTES {
        if plain in files { Unlink(plain); }
        Put(compressed, content);
        return compressed;
      }
      if compressed in files { Unlink(compressed); }
      Put(plain, content);
      return plain;
    }

    method RemoveTextFile(name: string, suffix: string)
      modifies this
      ensures files == After(old(files), RemoveText(name, suffix))
      ensures history == old(history) + Steps(old(files), RemoveText(name, suffix))
    {
      Unlink(name + suffix);
      Unlink(name + suffix + ".gz");
      assert files == old(files) - {name + suffix, name + suffix + ".gz"};
    }
  }

  lemma VariantsDiffer(path: string)
    ensures Gz(path) != path
  {
    assert |Gz(path)| == |path| + 3;
  }

  lemma AbsentStale(files: Files, op: Op)
    ensures Stale(op) !in files ==> files - {Stale(op)} == files
  {}

  // ----- every run ----------------------------------------------------------------------

  function Run(ops: seq<Op>): Files {
    if ops == [] then map[] else After(Run(ops[..|ops| - 1]), ops[|ops| - 1])
  }

  predicate AtMostOne(files: Files, stem: string) {
    !(stem in files && Gz(stem) in files)
  }

  /** No artifact's plain path is another artifact's gzip path. */
  predicate SeparateStems(ops: seq<Op>) {
    forall i, j :: 0 <= i < |ops| && 0 <= j < |ops| ==> Stem(ops[i]) != Gz(Stem(ops[j]))
  }

  function LastOn(ops: seq<Op>, stem: string): Option<Op> {
    if ops == [] then None
    else if Stem(ops[|ops| - 1]) == stem then Some(ops[|ops| - 1])
    else LastOn(ops[..|ops| - 1], stem)
  }

  /** What the two files of an artifact hold after the last operation on it. */
  predicate Settled(files: Files, stem: string, last: Option<Op>) {
    if last.None? || last.value.RemoveText? then stem !in files && Gz(stem) !in files
    else
      var op := last.value;
      && Target(op) in files && Stale(op) !in files
      && (op.WriteText? || Compresses(op) ==> files[Target(op)] == op.content)
      && (op.WriteStream? ==> files[Target(op)] == op.content || AsRead(files[Target(op)]) == op.content)
  }

  lemma GzIsInjective(p: string, q: string)
    ensures Gz(p) == Gz(q) ==> p == q
  {
    if Gz(p) == Gz(q) {
      assert p == Gz(p)[..|Gz(p)| - 3] && q == Gz(q)[..|Gz(q)| - 3];
    }
  }

  /** Operations on other artifacts leave both files alone. */
  lemma OthersStay(files: Files, op: Op, stem: string)
    requires Stem(op) != stem && Stem(op) != Gz(stem) && Gz(Stem(op)) != stem
    ensures Lookup(After(files, op), stem) == Lookup(files, stem)
    ensures Lookup(After(files, op), Gz(stem)) == Lookup(files, Gz(stem))
    ensures forall i :: 0 <= i < |Steps(files, op)| ==>
      && Lookup(Steps(files, op)[i], stem) == Lookup(files, stem)
      && Lookup(Steps(files, op)[i], Gz(stem)) == Lookup(files, Gz(stem))
  {
    GzIsInjective(Stem(op), stem);
  }

  /** After any operations, an artifact's files are exactly what its last operation asks for. */
  lemma {:induction false} RunSettles(ops: seq<Op>, i: nat)
    requires SeparateStems(ops) && i < |ops|
    ensures Settled(Run(ops), Stem(ops[i]), LastOn(ops, Stem(ops[i])))
  {
    RunSettlesStem(ops, Stem(ops[i]));
  }

  lemma {:induction false} RunSettlesStem(ops: seq<Op>, stem: string)
    requires SeparateStems(ops)
    requires forall i :: 0 <= i < |ops| ==> Stem(ops[i]) != Gz(stem) && Gz(Stem(ops[i])) != stem
    ensures Settled(Run(ops), stem, LastOn(ops, stem))
  {
    if ops != [] {
      var n := |ops| - 1;
      RunSettlesStem(ops[..n], stem);
      VariantsDiffer(stem);
      if Stem(ops[n]) != stem {
        OthersStay(Run(ops[..n]), ops[n], stem);
        SettledStays(Run(ops[..n]), Run(ops), ops[..n], stem);
      }
    }
  }

  lemma {:induction false} SettledStays(before: Files, after: Files, ops: seq<Op>, stem: string)
    requires Settled(before, stem, LastOn(ops, stem))
    requires Lookup(after, stem) == Lookup(before, stem) && Lookup(after, Gz(stem)) == Lookup(before, Gz(stem))
    ensures Settled(after, stem, LastOn(ops, stem))
  {
    LastIsOnStem(ops, stem);
  }

  lemma {:induction false} LastIsOnStem(ops: seq<Op>, stem: string)
    ensures LastOn(ops, stem).Some? ==> Stem(LastOn(ops, stem).value) == stem
  {
    if ops != [] { LastIsOnStem(ops[..|ops| - 1], stem); }
  }

  /** At every file step of every run, at most one variant of every artifact exists. */
  lemma NeverBothVariants(ops: seq<Op>, i: nat, j: nat, step: nat)
    requires SeparateStems(ops) && i < |ops| && j < |ops|
    requires step < |Steps(Run(ops[..i]), ops[i])|
    ensures AtMostOne(Steps(Run(ops[..i]), ops[i])[step], Stem(ops[j]))
  {
    var stem, before := Stem(ops[j]), Run(ops[..i]);
    assert SeparateStems(ops[..i]);
    RunSettlesStem(ops[..i], stem);
    SettledIsOne(before, ops[..i], stem);
    VariantsDiffer(stem);
    if Stem(ops[i]) != stem {
      OthersStay(before, ops[i], stem);
    }
  }

  lemma SettledIsOne(files: Files, ops: seq<Op>, stem: string)
    requires Settled(files, stem, LastOn(ops, stem))
    ensures AtMostOne(files, stem)
  {
    LastIsOnStem(ops, stem);
  }

  // ----- is the last content what the file holds? ---------------------------------------

  /**
   * A stream write leaves exactly its content unless an existing plain file differs from it only in how line ends
   * are spelled: then the old spelling stays.
   */
  lemma StreamContentExactly(files: Files, op: Op)
    requires op.WriteStream?
    ensures
      var stem := Stem(op);
      After(files, op)[Target(op)] == op.content <==>
        !(!Compresses(op) && stem in files && files[stem] != op.content && AsRead(files[stem]) == op.content)
  {
    VariantsDiffer(Stem(op));
  }

  lemma {:induction false} NoReturnReadsSame(s: string)
    requires '\r' !in s
    ensures AsRead(s) == s
  {
    if s != "" {
      assert s == [s[0]] + s[1..];
      assert s[0] in s;
      assert forall c :: c in s[1..] ==> c in s;
      NoReturnReadsSame(s[1..]);
    }
  }

  /** A second snapshot that only respells a line end is not stored. */
  lemma RespelledLineEndIsLost()
    ensures After(map["stdout.txt" := "a\r\n"], WriteStream("stdout", "a\n", false)) == map["stdout.txt" := "a\r\n"]
  {
    var files, op := map["stdout.txt" := "a\r\n"], WriteStream("stdout", "a\n", false);
    assert Stem(op) == "stdout.txt";
    assert "a\r\n"[1..] == "\r\n" && "\r\n"[2..] == "";
    assert AsRead("\r\n") == "\n";
    assert Stale(op) !in files by { VariantsDiffer("stdout.txt"); }
  }

  /** The write is skipped although the file differs: only the spelling of line ends does. */
  predicate Respells(files: Files, op: Op) {
    Skips(files, op) && files[Stem(op)] != op.content
  }

  /** No later operation is on this artifact. */
  predicate LastOnStem(ops: seq<Op>, n: nat)
    requires n < |ops|
  {
    forall j :: n < j < |ops| ==> Stem(ops[j]) != Stem(ops[n])
  }

  /**
   * Over any operations: the artifact exists in one variant, which holds the last content written exactly when
   * that write did not merely respell line ends of the file then in place.
   */
  lemma {:induction false} LastContentHeldExactly(ops: seq<Op>, n: nat)
    requires SeparateStems(ops) && n < |ops| && LastOnStem(ops, n) && !ops[n].RemoveText?
    ensures
      var op := ops[n];
      && Target(op) in Run(ops) && Stale(op) !in Run(ops)
      && (Lookup(Run(ops), Target(op)) == Some(op.content) <==> !Respells(Run(ops[..n]), op))
  {
    hide Compresses, Skips, Stem, Gz, Respells, After;
    var m, op := |ops| - 1, ops[n];
    VariantsDiffer(Stem(op));
    if n < m {
      assert SeparateStems(ops[..m]) && LastOnStem(ops[..m], n) && ops[..m][..n] == ops[..n];
      LastContentHeldExactly(ops[..m], n);
      OthersStay(Run(ops[..m]), ops[m], Stem(op));
    } else {
      WriteHoldsExactly(Run(ops[..n]), op);
    }
  }

  lemma WriteHoldsExactly(files: Files, op: Op)
    requires !op.RemoveText?
    ensures Target(op) in After(files, op) && Stale(op) !in After(files, op)
    ensures After(files, op)[Target(op)] == op.content <==> !Respells(files, op)
  {
    VariantsDiffer(Stem(op));
  }

  lemma {:induction false} ReadingLeavesNoReturn(s: string)
    ensures '\r' !in AsRead(s)
  {
    if s != "" {
      ReadingLeavesNoReturn(if s[0] == '\r' && |s| > 1 && s[1] == '\n' then s[2..] else s[1..]);
    }
  }

  /** No plain write to the artifact has a carriage return. */
  predicate PlainWritesHaveNoReturns(ops: seq<Op>, stem: string) {
    forall i :: 0 <= i < |ops| && Stem(ops[i]) == stem && !ops[i].RemoveText? && !Compresses(ops[i]) ==>
      '\r' !in ops[i].content
  }

  lemma {:induction false} PlainFileHasNoReturn(ops: seq<Op>, stem: string)
    requires forall i :: 0 <= i < |ops| ==> Stem(ops[i]) != Gz(stem) && Gz(Stem(ops[i])) != stem
    requires PlainWritesHaveNoReturns(ops, stem)
    ensures stem in Run(ops) ==> '\r' !in Run(ops)[stem]
  {
    if ops != [] {
      var n := |ops| - 1;
      PlainFileHasNoReturn(ops[..n], stem);
      VariantsDiffer(stem);
      if Stem(ops[n]) != stem {
        OthersStay(Run(ops[..n]), ops[n], stem);
      }
    }
  }

  /**
   * In particular it holds the last content after every text or gzip write, after a stream write with a carriage
   * return, and after any write where the plain writes before it to the same artifact had none.
   */
  lemma LastContentIsHeld(ops: seq<Op>, n: nat)
    requires SeparateStems(ops) && n < |ops| && LastOnStem(ops, n) && !ops[n].RemoveText?
    requires
      || ops[n].WriteText? || Compresses(ops[n]) || '\r' in ops[n].content
      || PlainWritesHaveNoReturns(ops[..n], Stem(ops[n]))
    ensures Lookup(Run(ops), Target(ops[n])) == Some(ops[n].content) && Stale(ops[n]) !in Run(ops)
  {
    hide Stem, Gz, Run, Compresses, AsRead, Target, Stale;
    var op, before := ops[n], Run(ops[..n]);
    LastContentHeldExactly(ops, n);
    if Stem(op) in before {
      ReadingLeavesNoReturn(before[Stem(op)]);
      if PlainWritesHaveNoReturns(ops[..n], Stem(op)) {
        PlainFileHasNoReturn(ops[..n], Stem(op));
        NoReturnReadsSame(before[Stem(op)]);
      }
    }
  }

  // ----- where an artifact goes ---------------------------------------------------------

  /** The last write decides: plain text unless compression is asked for and the content has 4096 bytes of UTF-8. */
  lemma ArtifactsGoByName(ops: seq<Op>, n: nat)
    requires SeparateStems(ops) && n < |ops| && LastOnStem(ops, n) && !ops[n].RemoveText?
    ensures
      var op := ops[n];
      var large := op.compress && Utf8Length(op.content) >= 4096;
      var plain := op.name + if op.WriteStream? then ".txt" else op.suffix;
      && (plain in Run(ops) <==> !large)
      && (plain + ".gz" in Run(ops) <==> large)
  {
    hide Run, SeparateStems, LastOnStem, Utf8Length;
    LastContentHeldExactly(ops, n);
  }

  /** Characters cost one to four bytes by their code point. */
  lemma Utf8Bytes(s: string, c: char)
    ensures Utf8Length(s + [c]) == Utf8Length(s) +
      if c as int <= 0x7f then 1 else if c as int <= 0x7ff then 2 else if c as int <= 0xffff then 3 else 4
  {
    assert (s + [c])[..|s|] == s;
  }

  /** Each spelling of a line end reads as one newline. */
  lemma {:induction false} LineEndsReadAsOne(s: string, rest: string)
    requires '\r' !in s
    ensures AsRead(s + "\r\n" + rest) == s + "\n" + AsRead(rest)
    ensures (rest == "" || rest[0] != '\n') ==> AsRead(s + "\r" + rest) == s + "\n" + AsRead(rest)
  {
    if s == "" {
      assert "" + "\r\n" + rest == "\r\n" + rest && ("\r\n" + rest)[2..] == rest;
      assert "" + "\r" + rest == "\r" + rest && ("\r" + rest)[1..] == rest;
    } else {
      assert s[0] in s && forall c :: c in s[1..] ==> c in s;
      LineEndsReadAsOne(s[1..], rest);
      var t := s[1..];
      assert s == [s[0]] + t;
      assert (s + "\r\n" + rest)[1..] == t + "\r\n" + rest;
      assert (s + "\r" + rest)[1..] == t + "\r" + rest;
      assert [s[0]] + (t + "\n" + AsRead(rest)) == s + "\n" + AsRead(rest);
    }
  }
}
