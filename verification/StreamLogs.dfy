/** The append-only stream log against full snapshots (litehive/agents/session_streams.py). */
module StreamLogs {
  import opened Text

  datatype LogFile = LogFile(base: string, stream: string)

  /** One progress callback: the whole stream so far. */
  datatype Call = Call(base: string, id: string, stream: string, content: string)

  datatype State = State(offsets: map<string, nat>, files: map<LogFile, string>)

  const EMPTY: State := State(map[], map[])

  function KeyOf(id: string, stream: string): string {
    id + [':'] + stream
  }

  function Offset(st: State, key: string): nat {
    if key in st.offsets then st.offsets[key] else 0
  }

  function Contents(st: State, file: LogFile): string {
    if file in st.files then st.files[file] else ""
  }

  function After(st: State, call: Call): State {
    var key, file := KeyOf(call.id, call.stream), LogFile(call.base, call.stream);
    var n := Offset(st, key);
    if |call.content| <= n then st
    else State(st.offsets[key := |call.content|], st.files[file := Contents(st, file) + call.content[n..]])
  }

  class SubagentStreamLog {
    var offsets: map<string, nat>
    var files: map<LogFile, string>

    constructor ()
      ensures offsets == map[] && files == map[]
    {
      offsets, files := map[], map[];
    }

    method AppendDelta(base: string, id: string, stream: string, content: string)
      modifies this
      ensures State(offsets, files) == After(State(old(offsets), old(files)), Call(base, id, stream, content))
    {
      var key := id + [':'] + stream;
      var previous := if key in offsets then offsets[key] else 0;
      if |content| <= previous {
        return;
      }
      var file := LogFile(base, stream);
      files := files[file := (if file in files then files[file] else "") + content[previous..]];
      offsets := offsets[key := |content|];
    }
  }

  function Run(calls: seq<Call>): State {
    if calls == [] then EMPTY else After(Run(calls[..|calls| - 1]), calls[|calls| - 1])
  }

  // ----- one stream seen alone ----------------------------------------------------------

  /** The snapshots taken of one stream, in order. */
  function Snapshots(calls: seq<Call>, file: LogFile): seq<string> {
    if calls == [] then []
    else
      var last, rest := calls[|calls| - 1], Snapshots(calls[..|calls| - 1], file);
      if LogFile(last.base, last.stream) == file then rest + [last.content] else rest
  }

  /** Every snapshot adds what lies beyond the text already there. */
  function Spliced(snapshots: seq<string>): string {
    if snapshots == [] then ""
    else
      var text, last := Spliced(snapshots[..|snapshots| - 1]), snapshots[|snapshots| - 1];
      if |last| <= |text| then text else text + last[|text|..]
  }

  /** Each subagent has its own directory, and ids (SA-NNNN) contain no colon. */
  predicate OneDirectoryPerSubagent(calls: seq<Call>) {
    && (forall i :: 0 <= i < |calls| ==> ':' !in calls[i].id)
    && forall i, j :: 0 <= i < |calls| && 0 <= j < |calls| ==>
         (calls[i].base == calls[j].base <==> calls[i].id == calls[j].id)
  }

  lemma KeysDoNotCollide(a: Call, b: Call)
    requires ':' !in a.id && ':' !in b.id
    ensures KeyOf(a.id, a.stream) == KeyOf(b.id, b.stream) <==> a.id == b.id && a.stream == b.stream
  {
    if KeyOf(a.id, a.stream) == KeyOf(b.id, b.stream) {
      SeparatorSplits(a.id, b.id, ':', a.stream, b.stream);
    }
  }

  /**
   * A log file depends on the snapshots of its own stream only, however the callbacks of other streams interleave;
   * the offset always equals the length already written.
   */
  lemma {:induction false} LogIsSpliced(calls: seq<Call>, i: nat)
    requires OneDirectoryPerSubagent(calls) && i < |calls|
    ensures
      var c := calls[i];
      && Contents(Run(calls), LogFile(c.base, c.stream)) == Spliced(Snapshots(calls, LogFile(c.base, c.stream)))
      && Offset(Run(calls), KeyOf(c.id, c.stream)) == |Contents(Run(calls), LogFile(c.base, c.stream))|
  {
    StreamStep(calls, calls[i]);
  }

  /** The same for any call that fits the directories in use, seen or not. */
  lemma {:induction false} StreamStep(calls: seq<Call>, c: Call)
    requires OneDirectoryPerSubagent(calls) && ':' !in c.id
    requires forall j :: 0 <= j < |calls| ==> (calls[j].base == c.base <==> calls[j].id == c.id)
    ensures
      var file := LogFile(c.base, c.stream);
      && Contents(Run(calls), file) == Spliced(Snapshots(calls, file))
      && Offset(Run(calls), KeyOf(c.id, c.stream)) == |Contents(Run(calls), file)|
  {
    hide KeyOf, Spliced;
    var file := LogFile(c.base, c.stream);
    if calls == [] {
      NothingSpliced();
    } else {
      var n := |calls| - 1;
      var last, before := calls[n], Run(calls[..n]);
      StreamStep(calls[..n], c);
      KeysDoNotCollide(last, c);
      if LogFile(last.base, last.stream) == file {
        SplicedGrows(Snapshots(calls[..n], file), last.content);
      }
    }
  }

  lemma NothingSpliced()
    ensures Spliced([]) == ""
  {
  }

  lemma SplicedGrows(rest: seq<string>, last: string)
    ensures Spliced(rest + [last]) ==
      if |last| <= |Spliced(rest)| then Spliced(rest) else Spliced(rest) + last[|Spliced(rest)|..]
  {
    assert (rest + [last])[..|rest|] == rest;
  }

  // ----- what splicing gives ------------------------------------------------------------

  function MaxLength(snapshots: seq<string>): (n: nat)
    ensures forall i :: 0 <= i < |snapshots| ==> |snapshots[i]| <= n
    ensures n == 0 || exists i :: 0 <= i < |snapshots| && |snapshots[i]| == n
  {
    if snapshots == [] then 0
    else
      var rest, last := MaxLength(snapshots[..|snapshots| - 1]), snapshots[|snapshots| - 1];
      if |last| > rest then |last| else rest
  }

  lemma {:induction false} SplicedLength(snapshots: seq<string>)
    ensures |Spliced(snapshots)| == MaxLength(snapshots)
  {
    if snapshots != [] {
      SplicedLength(snapshots[..|snapshots| - 1]);
    }
  }

  /** Every character comes from the first snapshot long enough to have it. */
  lemma {:induction false} SplicedFromFirst(snapshots: seq<string>, i: nat, j: nat)
    requires i < |snapshots| && j < |snapshots[i]|
    requires forall k :: 0 <= k < i ==> |snapshots[k]| <= j
    ensures j < |Spliced(snapshots)| && Spliced(snapshots)[j] == snapshots[i][j]
  {
    var n := |snapshots| - 1;
    SplicedLength(snapshots[..n]);
    if i < n {
      SplicedFromFirst(snapshots[..n], i, j);
    } else {
      assert MaxLength(snapshots[..n]) <= j;
    }
  }

  /** While the stream only grows or repeats, the log holds exactly the longest snapshot. */
  lemma {:induction false} GrowingStreamIsLoggedExactly(snapshots: seq<string>)
    requires forall i, j :: 0 <= i < |snapshots| && 0 <= j < |snapshots| ==>
      snapshots[i] <= snapshots[j] || snapshots[j] <= snapshots[i]
    ensures forall i :: 0 <= i < |snapshots| ==> snapshots[i] <= Spliced(snapshots)
    ensures Spliced(snapshots) in snapshots || Spliced(snapshots) == ""
  {
    if snapshots != [] {
      var n := |snapshots| - 1;
      var init, last := snapshots[..n], snapshots[n];
      assert snapshots == init + [last];
      forall i, j | 0 <= i < |init| && 0 <= j < |init| ensures init[i] <= init[j] || init[j] <= init[i] {
        assert init[i] == snapshots[i] && init[j] == snapshots[j];
      }
      GrowingStreamIsLoggedExactly(init);
      forall p | p in init ensures p <= last || last <= p {
        var i :| 0 <= i < |init| && init[i] == p;
        assert snapshots[i] == p;
      }
      OneMoreSnapshot(init, last);
    }
  }

  lemma OneMoreSnapshot(init: seq<string>, last: string)
    requires forall p :: p in init ==> p <= last || last <= p
    requires Spliced(init) in init || Spliced(init) == ""
    requires forall i :: 0 <= i < |init| ==> init[i] <= Spliced(init)
    ensures
      var all := init + [last];
      && (forall i :: 0 <= i < |all| ==> all[i] <= Spliced(all))
      && (Spliced(all) in all || Spliced(all) == "")
  {
    var all, text := init + [last], Spliced(init);
    assert all[..|init|] == init;
    assert text <= last || last <= text;
    if |last| <= |text| {
      assert Spliced(all) == text;
    } else {
      assert text + last[|text|..] == last;
      assert Spliced(all) == last && all[|init|] == last;
    }
    hide Spliced;
  }
}
