/** Allocation of task-scoped SA-NNNN ids (litehive/agents/subagent_ids.py). */
module SubagentIds {
  import opened Common

  // ----- printing and parsing -----------------------------------------------------------

  predicate IsDigit(c: char) { '0' <= c <= '9' }

  predicate AllDigits(s: string) { forall i :: 0 <= i < |s| ==> IsDigit(s[i]) }

  function Digits(n: nat): (r: string)
    ensures AllDigits(r) && |r| > 0
    ensures n >= 10 ==> |r| > 1
  {
    if n < 10 then ['0' + n as char] else Digits(n / 10) + ['0' + (n % 10) as char]
  }

  /** Python's int() on a run of digits. */
  function Value(s: string): nat
    requires AllDigits(s)
  {
    if s == "" then 0 else Value(s[..|s| - 1]) * 10 + (s[|s| - 1] as int - '0' as int)
  }

  /** Zero padding on the left, never truncation. */
  function Pad(s: string, width: nat): (r: string)
    ensures AllDigits(s) ==> AllDigits(r)
    ensures |r| == if |s| < width then width else |s|
    decreases width - |s|
  {
    if |s| < width then Pad("0" + s, width) else s
  }

  /** The id of a number, `SA-%04d`. */
  function Print(n: nat): string {
    "SA-" + Pad(Digits(n), 4)
  }

  /** The number of an id matching `^SA-(\d{4})$`; as in Python, `$` also matches before a final newline. */
  function Parse(id: string): Option<nat> {
    var body := if id != "" && id[|id| - 1] == '\n' then id[..|id| - 1] else id;
    if |body| == 7 && body[..3] == "SA-" && AllDigits(body[3..]) then Some(Value(body[3..])) else None
  }

  function NextAfter(id: string): nat {
    match Parse(id)
    case None => 1
    case Some(n) => n + 1
  }

  lemma {:induction false} DigitsValue(n: nat)
    ensures Value(Digits(n)) == n
  {
    if n >= 10 {
      DigitsValue(n / 10);
      var d := Digits(n);
      assert d[..|d| - 1] == Digits(n / 10);
    }
  }

  lemma {:induction false} LeadingZero(s: string)
    requires AllDigits(s)
    ensures Value("0" + s) == Value(s)
  {
    if s != "" {
      LeadingZero(s[..|s| - 1]);
      assert ("0" + s)[..|s|] == "0" + s[..|s| - 1];
    } else {
      assert ("0" + s)[..0] == "";
    }
  }

  lemma {:induction false} PadValue(s: string, width: nat)
    requires AllDigits(s)
    ensures Value(Pad(s, width)) == Value(s)
    decreases width - |s|
  {
    if |s| < width {
      LeadingZero(s);
      PadValue("0" + s, width);
    }
  }

  /** Different numbers never print alike, below and above four digits. */
  lemma PrintIsInjective(m: nat, n: nat)
    requires Print(m) == Print(n)
    ensures m == n
  {
    assert Print(m)[3..] == Pad(Digits(m), 4) && Print(n)[3..] == Pad(Digits(n), 4);
    PadValue(Digits(m), 4);
    PadValue(Digits(n), 4);
    DigitsValue(m);
    DigitsValue(n);
  }

  lemma {:induction false} ValueBound(s: string)
    requires AllDigits(s)
    ensures |s| <= 4 ==> Value(s) < 10000
    ensures |s| <= 3 ==> Value(s) < 1000
    ensures |s| <= 2 ==> Value(s) < 100
    ensures |s| <= 1 ==> Value(s) < 10
  {
    if s != "" {
      ValueBound(s[..|s| - 1]);
    }
  }

  /** Two equally long digit strings of the same value are the same. */
  lemma {:induction false} ValueIsInjective(s: string, t: string)
    requires AllDigits(s) && AllDigits(t) && |s| == |t| && Value(s) == Value(t)
    ensures s == t
  {
    if s != "" {
      var n := |s| - 1;
      ValueIsInjective(s[..n], t[..n]);
      assert s == s[..n] + [s[n]] && t == t[..n] + [t[n]];
    }
  }

  lemma {:induction false} DigitsCount(n: nat)
    ensures n < 10 <==> |Digits(n)| == 1
    ensures n < 100 <==> |Digits(n)| <= 2
    ensures n < 1000 <==> |Digits(n)| <= 3
    ensures n < 10000 <==> |Digits(n)| <= 4
  {
    if n >= 10 {
      DigitsCount(n / 10);
    }
  }

  /** The parser reads back exactly the four-digit ids; from 10000 on it no longer recognises what is printed. */
  lemma ParsePrint(n: nat)
    ensures Parse(Print(n)) == if n < 10000 then Some(n) else None
  {
    hide Digits, Pad, Value;
    var padded, id := Pad(Digits(n), 4), Print(n);
    assert id[3..] == padded && id[..3] == "SA-";
    assert id[|id| - 1] == padded[|padded| - 1];
    assert IsDigit(padded[|padded| - 1]);
    DigitsCount(n);
    DigitsValue(n);
    PadValue(Digits(n), 4);
  }

  /** What parses is the print of its number, up to one final newline. */
  lemma PrintParse(id: string, n: nat)
    requires Parse(id) == Some(n)
    ensures id == Print(n) || id == Print(n) + "\n"
    ensures n < 10000
  {
    var body := if id != "" && id[|id| - 1] == '\n' then id[..|id| - 1] else id;
    ValueBound(body[3..]);
    DigitsCount(n);
    DigitsValue(n);
    PadValue(Digits(n), 4);
    ValueIsInjective(body[3..], Pad(Digits(n), 4));
    assert body == body[..3] + body[3..];
  }

  // ----- the counter store --------------------------------------------------------------

  function Above(ids: seq<string>): (n: nat)
    ensures n >= 1
    ensures forall i :: 0 <= i < |ids| ==> NextAfter(ids[i]) <= n
    ensures n == 1 || exists i :: 0 <= i < |ids| && NextAfter(ids[i]) == n
  {
    if ids == [] then 1
    else
      var rest, last := Above(ids[..|ids| - 1]), NextAfter(ids[|ids| - 1]);
      if last > rest then last else rest
  }

  /** One more than the greatest canonical number among some ids, by a running maximum. */
  method NextNumberAfter(ids: seq<string>) returns (n: nat)
    ensures n == Above(ids)
  {
    n := 1;
    for i := 0 to |ids|
      invariant n == Above(ids[..i])
    {
      var next := NextAfter(ids[i]);
      assert ids[..i + 1][..i] == ids[..i];
      if next > n { n := next; }
    }
    assert ids[..|ids|] == ids;
  }

  datatype Tables = Tables(counters: map<string, nat>, sessions: map<string, seq<string>>)

  function SessionsOf(t: Tables, task: string): seq<string> {
    if task in t.sessions then t.sessions[task] else []
  }

  function Counter(t: Tables, task: string): nat {
    if task in t.counters then t.counters[task] else 1
  }

  /** The least number at or above the counter that exceeds every canonical number present. */
  function NextNumber(t: Tables, task: string, refs: seq<string>): (n: nat)
    ensures Counter(t, task) <= n && Above(SessionsOf(t, task)) <= n && Above(refs) <= n
    ensures n == Counter(t, task) || n == Above(SessionsOf(t, task)) || n == Above(refs)
  {
    var a, b, c := Counter(t, task), Above(SessionsOf(t, task)), Above(refs);
    var m := if a >= b then a else b;
    if m >= c then m else c
  }

  lemma MaxOfThree(t: Tables, task: string, refs: seq<string>, n: nat)
    requires Counter(t, task) <= n && Above(SessionsOf(t, task)) <= n && Above(refs) <= n
    requires n == Counter(t, task) || n == Above(SessionsOf(t, task)) || n == Above(refs)
    ensures n == NextNumber(t, task, refs)
  {
    hide Above;
  }

  class SubagentIdRepository {
    var counters: map<string, nat>
    var sessions: map<string, seq<string>>

    function View(): Tables
      reads this
    {
      Tables(counters, sessions)
    }

    constructor ()
      ensures View() == Tables(map[], map[])
    {
      counters, sessions := map[], map[];
    }

    method ReserveNextId(task: string, refs: seq<string>) returns (id: string)
      modifies this
      ensures id == Print(NextNumber(old(View()), task, refs))
      ensures View() == Reserved(old(View()), task, refs)
    {
      hide Above, Print, NextNumber;
      var after := NextNumberAfter(refs);
      var session := NextNumberAfter(SessionsOf(View(), task));
      var n := Counter(View(), task);
      if session > n { n := session; }
      if after > n { n := after; }
      MaxOfThree(View(), task, refs, n);
      counters := counters[task := n + 1];
      return Print(n);
    }

    /** A session row written by another part of the system. */
    method AddSession(task: string, id: string)
      modifies this
      ensures View() == WithSession(old(View()), task, id)
    {
      sessions := sessions[task := (if task in sessions then sessions[task] else []) + [id]];
    }
  }

  function Reserved(t: Tables, task: string, refs: seq<string>): Tables {
    t.(counters := t.counters[task := NextNumber(t, task, refs) + 1])
  }

  function WithSession(t: Tables, task: string, id: string): Tables {
    t.(sessions := t.sessions[task := SessionsOf(t, task) + [id]])
  }

  // ----- every run ----------------------------------------------------------------------

  datatype Action =
    | Reserve(task: string, refs: seq<string>)
    | Session(task: string, id: string)

  function After(t: Tables, a: Action): Tables {
    match a
    case Reserve(task, refs) => Reserved(t, task, refs)
    case Session(task, id) => WithSession(t, task, id)
  }

  function Run(t: Tables, actions: seq<Action>): Tables {
    if actions == [] then t else After(Run(t, actions[..|actions| - 1]), actions[|actions| - 1])
  }

  /** The ids a run hands out, in order. */
  function Handed(t: Tables, actions: seq<Action>): seq<string> {
    if actions == [] then []
    else
      var n := |actions| - 1;
      var last := actions[n];
      Handed(t, actions[..n]) +
      if last.Reserve? then [Print(NextNumber(Run(t, actions[..n]), last.task, last.refs))] else []
  }

  /** A whole sequence of reservations and session rows on the live repository is the specified run. */
  method PerformAll(repository: SubagentIdRepository, actions: seq<Action>) returns (ids: seq<string>)
    modifies repository
    ensures repository.View() == Run(old(repository.View()), actions)
    ensures ids == Handed(old(repository.View()), actions)
  {
    hide Print, NextNumber, Reserved, WithSession;
    ids := [];
    for i := 0 to |actions|
      invariant repository.View() == Run(old(repository.View()), actions[..i])
      invariant ids == Handed(old(repository.View()), actions[..i])
    {
      assert actions[..i + 1][..i] == actions[..i];
      match actions[i] {
        case Reserve(task, refs) =>
          var id := repository.ReserveNextId(task, refs);
          ids := ids + [id];
        case Session(task, id) =>
          repository.AddSession(task, id);
      }
    }
    assert actions[..|actions|] == actions;
  }

  /** The number the reservation at position i of a run yields. */
  function NumberAt(t: Tables, actions: seq<Action>, i: nat): nat
    requires i < |actions| && actions[i].Reserve?
  {
    NextNumber(Run(t, actions[..i]), actions[i].task, actions[i].refs)
  }

  lemma {:induction false} CountersOnlyGrow(t: Tables, actions: seq<Action>, i: nat, j: nat, task: string)
    requires i <= j <= |actions|
    ensures Counter(Run(t, actions[..i]), task) <= Counter(Run(t, actions[..j]), task)
  {
    hide NextNumber, After, Counter;
    if i < j {
      CountersOnlyGrow(t, actions, i, j - 1, task);
      assert actions[..j][..j - 1] == actions[..j - 1];
      assert Run(t, actions[..j]) == After(Run(t, actions[..j - 1]), actions[j - 1]);
      CounterGrows(Run(t, actions[..j - 1]), actions[j - 1], task);
    }
  }

  lemma CounterGrows(t: Tables, a: Action, task: string)
    ensures Counter(t, task) <= Counter(After(t, a), task)
  {
    hide NextNumber;
  }

  /** Whatever is reserved or recorded in between, two reservations of one task give different ids, in order. */
  lemma ReservedIdsNeverRepeat(t: Tables, actions: seq<Action>, i: nat, j: nat)
    requires i < j < |actions| && actions[i].Reserve? && actions[j].Reserve?
    requires actions[i].task == actions[j].task
    ensures NumberAt(t, actions, i) < NumberAt(t, actions, j)
    ensures Print(NumberAt(t, actions, i)) != Print(NumberAt(t, actions, j))
  {
    CountersOnlyGrow(t, actions, i + 1, j, actions[i].task);
    assert actions[..i + 1][..i] == actions[..i];
    assert Run(t, actions[..i + 1]) == After(Run(t, actions[..i]), actions[i]);
    if Print(NumberAt(t, actions, i)) == Print(NumberAt(t, actions, j)) {
      PrintIsInjective(NumberAt(t, actions, i), NumberAt(t, actions, j));
    }
  }

  /** The ids a reservation can see. */
  function Present(t: Tables, task: string, refs: seq<string>): seq<string> {
    SessionsOf(t, task) + refs
  }

  /** A reserved id differs from every id present that the parser recognises, even when it lies past 9999. */
  lemma ReservedIdIsNew(t: Tables, task: string, refs: seq<string>, id: string)
    requires id in Present(t, task, refs) && Parse(id).Some?
    ensures Print(NextNumber(t, task, refs)) != id
  {
    var n := NextNumber(t, task, refs);
    assert NextAfter(id) <= n;
    ParsePrint(n);
  }

  /** The same reservation, a number of times in a row. */
  function Repeated(task: string, refs: seq<string>, n: nat): (r: seq<Action>)
    ensures |r| == n && forall i :: 0 <= i < n ==> r[i] == Reserve(task, refs)
  {
    if n == 0 then [] else Repeated(task, refs, n - 1) + [Reserve(task, refs)]
  }

  lemma {:induction false} RepeatedPrefix(task: string, refs: seq<string>, n: nat, i: nat)
    requires i <= n
    ensures Repeated(task, refs, n)[..i] == Repeated(task, refs, i)
  {
    if i < n {
      RepeatedPrefix(task, refs, n - 1, i);
    }
  }

  lemma ReservedNext(t: Tables, task: string, refs: seq<string>)
    ensures NextNumber(Reserved(t, task, refs), task, refs) == NextNumber(t, task, refs) + 1
  {
    hide Above;
  }

  lemma {:induction false} RepeatedRun(t: Tables, task: string, refs: seq<string>, n: nat)
    ensures
      var u := Run(t, Repeated(task, refs, n));
      NextNumber(u, task, refs) == NextNumber(t, task, refs) + n && u.sessions == t.sessions
  {
    hide NextNumber, Repeated;
    if n > 0 {
      RepeatedRun(t, task, refs, n - 1);
      RepeatedPrefix(task, refs, n, n - 1);
      ReservedNext(Run(t, Repeated(task, refs, n - 1)), task, refs);
      var all := Repeated(task, refs, n);
      assert Run(t, all) == After(Run(t, all[..n - 1]), all[n - 1]);
    } else {
      assert Repeated(task, refs, 0) == [];
    }
  }

  /** The i-th of them prints the next free number plus i. */
  lemma RepeatedNumbers(t: Tables, task: string, refs: seq<string>, n: nat, i: nat)
    requires i < n
    ensures NumberAt(t, Repeated(task, refs, n), i) == NextNumber(t, task, refs) + i
  {
    RepeatedPrefix(task, refs, n, i);
    RepeatedRun(t, task, refs, i);
  }

  /** Some reservation of the series hands out an id that is already there. */
  ghost predicate Collides(t: Tables, task: string, refs: seq<string>, n: nat, i: nat)
    requires i < n
  {
    Print(NumberAt(t, Repeated(task, refs, n), i)) in Present(t, task, refs)
  }

  /** Every id present past 9999 lies below the next number, as it does when the counter knows of it. */
  ghost predicate LongIdsAreCovered(t: Tables, task: string, refs: seq<string>) {
    forall k: nat :: k >= 10000 && Print(k) in Present(t, task, refs) ==> k < NextNumber(t, task, refs)
  }

  lemma PresentIdsBelow(t: Tables, task: string, refs: seq<string>, k: nat)
    requires LongIdsAreCovered(t, task, refs) && Print(k) in Present(t, task, refs)
    ensures k < NextNumber(t, task, refs)
  {
    ParsePrint(k);
    assert k < 10000 ==> NextAfter(Print(k)) <= NextNumber(t, task, refs);
  }

  /**
    * Going on reserving never hands out an id that is present exactly when every present id past
    * 9999 lies below the next number: shorter ids raise the lower bound by themselves, longer ones
    * only the counter remembers.
    */
  lemma ReservationsStayNewExactly(t: Tables, task: string, refs: seq<string>)
    ensures (forall n: nat, i: nat :: i < n ==> !Collides(t, task, refs, n, i)) <==> LongIdsAreCovered(t, task, refs)
  {
    if LongIdsAreCovered(t, task, refs) {
      forall n: nat, i: nat | i < n ensures !Collides(t, task, refs, n, i) {
        CoveredNeverCollide(t, task, refs, n, i);
      }
    } else {
      UncoveredCollides(t, task, refs);
    }
  }

  lemma CoveredNeverCollide(t: Tables, task: string, refs: seq<string>, n: nat, i: nat)
    requires LongIdsAreCovered(t, task, refs) && i < n
    ensures !Collides(t, task, refs, n, i)
  {
    hide Print, Present, NumberAt, NextNumber, Repeated;
    RepeatedNumbers(t, task, refs, n, i);
    if Collides(t, task, refs, n, i) {
      PresentIdsBelow(t, task, refs, NextNumber(t, task, refs) + i);
    }
  }

  lemma UncoveredCollides(t: Tables, task: string, refs: seq<string>)
    requires !LongIdsAreCovered(t, task, refs)
    ensures exists n: nat, i: nat :: i < n && Collides(t, task, refs, n, i)
  {
    hide Print, Present, NextNumber, Collides;
    var k: nat :| k >= 10000 && Print(k) in Present(t, task, refs) && k >= NextNumber(t, task, refs);
    HandedOutAgain(t, task, refs, k - NextNumber(t, task, refs));
  }

  lemma HandedOutAgain(t: Tables, task: string, refs: seq<string>, i: nat)
    requires Print(NextNumber(t, task, refs) + i) in Present(t, task, refs)
    ensures Collides(t, task, refs, i + 1, i)
  {
    hide Print, Present, NumberAt, NextNumber, Repeated;
    RepeatedNumbers(t, task, refs, i + 1, i);
  }

  /**
    * Over any run, with other ids recorded in between: what a reservation hands out a second time
    * lies past 9999 and was not handed out by this run.
    */
  lemma CollisionsNeedForeignLongIds(t: Tables, actions: seq<Action>, j: nat)
    requires j < |actions| && actions[j].Reserve?
    requires
      var id := Print(NumberAt(t, actions, j));
      id in Present(Run(t, actions[..j]), actions[j].task, actions[j].refs)
    ensures NumberAt(t, actions, j) >= 10000
    ensures !LongIdsAreCovered(Run(t, actions[..j]), actions[j].task, actions[j].refs)
    ensures forall i :: 0 <= i < j && actions[i].Reserve? && actions[i].task == actions[j].task ==>
      Print(NumberAt(t, actions, i)) != Print(NumberAt(t, actions, j))
  {
    var n := NumberAt(t, actions, j);
    ParsePrint(n);
    if n < 10000 {
      ReservedIdIsNew(Run(t, actions[..j]), actions[j].task, actions[j].refs, Print(n));
    }
    forall i | 0 <= i < j && actions[i].Reserve? && actions[i].task == actions[j].task
      ensures Print(NumberAt(t, actions, i)) != Print(NumberAt(t, actions, j))
    {
      ReservedIdsNeverRepeat(t, actions, i, j);
    }
  }

  /** Two ids around the boundary and no counter row: the reservation hands out SA-10000 a second time. */
  lemma LongIdsWithoutCounterCollide()
    ensures
      var refs := [Print(9999), Print(10000)];
      Print(NextNumber(Tables(map[], map[]), "T-1", refs)) == refs[1]
  {
    var refs := [Print(9999), Print(10000)];
    ParsePrint(9999);
    ParsePrint(10000);
    assert refs[..1][..0] == [] && refs[..1] == [Print(9999)];
    assert Above(refs[..1]) == 10000;
    assert Above(refs) == 10000;
  }

  // ----- the first ids ------------------------------------------------------------------

  /** A task without any ids gets SA-0001, and every id is SA- followed by at least four digits. */
  lemma FirstIds(t: Tables, task: string)
    requires task !in t.counters && task !in t.sessions
    ensures Print(NextNumber(t, task, [])) == "SA-0001"
  {
    assert Above([]) == 1;
    assert Digits(1) == "1";
    assert "0" + "1" == "01" && "0" + "01" == "001" && "0" + "001" == "0001";
    assert Pad("0001", 4) == "0001" && Pad("001", 4) == "0001" && Pad("01", 4) == "0001";
    assert Pad("1", 4) == "0001";
  }

  lemma IdsLookAlike(n: nat)
    ensures "SA-" <= Print(n) && |Print(n)| >= 7 && AllDigits(Print(n)[3..])
  {
    hide Digits, Pad;
    assert Print(n)[3..] == Pad(Digits(n), 4);
  }
}
