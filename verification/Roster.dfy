/** Who takes part in an orchestration, and who is next. */
module Roster {
  import opened Wrappers
  import opened Text

  datatype Participant = Participant(id: string, agentId: string, role: string, position: int)

  datatype Mode = Sequential | RoundRobin | Supervisor

  datatype Status = Running | Completed | Failed | Stopped

  datatype EndReason = RosterExhausted | MaxStepsReached | InvalidState | InvalidRoster | TerminalState

  datatype Decision = Invoke(participant: Participant, stepIndex: int) | End(reason: EndReason)

  predicate IsParticipant(p: Participant) {
    Trim(p.id) != "" && Trim(p.agentId) != "" && Trim(p.role) != "" && p.position >= 0
  }

  predicate ValidRoster(participants: seq<Participant>) {
    && participants != []
    && (forall p <- participants :: IsParticipant(p))
    && Distinct(participants)
  }

  predicate Distinct(participants: seq<Participant>) {
    forall i, j :: 0 <= i < j < |participants| ==>
      participants[i].id != participants[j].id && participants[i].position != participants[j].position
  }

  predicate Ascending(participants: seq<Participant>) {
    forall i, j :: 0 <= i < j < |participants| ==> participants[i].position <= participants[j].position
  }

  lemma PrependAscending(p: Participant, sorted: seq<Participant>)
    requires Ascending(sorted) && (sorted != [] ==> p.position <= sorted[0].position)
    ensures Ascending([p] + sorted)
  {
  }

  function Insert(p: Participant, sorted: seq<Participant>): (r: seq<Participant>)
    requires Ascending(sorted)
    ensures Ascending(r) && r != []
    ensures multiset(r) == multiset(sorted) + multiset{p}
    ensures r[0] == p || (sorted != [] && r[0] == sorted[0])
  {
    if sorted == [] || p.position < sorted[0].position then
      PrependAscending(p, sorted);
      [p] + sorted
    else
      assert sorted == [sorted[0]] + sorted[1..];
      var rest := Insert(p, sorted[1..]);
      PrependAscending(sorted[0], rest);
      [sorted[0]] + rest
  }

  function SortByPosition(participants: seq<Participant>): (r: seq<Participant>)
    ensures Ascending(r) && multiset(r) == multiset(participants)
  {
    if participants == [] then []
    else
      assert participants == [participants[0]] + participants[1..];
      Insert(participants[0], SortByPosition(participants[1..]))
  }

  /** Who has a smaller position. */
  function Smaller(participants: seq<Participant>, position: int): set<Participant> {
    set q | q in participants && q.position < position
  }

  /** A roster in order: nobody is missing or put in, and everybody stands behind exactly those
      with a smaller position. */
  lemma PlaceIsRank(participants: seq<Participant>, k: nat)
    requires Distinct(participants) && k < |participants|
    ensures |SortByPosition(participants)| == |participants|
    ensures
      var p := SortByPosition(participants)[k];
      p in participants && |Smaller(participants, p.position)| == k
  {
    var sorted := SortByPosition(participants);
    assert |multiset(sorted)| == |multiset(participants)|;
    DistinctIsOrderFree(participants, sorted);
    SameMembers(participants, sorted);
    hide SortByPosition, Distinct, Ascending;
    BeforeIsSmaller(sorted, k);
    assert Smaller(participants, sorted[k].position) == Members(sorted[..k]);
    hide Smaller, Members;
    PrefixCount(sorted, k);
  }

  function Members(participants: seq<Participant>): set<Participant> {
    set q | q in participants
  }

  lemma SameMembers(a: seq<Participant>, b: seq<Participant>)
    requires multiset(a) == multiset(b)
    ensures forall q :: q in a <==> q in b
  {
    assert forall q :: q in a <==> q in multiset(a);
    assert forall q :: q in b <==> q in multiset(b);
  }

  lemma BeforeIsSmaller(sorted: seq<Participant>, k: nat)
    requires Ascending(sorted) && Distinct(sorted) && k < |sorted|
    ensures forall q :: q in sorted[..k] <==> q in sorted && q.position < sorted[k].position
  {
    forall q | q in sorted && q.position < sorted[k].position
      ensures q in sorted[..k]
    {
      var i :| 0 <= i < |sorted| && sorted[i] == q;
      assert i < k;
      assert sorted[..k][i] == q;
    }
  }

  lemma {:induction false} PrefixCount(sorted: seq<Participant>, k: nat)
    requires Distinct(sorted) && k <= |sorted|
    ensures |Members(sorted[..k])| == k
  {
    if k > 0 {
      PrefixCount(sorted, k - 1);
      assert sorted[k - 1] !in sorted[..k - 1];
      hide Distinct;
      assert sorted[..k] == sorted[..k - 1] + [sorted[k - 1]];
      MembersSnoc(sorted[..k - 1], sorted[k - 1]);
      hide Members;
    }
  }

  lemma MembersSnoc(a: seq<Participant>, p: Participant)
    requires p !in a
    ensures |Members(a + [p])| == |Members(a)| + 1
  {
    assert Members(a + [p]) == Members(a) + {p};
  }

  /** A roster is valid exactly when somebody takes part, everybody has an id, an Agent, a role
      and a position, and no id or position is given twice. */
  lemma ValidRosterIff(participants: seq<Participant>)
    ensures ValidRoster(participants) <==>
            && |participants| > 0
            && (forall p :: p in participants ==>
                  HasText(p.id) && HasText(p.agentId) && HasText(p.role) && p.position >= 0)
            && (forall i, j :: 0 <= i < j < |participants| ==>
                  participants[i].id != participants[j].id && participants[i].position != participants[j].position)
  {
    hide Trim, HasText;
    forall p | p in participants
      ensures IsParticipant(p) <==> HasText(p.id) && HasText(p.agentId) && HasText(p.role) && p.position >= 0
    {
      TrimmedToNothingIff(p.id);
      TrimmedToNothingIff(p.agentId);
      TrimmedToNothingIff(p.role);
    }
    hide IsParticipant;
  }

  function OrderedRoster(participants: seq<Participant>): Option<seq<Participant>> {
    if ValidRoster(participants) then Some(SortByPosition(participants)) else None
  }

  /** The source's check: one pass that fills the sets of ids and positions seen. */
  method CheckRoster(participants: seq<Participant>) returns (roster: Option<seq<Participant>>)
    ensures roster == OrderedRoster(participants)
  {
    hide IsParticipant, SortByPosition;
    if participants == [] {
      return None;
    }
    var ids: set<string>, positions: set<int> := {}, {};
    for i := 0 to |participants|
      invariant forall k :: 0 <= k < i ==> IsParticipant(participants[k])
      invariant ids == (set k | 0 <= k < i :: participants[k].id)
      invariant positions == (set k | 0 <= k < i :: participants[k].position)
      invariant forall k, l :: 0 <= k < l < i ==>
        participants[k].id != participants[l].id && participants[k].position != participants[l].position
    {
      var p := participants[i];
      if !IsParticipant(p) {
        assert p in participants;
        return None;
      }
      if p.id in ids || p.position in positions {
        return None;
      }
      ids, positions := ids + {p.id}, positions + {p.position};
    }
    roster := Some(SortByPosition(participants));
  }

  function AdvanceSequence(
    participants: seq<Participant>, stepIndex: int, maxSteps: int, mode: Option<Mode>, status: Option<Status>): Decision
  {
    if stepIndex < 0 || maxSteps <= 0 || mode == Some(Supervisor) then End(InvalidState)
    else
      match OrderedRoster(participants)
      case None => End(InvalidRoster)
      case Some(roster) =>
        var sequential := mode.None? || mode.value == Sequential;
        if status.Some? && status.value != Running then End(TerminalState)
        else if sequential && stepIndex >= |roster| then End(RosterExhausted)
        else if stepIndex >= maxSteps then End(MaxStepsReached)
        else Invoke(if sequential then roster[stepIndex] else roster[stepIndex % |roster|], stepIndex)
  }

  /** The request can be answered with a participant or with the end of its steps. */
  ghost predicate Answerable(
    participants: seq<Participant>, stepIndex: int, maxSteps: int, mode: Option<Mode>, status: Option<Status>)
  {
    stepIndex >= 0 && maxSteps > 0 && mode != Some(Supervisor) && ValidRoster(participants)
    && (status == None || status == Some(Running))
  }

  /** Somebody is next exactly while the steps last, and without a round robin the roster too; the
      one whose rank by position is the step, in a round robin modulo the size of the roster. */
  lemma WhoIsNext(
    participants: seq<Participant>, stepIndex: int, maxSteps: int, mode: Option<Mode>, status: Option<Status>)
    ensures
      var d := AdvanceSequence(participants, stepIndex, maxSteps, mode, status);
      var answerable := Answerable(participants, stepIndex, maxSteps, mode, status);
      var rounds := mode == Some(RoundRobin);
      && (d.Invoke? <==> answerable && stepIndex < maxSteps && (rounds || stepIndex < |participants|))
      && (d == End(RosterExhausted) <==> answerable && !rounds && stepIndex >= |participants|)
      && (d == End(MaxStepsReached) <==> answerable && stepIndex >= maxSteps && (rounds || stepIndex < |participants|))
      && (d.Invoke? ==>
            && d.stepIndex == stepIndex && d.participant in participants
            && |Smaller(participants, d.participant.position)| ==
               if rounds then stepIndex % |participants| else stepIndex)
  {
    hide IsParticipant, SortByPosition, Smaller, Distinct;
    if Answerable(participants, stepIndex, maxSteps, mode, status) {
      var n := |participants|;
      var k := if mode == Some(RoundRobin) then stepIndex % n else if stepIndex < n then stepIndex else 0;
      PlaceIsRank(participants, k);
    }
  }

  // ------------------------------------------------------------ the order of the input does not matter

  lemma {:induction false} TwicePresent<T>(s: seq<T>, x: T)
    requires multiset(s)[x] >= 2
    ensures exists i, j :: 0 <= i < j < |s| && s[i] == x && s[j] == x
  {
    assert s == [s[0]] + s[1..];
    if s[0] == x {
      assert x in s[1..];
      var j :| 0 <= j < |s[1..]| && s[1..][j] == x;
      assert s[j + 1] == x;
    } else {
      TwicePresent(s[1..], x);
      var i, j :| 0 <= i < j < |s[1..]| && s[1..][i] == x && s[1..][j] == x;
      assert s[i + 1] == x && s[j + 1] == x;
    }
  }

  lemma PresentTwice<T>(s: seq<T>, i: nat, j: nat)
    requires i < j < |s| && s[i] == s[j]
    ensures multiset(s)[s[i]] >= 2
  {
    assert s == s[..j] + s[j..];
    assert s[i] in s[..j] && s[j] in s[j..];
  }

  lemma DistinctIsOrderFree(a: seq<Participant>, b: seq<Participant>)
    requires multiset(a) == multiset(b) && Distinct(a)
    ensures Distinct(b)
  {
    forall i, j | 0 <= i < j < |b|
      ensures b[i].id != b[j].id && b[i].position != b[j].position
    {
      if b[i].id == b[j].id || b[i].position == b[j].position {
        assert b[i] in multiset(a) && b[j] in multiset(a);
        var k :| 0 <= k < |a| && a[k] == b[i];
        var l :| 0 <= l < |a| && a[l] == b[j];
        assert b[i] == b[j];
        PresentTwice(b, i, j);
        TwicePresent(a, b[i]);
      }
    }
  }

  lemma ValidRosterIsOrderFree(a: seq<Participant>, b: seq<Participant>)
    requires multiset(a) == multiset(b) && ValidRoster(a)
    ensures ValidRoster(b)
  {
    DistinctIsOrderFree(a, b);
    assert |multiset(a)| == |multiset(b)|;
    forall p | p in b
      ensures IsParticipant(p)
    {
      assert p in multiset(a);
    }
  }

  lemma TailIsAscending(a: seq<Participant>)
    requires Ascending(a) && Distinct(a) && a != []
    ensures Ascending(a[1..]) && Distinct(a[1..])
    ensures multiset(a[1..]) == multiset(a) - multiset{a[0]}
    ensures a == [a[0]] + a[1..]
  {
    assert a == [a[0]] + a[1..];
  }

  lemma LeastIsFirst(a: seq<Participant>, p: Participant)
    requires Ascending(a) && Distinct(a) && p in a
    ensures a[0].position <= p.position && (a[0].position == p.position ==> a[0] == p)
  {
    var i :| 0 <= i < |a| && a[i] == p;
  }

  /** Two orderings of the same distinct participants by position are the same. */
  lemma {:induction false} AscendingIsUnique(a: seq<Participant>, b: seq<Participant>)
    requires multiset(a) == multiset(b) && Ascending(a) && Ascending(b) && Distinct(a) && Distinct(b)
    ensures a == b
  {
    assert |multiset(a)| == |multiset(b)|;
    if a != [] {
      assert a[0] in multiset(b) && b[0] in multiset(a);
      LeastIsFirst(a, b[0]);
      LeastIsFirst(b, a[0]);
      TailIsAscending(a);
      TailIsAscending(b);
      hide Ascending, Distinct;
      AscendingIsUnique(a[1..], b[1..]);
    }
  }

  /** The roster's order in the request changes no decision. */
  lemma AdvanceIgnoresOrder(
    a: seq<Participant>, b: seq<Participant>, stepIndex: int, maxSteps: int, mode: Option<Mode>, status: Option<Status>)
    requires multiset(a) == multiset(b)
    ensures AdvanceSequence(a, stepIndex, maxSteps, mode, status) ==
            AdvanceSequence(b, stepIndex, maxSteps, mode, status)
  {
    hide IsParticipant, Distinct, Ascending, SortByPosition;
    assert OrderedRoster(a) == OrderedRoster(b) by {
      if ValidRoster(a) || ValidRoster(b) {
        ValidRosterIsOrderFree(if ValidRoster(a) then a else b, if ValidRoster(a) then b else a);
        DistinctIsOrderFree(a, SortByPosition(a));
        DistinctIsOrderFree(b, SortByPosition(b));
        AscendingIsUnique(SortByPosition(a), SortByPosition(b));
      }
    }
  }

  // ------------------------------------------------------------ round robin is fair

  /** The roster over and over again, for a number of steps. */
  function Rounds(roster: seq<Participant>, steps: nat): (r: seq<Participant>)
    requires roster != []
    ensures |r| == steps && forall k :: 0 <= k < steps ==> r[k] == roster[k % |roster|]
  {
    seq(steps, k requires k >= 0 => roster[k % |roster|])
  }

  lemma AtLeastOnce(n: nat, d: int)
    ensures d >= 1 ==> n * d >= n
  {
  }

  lemma Multiples(n: nat, q1: int, q2: int)
    ensures n * (q1 - q2) == n * q1 - n * q2
  {
  }

  lemma DivisionIsUnique(x: nat, n: nat, q: int, r: nat)
    requires r < n && x == n * q + r
    ensures x / n == q && x % n == r
  {
    Multiples(n, q, x / n);
    AtLeastOnce(n, q - x / n);
    Multiples(n, x / n, q);
    AtLeastOnce(n, x / n - q);
  }

  lemma NextInRound(x: nat, n: nat)
    requires n > 0
    ensures (x + 1) % n == if x % n == n - 1 then 0 else x % n + 1
    ensures (x + 1) / n == x / n + if x % n == n - 1 then 1 else 0
  {
    var q, r := x / n, x % n;
    if r == n - 1 {
      assert x + 1 == n * (q + 1) + 0;
      DivisionIsUnique(x + 1, n, q + 1, 0);
    } else {
      DivisionIsUnique(x + 1, n, q, r + 1);
    }
  }

  lemma SameOnlyAt(roster: seq<Participant>, i: nat, j: nat)
    requires i < |roster| && j < |roster| && Distinct(roster)
    ensures roster[i] == roster[j] <==> i == j
  {
  }

  /** How often each place of the roster has come up after `k` steps. */
  lemma {:induction false} RoundsInClosedForm(roster: seq<Participant>, steps: nat, k: nat, i: nat)
    requires i < |roster| && Distinct(roster) && k <= steps
    ensures multiset(Rounds(roster, steps)[..k])[roster[i]] == k / |roster| + if i < k % |roster| then 1 else 0
  {
    if k == 0 {
      DivisionIsUnique(0, |roster|, 0, 0);
    } else {
      RoundsInClosedForm(roster, steps, k - 1, i);
      NextInRound(k - 1, |roster|);
      SameOnlyAt(roster, i, (k - 1) % |roster|);
      var rounds := Rounds(roster, steps);
      assert rounds[..k] == rounds[..k - 1] + [rounds[k - 1]];
      hide Distinct, Rounds;
    }
  }

  lemma WindowCount<T>(s: seq<T>, from: nat, to: nat, x: T)
    requires from <= to <= |s|
    ensures multiset(s[from..to])[x] + multiset(s[..from])[x] == multiset(s[..to])[x]
  {
    assert s[..to] == s[..from] + s[from..to];
  }

  /** Over any stretch of steps no place comes up more than once more than another. */
  lemma RoundsAreFair(roster: seq<Participant>, steps: nat, from: nat, to: nat, i: nat, j: nat)
    requires i < |roster| && j < |roster| && Distinct(roster) && from <= to <= steps
    ensures
      var stretch := multiset(Rounds(roster, steps)[from..to]);
      stretch[roster[i]] <= stretch[roster[j]] + 1
  {
    var rounds := Rounds(roster, steps);
    WindowCount(rounds, from, to, roster[i]);
    WindowCount(rounds, from, to, roster[j]);
    RoundsInClosedForm(roster, steps, from, i);
    RoundsInClosedForm(roster, steps, from, j);
    RoundsInClosedForm(roster, steps, to, i);
    RoundsInClosedForm(roster, steps, to, j);
    hide Rounds, Distinct;
  }

  lemma PlaceInRoster(participants: seq<Participant>, p: Participant) returns (i: nat)
    requires p in participants
    ensures i < |SortByPosition(participants)| && SortByPosition(participants)[i] == p
  {
    hide SortByPosition, Ascending;
    assert p in multiset(SortByPosition(participants));
    i :| i < |SortByPosition(participants)| && SortByPosition(participants)[i] == p;
  }
}
