/** The reconciler: for each Project it lists, takes away and assigns, over a client whose every
    call may fail, and it opens the gate only behind a complete pass. */
module Reconciler {
  import opened Wrappers
  import opened Directory

  /** A failed call may have reached the directory or not. */
  datatype Fault = Works | FailsBefore | FailsAfter

  datatype Write = Assigned(a: Assignment) | Unassigned(a: Assignment)

  /** What a pass makes sure of before it looks at roles. */
  datatype Preparation = SyncUser(key: string) | EnsureInstance(key: string, tenant: string)

  datatype GateState = Unready | Open | Shut

  class Gate {
    var state: GateState

    constructor ()
      ensures state == Unready
    {
      state := Unready;
    }

    method Begin()
      modifies this
      ensures state == Unready
    {
      state := Unready;
    }

    method MarkReady()
      modifies this
      ensures state == Open
    {
      state := Open;
    }

    method MarkFailed()
      modifies this
      ensures state == Shut
    {
      state := Shut;
    }
  }

  /** The directory behind the client, with a log of the preparations and of the writes asked for. `listing` is how the
      directory enumerates a set of assignments; `faults` says how each call ends. */
  class Client {
    var remote: set<Assignment>
    var prepared: seq<Preparation>
    var writes: seq<Write>
    var calls: nat
    const faults: nat -> Fault
    const listing: set<Assignment> -> seq<Assignment>

    method Touch() returns (ok: bool)
      modifies this`calls
      ensures ok <==> faults(old(calls)) == Works
      ensures calls == old(calls) + 1
    {
      ok := faults(calls) == Works;
      calls := calls + 1;
    }

    method Prepare(what: Preparation) returns (ok: bool)
      modifies this`calls, this`prepared
      ensures ok <==> faults(old(calls)) == Works
      ensures calls == old(calls) + 1
      ensures prepared == old(prepared) + [what]
    {
      prepared := prepared + [what];
      ok := Touch();
    }

    /** Every page is a call; the listing is complete exactly when they all work and the
        directory has fewer assignments than can be read. */
    method List(tenant: string, instance: string) returns (listed: Option<seq<Assignment>>)
      modifies this`calls
      ensures old(calls) < calls
      ensures listed.Some? <==>
              AllWork(faults, old(calls), calls) && CanBeRead(listing(Own(remote, tenant, instance)))
      ensures listed.Some? ==> listed.value == listing(Own(remote, tenant, instance))
    {
      hide Page;
      var items := listing(Own(remote, tenant, instance));
      var works := WorkFrom(faults, calls);
      var asked;
      listed, asked := ListRoleAssignments(Answers(items, works));
      ListingIsCompleteOrFails(items, works, asked);
      calls := calls + asked;
      AllWorkFrom(faults, old(calls), asked);
    }

    method Assign(a: Assignment) returns (ok: bool)
      modifies this`calls, this`writes, this`remote
      ensures ok <==> faults(old(calls)) == Works
      ensures calls == old(calls) + 1
      ensures writes == old(writes) + [Assigned(a)]
      ensures remote == old(remote) + {a} || (!ok && remote == old(remote))
    {
      writes := writes + [Assigned(a)];
      if faults(calls) != FailsBefore {
        remote := remote + {a};
      }
      ok := Touch();
    }

    method Unassign(a: Assignment) returns (ok: bool)
      modifies this`calls, this`writes, this`remote
      ensures ok <==> faults(old(calls)) == Works
      ensures calls == old(calls) + 1
      ensures writes == old(writes) + [Unassigned(a)]
      ensures remote == old(remote) - {a} || (!ok && remote == old(remote))
    {
      writes := writes + [Unassigned(a)];
      if faults(calls) != FailsBefore {
        remote := remote - {a};
      }
      ok := Touch();
    }
  }

  /** The calls from number `from` up to `to` all work. */
  ghost predicate AllWork(faults: nat -> Fault, from: nat, to: nat) {
    forall n :: from <= n < to ==> faults(n) == Works
  }

  /** Whether the call for page `page` works, when page one is call number `first`. */
  function WorkFrom(faults: nat -> Fault, first: nat): nat -> bool {
    (page: nat) => page >= 1 && faults(first + page - 1) == Works
  }

  lemma AllWorkFrom(faults: nat -> Fault, first: nat, asked: nat)
    requires asked >= 1
    ensures AllWork(faults, first, first + asked) <==>
            WorkFrom(faults, first)(asked) && forall k :: 1 <= k < asked ==> WorkFrom(faults, first)(k)
  {
    forall n | first <= n < first + asked
      ensures WorkFrom(faults, first)(n - first + 1) == (faults(n) == Works)
    {
    }
    assert WorkFrom(faults, first)(asked) == (faults(first + asked - 1) == Works);
  }

  /** Fewer entries than the pages of a listing can hold. */
  predicate CanBeRead(listed: seq<Assignment>): (can: bool)
    ensures can <==> |listed| < 10_000
  {
    |listed| < PAGE_SIZE * MAX_PAGES
  }

  function Own(remote: set<Assignment>, tenant: string, instance: string): set<Assignment> {
    set a | a in remote && a.tenant == tenant && a.instance == instance
  }

  /** The log grew only by writes of the allowed kinds. */
  ghost predicate OnlyWrites(before: seq<Write>, after: seq<Write>, taken: set<Assignment>, given: set<Assignment>) {
    && before <= after
    && forall i :: |before| <= i < |after| ==> if after[i].Assigned? then after[i].a in given else after[i].a in taken
  }

  /** Between the directory before and after lie only the allowed changes. */
  ghost predicate Between(
    before: set<Assignment>, after: set<Assignment>, taken: set<Assignment>, given: set<Assignment>)
  {
    before - taken <= after && after <= before + given
  }

  /** The assignments with their users, as the source looks them up. */
  function ByUser(expected: seq<Assignment>, user: string): (r: Option<Assignment>)
    ensures r.Some? ==> r.value in expected && r.value.user == user
    ensures r.None? ==> forall a :: a in expected ==> a.user != user
  {
    if expected == [] then None
    else
      var n := |expected| - 1;
      if expected[n].user == user then Some(expected[n]) else ByUser(expected[..n], user)
  }

  lemma SameUserSameAssignment(expected: seq<Assignment>, a: Assignment, b: Assignment)
    requires OnePerUser(expected) && a in expected && b in expected && a.user == b.user
    ensures a == b
  {
  }

  lemma ExactIsExpected(expected: seq<Assignment>, a: Assignment)
    requires OnePerUser(expected)
    ensures ByUser(expected, a.user) == Some(a) <==> a in expected
  {
    if a in expected {
      SameUserSameAssignment(expected, ByUser(expected, a.user).value, a);
    }
  }

  /** The users of the expected assignments among the first `n` listed. */
  ghost predicate RetainedOk(retained: set<string>, listed: seq<Assignment>, expected: seq<Assignment>, n: nat)
    requires n <= |listed|
  {
    forall a :: a in expected ==> (a.user in retained <==> a in listed[..n])
  }

  lemma RetainedStays(
    retained: set<string>, more: set<string>, listed: seq<Assignment>, expected: seq<Assignment>, n: nat)
    requires n < |listed| && OnePerUser(expected) && RetainedOk(retained, listed, expected, n)
    requires more == if listed[n] in expected then retained + {listed[n].user} else retained
    ensures RetainedOk(more, listed, expected, n + 1)
  {
    assert listed[..n + 1] == listed[..n] + [listed[n]];
    forall a | a in expected
      ensures a.user in more <==> a in listed[..n + 1]
    {
      if listed[n] in expected && a.user == listed[n].user {
        SameUserSameAssignment(expected, a, listed[n]);
      }
    }
    hide OnePerUser;
  }

  lemma RetainedMeansRepeats(retained: set<string>, listed: seq<Assignment>, expected: seq<Assignment>, n: nat)
    requires n < |listed| && RetainedOk(retained, listed, expected, n) && OnePerUser(expected)
    ensures IsSurplus(listed, expected, n) <==>
            IsManaged(listed[n].role)
            && !(ByUser(expected, listed[n].user) == Some(listed[n]) && listed[n].user !in retained)
  {
    ExactIsExpected(expected, listed[n]);
    hide OnePerUser, ByUser;
  }

  /** Takes away what is surplus in the listing and reports whose assignments were retained. */
  method TakeAway(client: Client, listed: seq<Assignment>, expected: seq<Assignment>)
    returns (ok: bool, retained: set<string>)
    requires OnePerUser(expected)
    modifies client`calls, client`writes, client`remote
    ensures OnlyWrites(old(client.writes), client.writes, Surplus(listed, expected, |listed|), {})
    ensures Between(old(client.remote), client.remote, Surplus(listed, expected, |listed|), {})
    ensures old(client.calls) <= client.calls && (ok <==> AllWork(client.faults, old(client.calls), client.calls))
    ensures ok ==> client.remote == old(client.remote) - Surplus(listed, expected, |listed|)
    ensures ok ==> RetainedOk(retained, listed, expected, |listed|)
  {
    hide OnePerUser, IsSurplus, IsManaged, RetainedOk, ByUser;
    retained := {};
    NothingRetained(listed, expected);
    for i := 0 to |listed|
      invariant RetainedOk(retained, listed, expected, i)
      invariant old(client.calls) <= client.calls && AllWork(client.faults, old(client.calls), client.calls)
      invariant OnlyWrites(old(client.writes), client.writes, Surplus(listed, expected, i), {})
      invariant client.remote == old(client.remote) - Surplus(listed, expected, i)
    {
      var existing := listed[i];
      SurplusGrows(listed, expected, i);
      RetainedMeansRepeats(retained, listed, expected, i);
      ExactIsExpected(expected, existing);
      var more := if existing in expected then retained + {existing.user} else retained;
      RetainedStays(retained, more, listed, expected, i);
      var exact := ByUser(expected, existing.user) == Some(existing);
      ExpectedIsManaged(expected, existing);
      if !IsManaged(existing.role) {
        continue;
      }
      if exact && existing.user !in retained {
        retained := retained + {existing.user};
        continue;
      }
      assert exact ==> retained + {existing.user} == retained;
      ok := client.Unassign(existing);
      if !ok {
        return;
      }
    }
    ok := true;
  }

  lemma ExpectedIsManaged(expected: seq<Assignment>, a: Assignment)
    requires OnePerUser(expected)
    ensures a in expected ==> IsManaged(a.role)
  {
  }

  lemma NothingRetained(listed: seq<Assignment>, expected: seq<Assignment>)
    ensures RetainedOk({}, listed, expected, 0)
  {
  }

  lemma SurplusGrows(listed: seq<Assignment>, expected: seq<Assignment>, i: nat)
    requires i < |listed|
    ensures Surplus(listed, expected, i + 1) ==
            Surplus(listed, expected, i) + if IsSurplus(listed, expected, i) then {listed[i]} else {}
    ensures Surplus(listed, expected, i + 1) <= Surplus(listed, expected, |listed|)
  {
    SurplusIsMonotone(listed, expected, i + 1);
  }

  lemma {:induction false} SurplusIsMonotone(listed: seq<Assignment>, expected: seq<Assignment>, i: nat)
    requires i <= |listed|
    ensures Surplus(listed, expected, i) <= Surplus(listed, expected, |listed|)
    decreases |listed| - i
  {
    if i < |listed| {
      SurplusIsMonotone(listed, expected, i + 1);
    }
  }

  function NotRetained(expected: seq<Assignment>, retained: set<string>, n: nat): set<Assignment>
    requires n <= |expected|
  {
    set a | a in expected[..n] && a.user !in retained
  }

  /** Assigns what the listing did not have. */
  method Give(client: Client, expected: seq<Assignment>, retained: set<string>) returns (ok: bool)
    modifies client`calls, client`writes, client`remote
    ensures OnlyWrites(old(client.writes), client.writes, {}, NotRetained(expected, retained, |expected|))
    ensures Between(old(client.remote), client.remote, {}, NotRetained(expected, retained, |expected|))
    ensures old(client.calls) <= client.calls && (ok <==> AllWork(client.faults, old(client.calls), client.calls))
    ensures ok ==> client.remote == old(client.remote) + NotRetained(expected, retained, |expected|)
  {
    for i := 0 to |expected|
      invariant old(client.calls) <= client.calls && AllWork(client.faults, old(client.calls), client.calls)
      invariant OnlyWrites(old(client.writes), client.writes, {}, NotRetained(expected, retained, i))
      invariant client.remote == old(client.remote) + NotRetained(expected, retained, i)
    {
      NotRetainedGrows(expected, retained, i);
      if expected[i].user in retained {
        continue;
      }
      ok := client.Assign(expected[i]);
      if !ok {
        return;
      }
    }
    ok := true;
  }

  lemma NotRetainedGrows(expected: seq<Assignment>, retained: set<string>, i: nat)
    requires i < |expected|
    ensures NotRetained(expected, retained, i + 1) ==
            NotRetained(expected, retained, i) + if expected[i].user in retained then {} else {expected[i]}
    ensures NotRetained(expected, retained, i + 1) <= NotRetained(expected, retained, |expected|)
  {
    assert expected[..i + 1] == expected[..i] + [expected[i]];
  }

  // ------------------------------------------------------------ one Project

  /** The directory names every assignment exactly once. */
  ghost predicate ListsOnce(listing: set<Assignment> -> seq<Assignment>) {
    forall s: set<Assignment> :: Once(listing(s)) && forall a :: a in listing(s) <==> a in s
  }

  /** An assignment of this Project that should not be there. */
  predicate IsUnwanted(a: Assignment, expected: seq<Assignment>, tenant: string, instance: string) {
    a.tenant == tenant && a.instance == instance && IsManaged(a.role) && a !in expected
  }

  /** Whatever was changed so far is right: what went was unwanted, what came is expected. */
  ghost predicate RightChanges(
    before: set<Assignment>, after: set<Assignment>, expected: seq<Assignment>, tenant: string, instance: string)
  {
    && (forall a :: a in before && a !in after ==> IsUnwanted(a, expected, tenant, instance))
    && (forall a :: a in after && a !in before ==> a in expected)
  }

  /** Whatever was written so far was needed. */
  ghost predicate RightWrites(
    remote: set<Assignment>, before: seq<Write>, after: seq<Write>, expected: seq<Assignment>, tenant: string,
    instance: string)
  {
    && before <= after
    && forall i :: |before| <= i < |after| ==>
         if after[i].Assigned? then after[i].a in expected && after[i].a !in remote
         else after[i].a in remote && IsUnwanted(after[i].a, expected, tenant, instance)
  }

  lemma SurplusIsUnwanted(
    remote: set<Assignment>, listed: seq<Assignment>, expected: seq<Assignment>, tenant: string, instance: string)
    requires ListsExactly(listed, remote, tenant, instance) && Once(listed) && OnePerUser(expected)
    ensures forall a :: a in Surplus(listed, expected, |listed|) ==>
              a in remote && IsUnwanted(a, expected, tenant, instance)
  {
    hide Surplus, OnePerUser;
    assert listed[..|listed|] == listed;
    forall a | a in Surplus(listed, expected, |listed|) && a in expected
      ensures false
    {
      ExpectedIsTakenIffRepeated(listed, expected, a);
    }
  }

  lemma NotRetainedIsMissing(listed: seq<Assignment>, expected: seq<Assignment>, retained: set<string>)
    requires RetainedOk(retained, listed, expected, |listed|)
    ensures NotRetained(expected, retained, |expected|) == Missing(listed, expected)
  {
    assert listed[..|listed|] == listed && expected[..|expected|] == expected;
  }

  /** The owner of the Project is known and its assignments can be read. */
  ghost predicate IsReady(
    listing: set<Assignment> -> seq<Assignment>, remote: set<Assignment>, p: Project, attachments: seq<Attachment>,
    tenant: string)
  {
    Expected(p, attachments, tenant).Some? && CanBeRead(listing(Own(remote, tenant, p.instance)))
  }

  method SyncProject(client: Client, p: Project, attachments: seq<Attachment>, tenant: string) returns (ok: bool)
    requires ListsOnce(client.listing)
    requires Expected(p, attachments, tenant).Some? ==> OnePerUser(Expected(p, attachments, tenant).value)
    modifies client
    ensures old(client.calls) <= client.calls
    ensures client.prepared == old(client.prepared) + [EnsureInstance(p.instance, tenant)]
    ensures ok <==> AllWork(client.faults, old(client.calls), client.calls)
                    && IsReady(client.listing, old(client.remote), p, attachments, tenant)
    ensures Expected(p, attachments, tenant).None? ==>
              client.remote == old(client.remote) && client.writes == old(client.writes)
    ensures Expected(p, attachments, tenant).Some? ==>
              var expected := Expected(p, attachments, tenant).value;
              && RightChanges(old(client.remote), client.remote, expected, tenant, p.instance)
              && RightWrites(old(client.remote), old(client.writes), client.writes, expected, tenant, p.instance)
              && (ok ==> Converged(client.remote, expected, tenant, p.instance))
  {
    hide OnePerUser, Surplus, IsSurplus, Expected, Once, RetainedOk;
    ok := client.Prepare(EnsureInstance(p.instance, tenant));
    if !ok {
      return;
    }
    var wanted := Expected(p, attachments, tenant);
    if wanted.None? {
      return false;
    }
    var expected := wanted.value;
    var answer := client.List(tenant, p.instance);
    if answer.None? {
      return false;
    }
    var listed := answer.value;
    ghost var before, log := client.remote, client.writes;
    assert ListsExactly(listed, before, tenant, p.instance);
    SurplusIsUnwanted(before, listed, expected, tenant, p.instance);
    var retained;
    ok, retained := TakeAway(client, listed, expected);
    if !ok {
      return;
    }
    NotRetainedIsMissing(listed, expected, retained);
    ghost var between, halfway := client.remote, client.writes;
    ok := Give(client, expected, retained);
    GivenIsNeeded(before, listed, expected, tenant, p.instance);
    if ok {
      OnceNeverRepeats(listed, expected);
      ConvergesIffNothingExpectedRepeats(before, listed, expected, tenant, p.instance);
      assert client.remote == Synchronized(before, listed, expected);
    }
  }

  lemma OnceNeverRepeats(listed: seq<Assignment>, expected: seq<Assignment>)
    requires Once(listed)
    ensures forall i, j :: 0 <= i < j < |listed| && listed[i] == listed[j] ==> listed[i] !in expected
  {
  }

  lemma GivenIsNeeded(
    remote: set<Assignment>, listed: seq<Assignment>, expected: seq<Assignment>, tenant: string, instance: string)
    requires ListsExactly(listed, remote, tenant, instance)
    requires forall a :: a in expected ==> a.tenant == tenant && a.instance == instance
    ensures forall a :: a in Missing(listed, expected) ==> a in expected && a !in remote
  {
  }

  // ------------------------------------------------------------ a whole pass

  /** The snapshot names every Project once, and every user once per Project. */
  ghost predicate ValidSnapshot(projects: seq<Project>, attachments: seq<Attachment>, tenant: string) {
    && (forall i, j :: 0 <= i < j < |projects| ==> projects[i].instance != projects[j].instance)
    && forall p :: p in projects && Expected(p, attachments, tenant).Some? ==>
         OnePerUser(Expected(p, attachments, tenant).value)
  }

  ghost predicate IsExpected(a: Assignment, projects: seq<Project>, attachments: seq<Attachment>, tenant: string) {
    exists p :: p in projects && Expected(p, attachments, tenant).Some? && a in Expected(p, attachments, tenant).value
  }

  /** A membership role on one of the Projects that the repository does not know. */
  ghost predicate IsStale(a: Assignment, projects: seq<Project>, attachments: seq<Attachment>, tenant: string) {
    exists p :: p in projects && Expected(p, attachments, tenant).Some?
                && IsUnwanted(a, Expected(p, attachments, tenant).value, tenant, p.instance)
  }

  ghost predicate InSync(remote: set<Assignment>, p: Project, attachments: seq<Attachment>, tenant: string) {
    Expected(p, attachments, tenant).Some?
    && Converged(remote, Expected(p, attachments, tenant).value, tenant, p.instance)
  }

  ghost predicate AllInSync(
    remote: set<Assignment>, projects: seq<Project>, attachments: seq<Attachment>, tenant: string)
  {
    forall p :: p in projects ==> InSync(remote, p, attachments, tenant)
  }

  /** Between the two directories only stale assignments went and only expected ones came. */
  ghost predicate OnlyRepairs(
    before: set<Assignment>, after: set<Assignment>, projects: seq<Project>, attachments: seq<Attachment>,
    tenant: string)
  {
    && (forall a :: a in before && a !in after ==> IsStale(a, projects, attachments, tenant))
    && (forall a :: a in after && a !in before ==> IsExpected(a, projects, attachments, tenant))
  }

  ghost predicate OnlyRepairWrites(
    remote: set<Assignment>, before: seq<Write>, after: seq<Write>, projects: seq<Project>,
    attachments: seq<Attachment>, tenant: string)
  {
    && before <= after
    && forall i :: |before| <= i < |after| ==>
         if after[i].Assigned? then after[i].a !in remote && IsExpected(after[i].a, projects, attachments, tenant)
         else after[i].a in remote && IsStale(after[i].a, projects, attachments, tenant)
  }

  /** The two directories agree on every Project but the given ones. */
  ghost predicate SameBut(before: set<Assignment>, after: set<Assignment>, done: seq<Project>) {
    forall a :: (a in before) != (a in after) ==> exists p :: p in done && p.instance == a.instance
  }

  lemma StaleIsNotExpected(a: Assignment, projects: seq<Project>, attachments: seq<Attachment>, tenant: string)
    requires ValidSnapshot(projects, attachments, tenant) && IsStale(a, projects, attachments, tenant)
    ensures !IsExpected(a, projects, attachments, tenant)
  {
    hide Expected, OnePerUser;
    forall p, q | p in projects && q in projects && p.instance == q.instance
      ensures p == q
    {
      var i :| 0 <= i < |projects| && projects[i] == p;
      var j :| 0 <= j < |projects| && projects[j] == q;
    }
  }

  /** What one Project's pass changed is a repair of the whole. */
  lemma RepairsAdd(
    start: set<Assignment>, before: set<Assignment>, after: set<Assignment>, log: seq<Write>, mid: seq<Write>,
    end: seq<Write>, projects: seq<Project>, i: nat, attachments: seq<Attachment>, tenant: string)
    requires i < |projects| && ValidSnapshot(projects, attachments, tenant)
    requires Expected(projects[i], attachments, tenant).Some?
    requires OnlyRepairs(start, before, projects, attachments, tenant) && SameBut(start, before, projects[..i])
    requires OnlyRepairWrites(start, log, mid, projects, attachments, tenant)
    requires RightChanges(before, after, Expected(projects[i], attachments, tenant).value, tenant, projects[i].instance)
    requires RightWrites(before, mid, end, Expected(projects[i], attachments, tenant).value, tenant,
      projects[i].instance)
    ensures OnlyRepairs(start, after, projects, attachments, tenant)
    ensures SameBut(start, after, projects[..i + 1])
    ensures OnlyRepairWrites(start, log, end, projects, attachments, tenant)
  {
    hide Expected, OnePerUser;
    var p := projects[i];
    var expected := Expected(p, attachments, tenant).value;
    assert projects[..i + 1] == projects[..i] + [p];
    OwnPartIsUntouched(start, before, projects, i, attachments, tenant);
    forall a: Assignment
      ensures a in expected ==> IsExpected(a, projects, attachments, tenant)
      ensures IsUnwanted(a, expected, tenant, p.instance) ==> IsStale(a, projects, attachments, tenant)
    {
    }
  }

  lemma OwnPartIsUntouched(
    start: set<Assignment>, before: set<Assignment>, projects: seq<Project>, i: nat, attachments: seq<Attachment>,
    tenant: string)
    requires i < |projects| && ValidSnapshot(projects, attachments, tenant) && SameBut(start, before, projects[..i])
    ensures forall a: Assignment :: a.instance == projects[i].instance ==> (a in start <==> a in before)
  {
    hide Expected, OnePerUser;
  }

  lemma StaysInSync(
    before: set<Assignment>, after: set<Assignment>, p: Project, expected: seq<Assignment>, instance: string,
    attachments: seq<Attachment>, tenant: string)
    requires InSync(before, p, attachments, tenant) && p.instance != instance
    requires RightChanges(before, after, expected, tenant, instance)
    requires forall a :: a in expected ==> a.instance == instance
    ensures InSync(after, p, attachments, tenant)
  {
    hide Expected;
  }

  /** Every Project of the snapshot is ready. */
  ghost predicate AllReady(
    listing: set<Assignment> -> seq<Assignment>, remote: set<Assignment>, projects: seq<Project>,
    attachments: seq<Attachment>, tenant: string)
  {
    forall p :: p in projects ==> IsReady(listing, remote, p, attachments, tenant)
  }

  function UserSyncs(users: seq<string>): seq<Preparation> {
    seq(|users|, i requires 0 <= i < |users| => SyncUser(users[i]))
  }

  function InstanceChecks(projects: seq<Project>, tenant: string): seq<Preparation> {
    seq(|projects|, i requires 0 <= i < |projects| => EnsureInstance(projects[i].instance, tenant))
  }

  /** One reconciliation. `configured` says whether there is a client and a usable tenant key,
      `users` are the keys of the owner and the Agents. */
  method ReconcileNow(
    client: Client, gate: Gate, configured: bool, users: seq<string>, projects: seq<Project>,
    attachments: seq<Attachment>, tenant: string)
    returns (ok: bool)
    requires ListsOnce(client.listing) && ValidSnapshot(projects, attachments, tenant)
    modifies client, gate
    // It succeeds exactly when no call it makes fails and every Project is ready.
    ensures old(client.calls) <= client.calls
    ensures ok <==> configured && AllWork(client.faults, old(client.calls), client.calls)
                    && AllReady(client.listing, old(client.remote), projects, attachments, tenant)
    // Then every user was synchronized and every Project's instance ensured, in this order.
    ensures ok ==> client.prepared == old(client.prepared) + UserSyncs(users) + InstanceChecks(projects, tenant)
    // The gate is open exactly behind such a pass, and then every Project has converged.
    ensures gate.state == if ok then Open else Shut
    ensures ok ==> AllInSync(client.remote, projects, attachments, tenant)
    // Whether or not it succeeds, and at every write of it, only stale assignments go and only
    // missing ones come.
    ensures OnlyRepairs(old(client.remote), client.remote, projects, attachments, tenant)
    ensures OnlyRepairWrites(old(client.remote), old(client.writes), client.writes, projects, attachments, tenant)
  {
    hide ValidSnapshot, AllInSync, OnlyRepairs, OnlyRepairWrites, SameBut, RightChanges, RightWrites, Expected, InSync,
         OnePerUser, IsReady, AllReady;
    gate.Begin();
    NothingDone(client.remote, client.writes, projects, attachments, tenant);
    if !configured {
      gate.MarkFailed();
      return false;
    }
    for u := 0 to |users|
      invariant client.prepared == old(client.prepared) + UserSyncs(users[..u])
      invariant client.remote == old(client.remote) && client.writes == old(client.writes)
      invariant old(client.calls) <= client.calls && AllWork(client.faults, old(client.calls), client.calls)
    {
      SyncOneMore(users, u);
      ok := client.Prepare(SyncUser(users[u]));
      if !ok {
        gate.MarkFailed();
        return;
      }
    }
    NoneReady(client.listing, old(client.remote), projects, attachments, tenant);
    assert users[..|users|] == users;
    for i := 0 to |projects|
      invariant client.prepared == old(client.prepared) + UserSyncs(users) + InstanceChecks(projects[..i], tenant)
      invariant old(client.calls) <= client.calls && AllWork(client.faults, old(client.calls), client.calls)
      invariant AllReady(client.listing, old(client.remote), projects[..i], attachments, tenant)
      invariant OnlyRepairs(old(client.remote), client.remote, projects, attachments, tenant)
      invariant SameBut(old(client.remote), client.remote, projects[..i])
      invariant OnlyRepairWrites(old(client.remote), old(client.writes), client.writes, projects, attachments, tenant)
      invariant AllInSync(client.remote, projects[..i], attachments, tenant)
    {
      ghost var before, mid, first := client.remote, client.writes, client.calls;
      SnapshotHas(projects, i, attachments, tenant);
      CheckOneMore(projects, i, tenant);
      ok := SyncProject(client, projects[i], attachments, tenant);
      AllWorkSplits(client.faults, old(client.calls), first, client.calls);
      ReadyAsAtFirst(client.listing, old(client.remote), before, projects, i, attachments, tenant);
      if Expected(projects[i], attachments, tenant).Some? {
        RepairsAdd(old(client.remote), before, client.remote, old(client.writes), mid, client.writes, projects, i,
                   attachments, tenant);
      }
      if !ok {
        gate.MarkFailed();
        return;
      }
      ReadyIsKnown(client.listing, before, projects[i], attachments, tenant);
      OneMoreInSync(before, client.remote, projects, i, attachments, tenant);
    }
    assert projects[..|projects|] == projects;
    gate.MarkReady();
    ok := true;
  }

  lemma SyncOneMore(users: seq<string>, i: nat)
    requires i < |users|
    ensures UserSyncs(users[..i + 1]) == UserSyncs(users[..i]) + [SyncUser(users[i])]
  {
  }

  lemma CheckOneMore(projects: seq<Project>, i: nat, tenant: string)
    requires i < |projects|
    ensures InstanceChecks(projects[..i + 1], tenant) ==
            InstanceChecks(projects[..i], tenant) + [EnsureInstance(projects[i].instance, tenant)]
  {
  }

  lemma AllWorkSplits(faults: nat -> Fault, a: nat, b: nat, c: nat)
    requires a <= b <= c
    ensures AllWork(faults, a, c) <==> AllWork(faults, a, b) && AllWork(faults, b, c)
  {
  }

  lemma NoneReady(
    listing: set<Assignment> -> seq<Assignment>, remote: set<Assignment>, projects: seq<Project>,
    attachments: seq<Attachment>, tenant: string)
    ensures AllReady(listing, remote, projects[..0], attachments, tenant)
  {
  }

  /** A Project whose turn comes is as ready as it was when the pass began. */
  lemma ReadyAsAtFirst(
    listing: set<Assignment> -> seq<Assignment>, start: set<Assignment>, before: set<Assignment>,
    projects: seq<Project>, i: nat, attachments: seq<Attachment>, tenant: string)
    requires i < |projects| && ValidSnapshot(projects, attachments, tenant) && SameBut(start, before, projects[..i])
    ensures AllReady(listing, start, projects[..i], attachments, tenant)
            && IsReady(listing, before, projects[i], attachments, tenant) ==>
              AllReady(listing, start, projects[..i + 1], attachments, tenant)
    ensures AllReady(listing, start, projects, attachments, tenant) ==>
              IsReady(listing, before, projects[i], attachments, tenant)
  {
    OwnPartIsUntouched(start, before, projects, i, attachments, tenant);
    hide Expected, SameBut, ValidSnapshot;
    assert Own(start, tenant, projects[i].instance) == Own(before, tenant, projects[i].instance);
    assert projects[..i + 1] == projects[..i] + [projects[i]];
    assert projects[i] in projects;
  }

  lemma ReadyIsKnown(
    listing: set<Assignment> -> seq<Assignment>, remote: set<Assignment>, p: Project, attachments: seq<Attachment>,
    tenant: string)
    requires IsReady(listing, remote, p, attachments, tenant)
    ensures Expected(p, attachments, tenant).Some?
  {
  }

  lemma NothingDone(
    remote: set<Assignment>, log: seq<Write>, projects: seq<Project>, attachments: seq<Attachment>, tenant: string)
    ensures OnlyRepairs(remote, remote, projects, attachments, tenant)
    ensures SameBut(remote, remote, projects[..0])
    ensures OnlyRepairWrites(remote, log, log, projects, attachments, tenant)
    ensures AllInSync(remote, projects[..0], attachments, tenant)
  {
  }

  lemma SnapshotHas(projects: seq<Project>, i: nat, attachments: seq<Attachment>, tenant: string)
    requires i < |projects| && ValidSnapshot(projects, attachments, tenant)
    ensures Expected(projects[i], attachments, tenant).Some? ==>
              OnePerUser(Expected(projects[i], attachments, tenant).value)
  {
    hide Expected, OnePerUser;
  }

  lemma OneMoreInSync(
    before: set<Assignment>, after: set<Assignment>, projects: seq<Project>, i: nat, attachments: seq<Attachment>,
    tenant: string)
    requires i < |projects| && ValidSnapshot(projects, attachments, tenant)
    requires AllInSync(before, projects[..i], attachments, tenant) && Expected(projects[i], attachments, tenant).Some?
    requires Converged(after, Expected(projects[i], attachments, tenant).value, tenant, projects[i].instance)
    requires RightChanges(before, after, Expected(projects[i], attachments, tenant).value, tenant, projects[i].instance)
    ensures AllInSync(after, projects[..i + 1], attachments, tenant)
  {
    hide Expected, OnePerUser, RightChanges, Converged;
    assert projects[..i + 1] == projects[..i] + [projects[i]];
    forall p | p in projects[..i]
      ensures InSync(after, p, attachments, tenant)
    {
      var k :| 0 <= k < i && projects[k] == p;
      StaysInSync(
        before, after, p, Expected(projects[i], attachments, tenant).value, projects[i].instance, attachments, tenant);
    }
  }

  // ------------------------------------------------------------ what a pass means

  /** At no moment of a pass is an assignment gone that is expected and was there, and nothing
      but membership roles of the snapshot's Projects is ever touched. */
  lemma CorrectAssignmentsStay(
    before: set<Assignment>, after: set<Assignment>, projects: seq<Project>, attachments: seq<Attachment>,
    tenant: string, a: Assignment)
    requires ValidSnapshot(projects, attachments, tenant) && OnlyRepairs(before, after, projects, attachments, tenant)
    ensures a in before && IsExpected(a, projects, attachments, tenant) ==> a in after
    ensures !IsStale(a, projects, attachments, tenant) && !IsExpected(a, projects, attachments, tenant) ==>
              (a in before <==> a in after)
  {
    hide ValidSnapshot;
    if IsStale(a, projects, attachments, tenant) {
      StaleIsNotExpected(a, projects, attachments, tenant);
    }
    hide IsStale, IsExpected;
  }

  /** A pass over Projects that are all in sync writes nothing at all. */
  lemma SecondPassWritesNothing(
    remote: set<Assignment>, before: seq<Write>, after: seq<Write>, projects: seq<Project>,
    attachments: seq<Attachment>, tenant: string)
    requires AllInSync(remote, projects, attachments, tenant) && ValidSnapshot(projects, attachments, tenant)
    requires OnlyRepairWrites(remote, before, after, projects, attachments, tenant)
    ensures after == before
  {
    forall a: Assignment
      ensures IsExpected(a, projects, attachments, tenant) ==> a in remote
      ensures IsStale(a, projects, attachments, tenant) ==> a !in remote
    {
      NothingToRepair(remote, projects, attachments, tenant, a);
    }
    hide AllInSync, ValidSnapshot, IsExpected, IsStale;
    LongerLogHasWrite(before, after);
  }

  lemma LongerLogHasWrite(before: seq<Write>, after: seq<Write>)
    requires before <= after
    ensures after == before || exists i :: |before| <= i < |after| && (after[i].Assigned? || after[i].Unassigned?)
  {
    if after != before {
      assert after[|before|].Assigned? || after[|before|].Unassigned?;
    }
  }

  lemma NothingToRepair(
    remote: set<Assignment>, projects: seq<Project>, attachments: seq<Attachment>, tenant: string, a: Assignment)
    requires AllInSync(remote, projects, attachments, tenant) && ValidSnapshot(projects, attachments, tenant)
    ensures IsExpected(a, projects, attachments, tenant) ==> a in remote
    ensures IsStale(a, projects, attachments, tenant) ==> a !in remote
  {
    forall p | p in projects
      ensures InSync(remote, p, attachments, tenant)
      ensures a in Expected(p, attachments, tenant).value ==>
                a.tenant == tenant && a.instance == p.instance && IsManaged(a.role)
    {
    }
    hide Expected;
  }
}
