/** The role assignments of the Permit directory: what is expected of a Project, what one pass
    over a listing makes of it, and when that converges. */
module Directory {
  import opened Wrappers

  /** The repository's three membership roles, and the roles Permit itself manages. */
  datatype Role = Owner | Editor | Viewer | External(name: string)

  datatype Assignment = Assignment(user: string, role: Role, tenant: string, instance: string)

  datatype Attachment = Attachment(instance: string, user: string, role: Option<Role>)

  /** A Project under the key of its resource instance. `owner` is the user key of its owner,
      and missing if the owner is not the one known principal. */
  datatype Project = Project(instance: string, active: bool, owner: Option<string>)

  predicate IsManaged(role: Role): (managed: bool)
    ensures managed <==> role in {Owner, Editor, Viewer}
  {
    !role.External?
  }

  function RoleOf(a: Attachment): Role {
    if a.role.None? then Editor else a.role.value
  }

  function MembersOf(instance: string, attachments: seq<Attachment>, tenant: string): (r: seq<Assignment>)
    ensures forall a :: a in r ==> a.tenant == tenant && a.instance == instance
  {
    if attachments == [] then []
    else
      var n := |attachments| - 1;
      MembersOf(instance, attachments[..n], tenant)
      + if attachments[n].instance == instance
        then [Assignment(attachments[n].user, RoleOf(attachments[n]), tenant, instance)] else []
  }

  /** The assignments a Project is to have; `None` if its owner is not known. */
  function Expected(p: Project, attachments: seq<Attachment>, tenant: string): (r: Option<seq<Assignment>>)
    ensures r.Some? ==> forall a :: a in r.value ==> a.tenant == tenant && a.instance == p.instance
  {
    if !p.active then Some([])
    else if p.owner.None? then None
    else Some([Assignment(p.owner.value, Owner, tenant, p.instance)] + MembersOf(p.instance, attachments, tenant))
  }

  lemma {:induction false} MemberIs(instance: string, attachments: seq<Attachment>, tenant: string, a: Assignment)
    ensures a in MembersOf(instance, attachments, tenant) <==>
            a.tenant == tenant && a.instance == instance && IsMember(instance, attachments, a.user, a.role)
  {
    if attachments != [] {
      var n := |attachments| - 1;
      MemberIs(instance, attachments[..n], tenant, a);
      assert attachments == attachments[..n] + [attachments[n]];
    }
  }

  /** The Project has an Agent under the user key with the role; it is an editor if no role is
      given. */
  ghost predicate IsMember(instance: string, attachments: seq<Attachment>, user: string, role: Role) {
    exists m :: m in attachments && m.instance == instance && m.user == user
                && (m.role == Some(role) || (m.role == None && role == Editor))
  }

  /** What is expected: nothing of an archived Project; of an active one its owner as owner and
      its members in their roles. It is undetermined exactly for an active Project whose owner is
      not known. */
  lemma ExpectedIs(p: Project, attachments: seq<Attachment>, tenant: string, a: Assignment)
    ensures Expected(p, attachments, tenant).None? <==> p.active && p.owner.None?
    ensures Expected(p, attachments, tenant).Some? ==>
              (a in Expected(p, attachments, tenant).value <==>
               && p.active && a.tenant == tenant && a.instance == p.instance
               && ((a.role == Owner && p.owner == Some(a.user))
                   || IsMember(p.instance, attachments, a.user, a.role)))
  {
    MemberIs(p.instance, attachments, tenant, a);
    hide MembersOf, IsMember;
  }

  /** One assignment per user, of the membership roles only. */
  predicate OnePerUser(expected: seq<Assignment>) {
    && (forall a :: a in expected ==> IsManaged(a.role))
    && forall i, j :: 0 <= i < j < |expected| ==> expected[i].user != expected[j].user
  }

  /** The entry at `k` repeats an earlier one. */
  predicate Repeats(listed: seq<Assignment>, k: nat)
    requires k < |listed|
  {
    listed[k] in listed[..k]
  }

  predicate IsSurplus(listed: seq<Assignment>, expected: seq<Assignment>, k: nat)
    requires k < |listed|
  {
    IsManaged(listed[k].role) && (listed[k] !in expected || Repeats(listed, k))
  }

  /** What a pass over the first `n` entries of a listing takes away. */
  function Surplus(listed: seq<Assignment>, expected: seq<Assignment>, n: nat): (r: set<Assignment>)
    requires n <= |listed|
    ensures forall a :: a in r ==> a in listed[..n] && IsManaged(a.role)
  {
    if n == 0 then {}
    else Surplus(listed, expected, n - 1) + if IsSurplus(listed, expected, n - 1) then {listed[n - 1]} else {}
  }

  /** What it then adds. */
  function Missing(listed: seq<Assignment>, expected: seq<Assignment>): set<Assignment> {
    set a | a in expected && a !in listed
  }

  function Synchronized(remote: set<Assignment>, listed: seq<Assignment>, expected: seq<Assignment>): set<Assignment> {
    remote - Surplus(listed, expected, |listed|) + Missing(listed, expected)
  }

  predicate Once(listed: seq<Assignment>) {
    forall i, j :: 0 <= i < j < |listed| ==> listed[i] != listed[j]
  }

  lemma {:induction false} SurplusIs(listed: seq<Assignment>, expected: seq<Assignment>, n: nat, a: Assignment)
    requires n <= |listed|
    ensures a in Surplus(listed, expected, n) <==>
            exists k :: 0 <= k < n && listed[k] == a && IsSurplus(listed, expected, k)
  {
    if n > 0 {
      SurplusIs(listed, expected, n - 1, a);
    }
    hide IsSurplus;
  }

  /** An expected assignment is taken away if and only if the listing has it twice. */
  lemma ExpectedIsTakenIffRepeated(listed: seq<Assignment>, expected: seq<Assignment>, a: Assignment)
    requires a in expected && IsManaged(a.role)
    ensures a in Surplus(listed, expected, |listed|) <==>
            exists i, j :: 0 <= i < j < |listed| && listed[i] == a && listed[j] == a
  {
    SurplusIs(listed, expected, |listed|, a);
    hide Surplus;
    if i, j :| 0 <= i < j < |listed| && listed[i] == a && listed[j] == a {
      assert listed[..j][i] == a;
      assert IsSurplus(listed, expected, j);
    }
  }

  lemma UnexpectedIsTaken(listed: seq<Assignment>, expected: seq<Assignment>, a: Assignment)
    requires a !in expected && IsManaged(a.role)
    ensures a in Surplus(listed, expected, |listed|) <==> a in listed
  {
    SurplusIs(listed, expected, |listed|, a);
    hide Surplus;
    if k :| 0 <= k < |listed| && listed[k] == a {
      assert IsSurplus(listed, expected, k);
    }
  }

  /** The listing is of exactly the Project's assignments in the tenant. */
  ghost predicate ListsExactly(listed: seq<Assignment>, remote: set<Assignment>, tenant: string, instance: string) {
    forall a :: a in listed <==> a in remote && a.tenant == tenant && a.instance == instance
  }

  /** The managed assignments of the Project are exactly the expected ones. */
  ghost predicate Converged(remote: set<Assignment>, expected: seq<Assignment>, tenant: string, instance: string) {
    forall a: Assignment :: a.tenant == tenant && a.instance == instance && IsManaged(a.role) ==>
      (a in remote <==> a in expected)
  }

  /** The pass converges if and only if no expected assignment was listed twice; in particular
      it does when the listing names everything once. */
  lemma ConvergesIffNothingExpectedRepeats(
    remote: set<Assignment>, listed: seq<Assignment>, expected: seq<Assignment>, tenant: string, instance: string)
    requires ListsExactly(listed, remote, tenant, instance) && OnePerUser(expected)
    requires forall a :: a in expected ==> a.tenant == tenant && a.instance == instance
    ensures Converged(Synchronized(remote, listed, expected), expected, tenant, instance) <==>
            forall i, j :: 0 <= i < j < |listed| && listed[i] == listed[j] ==> listed[i] !in expected
  {
    hide Surplus;
    forall a: Assignment | IsManaged(a.role)
      ensures a in expected ==> (a in Surplus(listed, expected, |listed|) <==>
                                 exists i, j :: 0 <= i < j < |listed| && listed[i] == a && listed[j] == a)
      ensures a !in expected ==> (a in Surplus(listed, expected, |listed|) <==> a in listed)
    {
      if a in expected {
        ExpectedIsTakenIffRepeated(listed, expected, a);
      } else {
        UnexpectedIsTaken(listed, expected, a);
      }
    }
  }

  /** Whatever is listed, no assignment of another Project or tenant and no role managed by
      Permit is touched. */
  lemma OthersAreUntouched(
    remote: set<Assignment>, listed: seq<Assignment>, expected: seq<Assignment>, tenant: string, instance: string,
    a: Assignment)
    requires ListsExactly(listed, remote, tenant, instance) && OnePerUser(expected)
    requires forall e :: e in expected ==> e.tenant == tenant && e.instance == instance
    requires a.tenant != tenant || a.instance != instance || !IsManaged(a.role)
    ensures a in Synchronized(remote, listed, expected) <==> a in remote
  {
    hide Surplus;
    assert listed[..|listed|] == listed;
  }

  /** With the same assignment listed twice the pass takes a correct assignment away. */
  lemma RepeatedListingLosesAssignment(a: Assignment)
    requires IsManaged(a.role)
    ensures Synchronized({a}, [a, a], [a]) == {}
    ensures ListsExactly([a, a], {a}, a.tenant, a.instance) && OnePerUser([a])
  {
    ExpectedIsTakenIffRepeated([a, a], [a], a);
    assert [a, a][0] == a && [a, a][1] == a;
    hide Surplus;
  }

  // ------------------------------------------------------------ reading all pages

  const PAGE_SIZE := 100
  const MAX_PAGES := 100

  /** The items of page `page`, counted from one. */
  function Page(items: seq<Assignment>, page: nat): seq<Assignment>
    requires page >= 1
  {
    var start := (page - 1) * PAGE_SIZE;
    if start >= |items| then [] else items[start..Min(start + PAGE_SIZE, |items|)]
  }

  /** How a call for one page ends: it fails, or answers with items. */
  datatype PageAnswer = PageFails | PageOf(items: seq<Assignment>)

  predicate IsFull(a: PageAnswer) {
    a.PageOf? && |a.items| == PAGE_SIZE
  }

  predicate IsLast(a: PageAnswer) {
    a.PageOf? && |a.items| < PAGE_SIZE
  }

  /** The items of the first `n` pages. */
  function PagesRead(answers: nat -> PageAnswer, n: nat): seq<Assignment> {
    if n == 0 then []
    else PagesRead(answers, n - 1) + if answers(n).PageOf? then answers(n).items else []
  }

  /** Asks page after page while they come full. It succeeds exactly when a short page comes
      behind full ones; a failing call, an overlong page and a full last page fail it. */
  method ListRoleAssignments(answers: nat -> PageAnswer) returns (listed: Option<seq<Assignment>>, asked: nat)
    ensures 1 <= asked <= MAX_PAGES && forall k :: 1 <= k < asked ==> IsFull(answers(k))
    ensures IsFull(answers(asked)) ==> asked == MAX_PAGES
    ensures listed.Some? <==> IsLast(answers(asked))
    ensures listed.Some? ==> listed.value == PagesRead(answers, asked)
  {
    var assignments: seq<Assignment> := [];
    for page := 1 to MAX_PAGES + 1
      invariant assignments == PagesRead(answers, page - 1)
      invariant forall k :: 1 <= k < page ==> IsFull(answers(k))
    {
      asked := page;
      var answer := answers(page);
      if answer.PageFails? || |answer.items| > PAGE_SIZE {
        return None, page;
      }
      assignments := assignments + answer.items;
      if |answer.items| < PAGE_SIZE {
        return Some(assignments), page;
      }
    }
    return None, MAX_PAGES;
  }

  /** The answers of a directory that holds `items`, when the calls that fail are as given. */
  function Answers(items: seq<Assignment>, works: nat -> bool): nat -> PageAnswer {
    (page: nat) => if page >= 1 && works(page) then PageOf(Page(items, page)) else PageFails
  }

  lemma PageIs(items: seq<Assignment>, page: nat)
    requires page >= 1
    ensures |Page(items, page)| == PAGE_SIZE ==>
              page * PAGE_SIZE <= |items| && Page(items, page) == items[(page - 1) * PAGE_SIZE..page * PAGE_SIZE]
    ensures |Page(items, page)| < PAGE_SIZE ==>
              |items| < page * PAGE_SIZE
              && Page(items, page) == if (page - 1) * PAGE_SIZE <= |items| then items[(page - 1) * PAGE_SIZE..] else []
    ensures |Page(items, page)| <= PAGE_SIZE
  {
    assert page * PAGE_SIZE == (page - 1) * PAGE_SIZE + PAGE_SIZE;
  }

  lemma {:induction false} FullPagesArePrefix(items: seq<Assignment>, works: nat -> bool, n: nat)
    requires forall k :: 1 <= k <= n ==> IsFull(Answers(items, works)(k))
    ensures n * PAGE_SIZE <= |items| && PagesRead(Answers(items, works), n) == items[..n * PAGE_SIZE]
  {
    if n > 0 {
      FullPagesArePrefix(items, works, n - 1);
      assert IsFull(Answers(items, works)(n));
      PageIs(items, n);
      hide Page;
      assert items[..(n - 1) * PAGE_SIZE] + items[(n - 1) * PAGE_SIZE..n * PAGE_SIZE] == items[..n * PAGE_SIZE];
    }
  }

  /** A listing is complete or it fails: exactly the directories of fewer than ten thousand
      assignments can be read, and exactly when no call fails. */
  lemma ListingIsCompleteOrFails(items: seq<Assignment>, works: nat -> bool, asked: nat)
    requires 1 <= asked <= MAX_PAGES
    requires forall k :: 1 <= k < asked ==> IsFull(Answers(items, works)(k))
    requires IsFull(Answers(items, works)(asked)) ==> asked == MAX_PAGES
    ensures IsLast(Answers(items, works)(asked)) <==> works(asked) && |items| < PAGE_SIZE * MAX_PAGES
    ensures IsLast(Answers(items, works)(asked)) ==> PagesRead(Answers(items, works), asked) == items
    ensures forall k :: 1 <= k < asked ==> works(k)
  {
    hide Page;
    FullPagesArePrefix(items, works, asked - 1);
    PageIs(items, asked);
    assert items[..(asked - 1) * PAGE_SIZE] + items[(asked - 1) * PAGE_SIZE..] == items;
    forall k | 1 <= k < asked
      ensures works(k)
    {
      assert IsFull(Answers(items, works)(k));
    }
  }
}
