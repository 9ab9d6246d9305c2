/** The discovery service: the loops over regions, categories and items that drive the index. */
module DiscoveryService {
  import opened Common
  import opened Discovery

  const ALL_REGIONS := "all"

  /** EC2 instances first, then the generic categories in their listed order. */
  const KINDS: seq<string> := ["ec2_instance", "ecs_cluster", "eks_cluster", "lambda_function", "rds_database",
                               "s3_bucket", "ebs_volume", "load_balancer", "auto_scaling_group", "vpc", "subnet",
                               "security_group", "cloudwatch_alarm"]

  datatype Account = Account(id: nat, userId: nat, region: string, availableRegions: seq<string>)

  datatype Report =
    | NotFound | Forbidden | NoRegions | Aborted
    | DiscoveryFailed(errors: seq<Failure>) | Discovered(seen: nat)

  datatype Failure = Failure(kind: string, region: string, message: string)

  /** What the account row remembers of its last completed discovery. */
  datatype Outline = Outline(at: int, errors: seq<Failure>)

  /** Answers of the provider, by position of the region and of the category. */
  type Replies = (nat, nat) -> Outcome

  // ----- the passes of one discovery

  /** The first c passes of region number r. */
  function Slice(account: Account, regions: seq<string>, replies: Replies, at: int, r: nat, c: nat): (p: seq<Pass>)
    requires r < |regions| && c <= |KINDS|
    ensures |p| == c
  {
    if c == 0 then []
    else Slice(account, regions, replies, at, r, c - 1) +
         [Pass(Scope(account.id, KINDS[c - 1], regions[r]), replies(r, c - 1), at)]
  }

  /** All passes of the first r regions. */
  function Plan(account: Account, regions: seq<string>, replies: Replies, at: int, r: nat): (p: seq<Pass>)
    requires r <= |regions|
    ensures |p| == |KINDS| * r
  {
    if r == 0 then []
    else Plan(account, regions, replies, at, r - 1) + Slice(account, regions, replies, at, r - 1, |KINDS|)
  }

  predicate NoCrash(passes: seq<Pass>) {
    forall i :: 0 <= i < |passes| ==> !passes[i].outcome.Crashed?
  }

  /** The failures to report: validation errors other than "not yet supported". */
  function Failures(passes: seq<Pass>): seq<Failure> {
    if passes == [] then []
    else
      var p := passes[|passes| - 1];
      Failures(passes[..|passes| - 1]) +
      if p.outcome.Failed? then [Failure(p.scope.kind, p.scope.region, p.outcome.message)] else []
  }

  function Seen(passes: seq<Pass>): nat {
    if passes == [] then 0
    else
      var p := passes[|passes| - 1];
      Seen(passes[..|passes| - 1]) + if p.outcome.Listed? then |p.outcome.items| else 0
  }

  predicate StoppedByCrash(passes: seq<Pass>) {
    passes != [] && passes[|passes| - 1].outcome.Crashed? && NoCrash(passes[..|passes| - 1])
  }

  /** One listing call for every category of every one of the regions, region by region, up to the
      first call that crashes. */
  ghost predicate Visits(account: Account, regions: seq<string>, replies: Replies, at: int, done: seq<Pass>) {
    |done| <= |KINDS| * |regions| &&
    (forall r, c {:trigger regions[r], KINDS[c]} ::
      0 <= r < |regions| && 0 <= c < |KINDS| && |KINDS| * r + c < |done| ==>
      done[|KINDS| * r + c] == Pass(Scope(account.id, KINDS[c], regions[r]), replies(r, c), at)) &&
    (forall i :: 0 <= i < |done| - 1 ==> !done[i].outcome.Crashed?) &&
    (|done| < |KINDS| * |regions| ==> done != [] && done[|done| - 1].outcome.Crashed?)
  }

  /** An account that is not set to all regions is searched in its own region, any other in every
      region that is known for it. */
  ghost predicate Searched(account: Account, replies: Replies, at: int, done: seq<Pass>) {
    (account.region != "all" ==> Visits(account, [account.region], replies, at, done)) &&
    (account.region == "all" ==> Visits(account, account.availableRegions, replies, at, done))
  }

  ghost predicate SomeCrash(done: seq<Pass>) { exists i :: 0 <= i < |done| && done[i].outcome.Crashed? }

  lemma PerformedVisits(account: Account, regions: seq<string>, replies: Replies, at: int, done: seq<Pass>)
    requires done <= Plan(account, regions, replies, at, |regions|)
    requires StoppedByCrash(done) || (NoCrash(done) && done == Plan(account, regions, replies, at, |regions|))
    ensures Visits(account, regions, replies, at, done)
    ensures StoppedByCrash(done) <==> SomeCrash(done)
  {
    hide Plan;
    var n := |regions|;
    forall r, c | 0 <= r < n && 0 <= c < |KINDS| && |KINDS| * r + c < |done|
      ensures done[|KINDS| * r + c] == Pass(Scope(account.id, KINDS[c], regions[r]), replies(r, c), at)
    {
      PlanAt(account, regions, replies, at, n, r, c);
      assert done[|KINDS| * r + c] == Plan(account, regions, replies, at, n)[|KINDS| * r + c];
    }
  }

  /** Every region and category gets its one listing call, in order. */
  lemma {:induction false} PlanAt(account: Account, regions: seq<string>, replies: Replies, at: int, n: nat, r: nat,
                                  c: nat)
    requires r < n <= |regions| && c < |KINDS|
    ensures |KINDS| * r + c < |KINDS| * n
    ensures Plan(account, regions, replies, at, n)[|KINDS| * r + c] ==
            Pass(Scope(account.id, KINDS[c], regions[r]), replies(r, c), at)
  {
    if r < n - 1 {
      PlanAt(account, regions, replies, at, n - 1, r, c);
    } else {
      SliceAt(account, regions, replies, at, r, |KINDS|, c);
    }
  }

  lemma {:induction false} SliceAt(account: Account, regions: seq<string>, replies: Replies, at: int, r: nat, n: nat,
                                   c: nat)
    requires r < |regions| && c < n <= |KINDS|
    ensures Slice(account, regions, replies, at, r, n)[c] ==
            Pass(Scope(account.id, KINDS[c], regions[r]), replies(r, c), at)
  {
    if c < n - 1 { SliceAt(account, regions, replies, at, r, n - 1, c); }
  }

  lemma {:induction false} SlicesGrow(account: Account, regions: seq<string>, replies: Replies, at: int, r: nat,
                                      c: nat, n: nat)
    requires r < |regions| && c <= n <= |KINDS|
    ensures Slice(account, regions, replies, at, r, c) <= Slice(account, regions, replies, at, r, n)
    decreases n
  {
    if c < n { SlicesGrow(account, regions, replies, at, r, c, n - 1); }
  }

  lemma {:induction false} PlansGrow(account: Account, regions: seq<string>, replies: Replies, at: int, r: nat, n: nat)
    requires r <= n <= |regions|
    ensures Plan(account, regions, replies, at, r) <= Plan(account, regions, replies, at, n)
    decreases n
  {
    if r < n { PlansGrow(account, regions, replies, at, r, n - 1); }
  }

  lemma PartialPlan(account: Account, regions: seq<string>, replies: Replies, at: int, r: nat, c: nat)
    requires r < |regions| && c <= |KINDS|
    ensures Plan(account, regions, replies, at, r) + Slice(account, regions, replies, at, r, c) <=
            Plan(account, regions, replies, at, |regions|)
    ensures c == |KINDS| ==> Plan(account, regions, replies, at, r) + Slice(account, regions, replies, at, r, c) ==
                             Plan(account, regions, replies, at, r + 1)
  {
    hide Plan, Slice;
    PlanStep(account, regions, replies, at, r);
    SlicesGrow(account, regions, replies, at, r, c, |KINDS|);
    PlansGrow(account, regions, replies, at, r + 1, |regions|);
  }

  lemma PlanStep(account: Account, regions: seq<string>, replies: Replies, at: int, r: nat)
    requires r < |regions|
    ensures Plan(account, regions, replies, at, r + 1) ==
            Plan(account, regions, replies, at, r) + Slice(account, regions, replies, at, r, |KINDS|)
  {
  }

  /** What the index says about the resources of all other accounts is unchanged. */
  ghost predicate OthersKept(before: Table, after: Table, account: nat) {
    forall s: Scope, e :: s.account != account ==> LifeIn(after, s, e) == LifeIn(before, s, e)
  }

  lemma {:induction false} OtherAccountsUntouched(rows: Table, passes: seq<Pass>, account: nat)
    requires forall i :: 0 <= i < |passes| ==> passes[i].scope.account == account
    ensures OthersKept(rows, Run(rows, passes), account)
  {
    if passes != [] {
      hide Apply, LifeIn;
      var n := |passes| - 1;
      OtherAccountsUntouched(rows, passes[..n], account);
      forall s: Scope, e | s.account != account ensures LifeIn(Run(rows, passes), s, e) == LifeIn(rows, s, e) {
        ApplyLife(Run(rows, passes[..n]), passes[n], s, e);
      }
    }
  }

  lemma {:induction false} SliceIsOwn(account: Account, regions: seq<string>, replies: Replies, at: int, r: nat, c: nat)
    requires r < |regions| && c <= |KINDS|
    ensures forall p :: p in Slice(account, regions, replies, at, r, c) ==> p.scope.account == account.id
  {
    if c > 0 { SliceIsOwn(account, regions, replies, at, r, c - 1); }
  }

  lemma {:induction false} PlanIsOwn(account: Account, regions: seq<string>, replies: Replies, at: int, r: nat)
    requires r <= |regions|
    ensures forall p :: p in Plan(account, regions, replies, at, r) ==> p.scope.account == account.id
  {
    if r > 0 {
      PlanIsOwn(account, regions, replies, at, r - 1);
      SliceIsOwn(account, regions, replies, at, r - 1, |KINDS|);
    }
  }

  /** A discovery of one account leaves every resource of every other account as it was. */
  lemma DiscoveryKeepsOthers(rows: Table, account: Account, regions: seq<string>, replies: Replies, at: int,
                             done: seq<Pass>)
    requires done <= Plan(account, regions, replies, at, |regions|)
    ensures OthersKept(rows, Run(rows, done), account.id)
  {
    PlanIsOwn(account, regions, replies, at, |regions|);
    hide Plan, Run, OthersKept;
    var all := Plan(account, regions, replies, at, |regions|);
    forall i | 0 <= i < |done| ensures done[i].scope.account == account.id {
      assert done[i] == all[i] && all[i] in all;
    }
    OtherAccountsUntouched(rows, done, account.id);
  }

  /** A failure is reported exactly for each call that failed with an error other than "not yet
      supported", with its category, region and message. */
  lemma {:induction false} FailuresIff(passes: seq<Pass>, f: Failure)
    ensures f in Failures(passes) <==> exists i :: 0 <= i < |passes| && FailedWith(passes[i], f)
  {
    if passes != [] {
      var n := |passes| - 1;
      FailuresIff(passes[..n], f);
      if i :| 0 <= i < n && FailedWith(passes[..n][i], f) { assert FailedWith(passes[i], f); }
      if i :| 0 <= i < n && FailedWith(passes[i], f) { assert FailedWith(passes[..n][i], f); }
    }
  }

  predicate FailedWith(p: Pass, f: Failure) {
    p.outcome.Failed? && f.kind == p.scope.kind && f.region == p.scope.region && f.message == p.outcome.message
  }

  lemma NoFailures(passes: seq<Pass>)
    ensures Failures(passes) == [] <==> forall i :: 0 <= i < |passes| ==> !passes[i].outcome.Failed?
  {
    if Failures(passes) != [] { FailuresIff(passes, Failures(passes)[0]); }
    if i :| 0 <= i < |passes| && passes[i].outcome.Failed? {
      var f := Failure(passes[i].scope.kind, passes[i].scope.region, passes[i].outcome.message);
      assert FailedWith(passes[i], f);
      FailuresIff(passes, f);
    }
  }

  /** The set holds the ids of exactly those rows of the scope that carry one of the names. */
  ghost predicate IdsOf(rows: Table, s: Scope, names: set<string>, ids: set<nat>) {
    (forall i :: i in ids ==> i < |rows| && rows[i].scope == s) &&
    (forall i :: 0 <= i < |rows| && rows[i].scope == s ==> (i in ids <==> rows[i].externalId in names))
  }

  // ----- all accounts

  datatype Job = Job(account: Account, replies: Replies, at: int)

  /** There is nowhere to search. */
  predicate Unsearchable(account: Account) { account.region == "all" && account.availableRegions == [] }

  /** A discovery in which every call was answered, or is not yet supported. */
  ghost predicate Clean(job: Job, done: seq<Pass>) {
    !Unsearchable(job.account) &&
    forall i :: 0 <= i < |done| ==> !done[i].outcome.Crashed? && !done[i].outcome.Failed?
  }

  ghost function CountClean(jobs: seq<Job>, done: seq<seq<Pass>>): nat
    requires |jobs| == |done|
  {
    if jobs == [] then 0
    else
      CountClean(jobs[..|jobs| - 1], done[..|jobs| - 1]) + if Clean(jobs[|jobs| - 1], done[|jobs| - 1]) then 1 else 0
  }

  function Flattened(done: seq<seq<Pass>>): seq<Pass> {
    if done == [] then [] else Flattened(done[..|done| - 1]) + done[|done| - 1]
  }

  // ----- the code

  class ResourceIndex {
    var rows: Table
    var outlines: map<nat, Outline>

    constructor ()
      ensures rows == [] && outlines == map[]
    {
      rows, outlines := [], map[];
    }

    /** First row with the identity, if any. */
    method GetByIdentity(s: Scope, e: string) returns (p: Option<nat>)
      ensures p == if Position(rows, s, e) == |rows| then None else Some(Position(rows, s, e))
    {
      for i := 0 to |rows|
        invariant forall j :: 0 <= j < i ==> !Matches(rows[j], s, e)
      {
        if Matches(rows[i], s, e) {
          PositionIs(rows, s, e, i);
          return Some(i);
        }
      }
      PositionIs(rows, s, e, |rows|);
      p := None;
    }

    method Upsert(s: Scope, item: Item, at: int) returns (id: nat)
      modifies this`rows
      ensures rows == Upserted(old(rows), s, item, at)
      ensures id == Position(rows, s, item.externalId) && id < |rows|
    {
      var existing := GetByIdentity(s, item.externalId);
      UpsertedPosition(rows, s, item, at, s, item.externalId);
      match existing {
        case None =>
          id := |rows|;
          rows := rows + [Row(s, item.externalId, item.details, at, at, true)];
        case Some(p) =>
          id := p;
          rows := rows[p := rows[p].(details := item.details, lastSeen := at, isActive := true)];
      }
    }

    function ListActiveIds(s: Scope): (ids: set<nat>)
      reads this`rows
    {
      set i: nat | i < |rows| && rows[i].scope == s && rows[i].isActive
    }

    /** Deactivates the active rows of a scope that are not among the seen ids. */
    method MarkInactiveExcept(s: Scope, seen: set<nat>)
      modifies this`rows
      ensures |rows| == |old(rows)|
      ensures forall i :: 0 <= i < |rows| ==>
        rows[i] == if old(rows)[i].scope == s && i !in seen then old(rows)[i].(isActive := false) else old(rows)[i]
    {
      var stale := ListActiveIds(s) - seen;
      if stale != {} {
        for i := 0 to |rows|
          invariant |rows| == |old(rows)|
          invariant forall j :: 0 <= j < i ==>
            rows[j] == if old(rows)[j].scope == s && j !in seen then old(rows)[j].(isActive := false) else old(rows)[j]
          invariant forall j :: i <= j < |rows| ==> rows[j] == old(rows[j])
        {
          if i in stale { rows := rows[i := rows[i].(isActive := false)]; }
        }
      } else {
        forall i | 0 <= i < |rows| && rows[i].scope == s && i !in seen ensures !rows[i].isActive {
          assert i !in stale;
        }
      }
    }

    /** Stores the items one by one and collects their ids. */
    method UpsertAll(s: Scope, items: seq<Item>, at: int) returns (seen: set<nat>)
      requires Unique(rows)
      modifies this`rows
      ensures rows == UpsertedAll(old(rows), s, items, at) && Unique(rows)
      ensures IdsOf(rows, s, Names(items), seen)
    {
      seen := {};
      for k := 0 to |items|
        invariant rows == UpsertedAll(old(rows), s, items[..k], at) && Unique(rows)
        invariant IdsOf(rows, s, Names(items[..k]), seen)
      {
        assert items[..k + 1][..k] == items[..k];
        UpsertedKeeps(rows, s, items[k], at);
        Collected(rows, s, items, k, at, seen);
        var id := Upsert(s, items[k], at);
        seen := seen + {id};
      }
      assert items[..|items|] == items;
    }

    /** One category of one region; the error is appended to the list of messages by the caller. */
    method DiscoverCategory(s: Scope, reply: Outcome, at: int)
      returns (count: nat, failure: Option<Failure>, crashed: bool)
      requires Unique(rows)
      modifies this`rows
      ensures rows == Apply(old(rows), Pass(s, reply, at)) && Unique(rows)
      ensures count == if reply.Listed? then |reply.items| else 0
      ensures count == Seen([Pass(s, reply, at)]) && AsSeq(failure) == Failures([Pass(s, reply, at)])
      ensures crashed == reply.Crashed?
    {
      ApplyKeeps(rows, Pass(s, reply, at));
      count, failure, crashed := 0, None, false;
      match reply {
        case NotYetSupported =>
        case Failed(message) => failure := Some(Failure(s.kind, s.region, message));
        case Crashed(stored) =>
          var _ := UpsertAll(s, stored, at);
          crashed := true;
        case Listed(items) =>
          var seen := UpsertAll(s, items, at);
          ghost var stored := rows;
          MarkInactiveExcept(s, seen);
          assert rows == Reconciled(stored, s, Names(items));
          count := |items|;
      }
    }

    /** One region of an account or every region discovered for it. */
    method ResolveRegions(account: Account) returns (regions: seq<string>)
      ensures account.region != ALL_REGIONS ==> regions == [account.region]
      ensures account.region == ALL_REGIONS ==> regions == account.availableRegions
    {
      if account.region != ALL_REGIONS { return [account.region]; }
      regions := account.availableRegions;
    }

    /** All categories of one region, until one of them crashes. */
    method DiscoverRegion(account: Account, regions: seq<string>, r: nat, replies: Replies, at: int)
      returns (total: nat, errors: seq<Failure>, crashed: bool, ghost done: seq<Pass>)
      requires Unique(rows) && r < |regions|
      modifies this`rows
      ensures Unique(rows) && rows == Run(old(rows), done)
      ensures |done| <= |KINDS| && done == Slice(account, regions, replies, at, r, |done|)
      ensures errors == Failures(done) && total == Seen(done)
      ensures if crashed then StoppedByCrash(done) else NoCrash(done) && |done| == |KINDS|
    {
      total, errors, crashed, done := 0, [], false, [];
      var c: nat := 0;
      while c < |KINDS|
        invariant c <= |KINDS| && Unique(rows) && rows == Run(old(rows), done)
        invariant |done| == c && done == Slice(account, regions, replies, at, r, c) && NoCrash(done)
        invariant errors == Failures(done) && total == Seen(done)
      {
        var scope, reply := Scope(account.id, KINDS[c], regions[r]), replies(r, c);
        var count, failure, failed := DiscoverCategory(scope, reply, at);
        Appended(old(rows), done, Pass(scope, reply, at));
        ghost var before := done;
        done := done + [Pass(scope, reply, at)];
        assert done[..c] == before;
        errors, total := errors + AsSeq(failure), total + count;
        if failed { return total, errors, true, done; }
        c := c + 1;
      }
    }

    /** All regions in order, until one of them crashes. */
    method DiscoverRegions(account: Account, regions: seq<string>, replies: Replies, at: int)
      returns (total: nat, errors: seq<Failure>, crashed: bool, ghost done: seq<Pass>)
      requires Unique(rows)
      modifies this`rows
      ensures Unique(rows) && Reported(old(rows), rows, done, errors, total)
      ensures done <= Plan(account, regions, replies, at, |regions|)
      ensures if crashed then StoppedByCrash(done)
              else NoCrash(done) && done == Plan(account, regions, replies, at, |regions|)
    {
      total, errors, crashed, done := 0, [], false, [];
      NothingDone(rows, account, regions, replies, at);
      hide Progress, Reported, Plan, Slice, Run, Failures, Seen, NoCrash, StoppedByCrash;
      var r: nat := 0;
      while r < |regions|
        invariant r <= |regions| && !crashed
        invariant Progress(old(rows), rows, account, regions, replies, at, r, done, errors, total)
      {
        ghost var before := rows;
        var count, failures, failed, more := DiscoverRegion(account, regions, r, replies, at);
        Advance(old(rows), before, rows, account, regions, replies, at, r, done, errors, total,
                more, failures, count, failed);
        done, errors, total := done + more, errors + failures, total + count;
        if failed { return total, errors, true, done; }
        r := r + 1;
      }
      Completed(old(rows), rows, account, regions, replies, at, done, errors, total);
    }

    /** The whole discovery of one account. A crash leaves the account row as it was but keeps
        everything already stored. */
    method DiscoverAccount(found: Option<Account>, caller: Option<nat>, replies: Replies, at: int)
      returns (report: Report, ghost done: seq<Pass>)
      requires Unique(rows)
      modifies this
      ensures Unique(rows) && rows == Run(old(rows), done)
      ensures report.NotFound? <==> found.None?
      ensures report.Forbidden? <==> found.Some? && caller.Some? && caller.value != found.value.userId
      ensures report.NoRegions? <==> found.Some? && !report.Forbidden? && Unsearchable(found.value)
      ensures report.NotFound? || report.Forbidden? || report.NoRegions? ==> done == [] && outlines == old(outlines)
      ensures report.Aborted? || report.DiscoveryFailed? || report.Discovered? ==>
        Searched(found.value, replies, at, done)
      ensures report.Aborted? <==> SomeCrash(done)
      ensures report.Aborted? ==> outlines == old(outlines)
      ensures report.DiscoveryFailed? || report.Discovered? ==>
        outlines == old(outlines)[found.value.id := Outline(at, Failures(done))] &&
        report == if Failures(done) != [] then DiscoveryFailed(Failures(done)) else Discovered(Seen(done))
      ensures found.Some? ==> OthersKept(old(rows), rows, found.value.id)
    {
      hide OthersKept;
      NothingRun(rows);
      if found.None? { return NotFound, []; }
      var account := found.value;
      NoPassKeepsOthers(rows, account.id);
      if caller.Some? && caller.value != account.userId { return Forbidden, []; }
      var regions := ResolveRegions(account);
      if regions == [] { return NoRegions, []; }
      hide Plan, Run, Failures, Seen, Unique, StoppedByCrash, Visits, SomeCrash;
      var total, errors, crashed, passes := DiscoverRegions(account, regions, replies, at);
      done := passes;
      PerformedVisits(account, regions, replies, at, done);
      DiscoveryKeepsOthers(old(rows), account, regions, replies, at, done);
      if crashed { return Aborted, done; }
      outlines := outlines[account.id := Outline(at, errors)];
      report := if errors != [] then DiscoveryFailed(errors) else Discovered(total);
    }

    /** The scheduled discovery of all eligible accounts: an account that fails or crashes counts
        as failed and does not keep the others from being discovered. */
    method DiscoverAll(jobs: seq<Job>) returns (discovered: nat, failed: nat, ghost done: seq<seq<Pass>>)
      requires Unique(rows)
      modifies this
      ensures Unique(rows) && |done| == |jobs| && rows == Run(old(rows), Flattened(done))
      ensures forall i :: 0 <= i < |jobs| ==> Searched(jobs[i].account, jobs[i].replies, jobs[i].at, done[i])
      ensures discovered == CountClean(jobs, done) && discovered + failed == |jobs|
    {
      hide Run, Unique, Failures, Seen, Plan, Searched, SomeCrash;
      discovered, failed, done := 0, 0, [];
      NothingRun(rows);
      for i := 0 to |jobs|
        invariant Unique(rows) && |done| == i && rows == Run(old(rows), Flattened(done))
        invariant forall k :: 0 <= k < i ==> Searched(jobs[k].account, jobs[k].replies, jobs[k].at, done[k])
        invariant discovered == CountClean(jobs[..i], done) && discovered + failed == i
      {
        assert jobs[..i + 1][..i] == jobs[..i];
        var report, passes := DiscoverAccount(Some(jobs[i].account), None, jobs[i].replies, jobs[i].at);
        RunAppended(old(rows), Flattened(done), passes);
        if report.NoRegions? { NothingVisited(jobs[i].account, jobs[i].replies, jobs[i].at); }
        CleanIffDiscovered(jobs[i], passes, report);
        assert (done + [passes])[..i] == done;
        done := done + [passes];
        if report.Discovered? { discovered := discovered + 1; } else { failed := failed + 1; }
      }
      assert jobs[..|jobs|] == jobs;
    }
  }

  lemma NothingVisited(account: Account, replies: Replies, at: int)
    requires Unsearchable(account)
    ensures Searched(account, replies, at, [])
  {
  }

  lemma CleanIffDiscovered(job: Job, done: seq<Pass>, report: Report)
    requires report.NoRegions? <==> Unsearchable(job.account)
    requires report.Aborted? <==> SomeCrash(done)
    requires report.DiscoveryFailed? || report.Discovered? ==> (report.DiscoveryFailed? <==> Failures(done) != [])
    requires !report.NotFound? && !report.Forbidden?
    requires report.NoRegions? ==> done == []
    ensures report.Discovered? <==> Clean(job, done)
  {
    hide Failures;
    NoFailures(done);
  }

  lemma NothingRun(rows: Table)
    ensures Run(rows, []) == rows
  {
  }

  lemma NoPassKeepsOthers(rows: Table, account: nat)
    ensures OthersKept(rows, rows, account)
  {
  }

  lemma NothingDone(rows: Table, account: Account, regions: seq<string>, replies: Replies, at: int)
    ensures Unique(rows) ==> Progress(rows, rows, account, regions, replies, at, 0, [], [], 0)
  {
  }

  /** The table, the failures and the count that some passes lead to. */
  ghost predicate Reported(start: Table, rows: Table, done: seq<Pass>, errors: seq<Failure>, total: nat) {
    rows == Run(start, done) && errors == Failures(done) && total == Seen(done)
  }

  lemma ReportedMore(start: Table, rows: Table, done: seq<Pass>, more: seq<Pass>,
                     errors: seq<Failure>, total: nat, failures: seq<Failure>, count: nat)
    requires errors == Failures(done) && total == Seen(done) && failures == Failures(more) && count == Seen(more)
    requires rows == Run(Run(start, done), more)
    ensures Reported(start, rows, done + more, errors + failures, total + count)
  {
    hide Run, Failures, Seen;
    RunAppended(start, done, more);
    ReportAppended(done, more);
  }

  /** All went well in the first r regions. */
  ghost predicate Progress(start: Table, rows: Table, account: Account, regions: seq<string>, replies: Replies,
                           at: int, r: nat, done: seq<Pass>, errors: seq<Failure>, total: nat)
    requires r <= |regions|
  {
    Unique(rows) && Reported(start, rows, done, errors, total) &&
    done == Plan(account, regions, replies, at, r) && NoCrash(done)
  }

  lemma Completed(start: Table, rows: Table, account: Account, regions: seq<string>, replies: Replies, at: int,
                  done: seq<Pass>, errors: seq<Failure>, total: nat)
    requires Progress(start, rows, account, regions, replies, at, |regions|, done, errors, total)
    ensures Unique(rows) && Reported(start, rows, done, errors, total) && NoCrash(done)
    ensures done == Plan(account, regions, replies, at, |regions|)
  {
  }

  lemma Advance(start: Table, before: Table, rows: Table, account: Account, regions: seq<string>, replies: Replies,
                at: int, r: nat, done: seq<Pass>, errors: seq<Failure>, total: nat,
                more: seq<Pass>, failures: seq<Failure>, count: nat, crashed: bool)
    requires r < |regions| && Progress(start, before, account, regions, replies, at, r, done, errors, total)
    requires Unique(rows) && rows == Run(before, more) && failures == Failures(more) && count == Seen(more)
    requires |more| <= |KINDS| && more == Slice(account, regions, replies, at, r, |more|)
    requires if crashed then StoppedByCrash(more) else NoCrash(more) && |more| == |KINDS|
    ensures Reported(start, rows, done + more, errors + failures, total + count)
    ensures done + more <= Plan(account, regions, replies, at, |regions|)
    ensures if crashed then StoppedByCrash(done + more)
            else Progress(start, rows, account, regions, replies, at, r + 1,
                          done + more, errors + failures, total + count)
  {
    hide Plan, Slice, Run, Failures, Seen, NoCrash, StoppedByCrash, Unique;
    ReportedMore(start, rows, done, more, errors, total, failures, count);
    RegionDone(account, regions, replies, at, r, done, more, crashed);
  }

  /** One more region after r complete ones. */
  lemma RegionDone(account: Account, regions: seq<string>, replies: Replies, at: int, r: nat,
                   done: seq<Pass>, more: seq<Pass>, crashed: bool)
    requires r < |regions| && done == Plan(account, regions, replies, at, r) && NoCrash(done)
    requires |more| <= |KINDS| && more == Slice(account, regions, replies, at, r, |more|)
    requires if crashed then StoppedByCrash(more) else NoCrash(more) && |more| == |KINDS|
    ensures done + more <= Plan(account, regions, replies, at, |regions|)
    ensures if crashed then StoppedByCrash(done + more)
            else NoCrash(done + more) && done + more == Plan(account, regions, replies, at, r + 1)
  {
    hide Plan, Slice, NoCrash, StoppedByCrash;
    PartialPlan(account, regions, replies, at, r, |more|);
    CrashAppended(done, more);
  }

  lemma {:induction false} RunAppended(rows: Table, done: seq<Pass>, more: seq<Pass>)
    ensures Run(rows, done + more) == Run(Run(rows, done), more)
  {
    if more == [] {
      assert done + more == done;
    } else {
      hide Apply;
      var front, last := more[..|more| - 1], more[|more| - 1];
      RunAppended(rows, done, front);
      assert done + more == (done + front) + [last];
      assert (done + more)[..|done + more| - 1] == done + front;
    }
  }

  lemma {:induction false} ReportAppended(done: seq<Pass>, more: seq<Pass>)
    ensures Failures(done + more) == Failures(done) + Failures(more)
    ensures Seen(done + more) == Seen(done) + Seen(more)
  {
    if more == [] {
      assert done + more == done;
    } else {
      ReportAppended(done, more[..|more| - 1]);
      assert (done + more)[..|done + more| - 1] == done + more[..|more| - 1];
    }
  }

  lemma CrashAppended(done: seq<Pass>, more: seq<Pass>)
    requires NoCrash(done)
    ensures NoCrash(more) ==> NoCrash(done + more)
    ensures StoppedByCrash(more) ==> StoppedByCrash(done + more)
  {
  }

  lemma Appended(rows: Table, done: seq<Pass>, p: Pass)
    ensures Run(rows, done + [p]) == Apply(Run(rows, done), p)
    ensures Failures(done + [p]) == Failures(done) + Failures([p])
    ensures Seen(done + [p]) == Seen(done) + Seen([p])
  {
  }

  /** After storing an item, the row that carries its identity is the one at its position. */
  lemma OnlyOneRow(rows: Table, s: Scope, item: Item, at: int)
    requires Unique(rows)
    ensures var rows' := Upserted(rows, s, item, at);
      forall i :: 0 <= i < |rows'| ==>
        (Matches(rows'[i], s, item.externalId) <==> i == Position(rows', s, item.externalId))
  {
  }

  lemma Collected(rows: Table, s: Scope, items: seq<Item>, k: nat, at: int, ids: set<nat>)
    requires Unique(rows) && k < |items| && IdsOf(rows, s, Names(items[..k]), ids)
    ensures var rows' := Upserted(rows, s, items[k], at);
      IdsOf(rows', s, Names(items[..k + 1]), ids + {Position(rows', s, items[k].externalId)})
  {
    hide Unique, Position;
    var rows' := Upserted(rows, s, items[k], at);
    var id := Position(rows', s, items[k].externalId);
    OnlyOneRow(rows, s, items[k], at);
    UpsertedPosition(rows, s, items[k], at, s, items[k].externalId);
    assert items[..k + 1][..k] == items[..k];
    forall i | 0 <= i < |rows'| && rows'[i].scope == s
      ensures i in ids + {id} <==> rows'[i].externalId in Names(items[..k + 1])
    {
      NamesSplit(items[..k + 1], rows'[i].externalId);
    }
  }
}
