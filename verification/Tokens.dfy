/** Accounts and their one-time tokens for email verification and password reset: issued,
    superseded, redeemed. */
module Tokens {
  import opened Common
  import Decimals
  import Usernames

  datatype Kind = Verification | Reset

  /** The two columns that hold a token: its hash and when it expires. */
  datatype Slot = Slot(hash: Option<string>, expires: Option<int>)

  const EMPTY := Slot(None, None)

  datatype User = User(username: string, email: string, verified: bool, password: string, verification: Slot,
                       reset: Slot)

  function SlotOf(u: User, k: Kind): Slot {
    if k.Verification? then u.verification else u.reset
  }

  function WithSlot(u: User, k: Kind, s: Slot): User {
    if k.Verification? then u.(verification := s) else u.(reset := s)
  }

  /** Lifetimes of the two kinds of token and the two one-way functions. */
  datatype Config = Config(lifetime: Kind -> int, hash: string -> string, hashPassword: string -> string)

  ghost predicate OneWay(c: Config) {
    forall s, t :: c.hash(s) == c.hash(t) ==> s == t
  }

  // ----- lookups: the first matching user, or the number of users

  function ByEmail(users: seq<User>, email: string): (p: nat)
    ensures p <= |users| && (p < |users| ==> users[p].email == email)
    ensures forall i :: 0 <= i < p ==> users[i].email != email
  {
    if users == [] then 0
    else
      var p := ByEmail(users[..|users| - 1], email);
      if p < |users| - 1 || users[|users| - 1].email == email then p else |users|
  }

  function ByHash(users: seq<User>, k: Kind, h: string): (p: nat)
    ensures p <= |users| && (p < |users| ==> SlotOf(users[p], k).hash == Some(h))
    ensures forall i :: 0 <= i < p ==> SlotOf(users[i], k).hash != Some(h)
  {
    if users == [] then 0
    else
      var p := ByHash(users[..|users| - 1], k, h);
      if p < |users| - 1 || SlotOf(users[|users| - 1], k).hash == Some(h) then p else |users|
  }

  // ----- names of new accounts

  function TakenNames(users: seq<User>): set<string> {
    set i | 0 <= i < |users| :: users[i].username
  }

  function Room(email: string): nat { Usernames.MAX_LENGTH - |Usernames.Base(email)| }

  /** The name under which an account is created; None when the registration is refused, because
      the address or the chosen name is taken, or when no name is ever found. */
  function NewName(users: seq<User>, chosen: Option<string>, email: string): Option<string> {
    if ByEmail(users, email) < |users| then None
    else if chosen.Some? && chosen.value != "" then
      if chosen.value in TakenNames(users) then None else chosen
    else Usernames.Search(Usernames.Base(email), TakenNames(users), 1, Decimals.Power10(Room(email)))
  }

  lemma {:induction false} SearchIsFree(base: string, taken: set<string>, k: nat, n: nat)
    requires 1 <= k && Usernames.Search(base, taken, k, n).Some?
    ensures Usernames.Search(base, taken, k, n).value !in taken
    decreases n
  {
    if Usernames.Candidate(base, k) in taken { SearchIsFree(base, taken, k + 1, n - 1); }
  }

  lemma {:induction false} SearchIsFirst(base: string, taken: set<string>, k: nat, n: nat, m: nat)
    requires 1 <= k <= m < k + n && Usernames.Candidate(base, m) !in taken
    requires forall j :: k <= j < m ==> Usernames.Candidate(base, j) in taken
    ensures Usernames.Search(base, taken, k, n) == Some(Usernames.Candidate(base, m))
    decreases n
  {
    if k < m { SearchIsFirst(base, taken, k + 1, n - 1, m); }
  }

  /** The first free name is always within reach of the search. */
  lemma FirstFreeIsFound(base: string, taken: set<string>, m: nat)
    requires Usernames.WellFormed(base) && 1 <= m && Usernames.Candidate(base, m) !in taken
    requires forall j :: 1 <= j < m ==> Usernames.Candidate(base, j) in taken
    ensures Usernames.Search(base, taken, 1, Decimals.Power10(Usernames.MAX_LENGTH - |base|)) ==
            Some(Usernames.Candidate(base, m))
  {
    hide Usernames.Candidate;
    var j := Usernames.CandidatesRepeat(base, m);
    SearchIsFirst(base, taken, 1, Decimals.Power10(Usernames.MAX_LENGTH - |base|), m);
  }

  // ----- events

  datatype Event =
    | Registered(chosen: Option<string>, email: string, password: string, token: string, now: int)
    | Requested(kind: Kind, email: string, token: string, now: int)
    | Redeemed(kind: Kind, token: string, password: string, now: int)

  function Issued(c: Config, k: Kind, token: string, now: int): Slot {
    Slot(Some(c.hash(token)), Some(now + c.lifetime(k)))
  }

  /** Whom an event gives a token of a kind, if anyone: a new account its verification token, a
      request the account with the address - unless it asks to verify a verified one. */
  function GivenTo(users: seq<User>, e: Event, k: Kind): Option<nat> {
    match e
    case Registered(chosen, email, _, _, _) =>
      if k.Verification? && NewName(users, chosen, email).Some? then Some(|users|) else None
    case Requested(kind, email, _, _) =>
      var p := ByEmail(users, email);
      if kind == k && p < |users| && (k.Reset? || !users[p].verified) then Some(p) else None
    case Redeemed(_, _, _, _) => None
  }

  predicate Accepts(users: seq<User>, c: Config, k: Kind, token: string, now: int) {
    var p := ByHash(users, k, c.hash(token));
    p < |users| && SlotOf(users[p], k).expires.Some? && !(SlotOf(users[p], k).expires.value < now)
  }

  /** What redeeming does to the account: its token is gone, and it is verified or has the new password. */
  function Used(c: Config, u: User, k: Kind, password: string): User {
    if k.Verification? then u.(verified := true, verification := EMPTY)
    else u.(password := c.hashPassword(password), reset := EMPTY)
  }

  /** The first of the names derived from a base that nobody has. */
  ghost predicate FirstFree(base: string, taken: set<string>, name: string) {
    exists k :: k >= 1 && name == Usernames.Candidate(base, k) && name !in taken &&
                forall j :: 1 <= j < k ==> Usernames.Candidate(base, j) in taken
  }

  /** A new account: unverified, under the chosen name or the first free one derived from the address,
      with a verification token. */
  ghost predicate OpenedFor(u: User, c: Config, chosen: Option<string>, email: string, password: string,
                            token: string, taken: set<string>, now: int)
  {
    (if chosen.Some? && chosen.value != "" then u.username == chosen.value
     else FirstFree(Usernames.Base(email), taken, u.username)) &&
    u.username !in taken && u.email == email && !u.verified &&
    u.password == c.hashPassword(password) && u.reset == Slot(None, None) &&
    u.verification == Slot(Some(c.hash(token)), Some(now + c.lifetime(Verification)))
  }

  /** Account number p has used its token, which is gone: it is verified, or has the new password;
      nothing else has changed. */
  ghost predicate OnlyRedeemed(before: seq<User>, after: seq<User>, c: Config, k: Kind, p: nat, password: string) {
    |after| == |before| && p < |before| && (forall i :: 0 <= i < |before| && i != p ==> after[i] == before[i]) &&
    SlotOf(after[p], k) == Slot(None, None) &&
    match k
    case Verification => after[p] == before[p].(verified := true, verification := after[p].verification)
    case Reset => after[p] == before[p].(password := c.hashPassword(password), reset := after[p].reset)
  }

  function Apply(users: seq<User>, c: Config, e: Event): seq<User> {
    match e
    case Registered(chosen, email, password, token, now) =>
      var name := NewName(users, chosen, email);
      if name.None? then users
      else users + [User(name.value, email, false, c.hashPassword(password), Issued(c, Verification, token, now),
                         EMPTY)]
    case Requested(k, _, token, now) =>
      var given := GivenTo(users, e, k);
      if given.None? then users else users[given.value := WithSlot(users[given.value], k, Issued(c, k, token, now))]
    case Redeemed(k, token, password, now) =>
      if !Accepts(users, c, k, token, now) then users
      else
        var p := ByHash(users, k, c.hash(token));
        users[p := Used(c, users[p], k, password)]
  }

  function Run(c: Config, es: seq<Event>, n: nat): seq<User>
    requires n <= |es|
  {
    if n == 0 then [] else Apply(Run(c, es, n - 1), c, es[n - 1])
  }

  class Accounts {
    var users: seq<User>

    constructor ()
      ensures users == []
    {
      users := [];
    }

    method FindByHash(k: Kind, h: string) returns (p: nat)
      ensures p == ByHash(users, k, h)
    {
      p := 0;
      while p < |users| && SlotOf(users[p], k).hash != Some(h)
        invariant p <= |users| && forall i :: 0 <= i < p ==> SlotOf(users[i], k).hash != Some(h)
      {
        p := p + 1;
      }
    }

    method FindByEmail(email: string) returns (p: nat)
      ensures p == ByEmail(users, email)
    {
      p := 0;
      while p < |users| && users[p].email != email
        invariant p <= |users| && forall i :: 0 <= i < p ==> users[i].email != email
      {
        p := p + 1;
      }
    }

    method FindByName(name: string) returns (p: nat)
      ensures p <= |users| && (p == |users| <==> name !in TakenNames(users))
    {
      p := 0;
      while p < |users| && users[p].username != name
        invariant p <= |users| && forall i :: 0 <= i < p ==> users[i].username != name
      {
        p := p + 1;
      }
    }

    method DeriveName(email: string) returns (name: string)
      requires exists n: nat :: Usernames.FreeWithin(Usernames.Base(email), TakenNames(users), n)
      ensures FirstFree(Usernames.Base(email), TakenNames(users), name)
      ensures Some(name) ==
        Usernames.Search(Usernames.Base(email), TakenNames(users), 1, Decimals.Power10(Room(email)))
    {
      hide Usernames.Candidate, Usernames.Search, Decimals.Power10;
      ghost var checks;
      name, checks := Usernames.Generate(email, TakenNames(users));
      FirstFreeIsFound(Usernames.Base(email), TakenNames(users), checks);
    }

    /** A new account under the chosen name or one derived from the address; refused when the
        address or the chosen name is taken. Deriving a name needs a free one to exist. */
    method Register(c: Config, chosen: Option<string>, email: string, password: string, token: string, now: int)
      returns (ok: bool)
      requires (chosen.None? || chosen.value == "") && ByEmail(users, email) == |users| ==>
        exists n: nat :: Usernames.FreeWithin(Usernames.Base(email), TakenNames(users), n)
      modifies this
      ensures users == Apply(old(users), c, Registered(chosen, email, password, token, now))
      ensures ok <==> (forall i :: 0 <= i < |old(users)| ==> old(users)[i].email != email) &&
                      (chosen.None? || chosen.value == "" || chosen.value !in TakenNames(old(users)))
      ensures !ok ==> users == old(users)
      ensures ok ==> |users| == |old(users)| + 1 && users[..|old(users)|] == old(users) &&
                     OpenedFor(users[|old(users)|], c, chosen, email, password, token, TakenNames(old(users)), now)
    {
      hide Usernames.Search, Usernames.FreeWithin, Usernames.Base, Usernames.WellFormed;
      hide Decimals.Power10, TakenNames, ByEmail;
      var name := "";
      var p := FindByEmail(email);
      if chosen.Some? && chosen.value != "" {
        var q := FindByName(chosen.value);
        if p < |users| || q < |users| { return false; }
        name := chosen.value;
      } else {
        if p < |users| { return false; }
        name := DeriveName(email);
      }
      users := users + [User(name, email, false, c.hashPassword(password),
                             Slot(Some(c.hash(token)), Some(now + c.lifetime(Verification))), EMPTY)];
      ok := true;
    }

    /** Asking for a new verification or reset link. */
    method Request(c: Config, k: Kind, email: string, token: string, now: int)
      modifies this
      ensures |users| == |old(users)|
      ensures forall p :: 0 <= p < |users| ==>
        if p == ByEmail(old(users), email) && !(k.Verification? && old(users)[p].verified) then
          SlotOf(users[p], k) == Slot(Some(c.hash(token)), Some(now + c.lifetime(k))) &&
          users[p] == WithSlot(old(users)[p], k, SlotOf(users[p], k))
        else users[p] == old(users)[p]
      ensures users == Apply(old(users), c, Requested(k, email, token, now))
    {
      var p := FindByEmail(email);
      if p == |users| || (k.Verification? && users[p].verified) { return; }
      var slot := Slot(Some(c.hash(token)), Some(now + c.lifetime(k)));
      users := users[p := if k.Verification? then users[p].(verification := slot) else users[p].(reset := slot)];
    }

    /** Following a link. */
    method Redeem(c: Config, k: Kind, token: string, password: string, now: int) returns (ok: bool)
      modifies this
      ensures users == Apply(old(users), c, Redeemed(k, token, password, now))
      ensures ok <==> Accepts(old(users), c, k, token, now)
      ensures !ok ==> users == old(users)
      ensures ok ==> exists p :: 0 <= p < |users| && SlotOf(old(users)[p], k).hash == Some(c.hash(token)) &&
                                 OnlyRedeemed(old(users), users, c, k, p, password)
    {
      var p := FindByHash(k, c.hash(token));
      if p == |users| || SlotOf(users[p], k).expires.None? { return false; }
      if SlotOf(users[p], k).expires.value < now { return false; }
      users := users[p := if k.Verification? then users[p].(verified := true, verification := EMPTY)
                          else users[p].(password := c.hashPassword(password), reset := EMPTY)];
      ok := true;
    }
  }

  // ----- the fate of one token

  datatype Fate = Unissued | Live(user: nat, expires: int) | Superseded | Spent

  /** What one event does to a token's fate: it is issued, replaced by a newer token of the same
      account, or redeemed in time. */
  function Next(f: Fate, users: seq<User>, c: Config, e: Event, k: Kind, token: string): Fate {
    var given := GivenTo(users, e, k);
    if given.Some? then
      if e.token == token then Live(given.value, e.now + c.lifetime(k))
      else if f.Live? && f.user == given.value then Superseded
      else f
    else if e.Redeemed? && e.kind == k && e.token == token && f.Live? && e.now <= f.expires then Spent
    else f
  }

  function FateOf(c: Config, es: seq<Event>, n: nat, k: Kind, token: string): Fate
    requires n <= |es|
  {
    if n == 0 then Unissued
    else Next(FateOf(c, es, n - 1, k, token), Run(c, es, n - 1), c, es[n - 1], k, token)
  }

  ghost predicate Holds(users: seq<User>, c: Config, k: Kind, token: string, f: Fate) {
    (f.Live? ==> f.user < |users| && SlotOf(users[f.user], k) == Slot(Some(c.hash(token)), Some(f.expires))) &&
    (forall i :: 0 <= i < |users| && SlotOf(users[i], k).hash == Some(c.hash(token)) ==> f.Live? && i == f.user)
  }

  lemma StepHolds(users: seq<User>, c: Config, e: Event, k: Kind, token: string, f: Fate)
    requires OneWay(c) && Holds(users, c, k, token, f)
    requires !e.Redeemed? && e.token == token ==> !f.Live?
    ensures Holds(Apply(users, c, e), c, k, token, Next(f, users, c, e, k, token))
  {
    hide NewName, ByEmail;
    if e.token != token { assert c.hash(e.token) != c.hash(token); }
    if e.Redeemed? { RedeemHolds(users, c, e, k, token, f); }
  }

  lemma RedeemHolds(users: seq<User>, c: Config, e: Event, k: Kind, token: string, f: Fate)
    requires OneWay(c) && Holds(users, c, k, token, f) && e.Redeemed?
    ensures Holds(Apply(users, c, e), c, k, token, Next(f, users, c, e, k, token))
  {
    hide NewName, ByEmail, ByHash;
    if e.token != token { assert c.hash(e.token) != c.hash(token); }
  }

  /** Tokens are drawn at random: no two issuing events use the same one. */
  ghost predicate AllDifferent(es: seq<Event>) {
    forall i, j :: 0 <= i < j < |es| && !es[i].Redeemed? && !es[j].Redeemed? ==> es[i].token != es[j].token
  }

  lemma {:induction false} NeverIssuedYet(c: Config, es: seq<Event>, n: nat, k: Kind, token: string)
    requires n <= |es| && forall i :: 0 <= i < n && !es[i].Redeemed? ==> es[i].token != token
    ensures FateOf(c, es, n, k, token).Unissued?
  {
    hide NewName, Run;
    if n > 0 { NeverIssuedYet(c, es, n - 1, k, token); }
  }

  lemma FreshWhenIssued(c: Config, es: seq<Event>, n: nat, k: Kind, token: string)
    requires AllDifferent(es) && 0 < n <= |es|
    ensures !es[n - 1].Redeemed? && es[n - 1].token == token ==> FateOf(c, es, n - 1, k, token).Unissued?
  {
    hide FateOf;
    if !es[n - 1].Redeemed? && es[n - 1].token == token { NeverIssuedYet(c, es, n - 1, k, token); }
  }

  lemma {:induction false} RunHolds(c: Config, es: seq<Event>, n: nat, k: Kind, token: string)
    requires OneWay(c) && AllDifferent(es) && n <= |es|
    ensures Holds(Run(c, es, n), c, k, token, FateOf(c, es, n, k, token))
  {
    if n > 0 {
      hide Apply, Next, Holds, OneWay, AllDifferent;
      RunHolds(c, es, n - 1, k, token);
      FreshWhenIssued(c, es, n, k, token);
      StepHolds(Run(c, es, n - 1), c, es[n - 1], k, token, FateOf(c, es, n - 1, k, token));
    }
  }

  /** A link works if and only if its token is the latest one its account was given of that kind,
      has not been used, and has not expired. */
  lemma RedeemedIffLive(c: Config, es: seq<Event>, n: nat, k: Kind, token: string, now: int)
    requires OneWay(c) && AllDifferent(es) && n <= |es|
    ensures Accepts(Run(c, es, n), c, k, token, now) <==>
      FateOf(c, es, n, k, token).Live? && now <= FateOf(c, es, n, k, token).expires
  {
    hide Run, FateOf;
    RunHolds(c, es, n, k, token);
  }

  /** A token that was used or replaced stays so. */
  lemma {:induction false} DeadStaysDead(c: Config, es: seq<Event>, m: nat, n: nat, k: Kind, token: string)
    requires AllDifferent(es) && m <= n <= |es|
    requires FateOf(c, es, m, k, token).Spent? || FateOf(c, es, m, k, token).Superseded?
    ensures FateOf(c, es, n, k, token) == FateOf(c, es, m, k, token)
  {
    hide Run, FateOf, AllDifferent;
    if m < n {
      DeadStaysDead(c, es, m, n - 1, k, token);
      DeadStep(c, es, n, k, token);
    }
  }

  lemma DeadStep(c: Config, es: seq<Event>, n: nat, k: Kind, token: string)
    requires AllDifferent(es) && 0 < n <= |es|
    requires FateOf(c, es, n - 1, k, token).Spent? || FateOf(c, es, n - 1, k, token).Superseded?
    ensures FateOf(c, es, n, k, token) == FateOf(c, es, n - 1, k, token)
  {
    FreshWhenIssued(c, es, n, k, token);
  }

  /** Single use: over any run, no token of a kind is accepted twice. */
  lemma AcceptedOnce(c: Config, es: seq<Event>, i: nat, j: nat)
    requires OneWay(c) && AllDifferent(es) && i < j < |es|
    requires es[i].Redeemed? && es[j].Redeemed? && es[i].kind == es[j].kind && es[i].token == es[j].token
    requires Accepts(Run(c, es, i), c, es[i].kind, es[i].token, es[i].now)
    ensures !Accepts(Run(c, es, j), c, es[j].kind, es[j].token, es[j].now)
  {
    hide Run, OneWay, Accepts;
    var k, token := es[i].kind, es[i].token;
    RedeemedIffLive(c, es, i, k, token, es[i].now);
    RedeemedIffLive(c, es, j, k, token, es[j].now);
    assert FateOf(c, es, i + 1, k, token).Spent?;
    DeadStaysDead(c, es, i + 1, j, k, token);
  }

  /** Redeeming a live token in time verifies the account it was issued to, or sets its password,
      and changes nothing else; any other attempt changes nothing at all. */
  lemma OnlyTheHolderChanges(c: Config, es: seq<Event>, n: nat, k: Kind, token: string, password: string, now: int)
    requires OneWay(c) && AllDifferent(es) && n <= |es|
    ensures var users := Run(c, es, n);
      var after := Apply(users, c, Redeemed(k, token, password, now));
      var f := FateOf(c, es, n, k, token);
      if f.Live? && now <= f.expires then OnlyRedeemed(users, after, c, k, f.user, password) else after == users
  {
    hide Run, FateOf;
    RunHolds(c, es, n, k, token);
  }

  // ----- accounts stay distinguishable

  ghost predicate AllDistinct(users: seq<User>) {
    forall i, j :: 0 <= i < j < |users| ==> users[i].email != users[j].email && users[i].username != users[j].username
  }

  lemma NewNameIsFree(users: seq<User>, chosen: Option<string>, email: string)
    requires NewName(users, chosen, email).Some?
    ensures NewName(users, chosen, email).value !in TakenNames(users)
    ensures forall i :: 0 <= i < |users| ==> users[i].email != email
  {
    if chosen.None? || chosen.value == "" {
      SearchIsFree(Usernames.Base(email), TakenNames(users), 1, Decimals.Power10(Room(email)));
    }
  }

  lemma StepKeepsDistinct(users: seq<User>, c: Config, e: Event)
    requires AllDistinct(users)
    ensures AllDistinct(Apply(users, c, e))
  {
    if e.Registered? && NewName(users, e.chosen, e.email).Some? {
      hide NewName;
      NewNameIsFree(users, e.chosen, e.email);
      forall i | 0 <= i < |users| ensures users[i].username != NewName(users, e.chosen, e.email).value {
        assert users[i].username in TakenNames(users);
      }
    }
  }

  /** Over any run no two accounts share an address or a username, so both find one account. */
  lemma {:induction false} AccountsStayDistinct(c: Config, es: seq<Event>, n: nat)
    requires n <= |es|
    ensures AllDistinct(Run(c, es, n))
  {
    if n > 0 {
      hide Apply, AllDistinct;
      AccountsStayDistinct(c, es, n - 1);
      StepKeepsDistinct(Run(c, es, n - 1), c, es[n - 1]);
    }
  }
}
