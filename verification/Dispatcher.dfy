/** Notification fan-out: one dashboard entry per recipient, plus whatever out-of-band
    channels each recipient wants, posting to a shared destination only once per alert. */
module Dispatcher {
  import opened Common
  import opened AlertTypes

  // ----- the do-not-disturb window, in microseconds of the local day

  const DAY: int := 86_400_000_000

  type TimeOfDay = t: nat | t < DAY

  predicate InQuietWindow(start: Option<TimeOfDay>, end: Option<TimeOfDay>, t: TimeOfDay) {
    if start.None? || end.None? then false
    else if start.value <= end.value then start.value <= t < end.value
    else t >= start.value || t < end.value
  }

  /** The two branches describe one circular interval: the time since the window opened,
      around the clock, is less than the window's length. Equal ends are an empty window. */
  lemma QuietWindowIsCircular(start: TimeOfDay, end: TimeOfDay, t: TimeOfDay)
    ensures InQuietWindow(Some(start), Some(end), t) <==> (t - start) % DAY < (end - start) % DAY
    ensures start == end ==> !InQuietWindow(Some(start), Some(end), t)
  {
  }

  // ----- recipients, channels, rows

  /** Missing and blank credentials are both the empty string. */
  datatype Credentials = Credentials(telegramToken: string, telegramChat: string, slackWebhook: string,
                                     teamsWebhook: string)

  /** One user's notification settings. */
  datatype Setting = Setting(
    emailEnabled: bool, smsEnabled: bool, telegramEnabled: bool, slackEnabled: bool, teamsEnabled: bool,
    instantAlerts: bool, quietStart: Option<TimeOfDay>, quietEnd: Option<TimeOfDay>,
    preferences: Stored, credentials: Credentials)

  datatype Recipient = Recipient(userId: nat, setting: Setting, localTime: TimeOfDay)

  datatype Channel = Dashboard | Email | Sms | Telegram | Slack | Teams

  datatype Notification = Notification(userId: nat, alertId: nat, channel: Channel)

  /** A post to a destination that several recipients may share. */
  datatype Post = TelegramPost(token: string, chat: string) | SlackPost(webhook: string) | TeamsPost(webhook: string)

  /** What the outside world answers while one alert is being sent. */
  datatype Outcomes = Outcomes(email: nat -> bool, post: Post -> bool)

  /** Whether anything beyond the dashboard entry is attempted for a recipient. */
  predicate Reachable(r: Recipient, about: AlertType) {
    r.setting.instantAlerts &&
    !InQuietWindow(r.setting.quietStart, r.setting.quietEnd, r.localTime) &&
    Wants(r.setting.preferences, about)
  }

  function TelegramOf(r: Recipient): Post {
    TelegramPost(r.setting.credentials.telegramToken, r.setting.credentials.telegramChat)
  }
  function SlackOf(r: Recipient): Post { SlackPost(r.setting.credentials.slackWebhook) }
  function TeamsOf(r: Recipient): Post { TeamsPost(r.setting.credentials.teamsWebhook) }

  function If<T>(c: bool, x: T): seq<T> { if c then [x] else [] }

  predicate HasTeams(r: Recipient) { r.setting.teamsEnabled && r.setting.credentials.teamsWebhook != "" }

  /** Shared-destination posts one reachable recipient would make on their own, in channel order. */
  function ChannelPosts(r: Recipient): seq<Post> {
    If(r.setting.telegramEnabled, TelegramOf(r)) + If(r.setting.slackEnabled, SlackOf(r)) + If(HasTeams(r), TeamsOf(r))
  }

  function PostsOf(r: Recipient, about: AlertType): seq<Post> {
    if Reachable(r, about) then ChannelPosts(r) else []
  }

  /** Out-of-band rows of one reachable recipient: SMS is recorded even when it fails, the
      other channels only on success. */
  function ChannelRows(r: Recipient, id: nat, o: Outcomes): seq<Notification> {
    If(r.setting.emailEnabled && o.email(r.userId), Notification(r.userId, id, Email)) +
    If(r.setting.smsEnabled, Notification(r.userId, id, Sms)) +
    If(r.setting.telegramEnabled && o.post(TelegramOf(r)), Notification(r.userId, id, Telegram)) +
    If(r.setting.slackEnabled && o.post(SlackOf(r)), Notification(r.userId, id, Slack)) +
    If(HasTeams(r) && o.post(TeamsOf(r)), Notification(r.userId, id, Teams))
  }

  /** Rows one recipient would get if every send were made for that recipient alone. */
  function RowsOf(r: Recipient, id: nat, about: AlertType, o: Outcomes): seq<Notification> {
    [Notification(r.userId, id, Dashboard)] + if Reachable(r, about) then ChannelRows(r, id, o) else []
  }

  /** Sending recipient by recipient, with no memory of what was already posted. */
  function NaiveRows(rs: seq<Recipient>, id: nat, about: AlertType, o: Outcomes): seq<Notification> {
    if rs == [] then [] else NaiveRows(rs[..|rs| - 1], id, about, o) + RowsOf(rs[|rs| - 1], id, about, o)
  }

  function NaivePosts(rs: seq<Recipient>, about: AlertType): seq<Post> {
    if rs == [] then [] else NaivePosts(rs[..|rs| - 1], about) + PostsOf(rs[|rs| - 1], about)
  }

  /** First occurrences only. */
  function Once(ps: seq<Post>): (r: seq<Post>)
    ensures Distinct(r)
    ensures forall p :: p in r <==> p in ps
  {
    if ps == [] then []
    else
      var before := Once(ps[..|ps| - 1]);
      var last := ps[|ps| - 1];
      assert ps == ps[..|ps| - 1] + [last];
      if last in before then before else before + [last]
  }

  // ----- who is sent what, said of the settings and the outcomes alone

  /** The do-not-disturb window is open: less time has passed since it opened than it lasts. */
  predicate Quiet(s: Setting, t: TimeOfDay) {
    s.quietStart.Some? && s.quietEnd.Some? &&
    (t - s.quietStart.value) % DAY < (s.quietEnd.value - s.quietStart.value) % DAY
  }

  /** The user wants to be told at this moment, and about this type of alert. */
  predicate Disturbable(r: Recipient, about: AlertType) {
    r.setting.instantAlerts && !Quiet(r.setting, r.localTime) && !SwitchedOff(r.setting.preferences, about)
  }

  /** An enabled channel leaves an entry when the message got through; SMS does so in any case. */
  predicate Delivers(r: Recipient, channel: Channel, o: Outcomes) {
    var s, c := r.setting, r.setting.credentials;
    match channel
    case Dashboard => false
    case Email => s.emailEnabled && o.email(r.userId)
    case Sms => s.smsEnabled
    case Telegram => s.telegramEnabled && o.post(TelegramPost(c.telegramToken, c.telegramChat))
    case Slack => s.slackEnabled && o.post(SlackPost(c.slackWebhook))
    case Teams => s.teamsEnabled && c.teamsWebhook != "" && o.post(TeamsPost(c.teamsWebhook))
  }

  /** The dashboard entry is for everybody, the others for those who want to be told. */
  predicate Gets(r: Recipient, about: AlertType, channel: Channel, o: Outcomes) {
    channel.Dashboard? || (Disturbable(r, about) && Delivers(r, channel, o))
  }

  /** A recipient is the reason for a post to a shared destination. */
  predicate AsksFor(r: Recipient, about: AlertType, p: Post) {
    var s, c := r.setting, r.setting.credentials;
    Disturbable(r, about) &&
    match p
    case TelegramPost(token, chat) => s.telegramEnabled && token == c.telegramToken && chat == c.telegramChat
    case SlackPost(webhook) => s.slackEnabled && webhook == c.slackWebhook
    case TeamsPost(webhook) => s.teamsEnabled && webhook == c.teamsWebhook && webhook != ""
  }

  /** The rows of one alert: every recipient has exactly the entries they get, each once, and nobody
      else has any. */
  ghost predicate FannedOut(rows: seq<Notification>, rs: seq<Recipient>, id: nat, about: AlertType, o: Outcomes) {
    Distinct(rows) &&
    (forall n :: n in rows ==> n.alertId == id && exists i :: 0 <= i < |rs| && rs[i].userId == n.userId) &&
    (forall i, c {:trigger Gets(rs[i], about, c, o)} :: 0 <= i < |rs| ==>
      (Notification(rs[i].userId, id, c) in rows <==> Gets(rs[i], about, c, o)))
  }

  lemma ReachableIsDisturbable(r: Recipient, about: AlertType)
    ensures Reachable(r, about) <==> Disturbable(r, about)
  {
    hide Wants, SwitchedOff;
    SilencedOnlyExplicitly(r.setting.preferences, about);
    if r.setting.quietStart.Some? && r.setting.quietEnd.Some? {
      QuietWindowIsCircular(r.setting.quietStart.value, r.setting.quietEnd.value, r.localTime);
    }
  }

  lemma DistinctConcat<T>(a: seq<T>, b: seq<T>)
    requires Distinct(a) && Distinct(b) && forall x :: x in a ==> x !in b
    ensures Distinct(a + b)
  {
    forall i, j | 0 <= i < j < |a + b| ensures (a + b)[i] != (a + b)[j] {
      if i < |a| <= j { assert a[i] in a && b[j - |a|] in b; }
    }
  }

  lemma ChannelRowsMean(r: Recipient, id: nat, o: Outcomes)
    ensures forall n :: n in ChannelRows(r, id, o) <==>
      n.userId == r.userId && n.alertId == id && Delivers(r, n.channel, o)
  {
    forall n ensures n in ChannelRows(r, id, o) <==>
                     n.userId == r.userId && n.alertId == id && Delivers(r, n.channel, o)
    {
      ChannelRowMeans(r, id, o, n);
    }
  }

  lemma ChannelRowMeans(r: Recipient, id: nat, o: Outcomes, n: Notification)
    ensures n in ChannelRows(r, id, o) <==> n.userId == r.userId && n.alertId == id && Delivers(r, n.channel, o)
  {
    hide If;
    var s, u := r.setting, r.userId;
    IfHas(s.emailEnabled && o.email(u), Notification(u, id, Email), n);
    IfHas(s.smsEnabled, Notification(u, id, Sms), n);
    IfHas(s.telegramEnabled && o.post(TelegramOf(r)), Notification(u, id, Telegram), n);
    IfHas(s.slackEnabled && o.post(SlackOf(r)), Notification(u, id, Slack), n);
    IfHas(HasTeams(r) && o.post(TeamsOf(r)), Notification(u, id, Teams), n);
  }

  lemma IfHas(c: bool, x: Notification, n: Notification)
    ensures n in If(c, x) <==> c && n == x
  {
  }

  lemma ChannelsDistinct(r: Recipient, id: nat, o: Outcomes)
    ensures Distinct(ChannelRows(r, id, o))
  {
    var s, u := r.setting, r.userId;
    var email := If(s.emailEnabled && o.email(u), Notification(u, id, Email));
    var sms := If(s.smsEnabled, Notification(u, id, Sms));
    var telegram := If(s.telegramEnabled && o.post(TelegramOf(r)), Notification(u, id, Telegram));
    var slack := If(s.slackEnabled && o.post(SlackOf(r)), Notification(u, id, Slack));
    var teams := If(HasTeams(r) && o.post(TeamsOf(r)), Notification(u, id, Teams));
    DistinctConcat(email, sms);
    DistinctConcat(email + sms, telegram);
    DistinctConcat(email + sms + telegram, slack);
    DistinctConcat(email + sms + telegram + slack, teams);
  }

  lemma RowsOfMean(r: Recipient, id: nat, about: AlertType, o: Outcomes)
    ensures forall n :: n in RowsOf(r, id, about, o) <==>
      n.userId == r.userId && n.alertId == id && Gets(r, about, n.channel, o)
    ensures Distinct(RowsOf(r, id, about, o))
  {
    hide Reachable, Disturbable, ChannelRows, Delivers, Distinct;
    ReachableIsDisturbable(r, about);
    ChannelRowsMean(r, id, o);
    ChannelsDistinct(r, id, o);
    OneIsDistinct(Notification(r.userId, id, Dashboard));
    DashboardIsNoChannel(r, o);
    DistinctConcat([Notification(r.userId, id, Dashboard)], ChannelRows(r, id, o));
  }

  lemma DashboardIsNoChannel(r: Recipient, o: Outcomes)
    ensures !Delivers(r, Dashboard, o)
  {
  }

  lemma OneIsDistinct<T>(x: T)
    ensures Distinct([x]) && [x] + [] == [x]
  {
  }

  lemma PostsOfMean(r: Recipient, about: AlertType)
    ensures forall p :: p in PostsOf(r, about) <==> AsksFor(r, about, p)
  {
    hide Reachable, Disturbable;
    ReachableIsDisturbable(r, about);
  }

  lemma {:induction false} RowsMean(rs: seq<Recipient>, id: nat, about: AlertType, o: Outcomes)
    requires DistinctUsers(rs)
    ensures FannedOut(NaiveRows(rs, id, about, o), rs, id, about, o)
  {
    hide RowsOf, Gets, FannedOut, Distinct;
    if rs == [] {
      NobodyFannedOut(id, about, o);
    } else {
      var n := |rs| - 1;
      RowsMean(rs[..n], id, about, o);
      RowsOfMean(rs[n], id, about, o);
      assert rs == rs[..n] + [rs[n]];
      OneMoreFannedOut(NaiveRows(rs[..n], id, about, o), rs[..n], rs[n], RowsOf(rs[n], id, about, o), id, about, o);
    }
  }

  lemma NobodyFannedOut(id: nat, about: AlertType, o: Outcomes)
    ensures FannedOut([], [], id, about, o)
  {
  }

  lemma OneMoreFannedOut(rows: seq<Notification>, rs: seq<Recipient>, r: Recipient, mine: seq<Notification>, id: nat,
                         about: AlertType, o: Outcomes)
    requires FannedOut(rows, rs, id, about, o) && forall i :: 0 <= i < |rs| ==> rs[i].userId != r.userId
    requires Distinct(mine)
    requires forall n :: n in mine <==> n.userId == r.userId && n.alertId == id && Gets(r, about, n.channel, o)
    ensures FannedOut(rows + mine, rs + [r], id, about, o)
  {
    hide Gets, Distinct;
    var rs' := rs + [r];
    DistinctConcat(rows, mine);
    forall n | n in rows + mine ensures exists i :: 0 <= i < |rs'| && rs'[i].userId == n.userId {
      if n in rows {
        var i :| 0 <= i < |rs| && rs[i].userId == n.userId;
        assert rs'[i].userId == n.userId;
      } else {
        assert rs'[|rs|].userId == n.userId;
      }
    }
  }

  // ----- the memoised loop

  /** Posts through the memo: a destination already tried keeps its first outcome. */
  method PostOnce(post: Post, memo: map<Post, bool>, sent: seq<Post>, o: Outcomes)
    returns (ok: bool, memo': map<Post, bool>, sent': seq<Post>)
    requires Agrees(memo, sent, o)
    ensures ok == o.post(post)
    ensures Agrees(memo', sent', o)
    ensures sent' == if post in sent then sent else sent + [post]
  {
    memo', sent' := memo, sent;
    if post !in memo' {
      ok := o.post(post);
      sent' := sent' + [post];
      memo' := memo'[post := ok];
    }
    ok := memo'[post];
  }

  /** The memo holds the outcome of exactly the posts made so far. */
  ghost predicate Agrees(memo: map<Post, bool>, sent: seq<Post>, o: Outcomes) {
    (forall p :: p in memo <==> p in sent) && (forall p :: p in memo ==> memo[p] == o.post(p))
  }

  /** The dispatch loop: the rows added are those of naive per-recipient sending, while each
      shared destination is posted to once, in order of first need. */
  method Dispatch(rs: seq<Recipient>, id: nat, about: AlertType, o: Outcomes)
    returns (rows: seq<Notification>, created: nat, sent: seq<Post>)
    ensures DistinctUsers(rs) ==> FannedOut(rows, rs, id, about, o)
    ensures Distinct(sent) && forall p :: p in sent <==> exists i :: 0 <= i < |rs| && AsksFor(rs[i], about, p)
    ensures rows == NaiveRows(rs, id, about, o)
    ensures created == |rows|
    ensures sent == Once(NaivePosts(rs, about))
  {
    rows, created, sent := [], 0, [];
    var memo: map<Post, bool> := map[];
    for i := 0 to |rs|
      invariant rows == NaiveRows(rs[..i], id, about, o)
      invariant created == |rows|
      invariant Agrees(memo, sent, o)
      invariant sent == Once(NaivePosts(rs[..i], about))
    {
      assert rs[..i + 1][..i] == rs[..i] && rs[..i + 1][i] == rs[i];
      var mine;
      ghost var posts;
      mine, memo, sent, posts := DispatchTo(rs[i], id, about, o, memo, sent, NaivePosts(rs[..i], about));
      rows := rows + mine;
      created := created + |mine|;
    }
    assert rs[..|rs|] == rs;
    if DistinctUsers(rs) { RowsMean(rs, id, about, o); }
    forall p ensures p in sent <==> exists i :: 0 <= i < |rs| && AsksFor(rs[i], about, p) {
      PostsWanted(rs, about, p);
    }
  }

  lemma OnceStep(wanted: seq<Post>, post: Post)
    ensures Once(wanted + [post]) == if post in Once(wanted) then Once(wanted) else Once(wanted) + [post]
  {
  }

  /** One shared channel of one recipient; wanted is every post asked for so far. */
  method Share(enabled: bool, post: Post, row: Notification, o: Outcomes,
               memo: map<Post, bool>, sent: seq<Post>, ghost wanted: seq<Post>)
    returns (rows: seq<Notification>, memo': map<Post, bool>, sent': seq<Post>, ghost wanted': seq<Post>)
    requires Agrees(memo, sent, o) && sent == Once(wanted)
    ensures Agrees(memo', sent', o) && sent' == Once(wanted')
    ensures rows == If(enabled && o.post(post), row)
    ensures wanted' == wanted + If(enabled, post)
  {
    rows, memo', sent', wanted' := [], memo, sent, wanted;
    if enabled {
      OnceStep(wanted, post);
      var ok;
      ok, memo', sent' := PostOnce(post, memo, sent, o);
      wanted' := wanted + [post];
      if ok { rows := [row]; }
    }
  }

  method SendChannels(r: Recipient, id: nat, o: Outcomes,
                      memo: map<Post, bool>, sent: seq<Post>, ghost wanted: seq<Post>)
    returns (rows: seq<Notification>, memo': map<Post, bool>, sent': seq<Post>, ghost wanted': seq<Post>)
    requires Agrees(memo, sent, o) && sent == Once(wanted)
    ensures Agrees(memo', sent', o) && sent' == Once(wanted')
    ensures rows == ChannelRows(r, id, o)
    ensures wanted' == wanted + ChannelPosts(r)
  {
    hide Once, Agrees, HasTeams, TelegramOf, SlackOf, TeamsOf;
    var email, sms := [], [];
    if r.setting.emailEnabled && o.email(r.userId) {
      email := [Notification(r.userId, id, Email)];
    }
    if r.setting.smsEnabled {
      sms := [Notification(r.userId, id, Sms)];
    }
    var telegram, slack, teams;
    telegram, memo', sent', wanted' :=
      Share(r.setting.telegramEnabled, TelegramOf(r), Notification(r.userId, id, Telegram), o, memo, sent, wanted);
    slack, memo', sent', wanted' :=
      Share(r.setting.slackEnabled, SlackOf(r), Notification(r.userId, id, Slack), o, memo', sent', wanted');
    teams, memo', sent', wanted' :=
      Share(HasTeams(r), TeamsOf(r), Notification(r.userId, id, Teams), o, memo', sent', wanted');
    rows := email + sms + telegram + slack + teams;
    Reassociate(wanted, If(r.setting.telegramEnabled, TelegramOf(r)), If(r.setting.slackEnabled, SlackOf(r)),
                If(HasTeams(r), TeamsOf(r)));
  }

  lemma Reassociate<T>(a: seq<T>, b: seq<T>, c: seq<T>, d: seq<T>)
    ensures a + b + c + d == a + (b + c + d)
  {
  }

  /** One turn of the loop. */
  method DispatchTo(r: Recipient, id: nat, about: AlertType, o: Outcomes,
                    memo: map<Post, bool>, sent: seq<Post>, ghost wanted: seq<Post>)
    returns (rows: seq<Notification>, memo': map<Post, bool>, sent': seq<Post>, ghost wanted': seq<Post>)
    requires Agrees(memo, sent, o) && sent == Once(wanted)
    ensures forall n :: n in rows <==> n.userId == r.userId && n.alertId == id && Gets(r, about, n.channel, o)
    ensures forall p :: p in sent' <==> p in sent || AsksFor(r, about, p)
    ensures Agrees(memo', sent', o) && sent' == Once(wanted')
    ensures rows == RowsOf(r, id, about, o)
    ensures wanted' == wanted + PostsOf(r, about)
  {
    hide Quiet, SwitchedOff, WantsNotification, Gets, AsksFor, Agrees;
    RowsOfMean(r, id, about, o);
    PostsOfMean(r, about);
    memo', sent', wanted' := memo, sent, wanted;
    rows := [Notification(r.userId, id, Dashboard)];
    if !r.setting.instantAlerts || InQuietWindow(r.setting.quietStart, r.setting.quietEnd, r.localTime) {
      return;
    }
    var preferences := LoadPreferences(r.setting.preferences, CATEGORIES);
    if !WantsNotification(preferences, Name(about)) {
      return;
    }
    var more;
    more, memo', sent', wanted' := SendChannels(r, id, o, memo, sent, wanted);
    rows := rows + more;
  }

  // ----- what the rows guarantee

  function CountRows(rows: seq<Notification>, userId: nat, channel: Channel): nat {
    if rows == [] then 0
    else CountRows(rows[..|rows| - 1], userId, channel) +
         if rows[|rows| - 1].userId == userId && rows[|rows| - 1].channel == channel then 1 else 0
  }

  lemma CountAppend(a: seq<Notification>, b: seq<Notification>, userId: nat, channel: Channel)
    ensures CountRows(a + b, userId, channel) == CountRows(a, userId, channel) + CountRows(b, userId, channel)
  {
    if b == [] { assert a + b == a; }
    else {
      assert (a + b)[..|a + b| - 1] == a + b[..|b| - 1];
      CountAppend(a, b[..|b| - 1], userId, channel);
    }
  }

  lemma CountNone(rows: seq<Notification>, userId: nat, channel: Channel)
    requires forall n :: n in rows ==> n.userId != userId || n.channel != channel
    ensures CountRows(rows, userId, channel) == 0
  {
  }

  lemma ChannelRowsAreOutOfBand(r: Recipient, id: nat, o: Outcomes)
    ensures forall n :: n in ChannelRows(r, id, o) ==> n.channel != Dashboard
  {
  }

  lemma DashboardOf(r: Recipient, id: nat, about: AlertType, o: Outcomes, userId: nat)
    ensures CountRows(RowsOf(r, id, about, o), userId, Dashboard) == if r.userId == userId then 1 else 0
  {
    var first := [Notification(r.userId, id, Dashboard)];
    var rest := if Reachable(r, about) then ChannelRows(r, id, o) else [];
    ChannelRowsAreOutOfBand(r, id, o);
    CountAppend(first, rest, userId, Dashboard);
    CountNone(rest, userId, Dashboard);
    assert first[..0] == [];
  }

  predicate DistinctUsers(rs: seq<Recipient>) {
    forall i, j :: 0 <= i < j < |rs| ==> rs[i].userId != rs[j].userId
  }

  /** The in-app inbox never loses an alert: each recipient gets exactly one dashboard entry,
      whatever their quiet hours, preferences, channels or delivery failures; nobody else
      gets any. */
  lemma {:induction false} DashboardNeverLost(rs: seq<Recipient>, id: nat, about: AlertType, o: Outcomes, userId: nat)
    requires DistinctUsers(rs)
    ensures CountRows(NaiveRows(rs, id, about, o), userId, Dashboard) ==
            if exists i :: 0 <= i < |rs| && rs[i].userId == userId then 1 else 0
  {
    hide RowsOf;
    if rs != [] {
      var front, last := rs[..|rs| - 1], rs[|rs| - 1];
      DashboardNeverLost(front, id, about, o, userId);
      CountAppend(NaiveRows(front, id, about, o), RowsOf(last, id, about, o), userId, Dashboard);
      DashboardOf(last, id, about, o, userId);
      if exists i :: 0 <= i < |front| && front[i].userId == userId {
        var i :| 0 <= i < |front| && front[i].userId == userId;
        assert rs[i].userId == userId;
      }
    }
  }

  // ----- one post per real destination?

  /** The platform-wide fallbacks; Teams has none. */
  datatype Platform = Platform(slackWebhook: string, telegramToken: string, telegramChat: string)

  function Or(own: string, fallback: string): string { if own == "" then fallback else own }

  /** Where a post goes once blank credentials have fallen back to the platform's. */
  function Destination(p: Post, f: Platform): Post {
    match p
    case SlackPost(w) => SlackPost(Or(w, f.slackWebhook))
    case TelegramPost(t, c) => TelegramPost(Or(t, f.telegramToken), Or(c, f.telegramChat))
    case TeamsPost(_) => p
  }

  /** Nothing is posted to a destination with a blank part: the channel is not configured. */
  predicate Configured(d: Post) {
    match d
    case SlackPost(w) => w != ""
    case TelegramPost(t, c) => t != "" && c != ""
    case TeamsPost(w) => w != ""
  }

  /** The real posts that come of the memoised ones, in order. */
  function Deliveries(ps: seq<Post>, f: Platform): seq<Post> {
    if ps == [] then []
    else
      var before, d := Deliveries(ps[..|ps| - 1], f), Destination(ps[|ps| - 1], f);
      if Configured(d) then before + [d] else before
  }

  /** Posts that some recipient asks for. */
  ghost predicate Wanted(rs: seq<Recipient>, about: AlertType, p: Post) {
    exists i :: 0 <= i < |rs| && AsksFor(rs[i], about, p)
  }

  lemma {:induction false} PostsWanted(rs: seq<Recipient>, about: AlertType, p: Post)
    ensures p in NaivePosts(rs, about) <==> Wanted(rs, about, p)
  {
    hide PostsOf, AsksFor;
    if rs != [] {
      var front, last := rs[..|rs| - 1], rs[|rs| - 1];
      PostsWanted(front, about, p);
      PostsOfMean(last, about);
      if Wanted(front, about, p) {
        var i :| 0 <= i < |front| && AsksFor(front[i], about, p);
        assert AsksFor(rs[i], about, p);
      }
      if Wanted(rs, about, p) {
        var i :| 0 <= i < |rs| && AsksFor(rs[i], about, p);
        if i < |front| { assert AsksFor(front[i], about, p); }
      }
    }
  }

  function WantedPosts(rs: seq<Recipient>, about: AlertType): set<Post> {
    set i, p | 0 <= i < |rs| && p in PostsOf(rs[i], about) :: p
  }

  /** Someone relies on the platform's Slack webhook while someone else has entered that very
      webhook as their own. */
  predicate SlackClash(wanted: set<Post>, f: Platform) {
    f.slackWebhook != "" && SlackPost("") in wanted && SlackPost(f.slackWebhook) in wanted
  }

  /** Two ways of filling in one credential that come to the same: both alike, or one of them
      blank and the other a copy of the platform's. */
  predicate SameCredential(a: string, b: string, fallback: string) {
    a == b || (a == "" && b == fallback) || (b == "" && a == fallback)
  }

  /** A credential that is entered or has a fallback. */
  predicate Available(own: string, fallback: string) { own != "" || fallback != "" }

  /** Two recipients have filled in their Telegram settings differently, but only by spelling out
      or leaving blank what the platform provides; and nothing is missing. */
  predicate TelegramClash(wanted: set<Post>, f: Platform) {
    exists p, q ::
      p in wanted && q in wanted && p.TelegramPost? && q.TelegramPost? &&
      (p.token != q.token || p.chat != q.chat) &&
      SameCredential(p.token, q.token, f.telegramToken) && SameCredential(p.chat, q.chat, f.telegramChat) &&
      Available(p.token, f.telegramToken) && Available(p.chat, f.telegramChat)
  }

  lemma ClashesAreAll(p: Post, q: Post, wanted: set<Post>, f: Platform)
    requires p in wanted && q in wanted && p != q
    requires Destination(p, f) == Destination(q, f) && Configured(Destination(p, f))
    ensures SlackClash(wanted, f) || TelegramClash(wanted, f)
  {
  }

  predicate LedTo(ps: seq<Post>, f: Platform, d: Post) {
    exists p :: p in ps && Destination(p, f) == d
  }

  lemma {:induction false} DeliveredIff(ps: seq<Post>, f: Platform, d: Post)
    ensures d in Deliveries(ps, f) <==> Configured(d) && LedTo(ps, f, d)
  {
    hide Destination, Configured;
    if ps != [] {
      var front, last := ps[..|ps| - 1], ps[|ps| - 1];
      DeliveredIff(front, f, d);
      assert forall p :: p in ps <==> p in front || p == last by { assert ps == front + [last]; }
    }
  }

  /** A destination is posted to twice exactly when two different posts lead to it. */
  lemma {:induction false} DeliveredTwiceIff(ps: seq<Post>, f: Platform)
    requires Distinct(ps)
    ensures Distinct(Deliveries(ps, f)) <==> !ShareDestination(ps, f)
  {
    if ps != [] {
      var n := |ps| - 1;
      var front, last := ps[..n], ps[n];
      DeliveredTwiceIff(front, f);
      DeliveredIff(front, f, Destination(last, f));
      ShareStep(ps, f);
      DistinctAppend(Deliveries(front, f), Destination(last, f));
    }
  }

  ghost predicate ShareDestination(ps: seq<Post>, f: Platform) {
    exists p, q ::
      p in ps && q in ps && p != q && Destination(p, f) == Destination(q, f) && Configured(Destination(p, f))
  }

  lemma ShareStep(ps: seq<Post>, f: Platform)
    requires Distinct(ps) && ps != []
    ensures var front, last := ps[..|ps| - 1], ps[|ps| - 1];
      ShareDestination(ps, f) <==>
      ShareDestination(front, f) || (Configured(Destination(last, f)) && LedTo(front, f, Destination(last, f)))
  {
    hide Destination, Configured;
    var front, last := ps[..|ps| - 1], ps[|ps| - 1];
    assert ps == front + [last];
    assert last !in front;
  }

  lemma DistinctAppend<T>(s: seq<T>, x: T)
    ensures Distinct(s + [x]) <==> Distinct(s) && x !in s
  {
    if Distinct(s + [x]) {
      forall i, j | 0 <= i < j < |s| ensures s[i] != s[j] { assert (s + [x])[i] != (s + [x])[j]; }
      forall i | 0 <= i < |s| ensures s[i] != x { assert (s + [x])[i] != (s + [x])[|s|]; }
    }
  }

  /** The memo is keyed by what each user configured, not by where the message ends up, so
      "one post per shared destination" holds if and only if no recipient has spelled out a
      destination that another one reaches through the platform's fallback. */
  lemma PostedOncePerDestination(rs: seq<Recipient>, about: AlertType, f: Platform)
    ensures var wanted := WantedPosts(rs, about);
      Distinct(Deliveries(Once(NaivePosts(rs, about)), f)) <==> !SlackClash(wanted, f) && !TelegramClash(wanted, f)
  {
    var ps, wanted := Once(NaivePosts(rs, about)), WantedPosts(rs, about);
    DeliveredTwiceIff(ps, f);
    forall p ensures p in ps <==> p in wanted {
      PostsWanted(rs, about, p);
      forall i | 0 <= i < |rs| ensures p in PostsOf(rs[i], about) <==> AsksFor(rs[i], about, p) {
        PostsOfMean(rs[i], about);
      }
    }
    ShareIsClash(ps, wanted, f);
  }

  lemma ShareIsClash(ps: seq<Post>, wanted: set<Post>, f: Platform)
    requires forall p :: p in ps <==> p in wanted
    ensures ShareDestination(ps, f) <==> SlackClash(wanted, f) || TelegramClash(wanted, f)
  {
    if ShareDestination(ps, f) {
      var p, q :|
        p in ps && q in ps && p != q && Destination(p, f) == Destination(q, f) && Configured(Destination(p, f));
      ClashesAreAll(p, q, wanted, f);
    }
    if SlackClash(wanted, f) {
      assert Destination(SlackPost(""), f) == Destination(SlackPost(f.slackWebhook), f);
    }
  }

  /** A user who enables Telegram and nothing else, at midday and without quiet hours. */
  function TelegramUser(id: nat, token: string, chat: string): Recipient {
    Recipient(id, Setting(false, false, true, false, false, true, None, None, Unset,
                          Credentials(token, chat, "", "")), DAY / 2)
  }

  /** Two users of one bot and chat, one of whom has copied the platform's bot token into their
      own settings: their chat gets the alert twice. */
  lemma CopiedTokenPostsTwice(token: string, chat: string, about: AlertType)
    requires token != "" && chat != ""
    ensures var rs := [TelegramUser(1, "", chat), TelegramUser(2, token, chat)];
      Deliveries(Once(NaivePosts(rs, about)), Platform("", token, "")) ==
        [TelegramPost(token, chat), TelegramPost(token, chat)]
  {
    var p, q := TelegramPost("", chat), TelegramPost(token, chat);
    TwoPosts(TelegramUser(1, "", chat), TelegramUser(2, token, chat), about, p, q);
    TwoDeliveries(p, q, Platform("", token, ""));
  }

  lemma PostsSnoc(rs: seq<Recipient>, r: Recipient, about: AlertType)
    ensures NaivePosts(rs + [r], about) == NaivePosts(rs, about) + PostsOf(r, about)
  {
    assert (rs + [r])[..|rs|] == rs;
  }

  lemma TwoPosts(a: Recipient, b: Recipient, about: AlertType, p: Post, q: Post)
    requires PostsOf(a, about) == [p] && PostsOf(b, about) == [q] && p != q
    ensures Once(NaivePosts([a, b], about)) == [p, q]
  {
    hide PostsOf, NaivePosts, Once;
    PostsSnoc([], a, about);
    PostsSnoc([a], b, about);
    NothingPosted(about);
    assert [] + [a] == [a] && [a] + [b] == [a, b];
    assert [] + [p] == [p];
    OnceStep([], p);
    OnceStep([p], q);
  }

  lemma NothingPosted(about: AlertType)
    ensures NaivePosts([], about) == [] && Once([]) == []
  {
  }

  lemma TwoDeliveries(p: Post, q: Post, f: Platform)
    requires Destination(p, f) == Destination(q, f) && Configured(Destination(q, f))
    ensures Deliveries([p, q], f) == [Destination(q, f), Destination(q, f)]
  {
    hide Destination, Configured;
    assert [p][..0] == [] && Deliveries([], f) == [];
    assert Deliveries([p], f) == [Destination(q, f)];
    assert [p, q][..1] == [p];
  }
}
