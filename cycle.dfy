/**
 * `update`: one cycle. Every server is queried; the answers are folded into
 * the presence totals and turned into one channel task per server; then the
 * presence is published. The queries run concurrently in the program and
 * their results are folded under a lock; here they are folded in server order,
 * and `TotalsPermutation` shows that the order does not change the totals.
 */
module Cycle {
  import opened Wrappers
  import opened Text
  import opened Templates
  import opened Discord
  import opened Config
  import opened Presence
  import opened Worker

  /** The application ids of the games whose keywords carry extra data. */
  datatype AppIds = AppIds(arma3: nat, dayz: nat, dayzExp: nat)

  /** The queue length the DayZ keyword parser reads off a keyword string. */
  type QueueParser = Bytes -> nat

  /** What querying one server gave: an error, or its `Info`. */
  datatype QueryOutcome = QueryFailed | Answered(info: Info)

  /** The extra data for the templates, by game. */
  function ExtraFor(info: Info, apps: AppIds, queueOf: QueueParser): (e: Extra)
    ensures e.Arma3Extra? <==> info.appId == apps.arma3
    ensures e.DayZExtra? <==> info.appId != apps.arma3 && (info.appId == apps.dayz || info.appId == apps.dayzExp)
    ensures e.DayZExtra? ==> e == DayZExtra(queueOf(info.keywords), info.keywords)
  {
    if info.appId == apps.arma3 then Arma3Extra(info.keywords)
    else if info.appId == apps.dayz || info.appId == apps.dayzExp then DayZExtra(queueOf(info.keywords), info.keywords)
    else NoExtra
  }

  /** The queue a server adds to the totals: only a DayZ server has one. */
  function LocalQueue(info: Info, apps: AppIds, queueOf: QueueParser): nat {
    match ExtraFor(info, apps, queueOf)
    case DayZExtra(q, _) => q
    case _ => 0
  }

  /** The template data of a server for this cycle; an unanswered server has no `Info`. */
  function DataFor(srv: ServerConfig, o: QueryOutcome, apps: AppIds, queueOf: QueueParser): (d: TemplateData)
    ensures d.id == srv.id && d.host == srv.host && d.port == srv.port
    ensures d.info.None? <==> o.QueryFailed?
    ensures o.QueryFailed? ==> d.extra == NoExtra
  {
    match o
    case QueryFailed => TemplateData(None, NoExtra, srv.id, srv.host, srv.port)
    case Answered(info) => TemplateData(Some(info), ExtraFor(info, apps, queueOf), srv.id, srv.host, srv.port)
  }

  /** The task queued for a server: always queued, answered or not. */
  function TaskFor(srv: ServerConfig, o: QueryOutcome, apps: AppIds, queueOf: QueueParser): Task {
    Task(srv, Some(DataFor(srv, o, apps, queueOf)))
  }

  /** The query outcomes of the configured servers, in order. */
  function Outcomes(servers: seq<ServerConfig>, query: ServerConfig -> QueryOutcome): (os: seq<QueryOutcome>)
    ensures |os| == |servers|
    ensures forall i :: 0 <= i < |servers| ==> os[i] == query(servers[i])
  {
    seq(|servers|, i requires 0 <= i < |servers| => query(servers[i]))
  }

  // ------------------------------------------------------------ aggregation

  /** The aggregation step for one outcome (under the lock in the program). */
  function Tally(stats: PresenceStats, o: QueryOutcome, apps: AppIds, queueOf: QueueParser): PresenceStats {
    match o
    case QueryFailed => stats
    case Answered(info) =>
      PresenceStats(stats.servers, stats.onlineServers + 1, stats.players + info.players,
                    stats.slots + info.maxPlayers, stats.queue + LocalQueue(info, apps, queueOf))
  }

  /** The aggregation of a sequence of outcomes, in that order. */
  function Fold(init: PresenceStats, os: seq<QueryOutcome>, apps: AppIds, queueOf: QueueParser): PresenceStats
    decreases |os|
  {
    if os == [] then init else Tally(Fold(init, os[..|os| - 1], apps, queueOf), os[|os| - 1], apps, queueOf)
  }

  /** The totals of a cycle, starting from `Servers: len(cfg.Servers)`. */
  function Totals(os: seq<QueryOutcome>, apps: AppIds, queueOf: QueueParser): PresenceStats {
    Fold(PresenceStats(|os|, 0, 0, 0, 0), os, apps, queueOf)
  }

  /** A failed query leaves the totals as they were; an answer adds one online server and its counts. */
  lemma FoldStep(init: PresenceStats, os: seq<QueryOutcome>, info: Info, apps: AppIds, queueOf: QueueParser)
    ensures Fold(init, os + [QueryFailed], apps, queueOf) == Fold(init, os, apps, queueOf)
    ensures var before := Fold(init, os, apps, queueOf);
      Fold(init, os + [Answered(info)], apps, queueOf) ==
        PresenceStats(before.servers, before.onlineServers + 1, before.players + info.players,
                      before.slots + info.maxPlayers, before.queue + LocalQueue(info, apps, queueOf))
  {
    assert (os + [QueryFailed])[..|os|] == os;
    assert (os + [Answered(info)])[..|os|] == os;
  }

  /** Only an answer from a DayZ server adds to the queue; Arma 3 and every other game add nothing. */
  lemma LocalQueueOnlyDayZ(info: Info, apps: AppIds, queueOf: QueueParser)
    ensures info.appId == apps.arma3 ==> LocalQueue(info, apps, queueOf) == 0
    ensures info.appId != apps.arma3 && info.appId != apps.dayz && info.appId != apps.dayzExp ==>
      LocalQueue(info, apps, queueOf) == 0
    ensures info.appId != apps.arma3 && (info.appId == apps.dayz || info.appId == apps.dayzExp) ==>
      LocalQueue(info, apps, queueOf) == queueOf(info.keywords)
  {
  }

  /** The four counters a server contributes to. */
  datatype Counter = OnlineCounter | PlayersCounter | SlotsCounter | QueueCounter

  /** What one outcome adds to a counter. */
  function Contribution(o: QueryOutcome, c: Counter, apps: AppIds, queueOf: QueueParser): nat {
    match o
    case QueryFailed => 0
    case Answered(info) =>
      match c
      case OnlineCounter => 1
      case PlayersCounter => info.players
      case SlotsCounter => info.maxPlayers
      case QueueCounter => LocalQueue(info, apps, queueOf)
  }

  /** A reference definition of a counter: the sum over the servers of their contributions. */
  function Sum(os: seq<QueryOutcome>, c: Counter, apps: AppIds, queueOf: QueueParser): nat {
    if os == [] then 0 else Contribution(os[0], c, apps, queueOf) + Sum(os[1..], c, apps, queueOf)
  }

  lemma {:induction false} SumSnoc(os: seq<QueryOutcome>, o: QueryOutcome, c: Counter, apps: AppIds, queueOf: QueueParser)
    ensures Sum(os + [o], c, apps, queueOf) == Sum(os, c, apps, queueOf) + Contribution(o, c, apps, queueOf)
  {
    if os == [] {
      assert [] + [o] == [o];
    } else {
      assert (os + [o])[1..] == os[1..] + [o];
      SumSnoc(os[1..], o, c, apps, queueOf);
    }
  }

  /** The fold adds to each counter exactly the sum of the contributions; the server count is kept. */
  lemma {:induction false} FoldIsSum(init: PresenceStats, os: seq<QueryOutcome>, apps: AppIds, queueOf: QueueParser)
    ensures Fold(init, os, apps, queueOf) ==
      PresenceStats(init.servers,
                    init.onlineServers + Sum(os, OnlineCounter, apps, queueOf),
                    init.players + Sum(os, PlayersCounter, apps, queueOf),
                    init.slots + Sum(os, SlotsCounter, apps, queueOf),
                    init.queue + Sum(os, QueueCounter, apps, queueOf))
    decreases |os|
  {
    if os != [] {
      var front, last := os[..|os| - 1], os[|os| - 1];
      assert os == front + [last];
      FoldIsSum(init, front, apps, queueOf);
      SumSnoc(front, last, OnlineCounter, apps, queueOf);
      SumSnoc(front, last, PlayersCounter, apps, queueOf);
      SumSnoc(front, last, SlotsCounter, apps, queueOf);
      SumSnoc(front, last, QueueCounter, apps, queueOf);
    }
  }

  /** The online counter counts the answers: at most one per server, all of them exactly when all answered. */
  lemma {:induction false} OnlineCounts(os: seq<QueryOutcome>, apps: AppIds, queueOf: QueueParser)
    ensures Sum(os, OnlineCounter, apps, queueOf) <= |os|
    ensures Sum(os, OnlineCounter, apps, queueOf) == |os| <==> forall i :: 0 <= i < |os| ==> os[i].Answered?
    ensures Sum(os, OnlineCounter, apps, queueOf) == 0 <==> forall i :: 0 <= i < |os| ==> os[i].QueryFailed?
  {
    if os != [] {
      OnlineCounts(os[1..], apps, queueOf);
      assert forall i :: 1 <= i < |os| ==> os[i] == os[1..][i - 1];
    }
  }

  /** `Servers` is the number of configured servers, `OnlineServers` the number that answered. */
  lemma TotalsCount(os: seq<QueryOutcome>, apps: AppIds, queueOf: QueueParser)
    ensures var t := Totals(os, apps, queueOf);
      && t.servers == |os|
      && t.onlineServers == Sum(os, OnlineCounter, apps, queueOf)
      && 0 <= t.onlineServers <= t.servers
      && (t.onlineServers == t.servers <==> forall i :: 0 <= i < |os| ==> os[i].Answered?)
      && (t.onlineServers == 0 <==> forall i :: 0 <= i < |os| ==> os[i].QueryFailed?)
      && t.players == Sum(os, PlayersCounter, apps, queueOf)
      && t.slots == Sum(os, SlotsCounter, apps, queueOf)
      && t.queue == Sum(os, QueueCounter, apps, queueOf)
  {
    FoldIsSum(PresenceStats(|os|, 0, 0, 0, 0), os, apps, queueOf);
    OnlineCounts(os, apps, queueOf);
  }

  /** Removing one element from a sum. */
  lemma {:induction false} SumRemove(os: seq<QueryOutcome>, j: nat, c: Counter, apps: AppIds, queueOf: QueueParser)
    requires j < |os|
    ensures Sum(os, c, apps, queueOf) ==
      Contribution(os[j], c, apps, queueOf) + Sum(os[..j] + os[j + 1..], c, apps, queueOf)
  {
    if j > 0 {
      assert (os[..j] + os[j + 1..])[1..] == os[1..][..j - 1] + os[1..][j..];
      SumRemove(os[1..], j - 1, c, apps, queueOf);
    } else {
      assert os[..0] + os[1..] == os[1..];
    }
  }

  /** Sums do not depend on the order of the outcomes. */
  lemma {:induction false} SumPermutation(a: seq<QueryOutcome>, b: seq<QueryOutcome>, c: Counter, apps: AppIds, queueOf: QueueParser)
    requires multiset(a) == multiset(b)
    ensures Sum(a, c, apps, queueOf) == Sum(b, c, apps, queueOf)
    decreases |a|
  {
    if a != [] {
      var j := IndexOf(a[0], b);
      var b' := b[..j] + b[j + 1..];
      PermutationTail(a, b, j);
      SumPermutation(a[1..], b', c, apps, queueOf);
      SumRemove(b, j, c, apps, queueOf);
    } else {
      assert |b| == |multiset(b)| == |multiset(a)| == 0;
    }
  }

  lemma IndexOf<T>(x: T, s: seq<T>) returns (j: nat)
    requires x in multiset(s)
    ensures j < |s| && s[j] == x
  {
    assert x in s;
    j :| 0 <= j < |s| && s[j] == x;
  }

  lemma PermutationTail<T>(a: seq<T>, b: seq<T>, j: nat)
    requires multiset(a) == multiset(b) && a != [] && j < |b| && b[j] == a[0]
    ensures multiset(a[1..]) == multiset(b[..j] + b[j + 1..])
  {
    MultisetRemove(b, j);
    MultisetRemove(a, 0);
    assert a[..0] + a[1..] == a[1..];
  }

  lemma MultisetRemove<T>(s: seq<T>, j: nat)
    requires j < |s|
    ensures multiset(s[..j] + s[j + 1..]) == multiset(s) - multiset{s[j]}
  {
    assert s == s[..j] + [s[j]] + s[j + 1..];
    assert multiset(s) == multiset(s[..j]) + multiset{s[j]} + multiset(s[j + 1..]);
  }

  /** The totals do not depend on the order in which the answers arrive. */
  lemma TotalsPermutation(a: seq<QueryOutcome>, b: seq<QueryOutcome>, apps: AppIds, queueOf: QueueParser)
    requires multiset(a) == multiset(b)
    ensures Totals(a, apps, queueOf) == Totals(b, apps, queueOf)
  {
    assert |a| == |multiset(a)| == |multiset(b)| == |b|;
    TotalsCount(a, apps, queueOf);
    TotalsCount(b, apps, queueOf);
    SumPermutation(a, b, OnlineCounter, apps, queueOf);
    SumPermutation(a, b, PlayersCounter, apps, queueOf);
    SumPermutation(a, b, SlotsCounter, apps, queueOf);
    SumPermutation(a, b, QueueCounter, apps, queueOf);
    FoldIsSum(PresenceStats(|a|, 0, 0, 0, 0), a, apps, queueOf);
    FoldIsSum(PresenceStats(|b|, 0, 0, 0, 0), b, apps, queueOf);
  }

  /** An answer from a server that the switch treats as DayZ. */
  predicate IsDayZAnswer(o: QueryOutcome, apps: AppIds) {
    o.Answered? && o.info.appId != apps.arma3 && (o.info.appId == apps.dayz || o.info.appId == apps.dayzExp)
  }

  /** A queue in the totals comes from some answered DayZ server. */
  lemma {:induction false} QueueOnlyFromDayZ(os: seq<QueryOutcome>, apps: AppIds, queueOf: QueueParser)
    requires Sum(os, QueueCounter, apps, queueOf) > 0
    ensures exists i :: 0 <= i < |os| && IsDayZAnswer(os[i], apps)
  {
    if Contribution(os[0], QueueCounter, apps, queueOf) > 0 {
      assert os[0].Answered?;
    } else {
      QueueOnlyFromDayZ(os[1..], apps, queueOf);
      var i :| 0 <= i < |os[1..]| && IsDayZAnswer(os[1..][i], apps);
      assert os[i + 1] == os[1..][i];
    }
  }

  /** With every query failing the cumulative value is 0, the value a new configuration starts from. */
  lemma {:induction false} AllFailedCumulativeZero(os: seq<QueryOutcome>, apps: AppIds, queueOf: QueueParser)
    requires forall i :: 0 <= i < |os| ==> os[i].QueryFailed?
    ensures Totals(os, apps, queueOf) == PresenceStats(|os|, 0, 0, 0, 0)
    ensures Cumulative(Totals(os, apps, queueOf)) == 0
  {
    AllFailedFold(PresenceStats(|os|, 0, 0, 0, 0), os, apps, queueOf);
  }

  lemma {:induction false} AllFailedFold(init: PresenceStats, os: seq<QueryOutcome>, apps: AppIds, queueOf: QueueParser)
    requires forall i :: 0 <= i < |os| ==> os[i].QueryFailed?
    ensures Fold(init, os, apps, queueOf) == init
    decreases |os|
  {
    if os != [] {
      AllFailedFold(init, os[..|os| - 1], apps, queueOf);
    }
  }

  /** Three servers, two answering with 5/32 and 10/20 players and one not answering. */
  lemma ThreeServerTotals(apps: AppIds, queueOf: QueueParser, appId: nat)
    requires appId != apps.arma3 && appId != apps.dayz && appId != apps.dayzExp
    ensures var os := [Answered(Info(appId, 5, 32, [])), Answered(Info(appId, 10, 20, [])), QueryFailed];
      && Totals(os, apps, queueOf) == PresenceStats(3, 2, 15, 52, 0)
      && MakeUSD(Totals(os, apps, queueOf)).activities[0].name == Ascii("15/52 players on 2/3 servers")
  {
    var os := [Answered(Info(appId, 5, 32, [])), Answered(Info(appId, 10, 20, [])), QueryFailed];
    var init := PresenceStats(3, 0, 0, 0, 0);
    assert os[..2][..1] == os[..1] && os[..1][..0] == [];
    assert Fold(init, os[..1], apps, queueOf) == PresenceStats(3, 1, 5, 32, 0);
    assert Fold(init, os[..2], apps, queueOf) == PresenceStats(3, 2, 15, 52, 0);
    assert Totals(os, apps, queueOf) == PresenceStats(3, 2, 15, 52, 0);
    ThreeServerPresence();
  }

  // -------------------------------------------------------------- the cycle

  /**
   * One server's turn in `update`: build its template data from the query
   * outcome and add its answer, if any, to the running totals.
   */
  method VisitServer(srv: ServerConfig, outcome: QueryOutcome, stats: PresenceStats, apps: AppIds, queueOf: QueueParser)
    returns (task: Task, next: PresenceStats)
    ensures task == TaskFor(srv, outcome, apps, queueOf)
    ensures next == Tally(stats, outcome, apps, queueOf)
  {
    var data := TemplateData(None, NoExtra, srv.id, srv.host, srv.port);
    next := stats;
    if outcome.Answered? {
      var info := outcome.info;
      data := data.(info := Some(info));
      var localQueue := 0;
      if info.appId == apps.arma3 {
        data := data.(extra := Arma3Extra(info.keywords));
      } else if info.appId == apps.dayz || info.appId == apps.dayzExp {
        localQueue := queueOf(info.keywords);
        data := data.(extra := DayZExtra(localQueue, info.keywords));
      }
      next := stats.(players := stats.players + info.players, slots := stats.slots + info.maxPlayers,
                     queue := stats.queue + localQueue, onlineServers := stats.onlineServers + 1);
    }
    task := Task(srv, Some(data));
  }

  /**
   * `update(ds, cfg)`: query every server (`query`), aggregate, queue one task
   * per server, then publish the presence (`reply` is what the platform returns);
   * the presence error is only logged.
   */
  method Update(cfg: Config, query: ServerConfig -> QueryOutcome, apps: AppIds, queueOf: QueueParser, reply: Reply)
    returns (tasks: seq<Task>, stats: PresenceStats, sent: Option<StatusData>, logged: Option<Error>)
    modifies cfg
    ensures stats == Totals(Outcomes(cfg.servers, query), apps, queueOf)
    ensures |tasks| == |cfg.servers|
    ensures forall i :: 0 <= i < |tasks| ==> tasks[i] == TaskFor(cfg.servers[i], query(cfg.servers[i]), apps, queueOf)
    ensures Cumulative(stats) == old(cfg.prevCumulativeOnline) ==>
      sent.None? && logged.None? && cfg.prevCumulativeOnline == old(cfg.prevCumulativeOnline)
    ensures Cumulative(stats) != old(cfg.prevCumulativeOnline) ==> sent == Some(MakeUSD(stats))
    ensures Cumulative(stats) != old(cfg.prevCumulativeOnline) && reply.Fail? ==>
      logged == Some(SetStatusFailed(reply.error)) && cfg.prevCumulativeOnline == old(cfg.prevCumulativeOnline)
    ensures Cumulative(stats) != old(cfg.prevCumulativeOnline) && reply.Pass? ==>
      logged.None? && cfg.prevCumulativeOnline == Cumulative(stats)
  {
    ghost var os := Outcomes(cfg.servers, query);
    var init := PresenceStats(|cfg.servers|, 0, 0, 0, 0);
    stats := init;
    tasks := [];
    var i := 0;
    while i < |cfg.servers|
      invariant 0 <= i <= |cfg.servers|
      invariant stats == Fold(init, os[..i], apps, queueOf)
      invariant cfg.prevCumulativeOnline == old(cfg.prevCumulativeOnline)
      invariant |tasks| == i
      invariant forall j :: 0 <= j < i ==> tasks[j] == TaskFor(cfg.servers[j], query(cfg.servers[j]), apps, queueOf)
    {
      var outcome := query(cfg.servers[i]);
      assert os[..i + 1][..i] == os[..i] && os[..i + 1][i] == outcome;
      var task;
      task, stats := VisitServer(cfg.servers[i], outcome, stats, apps, queueOf);
      tasks := tasks + [task];
      i := i + 1;
    }
    assert os[..|cfg.servers|] == os;
    sent, logged := UpdatePresence(stats, cfg, reply);
  }
}
