/**
 * The rich presence: the status text built from the aggregated statistics
 * (`makeUSD`) and its publication, skipped while the cumulative value is
 * unchanged (`PresenceStats.update`).
 */
module Presence {
  import opened Wrappers
  import opened Text
  import opened Discord
  import Config

  /** The bound on the presence text, in bytes. */
  const MaxPresence: nat := 128

  /** `PresenceStats`: the totals of one cycle. */
  datatype PresenceStats = PresenceStats(servers: int, onlineServers: int, players: int, slots: int, queue: int)

  /** The scalar compared between cycles; the slots take no part in it. */
  function Cumulative(p: PresenceStats): int {
    p.onlineServers + p.players + p.queue
  }

  /** "P/S players", or "P/S (+Q) players" when there is a queue. */
  function PlayerCounts(p: PresenceStats): Bytes {
    if p.queue == 0 then
      Decimal(p.players) + Ascii("/") + Decimal(p.slots) + Ascii(" players")
    else
      Decimal(p.players) + Ascii("/") + Decimal(p.slots) + Ascii(" (+") + Decimal(p.queue) + Ascii(") players")
  }

  /** " on O/T servers" or " on O servers", only for more than one server. */
  function ServerCounts(p: PresenceStats): Bytes {
    if p.servers > 1 && p.onlineServers > 0 then
      if p.onlineServers < p.servers then
        Ascii(" on ") + Decimal(p.onlineServers) + Ascii("/") + Decimal(p.servers) + Ascii(" servers")
      else
        Ascii(" on ") + Decimal(p.onlineServers) + Ascii(" servers")
    else []
  }

  /** The presence text before truncation. */
  function PresenceText(p: PresenceStats): Bytes {
    if p.onlineServers == 0 then
      if p.servers == 1 then Ascii("Server offline") else Ascii("All servers offline")
    else PlayerCounts(p) + ServerCounts(p)
  }

  /** `makeUSD`: one custom activity whose name and state are the bounded presence text. */
  function MakeUSD(p: PresenceStats): (u: StatusData)
    ensures u.status == Idle <==> p.onlineServers == 0
    ensures |u.activities| == 1 && u.activities[0].name == u.activities[0].state
    ensures |u.activities[0].name| <= MaxPresence
    ensures |PresenceText(p)| <= MaxPresence ==> u.activities[0].name == PresenceText(p)
    ensures |PresenceText(p)| > MaxPresence ==>
      u.activities[0].name == PresenceText(p)[..MaxPresence - 3] + Ellipsis()
  {
    var text := Truncate(PresenceText(p), MaxPresence);
    assert |PresenceText(p)| > MaxPresence ==> text == text[..MaxPresence - 3] + text[MaxPresence - 3..];
    StatusData(if p.onlineServers == 0 then Idle else Online, [Activity(text, text)])
  }

  /** With no server online the status is idle and the text says so. */
  lemma OfflinePresence(p: PresenceStats)
    requires p.onlineServers == 0
    ensures var t := if p.servers == 1 then Ascii("Server offline") else Ascii("All servers offline");
      MakeUSD(p) == StatusData(Idle, [Activity(t, t)])
  {
  }

  /** While some server is online, the text starts with the player count (in decimal) followed by '/'. */
  lemma PlayersReadBack(p: PresenceStats)
    requires p.onlineServers != 0
    requires Int64Min <= p.players <= Int64Max
    ensures var t := PresenceText(p); var k := |Decimal(p.players)|;
      k < |t| && ParseInt(t[..k]) == Some(p.players) && t[k] == '/' as int
  {
    var d := Decimal(p.players);
    AfterPlayersSplit(p);
    assert PresenceText(p) == PlayerCounts(p) + ServerCounts(p);
    PrefixThenSlash(d, AfterPlayers(p), ServerCounts(p));
    ParseDecimal(p.players);
  }

  /** What follows the player count in the player counts. */
  function AfterPlayers(p: PresenceStats): Bytes {
    if p.queue == 0 then Ascii("/") + Decimal(p.slots) + Ascii(" players")
    else Ascii("/") + Decimal(p.slots) + Ascii(" (+") + Decimal(p.queue) + Ascii(") players")
  }

  lemma AfterPlayersSplit(p: PresenceStats)
    ensures PlayerCounts(p) == Decimal(p.players) + AfterPlayers(p)
    ensures |AfterPlayers(p)| > 0 && AfterPlayers(p)[0] == '/' as int
  {
    SlashByte();
  }

  lemma PrefixThenSlash(d: Bytes, rest: Bytes, more: Bytes)
    requires |rest| > 0 && rest[0] == '/' as int
    ensures var t := d + rest + more; |d| < |t| && t[..|d|] == d && t[|d|] == '/' as int
  {
  }

  lemma SlashByte()
    ensures Ascii("/") == ['/' as int]
  {
    assert "/"[1..] == [];
  }

  /**
   * While some server is online the status is online and the text is the
   * player counts ("P/S players", or "P/S (+Q) players" with a queue) followed
   * by the server counts, which appear only for more than one server.
   */
  lemma OnlinePresence(p: PresenceStats)
    requires p.onlineServers > 0
    ensures MakeUSD(p).status == Online
    ensures PresenceText(p) == PlayerCounts(p) + ServerCounts(p)
    ensures p.queue == 0 ==> PlayerCounts(p) == Decimal(p.players) + Ascii("/") + Decimal(p.slots) + Ascii(" players")
    ensures p.queue != 0 ==>
      PlayerCounts(p) == Decimal(p.players) + Ascii("/") + Decimal(p.slots) + Ascii(" (+") + Decimal(p.queue) + Ascii(") players")
    ensures ServerCounts(p) == [] <==> p.servers <= 1
    ensures p.servers > 1 && p.onlineServers < p.servers ==>
      ServerCounts(p) == Ascii(" on ") + Decimal(p.onlineServers) + Ascii("/") + Decimal(p.servers) + Ascii(" servers")
    ensures p.servers > 1 && p.onlineServers >= p.servers ==>
      ServerCounts(p) == Ascii(" on ") + Decimal(p.onlineServers) + Ascii(" servers")
  {

  }

  /** The decimal forms of the numbers in the three-server example. */
  lemma SmallDecimals()
    ensures Decimal(15) == Ascii("15") && Decimal(52) == Ascii("52")
    ensures Decimal(2) == Ascii("2") && Decimal(3) == Ascii("3")
  {
  }

  /** The expected text of the three-server example, split into the pieces `makeUSD` formats. */
  lemma ThreeServerPieces()
    ensures Ascii("15/52 players on 2/3 servers") ==
      Ascii("15") + Ascii("/") + Ascii("52") + Ascii(" players") + (Ascii(" on ") + Ascii("2") + Ascii("/") + Ascii("3") + Ascii(" servers"))
  {
  }

  lemma ThreeServerCounts()
    ensures PlayerCounts(PresenceStats(3, 2, 15, 52, 0)) == Ascii("15") + Ascii("/") + Ascii("52") + Ascii(" players")
    ensures ServerCounts(PresenceStats(3, 2, 15, 52, 0)) == Ascii(" on ") + Ascii("2") + Ascii("/") + Ascii("3") + Ascii(" servers")
  {
    SmallDecimals();
  }

  lemma ThreeServerText()
    ensures PresenceText(PresenceStats(3, 2, 15, 52, 0)) == Ascii("15/52 players on 2/3 servers")
  {
    ThreeServerCounts();
    ThreeServerPieces();
  }

  /** The typical three-server cycle: 15 of 52 slots used on two servers out of three. */
  lemma ThreeServerPresence()
    ensures var t := Ascii("15/52 players on 2/3 servers");
      MakeUSD(PresenceStats(3, 2, 15, 52, 0)) == StatusData(Online, [Activity(t, t)])
  {
    var p := PresenceStats(3, 2, 15, 52, 0);
    ThreeServerText();
    var u := MakeUSD(p);
    assert u.activities[0].name == PresenceText(p);
  }

  /** What follows the slots in the player counts. */
  function AfterSlots(p: PresenceStats): Bytes {
    if p.queue == 0 then Ascii(" players") else Ascii(" (+") + Decimal(p.queue) + Ascii(") players")
  }

  lemma PlayerCountsAroundSlots(p: PresenceStats)
    ensures PlayerCounts(p) == Decimal(p.players) + Ascii("/") + Decimal(p.slots) + AfterSlots(p)
  {
    if p.queue != 0 {
      var a := Decimal(p.players) + Ascii("/") + Decimal(p.slots);
      assert a + Ascii(" (+") + Decimal(p.queue) + Ascii(") players") == a + (Ascii(" (+") + Decimal(p.queue) + Ascii(") players"));
    }
  }

  /** A middle part between equal surroundings is determined by the whole. */
  lemma MiddleCancel(a: Bytes, x: Bytes, y: Bytes, b: Bytes)
    requires a + x + b == a + y + b
    ensures x == y
  {
    assert |x| == |y|;
    assert x == (a + x + b)[|a|..|a| + |x|];
    assert y == (a + y + b)[|a|..|a| + |y|];
  }

  /**
   * The slots take no part in the cumulative value, so a change of the slots
   * alone is never published, although it changes the status whenever some
   * server is online and both texts fit the bound (with no server online the
   * status does not mention the slots at all).
   */
  lemma SlotsChangeUndetected(p: PresenceStats, slots: int)
    ensures Cumulative(p.(slots := slots)) == Cumulative(p)
    ensures p.onlineServers == 0 ==> MakeUSD(p.(slots := slots)) == MakeUSD(p)
    ensures (p.onlineServers != 0 && slots != p.slots && |PresenceText(p)| <= MaxPresence &&
             |PresenceText(p.(slots := slots))| <= MaxPresence) ==>
      MakeUSD(p.(slots := slots)) != MakeUSD(p)
  {
    var q := p.(slots := slots);
    if p.onlineServers != 0 && slots != p.slots {
      SlotsInText(p, slots);
      if |PresenceText(p)| <= MaxPresence && |PresenceText(q)| <= MaxPresence {
        assert MakeUSD(q).activities[0].name == PresenceText(q);
        assert MakeUSD(p).activities[0].name == PresenceText(p);
      }
    }
  }

  /** While some server is online the slots sit between the player count and the rest of the text. */
  lemma TextAroundSlots(p: PresenceStats)
    requires p.onlineServers != 0
    ensures PresenceText(p) == Decimal(p.players) + Ascii("/") + Decimal(p.slots) + (AfterSlots(p) + ServerCounts(p))
  {
    PlayerCountsAroundSlots(p);
    Regroup(Decimal(p.players) + Ascii("/"), Decimal(p.slots), AfterSlots(p), ServerCounts(p));
  }

  lemma Regroup(a: Bytes, x: Bytes, c: Bytes, d: Bytes)
    ensures a + x + c + d == a + x + (c + d)
  {
  }

  /** While some server is online the text determines the slots. */
  lemma SlotsInText(p: PresenceStats, slots: int)
    requires p.onlineServers != 0 && slots != p.slots
    ensures PresenceText(p.(slots := slots)) != PresenceText(p)
  {
    var q := p.(slots := slots);
    TextAroundSlots(p);
    TextAroundSlots(q);
    assert AfterSlots(q) == AfterSlots(p) && ServerCounts(q) == ServerCounts(p);
    if PresenceText(q) == PresenceText(p) {
      MiddleCancel(Decimal(p.players) + Ascii("/"), Decimal(slots), Decimal(p.slots), AfterSlots(p) + ServerCounts(p));
      DecimalInjective(slots, p.slots);
    }
  }

  /**
   * `PresenceStats.update`: publish `makeUSD` unless the cumulative value equals
   * the stored one; store the new value only if the platform accepted it.
   * `sent` is the status handed to the platform, if any.
   */
  method UpdatePresence(p: PresenceStats, cfg: Config.Config, reply: Reply)
    returns (sent: Option<StatusData>, err: Option<Error>)
    modifies cfg`prevCumulativeOnline
    ensures Cumulative(p) == old(cfg.prevCumulativeOnline) ==>
      sent.None? && err.None? && cfg.prevCumulativeOnline == old(cfg.prevCumulativeOnline)
    ensures Cumulative(p) != old(cfg.prevCumulativeOnline) ==> sent == Some(MakeUSD(p))
    ensures Cumulative(p) != old(cfg.prevCumulativeOnline) && reply.Fail? ==>
      err == Some(SetStatusFailed(reply.error)) && cfg.prevCumulativeOnline == old(cfg.prevCumulativeOnline)
    ensures Cumulative(p) != old(cfg.prevCumulativeOnline) && reply.Pass? ==>
      err.None? && cfg.prevCumulativeOnline == Cumulative(p)
  {
    var cumulative := p.onlineServers + p.players + p.queue;
    if cumulative == cfg.prevCumulativeOnline {
      return None, None;
    }
    sent := Some(MakeUSD(p));
    if reply.Fail? {
      return sent, Some(SetStatusFailed(reply.error));
    }
    cfg.prevCumulativeOnline := cumulative;
    return sent, None;
  }

  /**
   * Two cycles with the same statistics: after an accepted update the second is
   * skipped; after a rejected one the same status is sent again.
   */
  method PresenceTwice(p: PresenceStats, cfg: Config.Config, reply1: Reply, reply2: Reply)
    returns (sent1: Option<StatusData>, sent2: Option<StatusData>)
    modifies cfg`prevCumulativeOnline
    ensures sent1.Some? && reply1.Pass? ==> sent2.None?
    ensures sent1.Some? && reply1.Fail? ==> sent2 == sent1
    ensures sent1.None? ==> sent2.None?
  {
    var err1, err2;
    sent1, err1 := UpdatePresence(p, cfg, reply1);
    sent2, err2 := UpdatePresence(p, cfg, reply2);
  }
}
