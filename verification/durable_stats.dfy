/**
 * The newer stat listener: it keeps statistics on the durable player records
 * (read through `getPlayer`, written back through `setPlayer` and the player
 * cache), silently gives up on the rest of an event at the first player it
 * cannot find, and settles every participant at match end: outcome, playtime,
 * the bulk "big stats" and participation.
 */
module DurableStatListener {
  import opened Wrappers
  import opened StatRecords

  datatype Messages = Messages(staff: int, global: int, team: int)

  datatype PlayerStats = PlayerStats(
    deaths: int,
    voidDeaths: int,
    kills: int,
    voidKills: int,
    firstBloods: int,
    firstBloodsSuffered: int,
    weaponKills: map<string, int>,
    objectives: Objectives,
    blocksBroken: map<string, int>,
    blocksPlaced: map<string, int>,
    messages: Messages,
    bowShotsTaken: int,
    bowShotsHit: int,
    damageGiven: int,
    damageTaken: int,
    damageGivenBow: int,
    ties: int,
    wins: int,
    losses: int,
    matches: int,
    matchesPresentStart: int,
    matchesPresentFull: int,
    matchesPresentEnd: int,
    gamePlaytime: int)

  /** The durable player record, with only the fields these handlers use. */
  datatype Player = Player(id: string, nameLower: string, stats: PlayerStats)

  datatype ParticipantStats = ParticipantStats(gamePlaytime: int, timeAway: int)

  /** A match participant, with only the fields the match-end pass reads or writes. */
  datatype Participant = Participant(
    id: string,
    name: string,
    partyName: Option<string>,
    joinedPartyAt: Option<int>,
    firstJoinedMatchAt: int,
    stats: ParticipantStats)

  /** Block tallies as the entries of the reported maps, in their iteration order. */
  datatype BlockStats = BlockStats(blocksBroken: Option<seq<(string, int)>>, blocksPlaced: Option<seq<(string, int)>>)

  /** The bulk counters a game server reports for one player only at match end. */
  datatype BigStats = BigStats(
    blocks: Option<BlockStats>,
    messages: Messages,
    bowShotsTaken: int,
    bowShotsHit: int,
    damageGiven: int,
    damageTaken: int,
    damageGivenBow: int)

  datatype MatchEndData = MatchEndData(winningParties: seq<string>, bigStats: map<string, BigStats>)

  /** What the match-end pass reads of the match besides its participants. */
  datatype MatchInfo = MatchInfo(partyCount: nat, startedAt: Option<int>, endedAt: Option<int>, length: int)

  /** The NullPointerExceptions of `endedAt!!` and `startedAt!!`. */
  datatype EndError = EndedAtMissing | StartedAtMissing

  ghost predicate PlayersKeyedById(ps: map<string, Player>)
  {
    forall k :: k in ps ==> ps[k].id == k
  }

  ghost predicate ParticipantsKeyedById(ps: map<string, Participant>)
  {
    forall k :: k in ps ==> ps[k].id == k
  }

  /** `m[k] ?: 0` */
  function Count(m: map<string, int>, k: string): int
  {
    Lookup(m, k).GetOr(0)
  }

  /** `weaponKills[w] = (weaponKills[w] ?: 0) + 1` */
  function WeaponKill(weaponKills: map<string, int>, w: string): (r: map<string, int>)
    ensures r.Keys == weaponKills.Keys + {w}
    ensures r[w] == Count(weaponKills, w) + 1
    ensures forall v :: v in weaponKills && v != w ==> r[v] == weaponKills[v]
  {
    weaponKills[w := Count(weaponKills, w) + 1]
  }

  /** A tally after each entry's count has been added to its key in turn, a missing key counting as 0. */
  function Merged(m: map<string, int>, entries: seq<(string, int)>): map<string, int>
  {
    if entries == [] then m
    else
      var before := Merged(m, entries[..|entries| - 1]);
      var e := entries[|entries| - 1];
      before[e.0 := Count(before, e.0) + e.1]
  }

  /** The total count the entries report for `key`. */
  function Reported(entries: seq<(string, int)>, key: string): int
  {
    if entries == [] then 0
    else
      var e := entries[|entries| - 1];
      Reported(entries[..|entries| - 1], key) + (if e.0 == key then e.1 else 0)
  }

  /** Merging adds to every key exactly what the entries report for it, repeated keys included. */
  lemma {:induction false} MergedAddsReported(m: map<string, int>, entries: seq<(string, int)>, key: string)
    ensures Count(Merged(m, entries), key) == Count(m, key) + Reported(entries, key)
  {
    if entries != [] {
      MergedAddsReported(m, entries[..|entries| - 1], key);
    }
  }

  /** Adds the reported entries, if any, into the tally `m`, entry by entry. */
  method MergeCounts(m: map<string, int>, reported: Option<seq<(string, int)>>) returns (r: map<string, int>)
    ensures r == Tallied(m, reported)
  {
    r := m;
    if reported.None? {
      return;
    }
    var entries := reported.value;
    for i := 0 to |entries|
      invariant r == Merged(m, entries[..i])
    {
      var (block, count) := entries[i];
      assert entries[..i + 1][..i] == entries[..i];
      r := r[block := Count(r, block) + count];
    }
    assert entries[..|entries|] == entries;
  }

  function CreditPlayer(p: Player, a: Action): (r: Player)
    ensures r.id == p.id && r.nameLower == p.nameLower
    ensures r.stats.objectives == Credit(p.stats.objectives, a)
    ensures r.stats == p.stats.(objectives := r.stats.objectives)
  {
    p.(stats := p.stats.(objectives := Credit(p.stats.objectives, a)))
  }

  /**
   * The player records after the contributions are credited in order; a
   * contributor without a record is passed over (the handler never gets that
   * far: it credits only the known prefix).
   */
  function CreditAll(players: map<string, Player>, cs: seq<Contribution>): (r: map<string, Player>)
    ensures r.Keys == players.Keys
  {
    if cs == [] then players
    else
      var last := cs[|cs| - 1];
      var before := CreditAll(players, cs[..|cs| - 1]);
      match Lookup(before, last.playerId)
      case None => before
      case Some(p) => before[last.playerId := CreditPlayer(p, last.action)]
  }

  lemma CreditAllStep(players: map<string, Player>, cs: seq<Contribution>, i: nat)
    requires i < |cs| && cs[i].playerId in players
    ensures var before := CreditAll(players, cs[..i]);
      CreditAll(players, cs[..i + 1]) == before[cs[i].playerId := CreditPlayer(before[cs[i].playerId], cs[i].action)]
  {
    assert cs[..i + 1][..i] == cs[..i];
  }

  /**
   * Crediting a series of contributions adds to each player's objective
   * counters the sum of its own contributions' deltas and touches nothing else.
   */
  lemma {:induction false} CreditAllAdds(players: map<string, Player>, cs: seq<Contribution>, id: string)
    requires id in players
    ensures var r := CreditAll(players, cs);
      && r[id].id == players[id].id && r[id].nameLower == players[id].nameLower
      && r[id].stats == players[id].stats.(objectives := r[id].stats.objectives)
      && forall c :: Get(r[id].stats.objectives, c) == Get(players[id].stats.objectives, c) + SumDelta(cs, id, c)
  {
    if cs != [] {
      CreditAllAdds(players, cs[..|cs| - 1], id);
    }
  }

  /** A contributor is known when the match has it as a participant and its player record exists. */
  predicate Known(participants: map<string, Participant>, players: map<string, Player>, id: string)
  {
    id in participants && id in players
  }

  /** The first index from `i` on whose contributor is unknown, or `|cs|`. */
  function FirstUnknownFrom(participants: map<string, Participant>, players: map<string, Player>, cs: seq<Contribution>, i: nat): (k: nat)
    requires i <= |cs|
    ensures i <= k <= |cs|
    ensures forall j :: i <= j < k ==> Known(participants, players, cs[j].playerId)
    ensures k < |cs| ==> !Known(participants, players, cs[k].playerId)
    decreases |cs| - i
  {
    if i == |cs| || !Known(participants, players, cs[i].playerId) then i
    else FirstUnknownFrom(participants, players, cs, i + 1)
  }

  /** How many leading contributions are known: the handler stops at the first unknown one. */
  function KnownPrefix(participants: map<string, Participant>, players: map<string, Player>, cs: seq<Contribution>): (k: nat)
    ensures k <= |cs|
    ensures forall j :: 0 <= j < k ==> Known(participants, players, cs[j].playerId)
    ensures k < |cs| ==> !Known(participants, players, cs[k].playerId)
  {
    FirstUnknownFrom(participants, players, cs, 0)
  }

  lemma KnownPrefixGrows(participants: map<string, Participant>, players: map<string, Player>, cs: seq<Contribution>, i: nat)
    requires i < |cs| && i <= KnownPrefix(participants, players, cs)
    requires Known(participants, players, cs[i].playerId)
    ensures i + 1 <= KnownPrefix(participants, players, cs)
  {
  }

  /**
   * The contributor loop as evidently intended (a `return@forEach` rather than
   * a `return`): an unknown contributor is skipped, and the later ones are
   * still credited.
   */
  function CreditSkippingUnknown(participants: map<string, Participant>, players: map<string, Player>, cs: seq<Contribution>): (r: map<string, Player>)
    ensures r.Keys == players.Keys
  {
    if cs == [] then players
    else
      var last := cs[|cs| - 1];
      var before := CreditSkippingUnknown(participants, players, cs[..|cs| - 1]);
      if last.playerId !in participants then before
      else
        match Lookup(before, last.playerId)
        case None => before
        case Some(p) => before[last.playerId := CreditPlayer(p, last.action)]
  }

  /** Skipping unknown contributors, every known player receives all of its own contributions. */
  lemma {:induction false} SkippingUnknownCreditsEveryKnown(participants: map<string, Participant>, players: map<string, Player>, cs: seq<Contribution>, id: string)
    requires Known(participants, players, id)
    ensures var r := CreditSkippingUnknown(participants, players, cs);
      && r[id].id == players[id].id && r[id].nameLower == players[id].nameLower
      && r[id].stats == players[id].stats.(objectives := r[id].stats.objectives)
      && forall c :: Get(r[id].stats.objectives, c) == Get(players[id].stats.objectives, c) + SumDelta(cs, id, c)
  {
    if cs != [] {
      SkippingUnknownCreditsEveryKnown(participants, players, cs[..|cs| - 1], id);
    }
  }

  /**
   * As written, one unknown contributor listed first keeps a known one listed
   * after it from being credited at all; skipping it would have credited the
   * known one.
   */
  lemma UnknownContributorBlocksLaterOnes(participants: map<string, Participant>, players: map<string, Player>, known: string, unknown: string)
    requires Known(participants, players, known) && unknown !in participants
    ensures var cs := [Contribution(unknown, CoreLeak), Contribution(known, CoreLeak)];
      && KnownPrefix(participants, players, cs) == 0
      && CreditAll(players, cs[..KnownPrefix(participants, players, cs)]) == players
      && CreditSkippingUnknown(participants, players, cs)[known].stats.objectives.coreLeaks == players[known].stats.objectives.coreLeaks + 1
  {
    var cs := [Contribution(unknown, CoreLeak), Contribution(known, CoreLeak)];
    assert cs[..1] == [cs[0]] && cs[..1][..0] == [];
    assert SumDelta(cs[..1], known, CoreLeaks) == 0;
    SkippingUnknownCreditsEveryKnown(participants, players, cs, known);
  }

  /** `winningParties.isEmpty() || winningParties.count() == parties.count()` */
  predicate IsTie(winners: seq<string>, partyCount: nat)
  {
    |winners| == 0 || |winners| == partyCount
  }

  /** `winningParties.contains(partyName)`: a participant without a party is never among the winners. */
  predicate AmongWinners(winners: seq<string>, partyName: Option<string>)
  {
    partyName.Some? && partyName.value in winners
  }

  datatype MatchResult = Tied | Won | Lost | NoResult

  /**
   * The outcome counter a participant earns: exactly one outcome at most, none
   * without a party, a tie only with a party, a win only among the winners of a
   * match that is not a tie, a loss for a party that did not win.
   */
  function ResultOf(tie: bool, partyName: Option<string>, winners: seq<string>): (r: MatchResult)
    ensures partyName.None? ==> r == NoResult
    ensures r == Tied <==> tie && partyName.Some?
    ensures r == Won <==> !tie && partyName.Some? && partyName.value in winners
    ensures r == Lost <==> !tie && partyName.Some? && partyName.value !in winners
  {
    if tie && partyName.Some? then Tied
    else if !tie && AmongWinners(winners, partyName) then Won
    else if partyName.Some? && !AmongWinners(winners, partyName) then Lost
    else NoResult
  }

  /** `min(0.10 * length, 60000.0)`, over the reals. */
  function MinimumPlaytime(length: int): real
  {
    if length as real / 10.0 < 60000.0 then length as real / 10.0 else 60000.0
  }

  /** `playtime > minimumPlaytime`, stated over integers. */
  predicate PlayedEnough(playtime: int, length: int)
  {
    10 * playtime > length || playtime > 60000
  }

  /** How long after the start a participant first joined: `max(firstJoinedMatchAt - startedAt, 0)`. */
  function JoinDelay(firstJoinedMatchAt: int, startedAt: int): (d: nat)
  {
    if firstJoinedMatchAt - startedAt > 0 then firstJoinedMatchAt - startedAt else 0
  }

  /** `firstJoinedMatchAt < minimumPlaytime`, stated over integers. */
  predicate PresentAtStart(firstJoinedMatchAt: int, startedAt: int, length: int)
  {
    var delay := JoinDelay(firstJoinedMatchAt, startedAt);
    10 * delay < length && delay < 60000
  }

  /** The integer thresholds are exactly the comparisons with the real minimum playtime. */
  lemma ThresholdsMatchMinimumPlaytime(playtime: int, firstJoinedMatchAt: int, startedAt: int, length: int)
    ensures PlayedEnough(playtime, length) <==> playtime as real > MinimumPlaytime(length)
    ensures PresentAtStart(firstJoinedMatchAt, startedAt, length) <==>
      (JoinDelay(firstJoinedMatchAt, startedAt) as real) < MinimumPlaytime(length)
  {
  }

  /** A participant still in a party with a recorded join time has an open stint to close. */
  predicate NeedsAccrual(p: Participant)
  {
    p.partyName.Some? && p.joinedPartyAt.Some?
  }

  /** The open party stint added to the participant's playtime. */
  function Accrued(p: Participant, endedAt: int): (r: Participant)
    requires NeedsAccrual(p)
  {
    p.(stats := p.stats.(gamePlaytime := p.stats.gamePlaytime + (endedAt - p.joinedPartyAt.value)))
  }

  /** A tally after the reported entries, if any were reported, have been merged into it. */
  function Tallied(m: map<string, int>, reported: Option<seq<(string, int)>>): map<string, int>
  {
    match reported
    case Some(entries) => Merged(m, entries)
    case None => m
  }

  const NoBlocks := BlockStats(None, None)

  /** Block tallies, messages, bow and damage counters of the big stats added to the player's. */
  function MergeBig(stats: PlayerStats, big: BigStats): PlayerStats
  {
    stats.(
      blocksBroken := Tallied(stats.blocksBroken, big.blocks.GetOr(NoBlocks).blocksBroken),
      blocksPlaced := Tallied(stats.blocksPlaced, big.blocks.GetOr(NoBlocks).blocksPlaced),
      messages := Messages(
        stats.messages.staff + big.messages.staff,
        stats.messages.global + big.messages.global,
        stats.messages.team + big.messages.team),
      bowShotsTaken := stats.bowShotsTaken + big.bowShotsTaken,
      bowShotsHit := stats.bowShotsHit + big.bowShotsHit,
      damageGiven := stats.damageGiven + big.damageGiven,
      damageTaken := stats.damageTaken + big.damageTaken,
      damageGivenBow := stats.damageGivenBow + big.damageGivenBow)
  }

  function Bump(b: bool): int
  {
    if b then 1 else 0
  }

  /** The outcome counters: a tie, a win or a loss goes up by one, as `ResultOf` decides. */
  function WithOutcome(stats: PlayerStats, result: MatchResult): PlayerStats
  {
    stats.(
      ties := stats.ties + Bump(result == Tied),
      wins := stats.wins + Bump(result == Won),
      losses := stats.losses + Bump(result == Lost))
  }

  /** The participation counters and the playtime, from the settled participant. */
  function WithAttendance(stats: PlayerStats, p: Participant, length: int, startedAt: int): PlayerStats
  {
    var playing := p.partyName.Some?;
    stats.(
      matches := stats.matches + Bump(PlayedEnough(p.stats.gamePlaytime, length)),
      matchesPresentStart := stats.matchesPresentStart + Bump(PresentAtStart(p.firstJoinedMatchAt, startedAt, length)),
      matchesPresentFull := stats.matchesPresentFull + Bump(p.stats.timeAway < 20000 && playing),
      matchesPresentEnd := stats.matchesPresentEnd + Bump(playing),
      gamePlaytime := stats.gamePlaytime + p.stats.gamePlaytime)
  }

  /** A player's statistics once the match-end pass has settled its participant `p`. */
  function Settled(stats: PlayerStats, p: Participant, big: Option<BigStats>, data: MatchEndData, info: MatchInfo, startedAt: int): PlayerStats
  {
    var merged := if big.Some? then MergeBig(stats, big.value) else stats;
    var result := ResultOf(IsTie(data.winningParties, info.partyCount), p.partyName, data.winningParties);
    WithAttendance(WithOutcome(merged, result), p, info.length, startedAt)
  }

  /** How one participant's turn in the match-end pass ends. */
  datatype Status = Continue | Stop | Crash(error: EndError)

  datatype PassState = PassState(players: map<string, Player>, participants: map<string, Participant>)

  datatype Pass = Pass(status: Status, state: PassState)

  /**
   * One participant's turn of the match-end pass; an id with no participant
   * has nothing to settle.
   */
  function SettleStep(s: PassState, id: string, data: MatchEndData, info: MatchInfo): (r: Pass)
    ensures r.state.players.Keys == s.players.Keys && r.state.participants.Keys == s.participants.Keys
    ensures forall k :: k in s.players && k != id ==> r.state.players[k] == s.players[k]
    ensures forall k :: k in s.participants && k != id ==> r.state.participants[k] == s.participants[k]
    ensures r.status == Stop <==> id in s.participants && id !in s.players
    ensures r.status == Stop ==> r.state == s
  {
    match Lookup(s.participants, id)
    case None => Pass(Continue, s)
    case Some(p) =>
      if id !in s.players then Pass(Stop, s)
      else if NeedsAccrual(p) && info.endedAt.None? then Pass(Crash(EndedAtMissing), s)
      else
        var p' := AccruedAtEnd(p, info);
        var s' := s.(participants := s.participants[id := p']);
        if info.startedAt.None? then Pass(Crash(StartedAtMissing), s')
        else
          var player := s.players[id];
          var stats := Settled(player.stats, p', Lookup(data.bigStats, id), data, info, info.startedAt.value);
          Pass(Continue, s'.(players := s.players[id := player.(stats := stats)]))
  }

  /** A participant's turn that continues had a player record and a start time, and settled that record. */
  lemma SettleStepContinues(s: PassState, id: string, data: MatchEndData, info: MatchInfo)
    requires id in s.participants
    requires SettleStep(s, id, data, info).status == Continue
    ensures id in s.players && info.startedAt.Some?
    ensures SettleStep(s, id, data, info).state.players[id].stats ==
      Settled(s.players[id].stats, AccruedAtEnd(s.participants[id], info), Lookup(data.bigStats, id), data, info, info.startedAt.value)
  {
  }

  /** The match-end pass over participants in `order`; it ends at the first turn that does not continue. */
  function EndPass(s0: PassState, order: seq<string>, data: MatchEndData, info: MatchInfo): (r: Pass)
    ensures r.state.players.Keys == s0.players.Keys && r.state.participants.Keys == s0.participants.Keys
  {
    if order == [] then Pass(Continue, s0)
    else
      var before := EndPass(s0, order[..|order| - 1], data, info);
      if before.status != Continue then before
      else SettleStep(before.state, order[|order| - 1], data, info)
  }

  ghost predicate Enumerates(order: seq<string>, ps: map<string, Participant>)
  {
    && (forall i :: 0 <= i < |order| ==> order[i] in ps)
    && (forall i, j :: 0 <= i < j < |order| ==> order[i] != order[j])
    && (forall k :: k in ps ==> k in order)
  }

  lemma EndPassStep(s0: PassState, order: seq<string>, data: MatchEndData, info: MatchInfo, i: nat)
    requires i < |order|
    ensures var before := EndPass(s0, order[..i], data, info);
      EndPass(s0, order[..i + 1], data, info) ==
        if before.status != Continue then before else SettleStep(before.state, order[i], data, info)
  {
    assert order[..i + 1][..i] == order[..i];
  }

  /**
   * A participant without a player record stops the whole pass: everything
   * before it stays settled, and nothing after it is touched or can crash.
   */
  lemma {:induction false} MissingPlayerStopsPass(s0: PassState, order: seq<string>, data: MatchEndData, info: MatchInfo, j: nat)
    requires j < |order|
    requires EndPass(s0, order[..j], data, info).status == Continue
    requires order[j] in s0.participants && order[j] !in s0.players
    ensures EndPass(s0, order, data, info) == Pass(Stop, EndPass(s0, order[..j], data, info).state)
  {
    var n := |order| - 1;
    if n == j {
      EndPassStep(s0, order, data, info, j);
      assert order[..j + 1] == order;
    } else {
      assert order[..n][..j] == order[..j];
      MissingPlayerStopsPass(s0, order[..n], data, info, j);
    }
  }

  /** The participant as the pass settles it: its open stint closed at `endedAt`. */
  function AccruedAtEnd(p: Participant, info: MatchInfo): Participant
  {
    if NeedsAccrual(p) && info.endedAt.Some? then Accrued(p, info.endedAt.value) else p
  }

  /**
   * When the pass runs to completion over distinct participants, every
   * participant had a player record, and each record was settled exactly once,
   * from its state before the pass and its participant with the open stint closed.
   */
  lemma {:induction false} CompletedPassSettlesEach(s0: PassState, order: seq<string>, data: MatchEndData, info: MatchInfo, j: nat)
    requires forall i :: 0 <= i < |order| ==> order[i] in s0.participants
    requires forall a, b :: 0 <= a < b < |order| ==> order[a] != order[b]
    requires EndPass(s0, order, data, info).status == Continue
    requires j < |order|
    ensures info.startedAt.Some?
    ensures order[j] in s0.players
    ensures var id := order[j];
      EndPass(s0, order, data, info).state.players[id].stats ==
        Settled(s0.players[id].stats, AccruedAtEnd(s0.participants[id], info), Lookup(data.bigStats, id), data, info, info.startedAt.value)
  {
    var n := |order| - 1;
    var init := order[..n];
    var before := EndPass(s0, init, data, info);
    assert forall i :: 0 <= i < n ==> init[i] == order[i];
    if before.status != Continue {
      assert false;
    }
    var id := order[n];
    SettleStepContinues(before.state, id, data, info);
    if j == n {
      UntouchedByPass(s0, init, data, info, id);
    } else {
      CompletedPassSettlesEach(s0, init, data, info, j);
    }
  }

  /** A participant the pass never reaches keeps its record and its participant entry. */
  lemma {:induction false} UntouchedByPass(s0: PassState, order: seq<string>, data: MatchEndData, info: MatchInfo, id: string)
    requires forall i :: 0 <= i < |order| ==> order[i] != id
    ensures var s := EndPass(s0, order, data, info).state;
      && (id in s0.players ==> s.players[id] == s0.players[id])
      && (id in s0.participants ==> s.participants[id] == s0.participants[id])
  {
    if order != [] {
      UntouchedByPass(s0, order[..|order| - 1], data, info, id);
    }
  }

  /**
   * Outcome and participation at match end, for a pass that completed: at most
   * one of ties, wins and losses goes up, by one, and none without a party; a
   * tie needs a party, a win a winning party in a match that is not a tie; the
   * full-match, end-of-match and matches-played counters follow the thresholds.
   */
  lemma CompletedPassCounters(s0: PassState, order: seq<string>, data: MatchEndData, info: MatchInfo, j: nat)
    requires forall i :: 0 <= i < |order| ==> order[i] in s0.participants
    requires forall a, b :: 0 <= a < b < |order| ==> order[a] != order[b]
    requires EndPass(s0, order, data, info).status == Continue
    requires j < |order|
    ensures order[j] in s0.players
    ensures var id, tie := order[j], IsTie(data.winningParties, info.partyCount);
      var p, before := s0.participants[id], s0.players[id].stats;
      var after := EndPass(s0, order, data, info).state.players[id].stats;
      var playing := p.partyName.Some?;
      && after.ties == before.ties + Bump(tie && playing)
      && after.wins == before.wins + Bump(!tie && AmongWinners(data.winningParties, p.partyName))
      && after.losses == before.losses + Bump(!tie && playing && !AmongWinners(data.winningParties, p.partyName))
      && (after.ties - before.ties) + (after.wins - before.wins) + (after.losses - before.losses) <= 1
      && (!playing ==> after.ties == before.ties && after.wins == before.wins && after.losses == before.losses)
      && after.matchesPresentEnd == before.matchesPresentEnd + Bump(playing)
      && after.matchesPresentFull == before.matchesPresentFull + Bump(p.stats.timeAway < 20000 && playing)
      && after.matches == before.matches + Bump(PlayedEnough(AccruedAtEnd(p, info).stats.gamePlaytime, info.length))
      && after.gamePlaytime == before.gamePlaytime + AccruedAtEnd(p, info).stats.gamePlaytime
  {
    CompletedPassSettlesEach(s0, order, data, info, j);
  }

  /** Adds one player's big stats to its record, block tallies key by key. */
  method AddBigStats(stats: PlayerStats, big: BigStats) returns (r: PlayerStats)
    ensures r == MergeBig(stats, big)
  {
    var blocks := big.blocks.GetOr(NoBlocks);
    var broken := MergeCounts(stats.blocksBroken, blocks.blocksBroken);
    var placed := MergeCounts(stats.blocksPlaced, blocks.blocksPlaced);
    r := stats.(
      blocksBroken := broken,
      blocksPlaced := placed,
      messages := Messages(
        stats.messages.staff + big.messages.staff,
        stats.messages.global + big.messages.global,
        stats.messages.team + big.messages.team),
      bowShotsTaken := stats.bowShotsTaken + big.bowShotsTaken,
      bowShotsHit := stats.bowShotsHit + big.bowShotsHit,
      damageGiven := stats.damageGiven + big.damageGiven,
      damageTaken := stats.damageTaken + big.damageTaken,
      damageGivenBow := stats.damageGivenBow + big.damageGivenBow);
  }

  /** The outcome: a tie for a party in a tied match, else a win for a winning party, else a loss for a party. */
  method AddOutcome(stats: PlayerStats, tie: bool, partyName: Option<string>, winners: seq<string>) returns (r: PlayerStats)
    ensures r == WithOutcome(stats, ResultOf(tie, partyName, winners))
  {
    var isPlaying := partyName.Some?;
    r := stats;
    if tie && isPlaying {
      r := r.(ties := r.ties + 1);
    } else if !tie && AmongWinners(winners, partyName) {
      r := r.(wins := r.wins + 1);
    } else if isPlaying && !AmongWinners(winners, partyName) {
      r := r.(losses := r.losses + 1);
    }
  }

  /** Participation thresholds against `min(10% of the match length, one minute)` and the playtime. */
  method AddAttendance(stats: PlayerStats, p: Participant, length: int, startedAt: int) returns (r: PlayerStats)
    ensures r == WithAttendance(stats, p, length, startedAt)
  {
    var isPlaying := p.partyName.Some?;
    var firstJoinedMatchAt := if p.firstJoinedMatchAt - startedAt > 0 then p.firstJoinedMatchAt - startedAt else 0;
    var presentAtStart := 10 * firstJoinedMatchAt < length && firstJoinedMatchAt < 60000;
    var matches, presentStart, presentFull, presentEnd := stats.matches, stats.matchesPresentStart, stats.matchesPresentFull, stats.matchesPresentEnd;
    if 10 * p.stats.gamePlaytime > length || p.stats.gamePlaytime > 60000 {
      matches := matches + 1;
    }
    if presentAtStart {
      presentStart := presentStart + 1;
    }
    if p.stats.timeAway < 20000 && isPlaying {
      presentFull := presentFull + 1;
    }
    if isPlaying {
      presentEnd := presentEnd + 1;
    }
    r := stats.(
      matches := matches,
      matchesPresentStart := presentStart,
      matchesPresentFull := presentFull,
      matchesPresentEnd := presentEnd,
      gamePlaytime := stats.gamePlaytime + p.stats.gamePlaytime);
  }

  /** The player cache and the current match's participants, as the handlers see them. */
  class PlayerStatListener {
    var players: map<string, Player>
    var participants: map<string, Participant>

    ghost predicate Valid()
      reads this
    {
      PlayersKeyedById(players) && ParticipantsKeyedById(participants)
    }

    constructor (players: map<string, Player>, participants: map<string, Participant>)
      requires PlayersKeyedById(players) && ParticipantsKeyedById(participants)
      ensures Valid() && this.players == players && this.participants == participants
    {
      this.players := players;
      this.participants := participants;
    }

    /**
     * Death: nothing changes if the victim has no player record; otherwise its
     * deaths go up by one, and its void deaths by one exactly on a void death.
     */
    method OnDeath(victim: string, cause: DamageCause)
      requires Valid()
      modifies this`players
      ensures Valid()
      ensures victim !in old(players) ==> players == old(players)
      ensures victim in old(players) ==>
        var was := old(players[victim]);
        players == old(players)[victim := was.(stats := was.stats.(
          deaths := was.stats.deaths + 1,
          voidDeaths := was.stats.voidDeaths + if cause == Void then 1 else 0))]
    {
      var found := Lookup(players, victim);
      if found.None? {
        return;
      }
      var player := found.value;
      player := player.(stats := player.stats.(deaths := player.stats.deaths + 1));
      if cause == Void {
        player := player.(stats := player.stats.(voidDeaths := player.stats.voidDeaths + 1));
      }
      players := players[victim := player];
    }

    /**
     * Kill: nothing changes without an attacker, when either record is missing,
     * or on a self-kill. Otherwise the attacker gains a kill, a kill with the
     * weapon ("NONE" when unnamed) and a void kill on a void death; while the
     * match has no first blood, the attacker gains a first blood and the victim
     * a first blood suffered. The match's first-blood record is only read.
     */
    method OnKill(attacker: Option<string>, victim: string, weapon: Option<string>, cause: DamageCause, firstBloodTaken: bool)
      requires Valid()
      modifies this`players
      ensures Valid()
      ensures attacker.None? || attacker.value !in old(players) || victim !in old(players) || attacker.value == victim ==>
        players == old(players)
      ensures attacker.Some? && attacker.value in old(players) && victim in old(players) && attacker.value != victim ==>
        var a, v := old(players[attacker.value]), old(players[victim]);
        players == old(players)
          [attacker.value := a.(stats := a.stats.(
             kills := a.stats.kills + 1,
             weaponKills := WeaponKill(a.stats.weaponKills, weapon.GetOr("NONE")),
             voidKills := a.stats.voidKills + (if cause == Void then 1 else 0),
             firstBloods := a.stats.firstBloods + (if firstBloodTaken then 0 else 1)))]
          [victim := v.(stats := v.stats.(
             firstBloodsSuffered := v.stats.firstBloodsSuffered + (if firstBloodTaken then 0 else 1)))]
    {
      if attacker.None? {
        return;
      }
      var foundAttacker := Lookup(players, attacker.value);
      if foundAttacker.None? {
        return;
      }
      var foundVictim := Lookup(players, victim);
      if foundVictim.None? {
        return;
      }
      var a, v := foundAttacker.value, foundVictim.value;
      if v.id == a.id {
        return;
      }
      var aStats := a.stats.(kills := a.stats.kills + 1);
      var weaponName := weapon.GetOr("NONE");
      aStats := aStats.(weaponKills := aStats.weaponKills[weaponName := Count(aStats.weaponKills, weaponName) + 1]);
      if cause == Void {
        aStats := aStats.(voidKills := aStats.voidKills + 1);
      }
      var vStats := v.stats;
      if !firstBloodTaken {
        vStats := vStats.(firstBloodsSuffered := vStats.firstBloodsSuffered + 1);
        aStats := aStats.(firstBloods := aStats.firstBloods + 1);
      }
      players := players[a.id := a.(stats := aStats)];
      players := players[v.id := v.(stats := vStats)];
    }

    /** One contributor's turn: credited when it is a participant with a player record, else nothing changes. */
    method CreditNext(ghost players0: map<string, Player>, cs: seq<Contribution>, i: nat) returns (credited: bool)
      requires Valid() && i < |cs|
      requires players == CreditAll(players0, cs[..i])
      modifies this`players
      ensures Valid()
      ensures credited <==> Known(participants, players0, cs[i].playerId)
      ensures players == CreditAll(players0, cs[..if credited then i + 1 else i])
    {
      var id := cs[i].playerId;
      if id !in participants || id !in players {
        return false;
      }
      CreditAllStep(players0, cs, i);
      players := players[id := CreditPlayer(players[id], cs[i].action)];
      return true;
    }

    /**
     * Core leak, control point capture and destroyable destroy: contributors
     * are credited in order until the first one that is not a participant or has
     * no player record; that one and every later one get nothing.
     */
    method CreditContributors(cs: seq<Contribution>)
      requires Valid()
      modifies this`players
      ensures Valid()
      ensures var k := KnownPrefix(participants, old(players), cs);
        players == CreditAll(old(players), cs[..k])
    {
      ghost var players0, participants0 := players, participants;
      var i := 0;
      while i < |cs|
        invariant 0 <= i <= |cs|
        invariant participants == participants0
        invariant i <= KnownPrefix(participants0, players0, cs)
        invariant players == CreditAll(players0, cs[..i])
        invariant Valid()
      {
        var credited := CreditNext(players0, cs, i);
        if !credited {
          break;
        }
        KnownPrefixGrows(participants0, players0, cs, i);
        i := i + 1;
      }
    }

    method OnCoreLeak(playerIds: seq<string>)
      requires Valid()
      modifies this`players
      ensures Valid()
      ensures var cs := Contributions(playerIds, CoreLeak);
        players == CreditAll(old(players), cs[..KnownPrefix(participants, old(players), cs)])
    {
      CreditContributors(Contributions(playerIds, CoreLeak));
    }

    method OnControlPointCapture(playerIds: seq<string>)
      requires Valid()
      modifies this`players
      ensures Valid()
      ensures var cs := Contributions(playerIds, ControlPointCapture);
        players == CreditAll(old(players), cs[..KnownPrefix(participants, old(players), cs)])
    {
      CreditContributors(Contributions(playerIds, ControlPointCapture));
    }

    method OnDestroyableDestroy(contributions: seq<(string, int)>)
      requires Valid()
      modifies this`players
      ensures Valid()
      ensures var cs := Destroys(contributions);
        players == CreditAll(old(players), cs[..KnownPrefix(participants, old(players), cs)])
    {
      CreditContributors(Destroys(contributions));
    }

    /**
     * Flag place, pickup, drop and defend and wool place, pickup, drop and
     * defend: the event's participant's player record, if any, is credited with
     * the event's action; nothing else changes.
     */
    method OnPlayerObjective(player: string, action: Action)
      requires Valid()
      modifies this`players
      ensures Valid()
      ensures player !in old(players) ==> players == old(players)
      ensures player in old(players) ==> players == old(players)[player := CreditPlayer(old(players[player]), action)]
    {
      var found := Lookup(players, player);
      if found.None? {
        return;
      }
      players := players[player := CreditPlayer(found.value, action)];
    }

    /** One participant's turn of the match-end pass, as `SettleStep` describes it. */
    method Settle(id: string, data: MatchEndData, info: MatchInfo, tie: bool) returns (status: Status)
      requires Valid() && id in participants
      requires tie == IsTie(data.winningParties, info.partyCount)
      modifies this
      ensures Valid()
      ensures Pass(status, PassState(players, participants)) == SettleStep(PassState(old(players), old(participants)), id, data, info)
    {
      var p := participants[id];
      var found := Lookup(players, id);
      if found.None? {
        return Stop;
      }
      var player := found.value;
      var big := Lookup(data.bigStats, id);
      var isPlaying := p.partyName.Some?;
      var joinedPartyAt := p.joinedPartyAt;
      if isPlaying && joinedPartyAt.Some? {
        if info.endedAt.None? {
          return Crash(EndedAtMissing);
        }
        p := p.(stats := p.stats.(gamePlaytime := p.stats.gamePlaytime + (info.endedAt.value - joinedPartyAt.value)));
      }
      assert p == AccruedAtEnd(old(participants)[id], info);
      participants := participants[id := p];
      var stats := player.stats;
      if big.Some? {
        stats := AddBigStats(stats, big.value);
      }
      stats := AddOutcome(stats, tie, p.partyName, data.winningParties);
      if info.startedAt.None? {
        return Crash(StartedAtMissing);
      }
      stats := AddAttendance(stats, p, info.length, info.startedAt.value);
      players := players[id := player.(stats := stats)];
      return Continue;
    }

    /** The next turn of the match-end pass, extending the pass over `order[..i]` by `order[i]`. */
    method SettleNext(ghost s0: PassState, order: seq<string>, i: nat, data: MatchEndData, info: MatchInfo, tie: bool) returns (status: Status)
      requires Valid() && i < |order|
      requires forall j :: 0 <= j < |order| ==> order[j] in s0.participants
      requires participants.Keys == s0.participants.Keys
      requires tie == IsTie(data.winningParties, info.partyCount)
      requires EndPass(s0, order[..i], data, info) == Pass(Continue, PassState(players, participants))
      modifies this
      ensures Valid() && participants.Keys == s0.participants.Keys
      ensures EndPass(s0, order[..i + 1], data, info) == Pass(status, PassState(players, participants))
    {
      EndPassStep(s0, order, data, info, i);
      status := Settle(order[i], data, info, tie);
    }

    /**
     * Match end: settles the participants in `order`, the iteration order of
     * the participant map, stopping silently at the first one without a player
     * record and failing at a missing end or start time.
     */
    method OnMatchEnd(data: MatchEndData, info: MatchInfo, order: seq<string>) returns (err: Option<EndError>)
      requires Valid()
      requires Enumerates(order, participants)
      modifies this
      ensures Valid()
      ensures var pass := EndPass(PassState(old(players), old(participants)), order, data, info);
        && PassState(players, participants) == pass.state
        && err == (if pass.status.Crash? then Some(pass.status.error) else None)
    {
      var tie := IsTie(data.winningParties, info.partyCount);
      ghost var s0 := PassState(players, participants);
      var i := 0;
      while i < |order|
        invariant 0 <= i <= |order|
        invariant Valid()
        invariant participants.Keys == s0.participants.Keys
        invariant EndPass(s0, order[..i], data, info) == Pass(Continue, PassState(players, participants))
      {
        var status := SettleNext(s0, order, i, data, info, tie);
        if status != Continue {
          MissingOrCrashEndsPass(s0, order, data, info, i + 1);
          return if status.Crash? then Some(status.error) else None;
        }
        i := i + 1;
      }
      assert order[..i] == order;
      return None;
    }
  }

  /** Once a turn does not continue, the rest of the order changes nothing. */
  lemma {:induction false} MissingOrCrashEndsPass(s0: PassState, order: seq<string>, data: MatchEndData, info: MatchInfo, j: nat)
    requires j <= |order|
    requires EndPass(s0, order[..j], data, info).status != Continue
    ensures EndPass(s0, order, data, info) == EndPass(s0, order[..j], data, info)
  {
    if |order| == j {
      assert order[..j] == order;
    } else {
      var n := |order| - 1;
      assert order[..n][..j] == order[..j];
      MissingOrCrashEndsPass(s0, order[..n], data, info, j);
    }
  }
}
