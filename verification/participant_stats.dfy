/**
 * The older stat listener: it keeps statistics on the match's participants
 * (not on the durable player records), tracks weapon kills, duels and the
 * match's first blood, and dereferences unknown contributors with `!!`, so an
 * unknown contributor aborts the handler with an exception.
 */
module ParticipantStatListener {
  import opened Wrappers
  import opened StatRecords

  datatype WeaponDamageData = WeaponDamageData(kills: int)

  /** One side of a head-to-head record; `Duel()` starts both counts at 0. */
  datatype Duel = Duel(kills: int, deaths: int)

  datatype ParticipantStats = ParticipantStats(
    deaths: int,
    voidDeaths: int,
    kills: int,
    voidKills: int,
    weapons: map<string, WeaponDamageData>,
    duels: map<string, Duel>,
    objectives: Objectives)

  datatype SimplePlayer = SimplePlayer(name: string, id: string)

  datatype Participant = Participant(id: string, name: string, stats: ParticipantStats)

  datatype FirstBlood = FirstBlood(attacker: SimplePlayer, victim: SimplePlayer, date: int)

  /** The NullPointerException an unknown contributor raises. */
  datatype ContributorError = UnknownContributor(playerId: string)

  function Simple(p: Participant): SimplePlayer
  {
    SimplePlayer(p.name, p.id)
  }

  ghost predicate KeyedById(ps: map<string, Participant>)
  {
    forall k :: k in ps ==> ps[k].id == k
  }

  /** `weapons[w] = (weapons[w] ?: WeaponDamageData(0)).kills + 1` */
  function WeaponKill(weapons: map<string, WeaponDamageData>, w: string): (r: map<string, WeaponDamageData>)
    ensures r.Keys == weapons.Keys + {w}
    ensures r[w].kills == Lookup(weapons, w).GetOr(WeaponDamageData(0)).kills + 1
    ensures forall v :: v in weapons && v != w ==> r[v] == weapons[v]
  {
    var data := Lookup(weapons, w).GetOr(WeaponDamageData(0));
    weapons[w := data.(kills := data.kills + 1)]
  }

  /** The duel record against `opponent` after one more kill (`kill`) or death (`!kill`). */
  function DuelAfter(duels: map<string, Duel>, opponent: string, kill: bool): (r: map<string, Duel>)
    ensures r.Keys == duels.Keys + {opponent}
    ensures var before := Lookup(duels, opponent).GetOr(Duel(0, 0));
      if kill then r[opponent] == Duel(before.kills + 1, before.deaths)
      else r[opponent] == Duel(before.kills, before.deaths + 1)
    ensures forall o :: o in duels && o != opponent ==> r[o] == duels[o]
  {
    var duel := Lookup(duels, opponent).GetOr(Duel(0, 0));
    duels[opponent := if kill then duel.(kills := duel.kills + 1) else duel.(deaths := duel.deaths + 1)]
  }

  /** The first-blood record after a counted kill: set only when still unset. */
  function RecordFirstBlood(fb: Option<FirstBlood>, attacker: SimplePlayer, victim: SimplePlayer, now: int): (r: Option<FirstBlood>)
    ensures r.Some?
    ensures fb.Some? ==> r == fb
    ensures fb.None? ==> r.value.attacker == attacker && r.value.victim == victim
  {
    if fb.None? then Some(FirstBlood(attacker, victim, now)) else fb
  }

  /** A kill as the first-blood rule sees it: attacker (if any), victim, time. */
  datatype Kill = Kill(attacker: Option<SimplePlayer>, victim: SimplePlayer, at: int)

  predicate Counts(k: Kill)
  {
    k.attacker.Some? && k.attacker.value.id != k.victim.id
  }

  /** The first-blood record after a series of kills, each handled in turn. */
  function AfterKills(fb: Option<FirstBlood>, ks: seq<Kill>): Option<FirstBlood>
    decreases ks
  {
    if ks == [] then fb
    else
      var k := ks[0];
      AfterKills(if Counts(k) then RecordFirstBlood(fb, k.attacker.value, k.victim, k.at) else fb, ks[1..])
  }

  /** The first counted kill of a series, as a first-blood record. */
  function FirstCountedKill(ks: seq<Kill>): Option<FirstBlood>
  {
    if ks == [] then None
    else if Counts(ks[0]) then Some(FirstBlood(ks[0].attacker.value, ks[0].victim, ks[0].at))
    else FirstCountedKill(ks[1..])
  }

  /** Once set, first blood never changes, whatever kills follow. */
  lemma {:induction false} FirstBloodIsSetOnce(fb: FirstBlood, ks: seq<Kill>)
    ensures AfterKills(Some(fb), ks) == Some(fb)
  {
    if ks != [] {
      FirstBloodIsSetOnce(fb, ks[1..]);
    }
  }

  /** From an unset record, first blood ends up as the first kill that counts. */
  lemma {:induction false} FirstBloodIsFirstCountedKill(ks: seq<Kill>)
    ensures AfterKills(None, ks) == FirstCountedKill(ks)
  {
    if ks != [] {
      if Counts(ks[0]) {
        FirstBloodIsSetOnce(FirstBlood(ks[0].attacker.value, ks[0].victim, ks[0].at), ks[1..]);
      } else {
        FirstBloodIsFirstCountedKill(ks[1..]);
      }
    }
  }

  /** A participant credited with one objective action; nothing but the objective counters changes. */
  function CreditParticipant(p: Participant, a: Action): (r: Participant)
    ensures r.id == p.id && r.name == p.name
    ensures r.stats.objectives == Credit(p.stats.objectives, a)
    ensures r.stats == p.stats.(objectives := r.stats.objectives)
  {
    p.(stats := p.stats.(objectives := Credit(p.stats.objectives, a)))
  }

  /** Every contributor names a participant of the match. */
  ghost predicate AllKnown(ps: map<string, Participant>, cs: seq<Contribution>)
  {
    forall i :: 0 <= i < |cs| ==> cs[i].playerId in ps
  }

  /**
   * The participants after every contribution is credited in order. A
   * contributor that is not a participant is passed over (the handlers never
   * credit one: they fail on it first).
   */
  function CreditAll(ps: map<string, Participant>, cs: seq<Contribution>): (r: map<string, Participant>)
    ensures r.Keys == ps.Keys
  {
    if cs == [] then ps
    else
      var last := cs[|cs| - 1];
      var before := CreditAll(ps, cs[..|cs| - 1]);
      match Lookup(before, last.playerId)
      case None => before
      case Some(p) => before[last.playerId := CreditParticipant(p, last.action)]
  }

  lemma CreditAllStep(ps: map<string, Participant>, cs: seq<Contribution>, i: nat)
    requires i < |cs| && cs[i].playerId in ps
    ensures var before := CreditAll(ps, cs[..i]);
      CreditAll(ps, cs[..i + 1]) == before[cs[i].playerId := CreditParticipant(before[cs[i].playerId], cs[i].action)]
  {
    assert cs[..i + 1][..i] == cs[..i];
  }

  /**
   * Crediting a series of contributions adds to each participant's counters the
   * sum of its own contributions' deltas, and touches nothing else of it.
   */
  lemma {:induction false} CreditAllAdds(ps: map<string, Participant>, cs: seq<Contribution>, player: string)
    requires player in ps
    ensures var r := CreditAll(ps, cs);
      && r[player].id == ps[player].id && r[player].name == ps[player].name
      && r[player].stats == ps[player].stats.(objectives := r[player].stats.objectives)
      && forall c :: Get(r[player].stats.objectives, c) == Get(ps[player].stats.objectives, c) + SumDelta(cs, player, c)
  {
    if cs != [] {
      CreditAllAdds(ps, cs[..|cs| - 1], player);
    }
  }

  /** A participant with no contribution in the series is left exactly as it was. */
  lemma CreditAllSkips(ps: map<string, Participant>, cs: seq<Contribution>, player: string)
    requires player in ps
    requires forall i :: 0 <= i < |cs| ==> cs[i].playerId != player
    ensures CreditAll(ps, cs)[player] == ps[player]
  {
    var r := CreditAll(ps, cs);
    CreditAllAdds(ps, cs, player);
    NoContributionNoDelta(cs, player);
    CountersDetermine(r[player].stats.objectives, ps[player].stats.objectives);
  }

  /** The first index from `i` on whose contributor is not a participant, or `|cs|`. */
  function FirstUnknownFrom(ps: map<string, Participant>, cs: seq<Contribution>, i: nat): (k: nat)
    requires i <= |cs|
    ensures i <= k <= |cs|
    ensures forall j :: i <= j < k ==> cs[j].playerId in ps
    ensures k < |cs| ==> cs[k].playerId !in ps
    decreases |cs| - i
  {
    if i == |cs| || cs[i].playerId !in ps then i
    else FirstUnknownFrom(ps, cs, i + 1)
  }

  /** How many leading contributions name a participant. */
  function KnownPrefix(ps: map<string, Participant>, cs: seq<Contribution>): (k: nat)
    ensures k <= |cs|
    ensures forall j :: 0 <= j < k ==> cs[j].playerId in ps
    ensures k < |cs| ==> cs[k].playerId !in ps
  {
    FirstUnknownFrom(ps, cs, 0)
  }

  lemma KnownPrefixGrows(ps: map<string, Participant>, cs: seq<Contribution>, i: nat)
    requires i < |cs| && i <= KnownPrefix(ps, cs)
    requires cs[i].playerId in ps
    ensures i + 1 <= KnownPrefix(ps, cs)
  {
  }

  /** Every contributor is known exactly when the known prefix is the whole series. */
  lemma AllKnownIsWholePrefix(ps: map<string, Participant>, cs: seq<Contribution>)
    ensures AllKnown(ps, cs) <==> KnownPrefix(ps, cs) == |cs|
  {
  }

  /** The match's participants and first-blood record, which these handlers mutate. */
  class MatchStats {
    var participants: map<string, Participant>
    var firstBlood: Option<FirstBlood>

    ghost predicate Valid()
      reads this
    {
      KeyedById(participants)
    }

    constructor (participants: map<string, Participant>, firstBlood: Option<FirstBlood>)
      requires KeyedById(participants)
      ensures Valid() && this.participants == participants && this.firstBlood == firstBlood
    {
      this.participants := participants;
      this.firstBlood := firstBlood;
    }

    /** Death: the victim's deaths go up by one, and its void deaths by one exactly on a void death. */
    method OnDeath(victim: string, cause: DamageCause)
      requires Valid()
      requires victim in participants
      modifies this`participants
      ensures Valid()
      ensures participants.Keys == old(participants.Keys)
      ensures var was := old(participants[victim]);
        participants[victim] == was.(stats := was.stats.(
          deaths := was.stats.deaths + 1,
          voidDeaths := was.stats.voidDeaths + if cause == Void then 1 else 0))
      ensures forall k :: k in participants && k != victim ==> participants[k] == old(participants[k])
    {
      var p := participants[victim];
      var stats := p.stats.(deaths := p.stats.deaths + 1);
      if cause == Void {
        stats := stats.(voidDeaths := stats.voidDeaths + 1);
      }
      participants := participants[victim := p.(stats := stats)];
    }

    /**
     * Kill: without an attacker, or when the attacker is the victim, nothing
     * changes. Otherwise the attacker gains a kill, a kill with the weapon
     * ("NONE" when unnamed), a kill in its duel against the victim and a void
     * kill on a void death; the victim gains a death in its duel against the
     * attacker; and first blood is recorded if the match has none yet.
     */
    method OnKill(attacker: Option<string>, victim: string, weapon: Option<string>, cause: DamageCause, now: int)
      requires Valid()
      requires victim in participants
      requires attacker.Some? ==> attacker.value in participants
      modifies this
      ensures Valid()
      ensures participants.Keys == old(participants.Keys)
      ensures attacker.None? || attacker.value == victim ==> unchanged(this)
      ensures attacker.Some? && attacker.value != victim ==>
        var a, v := old(participants[attacker.value]), old(participants[victim]);
        && participants[attacker.value] == a.(stats := a.stats.(
             kills := a.stats.kills + 1,
             voidKills := a.stats.voidKills + (if cause == Void then 1 else 0),
             weapons := WeaponKill(a.stats.weapons, weapon.GetOr("NONE")),
             duels := DuelAfter(a.stats.duels, victim, true)))
        && participants[victim] == v.(stats := v.stats.(duels := DuelAfter(v.stats.duels, attacker.value, false)))
        && firstBlood == RecordFirstBlood(old(firstBlood), Simple(a), Simple(v), now)
        && forall k :: k in participants && k != attacker.value && k != victim ==> participants[k] == old(participants[k])
    {
      if attacker.None? {
        return;
      }
      var a := participants[attacker.value];
      var v := participants[victim];
      if v.id == a.id {
        return;
      }
      var aStats := a.stats.(kills := a.stats.kills + 1);
      aStats := aStats.(weapons := WeaponKill(aStats.weapons, weapon.GetOr("NONE")));
      aStats := aStats.(duels := DuelAfter(aStats.duels, v.id, true));
      var vStats := v.stats.(duels := DuelAfter(v.stats.duels, a.id, false));
      if cause == Void {
        aStats := aStats.(voidKills := aStats.voidKills + 1);
      }
      if firstBlood.None? {
        firstBlood := Some(FirstBlood(Simple(a), Simple(v), now));
      }
      participants := participants[a.id := a.(stats := aStats)][v.id := v.(stats := vStats)];
    }

    /** Credits contribution `i` when its contributor is a participant; reports whether it was. */
    method CreditNext(ghost ps0: map<string, Participant>, cs: seq<Contribution>, i: nat) returns (credited: bool)
      requires Valid() && i < |cs|
      requires participants == CreditAll(ps0, cs[..i])
      modifies this`participants
      ensures Valid()
      ensures credited <==> cs[i].playerId in ps0
      ensures participants == CreditAll(ps0, cs[..if credited then i + 1 else i])
    {
      var id := cs[i].playerId;
      if id !in participants {
        return false;
      }
      CreditAllStep(ps0, cs, i);
      participants := participants[id := CreditParticipant(participants[id], cs[i].action)];
      return true;
    }

    /**
     * Looks up and credits one contributor at a time (`!!` on each lookup):
     * the contributors before the first unknown one are credited, and the
     * unknown one is reported.
     */
    method CreditUntilUnknown(cs: seq<Contribution>) returns (err: Option<ContributorError>)
      requires Valid()
      modifies this`participants
      ensures Valid()
      ensures var k := KnownPrefix(old(participants), cs);
        && participants == CreditAll(old(participants), cs[..k])
        && (err.Some? <==> k < |cs|)
        && (err.Some? ==> err.value == UnknownContributor(cs[k].playerId))
    {
      ghost var ps0 := participants;
      var i := 0;
      while i < |cs|
        invariant 0 <= i <= |cs|
        invariant i <= KnownPrefix(ps0, cs)
        invariant participants == CreditAll(ps0, cs[..i])
        invariant Valid()
      {
        var credited := CreditNext(ps0, cs, i);
        if !credited {
          return Some(UnknownContributor(cs[i].playerId));
        }
        KnownPrefixGrows(ps0, cs, i);
        i := i + 1;
      }
      return None;
    }

    /** Looks up every contributor first (`!!`), failing on the first unknown one before any change. */
    method CheckContributors(cs: seq<Contribution>) returns (err: Option<ContributorError>)
      ensures err.None? <==> AllKnown(participants, cs)
      ensures err.Some? ==> err.value == UnknownContributor(cs[KnownPrefix(participants, cs)].playerId)
    {
      AllKnownIsWholePrefix(participants, cs);
      var i := 0;
      while i < |cs|
        invariant 0 <= i <= |cs|
        invariant i <= KnownPrefix(participants, cs)
      {
        if cs[i].playerId !in participants {
          return Some(UnknownContributor(cs[i].playerId));
        }
        i := i + 1;
      }
      return None;
    }

    /** All or nothing: checks every contributor, then credits them all. */
    method CreditAllOrNothing(cs: seq<Contribution>) returns (err: Option<ContributorError>)
      requires Valid()
      modifies this`participants
      ensures Valid()
      ensures err.Some? <==> !AllKnown(old(participants), cs)
      ensures err.Some? ==> participants == old(participants)
      ensures err.None? ==> participants == CreditAll(old(participants), cs)
    {
      err := CheckContributors(cs);
      if err.None? {
        AllKnownIsWholePrefix(participants, cs);
        var _ := CreditUntilUnknown(cs);
        assert cs[..|cs|] == cs;
      }
    }

    /**
     * Core leak: all or nothing. With an unknown contributor nothing changes;
     * otherwise each listed contributor gains one core leak per listing.
     */
    method OnCoreLeak(playerIds: seq<string>) returns (err: Option<ContributorError>)
      requires Valid()
      modifies this`participants
      ensures Valid()
      ensures err.Some? <==> exists i :: 0 <= i < |playerIds| && playerIds[i] !in old(participants)
      ensures err.Some? ==> participants == old(participants)
      ensures err.None? ==> participants == CreditAll(old(participants), Contributions(playerIds, CoreLeak))
    {
      err := CreditAllOrNothing(Contributions(playerIds, CoreLeak));
    }

    /** Control point capture: all or nothing, like the core leak, on the capture counter. */
    method OnControlPointCapture(playerIds: seq<string>) returns (err: Option<ContributorError>)
      requires Valid()
      modifies this`participants
      ensures Valid()
      ensures err.Some? <==> exists i :: 0 <= i < |playerIds| && playerIds[i] !in old(participants)
      ensures err.Some? ==> participants == old(participants)
      ensures err.None? ==> participants == CreditAll(old(participants), Contributions(playerIds, ControlPointCapture))
    {
      err := CreditAllOrNothing(Contributions(playerIds, ControlPointCapture));
    }

    /**
     * Destroyable destroy: looks up and credits one contributor at a time, so an
     * unknown contributor fails after every earlier one has already received its
     * destroy and its block count, and no later one has.
     */
    method OnDestroyableDestroy(contributions: seq<(string, int)>) returns (err: Option<ContributorError>)
      requires Valid()
      modifies this`participants
      ensures Valid()
      ensures var cs := Destroys(contributions);
        && (err.Some? <==> KnownPrefix(old(participants), cs) < |cs|)
        && participants == CreditAll(old(participants), cs[..KnownPrefix(old(participants), cs)])
    {
      err := CreditUntilUnknown(Destroys(contributions));
    }

    /**
     * Flag place, pickup, drop and defend and wool place, pickup, drop and
     * defend: the event's own participant is credited with the event's action;
     * nothing else changes.
     */
    method OnPlayerObjective(player: string, action: Action)
      requires Valid()
      requires player in participants
      modifies this`participants
      ensures Valid()
      ensures participants == old(participants)[player := CreditParticipant(old(participants[player]), action)]
    {
      participants := participants[player := CreditParticipant(participants[player], action)];
    }

    /** Match end only logs the event data: no state changes. */
    method OnMatchEnd()
      ensures unchanged(this)
    {
    }
  }
}
