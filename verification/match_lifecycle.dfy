/**
 * The live match a game server drives through its socket: a match is loaded,
 * started and ended, and players join and leave its parties in between.
 * Every handler works on the server's current match in place; the handlers'
 * RuntimeExceptions become a returned `MatchError`.
 */
module MatchLifecycle {
  import opened Wrappers

  datatype PartyData = PartyData(name: string, alias: string, colour: string, min: int, max: int)
  datatype MatchLoadData = MatchLoadData(mapId: string, parties: seq<PartyData>)
  datatype LiveMatchPlayer = LiveMatchPlayer(name: string, id: string, partyName: Option<string>)
  /** The roster of a start event, in the order the decoded set iterates it. */
  datatype MatchStartData = MatchStartData(participants: seq<LiveMatchPlayer>)
  datatype PartyJoinData = PartyJoinData(playerId: string, playerName: string, partyName: string)
  datatype PartyLeaveData = PartyLeaveData(playerId: string, playerName: string)

  datatype LiveParty = LiveParty(name: string, alias: string, colour: string, min: int, max: int)

  /** The entries of a match's event log. */
  datatype MatchEvent =
    | MatchLoadEvent(load: MatchLoadData)
    | MatchStartEvent(start: MatchStartData)
    | PartyJoinEvent(join: PartyJoinData)
    | PartyLeaveEvent(leave: PartyLeaveData)

  /** A socket event as `handle` sees it, with its payload already decoded. */
  datatype SocketEvent =
    | MatchLoad(loadData: MatchLoadData)
    | MatchStart(startData: MatchStartData)
    | MatchEnd
    | PartyJoin(joinData: PartyJoinData)
    | PartyLeave(leaveData: PartyLeaveData)
    | OtherEvent(kind: string)

  /** The exceptions the handlers throw. */
  datatype MatchError =
    | StartingNonExistentMatch
    | StartingStartedMatch
    | EndingNonExistentMatch
    | JoiningWithoutMatch
    | PartyNotFound(partyName: string)
    | LeavingWithoutMatch
    | NeverInParty(playerId: string)

  datatype Phase = Loaded | Started | Ended

  /** Every participant is stored under its own id. */
  ghost predicate KeyedById(ps: map<string, LiveMatchPlayer>)
  {
    forall k :: k in ps ==> ps[k].id == k
  }

  function ToLiveParty(p: PartyData): LiveParty
  {
    LiveParty(p.name, p.alias, p.colour, p.min, p.max)
  }

  /** The parties of a load event copied into live parties, in order. */
  function LiveParties(ps: seq<PartyData>): (r: seq<LiveParty>)
    ensures |r| == |ps|
    ensures forall i :: 0 <= i < |ps| ==>
      r[i].name == ps[i].name && r[i].alias == ps[i].alias && r[i].colour == ps[i].colour &&
      r[i].min == ps[i].min && r[i].max == ps[i].max
  {
    seq(|ps|, i requires 0 <= i < |ps| => ToLiveParty(ps[i]))
  }

  /** `parties.find { it.name == name }`: the first party with that name. */
  function FindParty(parties: seq<LiveParty>, name: string): (r: Option<LiveParty>)
    ensures r.Some? <==> exists i :: 0 <= i < |parties| && parties[i].name == name
    ensures r.Some? ==> r.value.name == name && r.value in parties
  {
    if parties == [] then None
    else if parties[0].name == name then Some(parties[0])
    else FindParty(parties[1..], name)
  }

  /** The participants a roster puts in place, a later entry replacing an earlier one with the same id. */
  function RosterMap(roster: seq<LiveMatchPlayer>): (r: map<string, LiveMatchPlayer>)
    ensures KeyedById(r)
    ensures r.Keys == set p | p in roster :: p.id
  {
    if roster == [] then map[]
    else
      var last := roster[|roster| - 1];
      RosterMap(roster[..|roster| - 1])[last.id := last]
  }

  lemma RosterStep(base: map<string, LiveMatchPlayer>, roster: seq<LiveMatchPlayer>, i: nat)
    requires i < |roster|
    ensures (base + RosterMap(roster[..i]))[roster[i].id := roster[i]] == base + RosterMap(roster[..i + 1])
  {
    assert roster[..i + 1][..i] == roster[..i];
  }

  /** A roster entry whose id no later entry repeats is the participant stored under that id. */
  lemma {:induction false} RosterMapLastWins(roster: seq<LiveMatchPlayer>, i: nat)
    requires i < |roster|
    requires forall j :: i < j < |roster| ==> roster[j].id != roster[i].id
    ensures roster[i].id in RosterMap(roster)
    ensures RosterMap(roster)[roster[i].id] == roster[i]
  {
    if i < |roster| - 1 {
      RosterMapLastWins(roster[..|roster| - 1], i);
    }
  }

  /** The participants after a successful party join. */
  function Joined(ps: map<string, LiveMatchPlayer>, d: PartyJoinData): (r: map<string, LiveMatchPlayer>)
    ensures r.Keys == ps.Keys + {d.playerId}
    ensures r[d.playerId].partyName == Some(d.partyName)
    ensures d.playerId in ps ==> r[d.playerId] == ps[d.playerId].(partyName := Some(d.partyName))
    ensures d.playerId !in ps ==> r[d.playerId] == LiveMatchPlayer(d.playerName, d.playerId, Some(d.partyName))
    ensures forall k :: k in ps && k != d.playerId ==> r[k] == ps[k]
    ensures KeyedById(ps) ==> KeyedById(r)
  {
    if d.playerId in ps then ps[d.playerId := ps[d.playerId].(partyName := Some(d.partyName))]
    else ps[d.playerId := LiveMatchPlayer(d.playerName, d.playerId, Some(d.partyName))]
  }

  /** The participants after a successful party leave. */
  function Left(ps: map<string, LiveMatchPlayer>, d: PartyLeaveData): (r: map<string, LiveMatchPlayer>)
    requires d.playerId in ps
    ensures r.Keys == ps.Keys
    ensures r[d.playerId] == ps[d.playerId].(partyName := None)
    ensures forall k :: k in ps && k != d.playerId ==> r[k] == ps[k]
    ensures KeyedById(ps) ==> KeyedById(r)
  {
    ps[d.playerId := ps[d.playerId].(partyName := None)]
  }

  /** A party join or leave, as a step of a history. */
  datatype PartyMove = Join(join: PartyJoinData) | Leave(leave: PartyLeaveData)

  function MovedPlayer(m: PartyMove): string
  {
    match m
    case Join(d) => d.playerId
    case Leave(d) => d.playerId
  }

  /** One move applied to the participants, or None where its handler throws. */
  function ApplyMove(ps: map<string, LiveMatchPlayer>, parties: seq<LiveParty>, m: PartyMove): (r: Option<map<string, LiveMatchPlayer>>)
    ensures r.Some? <==> match m
      case Join(d) => exists i :: 0 <= i < |parties| && parties[i].name == d.partyName
      case Leave(d) => d.playerId in ps
  {
    match m
    case Join(d) => if FindParty(parties, d.partyName).Some? then Some(Joined(ps, d)) else None
    case Leave(d) => if d.playerId in ps then Some(Left(ps, d)) else None
  }

  /** A history of moves applied in order; None once one of them fails. */
  function ApplyMoves(ps: map<string, LiveMatchPlayer>, parties: seq<LiveParty>, ms: seq<PartyMove>): Option<map<string, LiveMatchPlayer>>
  {
    if ms == [] then Some(ps)
    else match ApplyMoves(ps, parties, ms[..|ms| - 1])
      case None => None
      case Some(before) => ApplyMove(before, parties, ms[|ms| - 1])
  }

  /**
   * The party a player ends up in according to a history alone: the party of
   * their last join, or None after a later leave; None at the outer level when
   * the history never moves them.
   */
  function LastParty(ms: seq<PartyMove>, player: string): Option<Option<string>>
  {
    if ms == [] then None
    else
      var m := ms[|ms| - 1];
      if MovedPlayer(m) == player then
        match m
        case Join(d) => Some(Some(d.partyName))
        case Leave(_) => Some(None)
      else LastParty(ms[..|ms| - 1], player)
  }

  /** A history that only succeeds leaves players it never moves exactly as they were. */
  lemma {:induction false} UnmovedPlayerKept(ps: map<string, LiveMatchPlayer>, parties: seq<LiveParty>, ms: seq<PartyMove>, player: string)
    requires ApplyMoves(ps, parties, ms).Some?
    requires LastParty(ms, player).None?
    ensures player in ApplyMoves(ps, parties, ms).value <==> player in ps
    ensures player in ps ==> ApplyMoves(ps, parties, ms).value[player] == ps[player]
  {
    if ms != [] {
      UnmovedPlayerKept(ps, parties, ms[..|ms| - 1], player);
    }
  }

  /**
   * After any history of successful joins and leaves, a player's party is the
   * party of their last join, or none if a leave came after it.
   */
  lemma {:induction false} FinalPartyIsLastMove(ps: map<string, LiveMatchPlayer>, parties: seq<LiveParty>, ms: seq<PartyMove>, player: string)
    requires ApplyMoves(ps, parties, ms).Some?
    requires LastParty(ms, player).Some?
    ensures player in ApplyMoves(ps, parties, ms).value
    ensures ApplyMoves(ps, parties, ms).value[player].partyName == LastParty(ms, player).value
  {
    var init := ms[..|ms| - 1];
    var m := ms[|ms| - 1];
    if MovedPlayer(m) != player {
      FinalPartyIsLastMove(ps, parties, init, player);
    }
  }

  class LiveMatch {
    const id: string
    const loadedAt: int
    var startedAt: Option<int>
    var endedAt: Option<int>
    const mapId: string
    var events: seq<MatchEvent>
    var parties: seq<LiveParty>
    var participants: map<string, LiveMatchPlayer>
    const serverId: string

    /** A match never ends before it starts, its log opens with its load, and participants sit under their ids. */
    ghost predicate Valid()
      reads this
    {
      && (endedAt.Some? ==> startedAt.Some?)
      && |events| > 0 && events[0].MatchLoadEvent?
      && KeyedById(participants)
    }

    function Phase(): Phase
      reads this
    {
      if endedAt.Some? then Ended else if startedAt.Some? then Started else Loaded
    }

    constructor (id: string, loadedAt: int, mapId: string, load: MatchLoadData, serverId: string)
      ensures Valid()
      ensures this.id == id && this.loadedAt == loadedAt && this.mapId == mapId && this.serverId == serverId
      ensures startedAt == None && endedAt == None
      ensures events == [MatchLoadEvent(load)] && parties == [] && participants == map[]
    {
      this.id := id;
      this.loadedAt := loadedAt;
      startedAt := None;
      endedAt := None;
      this.mapId := mapId;
      events := [MatchLoadEvent(load)];
      parties := [];
      participants := map[];
      this.serverId := serverId;
    }

    /** Stores each roster player under its id, in roster order. */
    method PutRoster(roster: seq<LiveMatchPlayer>)
      requires Valid()
      modifies this`participants
      ensures Valid()
      ensures participants == old(participants) + RosterMap(roster)
    {
      var i := 0;
      while i < |roster|
        invariant 0 <= i <= |roster|
        invariant participants == old(participants) + RosterMap(roster[..i])
        invariant Valid()
      {
        var player := roster[i];
        RosterStep(old(participants), roster, i);
        participants := participants[player.id := roster[i]];
        i := i + 1;
      }
      assert roster[..i] == roster;
    }
  }

  /** A connected game server and the match it is currently running. */
  class LiveServer {
    const id: string
    var currentMatchId: Option<string>
    /** The match `currentMatchId` names in the live match store. */
    var currentMatch: LiveMatch?

    ghost predicate Valid()
      reads this, currentMatch
    {
      && (currentMatch == null <==> currentMatchId.None?)
      && (currentMatch != null ==> currentMatchId == Some(currentMatch.id) && currentMatch.Valid())
    }

    constructor (id: string)
      ensures Valid() && this.id == id && currentMatchId == None
    {
      this.id := id;
      currentMatchId := None;
      currentMatch := null;
    }

    /**
     * Load: a fresh match, neither started nor ended, with no participants, a log
     * holding only its load event, and the load data's parties in order. It
     * replaces whatever match was current without looking at it.
     */
    method OnLoad(data: MatchLoadData, now: int, newId: string)
      requires Valid()
      modifies this
      ensures Valid()
      ensures currentMatch != null && fresh(currentMatch)
      ensures currentMatchId == Some(newId)
      ensures currentMatch.loadedAt == now && currentMatch.mapId == data.mapId && currentMatch.serverId == id
      ensures currentMatch.startedAt == None && currentMatch.endedAt == None
      ensures currentMatch.participants == map[]
      ensures currentMatch.events == [MatchLoadEvent(data)]
      ensures currentMatch.parties == LiveParties(data.parties)
    {
      var m := new LiveMatch(newId, now, data.mapId, data, id);
      m.parties := LiveParties(data.parties);
      currentMatchId := Some(m.id);
      currentMatch := m;
    }

    /**
     * Start: fails without a current match or on one already started; otherwise
     * stamps the start, stores every roster player under its id and logs one
     * start event.
     */
    method OnStart(data: MatchStartData, now: int) returns (err: Option<MatchError>)
      requires Valid()
      modifies currentMatch
      ensures Valid()
      ensures old(currentMatch) == null ==> err == Some(StartingNonExistentMatch)
      ensures currentMatch != null && old(currentMatch.startedAt).Some? ==> err == Some(StartingStartedMatch)
      ensures currentMatch != null && err.Some? ==> unchanged(currentMatch)
      ensures err.None? <==> currentMatch != null && old(currentMatch.startedAt).None?
      ensures err.None? ==>
        && currentMatch.startedAt == Some(now)
        && currentMatch.participants == old(currentMatch.participants) + RosterMap(data.participants)
        && currentMatch.events == old(currentMatch.events) + [MatchStartEvent(data)]
        && currentMatch.endedAt == old(currentMatch.endedAt)
        && currentMatch.parties == old(currentMatch.parties)
    {
      var current := currentMatch;
      if current == null {
        return Some(StartingNonExistentMatch);
      }
      if current.startedAt.Some? {
        return Some(StartingStartedMatch);
      }
      current.startedAt := Some(now);
      current.PutRoster(data.participants);
      current.events := current.events + [MatchStartEvent(data)];
      return None;
    }

    /**
     * End: fails only without a current match. A match never started, or already
     * ended, is left as it is; otherwise the end is stamped and nothing is logged.
     */
    method OnEnd(now: int) returns (err: Option<MatchError>)
      requires Valid()
      modifies currentMatch
      ensures Valid()
      ensures err.Some? <==> currentMatch == null
      ensures err.Some? ==> err == Some(EndingNonExistentMatch)
      ensures currentMatch != null && old(currentMatch.Phase()) != Started ==> unchanged(currentMatch)
      ensures currentMatch != null && old(currentMatch.Phase()) == Started ==>
        && currentMatch.endedAt == Some(now) && currentMatch.Phase() == Ended
        && currentMatch.startedAt == old(currentMatch.startedAt)
        && currentMatch.events == old(currentMatch.events)
        && currentMatch.parties == old(currentMatch.parties)
        && currentMatch.participants == old(currentMatch.participants)
    {
      var current := currentMatch;
      if current == null {
        return Some(EndingNonExistentMatch);
      }
      if current.startedAt == None {
        return None;
      }
      if current.endedAt != None {
        return None;
      }
      current.endedAt := Some(now);
      return None;
    }

    /**
     * Party join: fails without a current match or for a party the match does
     * not have; otherwise the player joins that party, created if new, and one
     * join event is logged.
     */
    method OnPartyJoin(data: PartyJoinData) returns (err: Option<MatchError>)
      requires Valid()
      modifies currentMatch
      ensures Valid()
      ensures old(currentMatch) == null ==> err == Some(JoiningWithoutMatch)
      ensures currentMatch != null ==>
        (err.None? <==> exists i :: 0 <= i < |old(currentMatch.parties)| && old(currentMatch.parties)[i].name == data.partyName)
      ensures currentMatch != null ==>
        (err == Some(PartyNotFound(data.partyName)) <==>
          forall i :: 0 <= i < |currentMatch.parties| ==> currentMatch.parties[i].name != data.partyName)
      ensures currentMatch != null && err.Some? ==> unchanged(currentMatch)
      ensures err.None? ==>
        && currentMatch != null
        && currentMatch.participants == Joined(old(currentMatch.participants), data)
        && currentMatch.events == old(currentMatch.events) + [PartyJoinEvent(data)]
        && currentMatch.startedAt == old(currentMatch.startedAt) && currentMatch.endedAt == old(currentMatch.endedAt)
        && currentMatch.parties == old(currentMatch.parties)
    {
      var current := currentMatch;
      if current == null {
        return Some(JoiningWithoutMatch);
      }
      var party := FindParty(current.parties, data.partyName);
      if party.None? {
        return Some(PartyNotFound(data.partyName));
      }
      var player := Lookup(current.participants, data.playerId);
      match player {
        case None =>
          current.participants := current.participants[data.playerId := LiveMatchPlayer(data.playerName, data.playerId, Some(party.value.name))];
        case Some(p) =>
          var moved := p.(partyName := Some(party.value.name));
          current.participants := current.participants[moved.id := moved];
      }
      current.events := current.events + [PartyJoinEvent(data)];
      return None;
    }

    /**
     * Party leave: fails without a current match or for a player the match has
     * never seen; otherwise the player's party is cleared and one leave event is
     * logged.
     */
    method OnPartyLeave(data: PartyLeaveData) returns (err: Option<MatchError>)
      requires Valid()
      modifies currentMatch
      ensures Valid()
      ensures old(currentMatch) == null ==> err == Some(LeavingWithoutMatch)
      ensures currentMatch != null ==> (err.None? <==> data.playerId in old(currentMatch.participants))
      ensures currentMatch != null ==> (err == Some(NeverInParty(data.playerId)) <==> data.playerId !in old(currentMatch.participants))
      ensures currentMatch != null && err.Some? ==> unchanged(currentMatch)
      ensures err.None? ==>
        && currentMatch != null
        && data.playerId in old(currentMatch.participants)
        && currentMatch.participants == Left(old(currentMatch.participants), data)
        && currentMatch.events == old(currentMatch.events) + [PartyLeaveEvent(data)]
        && currentMatch.startedAt == old(currentMatch.startedAt) && currentMatch.endedAt == old(currentMatch.endedAt)
        && currentMatch.parties == old(currentMatch.parties)
    {
      var current := currentMatch;
      if current == null {
        return Some(LeavingWithoutMatch);
      }
      var player := Lookup(current.participants, data.playerId);
      if player.None? {
        return Some(NeverInParty(data.playerId));
      }
      current.participants := current.participants[data.playerId := player.value.(partyName := None)];
      current.events := current.events + [PartyLeaveEvent(data)];
      return None;
    }

    /**
     * Routes a socket event to its handler, with that handler's outcome; `now`
     * and `newId` stand for the clock and the random match id. Only a load
     * replaces the current match, and events of any other kind change nothing.
     */
    method Handle(event: SocketEvent, now: int, newId: string) returns (err: Option<MatchError>)
      requires Valid()
      modifies this, currentMatch
      ensures Valid()
      ensures !event.MatchLoad? ==> currentMatch == old(currentMatch) && currentMatchId == old(currentMatchId)
      ensures event.OtherEvent? ==> err.None? && unchanged(this) && (currentMatch != null ==> unchanged(currentMatch))
      ensures event.MatchLoad? ==>
        && err.None? && currentMatchId == Some(newId) && currentMatch != null && fresh(currentMatch)
        && currentMatch.loadedAt == now && currentMatch.mapId == event.loadData.mapId
        && currentMatch.startedAt == None && currentMatch.endedAt == None
        && currentMatch.participants == map[] && currentMatch.events == [MatchLoadEvent(event.loadData)]
        && currentMatch.parties == LiveParties(event.loadData.parties)
        && currentMatch.serverId == id
      ensures event.MatchLoad? && old(currentMatch) != null ==> unchanged(old(currentMatch))
      ensures event.MatchStart? ==> (err.None? <==> currentMatch != null && old(currentMatch.startedAt).None?)
      ensures event.MatchStart? && err.None? ==>
        && currentMatch != null
        && currentMatch.startedAt == Some(now)
        && currentMatch.participants == old(currentMatch.participants) + RosterMap(event.startData.participants)
        && currentMatch.events == old(currentMatch.events) + [MatchStartEvent(event.startData)]
        && currentMatch.endedAt == old(currentMatch.endedAt) && currentMatch.parties == old(currentMatch.parties)
      ensures event.MatchEnd? ==> (err.Some? <==> currentMatch == null)
      ensures event.MatchEnd? && currentMatch != null && old(currentMatch.Phase()) != Started ==> unchanged(currentMatch)
      ensures event.MatchEnd? && currentMatch != null && old(currentMatch.Phase()) == Started ==>
        && currentMatch.endedAt == Some(now)
        && currentMatch.startedAt == old(currentMatch.startedAt) && currentMatch.events == old(currentMatch.events)
        && currentMatch.parties == old(currentMatch.parties) && currentMatch.participants == old(currentMatch.participants)
      ensures event.PartyJoin? ==>
        (err.None? <==>
          currentMatch != null &&
          exists i :: 0 <= i < |old(currentMatch.parties)| && old(currentMatch.parties)[i].name == event.joinData.partyName)
      ensures event.PartyJoin? && err.None? ==>
        && currentMatch != null
        && currentMatch.participants == Joined(old(currentMatch.participants), event.joinData)
        && currentMatch.events == old(currentMatch.events) + [PartyJoinEvent(event.joinData)]
        && currentMatch.startedAt == old(currentMatch.startedAt) && currentMatch.endedAt == old(currentMatch.endedAt)
        && currentMatch.parties == old(currentMatch.parties)
      ensures event.PartyLeave? ==> (err.None? <==> currentMatch != null && event.leaveData.playerId in old(currentMatch.participants))
      ensures event.PartyLeave? && err.None? ==>
        && currentMatch != null
        && currentMatch.participants == Left(old(currentMatch.participants), event.leaveData)
        && currentMatch.events == old(currentMatch.events) + [PartyLeaveEvent(event.leaveData)]
        && currentMatch.startedAt == old(currentMatch.startedAt) && currentMatch.endedAt == old(currentMatch.endedAt)
        && currentMatch.parties == old(currentMatch.parties)
      ensures (event.MatchStart? || event.PartyJoin? || event.PartyLeave?) && err.Some? && currentMatch != null ==>
        unchanged(currentMatch)
    {
      match event {
        case MatchLoad(d) =>
          OnLoad(d, now, newId);
          err := None;
        case MatchStart(d) =>
          err := OnStart(d, now);
        case MatchEnd =>
          err := OnEnd(now);
        case PartyJoin(d) =>
          err := OnPartyJoin(d);
        case PartyLeave(d) =>
          err := OnPartyLeave(d);
        case OtherEvent(_) =>
          err := None;
      }
    }
  }
}
