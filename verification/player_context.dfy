/**
 * The per-player view handlers get of a match: the player's durable profile
 * next to the match it is playing, the participant lookup, whether the match
 * tracks statistics, and the per-gamemode statistic update.
 */
module PlayerContexts {
  import opened Wrappers

  /** The gamemodes a level can declare; only ARCADE matters to the update rule. */
  datatype Gamemode = Arcade | OtherGamemode(name: string)

  /** A player's statistics for one gamemode, as named counters. */
  datatype GamemodeStats = GamemodeStats(counters: map<string, int>)

  /** `GamemodeStats()`: the entry a gamemode starts from when the profile has none. */
  const FreshGamemodeStats := GamemodeStats(map[])

  /** A match participant, with only what the context needs. */
  datatype ParticipantRecord = ParticipantRecord(id: string, name: string)

  /** The match as the context sees it. */
  datatype MatchView = MatchView(participants: map<string, ParticipantRecord>, isTrackingStats: bool, levelGamemodes: seq<Gamemode>)

  datatype ParticipantContext = ParticipantContext(participant: ParticipantRecord, matchView: MatchView)

  /** The durable player profile; its gamemode statistics are updated in place. */
  class Profile {
    const id: string
    var gamemodeStats: map<Gamemode, GamemodeStats>

    constructor (id: string, gamemodeStats: map<Gamemode, GamemodeStats>)
      ensures this.id == id && this.gamemodeStats == gamemodeStats
    {
      this.id := id;
      this.gamemodeStats := gamemodeStats;
    }
  }

  /** The gamemode statistics after `modify` has been applied to each listed gamemode in turn. */
  function Modified(m: map<Gamemode, GamemodeStats>, gamemodes: seq<Gamemode>, update: GamemodeStats -> GamemodeStats): (r: map<Gamemode, GamemodeStats>)
    ensures r.Keys == m.Keys + set g | g in gamemodes
  {
    if gamemodes == [] then m
    else
      var before := Modified(m, gamemodes[..|gamemodes| - 1], update);
      var g := gamemodes[|gamemodes| - 1];
      before[g := update(Lookup(before, g).GetOr(FreshGamemodeStats))]
  }

  lemma ModifiedStep(m: map<Gamemode, GamemodeStats>, gamemodes: seq<Gamemode>, update: GamemodeStats -> GamemodeStats, i: nat)
    requires i < |gamemodes|
    ensures var before := Modified(m, gamemodes[..i], update);
      Modified(m, gamemodes[..i + 1], update) == before[gamemodes[i] := update(Lookup(before, gamemodes[i]).GetOr(FreshGamemodeStats))]
  {
    assert gamemodes[..i + 1][..i] == gamemodes[..i];
  }

  /** A gamemode that is not listed keeps its entry, or stays absent. */
  lemma {:induction false} UnlistedUnchanged(m: map<Gamemode, GamemodeStats>, gamemodes: seq<Gamemode>, update: GamemodeStats -> GamemodeStats, g: Gamemode)
    requires g !in gamemodes
    ensures g in Modified(m, gamemodes, update) <==> g in m
    ensures g in m ==> Modified(m, gamemodes, update)[g] == m[g]
  {
    if gamemodes != [] {
      UnlistedUnchanged(m, gamemodes[..|gamemodes| - 1], update, g);
    }
  }

  /**
   * A gamemode listed exactly once ends up as `modify` applied to its previous
   * entry, or to fresh statistics when it had none.
   */
  lemma {:induction false} ListedOnceModified(m: map<Gamemode, GamemodeStats>, gamemodes: seq<Gamemode>, update: GamemodeStats -> GamemodeStats, i: nat)
    requires i < |gamemodes|
    requires forall j :: 0 <= j < |gamemodes| && j != i ==> gamemodes[j] != gamemodes[i]
    ensures var g := gamemodes[i];
      Modified(m, gamemodes, update)[g] == update(Lookup(m, g).GetOr(FreshGamemodeStats))
  {
    var n := |gamemodes| - 1;
    var g := gamemodes[i];
    if i == n {
      assert g !in gamemodes[..n] by {
        forall j | 0 <= j < n
          ensures gamemodes[..n][j] != g
        {
          assert gamemodes[..n][j] == gamemodes[j];
        }
      }
      UnlistedUnchanged(m, gamemodes[..n], update, g);
    } else {
      assert gamemodes[..n][i] == g;
      ListedOnceModified(m, gamemodes[..n], update, i);
    }
    ModifiedLastStep(m, gamemodes, update, g);
  }

  /** How many times `g` is listed. */
  function Occurrences(gamemodes: seq<Gamemode>, g: Gamemode): nat
  {
    if gamemodes == [] then 0
    else Occurrences(gamemodes[..|gamemodes| - 1], g) + if gamemodes[|gamemodes| - 1] == g then 1 else 0
  }

  /** `modify` applied `n` times in a row. */
  function Applied(update: GamemodeStats -> GamemodeStats, n: nat, stats: GamemodeStats): GamemodeStats
  {
    if n == 0 then stats else update(Applied(update, n - 1, stats))
  }

  /** The last listed gamemode is the only one whose entry the last step changes. */
  lemma ModifiedLastStep(m: map<Gamemode, GamemodeStats>, gamemodes: seq<Gamemode>, update: GamemodeStats -> GamemodeStats, g: Gamemode)
    requires gamemodes != []
    ensures var before := Lookup(Modified(m, gamemodes[..|gamemodes| - 1], update), g);
      Lookup(Modified(m, gamemodes, update), g) ==
        if gamemodes[|gamemodes| - 1] == g then Some(update(before.GetOr(FreshGamemodeStats))) else before
  { }

  /**
   * Each listing of a gamemode applies `modify` once more: its entry ends up as
   * `modify` applied once per listing to its previous entry, or to fresh
   * statistics; it has an entry exactly when it had one or is listed.
   */
  lemma {:induction false} ModifiedOncePerListing(m: map<Gamemode, GamemodeStats>, gamemodes: seq<Gamemode>, update: GamemodeStats -> GamemodeStats, g: Gamemode)
    ensures Lookup(Modified(m, gamemodes, update), g) ==
      if g in m || Occurrences(gamemodes, g) > 0
      then Some(Applied(update, Occurrences(gamemodes, g), Lookup(m, g).GetOr(FreshGamemodeStats)))
      else None
  {
    if gamemodes != [] {
      ModifiedOncePerListing(m, gamemodes[..|gamemodes| - 1], update, g);
      ModifiedLastStep(m, gamemodes, update, g);
    }
  }

  /** A gamemode listed exactly twice, anywhere in the list, has `modify` applied twice. */
  lemma ListedTwiceModifiedTwice(m: map<Gamemode, GamemodeStats>, gamemodes: seq<Gamemode>, update: GamemodeStats -> GamemodeStats, g: Gamemode)
    requires Occurrences(gamemodes, g) == 2
    ensures Lookup(Modified(m, gamemodes, update), g) == Some(update(update(Lookup(m, g).GetOr(FreshGamemodeStats))))
  {
    ModifiedOncePerListing(m, gamemodes, update, g);
    var stats := Lookup(m, g).GetOr(FreshGamemodeStats);
    assert Applied(update, 1, stats) == update(Applied(update, 0, stats)) == update(stats);
  }

  /** The handler's view of one player in one match. */
  class PlayerContext {
    const profile: Profile
    const matchView: MatchView

    constructor (profile: Profile, matchView: MatchView)
      ensures this.profile == profile && this.matchView == matchView
    {
      this.profile := profile;
      this.matchView := matchView;
    }

    /**
     * The player's participant in the match, wrapped with the same match; none
     * (where the source fails on `!!`) when the match has no participant under
     * the profile's id.
     */
    function GetParticipant(): (r: Option<ParticipantContext>)
      ensures r.Some? <==> profile.id in matchView.participants
      ensures r.Some? ==> r.value.matchView == matchView && r.value.participant == matchView.participants[profile.id]
    {
      match Lookup(matchView.participants, profile.id)
      case None => None
      case Some(participant) => Some(ParticipantContext(participant, matchView))
    }

    predicate IsTrackingStats()
    {
      matchView.isTrackingStats
    }

    /** The gamemodes an update touches: the level's, or only ARCADE when the match does not track stats. */
    function SelectedGamemodes(): (gs: seq<Gamemode>)
      ensures !IsTrackingStats() ==> gs == [Arcade]
      ensures IsTrackingStats() ==> gs == matchView.levelGamemodes
    {
      if IsTrackingStats() then matchView.levelGamemodes else [Arcade]
    }

    /**
     * Replaces each selected gamemode's entry by `modify` of the old entry (or
     * of fresh statistics), in the level's order; returns this same context.
     */
    method ModifyGamemodeStats(update: GamemodeStats -> GamemodeStats) returns (ctx: PlayerContext)
      modifies profile
      ensures ctx == this
      ensures profile.gamemodeStats == Modified(old(profile.gamemodeStats), SelectedGamemodes(), update)
    {
      var gamemodes := matchView.levelGamemodes;
      if !matchView.isTrackingStats {
        gamemodes := [Arcade];
      }
      var i := 0;
      while i < |gamemodes|
        invariant 0 <= i <= |gamemodes|
        invariant profile.gamemodeStats == Modified(old(profile.gamemodeStats), gamemodes[..i], update)
      {
        var g := gamemodes[i];
        ModifiedStep(old(profile.gamemodeStats), gamemodes, update, i);
        profile.gamemodeStats := profile.gamemodeStats[g := update(Lookup(profile.gamemodeStats, g).GetOr(FreshGamemodeStats))];
        i := i + 1;
      }
      assert gamemodes[..i] == gamemodes;
      return this;
    }
  }

  /**
   * In a match that does not track stats, an update changes the ARCADE entry
   * alone, to `modify` of its previous value.
   */
  lemma UntrackedTouchesOnlyArcade(ctx: PlayerContext, m: map<Gamemode, GamemodeStats>, update: GamemodeStats -> GamemodeStats)
    requires !ctx.IsTrackingStats()
    ensures Modified(m, ctx.SelectedGamemodes(), update) == m[Arcade := update(Lookup(m, Arcade).GetOr(FreshGamemodeStats))]
  {
    assert [Arcade][..0] == [];
  }

  /**
   * In a match that tracks stats over distinct level gamemodes, an update
   * sets each level gamemode to `modify` of its previous entry and leaves
   * every other gamemode as it was.
   */
  lemma TrackedModifiesEachLevelGamemode(ctx: PlayerContext, m: map<Gamemode, GamemodeStats>, update: GamemodeStats -> GamemodeStats)
    requires ctx.IsTrackingStats()
    requires forall i, j :: 0 <= i < j < |ctx.matchView.levelGamemodes| ==> ctx.matchView.levelGamemodes[i] != ctx.matchView.levelGamemodes[j]
    ensures var r := Modified(m, ctx.SelectedGamemodes(), update);
      && (forall g :: g in ctx.matchView.levelGamemodes ==> r[g] == update(Lookup(m, g).GetOr(FreshGamemodeStats)))
      && (forall g :: g !in ctx.matchView.levelGamemodes ==> (g in r <==> g in m) && (g in m ==> r[g] == m[g]))
  {
    var gs := ctx.matchView.levelGamemodes;
    forall g | g in gs
      ensures Modified(m, gs, update)[g] == update(Lookup(m, g).GetOr(FreshGamemodeStats))
    {
      var i :| 0 <= i < |gs| && gs[i] == g;
      ListedOnceModified(m, gs, update, i);
    }
    forall g | g !in gs
      ensures var r := Modified(m, gs, update); (g in r <==> g in m) && (g in m ==> r[g] == m[g])
    {
      UnlistedUnchanged(m, gs, update, g);
    }
  }
}
