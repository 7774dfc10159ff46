/** The table of opponent profiles (server/bots.py): the default parameters of a profile, the
    six built-in profiles, and the lookup map from profile id to profile. */
module Bots {
  import opened Options

  datatype BotConfig = BotConfig(
    id: string,
    name: string,
    elo: int,
    depth: Option<int>,
    nodes: Option<int>,
    movetimeMs: Option<int>,
    multipv: int)

  /** The `botConfig` dataclass constructor, with its defaults. */
  function NewBot(id: string, name: string, elo: int, depth: Option<int> := None, nodes: Option<int> := None,
                  movetimeMs: Option<int> := Some(250), multipv: int := 1): (b: BotConfig)
  {
    BotConfig(id, name, elo, depth, nodes, movetimeMs, multipv)
  }

  /** A profile built from its id, name and rating alone: no depth or node limit, 250 ms per
      move, one principal variation. */
  lemma NewBotDefaults(id: string, name: string, elo: int)
    ensures NewBot(id, name, elo) == BotConfig(id, name, elo, None, None, Some(250), 1)
  {
  }

  /** `BOTS`, easiest first. */
  const BotList: seq<BotConfig> := [
    NewBot("penny", "Penny the Starter", 700, depth := Some(6), movetimeMs := Some(160), multipv := 2),
    NewBot("nelson", "Nelson the Rookie", 900, depth := Some(8), movetimeMs := Some(200), multipv := 2),
    NewBot("sophia", "Sophia the Club Player", 1200, depth := Some(10), movetimeMs := Some(250), multipv := 2),
    NewBot("dmitri", "Dmitri the Tactician", 1600, depth := Some(12), movetimeMs := Some(300), multipv := 1),
    NewBot("houyifan", "Hou Yifan the Expert", 2000, depth := Some(14), movetimeMs := Some(300), multipv := 1),
    NewBot("magnus", "Magnus the Master", 2300, depth := None, movetimeMs := Some(400), multipv := 1)
  ]

  ghost function Ids(bots: seq<BotConfig>): set<string> {
    set i | 0 <= i < |bots| :: bots[i].id
  }

  /** The dict comprehension `{b.id: b for b in bots}`: entries are inserted in list order, so
      a later profile with the same id replaces an earlier one. */
  function IndexById(bots: seq<BotConfig>): (m: map<string, BotConfig>)
    ensures m.Keys == Ids(bots)
    ensures forall id :: id in m ==> m[id].id == id
    decreases |bots|
  {
    if bots == [] then map[]
    else
      var n := |bots| - 1;
      var m := IndexById(bots[..n]);
      assert Ids(bots) == Ids(bots[..n]) + {bots[n].id} by {
        forall id | id in Ids(bots) ensures id in Ids(bots[..n]) + {bots[n].id} {
          var i :| 0 <= i < |bots| && bots[i].id == id;
          if i < n { assert bots[..n][i] == bots[i]; }
        }
        forall id | id in Ids(bots[..n]) ensures id in Ids(bots) {
          var i :| 0 <= i < n && bots[..n][i].id == id;
          assert bots[i] == bots[..n][i];
        }
      }
      m[bots[n].id := bots[n]]
  }

  /** `BOTS_ID`. */
  const BotsId: map<string, BotConfig> := IndexById(BotList)

  /** The entry under an id is the last profile in the list carrying that id. */
  lemma {:induction false} IndexByIdLastWins(bots: seq<BotConfig>, i: nat)
    requires i < |bots|
    requires forall j :: i < j < |bots| ==> bots[j].id != bots[i].id
    ensures bots[i].id in IndexById(bots) && IndexById(bots)[bots[i].id] == bots[i]
    decreases |bots|
  {
    var n := |bots| - 1;
    assert IndexById(bots) == IndexById(bots[..n])[bots[n].id := bots[n]];
    if i < n {
      forall j | i < j < n ensures bots[..n][j].id != bots[..n][i].id {
        assert bots[..n][j] == bots[j];
      }
      IndexByIdLastWins(bots[..n], i);
      assert bots[..n][i] == bots[i];
    }
  }

  predicate DistinctIds(bots: seq<BotConfig>) {
    forall i, j :: 0 <= i < j < |bots| ==> bots[i].id != bots[j].id
  }

  /** With pairwise distinct ids no entry is shadowed: every profile is found under its own id
      and the map has one key per profile. */
  lemma {:induction false} IndexByIdDistinct(bots: seq<BotConfig>)
    requires DistinctIds(bots)
    ensures forall i :: 0 <= i < |bots| ==> IndexById(bots)[bots[i].id] == bots[i]
    ensures |IndexById(bots)| == |bots|
    decreases |bots|
  {
    forall i | 0 <= i < |bots| ensures IndexById(bots)[bots[i].id] == bots[i] {
      IndexByIdLastWins(bots, i);
    }
    if bots != [] {
      var n := |bots| - 1;
      IndexByIdDistinct(bots[..n]);
      var m := IndexById(bots[..n]);
      assert bots[n].id !in m;
      assert IndexById(bots).Keys == m.Keys + {bots[n].id};
    }
  }

  /** The ids of `BOTS`, in order. */
  const BotIds: seq<string> := ["penny", "nelson", "sophia", "dmitri", "houyifan", "magnus"]

  /** The built-in list holds exactly the ids of `BotIds`, in that order. */
  lemma BotListIds()
    ensures |BotList| == |BotIds|
    ensures forall i :: 0 <= i < |BotList| ==> BotList[i].id == BotIds[i]
  {
  }

  /** The six built-in ids are pairwise distinct (they already differ in their first letter). */
  lemma BotIdsDistinct()
    ensures DistinctIds(BotList)
  {
    BotListIds();
    forall i, j | 0 <= i < j < |BotList| ensures BotList[i].id != BotList[j].id {
      assert BotIds[i][0] != BotIds[j][0];
    }
  }

  /** Every built-in profile is reachable by its id and `BOTS_ID` has exactly six keys. */
  lemma BotsIdComplete()
    ensures forall b :: b in BotList ==> b.id in BotsId && BotsId[b.id] == b
    ensures |BotsId| == 6
    ensures BotsId.Keys == set i | 0 <= i < |BotIds| :: BotIds[i]
  {
    BotIdsDistinct();
    IndexByIdDistinct(BotList);
    BotListIds();
  }

  /** The profiles are listed in strictly increasing strength, and each sets a positive time
      per move. */
  lemma BotListOrdered()
    ensures forall i, j :: 0 <= i < j < |BotList| ==> BotList[i].elo < BotList[j].elo
    ensures forall i :: 0 <= i < |BotList| ==> BotList[i].movetimeMs.Some? && BotList[i].movetimeMs.value > 0
  {
  }
}
