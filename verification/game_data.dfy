/**
  `GameData` (src/games.rs): the catalogue fields of a title together with
  the title's configuration, its equality, default and re-titling.
*/
module GameLibrary {
  import opened Wrappers
  import opened Games
  import opened Configs

  datatype GameData = GameData(entry: Entry, config: LindberghConfig)

  /** `GameData::default()`. */
  function DefaultGameData(): GameData {
    GameData(DefaultEntry, DefaultConfig)
  }

  /** `PartialEq for GameData`: the six catalogue fields are compared and
      the configuration is not. */
  predicate SameGame(a: GameData, b: GameData) {
    a.entry == b.entry
  }

  /** `GameTitle::as_gamedata`: the title's catalogue fields with the
      default configuration. Only `Unknown` gives the default record: every
      listed title stores a title of its own, never "Unknown". */
  function AsGameData(t: GameTitle): (g: GameData)
    ensures g == DefaultGameData() <==> t == Unknown
  {
    if t == Unknown then GameData(Catalogue(t), DefaultConfig)
    else
      CatalogueTitleSpelled(t);
      GameData(Catalogue(t), DefaultConfig)
  }

  /** `From<GameData> for GameTitle`: the title named by the catalogue title. */
  function TitleOf(g: GameData): GameTitle {
    FromString(g.entry.title)
  }

  /** `GameData::assign_title`: the catalogue fields become the title's and
      the configuration is left alone. */
  function AssignTitle(g: GameData, t: GameTitle): (r: GameData)
    ensures SameGame(r, AsGameData(t))
    ensures r.config == g.config
  {
    g.(entry := AsGameData(t).entry)
  }

  /** Equality of game data is an equivalence that ignores the
      configuration: two game data are the same game exactly when they
      differ at most in their configurations. */
  lemma SameGameIgnoresConfig(a: GameData, b: GameData, c: LindberghConfig)
    ensures SameGame(a, b) <==> a.(config := c) == b.(config := c)
    ensures SameGame(a, a)
    ensures SameGame(a, b) ==> SameGame(b, a)
    ensures SameGame(a, a.(config := c))
  {
    if a.(config := c) == b.(config := c) {
      assert a.entry == a.(config := c).entry;
    }
  }

  /** Re-titling is idempotent, only the last title counts, and the game
      data of every listed title converts back to that title (the unit test
      `test_conversion`). */
  lemma AssignTitleProperties(g: GameData, t: GameTitle, u: GameTitle)
    ensures AssignTitle(AssignTitle(g, t), t) == AssignTitle(g, t)
    ensures AssignTitle(AssignTitle(g, u), t) == AssignTitle(g, t)
    ensures t in AllVariants ==> TitleOf(AssignTitle(g, t)) == t && TitleOf(AsGameData(t)) == t
    ensures AssignTitle(AsGameData(t), t) == AsGameData(t)
  {
    if t in AllVariants {
      CatalogueRoundTrip(t);
    }
  }

  /** Two listed titles have the same game data only if they are the same
      title. */
  lemma AsGameDataInjective(a: GameTitle, b: GameTitle)
    requires a != Unknown && b != Unknown
    ensures SameGame(AsGameData(a), AsGameData(b)) <==> a == b
  {
    AllVariantsExact();
    CatalogueRoundTrip(a);
    CatalogueRoundTrip(b);
  }

  /** Listing the game data of listed titles keeps membership: a title's
      game data is in the list exactly when the title is among the titles. */
  lemma AsGameDataMembers(ts: seq<GameTitle>, gs: seq<GameData>, t: GameTitle)
    requires |gs| == |ts| && forall i :: 0 <= i < |ts| ==> gs[i] == AsGameData(ts[i])
    requires forall x :: x in ts ==> x in AllVariants
    requires t in AllVariants
    ensures AsGameData(t) in gs <==> t in ts
  {
    if AsGameData(t) in gs {
      var i :| 0 <= i < |gs| && gs[i] == AsGameData(t);
      assert ts[i] != Unknown && t != Unknown by {
        assert ts[i] in ts;
        AllVariantsExact();
      }
      assert SameGame(AsGameData(ts[i]), AsGameData(t));
      AsGameDataInjective(ts[i], t);
    }
    if t in ts {
      var i :| 0 <= i < |ts| && ts[i] == t;
      assert gs[i] == AsGameData(t);
    }
  }
}
