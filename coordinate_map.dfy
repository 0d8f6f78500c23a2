/**
 * The map setup the robot receives at start-up: a keyed table of `long`s
 * from which the constructor of `CoordinateMap` picks the coordinates of the
 * robot's own team, those of the other team, and the shared island bounds.
 */
module Util {
  import opened Wrappers
  import opened JavaTypes

  /** The coordinates of one team, in grid units. */
  datatype TeamCoords = TeamCoords(
    startCorner: Int64,
    llX: Int64, llY: Int64, urX: Int64, urY: Int64,          // starting area
    tnLLx: Int64, tnLLy: Int64, tnURx: Int64, tnURy: Int64,  // tunnel corners
    tX: Int64, tY: Int64)                                    // ring set (tree)

  /** The search area shared by both teams. */
  datatype Island = Island(llX: Int64, llY: Int64, urX: Int64, urY: Int64)

  /** `own` are the fields without suffix, `other` the `_o` fields. */
  datatype CoordinateMap = CoordinateMap(own: TeamCoords, other: TeamCoords, island: Island)

  /** The value of a `long` field the constructor never assigns. */
  const UNSET: TeamCoords := TeamCoords(0, 0, 0, 0, 0, 0, 0, 0, 0, 0, 0)

  /** The configuration keys holding one team's coordinates, field by field. */
  datatype TeamKeys = TeamKeys(
    startCorner: string,
    llX: string, llY: string, urX: string, urY: string,
    tnLLx: string, tnLLy: string, tnURx: string, tnURy: string,
    tX: string, tY: string)

  const RED_KEYS: TeamKeys := TeamKeys(
    "RedCorner", "Red_LL_x", "Red_LL_y", "Red_UR_x", "Red_UR_y",
    "TNR_LL_x", "TNR_LL_y", "TNR_UR_x", "TNR_UR_y", "TR_x", "TR_y")

  const GREEN_KEYS: TeamKeys := TeamKeys(
    "GreenCorner", "Green_LL_x", "Green_LL_y", "Green_UR_x", "Green_UR_y",
    "TNG_LL_x", "TNG_LL_y", "TNG_UR_x", "TNG_UR_y", "TG_x", "TG_y")

  const ISLAND_KEYS: set<string> := {"Island_LL_x", "Island_LL_y", "Island_UR_x", "Island_UR_y"}

  function KeySet(k: TeamKeys): set<string> {
    {k.startCorner, k.llX, k.llY, k.urX, k.urY, k.tnLLx, k.tnLLy, k.tnURx, k.tnURy, k.tX, k.tY}
  }

  /** Every key the constructor may read. */
  const ALL_KEYS: set<string> := {"RedTeam", "GreenTeam"} + KeySet(RED_KEYS) + KeySet(GREEN_KEYS) + ISLAND_KEYS

  /** The configuration table; its values are boxed `Long`s. */
  type Data = map<string, Int64>

  /** `(long) data.get(key)`: unboxing the `null` of a missing key throws, reported here as that key. */
  function Get(data: Data, key: string): (r: Result<Int64, string>)
    ensures r.Success? ==> key in data && r.value == data[key]
    ensures r.Failure? ==> key !in data && r.error == key
  {
    if key in data then Success(data[key]) else Failure(key)
  }

  /** Reads one team's eleven fields in the order the constructor assigns them. */
  function ReadTeam(data: Data, k: TeamKeys): (r: Result<TeamCoords, string>)
    ensures r.Success? <==> KeySet(k) <= data.Keys
    ensures r.Failure? ==> r.error in KeySet(k) && r.error !in data
    ensures r.Success? ==> r.value == TeamOf(data, k)
  {
    var c :- Get(data, k.startCorner);
    var llX :- Get(data, k.llX);
    var llY :- Get(data, k.llY);
    var urX :- Get(data, k.urX);
    var urY :- Get(data, k.urY);
    var tnLLx :- Get(data, k.tnLLx);
    var tnLLy :- Get(data, k.tnLLy);
    var tnURx :- Get(data, k.tnURx);
    var tnURy :- Get(data, k.tnURy);
    var tX :- Get(data, k.tX);
    var tY :- Get(data, k.tY);
    Success(TeamCoords(c, llX, llY, urX, urY, tnLLx, tnLLy, tnURx, tnURy, tX, tY))
  }

  function ReadIsland(data: Data): (r: Result<Island, string>)
    ensures r.Success? <==> ISLAND_KEYS <= data.Keys
    ensures r.Failure? ==> r.error in ISLAND_KEYS && r.error !in data
    ensures r.Success? ==> r.value == IslandOf(data)
  {
    var llX :- Get(data, "Island_LL_x");
    var llY :- Get(data, "Island_LL_y");
    var urX :- Get(data, "Island_UR_x");
    var urY :- Get(data, "Island_UR_y");
    Success(Island(llX, llY, urX, urY))
  }

  /**
   * The constructor `CoordinateMap(data, team)`. A key that is read but
   * missing aborts the construction; the result then names that key.
   */
  function NewCoordinateMap(data: Data, team: Int32): (r: Result<CoordinateMap, string>)
    ensures r.Failure? ==> r.error in ALL_KEYS && r.error !in data
    ensures ALL_KEYS <= data.Keys ==> r.Success?
  {
    var red :- Get(data, "RedTeam");
    if red == team then
      var own :- ReadTeam(data, RED_KEYS);
      var other :- ReadTeam(data, GREEN_KEYS);
      var island :- ReadIsland(data);
      Success(CoordinateMap(own, other, island))
    else
      var green :- Get(data, "GreenTeam");
      if green == team then
        var own :- ReadTeam(data, GREEN_KEYS);
        var other :- ReadTeam(data, RED_KEYS);
        var island :- ReadIsland(data);
        Success(CoordinateMap(own, other, island))
      else
        var island :- ReadIsland(data);
        Success(CoordinateMap(UNSET, UNSET, island))
  }

  // Reference readings, for data in which the keys are known to be present.

  function TeamOf(data: Data, k: TeamKeys): TeamCoords
    requires KeySet(k) <= data.Keys
  {
    TeamCoords(data[k.startCorner], data[k.llX], data[k.llY], data[k.urX], data[k.urY],
               data[k.tnLLx], data[k.tnLLy], data[k.tnURx], data[k.tnURy], data[k.tX], data[k.tY])
  }

  function IslandOf(data: Data): Island
    requires ISLAND_KEYS <= data.Keys
  {
    Island(data["Island_LL_x"], data["Island_LL_y"], data["Island_UR_x"], data["Island_UR_y"])
  }

  /** The red check comes first: a team equal to `RedTeam` plays red even if it also equals `GreenTeam`. */
  lemma RedTeamSelection(data: Data, team: Int32)
    requires ALL_KEYS - {"GreenTeam"} <= data.Keys
    requires data["RedTeam"] == team
    ensures NewCoordinateMap(data, team)
         == Success(CoordinateMap(TeamOf(data, RED_KEYS), TeamOf(data, GREEN_KEYS), IslandOf(data)))
  {
  }

  lemma GreenTeamSelection(data: Data, team: Int32)
    requires ALL_KEYS <= data.Keys
    requires data["RedTeam"] != team && data["GreenTeam"] == team
    ensures NewCoordinateMap(data, team)
         == Success(CoordinateMap(TeamOf(data, GREEN_KEYS), TeamOf(data, RED_KEYS), IslandOf(data)))
  {
  }

  /** Neither team matches: the team fields keep their default 0 and only the island keys are needed. */
  lemma NoTeamMatch(data: Data, team: Int32)
    requires {"RedTeam", "GreenTeam"} + ISLAND_KEYS <= data.Keys
    requires data["RedTeam"] != team && data["GreenTeam"] != team
    ensures NewCoordinateMap(data, team) == Success(CoordinateMap(UNSET, UNSET, IslandOf(data)))
  {
  }

  /** Whatever the team, a successful construction copies the island bounds. */
  lemma IslandAlwaysCopied(data: Data, team: Int32)
    requires NewCoordinateMap(data, team).Success?
    ensures ISLAND_KEYS <= data.Keys
    ensures NewCoordinateMap(data, team).value.island == IslandOf(data)
  {
  }

  /**
   * With distinct team numbers, the map built for the red team and the one
   * built for the green team hold the same two coordinate sets, swapped.
   */
  lemma TeamSymmetry(data: Data)
    requires ALL_KEYS <= data.Keys
    requires data["RedTeam"] != data["GreenTeam"]
    requires INT_MIN <= data["RedTeam"] <= INT_MAX && INT_MIN <= data["GreenTeam"] <= INT_MAX
    ensures var red := NewCoordinateMap(data, data["RedTeam"] as Int32);
            var green := NewCoordinateMap(data, data["GreenTeam"] as Int32);
            red.Success? && green.Success? &&
            red.value.own == green.value.other && red.value.other == green.value.own &&
            red.value.island == green.value.island
  {
    RedTeamSelection(data, data["RedTeam"] as Int32);
    GreenTeamSelection(data, data["GreenTeam"] as Int32);
  }
}
