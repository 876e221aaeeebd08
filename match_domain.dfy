/** The match record and its status enumeration (internal/match/match.go).
    A status is an integer; three values are known, and only those have a
    name. */
module MatchDomain {
  import opened Foundation

  /** `match.Status`, an `int`. */
  datatype Status = Status(code: int) {
    /** `Status.Value`: the underlying integer, from which the status is
        recovered. */
    function Value(): (v: int)
      ensures Status(v) == this
    {
      code
    }

    /** `Status.String`: the name in `statusName`, or "" for a status without
        one (a map lookup that misses yields the zero string). */
    function String(): (s: string)
      ensures s != "" <==> this in StatusList
    {
      if this in StatusName then StatusName[this] else ""
    }
  }

  const StatusUnknown := Status(0)
  const StatusUpcoming := Status(1)
  const StatusOngoing := Status(2)
  const StatusCompleted := Status(3)

  /** `StatusList`: the valid statuses. */
  const StatusList: set<Status> := {StatusUpcoming, StatusOngoing, StatusCompleted}

  /** `statusName`. */
  const StatusName: map<Status, string> :=
    map[StatusUpcoming := "upcoming", StatusOngoing := "ongoing", StatusCompleted := "completed"]

  /** The valid statuses are exactly the codes 1, 2 and 3; the unknown
      status 0 is not one of them, and the named statuses are the valid
      ones. */
  lemma StatusListExact(s: Status)
    ensures s in StatusList <==> 1 <= s.Value() <= 3
    ensures StatusUnknown !in StatusList
    ensures StatusName.Keys == StatusList
  {
  }

  /** The names of the valid statuses, and "" for the unknown status and for
      every code outside 1..3. */
  lemma StatusStrings(s: Status)
    ensures StatusUpcoming.String() == "upcoming"
    ensures StatusOngoing.String() == "ongoing"
    ensures StatusCompleted.String() == "completed"
    ensures !(1 <= s.Value() <= 3) ==> s.String() == ""
  {
  }

  /** Distinct valid statuses have distinct names. */
  lemma StringInjective(a: Status, b: Status)
    requires a in StatusList && b in StatusList && a != b
    ensures a.String() != b.String()
  {
  }

  /** `match.Match`. Odds are `float32` in the source; only their sign is
      ever tested, so they are real numbers here. `BlockChainID` is a
      `uint64`. The names and icons of the game and of both teams are
      derived by the store from the ids. */
  datatype Match = Match(
    id: int, blockChainID: nat, tournamentNames: string,
    gameID: int, gameNames: string, gameIcons: string,
    teamAID: int, teamANames: string, teamAIcons: string, teamAOdds: real,
    teamBID: int, teamBNames: string, teamBIcons: string, teamBOdds: real,
    date: Time, matchLink: string, status: Status, winner: int,
    createTime: Time, updateTime: Time)

  /** `match.Match{}`. */
  const ZeroMatch := Match(0, 0, "", 0, "", "", 0, "", "", 0.0, 0, "", "", 0.0,
                           ZeroTime, "", StatusUnknown, 0, ZeroTime, ZeroTime)
}
