/** The per-user junk allowance lookup (backend/crud/junk.py) over the
    `user_junk_limits` table, held here as a sequence of rows in table order. */
module JunkLimits {
  import opened Wrappers

  datatype UserJunkLimit = UserJunkLimit(userId: string, junkType: string, maxQuantity: int)

  predicate Matches(row: UserJunkLimit, userId: string, junkType: string)
  {
    row.userId == userId && row.junkType == junkType
  }

  /** `filter_by(user_id=..., junk_type=...).first()`: the index of the first row of
      that user and junk type. */
  function FirstMatch(limits: seq<UserJunkLimit>, userId: string, junkType: string): (r: Option<nat>)
    ensures r.Some? ==> r.value < |limits| && Matches(limits[r.value], userId, junkType)
    ensures r.Some? ==> forall i :: 0 <= i < r.value ==> !Matches(limits[i], userId, junkType)
    ensures r.None? <==> forall i :: 0 <= i < |limits| ==> !Matches(limits[i], userId, junkType)
    decreases |limits|
  {
    if limits == [] then None
    else if Matches(limits[0], userId, junkType) then Some(0)
    else match FirstMatch(limits[1..], userId, junkType)
      case None => None
      case Some(i) => Some(i + 1)
  }

  /** `get_max_allowed_junk`: 0 for a missing or empty junk type or when the user has
      no limit for it, otherwise the first matching row's maximum. */
  function GetMaxAllowedJunk(limits: seq<UserJunkLimit>, userId: string, junkType: Option<string>): (m: int)
    ensures junkType.None? || junkType == Some("") ==> m == 0
    ensures (junkType.Some? && junkType.value != "" &&
             forall i :: 0 <= i < |limits| ==> !Matches(limits[i], userId, junkType.value)) ==> m == 0
    ensures junkType.Some? && junkType.value != "" ==>
            forall i :: 0 <= i < |limits| && Matches(limits[i], userId, junkType.value) &&
                        (forall j :: 0 <= j < i ==> !Matches(limits[j], userId, junkType.value)) ==>
                        m == limits[i].maxQuantity
  {
    if junkType.None? || junkType.value == "" then 0
    else match FirstMatch(limits, userId, junkType.value)
      case None => 0
      case Some(i) => limits[i].maxQuantity
  }

  /** A row of another user or another junk type, wherever it sits in the table,
      does not change the answer. */
  lemma {:induction false} OtherRowsIrrelevant(before: seq<UserJunkLimit>, row: UserJunkLimit,
                                               after: seq<UserJunkLimit>, userId: string, junkType: Option<string>)
    requires junkType.Some? ==> !Matches(row, userId, junkType.value)
    ensures GetMaxAllowedJunk(before + [row] + after, userId, junkType)
            == GetMaxAllowedJunk(before + after, userId, junkType)
    decreases |before|
  {
    if junkType.Some? && junkType.value != "" {
      FirstMatchSkips(before, row, after, userId, junkType.value);
    }
  }

  lemma {:induction false} FirstMatchSkips(before: seq<UserJunkLimit>, row: UserJunkLimit,
                                           after: seq<UserJunkLimit>, userId: string, junkType: string)
    requires !Matches(row, userId, junkType)
    ensures var r1, r2 := FirstMatch(before + [row] + after, userId, junkType), FirstMatch(before + after, userId, junkType);
      r1.Some? == r2.Some? &&
      (r1.Some? ==> (before + [row] + after)[r1.value] == (before + after)[r2.value])
    decreases |before|
  {
    var whole, short := before + [row] + after, before + after;
    if before == [] {
      assert whole == [row] + after && whole[1..] == after && short == after;
    } else {
      assert whole[0] == before[0] == short[0];
      assert whole[1..] == before[1..] + [row] + after;
      assert short[1..] == before[1..] + after;
      if !Matches(before[0], userId, junkType) {
        FirstMatchSkips(before[1..], row, after, userId, junkType);
      }
    }
  }
}
