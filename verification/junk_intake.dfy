/** The junk intake log page (frontend/src/pages/JunkIntake.tsx): a fixed database of
    junk items, a log of eaten items with a per-day penalty, the quantity chosen for
    each item and the impact filter. The clock is a parameter: "today" is the date
    prefix of an ISO timestamp, and a new entry's timestamp and `Date.now()` text are
    passed in. */
module JunkIntakePage {
  import opened Wrappers
  import opened Seqs
  import DashboardPage

  datatype HealthImpact = Low | Medium | High

  datatype JunkItem = JunkItem(id: string, name: string, penalty: int, flags: seq<string>,
                               category: string, healthImpact: HealthImpact)

  datatype LoggedJunk = LoggedJunk(id: string, itemId: string, itemName: string, penalty: int,
                                   timestamp: string, quantity: int)

  /** The impact filter buttons: everything, or one impact. */
  datatype ImpactFilter = All | Only(impact: HealthImpact)

  /** `junkDatabase`. */
  const JunkDatabase: seq<JunkItem> := [
    JunkItem("burger", "Burger", 30, ["High Fat", "High Sodium"], "Fast Food", High),
    JunkItem("pizza", "Pizza", 25, ["High Carbs", "High Fat"], "Fast Food", High),
    JunkItem("fries", "Fries", 20, ["Trans Fat", "High Sodium"], "Sides", High),
    JunkItem("soda", "Soda", 15, ["High Sugar"], "Beverages", Medium),
    JunkItem("candy", "Candy", 20, ["High Sugar", "Empty Calories"], "Sweets", High),
    JunkItem("icecream", "Ice Cream", 25, ["High Sugar", "High Fat"], "Sweets", High),
    JunkItem("chips", "Chips", 18, ["Trans Fat", "High Sodium"], "Snacks", Medium),
    JunkItem("donut", "Donut", 22, ["High Sugar", "Trans Fat"], "Sweets", High),
    JunkItem("frappuccino", "Frappuccino", 18, ["High Sugar", "Caffeine"], "Beverages", Medium),
    JunkItem("hotdog", "Hot Dog", 20, ["Processed", "High Sodium"], "Fast Food", Medium)
  ]

  /** Ids are distinct, every penalty is positive, and the six items the dashboard's
      penalty table also lists carry the same penalty there. */
  lemma DatabaseFacts()
    ensures forall i, j :: 0 <= i < j < |JunkDatabase| ==> JunkDatabase[i].id != JunkDatabase[j].id
    ensures forall i :: 0 <= i < |JunkDatabase| ==> JunkDatabase[i].penalty > 0
    ensures forall i :: 0 <= i < |JunkDatabase| && JunkDatabase[i].id in DashboardPage.JunkPenalties ==>
              DashboardPage.JunkPenalties[JunkDatabase[i].id] == JunkDatabase[i].penalty
  {
  }

  /** `s.startsWith(prefix)`. */
  predicate StartsWith(s: string, prefix: string)
  {
    |prefix| <= |s| && s[..|prefix|] == prefix
  }

  function LoggedOn(today: string): LoggedJunk -> bool
  {
    (e: LoggedJunk) => StartsWith(e.timestamp, today)
  }

  function NotLoggedOn(today: string): LoggedJunk -> bool
  {
    (e: LoggedJunk) => !StartsWith(e.timestamp, today)
  }

  function HasNotId(id: string): LoggedJunk -> bool
  {
    (e: LoggedJunk) => e.id != id
  }

  /** What one entry costs: its penalty times its quantity. */
  function EntryPenalty(e: LoggedJunk): int
  {
    e.penalty * e.quantity
  }

  /** Today's penalty: the cost of the entries whose timestamp starts with today's date. */
  function TodaysPenalty(logs: seq<LoggedJunk>, today: string): int
  {
    Sum(Filter(logs, LoggedOn(today)), EntryPenalty)
  }

  /** A new entry adds its cost when it is from today and nothing otherwise. */
  lemma TodaysPenaltyAppend(logs: seq<LoggedJunk>, e: LoggedJunk, today: string)
    ensures TodaysPenalty(logs + [e], today)
            == TodaysPenalty(logs, today) + (if StartsWith(e.timestamp, today) then EntryPenalty(e) else 0)
  {
    FilterAppend(logs, [e], LoggedOn(today));
    assert [e][1..] == [];
    SumAppend(Filter(logs, LoggedOn(today)), Filter([e], LoggedOn(today)), EntryPenalty);
  }

  /** Entries from other days never change today's penalty. */
  lemma {:induction false} OtherDaysContributeNothing(logs: seq<LoggedJunk>, others: seq<LoggedJunk>, today: string)
    requires forall i :: 0 <= i < |others| ==> !StartsWith(others[i].timestamp, today)
    ensures TodaysPenalty(logs + others, today) == TodaysPenalty(logs, today)
  {
    FilterAppend(logs, others, LoggedOn(today));
    FilterNone(others, LoggedOn(today));
    assert Filter(logs + others, LoggedOn(today)) == Filter(logs, LoggedOn(today)) + [];
    assert Filter(logs, LoggedOn(today)) + [] == Filter(logs, LoggedOn(today));
  }

  /** With no negative penalty or quantity, today's penalty is never negative. */
  lemma TodaysPenaltyNonNegative(logs: seq<LoggedJunk>, today: string)
    requires forall i :: 0 <= i < |logs| ==> logs[i].penalty >= 0 && logs[i].quantity >= 0
    ensures TodaysPenalty(logs, today) >= 0
  {
    var todays := Filter(logs, LoggedOn(today));
    forall i | 0 <= i < |todays|
      ensures EntryPenalty(todays[i]) >= 0
    {
      assert todays[i] in multiset(todays);
      assert todays[i] in multiset(logs);
    }
    SumNonNegative(todays, EntryPenalty);
  }

  /** `parseInt(text) || 1` clamped below by 1; `None` stands for a text that does
      not parse (NaN). */
  function ClampQuantity(parsed: Option<int>): (q: int)
    ensures q >= 1
    ensures parsed.Some? && parsed.value >= 1 ==> q == parsed.value
    ensures parsed.None? || parsed.value < 1 ==> q == 1
  {
    var n := if parsed.None? || parsed.value == 0 then 1 else parsed.value;
    if 1 >= n then 1 else n
  }

  /** `quantity[id] || 1`: the chosen quantity, 1 when none was chosen. */
  function QuantityOf(quantity: map<string, int>, id: string): (q: int)
    ensures id in quantity && quantity[id] != 0 ==> q == quantity[id]
    ensures id !in quantity || quantity[id] == 0 ==> q == 1
  {
    if id in quantity && quantity[id] != 0 then quantity[id] else 1
  }

  function HasImpact(impact: HealthImpact): JunkItem -> bool
  {
    (j: JunkItem) => j.healthImpact == impact
  }

  /** `filteredDatabase`. */
  function FilteredDatabase(filter: ImpactFilter): seq<JunkItem>
  {
    match filter
    case All => JunkDatabase
    case Only(impact) => Filter(JunkDatabase, HasImpact(impact))
  }

  /** "all" shows the whole database; an impact shows exactly the items with that
      impact, each as often as in the database. */
  lemma FilteredDatabaseContents(filter: ImpactFilter)
    ensures filter.All? ==> FilteredDatabase(filter) == JunkDatabase
    ensures filter.Only? ==> forall j :: j in FilteredDatabase(filter) <==> j in JunkDatabase && j.healthImpact == filter.impact
    ensures filter.Only? ==> forall j :: multiset(FilteredDatabase(filter))[j] ==
                                         if j.healthImpact == filter.impact then multiset(JunkDatabase)[j] else 0
  {
    if filter.Only? {
      forall j {
        FilterMembership(JunkDatabase, HasImpact(filter.impact), j);
      }
    }
  }

  /** `categories`: the categories of the items, each once, in first-appearance order. */
  function Categories(items: seq<JunkItem>): (r: seq<string>)
    ensures forall c :: c in r <==> exists i :: 0 <= i < |items| && items[i].category == c
    ensures forall i, j :: 0 <= i < j < |r| ==> r[i] != r[j]
  {
    var column := seq(|items|, i requires 0 <= i < |items| => items[i].category);
    assert forall i :: 0 <= i < |items| ==> column[i] == items[i].category;
    Distinct(column)
  }

  datatype ImpactMessage = HighImpact | ModerateImpact | LowImpact

  /** The sentence under today's penalty. */
  function ImpactMessageFor(todaysPenalty: int): (m: ImpactMessage)
    ensures m == HighImpact <==> todaysPenalty > 100
    ensures m == ModerateImpact <==> 50 < todaysPenalty <= 100
    ensures m == LowImpact <==> todaysPenalty <= 50
  {
    if todaysPenalty > 100 then HighImpact
    else if todaysPenalty > 50 then ModerateImpact
    else LowImpact
  }

  function MessageText(m: ImpactMessage): string
  {
    match m
    case HighImpact => "High impact - consider reducing intake"
    case ModerateImpact => "Moderate impact - be mindful"
    case LowImpact => "Low impact - keep it up!"
  }

  /** The page state: the log, the quantity chosen per item and the impact filter. */
  class JunkIntake {
    var loggedJunk: seq<LoggedJunk>
    var quantity: map<string, int>
    var filterImpact: ImpactFilter

    /** Every stored quantity is at least 1. */
    predicate QuantitiesPositive()
      reads this
    {
      forall id :: id in quantity ==> quantity[id] >= 1
    }

    /** The page starts from the saved log, no quantities and the "all" filter. */
    constructor (saved: seq<LoggedJunk>)
      ensures loggedJunk == saved && quantity == map[] && filterImpact == All
      ensures QuantitiesPositive()
    {
      loggedJunk := saved;
      quantity := map[];
      filterImpact := All;
    }

    /** `handleAddJunk`: log the item with its chosen quantity, then reset that
        quantity to 1. */
    method AddJunk(item: JunkItem, now: string, timestamp: string)
      modifies this
      ensures loggedJunk == old(loggedJunk) + [LoggedJunk(now + "-" + item.id, item.id, item.name, item.penalty,
                                                           timestamp, QuantityOf(old(quantity), item.id))]
      ensures quantity == old(quantity)[item.id := 1]
      ensures filterImpact == old(filterImpact)
      ensures old(QuantitiesPositive()) ==> QuantitiesPositive() && loggedJunk[|loggedJunk| - 1].quantity >= 1
    {
      var qty := QuantityOf(quantity, item.id);
      var newLog := LoggedJunk(now + "-" + item.id, item.id, item.name, item.penalty, timestamp, qty);
      loggedJunk := loggedJunk + [newLog];
      quantity := quantity[item.id := 1];
    }

    /** `handleRemoveJunk`: drop every entry with this log id. */
    method RemoveJunk(id: string)
      modifies this
      ensures loggedJunk == Filter(old(loggedJunk), HasNotId(id))
      ensures forall i :: 0 <= i < |loggedJunk| ==> loggedJunk[i].id != id
      ensures forall e: LoggedJunk :: e.id != id ==> multiset(loggedJunk)[e] == multiset(old(loggedJunk))[e]
      ensures quantity == old(quantity) && filterImpact == old(filterImpact)
    {
      loggedJunk := Filter(loggedJunk, HasNotId(id));
    }

    /** `handleClearToday`: drop today's entries, keep every other one. */
    method ClearToday(today: string)
      modifies this
      ensures loggedJunk == Filter(old(loggedJunk), NotLoggedOn(today))
      ensures forall e: LoggedJunk :: !StartsWith(e.timestamp, today) ==> multiset(loggedJunk)[e] == multiset(old(loggedJunk))[e]
      ensures TodaysPenalty(loggedJunk, today) == 0
      ensures quantity == old(quantity) && filterImpact == old(filterImpact)
    {
      loggedJunk := Filter(loggedJunk, NotLoggedOn(today));
      FilterNone(loggedJunk, LoggedOn(today));
    }

    /** The quantity input's change handler. */
    method SetQuantity(itemId: string, parsed: Option<int>)
      modifies this
      ensures quantity == old(quantity)[itemId := ClampQuantity(parsed)]
      ensures loggedJunk == old(loggedJunk) && filterImpact == old(filterImpact)
      ensures old(QuantitiesPositive()) ==> QuantitiesPositive()
    {
      quantity := quantity[itemId := ClampQuantity(parsed)];
    }

    /** An impact filter button. */
    method SetFilterImpact(filter: ImpactFilter)
      modifies this
      ensures filterImpact == filter
      ensures loggedJunk == old(loggedJunk) && quantity == old(quantity)
    {
      filterImpact := filter;
    }
  }
}
