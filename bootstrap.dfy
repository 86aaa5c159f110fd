/**
 * Start-up of the database (`initDb`): the backfill of `events.day`, the
 * seeding of the built-in events into an empty table, and the pass that fills
 * default rules and coordinators where they are NULL. Creating the tables and
 * adding missing columns is not modelled: the tables are taken as they are.
 */
module Bootstrap {
  import opened Wrappers
  import opened JsValues
  import opened Schema
  import opened Store

  /** `UPDATE events SET day = 'Day 1' WHERE category = 'technical' AND day IS NULL`, on one row. */
  function FillDay1(e: Event): Event {
    if e.category == "technical" && e.day.None? then e.(day := Some("Day 1")) else e
  }

  /** `UPDATE events SET day = 'Day 2' WHERE (category = 'non-technical' OR category = 'sports') AND day IS NULL`, on one row. */
  function FillDay2(e: Event): Event {
    if (e.category == "non-technical" || e.category == "sports") && e.day.None? then e.(day := Some("Day 2")) else e
  }

  /** The backfill rule: a row with a day keeps it; a row without one gets it from its category, when the category names a day. */
  function BackfilledDay(e: Event): Option<string> {
    if e.day.Some? then e.day
    else if e.category == "technical" then Some("Day 1")
    else if e.category == "non-technical" || e.category == "sports" then Some("Day 2")
    else None
  }

  /** The two UPDATEs, in their order, apply the backfill rule and touch nothing but the day. */
  lemma BackfillMeaning(e: Event)
    ensures FillDay2(FillDay1(e)) == e.(day := BackfilledDay(e))
    ensures e.day.Some? ==> FillDay2(FillDay1(e)) == e
    ensures FillDay2(FillDay1(e)).day == Some("Day 1") && e.day.None? <==> e.day.None? && e.category == "technical"
    ensures FillDay2(FillDay1(e)).day == Some("Day 2") && e.day.None? <==>
      e.day.None? && (e.category == "non-technical" || e.category == "sports")
  {
  }

  /** A second backfill changes nothing. */
  lemma BackfillIdempotent(e: Event)
    ensures FillDay2(FillDay1(FillDay2(FillDay1(e)))) == FillDay2(FillDay1(e))
  {
  }

  /** Every row of an UPDATE without a key condition, each row rewritten by `f`. */
  function MapEvents(events: map<int, Event>, f: Event -> Event): (r: map<int, Event>)
    ensures r.Keys == events.Keys
    ensures forall k :: k in events ==> r[k] == f(events[k])
  {
    map k | k in events :: f(events[k])
  }

  /** The rules and coordinators the filling pass writes where they are NULL. */
  const DefaultRules: string := "[\"Standard rules apply.\",\"Report 15 mins early.\",\"Judge decision final.\"]"
  const DefaultCoordinators: string := "[{\"name\":\"Student Coord 1\",\"phone\":\"9988776655\",\"image\":\"https://randomuser.me/api/portraits/men/20.jpg\"},{\"name\":\"Student Coord 2\",\"phone\":\"8877665544\",\"image\":\"https://randomuser.me/api/portraits/women/21.jpg\"}]"

  /** `UPDATE events SET rule_book = $1 WHERE rule_book IS NULL`, on one row. */
  function FillRules(e: Event): Event {
    if e.ruleBook.None? then e.(ruleBook := Some(DefaultRules)) else e
  }

  /** `UPDATE events SET coordinators = $1 WHERE coordinators IS NULL`, on one row. */
  function FillCoordinators(e: Event): Event {
    if e.coordinators.None? then e.(coordinators := Some(DefaultCoordinators)) else e
  }

  /** The filling pass writes only NULL columns, and afterwards neither column is NULL. */
  lemma FillMeaning(e: Event)
    ensures var r := FillCoordinators(FillRules(e));
      && r == e.(ruleBook := r.ruleBook, coordinators := r.coordinators)
      && r.ruleBook == (if e.ruleBook.Some? then e.ruleBook else Some(DefaultRules))
      && r.coordinators == (if e.coordinators.Some? then e.coordinators else Some(DefaultCoordinators))
      && r.ruleBook.Some? && r.coordinators.Some?
  {
  }

  /** One entry of the built-in event list. */
  datatype SeedEvent = SeedEvent(
    title: string,
    description: string,
    category: string,
    kind: string,
    imageColor: string,
    icon: string,
    ruleBook: Option<string>,
    coordinators: Option<string>)

  /** The built-in event list: six technical events, then seven non-technical ones. */
  const Catalog: seq<SeedEvent> :=
    [
      SeedEvent("Codeathon", "Coding challenge for CSE/IT/AI.", "technical", "SOLO",
        "linear-gradient(45deg, #00f3ff, #0a0a0a)", "fas fa-code",
        Some("[\"No plagiarism allowed.\",\"2 hours duration.\",\"Languages: C, C++, Java, Python.\"]"),
        Some("[{\"name\":\"Arun Kumar\",\"phone\":\"9876543210\",\"image\":\"https://randomuser.me/api/portraits/men/1.jpg\"},{\"name\":\"Priya S\",\"phone\":\"9123456780\",\"image\":\"https://randomuser.me/api/portraits/women/2.jpg\"}]")),
      SeedEvent("Circuit Debugging", "Fix the faults for EEE/ECE.", "technical", "TEAM",
        "linear-gradient(45deg, #00d9ff, #0a0a0a)", "fas fa-microchip",
        Some("[\"Team of 2 members.\",\"Multimeter provided.\",\"Bring your own calculator.\"]"),
        Some("[{\"name\":\"Rahul V\",\"phone\":\"9988776655\",\"image\":\"https://randomuser.me/api/portraits/men/3.jpg\"},{\"name\":\"Sneha M\",\"phone\":\"8877665544\",\"image\":\"https://randomuser.me/api/portraits/women/4.jpg\"}]")),
      SeedEvent("CAD Master", "Design contest for Mech/Auto.", "technical", "SOLO",
        "linear-gradient(45deg, #00c3ff, #0a0a0a)", "fas fa-drafting-compass",
        Some("[\"AutoCAD 2024 used.\",\"1.5 hours duration.\",\"Dimensioning is crucial.\"]"),
        Some("[{\"name\":\"Karthik R\",\"phone\":\"7766554433\",\"image\":\"https://randomuser.me/api/portraits/men/5.jpg\"},{\"name\":\"Deepa K\",\"phone\":\"6655443322\",\"image\":\"https://randomuser.me/api/portraits/women/6.jpg\"}]")),
      SeedEvent("Structure Design", "Building models for Civil.", "technical", "TEAM",
        "linear-gradient(45deg, #00aeff, #0a0a0a)", "fas fa-building",
        Some("[\"Materials Provided.\",\"Max height 1m.\",\"Load test included.\"]"),
        Some("[{\"name\":\"Siva\",\"phone\":\"9999999999\",\"image\":\"https://randomuser.me/api/portraits/men/7.jpg\"},{\"name\":\"Rani\",\"phone\":\"8888888888\",\"image\":\"https://randomuser.me/api/portraits/women/8.jpg\"}]")),
      SeedEvent("Paper Presentation", "Present your innovative ideas.", "technical", "SOLO",
        "linear-gradient(45deg, #0099ff, #0a0a0a)", "fas fa-scroll",
        Some("[\"6 mins presentation.\",\"2 mins Q&A.\",\"Submit abstract before event.\"]"),
        Some("[{\"name\":\"Mani\",\"phone\":\"7777777777\",\"image\":\"https://randomuser.me/api/portraits/men/9.jpg\"},{\"name\":\"Vani\",\"phone\":\"6666666666\",\"image\":\"https://randomuser.me/api/portraits/women/10.jpg\"}]")),
      SeedEvent("Cyber Hunt", "CTF Challenge for Cyber Security.", "technical", "SOLO",
        "linear-gradient(45deg, #0088ff, #0a0a0a)", "fas fa-user-secret",
        Some("[\"Bring your own laptop.\",\"Kali Linux allowed.\",\"No DDoSing server.\"]"),
        Some("[{\"name\":\"Hacker X\",\"phone\":\"0000000000\",\"image\":\"https://randomuser.me/api/portraits/men/11.jpg\"},{\"name\":\"Cyber Y\",\"phone\":\"1111111111\",\"image\":\"https://randomuser.me/api/portraits/women/12.jpg\"}]")),
      SeedEvent("IPL Auction", "Bid for your dream team.", "non-technical", "TEAM",
        "linear-gradient(45deg, #bd00ff, #0a0a0a)", "fas fa-gavel",
        Some("[\"Virtual money provided.\",\"Team size 3-4.\",\"Standard IPL rules apply.\"]"),
        Some("[{\"name\":\"Dhoni Fan\",\"phone\":\"7000000007\",\"image\":\"https://randomuser.me/api/portraits/men/13.jpg\"},{\"name\":\"Kohli Fan\",\"phone\":\"1818181818\",\"image\":\"https://randomuser.me/api/portraits/men/14.jpg\"}]")),
      SeedEvent("Photography", "Capture the campus vibe.", "non-technical", "SOLO",
        "linear-gradient(45deg, #d500ff, #0a0a0a)", "fas fa-camera",
        Some("[\"DSLR or Mobile.\",\"No editing allowed.\",\"Submit raw file.\"]"),
        Some("[{\"name\":\"Cam Guy\",\"phone\":\"5555555555\",\"image\":\"https://randomuser.me/api/portraits/men/15.jpg\"},{\"name\":\"Lens Girl\",\"phone\":\"4444444444\",\"image\":\"https://randomuser.me/api/portraits/women/16.jpg\"}]")),
      SeedEvent("Short Film", "Tell a story in 5 minutes.", "non-technical", "TEAM",
        "linear-gradient(45deg, #ff00ea, #0a0a0a)", "fas fa-film",
        Some("[\"Max duration 10 mins.\",\"Original content only.\",\"Submit in MP4 format.\"]"),
        Some("[{\"name\":\"Director A\",\"phone\":\"3333333333\",\"image\":\"https://randomuser.me/api/portraits/men/17.jpg\"},{\"name\":\"Editor B\",\"phone\":\"2222222222\",\"image\":\"https://randomuser.me/api/portraits/women/18.jpg\"}]")),
      SeedEvent("Treasure Hunt", "Explore the JKKMCT campus.", "non-technical", "TEAM",
        "linear-gradient(45deg, #ff00aa, #0a0a0a)", "fas fa-map-marked-alt",
        Some("[\"Clues hidden in campus.\",\"First team to finish wins.\",\"Do not damage property.\"]"),
        Some("[{\"name\":\"Hunter 1\",\"phone\":\"1231231234\",\"image\":\"https://randomuser.me/api/portraits/men/19.jpg\"},{\"name\":\"Hunter 2\",\"phone\":\"3213214321\",\"image\":\"https://randomuser.me/api/portraits/women/20.jpg\"}]")),
      SeedEvent("Solo Dance", "Show your moves.", "non-technical", "SOLO",
        "linear-gradient(45deg, #ff006a, #0a0a0a)", "fas fa-shoe-prints",
        Some("[\"Max 3 mins.\",\"Bring your own track.\",\"Decent attire mandatory.\"]"),
        Some("[{\"name\":\"Dancer X\",\"phone\":\"9898989898\",\"image\":\"https://randomuser.me/api/portraits/women/21.jpg\"},{\"name\":\"Choreographer Y\",\"phone\":\"8787878787\",\"image\":\"https://randomuser.me/api/portraits/men/22.jpg\"}]")),
      SeedEvent("Meme Creation", "Humor meets creativity.", "non-technical", "SOLO",
        "linear-gradient(45deg, #ff002b, #0a0a0a)", "fas fa-laugh",
        Some("[\"Topic given on spot.\",\"1 hour duration.\",\"No offensive content.\"]"),
        Some("[{\"name\":\"Memer 1\",\"phone\":\"6969696969\",\"image\":\"https://randomuser.me/api/portraits/men/23.jpg\"},{\"name\":\"Memer 2\",\"phone\":\"4204204200\",\"image\":\"https://randomuser.me/api/portraits/women/24.jpg\"}]")),
      SeedEvent("Connection", "Connect the clues.", "non-technical", "TEAM",
        "linear-gradient(45deg, #ff5e00, #0a0a0a)", "fas fa-link",
        Some("[\"Images shown on screen.\",\"Buzzer round.\",\"Negative marking applicable.\"]"),
        Some("[{\"name\":\"Host 1\",\"phone\":\"5656565656\",\"image\":\"https://randomuser.me/api/portraits/men/25.jpg\"},{\"name\":\"Host 2\",\"phone\":\"4545454545\",\"image\":\"https://randomuser.me/api/portraits/women/26.jpg\"}]"))

    ]

  /** The columns the seeding INSERT writes: no day, no fee (so the column default), and '[]' for missing rules or coordinators. */
  function SeedFields(c: SeedEvent): EventFields {
    EventFields(Some(c.title), Some(c.description), None, Some(c.category), Some(c.kind), Some(c.imageColor), Some(c.icon),
                Str(if Truthy(c.ruleBook) then c.ruleBook.value else "[]"),
                Str(if Truthy(c.coordinators) then c.coordinators.value else "[]"))
  }

  /** The built-in entries satisfy the CHECK constraints. */
  predicate Seedable(cs: seq<SeedEvent>) {
    forall i :: 0 <= i < |cs| ==> cs[i].category in Categories && cs[i].kind in EventTypes
  }

  /** Thirteen entries, six technical then seven non-technical, each with rules and coordinators. */
  predicate CatalogShape(cs: seq<SeedEvent>) {
    && |cs| == 13 && Seedable(cs)
    && (forall i :: 0 <= i < |cs| ==> cs[i].category == (if i < 6 then "technical" else "non-technical"))
    && (forall i :: 0 <= i < |cs| ==> Truthy(cs[i].ruleBook) && Truthy(cs[i].coordinators))
  }

  /** The built-in list has that shape. */
  lemma CatalogFacts()
    ensures CatalogShape(Catalog)
  {
    forall i | 0 <= i < 13
      ensures Catalog[i].category == (if i < 6 then "technical" else "non-technical")
      ensures Catalog[i].kind in EventTypes
      ensures Truthy(Catalog[i].ruleBook) && Truthy(Catalog[i].coordinators)
    {
      CatalogEntry(i);
    }
  }

  /** One entry at a time. */
  lemma CatalogEntry(i: int)
    requires 0 <= i < 13
    ensures Catalog[i].category == (if i < 6 then "technical" else "non-technical")
    ensures Catalog[i].kind in EventTypes
    ensures Truthy(Catalog[i].ruleBook) && Truthy(Catalog[i].coordinators)
  {
    if i == 0 {} else if i == 1 {} else if i == 2 {} else if i == 3 {} else if i == 4 {} else if i == 5 {}
    else if i == 6 {} else if i == 7 {} else if i == 8 {} else if i == 9 {} else if i == 10 {} else if i == 11 {}
  }

  /** One seeding INSERT; a failed query is caught and the loop goes on. */
  function SeedOne(t: Tables, c: SeedEvent): Tables {
    if t.online then AddEvent(t, SeedFields(c), DefaultEventFee) else t
  }

  /** The seeding loop over `cs`, in order. */
  function SeedAll(t: Tables, cs: seq<SeedEvent>): Tables
    decreases |cs|
  {
    if cs == [] then t else SeedOne(SeedAll(t, cs[..|cs| - 1]), cs[|cs| - 1])
  }

  /**
   * `r` is `t` with the entries of `cs` appended in order under consecutive
   * ids, each with the default fee, no day, and its own columns.
   */
  ghost predicate SeededFrom(t: Tables, r: Tables, cs: seq<SeedEvent>)
    requires Seedable(cs)
  {
    && r == t.(events := r.events, nextEventId := t.nextEventId + |cs|)
    && (forall k :: k in r.events <==> k in t.events || t.nextEventId <= k < t.nextEventId + |cs|)
    && (forall k :: k in t.events ==> r.events[k] == t.events[k])
    && (forall i :: 0 <= i < |cs| ==>
          r.events[t.nextEventId + i] == EventRow(SeedFields(cs[i]), t.nextEventId + i, DefaultEventFee))
  }

  /** One more INSERT appends one more entry. */
  lemma SeedStep(t: Tables, m: Tables, cs: seq<SeedEvent>, c: SeedEvent)
    requires Consistent(t) && Consistent(m) && m.online
    requires Seedable(cs) && Seedable(cs + [c])
    requires SeededFrom(t, m, cs)
    ensures Consistent(SeedOne(m, c)) && SeededFrom(t, SeedOne(m, c), cs + [c])
  {
    var cs' := cs + [c];
    assert c == cs'[|cs|];
    var r := SeedOne(m, c);
    forall i | 0 <= i < |cs'|
      ensures r.events[t.nextEventId + i] == EventRow(SeedFields(cs'[i]), t.nextEventId + i, DefaultEventFee)
    {
      if i < |cs| {
        assert cs'[i] == cs[i];
      }
    }
  }

  /** The seeding loop appends the whole list and keeps the tables consistent. */
  lemma {:induction false} SeedAllRows(t: Tables, cs: seq<SeedEvent>)
    requires Consistent(t) && t.online && Seedable(cs)
    ensures Consistent(SeedAll(t, cs)) && SeededFrom(t, SeedAll(t, cs), cs)
  {
    if cs != [] {
      var init, last := cs[..|cs| - 1], cs[|cs| - 1];
      assert Seedable(init) by {
        forall i | 0 <= i < |init| ensures init[i] == cs[i] { }
      }
      SeedAllRows(t, init);
      assert cs == init + [last];
      SeedStep(t, SeedAll(t, init), init, last);
    }
  }

  /** `UPDATE events SET day = ...` twice: the backfill. */
  function Backfill(t: Tables): (r: Tables)
    requires Consistent(t)
    ensures Consistent(r) && r == t.(events := r.events)
    ensures r.events.Keys == t.events.Keys
    ensures forall k :: k in t.events ==> r.events[k] == t.events[k].(day := BackfilledDay(t.events[k]))
  {
    var r := t.(events := MapEvents(MapEvents(t.events, FillDay1), FillDay2));
    forall k | k in t.events
      ensures r.events[k] == t.events[k].(day := BackfilledDay(t.events[k]))
    {
      BackfillMeaning(t.events[k]);
    }
    r
  }

  /** `seedEvents`: an empty table gets the built-in list, a populated one the filling pass; a failed count does neither. */
  function Seed(t: Tables): (r: Tables)
    requires Consistent(t)
    ensures Consistent(r) && r == t.(events := r.events, nextEventId := r.nextEventId)
  {
    if !t.online then t
    else if |t.events| == 0 then
      CatalogFacts();
      SeedAllRows(t, Catalog);
      SeedAll(t, Catalog)
    else
      t.(events := MapEvents(MapEvents(t.events, FillRules), FillCoordinators))
  }

  /** `initDb` on existing tables: the backfill, then the seeding. Registrations are never touched. */
  function Boot(t: Tables): (r: Tables)
    requires Consistent(t)
    ensures Consistent(r) && r == t.(events := r.events, nextEventId := r.nextEventId)
  {
    if !t.online then t else Seed(Backfill(t))
  }

  /** On a populated table a start changes no key; each row gets its day backfilled and its NULL rules and coordinators filled. */
  lemma BootPopulated(t: Tables)
    requires Consistent(t) && t.online && |t.events| > 0
    ensures Boot(t).events.Keys == t.events.Keys
    ensures forall k :: k in t.events ==>
      Boot(t).events[k] == FillCoordinators(FillRules(t.events[k].(day := BackfilledDay(t.events[k]))))
  {
    var b := Backfill(t);
    assert |b.events| == |t.events| by {
      assert b.events.Keys == t.events.Keys;
    }
  }

  /** What seeding an empty table with a list of that shape gives. */
  lemma SeededShape(b: Tables, cs: seq<SeedEvent>, r: Tables)
    requires CatalogShape(cs) && b.events == map[]
    requires SeededFrom(b, r, cs)
    ensures forall k :: k in r.events <==> b.nextEventId <= k < b.nextEventId + 13
    ensures forall k :: k in r.events ==>
      && r.events[k].fee == DefaultEventFee && r.events[k].day.None?
      && r.events[k].ruleBook.Some? && r.events[k].coordinators.Some?
      && r.events[k].category == (if k < b.nextEventId + 6 then "technical" else "non-technical")
  {
    forall k | k in r.events
      ensures r.events[k] == EventRow(SeedFields(cs[k - b.nextEventId]), k, DefaultEventFee)
    {
      var i := k - b.nextEventId;
      assert b.nextEventId + i == k;
    }
  }

  /**
   * The first start on an empty table seeds the thirteen built-in events
   * under consecutive ids, all with fee 500 and, because the backfill has
   * already run, all without a day.
   */
  lemma FirstBootSeeds(t: Tables)
    requires Consistent(t) && t.online && t.events == map[]
    ensures var r := Boot(t);
      && (forall k :: k in r.events <==> t.nextEventId <= k < t.nextEventId + 13)
      && (forall k :: k in r.events ==>
            && r.events[k].fee == DefaultEventFee && r.events[k].day.None?
            && r.events[k].ruleBook.Some? && r.events[k].coordinators.Some?
            && r.events[k].category == (if k < t.nextEventId + 6 then "technical" else "non-technical"))
  {
    var b := Backfill(t);
    assert b.events == map[];
    CatalogFacts();
    SeedAllRows(b, Catalog);
    SeededShape(b, Catalog, Boot(t));
  }

  /**
   * Only the second start gives the seeded events their day, technical ones
   * Day 1 and the others Day 2; it changes nothing else about them.
   */
  lemma SecondBootAssignsDays(t: Tables)
    requires Consistent(t) && t.online && t.events == map[]
    ensures var r1 := Boot(t);
      var r2 := Boot(r1);
      && r2.events.Keys == r1.events.Keys
      && forall k :: k in r2.events ==>
           && r2.events[k] == r1.events[k].(day := r2.events[k].day)
           && r2.events[k].day == Some(if r1.events[k].category == "technical" then "Day 1" else "Day 2")
  {
    FirstBootSeeds(t);
    var r1 := Boot(t);
    assert t.nextEventId in r1.events.Keys;
    RebootFillsDays(r1);
  }

  /** A start over rows without a day but with rules and coordinators only gives them their day. */
  lemma RebootFillsDays(r1: Tables)
    requires Consistent(r1) && r1.online && |r1.events| > 0
    requires forall k :: k in r1.events ==>
      && r1.events[k].day.None? && r1.events[k].ruleBook.Some? && r1.events[k].coordinators.Some?
      && (r1.events[k].category == "technical" || r1.events[k].category == "non-technical")
    ensures var r2 := Boot(r1);
      && r2.events.Keys == r1.events.Keys
      && forall k :: k in r2.events ==>
           && r2.events[k] == r1.events[k].(day := r2.events[k].day)
           && r2.events[k].day == Some(if r1.events[k].category == "technical" then "Day 1" else "Day 2")
  {
    BootPopulated(r1);
  }

  /** The backfill UPDATEs against the live database. */
  method BackfillDays(db: Database)
    requires db.Valid() && db.online
    modifies db
    ensures db.Valid() && db.State() == Backfill(old(db.State()))
  {
    db.events := MapEvents(db.events, FillDay1);
    db.events := MapEvents(db.events, FillDay2);
  }

  /** `insertEvents`: one INSERT per built-in entry, in order. */
  method InsertEvents(db: Database)
    requires db.Valid()
    modifies db
    ensures db.Valid() && db.State() == SeedAll(old(db.State()), Catalog)
  {
    for i := 0 to |Catalog|
      invariant db.Valid()
      invariant db.State() == SeedAll(old(db.State()), Catalog[..i])
    {
      assert Catalog[..i + 1][..i] == Catalog[..i];
      if db.online {
        var id := db.InsertEvent(SeedFields(Catalog[i]), DefaultEventFee);
      }
    }
    assert Catalog[..|Catalog|] == Catalog;
  }

  /** `updateEventsIfMissingData`: the two filling UPDATEs. */
  method FillMissingData(db: Database)
    requires db.Valid() && db.online
    modifies db
    ensures db.Valid()
    ensures db.State() == old(db.State()).(events := MapEvents(MapEvents(old(db.events), FillRules), FillCoordinators))
  {
    db.events := MapEvents(db.events, FillRules);
    db.events := MapEvents(db.events, FillCoordinators);
  }

  /** `seedEvents` against the live database. */
  method SeedEvents(db: Database)
    requires db.Valid()
    modifies db
    ensures db.Valid() && db.State() == Seed(old(db.State()))
  {
    if !db.online {
      return;
    }
    if |db.events| == 0 {
      InsertEvents(db);
    } else {
      FillMissingData(db);
    }
  }

  /** `initDb` against the live database; when the server cannot be reached, nothing happens. */
  method InitDb(db: Database)
    requires db.Valid()
    modifies db
    ensures db.Valid() && db.State() == Boot(old(db.State()))
  {
    if !db.online {
      return;
    }
    BackfillDays(db);
    SeedEvents(db);
  }
}
