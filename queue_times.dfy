/**
 * The two pure pieces of the queue-time agent once the HTTP call is taken
 * out: flattening the decoded Queue-Times response into ride records
 * (`get_park_queues`) and formatting the report sent to the user
 * (`format_queue_message`).
 */
module QueueTimes {
  import opened Wrappers
  import opened Text

  // ---- the decoded Queue-Times response ----------------------------------

  /** A ride object of the response; `None` is a key the object lacks. */
  datatype RawRide = RawRide(
    id: Option<int>,
    name: Option<string>,
    isOpen: Option<bool>,
    waitTime: Option<int>,
    lastUpdated: Option<string>)

  /** A land object: its `name` and its `rides` list, either possibly missing. */
  datatype RawLand = RawLand(name: Option<string>, rides: Option<seq<RawRide>>)

  /** The top-level object: the `lands` and `rides` lists, either possibly missing. */
  datatype Payload = Payload(lands: Option<seq<RawLand>>, rides: Option<seq<RawRide>>)

  /** The ride record the agent works with. */
  datatype Ride = Ride(
    id: Option<int>,
    name: Option<string>,
    status: string,
    waitTime: int,
    lastUpdated: Option<string>,
    land: Option<string>)

  /** The land given to rides listed outside every land. */
  const Geral := "Geral"

  /** One raw ride converted to a record of `land`. */
  function Processed(raw: RawRide, land: Option<string>): (r: Ride)
    ensures r.status == "open" <==> raw.isOpen == Some(true)
    ensures r.status != "open" ==> r.status == "closed"
    ensures raw.waitTime.None? ==> r.waitTime == 0
    ensures r.name == raw.name && r.land == land
  {
    Ride(raw.id, raw.name, if raw.isOpen.GetOr(false) then "open" else "closed",
         raw.waitTime.GetOr(0), raw.lastUpdated, land)
  }

  function LandRides(l: RawLand): seq<Ride> {
    var rs := l.rides.GetOr([]);
    seq(|rs|, i requires 0 <= i < |rs| => Processed(rs[i], l.name))
  }

  /** The rides of `lands`, land after land, each in its own order. */
  function FromLands(lands: seq<RawLand>): seq<Ride> {
    if lands == [] then []
    else FromLands(lands[..|lands| - 1]) + LandRides(lands[|lands| - 1])
  }

  function LooseRides(rs: seq<RawRide>): seq<Ride> {
    seq(|rs|, i requires 0 <= i < |rs| => Processed(rs[i], Some(Geral)))
  }

  /** All rides of the response: the rides of every land, then the top-level rides under "Geral". */
  function Flatten(p: Payload): (r: seq<Ride>)
    ensures |r| == |FromLands(p.lands.GetOr([]))| + |p.rides.GetOr([])|
    ensures r[..|FromLands(p.lands.GetOr([]))|] == FromLands(p.lands.GetOr([]))
  {
    FromLands(p.lands.GetOr([])) + LooseRides(p.rides.GetOr([]))
  }

  /**
   * `get_park_queues` after the request: `fetched` is the decoded body, or
   * `None` when the request, the status check or the decoding failed.
   */
  method GetParkQueues(fetched: Option<Payload>) returns (lands: seq<RawLand>, rides: seq<Ride>)
    ensures fetched.None? ==> lands == [] && rides == []
    ensures fetched.Some? ==> lands == fetched.value.lands.GetOr([]) && rides == Flatten(fetched.value)
  {
    if fetched.None? {
      return [], [];
    }
    var p := fetched.value;
    lands := p.lands.GetOr([]);
    rides := [];
    var i := 0;
    while i < |lands|
      invariant 0 <= i <= |lands|
      invariant rides == FromLands(lands[..i])
    {
      rides := AppendLandRides(rides, lands[i]);
      assert lands[..i + 1][..i] == lands[..i];
      i := i + 1;
    }
    assert lands[..i] == lands;
    rides := AppendLooseRides(rides, p.rides.GetOr([]));
  }

  /** The inner loop over one land: each of its rides, under the land's name. */
  method AppendLandRides(rides: seq<Ride>, land: RawLand) returns (r: seq<Ride>)
    ensures r == rides + LandRides(land)
  {
    r := rides;
    var landRides := land.rides.GetOr([]);
    var j := 0;
    while j < |landRides|
      invariant 0 <= j <= |landRides|
      invariant r == rides + LandRides(land)[..j]
    {
      assert LandRides(land)[..j + 1] == LandRides(land)[..j] + [Processed(landRides[j], land.name)];
      r := r + [Processed(landRides[j], land.name)];
      j := j + 1;
    }
    assert LandRides(land)[..j] == LandRides(land);
  }

  /** The loop over the top-level rides: each under "Geral". */
  method AppendLooseRides(rides: seq<Ride>, loose: seq<RawRide>) returns (r: seq<Ride>)
    ensures r == rides + LooseRides(loose)
  {
    r := rides;
    var k := 0;
    while k < |loose|
      invariant 0 <= k <= |loose|
      invariant r == rides + LooseRides(loose)[..k]
    {
      assert LooseRides(loose)[..k + 1] == LooseRides(loose)[..k] + [Processed(loose[k], Some(Geral))];
      r := r + [Processed(loose[k], Some(Geral))];
      k := k + 1;
    }
    assert LooseRides(loose)[..k] == LooseRides(loose);
  }

  /** Ride `k` of land `li` is in the flattened list, under that land's name. */
  lemma {:induction false} FromLandsHasLandRide(lands: seq<RawLand>, li: nat, k: nat)
    requires li < |lands| && k < |lands[li].rides.GetOr([])|
    ensures Processed(lands[li].rides.GetOr([])[k], lands[li].name) in FromLands(lands)
    decreases |lands|
  {
    var last := |lands| - 1;
    if li == last {
      assert LandRides(lands[last])[k] == Processed(lands[li].rides.GetOr([])[k], lands[li].name);
    } else {
      assert lands[..last][li] == lands[li];
      FromLandsHasLandRide(lands[..last], li, k);
    }
  }

  /** Every land ride, and after them every top-level ride under "Geral", is kept. */
  lemma FlattenKeepsEveryRide(p: Payload)
    ensures forall li, k :: 0 <= li < |p.lands.GetOr([])| && 0 <= k < |p.lands.GetOr([])[li].rides.GetOr([])| ==>
              Processed(p.lands.GetOr([])[li].rides.GetOr([])[k], p.lands.GetOr([])[li].name) in Flatten(p)
    ensures forall k :: 0 <= k < |p.rides.GetOr([])| ==>
              Flatten(p)[|FromLands(p.lands.GetOr([]))| + k] == Processed(p.rides.GetOr([])[k], Some(Geral))
  {
    var lands := p.lands.GetOr([]);
    forall li, k | 0 <= li < |lands| && 0 <= k < |lands[li].rides.GetOr([])|
      ensures Processed(lands[li].rides.GetOr([])[k], lands[li].name) in Flatten(p)
    {
      FromLandsHasLandRide(lands, li, k);
    }
  }

  // ---- sorting by wait time, largest first --------------------------------

  predicate SortedByWaitDesc(s: seq<Ride>) {
    forall i, j :: 0 <= i < j < |s| ==> s[i].waitTime >= s[j].waitTime
  }

  /** `x` goes before the first ride that does not wait longer than it. */
  function InsertByWait(x: Ride, s: seq<Ride>): (r: seq<Ride>)
    ensures |r| == |s| + 1
  {
    if s == [] || s[0].waitTime <= x.waitTime then [x] + s
    else [s[0]] + InsertByWait(x, s[1..])
  }

  /** Python's `sorted(rides, key=wait_time, reverse=True)`: a stable sort, largest wait first. */
  function SortByWaitDesc(rs: seq<Ride>): (r: seq<Ride>)
    ensures |r| == |rs|
  {
    if rs == [] then [] else InsertByWait(rs[0], SortByWaitDesc(rs[1..]))
  }

  /** Inserting keeps the elements: the result is a permutation of `s` plus `x`. */
  lemma {:induction false} InsertByWaitPerm(x: Ride, s: seq<Ride>)
    ensures multiset(InsertByWait(x, s)) == multiset(s) + multiset{x}
    decreases |s|
  {
    if s != [] && s[0].waitTime > x.waitTime {
      InsertByWaitPerm(x, s[1..]);
      assert s == [s[0]] + s[1..];
    }
  }

  /** A bound on every wait time of `s` and of `x` bounds the result too. */
  lemma {:induction false} InsertByWaitBound(x: Ride, s: seq<Ride>, b: int)
    requires x.waitTime <= b && forall i :: 0 <= i < |s| ==> s[i].waitTime <= b
    ensures forall i :: 0 <= i < |InsertByWait(x, s)| ==> InsertByWait(x, s)[i].waitTime <= b
    decreases |s|
  {
    if s != [] && s[0].waitTime > x.waitTime {
      InsertByWaitBound(x, s[1..], b);
      var t := InsertByWait(x, s[1..]);
      forall i | 0 <= i < |[s[0]] + t|
        ensures ([s[0]] + t)[i].waitTime <= b
      {
        if i > 0 {
          assert ([s[0]] + t)[i] == t[i - 1];
        }
      }
    }
  }

  lemma {:induction false} InsertByWaitSorted(x: Ride, s: seq<Ride>)
    requires SortedByWaitDesc(s)
    ensures SortedByWaitDesc(InsertByWait(x, s))
    ensures multiset(InsertByWait(x, s)) == multiset(s) + multiset{x}
    decreases |s|
  {
    InsertByWaitPerm(x, s);
    if s != [] && s[0].waitTime > x.waitTime {
      var rest := s[1..];
      assert SortedByWaitDesc(rest);
      InsertByWaitSorted(x, rest);
      InsertByWaitBound(x, rest, s[0].waitTime);
      var t := InsertByWait(x, rest);
      var r := [s[0]] + t;
      forall i, j | 0 <= i < j < |r|
        ensures r[i].waitTime >= r[j].waitTime
      {
        assert r[j] == t[j - 1];
        if i > 0 {
          assert r[i] == t[i - 1];
        }
      }
    } else {
      var r := [x] + s;
      forall i, j | 0 <= i < j < |r|
        ensures r[i].waitTime >= r[j].waitTime
      {
        assert r[j] == s[j - 1];
        if i > 0 {
          assert r[i] == s[i - 1];
        }
      }
    }
  }

  /** The sorted list is ordered by wait time, largest first, and is a permutation of the input. */
  lemma {:induction false} SortByWaitDescCorrect(rs: seq<Ride>)
    ensures SortedByWaitDesc(SortByWaitDesc(rs))
    ensures multiset(SortByWaitDesc(rs)) == multiset(rs)
    decreases |rs|
  {
    if rs != [] {
      SortByWaitDescCorrect(rs[1..]);
      InsertByWaitSorted(rs[0], SortByWaitDesc(rs[1..]));
      assert rs == [rs[0]] + rs[1..];
    }
  }

  /** The rides of `s` waiting exactly `w` minutes, in order. */
  function WithWait(s: seq<Ride>, w: int): seq<Ride> {
    if s == [] then []
    else (if s[0].waitTime == w then [s[0]] else []) + WithWait(s[1..], w)
  }

  lemma {:induction false} InsertByWaitStable(x: Ride, s: seq<Ride>, w: int)
    ensures WithWait(InsertByWait(x, s), w) ==
            (if x.waitTime == w then [x] else []) + WithWait(s, w)
    decreases |s|
  {
    var xs: seq<Ride> := if x.waitTime == w then [x] else [];
    if s == [] || s[0].waitTime <= x.waitTime {
      var r := [x] + s;
      assert r[0] == x && r[1..] == s;
      assert WithWait(r, w) == xs + WithWait(r[1..], w);
    } else {
      var rest := s[1..];
      var t := InsertByWait(x, rest);
      var r := [s[0]] + t;
      var s0: seq<Ride> := if s[0].waitTime == w then [s[0]] else [];
      assert r[0] == s[0] && r[1..] == t;
      assert WithWait(r, w) == s0 + WithWait(t, w);
      InsertByWaitStable(x, rest, w);
      assert WithWait(s, w) == s0 + WithWait(rest, w);
      assert xs == [] || s0 == [];
    }
  }

  /** Rides with equal wait times keep their relative order (Python's sort is stable). */
  lemma {:induction false} SortByWaitDescStable(rs: seq<Ride>, w: int)
    ensures WithWait(SortByWaitDesc(rs), w) == WithWait(rs, w)
    decreases |rs|
  {
    if rs != [] {
      SortByWaitDescStable(rs[1..], w);
      InsertByWaitStable(rs[0], SortByWaitDesc(rs[1..]), w);
    }
  }

  // ---- grouping by land --------------------------------------------------

  /** The distinct lands of `rides` in order of first appearance (the key order of a Python dict). */
  function LandOrder(rides: seq<Ride>): (r: seq<Option<string>>)
    ensures |r| <= |rides|
    ensures r == [] <==> rides == []
  {
    if rides == [] then []
    else
      var ls := LandOrder(rides[..|rides| - 1]);
      var l := rides[|rides| - 1].land;
      if l in ls then ls else ls + [l]
  }

  /** The rides of `rides` in land `l`, in order. */
  function WithLand(rides: seq<Ride>, l: Option<string>): (r: seq<Ride>)
    ensures |r| <= |rides|
  {
    if rides == [] then []
    else
      var last := rides[|rides| - 1];
      WithLand(rides[..|rides| - 1], l) + (if last.land == l then [last] else [])
  }

  /** Each land appears once in the key order, and exactly the lands of the rides appear. */
  lemma {:induction false} LandOrderCorrect(rides: seq<Ride>)
    ensures forall i, j :: 0 <= i < j < |LandOrder(rides)| ==> LandOrder(rides)[i] != LandOrder(rides)[j]
    ensures forall l :: l in LandOrder(rides) <==> exists i :: 0 <= i < |rides| && rides[i].land == l
    decreases |rides|
  {
    if rides != [] {
      var init := rides[..|rides| - 1];
      LandOrderCorrect(init);
      assert forall i :: 0 <= i < |init| ==> init[i] == rides[i];
      forall l | exists i :: 0 <= i < |rides| && rides[i].land == l
        ensures l in LandOrder(rides)
      {
        var i :| 0 <= i < |rides| && rides[i].land == l;
        if i < |init| {
          assert init[i].land == l;
        }
      }
    }
  }

  lemma {:induction false} WithLandAbsent(rides: seq<Ride>, l: Option<string>)
    requires forall i :: 0 <= i < |rides| ==> rides[i].land != l
    ensures WithLand(rides, l) == []
    decreases |rides|
  {
    if rides != [] {
      WithLandAbsent(rides[..|rides| - 1], l);
    }
  }

  /** The group of land `l` holds exactly the rides of that land. */
  lemma {:induction false} WithLandCorrect(rides: seq<Ride>, l: Option<string>)
    ensures forall r :: r in WithLand(rides, l) ==> r in rides && r.land == l
    ensures forall i :: 0 <= i < |rides| && rides[i].land == l ==> rides[i] in WithLand(rides, l)
    decreases |rides|
  {
    if rides != [] {
      var init := rides[..|rides| - 1];
      WithLandCorrect(init, l);
      assert forall i :: 0 <= i < |init| ==> init[i] == rides[i];
      assert rides == init + [rides[|rides| - 1]];
    }
  }

  // ---- the report ----------------------------------------------------------

  function Header(parkName: string): string {
    "🎢 *Tempos de fila em " + parkName + " - Orlando* 🎢\n\n"
  }

  const Credit := "\n📊 Desenvolvido por Queue-Times.com"

  function UpdatedAt(now: string): string {
    "\n⏰ *Atualizado em: " + now + "*"
  }

  function Footer(now: string): string {
    UpdatedAt(now) + Credit
  }

  /** The line of one ride: its wait when open, "Fechada ❌" otherwise. */
  function RideLine(r: Ride): string {
    if r.status == "open" then "• " + Show(r.name) + ": *" + IntToString(r.waitTime) + " min*\n"
    else "• " + Show(r.name) + ": Fechada ❌\n"
  }

  function RideLines(s: seq<Ride>): string {
    if s == [] then "" else RideLines(s[..|s| - 1]) + RideLine(s[|s| - 1])
  }

  function LandTitle(l: Option<string>): string {
    "*📍 " + Show(l) + "*\n"
  }

  /** The section of land `l`: its title, its rides sorted by wait, a blank line. */
  function LandSection(rides: seq<Ride>, l: Option<string>): string {
    LandTitle(l) + RideLines(SortByWaitDesc(WithLand(rides, l))) + "\n"
  }

  function LandSections(rides: seq<Ride>, ls: seq<Option<string>>): string {
    if ls == [] then "" else LandSections(rides, ls[..|ls| - 1]) + LandSection(rides, ls[|ls| - 1])
  }

  /** Grouped by land when the response had lands, otherwise one list sorted by wait. */
  function Body(hasLands: bool, rides: seq<Ride>): string {
    if hasLands then LandSections(rides, LandOrder(rides)) else RideLines(SortByWaitDesc(rides))
  }

  /** The report: the park's header first, the update time and the credit last. */
  function QueueMessage(parkName: string, hasLands: bool, rides: seq<Ride>, now: string): (r: string)
    ensures StartsWith(r, Header(parkName)) && EndsWith(r, Footer(now))
  {
    ConcatFrame(Header(parkName), Body(hasLands, rides), Footer(now));
    Header(parkName) + Body(hasLands, rides) + Footer(now)
  }

  /** The dictionary `rides_by_land` holds the groups of `rides` under the keys of `order`. */
  ghost predicate Grouped(rides: seq<Ride>, byLand: map<Option<string>, seq<Ride>>, order: seq<Option<string>>) {
    order == LandOrder(rides) &&
    (forall l :: l in byLand <==> l in order) &&
    (forall l :: l in byLand ==> byLand[l] == WithLand(rides, l))
  }

  /**
   * The dictionary `rides_by_land` of `format_queue_message`: a map from land
   * to its rides plus the order in which its keys were inserted.
   */
  method GroupByLand(rides: seq<Ride>) returns (byLand: map<Option<string>, seq<Ride>>, order: seq<Option<string>>)
    ensures order == LandOrder(rides)
    ensures forall l :: l in byLand <==> l in order
    ensures forall l :: l in byLand ==> byLand[l] == WithLand(rides, l)
  {
    byLand := map[];
    order := [];
    var i := 0;
    while i < |rides|
      invariant 0 <= i <= |rides|
      invariant Grouped(rides[..i], byLand, order)
    {
      byLand, order := AddToGroup(rides, i, byLand, order);
      i := i + 1;
    }
    assert rides[..i] == rides;
  }

  /** One step of the grouping loop: ride `i` goes to the group of its land, created last if new. */
  method AddToGroup(rides: seq<Ride>, i: nat, byLand: map<Option<string>, seq<Ride>>, order: seq<Option<string>>)
    returns (byLand': map<Option<string>, seq<Ride>>, order': seq<Option<string>>)
    requires i < |rides| && Grouped(rides[..i], byLand, order)
    ensures Grouped(rides[..i + 1], byLand', order')
  {
    var pre := rides[..i];
    var l := rides[i].land;
    GroupStep(rides, i);
    byLand', order' := byLand, order;
    if l !in byLand' {
      LandOrderCorrect(pre);
      WithLandAbsent(pre, l);
      byLand' := byLand'[l := []];
      order' := order' + [l];
    }
    byLand' := byLand'[l := byLand'[l] + [rides[i]]];
  }

  /** How the key order and the groups grow when ride `i` is added. */
  lemma GroupStep(rides: seq<Ride>, i: nat)
    requires i < |rides|
    ensures var l := rides[i].land;
            LandOrder(rides[..i + 1]) == if l in LandOrder(rides[..i]) then LandOrder(rides[..i]) else LandOrder(rides[..i]) + [l]
    ensures forall l' :: WithLand(rides[..i + 1], l') == WithLand(rides[..i], l') + (if rides[i].land == l' then [rides[i]] else [])
  {
    var post := rides[..i + 1];
    assert post[..|post| - 1] == rides[..i] && post[|post| - 1] == rides[i];
  }

  /** Appends the line of each ride of `sorted`, in order. */
  method AppendRideLines(message: string, sorted: seq<Ride>) returns (m: string)
    ensures m == message + RideLines(sorted)
  {
    m := message;
    var j := 0;
    while j < |sorted|
      invariant 0 <= j <= |sorted|
      invariant m == message + RideLines(sorted[..j])
    {
      assert sorted[..j + 1][..j] == sorted[..j];
      assert RideLines(sorted[..j + 1]) == RideLines(sorted[..j]) + RideLine(sorted[j]);
      ConcatAssoc(message, RideLines(sorted[..j]), RideLine(sorted[j]));
      m := m + RideLine(sorted[j]);
      j := j + 1;
    }
    assert sorted[..j] == sorted;
  }

  /** Appends the section of each land of `order`, in order, from the groups of `byLand`. */
  method AppendLandSections(start: string, rides: seq<Ride>, byLand: map<Option<string>, seq<Ride>>,
                            order: seq<Option<string>>)
    returns (message: string)
    requires forall l :: l in order ==> l in byLand && byLand[l] == WithLand(rides, l)
    ensures message == start + LandSections(rides, order)
  {
    message := start;
    var k := 0;
    while k < |order|
      invariant 0 <= k <= |order|
      invariant message == start + LandSections(rides, order[..k])
    {
      var land := order[k];
      var lines := RideLines(SortByWaitDesc(byLand[land]));
      var done := LandSections(rides, order[..k]);
      message := AppendRideLines(message + LandTitle(land), SortByWaitDesc(byLand[land]));
      message := message + "\n";
      assert order[..k + 1][..k] == order[..k];
      assert LandSections(rides, order[..k + 1]) == done + (LandTitle(land) + lines + "\n");
      calc {
        message;
        start + done + LandTitle(land) + lines + "\n";
        { ConcatAssoc(start + done, LandTitle(land) + lines, "\n");
          ConcatAssoc(start + done, LandTitle(land), lines); }
        start + done + (LandTitle(land) + lines + "\n");
        { ConcatAssoc(start, done, LandTitle(land) + lines + "\n"); }
        start + LandSections(rides, order[..k + 1]);
      }
      k := k + 1;
    }
    assert order[..k] == order;
  }

  /**
   * `format_queue_message`: groups the rides by land when the response had
   * lands, then appends each section line by line. `now` is the formatted
   * UTC time.
   */
  method FormatQueueMessage(parkName: string, lands: seq<RawLand>, rides: seq<Ride>, now: string)
    returns (message: string)
    ensures message == QueueMessage(parkName, lands != [], rides, now)
  {
    message := Header(parkName);
    if lands != [] {
      var byLand, order := GroupByLand(rides);
      message := AppendLandSections(message, rides, byLand, order);
    } else {
      message := AppendRideLines(message, SortByWaitDesc(rides));
    }
    assert message == Header(parkName) + Body(lands != [], rides);
    message := message + UpdatedAt(now);
    message := message + Credit;
    ConcatAssoc(Header(parkName) + Body(lands != [], rides), UpdatedAt(now), Credit);
  }

  // ---- what the report shows ----------------------------------------------

  lemma {:induction false} RideLinesShowEach(s: seq<Ride>, i: nat)
    requires i < |s|
    ensures IsSubstring(RideLine(s[i]), RideLines(s))
    decreases |s|
  {
    var init := s[..|s| - 1];
    if i == |s| - 1 {
      SubstringAtEnd(RideLines(init), RideLine(s[i]));
    } else {
      assert init[i] == s[i];
      RideLinesShowEach(init, i);
      SubstringExtendRight(RideLine(s[i]), RideLines(init), RideLine(s[|s| - 1]));
    }
  }

  lemma {:induction false} LandSectionsShowEach(rides: seq<Ride>, ls: seq<Option<string>>, i: nat)
    requires i < |ls|
    ensures IsSubstring(LandSection(rides, ls[i]), LandSections(rides, ls))
    decreases |ls|
  {
    var init := ls[..|ls| - 1];
    if i == |ls| - 1 {
      SubstringAtEnd(LandSections(rides, init), LandSection(rides, ls[i]));
    } else {
      assert init[i] == ls[i];
      LandSectionsShowEach(rides, init, i);
      SubstringExtendRight(LandSection(rides, ls[i]), LandSections(rides, init), LandSection(rides, ls[|ls| - 1]));
    }
  }

  /**
   * Every ride gets its line in the report: under its land's title when the
   * response had lands, in the single sorted list otherwise.
   */
  lemma ReportShowsEveryRide(parkName: string, hasLands: bool, rides: seq<Ride>, now: string, i: nat)
    requires i < |rides|
    ensures IsSubstring(RideLine(rides[i]), QueueMessage(parkName, hasLands, rides, now))
    ensures hasLands ==> IsSubstring(LandSection(rides, rides[i].land), QueueMessage(parkName, hasLands, rides, now))
  {
    var r := rides[i];
    var msg := QueueMessage(parkName, hasLands, rides, now);
    if hasLands {
      var ls := LandOrder(rides);
      LandOrderCorrect(rides);
      WithLandCorrect(rides, r.land);
      assert r.land in ls;
      var k :| 0 <= k < |ls| && ls[k] == r.land;
      LandSectionsShowEach(rides, ls, k);
      SubstringWithin(LandSection(rides, r.land), Body(hasLands, rides), Header(parkName), Footer(now));
      var g := WithLand(rides, r.land);
      SortByWaitDescCorrect(g);
      assert r in multiset(SortByWaitDesc(g));
      var j :| 0 <= j < |SortByWaitDesc(g)| && SortByWaitDesc(g)[j] == r;
      RideLinesShowEach(SortByWaitDesc(g), j);
      SubstringWithin(RideLine(r), RideLines(SortByWaitDesc(g)), LandTitle(r.land), "\n");
      SubstringTransitive(RideLine(r), LandSection(rides, r.land), msg);
    } else {
      SortByWaitDescCorrect(rides);
      assert r in multiset(SortByWaitDesc(rides));
      var j :| 0 <= j < |SortByWaitDesc(rides)| && SortByWaitDesc(rides)[j] == r;
      RideLinesShowEach(SortByWaitDesc(rides), j);
      SubstringWithin(RideLine(r), Body(hasLands, rides), Header(parkName), Footer(now));
    }
  }

  /** The report opens with the park's title and always ends with the Queue-Times credit. */
  lemma ReportFrame(parkName: string, hasLands: bool, rides: seq<Ride>, now: string)
    ensures StartsWith(QueueMessage(parkName, hasLands, rides, now), Header(parkName))
    ensures EndsWith(QueueMessage(parkName, hasLands, rides, now), Credit)
  {
    ConcatFrame(Header(parkName), Body(hasLands, rides), Footer(now));
    var h := Header(parkName) + Body(hasLands, rides);
    ConcatAssoc(h, UpdatedAt(now), Credit);
    ConcatFrame(h, UpdatedAt(now), Credit);
  }
}
