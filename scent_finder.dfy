/**
 * The scent-finder page: a fixed sequence of perfumes the simulated sensor
 * "detects" in turn, the recommendations shown next to the detected perfume,
 * and the sensing state machine driven by a ticker. Random draws are inputs
 * (numbers in [0, 1), as Math.random returns), and every timer callback is one
 * atomic step. Prices are integer fils.
 */
module ScentFinder {

  datatype Notes = Notes(top: seq<string>, heart: seq<string>, base: seq<string>)

  datatype Perfume = Perfume(
    id: int, name: string, description: string, price: int, image: string, category: string,
    notes: Notes, sizes: seq<string>, similarityScore: int)

  /** A recommendation card: a perfume's display fields with a decorative match score. */
  datatype Recommendation = Recommendation(
    id: int, name: string, description: string, price: int, image: string, category: string,
    similarityScore: int)

  const Placeholder: string := "/placeholder.svg?height=400&width=300"

  const HaramainAmberOudDescription: string :=
    "A luxurious oriental fragrance with rich amber, oud, and spicy notes. This opulent scent combines precious woods with warm vanilla and saffron for a truly royal experience."

  const HaramainAmberOud: Perfume :=
    Perfume(1, "Haramain Amber Oud",
      HaramainAmberOudDescription,
      15999, "/Haramian Oud.jpg", "Unisex",
      Notes(["Saffron", "Bergamot", "Cinnamon"], ["Amber", "Oud", "Rose"], ["Vanilla", "Sandalwood", "Musk"]),
      ["50ml", "100ml"], 98)

  const IAmTheKingDescription: string :=
    "A bold and charismatic fragrance with notes of sandalwood, vetiver, and leather. This commanding scent exudes confidence and sophistication for the modern gentleman."

  const IAmTheKing: Perfume :=
    Perfume(3, "I Am The King",
      IAmTheKingDescription,
      12999, "/I Am The King.jpg", "Men",
      Notes(["Bergamot", "Black Pepper", "Cardamom"], ["Sandalwood", "Leather", "Cedar"], ["Vetiver", "Amber", "Musk"]),
      ["50ml", "100ml"], 96)

  const OmbreNomadDescription: string :=
    "An exotic journey through the desert with notes of oud, benzoin, and date. This sophisticated fragrance evokes the mystique of Arabian nights with its warm, spicy character."

  const OmbreNomad: Perfume :=
    Perfume(2, "Ombre Nomad",
      OmbreNomadDescription,
      18999, "/Ombre Nomad.jpg", "Unisex",
      Notes(["Cardamom", "Ginger", "Bergamot"], ["Oud", "Benzoin", "Incense"], ["Date", "Vanilla", "Amber"]),
      ["50ml", "100ml", "Travel Size"], 95)

  const OrchidWhiteDescription: string :=
    "An elegant floral fragrance with delicate notes of white orchid, jasmine, and vanilla. This refined scent captures the pure essence of rare white orchids for a truly feminine experience."

  const OrchidWhite: Perfume :=
    Perfume(4, "Orchid White",
      OrchidWhiteDescription,
      14999, "/Orchid White.jpg", "Women",
      Notes(["Bergamot", "Green Notes", "Peach"], ["White Orchid", "Jasmine", "Lily of the Valley"], ["Vanilla", "Musk", "Sandalwood"]),
      ["30ml", "50ml", "100ml"], 94)

  /** The perfumes the sensor detects, in detection order. */
  const PerfumeSequence: seq<Perfume> := [HaramainAmberOud, IAmTheKing, OmbreNomad, OrchidWhite]

  function Min(a: int, b: int): int {
    if a <= b then a else b
  }

  /** Math.floor(roll * n) for a draw `roll` in [0, 1). */
  function Draw(roll: real, n: nat): (r: int)
    requires 0.0 <= roll < 1.0
    requires n > 0
    ensures 0 <= r < n
  {
    var x := roll * n as real;
    assert 0.0 <= x < n as real;
    x.Floor
  }

  predicate ValidRolls(rolls: seq<real>) {
    forall k :: 0 <= k < |rolls| ==> 0.0 <= rolls[k] < 1.0
  }

  // ---- recommendations ----

  /** The filter step: every perfume other than the current one, in sequence order. */
  function Others(catalog: seq<Perfume>, currentId: int): (r: seq<Perfume>)
    ensures |r| <= |catalog|
    ensures forall k :: 0 <= k < |r| ==> r[k].id != currentId
  {
    if |catalog| == 0 then []
    else
      var rest := Others(catalog[1..], currentId);
      if catalog[0].id == currentId then rest else [catalog[0]] + rest
  }

  /** A perfume survives the filter exactly when it is in the catalog with another id. */
  lemma {:induction false} OthersMembers(catalog: seq<Perfume>, currentId: int, p: Perfume)
    ensures p in Others(catalog, currentId) <==> p in catalog && p.id != currentId
  {
    if |catalog| > 0 {
      OthersMembers(catalog[1..], currentId, p);
      assert catalog == [catalog[0]] + catalog[1..];
    }
  }

  /** The filter distributes over concatenation, so survivors keep their catalog order. */
  lemma {:induction false} OthersAppend(a: seq<Perfume>, b: seq<Perfume>, currentId: int)
    ensures Others(a + b, currentId) == Others(a, currentId) + Others(b, currentId)
  {
    if |a| == 0 {
      assert a + b == b;
    } else {
      assert (a + b)[1..] == a[1..] + b;
      OthersAppend(a[1..], b, currentId);
    }
  }

  /** The match score shown on a card: Math.floor(roll * 15) + 80. */
  function Score(roll: real): (r: int)
    requires 0.0 <= roll < 1.0
    ensures 80 <= r <= 94
  {
    Draw(roll, 15) + 80
  }

  /** The map step for one perfume; an empty image falls back to the placeholder. */
  function ToRecommendation(p: Perfume, roll: real): (r: Recommendation)
    requires 0.0 <= roll < 1.0
    ensures r.id == p.id && r.name == p.name && r.description == p.description
    ensures r.price == p.price && r.category == p.category
    ensures r.image != ""
    ensures p.image != "" ==> r.image == p.image
    ensures 80 <= r.similarityScore <= 94
  {
    Recommendation(p.id, p.name, p.description, p.price,
      if p.image == "" then Placeholder else p.image, p.category, Score(roll))
  }

  /** getRecommendedScents over `catalog`: drop the current perfume, map each remaining one
      to a card using the next random draw, and keep at most the first three. */
  function Recommend(catalog: seq<Perfume>, currentId: int, rolls: seq<real>): (r: seq<Recommendation>)
    requires |rolls| >= |catalog|
    requires ValidRolls(rolls)
    ensures |r| == Min(3, |Others(catalog, currentId)|)
    ensures forall k :: 0 <= k < |r| ==> r[k].id != currentId
    ensures forall k :: 0 <= k < |r| ==> 80 <= r[k].similarityScore <= 94
    ensures forall k :: 0 <= k < |r| ==>
      var p := Others(catalog, currentId)[k];
      r[k].id == p.id && r[k].name == p.name && r[k].price == p.price && r[k].category == p.category
    ensures forall k :: 0 <= k < |r| ==> r[k] == ToRecommendation(Others(catalog, currentId)[k], rolls[k])
  {
    var others := Others(catalog, currentId);
    var cards := seq(|others|, k requires 0 <= k < |others| => ToRecommendation(others[k], rolls[k]));
    cards[..Min(3, |cards|)]
  }

  /** getRecommendedScents: whatever the current id, three cards are shown, none of them
      for the current perfume. */
  function GetRecommendedScents(currentId: int, rolls: seq<real>): (r: seq<Recommendation>)
    requires |rolls| >= |PerfumeSequence|
    requires ValidRolls(rolls)
    ensures |r| == 3
    ensures forall k :: 0 <= k < |r| ==> r[k].id != currentId
    ensures forall k :: 0 <= k < |r| ==> 80 <= r[k].similarityScore <= 94
  {
    OthersOfSequenceHasThree(currentId);
    Recommend(PerfumeSequence, currentId, rolls)
  }

  /** The sequence's ids are distinct, so the filter drops at most one of its four perfumes. */
  lemma {:induction false} OthersOfSequenceHasThree(currentId: int)
    ensures |Others(PerfumeSequence, currentId)| >= 3
  {
    var a, b, c, d := HaramainAmberOud, IAmTheKing, OmbreNomad, OrchidWhite;
    assert a.id == 1 && b.id == 3 && c.id == 2 && d.id == 4;
    OthersOfFour(a, b, c, d, currentId);
    assert |Kept(a, currentId)| + |Kept(b, currentId)| + |Kept(c, currentId)| + |Kept(d, currentId)| >= 3;
  }

  function Ids(r: seq<Recommendation>): seq<int> {
    seq(|r|, k requires 0 <= k < |r| => r[k].id)
  }

  /** With the four-perfume sequence, each detected perfume gets exactly the other three,
      in sequence order. */
  lemma {:induction false} RecommendationsForEachPerfume(rolls: seq<real>)
    requires |rolls| >= |PerfumeSequence|
    requires ValidRolls(rolls)
    ensures Ids(GetRecommendedScents(1, rolls)) == [3, 2, 4]
    ensures Ids(GetRecommendedScents(3, rolls)) == [1, 2, 4]
    ensures Ids(GetRecommendedScents(2, rolls)) == [1, 3, 4]
    ensures Ids(GetRecommendedScents(4, rolls)) == [1, 3, 2]
  {
    var s := PerfumeSequence;
    OthersOfSequence();
    assert Ids(GetRecommendedScents(1, rolls)) == [3, 2, 4] by {
      IdsOfRecommend(s, 1, rolls);
      assert PerfumeIds([s[1], s[2], s[3]]) == [3, 2, 4];
    }
    assert Ids(GetRecommendedScents(3, rolls)) == [1, 2, 4] by {
      IdsOfRecommend(s, 3, rolls);
      assert PerfumeIds([s[0], s[2], s[3]]) == [1, 2, 4];
    }
    assert Ids(GetRecommendedScents(2, rolls)) == [1, 3, 4] by {
      IdsOfRecommend(s, 2, rolls);
      assert PerfumeIds([s[0], s[1], s[3]]) == [1, 3, 4];
    }
    assert Ids(GetRecommendedScents(4, rolls)) == [1, 3, 2] by {
      IdsOfRecommend(s, 4, rolls);
      assert PerfumeIds([s[0], s[1], s[2]]) == [1, 3, 2];
    }
  }

  function PerfumeIds(ps: seq<Perfume>): seq<int> {
    seq(|ps|, k requires 0 <= k < |ps| => ps[k].id)
  }

  /** The recommended ids are the first (at most three) ids left by the filter. */
  lemma {:induction false} IdsOfRecommend(catalog: seq<Perfume>, currentId: int, rolls: seq<real>)
    requires |rolls| >= |catalog|
    requires ValidRolls(rolls)
    ensures var others := Others(catalog, currentId);
      Ids(Recommend(catalog, currentId, rolls)) == PerfumeIds(others)[..Min(3, |others|)]
  {
    var others := Others(catalog, currentId);
    var r := Recommend(catalog, currentId, rolls);
    var expected := PerfumeIds(others)[..Min(3, |others|)];
    assert |Ids(r)| == |expected|;
    forall k | 0 <= k < |r| ensures Ids(r)[k] == expected[k] {
      assert r[k].id == others[k].id;
    }
  }

  /** The filter step over the four-perfume sequence, for each perfume in it. */
  lemma {:induction false} OthersOfSequence()
    ensures var s := PerfumeSequence;
      Others(s, 1) == [s[1], s[2], s[3]] && Others(s, 3) == [s[0], s[2], s[3]] &&
      Others(s, 2) == [s[0], s[1], s[3]] && Others(s, 4) == [s[0], s[1], s[2]]
  {
    var a, b, c, d := HaramainAmberOud, IAmTheKing, OmbreNomad, OrchidWhite;
    assert a.id == 1 && b.id == 3 && c.id == 2 && d.id == 4;
    OthersOfFour(a, b, c, d, 1);
    OthersOfFour(a, b, c, d, 3);
    OthersOfFour(a, b, c, d, 2);
    OthersOfFour(a, b, c, d, 4);
  }

  /** Filtering a four-element catalog keeps each element exactly when its id differs. */
  lemma {:induction false} OthersOfFour(a: Perfume, b: Perfume, c: Perfume, d: Perfume, currentId: int)
    ensures Others([a, b, c, d], currentId) ==
      Kept(a, currentId) + Kept(b, currentId) + Kept(c, currentId) + Kept(d, currentId)
  {
    var s := [a, b, c, d];
    assert s[1..] == [b, c, d] && [b, c, d][1..] == [c, d] && [c, d][1..] == [d] && [d][1..] == [];
    assert Others([d], currentId) == Kept(d, currentId);
    assert Others([c, d], currentId) == Kept(c, currentId) + Kept(d, currentId);
    assert Others([b, c, d], currentId) == Kept(b, currentId) + (Kept(c, currentId) + Kept(d, currentId));
  }

  /** One perfume as the filter keeps it: dropped when it has the current id. */
  function Kept(p: Perfume, currentId: int): seq<Perfume> {
    if p.id == currentId then [] else [p]
  }

  // ---- the sensing ticker ----

  datatype SensingState = Initial | Sensing | Processing | Results

  /** The three gas-sensor readings: MQ-3, MQ-4 and MQ-135. */
  datatype Readings = Readings(mq3: int, mq4: int, mq135: int)

  const ZeroReadings := Readings(0, 0, 0)

  predicate InRange(r: Readings) {
    0 <= r.mq3 <= 100 && 0 <= r.mq4 <= 100 && 0 <= r.mq135 <= 100
  }

  /** No reading of `b` is below the same reading of `a`. */
  predicate NotBelow(a: Readings, b: Readings) {
    a.mq3 <= b.mq3 && a.mq4 <= b.mq4 && a.mq135 <= b.mq135
  }

  /** The progress updater: one step up, capped at 100. */
  function NextProgress(prev: int): (next: int)
    ensures next <= 100
    ensures prev < 99 ==> next == prev + 1
    ensures prev >= 99 ==> next == 100
  {
    if prev + 1 >= 100 then 100 else prev + 1
  }

  /** Math.min(100, prev + increment). */
  function Raise(prev: int, increment: int): (r: int)
    ensures 0 <= prev <= 100 && increment >= 0 ==> prev <= r <= 100
    ensures prev + increment <= 100 ==> r == prev + increment
    ensures prev + increment >= 100 ==> r == 100
  {
    Min(100, prev + increment)
  }

  /** The readings updater: each sensor rises by its own random amount (below 15, 10 and 20),
      clamped at 100. */
  function NextReadings(prev: Readings, r3: real, r4: real, r135: real): (r: Readings)
    requires 0.0 <= r3 < 1.0 && 0.0 <= r4 < 1.0 && 0.0 <= r135 < 1.0
    ensures InRange(prev) ==> InRange(r) && NotBelow(prev, r)
  {
    Readings(Raise(prev.mq3, Draw(r3, 15)), Raise(prev.mq4, Draw(r4, 10)), Raise(prev.mq135, Draw(r135, 20)))
  }

  /** The progress after `ticks` ticks from `start`. */
  function ProgressAfter(start: int, ticks: nat): int {
    if ticks == 0 then start else NextProgress(ProgressAfter(start, ticks - 1))
  }

  /** From 0, the k-th tick shows k percent until the hundredth, and nothing ever exceeds 100. */
  lemma {:induction false} ProgressFromZero(ticks: nat)
    ensures ProgressAfter(0, ticks) == Min(ticks, 100)
  {
    if ticks > 0 {
      ProgressFromZero(ticks - 1);
    }
  }

  /** The moves the state machine may make: stay, go back to the start, or advance one step
      along initial, sensing, processing, results. */
  predicate Allowed(from: SensingState, to: SensingState) {
    from == to || to == Initial ||
    (from == Initial && to == Sensing) ||
    (from == Sensing && to == Processing) ||
    (from == Processing && to == Results)
  }

  // ---- cycling through the perfumes ----

  /** The index senseAnotherFragrance moves to. */
  function NextIndex(i: int): (r: int)
    requires 0 <= i < |PerfumeSequence|
    ensures 0 <= r < |PerfumeSequence|
    ensures r == if i == |PerfumeSequence| - 1 then 0 else i + 1
  {
    (i + 1) % |PerfumeSequence|
  }

  /** The index after `steps` presses of "Sense Another Fragrance" from `start`. */
  function IndexAfter(start: int, steps: nat): (r: int)
    requires 0 <= start < |PerfumeSequence|
    ensures 0 <= r < |PerfumeSequence|
  {
    if steps == 0 then start else NextIndex(IndexAfter(start, steps - 1))
  }

  /** `steps` presses of "Sense Another Fragrance" advance the index by `steps`, modulo the
      sequence length; so from any index every perfume is reached within four presses. */
  lemma {:induction false} IndexCycles(start: int, steps: nat)
    requires 0 <= start < |PerfumeSequence|
    ensures IndexAfter(start, steps) == (start + steps) % |PerfumeSequence|
  {
    if steps > 0 {
      IndexCycles(start, steps - 1);
      assert |PerfumeSequence| == 4;
      ModSucc(start + steps - 1);
    }
  }

  /** Taking the remainder by four before or after adding one gives the same remainder. */
  lemma {:induction false} ModSucc(a: int)
    ensures (a % 4 + 1) % 4 == (a + 1) % 4
  {
    var q, m := a / 4, a % 4;
    assert a == 4 * q + m;
    if m == 3 {
      assert a + 1 == 4 * (q + 1);
    } else {
      assert a + 1 == 4 * q + (m + 1);
    }
  }

  lemma {:induction false} EveryPerfumeReached(start: int, target: int)
    requires 0 <= start < |PerfumeSequence| && 0 <= target < |PerfumeSequence|
    ensures var steps := (target - start) % |PerfumeSequence|;
      steps < |PerfumeSequence| && IndexAfter(start, steps) == target
  {
    var n := |PerfumeSequence|;
    var steps := (target - start) % n;
    IndexCycles(start, steps);
    assert start + steps == target || start + steps == target + n;
  }

  /**
   * The page's sensing state. Besides the React state variables it counts the timers in
   * flight: `liveTickers` intervals started by startSensing and not yet cleared, and
   * `pendingResults` processing timeouts not yet fired. A tick or a timeout can only be
   * delivered while one of these is live.
   */
  class SensorPage {
    var sensingState: SensingState
    var sensingProgress: int
    var sensorReadings: Readings
    var currentPerfumeIndex: int
    var liveTickers: nat
    var pendingResults: nat

    /** What holds whatever the timers do. */
    ghost predicate Bounded()
      reads this
    {
      0 <= sensingProgress <= 100 && InRange(sensorReadings) &&
      0 <= currentPerfumeIndex < |PerfumeSequence|
    }

    /** The intended invariant: at most one ticker, running exactly while sensing; at most one
        processing timeout, pending exactly while processing. */
    ghost predicate Valid()
      reads this
    {
      Bounded() &&
      liveTickers <= 1 && pendingResults <= 1 &&
      (liveTickers == 1 <==> sensingState == Sensing) &&
      (pendingResults == 1 <==> sensingState == Processing) &&
      (sensingState == Sensing ==> sensingProgress < 100) &&
      (sensingState in {Processing, Results} ==> sensingProgress == 100) &&
      (sensingState == Initial ==> sensingProgress == 0 && sensorReadings == ZeroReadings)
    }

    constructor()
      ensures Valid()
      ensures sensingState == Initial && currentPerfumeIndex == 0
    {
      sensingState := Initial;
      sensingProgress := 0;
      sensorReadings := ZeroReadings;
      currentPerfumeIndex := 0;
      liveTickers := 0;
      pendingResults := 0;
    }

    /** The perfume currently shown as detected. */
    function DetectedScent(): (r: Perfume)
      reads this
      requires Bounded()
      ensures r in PerfumeSequence
    {
      PerfumeSequence[currentPerfumeIndex]
    }

    /** recommendedScents: the cards shown beside the detected perfume. */
    function RecommendedScents(rolls: seq<real>): (r: seq<Recommendation>)
      reads this
      requires Bounded()
      requires |rolls| >= |PerfumeSequence|
      requires ValidRolls(rolls)
      ensures |r| == 3
      ensures forall k :: 0 <= k < |r| ==> r[k].id != DetectedScent().id
    {
      GetRecommendedScents(DetectedScent().id, rolls)
    }

    /** startSensing, reached from the Start button in the initial view or from the delayed
        restart, which may land in any state. `connectionFails` stands for an exception while
        starting the ticker. */
    method StartSensing(connectionFails: bool)
      requires Bounded()
      modifies this
      ensures Bounded()
      ensures sensingProgress == 0 && sensorReadings == old(sensorReadings)
      ensures currentPerfumeIndex == old(currentPerfumeIndex) && pendingResults == old(pendingResults)
      ensures connectionFails ==> sensingState == Initial && liveTickers == old(liveTickers)
      ensures !connectionFails ==> sensingState == Sensing && liveTickers == old(liveTickers) + 1
      ensures Allowed(old(sensingState), sensingState) <==>
        connectionFails || old(sensingState) == Initial || old(sensingState) == Sensing
      ensures old(Valid()) && old(sensingState) == Initial ==> Valid()
      ensures !connectionFails && old(liveTickers) > 0 ==> !Valid()
    {
      sensingState := Sensing;
      sensingProgress := 0;
      if connectionFails {
        sensingState := Initial;
      } else {
        liveTickers := liveTickers + 1;
      }
    }

    /** One interval callback, with the three random draws for the readings. */
    method Tick(r3: real, r4: real, r135: real)
      requires Bounded() && liveTickers > 0
      requires 0.0 <= r3 < 1.0 && 0.0 <= r4 < 1.0 && 0.0 <= r135 < 1.0
      modifies this
      ensures Bounded()
      ensures sensingProgress == NextProgress(old(sensingProgress))
      ensures sensorReadings ==
        if (old(sensingProgress) + 1) % 10 == 0 then NextReadings(old(sensorReadings), r3, r4, r135)
        else old(sensorReadings)
      ensures NotBelow(old(sensorReadings), sensorReadings)
      ensures currentPerfumeIndex == old(currentPerfumeIndex)
      ensures old(sensingProgress) + 1 >= 100 ==>
        sensingState == Processing && liveTickers == old(liveTickers) - 1 &&
        pendingResults == old(pendingResults) + 1
      ensures old(sensingProgress) + 1 < 100 ==>
        sensingState == old(sensingState) && liveTickers == old(liveTickers) &&
        pendingResults == old(pendingResults)
      ensures old(Valid()) ==> Valid() && Allowed(old(sensingState), sensingState)
    {
      var newProgress := sensingProgress + 1;
      if newProgress % 10 == 0 {
        sensorReadings := NextReadings(sensorReadings, r3, r4, r135);
      }
      if newProgress >= 100 {
        liveTickers := liveTickers - 1;
        sensingState := Processing;
        pendingResults := pendingResults + 1;
        sensingProgress := 100;
      } else {
        sensingProgress := newProgress;
      }
    }

    /** The processing timeout firing. */
    method FinishProcessing()
      requires Bounded() && pendingResults > 0
      modifies this
      ensures Bounded()
      ensures sensingState == Results && pendingResults == old(pendingResults) - 1
      ensures sensingProgress == old(sensingProgress) && sensorReadings == old(sensorReadings)
      ensures liveTickers == old(liveTickers) && currentPerfumeIndex == old(currentPerfumeIndex)
      ensures old(Valid()) ==> Valid() && Allowed(old(sensingState), sensingState)
    {
      sensingState := Results;
      pendingResults := pendingResults - 1;
    }

    /** resetSensor as written: back to the initial view with zero progress and readings, but
        the running interval and any pending timeout are left alive. */
    method ResetSensorAsWritten()
      requires Bounded()
      modifies this
      ensures Bounded()
      ensures sensingState == Initial && sensingProgress == 0 && sensorReadings == ZeroReadings
      ensures currentPerfumeIndex == old(currentPerfumeIndex)
      ensures liveTickers == old(liveTickers) && pendingResults == old(pendingResults)
    {
      sensingState := Initial;
      sensingProgress := 0;
      sensorReadings := ZeroReadings;
    }

    /** resetSensor as intended: the same reset, and the ticker and the processing timeout are
        cancelled, so no later tick or timeout can move the page out of the initial view. */
    method ResetSensor()
      requires Bounded()
      modifies this
      ensures Valid()
      ensures sensingState == Initial && sensingProgress == 0 && sensorReadings == ZeroReadings
      ensures currentPerfumeIndex == old(currentPerfumeIndex)
      ensures liveTickers == 0 && pendingResults == 0
      ensures Allowed(old(sensingState), sensingState)
    {
      sensingState := Initial;
      sensingProgress := 0;
      sensorReadings := ZeroReadings;
      liveTickers := 0;
      pendingResults := 0;
    }

    /** senseAnotherFragrance, from the button in the results view: reset and move to the
        next perfume. Its delayed restart is the caller's next StartSensing step. */
    method SenseAnotherFragrance()
      requires Bounded() && sensingState == Results
      modifies this
      ensures Bounded()
      ensures sensingState == Initial && sensingProgress == 0 && sensorReadings == ZeroReadings
      ensures currentPerfumeIndex == NextIndex(old(currentPerfumeIndex))
      ensures liveTickers == old(liveTickers) && pendingResults == old(pendingResults)
      ensures old(Valid()) ==> Valid()
    {
      sensingState := Initial;
      sensingProgress := 0;
      sensorReadings := ZeroReadings;
      currentPerfumeIndex := NextIndex(currentPerfumeIndex);
    }
  }

  /** As written, Cancel does not stop the ticker: start sensing, cancel at once, and without
      any further start the hundredth tick moves the page from the initial view straight to
      processing, a move the state machine does not allow. */
  method CancelledRunStillCompletes() returns (page: SensorPage, before: SensingState)
    ensures before == Initial && page.sensingState == Processing
    ensures !Allowed(before, page.sensingState)
  {
    page := new SensorPage();
    page.StartSensing(false);
    page.ResetSensorAsWritten();
    var k := 0;
    while k < 99
      invariant 0 <= k <= 99
      invariant page.Bounded() && page.sensingProgress == k
      invariant page.sensingState == Initial && page.liveTickers == 1
      modifies page
    {
      page.Tick(0.0, 0.0, 0.0);
      k := k + 1;
    }
    before := page.sensingState;
    page.Tick(0.0, 0.0, 0.0);
  }

  /** The delayed restart of senseAnotherFragrance landing after the user has already pressed
      Start: a second ticker is started beside the first. */
  method RestartWhileSensing() returns (page: SensorPage)
    ensures page.sensingState == Sensing && page.liveTickers == 2
    ensures !page.Valid()
  {
    page := new SensorPage();
    page.StartSensing(false);
    page.StartSensing(false);
  }
}
