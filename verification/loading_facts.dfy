/** The messages shown while a trip guide is generated
    (src/components/TripGuide/TripGuideLoading.tsx): which list is shown for
    a destination, and how the shown message rotates. */
module LoadingFacts {
  import opened Js

  /** The messages the card can show, one name per message; `Message`
      gives each one's text. */
  datatype Fact =
    | UnrollingMaps | AskingRangers | LocalTowns | GatheringGuides | HiddenGems
    | MatchingEnergy | WeavingCulture | ScenicRoutes | Sustainable | BalancingDays
    | StackingHighlights | CultureAndNature | CheckingFlow
    | JapanIslands | CherryBlossoms | MountFuji | JapanHotSprings
    | ThaiIslands | ThaiElephants | ThaiChilies | ThaiTemples
    | MidAtlanticRidge | NoMosquitoes | GeothermalHeating | NorthernLights
    | SwissPeaks | SwissRailways | SwissCheese | AlpsCoverage

  /** The text of each message. */
  function Message(f: Fact): string {
    match f
    case UnrollingMaps => "\U{1F5FA}\U{FE0F} Unrolling the maps \U{2014} plotting landscapes that fit your vibe."
    case AskingRangers => "\U{1F98C} Asking the rangers \U{2014} picking up trail tips and secret spots."
    case LocalTowns => "\U{1F3D8}\U{FE0F} Checking the pulse of local towns \U{2014} peeking at markets, festivals, and community favorites."
    case GatheringGuides => "\U{1F4DA} Gathering the guides \U{2014} outdoor experts worldwide sharing their tried-and-true adventures."
    case HiddenGems => "\U{1F48E} Sifting through hidden gems \U{2014} tapping into a deep well of expert knowledge."
    case MatchingEnergy => "\U{26A1} Matching your energy level \U{2014} finding outdoor experiences that keep pace with you."
    case WeavingCulture => "\U{1F3AD} Weaving in culture \U{2014} adding authentic local flavors, stories, and traditions."
    case ScenicRoutes => "\U{1F305} Spotting the scenic routes \U{2014} choosing views worth slowing down for."
    case Sustainable => "\U{1F331} Keeping it sustainable \U{2014} prioritizing eco-friendly and community-first activities."
    case BalancingDays => "\U{2696}\U{FE0F} Balancing the days \U{2014} mixing adventure with downtime."
    case StackingHighlights => "\U{2728} Stacking the highlights \U{2014} making sure each day has a 'wow' moment to look forward to."
    case CultureAndNature => "\U{1F30A} Layering culture and nature \U{2014} weaving together trails, towns, and tastes in a natural flow."
    case CheckingFlow => "\U{1F4D6} Checking the flow \U{2014} making sure your journey unfolds like a story, not a checklist."
    case JapanIslands => "\U{1F5FE} Japan has over 6,800 islands, but only about 430 are inhabited!"
    case CherryBlossoms => "\U{1F338} Cherry blossom season lasts only 1-2 weeks in each location."
    case MountFuji => "\U{1F5FB} Mount Fuji is considered sacred and has been climbed by millions."
    case JapanHotSprings => "\U{2668}\U{FE0F} Japan has over 27,000 hot springs scattered throughout the country."
    case ThaiIslands => "\U{1F3DD}\U{FE0F} Thailand has over 1,400 islands - you could visit a new one every day for years!"
    case ThaiElephants => "\U{1F418} Thailand is home to about 3,000-4,000 wild elephants."
    case ThaiChilies => "\U{1F336}\U{FE0F} Thai cuisine uses over 40 different types of chilies."
    case ThaiTemples => "\U{1F3DB}\U{FE0F} Thailand has over 40,000 Buddhist temples throughout the country."
    case MidAtlanticRidge => "\U{1F30B} Iceland sits on the Mid-Atlantic Ridge, where two tectonic plates meet."
    case NoMosquitoes => "\U{1F48E} Iceland has no mosquitoes - it's one of the few places on Earth without them!"
    case GeothermalHeating => "\U{2668}\U{FE0F} About 85% of Iceland's houses are heated with geothermal energy."
    case NorthernLights => "\U{1F30C} The Northern Lights are visible in Iceland from September to March."
    case SwissPeaks => "\U{1F3D4}\U{FE0F} Switzerland has 48 peaks over 4,000 meters (13,123 feet) high."
    case SwissRailways => "\U{1F682} The Swiss railway system is so punctual, the average delay is just 3 minutes."
    case SwissCheese => "\U{1F9C0} Switzerland produces over 450 varieties of cheese."
    case AlpsCoverage => "\U{26F7}\U{FE0F} The Alps cover about 60% of Switzerland's total land area."
  }

  /** The generation-process messages every list ends with. */
  const GenericFacts: seq<Fact> := [
    UnrollingMaps, AskingRangers, LocalTowns, GatheringGuides, HiddenGems,
    MatchingEnergy, WeavingCulture, ScenicRoutes, Sustainable, BalancingDays,
    StackingHighlights, CultureAndNature, CheckingFlow]

  /** A destination key and its four facts. */
  datatype Destination = Destination(key: string, facts: seq<Fact>)

  /** The destination table, in its insertion order. */
  const Destinations: seq<Destination> := [
    Destination("japan", [JapanIslands, CherryBlossoms, MountFuji, JapanHotSprings]),
    Destination("thailand", [ThaiIslands, ThaiElephants, ThaiChilies, ThaiTemples]),
    Destination("iceland", [MidAtlanticRidge, NoMosquitoes, GeothermalHeating, NorthernLights]),
    Destination("switzerland", [SwissPeaks, SwissRailways, SwissCheese, AlpsCoverage])]

  /** Shown when no message is passed in. */
  const DefaultGreeting := "I'm analyzing your preferences and crafting the perfect outdoor adventure just for you..."

  /** Every destination has four facts. */
  predicate FourFactsEach(table: seq<Destination>) {
    forall k :: 0 <= k < |table| ==> |table[k].facts| == 4
  }

  /** The position of the first key that occurs in `destination`. */
  function FirstKey(destination: string, table: seq<Destination>): (r: Option<nat>)
    ensures r.Some? ==> r.value < |table| && Includes(destination, table[r.value].key)
    ensures forall k :: 0 <= k < |table| && (r.None? || k < r.value) ==> !Includes(destination, table[k].key)
    decreases |table|
  {
    if table == [] then None
    else if Includes(destination, table[0].key) then Some(0)
    else
      match FirstKey(destination, table[1..])
      case None => None
      case Some(k) =>
        assert forall j :: 1 <= j <= k ==> table[j] == table[1..][j - 1];
        Some(k + 1)
  }

  /** The list for a destination: the facts of the first key its
      lower-cased form contains, followed by the generic messages. */
  function FactsFor(userDestination: Option<string>): (facts: seq<Fact>)
    ensures |facts| == 13 || |facts| == 17
  {
    assert FourFactsEach(Destinations) && |GenericFacts| == 13;
    if userDestination.None? || userDestination.value == [] then GenericFacts
    else
      match FirstKey(ToLower(userDestination.value), Destinations)
      case None => GenericFacts
      case Some(k) => Destinations[k].facts + GenericFacts
  }

  /** With none, or an empty one, the generic messages; otherwise the facts
      of the first key the lower-cased destination contains, or the generic
      messages when it contains none; the generic messages always close the
      list. */
  lemma FactsForChoice(userDestination: Option<string>)
    ensures FactsFor(userDestination)[|FactsFor(userDestination)| - 13..] == GenericFacts
    ensures userDestination.None? || userDestination == Some("") ==> FactsFor(userDestination) == GenericFacts
    ensures forall k :: 0 <= k < |Destinations| && userDestination.Some? && userDestination.value != [] &&
                        Includes(ToLower(userDestination.value), Destinations[k].key) &&
                        (forall j :: 0 <= j < k ==> !Includes(ToLower(userDestination.value), Destinations[j].key)) ==>
              FactsFor(userDestination) == Destinations[k].facts + GenericFacts
    ensures userDestination.Some? &&
            (forall k :: 0 <= k < |Destinations| ==> !Includes(ToLower(userDestination.value), Destinations[k].key)) ==>
              FactsFor(userDestination) == GenericFacts
  {
    assert FourFactsEach(Destinations);
    if userDestination.Some? && userDestination.value != [] {
      var d := ToLower(userDestination.value);
      match FirstKey(d, Destinations)
      case None =>
      case Some(r) =>
        forall k | 0 <= k < |Destinations| && Includes(d, Destinations[k].key) &&
                   (forall j :: 0 <= j < k ==> !Includes(d, Destinations[j].key))
          ensures k == r
        {
          assert !(k < r);
        }
    }
  }

  /** The greeting bubble: the message when it is truthy, else the default. */
  function Greeting(message: Option<string>): (text: string)
    ensures message.None? || message == Some("") ==> text == DefaultGreeting
    ensures message.Some? && message.value != [] ==> text == message.value
    ensures text != []
  {
    if message.Some? && message.value != [] then message.value else DefaultGreeting
  }

  /** The loading card's fact rotation: the list for the current
      destination and the index of the message shown. */
  class FactRotator {
    var facts: seq<Fact>
    var index: nat

    /** The shown index points into the list. */
    predicate Valid()
      reads this
    {
      facts != [] && index < |facts|
    }

    /** The message shown, or nothing when the index has fallen off the list. */
    function Current(): (m: Option<Fact>)
      reads this
      ensures Valid() ==> m == Some(facts[index])
      ensures m.None? <==> index >= |facts|
    {
      if index < |facts| then Some(facts[index]) else None
    }

    /** First render: the list for the destination, from its first message. */
    constructor(userDestination: Option<string>)
      ensures facts == FactsFor(userDestination) && index == 0
      ensures Valid()
    {
      facts := FactsFor(userDestination);
      index := 0;
    }

    /** One firing of the seven-second timer: the next message, wrapping to
        the first after the last. */
    method Tick()
      requires facts != []
      modifies this
      ensures facts == old(facts)
      ensures index == (old(index) + 1) % |facts|
      ensures Valid()
    {
      index := (index + 1) % |facts|;
    }

    /** A new destination as the component handles it: the list is
        recomputed, the index is kept. */
    method ChangeDestination(userDestination: Option<string>)
      modifies this
      ensures facts == FactsFor(userDestination) && index == old(index)
      ensures old(index) < 13 ==> Valid()
    {
      facts := FactsFor(userDestination);
    }

    /** A new destination with the index brought back to the first message,
        which keeps the shown message on the list. */
    method ChangeDestinationAndRestart(userDestination: Option<string>)
      modifies this
      ensures facts == FactsFor(userDestination) && index == 0
      ensures Valid()
    {
      facts := FactsFor(userDestination);
      index := 0;
    }
  }

  /** A destination naming Japan in any letter case gets the four facts
      about Japan first. */
  lemma JapanHasItsOwnFacts(destination: string)
    requires ToLower(destination) == "japan"
    ensures FactsFor(Some(destination)) == Destinations[0].facts + GenericFacts
  {
    assert Includes("japan", "japan");
    assert FirstKey("japan", Destinations) == Some(0);
    FactsForChoice(Some(destination));
  }

  /** `n` firings of the timer from the first message of a list longer
      than `n`. */
  method ShowMessages(r: FactRotator, n: nat)
    requires r.index == 0 && n < |r.facts|
    modifies r
    ensures r.facts == old(r.facts) && r.index == n
  {
    var shown := 0;
    while shown < n
      invariant 0 <= shown <= n && r.facts == old(r.facts) && r.index == shown
    {
      r.Tick();
      shown := shown + 1;
    }
  }

  /** A guide for Japan, shown for sixteen messages, then switched to no
      destination: the index is past the end of the thirteen generic
      messages and the card shows nothing. */
  method BlankAfterShrink() returns (r: FactRotator)
    ensures r.Current().None?
    ensures r.facts == GenericFacts && r.index == 15
  {
    r := new FactRotator(Some("Japan"));
    JapanHasItsOwnFacts("Japan");
    ShowMessages(r, 15);
    r.ChangeDestination(None);
  }
}
