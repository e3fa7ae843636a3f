/** The greenhouse's fixed LED table (colour -> three pins) and what driving
    groups of its pins does to the board's pin levels. */
module LedTable {

  /** Pin levels keyed by pin number, as the board holds them. */
  type Levels = map<int, bool>

  /** `Greenhouse.LEDS`: each colour's three LEDs, by pin number. */
  const Leds: map<string, seq<int>> :=
    map["red" := [16, 11, 23], "white" := [13, 9, 27], "green" := [21, 12, 25], "blue" := [20, 6, 22]]

  /** The order in which a loop over the table visits its colours (the order the table lists them in). */
  const ColourOrder: seq<string> := ["red", "white", "green", "blue"]

  /** `LEDS[colour][index]` succeeds: the colour is a key and the index is a valid
      list index, a negative one counting back from the end of the colour's list. */
  predicate IsLed(colour: string, index: int) {
    colour in Leds && -|Leds[colour]| <= index < |Leds[colour]|
  }

  /** The position in the colour's list that a list index denotes. */
  function Position(colour: string, index: int): (k: nat)
    requires IsLed(colour, index)
    ensures k < |Leds[colour]|
    ensures k % |Leds[colour]| == index % |Leds[colour]|
  {
    if index < 0 then |Leds[colour]| + index else index
  }

  /** The pin of the LED `LEDS[colour][index]`. */
  function LedPin(colour: string, index: int): (pin: int)
    requires IsLed(colour, index)
    ensures pin in ColourPins(colour)
    ensures 0 <= index ==> pin == Leds[colour][index]
    ensures index < 0 ==> pin == Leds[colour][|Leds[colour]| + index]
  {
    Leds[colour][Position(colour, index)]
  }

  /** The pins of the first `n` LEDs of a colour. */
  function ColourPinsUpTo(colour: string, n: nat): set<int>
    requires colour in Leds && n <= |Leds[colour]|
  {
    set i | 0 <= i < n :: Leds[colour][i]
  }

  /** All pins of a colour. */
  function ColourPins(colour: string): set<int>
    requires colour in Leds
  {
    ColourPinsUpTo(colour, |Leds[colour]|)
  }

  /** The pins of every colour in a list of colours. */
  function PinsOf(colours: seq<string>): set<int>
    requires forall c :: c in colours ==> c in Leds
  {
    if colours == [] then {}
    else PinsOf(colours[..|colours| - 1]) + ColourPins(colours[|colours| - 1])
  }

  /** Every pin of the table. */
  const AllPins: set<int> := PinsOf(ColourOrder)

  /** The reference meaning of driving a set of pins to one level: each of those
      pins reads `on` afterwards, and every other pin keeps what it had. */
  function Driven(levels: Levels, pins: set<int>, on: bool): Levels {
    map p | p in levels.Keys + pins :: if p in pins then on else levels[p]
  }

  /** A pin reads the same in two states (or is undriven in both). */
  predicate SameLevel(a: Levels, b: Levels, p: int) {
    (p in a <==> p in b) && (p in a ==> a[p] == b[p])
  }

  /** Driving the colours one after another in the given order, all of a
      colour's pins at a time; the result is that of driving their pins at once. */
  function DriveColours(levels: Levels, order: seq<string>, on: bool): (r: Levels)
    requires forall c :: c in order ==> c in Leds
    ensures r == Driven(levels, PinsOf(order), on)
  {
    if order == [] then levels
    else
      var n := |order| - 1;
      DrivenTwice(levels, PinsOf(order[..n]), ColourPins(order[n]), on);
      Driven(DriveColours(levels, order[..n], on), ColourPins(order[n]), on)
  }

  /** Driving `a` and then `b` to the same level is driving `a + b` at once. */
  lemma DrivenTwice(levels: Levels, a: set<int>, b: set<int>, on: bool)
    ensures Driven(Driven(levels, a, on), b, on) == Driven(levels, a + b, on)
  {
  }

  /** One more `output` call extends the set of driven pins by one. */
  lemma DrivenOneMore(levels: Levels, pins: set<int>, p: int, on: bool)
    ensures Driven(levels, pins, on)[p := on] == Driven(levels, pins + {p}, on)
  {
  }

  /** The table has exactly the four colours of ColourOrder, listed once each,
      and three pins per colour. */
  lemma TableShape()
    ensures Leds.Keys == {"red", "white", "green", "blue"} && |Leds| == 4
    ensures forall c :: c in Leds <==> c in ColourOrder
    ensures forall i, j :: 0 <= i < j < |ColourOrder| ==> ColourOrder[i] != ColourOrder[j]
    ensures forall c :: c in Leds ==> |Leds[c]| == 3
  {
  }

  /** No pin is used twice: distinct (colour, position) pairs have distinct pins. */
  lemma PinsDistinct(c1: string, i1: int, c2: string, i2: int)
    requires c1 in Leds && 0 <= i1 < |Leds[c1]|
    requires c2 in Leds && 0 <= i2 < |Leds[c2]|
    requires Leds[c1][i1] == Leds[c2][i2]
    ensures c1 == c2 && i1 == i2
  {
  }

  /** `LedPin` names each LED's pin uniquely: two indices that reach the same pin
      are the same colour and the same position in its list. */
  lemma LedPinInjective(c1: string, i1: int, c2: string, i2: int)
    requires IsLed(c1, i1) && IsLed(c2, i2)
    requires LedPin(c1, i1) == LedPin(c2, i2)
    ensures c1 == c2 && Position(c1, i1) == Position(c2, i2)
  {
    PinsDistinct(c1, Position(c1, i1), c2, Position(c2, i2));
  }

  /** No pin of another colour belongs to `colour`. */
  lemma ColourIsolated(colour: string, c: string, i: int)
    requires colour in Leds && c in Leds && c != colour && 0 <= i < |Leds[c]|
    ensures Leds[c][i] !in ColourPins(colour)
  {
    if Leds[c][i] in ColourPins(colour) {
      var j :| 0 <= j < |Leds[colour]| && Leds[colour][j] == Leds[c][i];
      PinsDistinct(colour, j, c, i);
    }
  }

  /** A pin is driven by a list of colours exactly when one of them owns it. */
  lemma {:induction false} PinsOfMembers(colours: seq<string>)
    requires forall c :: c in colours ==> c in Leds
    ensures forall p :: p in PinsOf(colours) <==> exists c :: c in colours && p in ColourPins(c)
  {
    if colours != [] {
      var n := |colours| - 1;
      PinsOfMembers(colours[..n]);
      assert colours == colours[..n] + [colours[n]];
    }
  }

  /** A colour's pins are the three pins its list names. */
  lemma ColourPinsListed(colour: string)
    requires colour in Leds && |Leds[colour]| == 3
    ensures ColourPins(colour) == {Leds[colour][0], Leds[colour][1], Leds[colour][2]}
  {
    var pins := Leds[colour];
    assert pins[0] in ColourPins(colour) && pins[1] in ColourPins(colour) && pins[2] in ColourPins(colour);
  }

  /** The table's 12 pins, all distinct. */
  lemma AllPinsExactly()
    ensures AllPins == {16, 11, 23, 13, 9, 27, 21, 12, 25, 20, 6, 22}
  {
    TableShape();
    ColourPinsListed("red");
    ColourPinsListed("white");
    ColourPinsListed("green");
    ColourPinsListed("blue");
    var co := ColourOrder;
    assert co[..1][..0] == [] && co[..2][..1] == co[..1] && co[..3][..2] == co[..2] && co[..3] == co[..|co| - 1];
    assert PinsOf(co[..1]) == {16, 11, 23};
    assert PinsOf(co[..2]) == {16, 11, 23, 13, 9, 27};
    assert PinsOf(co[..3]) == {16, 11, 23, 13, 9, 27, 21, 12, 25};
  }

  /** The table drives 12 pins in all: no two of its LEDs share one. */
  lemma AllPinsCount()
    ensures |AllPins| == 12
  {
    var listed := {16, 11, 23, 13, 9, 27, 21, 12, 25, 20, 6, 22};
    assert |listed| == 12;
    AllPinsExactly();
  }

  /** Any list naming exactly the table's colours, in any order and with any
      repetition, drives exactly the table's pins. */
  lemma PinsOfAnyOrder(order: seq<string>)
    requires forall c :: c in order <==> c in Leds
    ensures PinsOf(order) == AllPins
  {
    TableShape();
    PinsOfMembers(order);
    PinsOfMembers(ColourOrder);
    forall p
      ensures p in PinsOf(order) <==> p in AllPins
    {
      if p in PinsOf(order) {
        var c :| c in order && p in ColourPins(c);
        assert c in ColourOrder;
      }
      if p in AllPins {
        var c :| c in ColourOrder && p in ColourPins(c);
        assert c in order;
      }
    }
  }

  /** The end state of driving every colour does not depend on the order the
      colours are visited in: it is every table pin at `on`, the rest untouched. */
  lemma DriveAllAnyOrder(levels: Levels, order: seq<string>, on: bool)
    requires forall c :: c in order <==> c in Leds
    ensures DriveColours(levels, order, on) == Driven(levels, AllPins, on)
    ensures DriveColours(levels, order, on) == DriveColours(levels, ColourOrder, on)
  {
    PinsOfAnyOrder(order);
    PinsOfAnyOrder(ColourOrder);
  }

  /** Driving every colour a second time, in whatever order, changes nothing. */
  lemma DriveAllIdempotent(levels: Levels, first: seq<string>, second: seq<string>, on: bool)
    requires forall c :: c in first <==> c in Leds
    requires forall c :: c in second <==> c in Leds
    ensures DriveColours(DriveColours(levels, first, on), second, on) == DriveColours(levels, first, on)
  {
    var once := DriveColours(levels, first, on);
    DriveAllAnyOrder(levels, first, on);
    DriveAllAnyOrder(once, second, on);
    DrivenTwice(levels, AllPins, AllPins, on);
    assert AllPins + AllPins == AllPins;
  }
}
