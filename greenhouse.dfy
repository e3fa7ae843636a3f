/** The greenhouse controller: the threshold policy over the four sensor
    readings, and the LED bank driven through the board's output pins. */
module Controller {
  import opened Gpio
  import opened LedTable

  // Target bands. Readings and bounds are only ever compared, so they are reals.
  const TargetTemperatureLower: real := 5.0
  const TargetTemperatureUpper: real := 30.0
  const TargetHumidityLower: real := 0.3
  const TargetHumidityUpper: real := 0.6
  const TargetSoil: real := 0.6
  const TargetLight: real := 0.6

  /** One sample of the four sensors. */
  datatype Readings = Readings(temperature: real, humidity: real, soil: real, light: real)

  /** The values the reading properties return (there are no sensor drivers). */
  const StubReadings: Readings := Readings(30.0, 0.4, 0.6, 0.8)

  /** `temperature_status`: the temperature lies in the closed band [5, 30]. */
  function TemperatureStatus(temperature: real): (ok: bool)
    ensures ok <==> 5.0 <= temperature <= 30.0
  {
    TargetTemperatureLower <= temperature <= TargetTemperatureUpper
  }

  /** `humidity_status`: the humidity lies in the closed band [0.3, 0.6]. */
  function HumidityStatus(humidity: real): (ok: bool)
    ensures ok <==> 0.3 <= humidity <= 0.6
  {
    TargetHumidityLower <= humidity <= TargetHumidityUpper
  }

  /** `soil_status`: the soil moisture is at least 0.6. */
  function SoilStatus(soil: real): (ok: bool)
    ensures ok <==> soil >= 0.6
  {
    soil >= TargetSoil
  }

  /** `light_status`: the light level is at least 0.6. */
  function LightStatus(light: real): (ok: bool)
    ensures ok <==> light >= 0.6
  {
    light >= TargetLight
  }

  /** Both ends of each band, and each floor itself, count as ok; just past them does not. */
  lemma BoundariesAreOk()
    ensures TemperatureStatus(5.0) && TemperatureStatus(30.0)
    ensures !TemperatureStatus(4.9) && !TemperatureStatus(30.1)
    ensures HumidityStatus(0.3) && HumidityStatus(0.6)
    ensures !HumidityStatus(0.29) && !HumidityStatus(0.61)
    ensures SoilStatus(0.6) && !SoilStatus(0.59)
    ensures LightStatus(0.6) && !LightStatus(0.59)
  {
  }

  /** The bands have no holes: a reading between two ok readings is ok, and a
      reading above an ok soil or light reading is ok too. */
  lemma StatusesAreIntervals(a: real, b: real, c: real)
    requires a <= b <= c
    ensures TemperatureStatus(a) && TemperatureStatus(c) ==> TemperatureStatus(b)
    ensures HumidityStatus(a) && HumidityStatus(c) ==> HumidityStatus(b)
    ensures SoilStatus(a) ==> SoilStatus(b)
    ensures LightStatus(a) ==> LightStatus(b)
  {
  }

  /** The greenhouse and its LED bank; the board it drives stands for RPi.GPIO's
      global pin state, handed in rather than reached implicitly. */
  class Greenhouse {
    const gpio: Board

    /** `__init__`: sets up the LED pins, every one of them off. */
    constructor (gpio: Board)
      modifies gpio
      ensures this.gpio == gpio
      ensures gpio.levels == Driven(old(gpio.levels), AllPins, false)
      ensures forall p :: p in AllPins ==> p in gpio.levels && !gpio.levels[p]
    {
      this.gpio := gpio;
      new;
      SetupGpio();
    }

    /** `_setup_gpio`: drives every pin of every colour low, colour by colour;
        pins outside the table keep their levels. */
    method SetupGpio()
      modifies gpio
      ensures gpio.levels == Driven(old(gpio.levels), AllPins, false)
      ensures forall p :: p in AllPins ==> p in gpio.levels && !gpio.levels[p]
    {
      ghost var start := gpio.levels;
      for k := 0 to |ColourOrder|
        invariant gpio.levels == DriveColours(start, ColourOrder[..k], false)
      {
        var colour := ColourOrder[k];
        var leds := Leds[colour];
        ghost var before := gpio.levels;
        for j := 0 to |leds|
          invariant gpio.levels == Driven(before, ColourPinsUpTo(colour, j), false)
        {
          assert ColourPinsUpTo(colour, j + 1) == ColourPinsUpTo(colour, j) + {leds[j]};
          DrivenOneMore(before, ColourPinsUpTo(colour, j), leds[j], false);
          gpio.Output(leds[j], false);
        }
        assert ColourOrder[..k + 1][..k] == ColourOrder[..k];
      }
      assert ColourOrder[..|ColourOrder|] == ColourOrder;
    }

    /** `_turn_led_on_or_off`: drives the one pin `LEDS[colour][index]`; no other
        pin, and so no other LED, changes. */
    method TurnLedOnOrOff(colour: string, index: int, on: bool)
      requires IsLed(colour, index)
      modifies gpio
      ensures gpio.levels == old(gpio.levels)[LedPin(colour, index) := on]
      ensures forall c, i :: IsLed(c, i) && (c != colour || Position(c, i) != Position(colour, index)) ==>
        SameLevel(old(gpio.levels), gpio.levels, LedPin(c, i))
    {
      var led := LedPin(colour, index);
      gpio.Output(led, on);
      forall c, i | IsLed(c, i) && (c != colour || Position(c, i) != Position(colour, index))
        ensures SameLevel(old(gpio.levels), gpio.levels, LedPin(c, i))
      {
        if LedPin(c, i) == led {
          LedPinInjective(c, i, colour, index);
        }
      }
    }

    /** `_turn_colour_leds_on_or_off`: drives the colour's three LEDs one index
        at a time; the other colours' nine pins keep their levels. */
    method TurnColourLedsOnOrOff(colour: string, on: bool)
      requires colour in Leds
      modifies gpio
      ensures gpio.levels == Driven(old(gpio.levels), ColourPins(colour), on)
      ensures forall p :: p in ColourPins(colour) ==> p in gpio.levels && gpio.levels[p] == on
      ensures forall c, i :: c in Leds && c != colour && 0 <= i < |Leds[c]| ==>
        SameLevel(old(gpio.levels), gpio.levels, Leds[c][i])
    {
      var leds := Leds[colour];
      for led := 0 to |leds|
        invariant gpio.levels == Driven(old(gpio.levels), ColourPinsUpTo(colour, led), on)
      {
        assert ColourPinsUpTo(colour, led + 1) == ColourPinsUpTo(colour, led) + {leds[led]};
        DrivenOneMore(old(gpio.levels), ColourPinsUpTo(colour, led), leds[led], on);
        if on {
          TurnLedOn(colour, led);
        } else {
          TurnLedOff(colour, led);
        }
      }
      forall c, i | c in Leds && c != colour && 0 <= i < |Leds[c]|
        ensures SameLevel(old(gpio.levels), gpio.levels, Leds[c][i])
      {
        ColourIsolated(colour, c, i);
      }
    }

    /** `_turn_all_leds_on_or_off`: drives the colours one after another in the
        table's order; by DriveAllAnyOrder any other order ends the same way. */
    method TurnAllLedsOnOrOff(on: bool)
      modifies gpio
      ensures gpio.levels == DriveColours(old(gpio.levels), ColourOrder, on)
      ensures gpio.levels == Driven(old(gpio.levels), AllPins, on)
      ensures forall p :: p in AllPins ==> p in gpio.levels && gpio.levels[p] == on
    {
      for k := 0 to |ColourOrder|
        invariant gpio.levels == DriveColours(old(gpio.levels), ColourOrder[..k], on)
      {
        if on {
          TurnColourLedsOn(ColourOrder[k]);
        } else {
          TurnColourLedsOff(ColourOrder[k]);
        }
        assert ColourOrder[..k + 1][..k] == ColourOrder[..k];
        DrivenTwice(old(gpio.levels), PinsOf(ColourOrder[..k]), ColourPins(ColourOrder[k]), on);
      }
      assert ColourOrder[..|ColourOrder|] == ColourOrder;
    }

    /** `turn_led_on`: lights the one LED `LEDS[colour][index]`. */
    method TurnLedOn(colour: string, index: int)
      requires IsLed(colour, index)
      modifies gpio
      ensures gpio.levels == old(gpio.levels)[LedPin(colour, index) := true]
    {
      TurnLedOnOrOff(colour, index, true);
    }

    /** `turn_led_off`: darkens the one LED `LEDS[colour][index]`. */
    method TurnLedOff(colour: string, index: int)
      requires IsLed(colour, index)
      modifies gpio
      ensures gpio.levels == old(gpio.levels)[LedPin(colour, index) := false]
    {
      TurnLedOnOrOff(colour, index, false);
    }

    /** `turn_colour_leds_on`: lights the colour's three LEDs, nothing else. */
    method TurnColourLedsOn(colour: string)
      requires colour in Leds
      modifies gpio
      ensures gpio.levels == Driven(old(gpio.levels), ColourPins(colour), true)
    {
      TurnColourLedsOnOrOff(colour, true);
    }

    /** `turn_colour_leds_off`: darkens the colour's three LEDs, nothing else. */
    method TurnColourLedsOff(colour: string)
      requires colour in Leds
      modifies gpio
      ensures gpio.levels == Driven(old(gpio.levels), ColourPins(colour), false)
    {
      TurnColourLedsOnOrOff(colour, false);
    }

    /** `turn_all_leds_on`: lights all 12 LEDs. */
    method TurnAllLedsOn()
      modifies gpio
      ensures gpio.levels == Driven(old(gpio.levels), AllPins, true)
    {
      TurnAllLedsOnOrOff(true);
    }

    /** `turn_all_leds_off`: darkens all 12 LEDs. */
    method TurnAllLedsOff()
      modifies gpio
      ensures gpio.levels == Driven(old(gpio.levels), AllPins, false)
    {
      TurnAllLedsOnOrOff(false);
    }
  }

  /** One line of the report: the metric's name, then "ok" or "not ok". */
  function StatusLine(name: string, ok: bool): (line: string)
    ensures |line| > |name| && line[..|name|] == name
  {
    name + (if ok then " ok" else " not ok")
  }

  /** What `main` prints for a sample, one status line per metric in the fixed
      order Temperature, Humidity, Soil, Light, each "ok" exactly when the
      reading is in its band and "not ok" otherwise. */
  function Report(r: Readings): (lines: seq<string>)
    ensures lines == [
      if 5.0 <= r.temperature <= 30.0 then "Temperature ok" else "Temperature not ok",
      if 0.3 <= r.humidity <= 0.6 then "Humidity ok" else "Humidity not ok",
      if r.soil >= 0.6 then "Soil ok" else "Soil not ok",
      if r.light >= 0.6 then "Light ok" else "Light not ok" ]
  {
    assert "Temperature" + " ok" == "Temperature ok" && "Temperature" + " not ok" == "Temperature not ok";
    assert "Humidity" + " ok" == "Humidity ok" && "Humidity" + " not ok" == "Humidity not ok";
    assert "Soil" + " ok" == "Soil ok" && "Soil" + " not ok" == "Soil not ok";
    assert "Light" + " ok" == "Light ok" && "Light" + " not ok" == "Light not ok";
    [ StatusLine("Temperature", TemperatureStatus(r.temperature)),
      StatusLine("Humidity", HumidityStatus(r.humidity)),
      StatusLine("Soil", SoilStatus(r.soil)),
      StatusLine("Light", LightStatus(r.light)) ]
  }

  /** A status line tells its status apart: it reads "<name> ok" exactly when the
      status holds, and "<name> not ok" exactly when it does not. */
  lemma StatusLineReadsBack(name: string, ok: bool)
    ensures StatusLine(name, ok) == name + " ok" <==> ok
    ensures StatusLine(name, ok) == name + " not ok" <==> !ok
  {
  }

  /** Reading the report back gives the statuses: each line says "ok" exactly
      when its metric is in band and "not ok" exactly when it is not. */
  lemma ReportReflectsStatuses(r: Readings)
    ensures |Report(r)| == 4
    ensures Report(r)[0] == "Temperature ok" <==> TemperatureStatus(r.temperature)
    ensures Report(r)[0] == "Temperature not ok" <==> !TemperatureStatus(r.temperature)
    ensures Report(r)[1] == "Humidity ok" <==> HumidityStatus(r.humidity)
    ensures Report(r)[1] == "Humidity not ok" <==> !HumidityStatus(r.humidity)
    ensures Report(r)[2] == "Soil ok" <==> SoilStatus(r.soil)
    ensures Report(r)[2] == "Soil not ok" <==> !SoilStatus(r.soil)
    ensures Report(r)[3] == "Light ok" <==> LightStatus(r.light)
    ensures Report(r)[3] == "Light not ok" <==> !LightStatus(r.light)
  {
  }

  /** With the stub readings every metric is in band, so `main` prints four "ok" lines. */
  lemma StubReportAllOk()
    ensures Report(StubReadings) == ["Temperature ok", "Humidity ok", "Soil ok", "Light ok"]
  {
  }

  /** A temperature of 31 is out of band and is reported as such. */
  lemma HotReportNotOk(r: Readings)
    requires r.temperature == 31.0
    ensures Report(r)[0] == "Temperature not ok"
  {
  }

  /** `main`: builds the greenhouse (setting every LED pin low) and returns the
      lines it prints. */
  method RunMain(gpio: Board) returns (lines: seq<string>)
    modifies gpio
    ensures lines == ["Temperature ok", "Humidity ok", "Soil ok", "Light ok"]
    ensures gpio.levels == Driven(old(gpio.levels), AllPins, false)
  {
    var greenhouse := new Greenhouse(gpio);
    lines := Report(StubReadings);
    StubReportAllOk();
  }
}
