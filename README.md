# Greenhouse controller, modelled in Dafny

A model of `greenhouse/greenhouse.py`, a Raspberry Pi greenhouse monitor. It has two parts:

- **Threshold policy.** There are four sensor readings: temperature, humidity, soil moisture and light. Each is checked against a fixed target. Temperature and humidity use closed two-sided bands, [5, 30] and [0.3, 0.6]. Soil and light use a floor of 0.6. The readings are stubs that return constants (30.0, 0.4, 0.6, 0.8). `main` prints one "ok" or "not ok" line per metric.
- **LED bank.** Four colours (red, white, green, blue) each have three LEDs. Each LED sits on a fixed output pin. The class drives one LED, one colour or every LED on or off, and sets every LED pin low when it is constructed.

Files:

- `gpio.dfy` (module `Gpio`) stands in for the RPi.GPIO library. The class `Board` holds the level of each output pin as a `map<int, bool>`. Only `Output` changes it, and it changes exactly one pin.
- `led_table.dfy` (module `LedTable`) holds the `LEDS` table and Python's list indexing into it. It also defines `Driven`, the reference meaning of driving a set of pins: those pins read the requested level and every other pin keeps its level. The module proves these properties:
  - all 12 pins are distinct;
  - driving every colour gives the same end state whatever the order of the colours;
  - driving every colour twice gives the same state as driving it once.
- `greenhouse.dfy` (module `Controller`) holds the target constants and the stub readings. It has the four status functions and the class `Greenhouse`. The class has the board as a field and the imperative LED methods, each with the loops of the source. This file also has `main`'s report, as a function returning the printed lines.

The LED methods state their whole new board state. Each one is proved against `Driven` or a single-pin map update. Pins outside the ones driven keep their levels, and so do pins outside the table.

How the code behaves on bad input and before setup:

- An unknown colour or an index out of range raises Python's `KeyError` or `IndexError` while looking up the pin, before any write. There are no named error kinds. The model makes both a precondition (`IsLed`, `colour in Leds`).
- The index follows Python list indexing. So -3, -2 and -1 are accepted and name the same LEDs as 0, 1 and 2 (`Position`). Only indices outside -3..2 fail.
- Nothing guards against using the LEDs before initialisation, because the constructor always runs the setup.

## Model

| member | source | states |
|---|---|---|
| `Gpio.Board.Output` | greenhouse/greenhouse.py:72 | `GPIO.output(pin, level)` sets that one pin's level; every other pin keeps its level |
| `LedTable.Position` | greenhouse/greenhouse.py:71 | the list index `LEDS[colour][index]` uses, a negative index counting from the end, always a position inside the colour's three-element list and congruent to the index |
| `LedTable.TableShape` | greenhouse/greenhouse.py:8-13 | the table (`Leds`) has exactly four colours, red, white, green and blue, each listed once in the order a loop over it visits them (`ColourOrder`), with three pins each |
| `LedTable.LedPin` | greenhouse/greenhouse.py:71 | the lookup `LEDS[colour][index]` gives one of the colour's pins: the element at `index` for an index of 0 or more, the one `index` places back from the end for a negative index |
| `LedTable.PinsDistinct` | greenhouse/greenhouse.py:8-13 | no pin appears twice in the table: equal pins mean the same colour and the same position |
| `LedTable.LedPinInjective` | greenhouse/greenhouse.py:70-72 | two (colour, index) lookups that reach the same pin name the same colour and the same position |
| `LedTable.ColourIsolated` | greenhouse/greenhouse.py:8-13 | no pin of another colour is one of this colour's pins |
| `LedTable.ColourPinsListed` | greenhouse/greenhouse.py:8-13 | a colour's pins are exactly the three pins of its list |
| `LedTable.AllPinsExactly` | greenhouse/greenhouse.py:8-13 | the pins of all colours are exactly 16, 11, 23, 13, 9, 27, 21, 12, 25, 20, 6, 22 |
| `LedTable.AllPinsCount` | greenhouse/greenhouse.py:8-13 | the table drives 12 distinct pins |
| `LedTable.PinsOfMembers` | greenhouse/greenhouse.py:65-66 | a pin is covered by a list of colours exactly when one colour in the list owns it |
| `LedTable.PinsOfAnyOrder` | greenhouse/greenhouse.py:83 | any list naming exactly the table's colours, in any order and with any repetition, covers exactly the table's 12 pins |
| `LedTable.DrivenTwice` | greenhouse/greenhouse.py:82-87 | driving one set of pins and then a second set to the same level equals driving their union at once |
| `LedTable.DrivenOneMore` | greenhouse/greenhouse.py:68 | one more `output` write to level `on` adds that pin to the set driven to `on` |
| `LedTable.DriveColours` | greenhouse/greenhouse.py:82-87 | driving colours one after another, in any given order, ends in the state where those colours' pins are driven at once |
| `LedTable.DriveAllAnyOrder` | greenhouse/greenhouse.py:82-87 | driving every colour ends in the same state whatever the visiting order: all 12 table pins at the requested level, every other pin unchanged |
| `LedTable.DriveAllIdempotent` | greenhouse/greenhouse.py:121-131 | driving every colour a second time, in any order, leaves the state of the first pass unchanged |
| `Controller.TemperatureStatus` | greenhouse/greenhouse.py:15-16 | `temperature_status` holds exactly when 5 <= temperature <= 30, both ends inclusive |
| `Controller.HumidityStatus` | greenhouse/greenhouse.py:18-19 | `humidity_status` holds exactly when 0.3 <= humidity <= 0.6, both ends inclusive |
| `Controller.SoilStatus` | greenhouse/greenhouse.py:53-55 | `soil_status` holds exactly when soil >= 0.6, the floor itself included |
| `Controller.LightStatus` | greenhouse/greenhouse.py:57-59 | `light_status` holds exactly when light >= 0.6, the floor itself included |
| `Controller.BoundariesAreOk` | greenhouse/greenhouse.py:41-59 | the exact band ends and floors are ok, and readings just past them are not |
| `Controller.StatusesAreIntervals` | greenhouse/greenhouse.py:41-59 | each ok set has no holes: between two ok readings every reading is ok, and above an ok floor reading every reading is ok |
| `Controller.Greenhouse.constructor` | greenhouse/greenhouse.py:61-62 | constructing the greenhouse sets up the pins: all 12 LED pins are off and every other pin is unchanged |
| `Controller.Greenhouse.SetupGpio` | greenhouse/greenhouse.py:64-68 | the nested loop over colours and their pins drives all 12 table pins low and leaves every other pin as it was |
| `Controller.Greenhouse.TurnLedOnOrOff` | greenhouse/greenhouse.py:70-72 | only the pin `LEDS[colour][index]` changes, to the requested level; every other LED keeps its level |
| `Controller.Greenhouse.TurnColourLedsOnOrOff` | greenhouse/greenhouse.py:74-80 | the loop over indices leaves the colour's three pins at the requested level; the other nine LED pins and all non-table pins keep their levels |
| `Controller.Greenhouse.TurnAllLedsOnOrOff` | greenhouse/greenhouse.py:82-87 | the loop over colours leaves all 12 pins at the requested level; this is the per-colour fold in table order, which `DriveAllAnyOrder` shows equals every other order |
| `Controller.Greenhouse.TurnLedOn` | greenhouse/greenhouse.py:89-95 | exactly the one pin `LEDS[colour][index]` becomes on |
| `Controller.Greenhouse.TurnLedOff` | greenhouse/greenhouse.py:97-103 | exactly the one pin `LEDS[colour][index]` becomes off |
| `Controller.Greenhouse.TurnColourLedsOn` | greenhouse/greenhouse.py:105-111 | exactly the colour's three pins become on |
| `Controller.Greenhouse.TurnColourLedsOff` | greenhouse/greenhouse.py:113-119 | exactly the colour's three pins become off |
| `Controller.Greenhouse.TurnAllLedsOn` | greenhouse/greenhouse.py:121-125 | exactly the 12 table pins become on |
| `Controller.Greenhouse.TurnAllLedsOff` | greenhouse/greenhouse.py:127-131 | exactly the 12 table pins become off |
| `Controller.StatusLineReadsBack` | greenhouse/greenhouse.py:135-138 | a status line reads "<name> ok" exactly when the status holds and "<name> not ok" exactly when it fails |
| `Controller.StatusLine` | greenhouse/greenhouse.py:135-138 | a printed status line begins with its metric's name |
| `Controller.Report` | greenhouse/greenhouse.py:133-150 | on every sample, `main` prints exactly four lines in the order Temperature, Humidity, Soil, Light: "<Name> ok" when the reading is in its band and "<Name> not ok" otherwise |
| `Controller.ReportReflectsStatuses` | greenhouse/greenhouse.py:133-150 | reading the report back gives the four statuses: line k says "ok" exactly when status k holds and "not ok" exactly when it fails |
| `Controller.StubReportAllOk` | greenhouse/greenhouse.py:26-39 | with the stub readings 30.0, 0.4, 0.6 and 0.8 the report is exactly "Temperature ok", "Humidity ok", "Soil ok", "Light ok" |
| `Controller.HotReportNotOk` | greenhouse/greenhouse.py:135-138 | a temperature of 31 is reported as "Temperature not ok" |
| `Controller.RunMain` | greenhouse/greenhouse.py:133-150 | `main` turns every LED pin off and outputs exactly the four "ok" lines |

## Left out

- GPIO configuration at import time (`GPIO.setmode(GPIO.BCM)`, `GPIO.setwarnings(False)`) and the unused `sleep` import: global library settings with no behaviour of their own.
- Pin modes: `GPIO.setup(led, GPIO.OUT)` in `_setup_gpio` and the library's own checks on pin modes. The board is only a pin-to-level map that `Output` changes.
- Floating point: readings and bounds are `real`. Every comparison in the source is between decimal literals that are compared exactly, and 0.6 against 0.6 is equal in both models.
- Console I/O and the `__main__` entry point: `main`'s printing is modelled as the returned list of lines (`Report`, `RunMain`).
- Error paths for a bad colour or index: the source's `KeyError` and `IndexError` become preconditions. Python's acceptance of non-int indices such as `True` is also not modelled.
- Sensor drivers: the readings are the source's constants (`StubReadings`). The status functions take the reading as a parameter, so any other sample can be checked.
