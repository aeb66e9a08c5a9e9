/**
 * The back end's display: the simulated LCD row buffer, and the display
 * manager's three screens on a 20 × 4 display. The hardware LCD is not
 * modelled.
 */
module Display {
  import opened Wrappers
  import opened Text
  import opened Js
  import opened PyValues

  const LcdCols := 20
  const LcdRows := 4

  /** `[""] * rows`: a negative count gives an empty list. */
  function BlankRows(rows: int): (r: seq<string>)
    ensures |r| == Max(rows, 0)
    ensures forall i :: 0 <= i < |r| ==> r[i] == ""
  {
    seq(Max(rows, 0), _ => "")
  }

  /** The row buffer of the console LCD. */
  class SimulatedLcd {
    const cols: int
    const rows: int
    var content: seq<string>
    var currentRow: int

    constructor (cols: int, rows: int)
      ensures this.cols == cols && this.rows == rows
      ensures content == BlankRows(rows) && currentRow == 0
    {
      this.cols := cols;
      this.rows := rows;
      content := BlankRows(rows);
      currentRow := 0;
    }

    /** `clear`: every row empty; the cursor stays where it was. */
    method Clear()
      modifies this`content
      ensures content == BlankRows(rows)
    {
      content := BlankRows(rows);
    }

    /** `cursor_pos`: only the row of the position is kept. */
    method CursorPos(row: int, col: int)
      modifies this`currentRow
      ensures currentRow == row
    {
      currentRow := row;
    }

    /** `write_string`: the row under the cursor becomes the text cut to
        `cols` characters, and no other row changes. A cursor outside the
        list (after Python's negative indexing) raises `IndexError`: `ok` is
        false and nothing changes. */
    method WriteString(text: string) returns (ok: bool)
      modifies this`content
      ensures ok <==> PyIndex(currentRow, |old(content)|).Some?
      ensures |content| == |old(content)|
      ensures ok ==> content[PyIndex(currentRow, |content|).value] == PyPrefix(text, cols)
      ensures forall i :: 0 <= i < |content| && (!ok || i != PyIndex(currentRow, |content|).value) ==>
        content[i] == old(content[i])
    {
      var at := PyIndex(currentRow, |content|);
      if at.None? {
        return false;
      }
      content := content[at.value := PyPrefix(text, cols)];
      ok := true;
    }
  }

  /** The four lines of the sensor screen before truncation. `show` is
      Python's `str()` of a value that is not a text. */
  function SensorLines(data: map<string, Json>, show: Json -> string): (lines: seq<string>)
    ensures |lines| == LcdRows
  {
    var temp := Get(data, "temperature", JStr("-"));
    var hum := Get(data, "humidity", JStr("-"));
    var distance := Get(data, "distance", JStr("-"));
    [ "T:" + Shown(OrDash(temp), show) + "C H:" + Shown(OrDash(hum), show) + "%",
      "Dist: " + Shown(distance, show) + " cm",
      "Luz: " + (if PyTruthy(Get(data, "light", JBool(false))) then "SI" else "NO"),
      "Aire: " + (if PyTruthy(Get(data, "air_quality_bad", JBool(false))) then "MALO" else "BUENO") ]
  }

  /** `v or '-'`. */
  function OrDash(v: Json): (r: Json)
    ensures PyTruthy(v) ==> r == v
    ensures !PyTruthy(v) ==> r == JStr("-")
  {
    if PyTruthy(v) then v else JStr("-")
  }

  /** A value as an f-string shows it: a text as itself, anything else
      through `show`. */
  function Shown(v: Json, show: Json -> string): string {
    if v.JStr? then v.s else show(v)
  }

  /** Lines cut to the display's width, as `write_string` stores them. */
  function Cut(lines: seq<string>, cols: int): (r: seq<string>)
    ensures |r| == |lines|
    ensures forall i :: 0 <= i < |r| ==> r[i] == PyPrefix(lines[i], cols)
  {
    seq(|lines|, i requires 0 <= i < |lines| => PyPrefix(lines[i], cols))
  }

  /** The third row shows whether there is light: "SI" for a truthy
      `light`, "NO" for a false or missing one. */
  lemma LightRow(data: map<string, Json>, show: Json -> string)
    ensures Cut(SensorLines(data, show), LcdCols)[2] ==
      (if "light" in data && PyTruthy(data["light"]) then "Luz: SI" else "Luz: NO")
  {
    var lines := SensorLines(data, show);
    assert lines[2] == "Luz: SI" || lines[2] == "Luz: NO";
    assert |lines[2]| <= LcdCols;
  }

  /** The fourth row shows the air quality: "MALO" for a truthy
      `air_quality_bad`, "BUENO" for a false or missing one. */
  lemma AirRow(data: map<string, Json>, show: Json -> string)
    ensures Cut(SensorLines(data, show), LcdCols)[3] ==
      (if "air_quality_bad" in data && PyTruthy(data["air_quality_bad"]) then "Aire: MALO" else "Aire: BUENO")
  {
    var lines := SensorLines(data, show);
    assert lines[3] == "Aire: MALO" || lines[3] == "Aire: BUENO";
    assert |lines[3]| <= LcdCols;
  }

  /** A missing, `None` or zero temperature and humidity both show as "-". */
  lemma MissingClimateShowsDash(data: map<string, Json>, show: Json -> string)
    requires "temperature" !in data || !PyTruthy(data["temperature"])
    requires "humidity" !in data || !PyTruthy(data["humidity"])
    ensures SensorLines(data, show)[0] == "T:-C H:-%"
  {
  }

  /** The manager of the simulated display. */
  class DisplayManager {
    const lcd: SimulatedLcd

    /** The configured size. */
    predicate Valid() {
      lcd.cols == LcdCols && lcd.rows == LcdRows
    }

    constructor ()
      ensures Valid() && fresh(lcd)
      ensures lcd.content == BlankRows(LcdRows) && lcd.currentRow == 0
    {
      lcd := new SimulatedLcd(LcdCols, LcdRows);
    }

    /** `write_at`: the cursor moves to the row, then the text is written
        there. */
    method WriteAt(row: int, col: int, text: string)
      requires Valid() && |lcd.content| == LcdRows && 0 <= row < LcdRows
      modifies lcd
      ensures lcd.currentRow == row
      ensures lcd.content == old(lcd.content)[row := PyPrefix(text, LcdCols)]
    {
      lcd.CursorPos(row, col);
      var ok := lcd.WriteString(text);
      assert ok;
    }

    /** `display_sensor_data`: the screen is cleared, then the four lines
        are written top to bottom. */
    method DisplaySensorData(data: map<string, Json>, show: Json -> string)
      requires Valid()
      modifies lcd
      ensures lcd.content == Cut(SensorLines(data, show), LcdCols)
      ensures lcd.currentRow == 3
    {
      var lines := SensorLines(data, show);
      lcd.Clear();
      WriteAt(0, 0, lines[0]);
      WriteAt(1, 0, lines[1]);
      WriteAt(2, 0, lines[2]);
      WriteAt(3, 0, lines[3]);
    }

    /** `display_message`: the screen is cleared and the message, cut to the
        width, is the first row. */
    method DisplayMessage(message: string)
      requires Valid()
      modifies lcd
      ensures lcd.content == [PyPrefix(message, LcdCols), "", "", ""]
      ensures lcd.currentRow == 0
    {
      lcd.Clear();
      WriteAt(0, 0, message);
    }

    /** `display_shutdown`: the shutdown message alone on the first row. */
    method DisplayShutdown()
      requires Valid()
      modifies lcd
      ensures lcd.content == ["Sistema apagado", "", "", ""]
      ensures lcd.currentRow == 0
    {
      DisplayMessage("Sistema apagado");
    }
  }
}
