/**
 * The half-hour board shared by the simulator and the history page: the 48
 * labels `YYYY-MM-DDTHH:mm` of one day, the glyph a cell shows for a stored
 * change, and the assets × labels grid.
 */
module HalfHourBoard {
  import opened Options
  import opened JsObject
  import opened JsString
  import opened Json
  import opened Api

  /** The calendar day whose local midnight the labels start from. */
  datatype Day = Day(year: nat, month: nat, day: nat)

  /** A day the browser can report: a four-digit year, a month and a day of month. */
  predicate ValidDay(d: Day) {
    1000 <= d.year <= 9999 && 1 <= d.month <= 12 && 1 <= d.day <= 31
  }

  /** `${yy}-${mm}-${dd}`. */
  function DateText(d: Day): string {
    Decimal(d.year) + "-" + Pad2(d.month) + "-" + Pad2(d.day)
  }

  /** `${hh}:${min}` for slot `i`: hours `i / 2`, minutes 0 or 30. */
  function ClockText(i: nat): string {
    Pad2(i / 2) + ":" + Pad2((i % 2) * 30)
  }

  /**
   * The label of slot `i`, `i * 30` minutes after midnight:
   * `${yy}-${mm}-${dd}T${hh}:${min}` (no daylight-saving shift inside the day).
   */
  function Label(d: Day, i: nat): string {
    DateText(d) + "T" + ClockText(i)
  }

  /** The first `n` labels of day `d`, in slot order. */
  function Labels(d: Day, n: nat): (ls: seq<string>)
    ensures |ls| == n
  {
    if n == 0 then [] else Labels(d, n - 1) + [Label(d, n - 1)]
  }

  /** Slot `i` of the list holds the label of slot `i`. */
  lemma {:induction false} LabelsIndex(d: Day, n: nat, i: nat)
    requires i < n
    ensures Labels(d, n)[i] == Label(d, i)
  {
    if i < n - 1 {
      LabelsIndex(d, n - 1, i);
    }
  }

  /** The value of a decimal digit character. */
  function DigitValue(c: char): int {
    c as int - '0' as int
  }

  /** Minutes after midnight written by an `HH:mm` text. */
  function ClockMinutes(s: string): int
    requires |s| == 5
  {
    60 * (10 * DigitValue(s[0]) + DigitValue(s[1])) + 10 * DigitValue(s[3]) + DigitValue(s[4])
  }

  /** `Pad2` below one hundred reads back as the number it writes. */
  lemma Pad2Value(n: nat)
    requires n < 100
    ensures |Pad2(n)| == 2 && 10 * DigitValue(Pad2(n)[0]) + DigitValue(Pad2(n)[1]) == n
  {
    Pad2Digits(n);
    var a, b := n / 10, n % 10;
    assert DigitValue(Digit(a)) == a && DigitValue(Digit(b)) == b;
  }

  /** A valid day is written with exactly ten characters. */
  lemma DateTextLength(d: Day)
    requires ValidDay(d)
    ensures |DateText(d)| == 10
  {
    DecimalFourDigits(d.year);
    Pad2Digits(d.month);
    Pad2Digits(d.day);
  }

  /** The clock text of slot `i` is `HH:mm` and reads back as `30 * i` minutes. */
  lemma ClockTextValue(i: nat)
    requires i < 48
    ensures |ClockText(i)| == 5 && ClockText(i)[2] == ':'
    ensures ClockMinutes(ClockText(i)) == 30 * i
  {
    var h, m := Pad2(i / 2), Pad2((i % 2) * 30);
    Pad2Value(i / 2);
    Pad2Value((i % 2) * 30);
    var c := ClockText(i);
    assert c[0] == h[0] && c[1] == h[1] && c[3] == m[0] && c[4] == m[1];
  }

  /**
   * Shape of a label: sixteen characters, the date, a `T`, and an `HH:mm`
   * text (characters 11 to 16, the column header) that reads back as
   * `30 * i` minutes after midnight.
   */
  lemma LabelShape(d: Day, i: nat)
    requires ValidDay(d) && i < 48
    ensures var l := Label(d, i);
            && |l| == 16
            && StartsWith(l, DateText(d))
            && l[10] == 'T' && l[13] == ':'
            && Slice(l, 11, 16) == ClockText(i)
            && ClockMinutes(Slice(l, 11, 16)) == 30 * i
  {
    DateTextLength(d);
    ClockTextValue(i);
    var l := Label(d, i);
    assert l[..10] == DateText(d);
    assert l[11..16] == ClockText(i);
  }

  /** The 48 labels of a day are pairwise different, and so are their headers. */
  lemma LabelsDistinct(d: Day, i: nat, j: nat)
    requires ValidDay(d) && i < 48 && j < 48 && i != j
    ensures Label(d, i) != Label(d, j)
    ensures Slice(Label(d, i), 11, 16) != Slice(Label(d, j), 11, 16)
  {
    LabelShape(d, i);
    LabelShape(d, j);
  }

  /** The 48 labels of day `d`, one per half hour from midnight. */
  function DayLabels(d: Day): seq<string> {
    Labels(d, 48)
  }

  /**
   * generarHoras: the 48 labels of day `d`, pushed one per half hour from
   * midnight.
   */
  method GenerarHoras(d: Day) returns (horas: seq<string>)
    ensures horas == DayLabels(d)
  {
    horas := [];
    var i := 0;
    while i < 48
      invariant 0 <= i <= 48 && horas == Labels(d, i)
    {
      var hh := Pad2(i / 2);
      var min := Pad2((i % 2) * 30);
      var reloj := hh + ":" + min;
      horas := horas + [DateText(d) + "T" + reloj];
      i := i + 1;
    }
  }

  // ---------------------------------------------------------------------
  // The grid
  // ---------------------------------------------------------------------

  /** What a cell shows: nothing, the green up arrow or the red down arrow. */
  datatype Glyph = Blank | Up | Down

  /**
   * `const c = hist[h]?.[activo] || ""`, then the arrow for "Sube", the
   * arrow for "Baja", and nothing otherwise.
   */
  function CellGlyph(hist: Table, h: string, activo: string): (g: Glyph)
    ensures g == Up <==> Lookup(hist, h, activo) == Some(Str("Sube"))
    ensures g == Down <==> Lookup(hist, h, activo) == Some(Str("Baja"))
    ensures Lookup(hist, h, activo).None? ==> g == Blank
  {
    var c := Or(Lookup(hist, h, activo), Str(""));
    if c == Str("Sube") then Up else if c == Str("Baja") then Down else Blank
  }

  /** One body row: the asset's name, then one cell per label. */
  datatype Row = Row(activo: string, cells: seq<Glyph>)

  /** The table: the `HH:mm` header of each label, then one row per asset. */
  datatype Board = Board(headers: seq<string>, rows: seq<Row>)

  /** `h.slice(11, 16)` for each label. */
  function Headers(horas: seq<string>): (hs: seq<string>)
    ensures |hs| == |horas|
    ensures forall j :: 0 <= j < |horas| ==> hs[j] == Slice(horas[j], 11, 16)
  {
    if horas == [] then [] else [Slice(horas[0], 11, 16)] + Headers(horas[1..])
  }

  /** The cells of one asset's row, one per label. */
  function Cells(hist: Table, horas: seq<string>, activo: string): (cs: seq<Glyph>)
    ensures |cs| == |horas|
    ensures forall j :: 0 <= j < |horas| ==> cs[j] == CellGlyph(hist, horas[j], activo)
  {
    if horas == [] then [] else [CellGlyph(hist, horas[0], activo)] + Cells(hist, horas[1..], activo)
  }

  /** One row per asset, in list order. */
  function Rows(hist: Table, horas: seq<string>, activos: seq<string>): (rs: seq<Row>)
    ensures |rs| == |activos|
    ensures forall i :: 0 <= i < |activos| ==> rs[i] == Row(activos[i], Cells(hist, horas, activos[i]))
  {
    if activos == [] then [] else [Row(activos[0], Cells(hist, horas, activos[0]))] + Rows(hist, horas, activos[1..])
  }

  /** renderizarTabla / renderFromData, without the DOM. */
  function RenderBoard(activos: seq<string>, horas: seq<string>, hist: Table): Board {
    Board(Headers(horas), Rows(hist, horas, activos))
  }

  /**
   * The grid shape: one column per label, one row per asset in list order,
   * and each cell the glyph of what the table holds for that label and asset.
   */
  lemma BoardShape(activos: seq<string>, horas: seq<string>, hist: Table, i: nat, j: nat)
    requires i < |activos| && j < |horas|
    ensures var b := RenderBoard(activos, horas, hist);
            && |b.headers| == |horas| && |b.rows| == |activos|
            && b.rows[i].activo == activos[i] && |b.rows[i].cells| == |horas|
            && b.headers[j] == Slice(horas[j], 11, 16)
            && (b.rows[i].cells[j] == Up <==> Lookup(hist, horas[j], activos[i]) == Some(Str("Sube")))
            && (b.rows[i].cells[j] == Down <==> Lookup(hist, horas[j], activos[i]) == Some(Str("Baja")))
  {
  }

  /**
   * Two tables that agree on every label shown give the same board: cells
   * depend only on the buckets of the displayed labels.
   */
  lemma {:induction false} BoardDependsOnShownBuckets(activos: seq<string>, horas: seq<string>, t1: Table, t2: Table)
    requires forall h :: h in horas ==> Get(t1, h) == Get(t2, h)
    ensures RenderBoard(activos, horas, t1) == RenderBoard(activos, horas, t2)
  {
    forall a | a in activos
      ensures Cells(t1, horas, a) == Cells(t2, horas, a)
    {
      forall j | 0 <= j < |horas|
        ensures CellGlyph(t1, horas[j], a) == CellGlyph(t2, horas[j], a)
      {
        assert horas[j] in horas;
        assert Lookup(t1, horas[j], a) == Lookup(t2, horas[j], a);
      }
    }
    var r1, r2 := Rows(t1, horas, activos), Rows(t2, horas, activos);
    forall i | 0 <= i < |activos| ensures r1[i] == r2[i] {
      assert activos[i] in activos;
    }
  }
}
