/** The report builder of ui.py (reportpdf): one FPDF document, changed call
    by call. The model keeps what the calls put on the page, in order: text
    lines (cell, multi_cell) with their alignment and text colour, placed
    pictures (image), and free text (text) with the rotation and text colour in
    force when it was drawn. */
module Report {
  import opened Outcomes

  /** The choices of the gender select box. */
  datatype Gender = Male | Female | PreferNotToSay

  function GenderText(g: Gender): string
  {
    match g
    case Male => "Male"
    case Female => "Female"
    case PreferNotToSay => "Prefer not to say"
  }

  /** The choices of the hypertension-duration select box. */
  datatype Duration = UnderOneYear | UnderFiveYears | OverFiveYears

  function DurationText(d: Duration): string
  {
    match d
    case UnderOneYear => "<1 year"
    case UnderFiveYears => "<5 years"
    case OverFiveYears => ">5 years"
  }

  /** The operator's form fields; the age arrives already rendered as text. */
  datatype Patient = Patient(name: string, age: string, gender: Gender, duration: Duration)

  /** FPDF's core fonts (helvetica here) encode Latin-1 only: drawing any
      other character raises. */
  predicate Latin1(s: string)
  {
    forall i :: 0 <= i < |s| ==> s[i] as int < 256
  }

  datatype Rgb = Rgb(r: int, g: int, b: int)

  const Black := Rgb(0, 0, 0)
  const LightGray := Rgb(200, 200, 200)

  datatype Align = AlignLeft | AlignCenter

  /** Where a picture is read from: the uploaded file object, or a file on disk. */
  datatype ImageSource = UploadedFile | SavedFile(path: string)

  datatype Item =
    | Line(text: string, align: Align, wrapped: bool, color: Rgb)
    | Picture(source: ImageSource, x: int, y: int, w: int, h: int)
    | TextAt(x: int, y: int, text: string, angle: int, color: Rgb)

  /** The texts of the lines (cell and multi_cell), in drawing order. */
  function Lines(items: seq<Item>): seq<string>
  {
    if items == [] then []
    else
      var last := items[|items| - 1];
      Lines(items[..|items| - 1]) + (if last.Line? then [last.text] else [])
  }

  /** Pictures and upright free text, in drawing order. */
  function Figures(items: seq<Item>): seq<Item>
  {
    if items == [] then []
    else
      var last := items[|items| - 1];
      Figures(items[..|items| - 1]) +
        (if last.Picture? || (last.TextAt? && last.angle == 0) then [last] else [])
  }

  /** Rotated free text (the watermark), in drawing order. */
  function Watermarks(items: seq<Item>): seq<Item>
  {
    if items == [] then []
    else
      var last := items[|items| - 1];
      Watermarks(items[..|items| - 1]) + (if last.TextAt? && last.angle != 0 then [last] else [])
  }

  /** An FPDF document: the pages opened so far, the rotation and text colour
      currently set, and the items drawn so far. */
  class Document {
    var pages: nat
    var angle: int
    var color: Rgb
    var items: seq<Item>

    /** FPDF(): no page, no rotation, black text. */
    constructor ()
      ensures pages == 0 && angle == 0 && color == Black && items == []
    {
      pages, angle, color, items := 0, 0, Black, [];
    }

    method AddPage()
      modifies this`pages
      ensures pages == old(pages) + 1
    {
      pages := pages + 1;
    }

    method SetTextColor(c: Rgb)
      modifies this`color
      ensures color == c
    {
      color := c;
    }

    method Rotate(a: int)
      modifies this`angle
      ensures angle == a
    {
      angle := a;
    }

    /** cell(..., ln=True): one line of text. FPDF refuses it before a page
        exists, and refuses text outside Latin-1. */
    method Cell(text: string, align: Align)
      requires pages > 0 && Latin1(text)
      modifies this`items
      ensures items == old(items) + [Line(text, align, false, color)]
    {
      items := items + [Line(text, align, false, color)];
    }

    /** multi_cell: a text block wrapped over as many lines as it needs. */
    method MultiCell(text: string, align: Align)
      requires pages > 0 && Latin1(text)
      modifies this`items
      ensures items == old(items) + [Line(text, align, true, color)]
    {
      items := items + [Line(text, align, true, color)];
    }

    method Image(source: ImageSource, x: int, y: int, w: int, h: int)
      requires pages > 0
      modifies this`items
      ensures items == old(items) + [Picture(source, x, y, w, h)]
    {
      items := items + [Picture(source, x, y, w, h)];
    }

    /** text(x, y, s): free text at a position, under the current rotation. */
    method Text(x: int, y: int, s: string)
      requires pages > 0 && Latin1(s)
      modifies this`items
      ensures items == old(items) + [TextAt(x, y, s, angle, color)]
    {
      items := items + [TextAt(x, y, s, angle, color)];
    }
  }

  const Title := "Hypertensive Retinopathy Analysis Report"
  const WatermarkText := "Hypertensight Tech"
  /** The file preprocess_image's result is saved to before the report is built. */
  const ProcessedFile := "pi.jpg"

  /** The text lines of a report, top to bottom. */
  function ReportLines(p: Patient, message: string, date: string, time: string): seq<string>
  {
    [ Title,
      "Date: " + date,
      "Time: " + time,
      "Patient Name: " + p.name,
      "Patient Age: " + p.age,
      "Patient Gender: " + GenderText(p.gender),
      "Duration of Hypertension: " + DurationText(p.duration),
      "Analysis Result: " + message ]
  }

  /** The two pictures, side by side, each followed by its caption. */
  const ReportFigures := [
    Picture(UploadedFile, 10, 115, 90, 80),
    Picture(SavedFile(ProcessedFile), 110, 115, 90, 80),
    TextAt(41, 205, "Original Image", 0, Black),
    TextAt(139, 205, "Processed Image", 0, Black)
  ]

  /** The centred black title, then the light-gray watermark at 50 degrees. */
  const Heading := [
    Line(Title, AlignCenter, false, Black),
    TextAt(-150, 194, WatermarkText, 50, LightGray)
  ]

  /** The time stamp and patient fields as single left-aligned black lines,
      then the analysis result as a wrapped block. */
  function FieldItems(p: Patient, message: string, date: string, time: string): seq<Item>
  {
    [ Line("Date: " + date, AlignLeft, false, Black),
      Line("Time: " + time, AlignLeft, false, Black),
      Line("Patient Name: " + p.name, AlignLeft, false, Black),
      Line("Patient Age: " + p.age, AlignLeft, false, Black),
      Line("Patient Gender: " + GenderText(p.gender), AlignLeft, false, Black),
      Line("Duration of Hypertension: " + DurationText(p.duration), AlignLeft, false, Black),
      Line("Analysis Result: " + message, AlignLeft, true, Black) ]
  }

  /** Everything reportpdf draws, in drawing order. */
  function ReportItems(p: Patient, message: string, date: string, time: string): seq<Item>
  {
    Heading + FieldItems(p, message, date, time) + ReportFigures
  }

  /** Every line of the report can be drawn with the core font. */
  predicate Encodable(p: Patient, message: string, date: string, time: string)
  {
    Latin1(p.name) && Latin1(p.age) && Latin1(message) && Latin1(date) && Latin1(time)
  }

  lemma Latin1Concat(a: string, b: string)
    ensures Latin1(a + b) <==> Latin1(a) && Latin1(b)
  {
    if Latin1(a + b) {
      forall i | 0 <= i < |a| ensures a[i] as int < 256 { assert a[i] == (a + b)[i]; }
      forall i | 0 <= i < |b| ensures b[i] as int < 256 { assert b[i] == (a + b)[|a| + i]; }
    }
  }

  /** The fixed texts of the report are all Latin-1: the title and the
      watermark, */
  lemma FixedTextsLatin1()
    ensures Latin1(Title) && Latin1(WatermarkText)
  {
  }

  /** the captions, */
  lemma CaptionsLatin1()
    ensures Latin1("Original Image") && Latin1("Processed Image")
  {
  }

  /** the labels of the time stamp lines, */
  lemma StampLabelsLatin1()
    ensures Latin1("Date: ") && Latin1("Time: ") && Latin1("Analysis Result: ")
  {
  }

  /** the labels of the patient fields, */
  lemma FieldLabelsLatin1()
    ensures Latin1("Patient Name: ") && Latin1("Patient Age: ")
    ensures Latin1("Patient Gender: ") && Latin1("Duration of Hypertension: ")
  {
  }

  /** and the texts of the select-box choices. */
  lemma ChoiceTextsLatin1(g: Gender, d: Duration)
    ensures Latin1(GenderText(g)) && Latin1(DurationText(d))
  {
  }

  /** A report can be drawn exactly when each of its lines is Latin-1: the
      fixed texts are, so it comes down to the operator's and the clock's
      input and the message. */
  lemma EncodableIffLinesLatin1(p: Patient, message: string, date: string, time: string)
    ensures Encodable(p, message, date, time) <==>
      forall k :: 0 <= k < 8 ==> Latin1(ReportLines(p, message, date, time)[k])
  {
    var lines := ReportLines(p, message, date, time);
    FixedTextsLatin1();
    StampLabelsLatin1();
    FieldLabelsLatin1();
    ChoiceTextsLatin1(p.gender, p.duration);
    Latin1Concat("Date: ", date);
    Latin1Concat("Time: ", time);
    Latin1Concat("Patient Name: ", p.name);
    Latin1Concat("Patient Age: ", p.age);
    Latin1Concat("Patient Gender: ", GenderText(p.gender));
    Latin1Concat("Duration of Hypertension: ", DurationText(p.duration));
    Latin1Concat("Analysis Result: ", message);
    if Encodable(p, message, date, time) {
      forall k | 0 <= k < 8 ensures Latin1(lines[k]) {
      }
    } else {
      assert !(Latin1(lines[2]) && Latin1(lines[3]) && Latin1(lines[4]) && Latin1(lines[1]) && Latin1(lines[7]));
    }
  }

  /** reportpdf. The clock reads are the date and time parameters; writing the
      file is not modelled. The processed picture is read back from the saved
      file, not from the processed-image argument, which reportpdf never uses.
      Text outside Latin-1 makes a cell raise; the half-built document is then
      lost, so the model refuses before drawing. */
  method ReportPdf(p: Patient, message: string, date: string, time: string) returns (r: Result<Document>)
    ensures r.Ok? <==> Encodable(p, message, date, time)
    ensures r.Err? ==> r.error == ReportGenerationFailure
    ensures r.Ok? ==> fresh(r.value) && r.value.pages == 1
    ensures r.Ok? ==> r.value.items == ReportItems(p, message, date, time)
  {
    if !Encodable(p, message, date, time) {
      return Err(ReportGenerationFailure);
    }
    var pdf := new Document();
    pdf.AddPage();
    DrawHeading(pdf);
    DrawFields(pdf, p, message, date, time);
    DrawFigures(pdf);
    return Ok(pdf);
  }

  /** ui.py's title and watermark. */
  method DrawHeading(pdf: Document)
    requires pdf.pages > 0 && pdf.items == [] && pdf.color == Black
    modifies pdf`items, pdf`angle, pdf`color
    ensures pdf.items == Heading && pdf.angle == 0 && pdf.color == LightGray
  {
    FixedTextsLatin1();
    pdf.Cell(Title, AlignCenter);
    pdf.SetTextColor(LightGray);
    pdf.Rotate(50);
    pdf.Text(-150, 194, WatermarkText);
    pdf.Rotate(0);
  }

  /** ui.py's time stamp, patient fields and analysis result, in black. */
  method DrawFields(pdf: Document, p: Patient, message: string, date: string, time: string)
    requires pdf.pages > 0 && Encodable(p, message, date, time)
    modifies pdf`items, pdf`color
    ensures pdf.items == old(pdf.items) + FieldItems(p, message, date, time)
    ensures pdf.color == Black
  {
    FixedTextsLatin1();
    StampLabelsLatin1();
    FieldLabelsLatin1();
    ChoiceTextsLatin1(p.gender, p.duration);
    Latin1Concat("Date: ", date);
    Latin1Concat("Time: ", time);
    Latin1Concat("Patient Name: ", p.name);
    Latin1Concat("Patient Age: ", p.age);
    Latin1Concat("Patient Gender: ", GenderText(p.gender));
    Latin1Concat("Duration of Hypertension: ", DurationText(p.duration));
    Latin1Concat("Analysis Result: ", message);
    pdf.SetTextColor(Black);
    pdf.Cell("Date: " + date, AlignLeft);
    pdf.Cell("Time: " + time, AlignLeft);
    pdf.Cell("Patient Name: " + p.name, AlignLeft);
    pdf.Cell("Patient Age: " + p.age, AlignLeft);
    pdf.Cell("Patient Gender: " + GenderText(p.gender), AlignLeft);
    pdf.Cell("Duration of Hypertension: " + DurationText(p.duration), AlignLeft);
    pdf.MultiCell("Analysis Result: " + message, AlignLeft);
  }

  /** ui.py's two pictures, then their captions beneath them. */
  method DrawFigures(pdf: Document)
    requires pdf.pages > 0 && pdf.angle == 0
    modifies pdf`items, pdf`color
    ensures pdf.items == old(pdf.items) + ReportFigures
    ensures pdf.color == Black
  {
    CaptionsLatin1();
    pdf.Image(UploadedFile, 10, 115, 90, 80);
    pdf.Image(SavedFile(ProcessedFile), 110, 115, 90, 80);
    pdf.SetTextColor(Black);
    pdf.Text(41, 205, "Original Image");
    pdf.Text(139, 205, "Processed Image");
  }

  /** Each filter of a concatenation is the concatenation of the filters:
      for the lines, */
  lemma {:induction false} LinesAppend(a: seq<Item>, b: seq<Item>)
    ensures Lines(a + b) == Lines(a) + Lines(b)
    decreases |b|
  {
    if b == [] {
      assert a + b == a;
    } else {
      assert (a + b)[..|a + b| - 1] == a + b[..|b| - 1];
      LinesAppend(a, b[..|b| - 1]);
    }
  }

  /** for the figures, */
  lemma {:induction false} FiguresAppend(a: seq<Item>, b: seq<Item>)
    ensures Figures(a + b) == Figures(a) + Figures(b)
    decreases |b|
  {
    if b == [] {
      assert a + b == a;
    } else {
      assert (a + b)[..|a + b| - 1] == a + b[..|b| - 1];
      FiguresAppend(a, b[..|b| - 1]);
    }
  }

  /** and for the watermarks. */
  lemma {:induction false} WatermarksAppend(a: seq<Item>, b: seq<Item>)
    ensures Watermarks(a + b) == Watermarks(a) + Watermarks(b)
    decreases |b|
  {
    if b == [] {
      assert a + b == a;
    } else {
      assert (a + b)[..|a + b| - 1] == a + b[..|b| - 1];
      WatermarksAppend(a, b[..|b| - 1]);
    }
  }

  /** A run of text lines contributes exactly their texts, and nothing to
      the figures or watermarks. */
  lemma {:induction false} FiltersOfLines(s: seq<Item>)
    requires forall i :: 0 <= i < |s| ==> s[i].Line?
    ensures Lines(s) == seq(|s|, i requires 0 <= i < |s| => s[i].text)
    ensures Figures(s) == [] && Watermarks(s) == []
    decreases |s|
  {
    if s != [] {
      FiltersOfLines(s[..|s| - 1]);
    }
  }

  /** A run of pictures and upright text is all figures. */
  lemma {:induction false} FiltersOfFigures(s: seq<Item>)
    requires forall i :: 0 <= i < |s| ==> s[i].Picture? || (s[i].TextAt? && s[i].angle == 0)
    ensures Figures(s) == s && Lines(s) == [] && Watermarks(s) == []
    decreases |s|
  {
    if s != [] {
      FiltersOfFigures(s[..|s| - 1]);
    }
  }

  /** The heading yields the title as its one line and the watermark as its
      one watermark. */
  lemma HeadingFilters()
    ensures Lines(Heading) == [Title] && Figures(Heading) == [] && Watermarks(Heading) == [Heading[1]]
  {
    var h := [Heading[0]];
    assert Heading[..1] == h && h[..0] == [];
    assert Lines(h) == [Title] && Figures(h) == [] && Watermarks(h) == [];
  }

  /** The report's lines are the title, date, time, the four patient fields
      and the analysis result, in that order; */
  lemma ReportLinesLayout(p: Patient, message: string, date: string, time: string)
    ensures Lines(ReportItems(p, message, date, time)) == ReportLines(p, message, date, time)
  {
    var f := FieldItems(p, message, date, time);
    LinesAppend(Heading, f);
    LinesAppend(Heading + f, ReportFigures);
    HeadingFilters();
    FiltersOfFigures(ReportFigures);
    FieldLines(p, message, date, time);
  }

  /** The field lines follow the title in the report's lines. */
  lemma FieldLines(p: Patient, message: string, date: string, time: string)
    ensures [Title] + Lines(FieldItems(p, message, date, time)) == ReportLines(p, message, date, time)
  {
    var f := FieldItems(p, message, date, time);
    var lines := ReportLines(p, message, date, time);
    FiltersOfLines(f);
    forall k | 0 <= k < 7 ensures Lines(f)[k] == lines[k + 1] {
      assert Lines(f)[k] == f[k].text;
    }
  }

  /** its figures are the two pictures followed by their captions; */
  lemma ReportFiguresLayout(p: Patient, message: string, date: string, time: string)
    ensures Figures(ReportItems(p, message, date, time)) == ReportFigures
  {
    var f := FieldItems(p, message, date, time);
    FiguresAppend(Heading, f);
    FiguresAppend(Heading + f, ReportFigures);
    FiltersOfLines(f);
    FiltersOfFigures(ReportFigures);
    HeadingFilters();
  }

  /** its only watermark is the rotated light-gray text. */
  lemma ReportWatermarkLayout(p: Patient, message: string, date: string, time: string)
    ensures Watermarks(ReportItems(p, message, date, time)) == [TextAt(-150, 194, WatermarkText, 50, LightGray)]
  {
    var f := FieldItems(p, message, date, time);
    WatermarksAppend(Heading, f);
    WatermarksAppend(Heading + f, ReportFigures);
    FiltersOfLines(f);
    FiltersOfFigures(ReportFigures);
    HeadingFilters();
  }

  /** Every line is black, only the title (item 0) is centred, and only the
      analysis result (item 8) is wrapped. */
  lemma LineStyles(p: Patient, message: string, date: string, time: string)
    ensures var items := ReportItems(p, message, date, time);
      forall i :: 0 <= i < |items| && items[i].Line? ==>
        items[i].color == Black && (items[i].align == AlignCenter <==> i == 0) &&
        (items[i].wrapped <==> i == 8)
  {
  }

  /** No line is drawn after a picture. */
  lemma LinesBeforePictures(p: Patient, message: string, date: string, time: string)
    ensures var items := ReportItems(p, message, date, time);
      forall i, j :: 0 <= i < j < |items| && items[j].Line? ==> !items[i].Picture?
  {
  }

  /** Each caption sits below its own picture and starts within its width. */
  lemma CaptionsUnderPictures(k: nat)
    requires k < 2
    ensures var pic, cap := ReportFigures[k], ReportFigures[k + 2];
      pic.Picture? && cap.TextAt? &&
      pic.x <= cap.x < pic.x + pic.w && cap.y > pic.y + pic.h
  {
  }

  /** A report can be read back: its lines determine the patient record, the
      message and the time stamp. */
  lemma {:induction false} ReportLinesInjective(p1: Patient, m1: string, d1: string, t1: string,
                                                p2: Patient, m2: string, d2: string, t2: string)
    requires ReportLines(p1, m1, d1, t1) == ReportLines(p2, m2, d2, t2)
    ensures p1 == p2 && m1 == m2 && d1 == d2 && t1 == t2
  {
    var l1, l2 := ReportLines(p1, m1, d1, t1), ReportLines(p2, m2, d2, t2);
    assert l1[1] == l2[1];
    StripPrefix("Date: ", d1, d2);
    assert l1[2] == l2[2];
    StripPrefix("Time: ", t1, t2);
    assert l1[3] == l2[3];
    StripPrefix("Patient Name: ", p1.name, p2.name);
    assert l1[4] == l2[4];
    StripPrefix("Patient Age: ", p1.age, p2.age);
    assert l1[5] == l2[5];
    StripPrefix("Patient Gender: ", GenderText(p1.gender), GenderText(p2.gender));
    assert l1[6] == l2[6];
    StripPrefix("Duration of Hypertension: ", DurationText(p1.duration), DurationText(p2.duration));
    assert l1[7] == l2[7];
    StripPrefix("Analysis Result: ", m1, m2);
  }

  lemma StripPrefix(prefix: string, a: string, b: string)
    requires prefix + a == prefix + b
    ensures a == b
  {
    assert a == (prefix + a)[|prefix|..];
    assert b == (prefix + b)[|prefix|..];
  }

  /** The report for an example patient carries the four metadata lines
      verbatim. */
  lemma ExampleReport(message: string, date: string, time: string)
    ensures var ls := ReportLines(Patient("Jane Doe", "54.0", Female, UnderFiveYears), message, date, time);
      ls[3] == "Patient Name: Jane Doe" && ls[4] == "Patient Age: 54.0" &&
      ls[5] == "Patient Gender: Female" && ls[6] == "Duration of Hypertension: <5 years"
  {
  }
}
