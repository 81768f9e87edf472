/** One analysis request of display_diagnosis (ui.py): preprocess the upload,
    classify the processed image, interpret the classifier's output and, only
    when a message was produced, build the report. */
module Pipeline {
  import opened Outcomes
  import opened Preprocessor
  import opened Diagnosis
  import opened Report

  /** The classifier's top-1 class name and its confidence in [0, 1]. */
  datatype Prediction = Prediction(className: string, top1conf: real)

  /** Resizing to 224x224, tensor conversion and inference, as one foreign
      call on the processed image: None when any of them raises. */
  type Classifier = Image -> Option<Prediction>

  /** How the scaled confidence (in tenths of a percent) is printed inside the
      message; Python's rendering of the float is not modelled. */
  type Renderer = int -> string

  /** The message shown for one upload, or why there is none. */
  function Diagnose(img: Image, clahe: Enhancer, classify: Classifier, render: Renderer): (r: Result<string>)
    requires KeepsShape(clahe)
    ensures !WellFormed(img) ==> r == Err(InvalidImage)
    ensures WellFormed(img) ==>
      var out := classify(Preprocess(img, clahe).value);
      (out.None? ==> r == Err(ClassificationFailure)) &&
      (out.Some? && out.value.className != DiagnosedClass && out.value.className != HealthyClass ==>
        r == Err(UnrecognizedLabel(out.value.className))) &&
      (r.Ok? <==> out.Some? && (out.value.className == DiagnosedClass || out.value.className == HealthyClass)) &&
      (r.Ok? ==> r.value == MessageText(Analyze(out.value.className, out.value.top1conf).value,
                                        render(ScaledConfidence(out.value.top1conf))))
  {
    match Preprocess(img, clahe)
    case Err(e) => Err(e)
    case Ok(processed) =>
      match classify(processed)
      case None => Err(ClassificationFailure)
      case Some(prediction) =>
        var tenths := ScaledConfidence(prediction.top1conf);
        match Interpret(prediction.className, tenths)
        case Err(e) => Err(e)
        case Ok(verdict) => Ok(MessageText(verdict, render(tenths)))
  }

  /** The diagnosis depends on the upload only through its green channel. */
  lemma DiagnoseOnlyReadsGreen(a: Image, b: Image, clahe: Enhancer, classify: Classifier, render: Renderer)
    requires KeepsShape(clahe) && WellFormed(a) && WellFormed(b)
    requires Channel(a, Depth(a), Green) == Channel(b, Depth(b), Green)
    ensures Diagnose(a, clahe, classify, render) == Diagnose(b, clahe, classify, render)
  {
    PreprocessOnlyReadsGreen(a, b, clahe);
  }

  /** A class name outside the two known ones ends the request without a
      message, whatever the confidence. */
  lemma UnknownClassNoMessage(img: Image, clahe: Enhancer, classify: Classifier, render: Renderer)
    requires KeepsShape(clahe) && WellFormed(img)
    requires classify(Preprocess(img, clahe).value).Some?
    requires classify(Preprocess(img, clahe).value).value.className !in {DiagnosedClass, HealthyClass}
    ensures Diagnose(img, clahe, classify, render).Err?
    ensures Diagnose(img, clahe, classify, render).error.UnrecognizedLabel?
  {
  }

  /** display_diagnosis after the button press. The message is shown as soon
      as it exists; the report is built only after that, so a report that
      cannot be drawn fails on its own, with the message already shown. */
  method DisplayDiagnosis(img: Image, clahe: Enhancer, classify: Classifier, render: Renderer,
                          p: Patient, date: string, time: string)
    returns (message: Result<string>, report: Result<Document>)
    requires KeepsShape(clahe)
    ensures message == Diagnose(img, clahe, classify, render)
    ensures message.Err? ==> report == Err(message.error)
    ensures message.Ok? ==> (report.Ok? <==> Encodable(p, message.value, date, time))
    ensures message.Ok? && report.Err? ==> report.error == ReportGenerationFailure
    ensures report.Ok? ==> fresh(report.value) && report.value.pages == 1
    ensures report.Ok? ==> report.value.items == ReportItems(p, message.value, date, time)
  {
    message := Diagnose(img, clahe, classify, render);
    if message.Ok? {
      report := ReportPdf(p, message.value, date, time);
    } else {
      report := Err(message.error);
    }
  }

  /** A patient name outside Latin-1 (such as "Łukasz") still gets the
      message, but no report. */
  lemma NonLatin1NameNoReport(p: Patient, message: string, date: string, time: string)
    requires exists i :: 0 <= i < |p.name| && p.name[i] as int >= 256
    ensures !Encodable(p, message, date, time)
  {
  }
}
