# Hypertensight image-to-report pipeline, modelled in Dafny

Hypertensight takes a retinal fundus photograph and enhances it: it keeps the green channel, applies CLAHE and replicates the result into three channels. A pretrained classifier then labels the enhanced image. The system turns the top-1 class name and confidence into one clinical message and writes a PDF report. The report holds the patient's details, the message and both pictures. This project models the three pieces of that pipeline that hold logic of their own. It proves what each piece guarantees.

- `outcomes.dfy`, module `Outcomes`: the ways a request ends without a report. These are `InvalidImage`, `ClassificationFailure` and `UnrecognizedLabel`, and `ReportGenerationFailure` when only the report fails.
- `preprocessor.dfy`, module `Preprocessor`: `preprocess_image`. An image is a sequence of rows of pixels, and a pixel is the list of its channel bytes. CLAHE is a parameter of type `Enhancer`. It is called with the source's configuration: clip limit 5.0 and 8×8 tiles.
- `diagnosis.dfy`, module `Diagnosis`: the confidence scaling `round(conf, 3) * 100` and the three-way message branch of `display_diagnosis`. The confidence is an integer number of tenths of a percent, so `conf > 85` is `tenths > 850`.
- `report.dfy`, module `Report`: `reportpdf`. The FPDF object is the class `Document`. Its `items` sequence grows with each `cell`, `multi_cell`, `image` and `text` call. A text line records its alignment, whether it wraps, and the text colour in force. Free text records the rotation and text colour in force. A picture records its source and its box.
- `pipeline.dfy`, module `Pipeline`: the request flow of `display_diagnosis`. It covers the preprocessing, the classification and the interpretation. The report is built only when a message was produced. Building it can still fail after the message is shown.

Details of the code the model keeps:
- The class names are `"optdiagnosed"` and `"opthealthy"`.
- The "detected" and plain "not detected" messages have no final period. Only the advisory message ends with one.
- The gender choices are "Male", "Female" and "Prefer not to say".
- Four-channel (RGBA) uploads are accepted. The RGB-to-BGR conversion drops the alpha channel.
- In the code, an unknown class name leaves `diagnosis_message` unbound. Its use at line 140 raises, and the handler at lines 151-153 shows the error. The model makes this the explicit `UnrecognizedLabel` error. No report is built.
- A malformed image fails inside `preprocess_image`, which is called at line 104. That is outside the `try` block, so the handler does not catch it. In the model it is the `InvalidImage` error, and no report is built.
- `reportpdf` draws with the core font helvetica, which encodes Latin-1 only. Text outside Latin-1, such as the name "Łukasz", makes the drawing call raise inside the `try` block. The handler at lines 151-153 shows the error after the message from line 140. The model makes this the `ReportGenerationFailure` error, and no report is produced.
- `reportpdf` never uses its `processed_image` argument. It reads the processed picture back from the file `pi.jpg`, which `display_diagnosis` wrote at line 106. The model records that picture's source as `SavedFile("pi.jpg")`.

## Model

| member | source | states |
|---|---|---|
| Preprocessor.SwapRB | ui.py:13 | the result has the input's height and width and three channels; in every pixel, channels 0 and 2 trade places and channel 1 stays put |
| Preprocessor.Channel | ui.py:14 | `image[:, :, k]` is a plane of the image's height and width whose pixel (i, j) is channel k of pixel (i, j) |
| Preprocessor.Merge3 | ui.py:17 | merging a plane three times gives an image of the plane's height and width whose three channels all equal the plane's pixel |
| Preprocessor.Preprocess | ui.py:12-18 | InvalidImage exactly when the input is empty or has neither three nor four channels; otherwise the result keeps the input's height and width and has three channels, and each channel is CLAHE (5.0, 8×8) applied to the input's own green channel, so all three are identical |
| Preprocessor.SwapKeepsGreen | ui.py:13-14 | index 1 of the BGR image is the green channel of the RGB input |
| Preprocessor.SwapRBInvolutive | ui.py:13 | the RGB-to-BGR conversion undoes itself on a 3-channel image |
| Preprocessor.MergeThenChannel | ui.py:16-17 | any channel of the merged image is the enhanced plane that was merged |
| Preprocessor.PreprocessOnlyReadsGreen | ui.py:12-18 | two valid uploads with the same green channel are preprocessed to the same image |
| Diagnosis.RoundHalfEven | ui.py:129 | the rounding lies within one half of its argument, and a tie goes to the even neighbour |
| Diagnosis.RoundIsNearest | ui.py:129 | no integer is closer to the argument than its rounding |
| Diagnosis.ScaledConfidence | ui.py:127-129 | `round(conf, 3) * 100` in tenths of a percent is within half a tenth of the exact percentage |
| Diagnosis.ScaledConfidenceInRange | ui.py:127-129 | a top-1 confidence in [0, 1] gives a percentage in [0, 100] |
| Diagnosis.Interpret | ui.py:132-138 | "optdiagnosed" always gives Detected; "opthealthy" gives the plain negative verdict exactly when the confidence is above 85% and the advisory one otherwise; any other class name gives UnrecognizedLabel and no verdict |
| Diagnosis.Analyze | ui.py:127-138 | for the raw classifier output: an unknown class name gives UnrecognizedLabel; "optdiagnosed" gives Detected; for "opthealthy" the plain negative verdict is chosen exactly when the raw confidence exceeds 0.8505, and the advisory one exactly when it does not (0.8505 rounds to 0.85, and 85 is not above 85) |
| Diagnosis.DetectedIgnoresConfidence | ui.py:132-133 | the positive verdict does not depend on the confidence |
| Diagnosis.HealthyMonotone | ui.py:134-138 | raising the confidence never turns the plain negative verdict into the advisory one |
| Diagnosis.ThresholdBoundary | ui.py:134-138 | 0.85 gives the advisory message, 0.851 the plain one, 0.849 the advisory one |
| Diagnosis.Scenarios | ui.py:126-138 | 0.932 for "optdiagnosed" is 93.2% and Detected; 0.90 for "opthealthy" is plain negative; 0.70 for "opthealthy" is advisory; an unknown class name is an error |
| Diagnosis.MessageText | ui.py:132-138 | only the advisory message ends with a period, and only the positive message starts with "Hypertensive" |
| Diagnosis.MessageTextInjective | ui.py:132-138 | a message's text determines its verdict and the confidence printed in it |
| Report.Document.constructor | ui.py:160 | a new document has no page, no rotation, black text and nothing drawn |
| Report.Document.AddPage | ui.py:161 | opens one more page |
| Report.Document.SetTextColor | ui.py:169 | sets the colour of the text drawn next |
| Report.Document.Rotate | ui.py:172-174 | sets the rotation of the free text drawn next |
| Report.Document.Cell | ui.py:179-184 | appends exactly one unwrapped line with the given text and alignment in the current colour; refused before a page exists or for text outside Latin-1 |
| Report.Document.MultiCell | ui.py:185 | appends exactly one wrapped text block in the current colour; refused before a page exists or for text outside Latin-1 |
| Report.Document.Image | ui.py:188-189 | appends exactly one placed picture with its source and box |
| Report.Document.Text | ui.py:173 | appends exactly one piece of free text under the current rotation and colour; refused for text outside Latin-1 |
| Report.FixedTextsLatin1 | ui.py:165-173 | the title and watermark texts are Latin-1 |
| Report.CaptionsLatin1 | ui.py:193-194 | the caption texts are Latin-1 |
| Report.StampLabelsLatin1 | ui.py:179-185 | the labels "Date: ", "Time: " and "Analysis Result: " are Latin-1 |
| Report.FieldLabelsLatin1 | ui.py:181-184 | the four patient-field labels are Latin-1 |
| Report.ChoiceTextsLatin1 | ui.py:181-184 | every gender and duration choice text is Latin-1 |
| Report.EncodableIffLinesLatin1 | ui.py:165-185 | every report line can be drawn exactly when the name, age, message, date and time are Latin-1 |
| Report.DrawHeading | ui.py:165-174 | the document holds exactly the centred black title and then the light-gray "Hypertensight Tech" at 50 degrees; the rotation is back to 0 |
| Report.DrawFields | ui.py:177-185 | appends exactly the left-aligned black lines Date, Time, Patient Name, Patient Age, Patient Gender and Duration of Hypertension, then the wrapped Analysis Result, and leaves the colour black |
| Report.DrawFigures | ui.py:188-194 | appends exactly the uploaded picture and the saved processed picture side by side, then their black upright captions "Original Image" and "Processed Image" |
| Report.ReportPdf | ui.py:155-197 | ReportGenerationFailure exactly when some line is not Latin-1; otherwise a fresh one-page document whose items are exactly the heading, the fields and the figures in drawing order |
| Report.LinesAppend | ui.py:160-194 | the lines of two runs of drawing calls are those of the first run followed by those of the second |
| Report.FiguresAppend | ui.py:160-194 | the same for the figures |
| Report.WatermarksAppend | ui.py:160-194 | the same for the watermarks |
| Report.FiltersOfLines | ui.py:179-185 | a run of cell and multi_cell calls yields exactly their texts as lines, and no figure or watermark |
| Report.FiltersOfFigures | ui.py:188-194 | a run of image calls and upright text is all figures, with no line or watermark |
| Report.HeadingFilters | ui.py:165-174 | the heading yields the title as its only line and the rotated text as its only watermark |
| Report.FieldLines | ui.py:165-185 | the field lines, after the title, are exactly the report's lines |
| Report.ReportLinesLayout | ui.py:165-185 | the report's lines are the title, date, time, four patient fields and analysis result, in that order |
| Report.ReportFiguresLayout | ui.py:188-194 | the report's figures are the uploaded and the processed picture, then their captions |
| Report.ReportWatermarkLayout | ui.py:169-174 | the report's only watermark is the light-gray "Hypertensight Tech" rotated by 50 degrees |
| Report.LineStyles | ui.py:165-185 | every line is black, only the title is centred, and only the analysis result wraps |
| Report.LinesBeforePictures | ui.py:179-189 | no line is drawn after a picture |
| Report.CaptionsUnderPictures | ui.py:188-194 | each caption starts within its own picture's width and lies below that picture |
| Report.ReportLinesInjective | ui.py:165-185 | the report's lines determine the patient record, the message, the date and the time |
| Report.ExampleReport | ui.py:181-184 | for Jane Doe, 54.0, Female, "<5 years", the four metadata lines appear verbatim |
| Pipeline.Diagnose | ui.py:101-140 | an invalid image gives InvalidImage; a classifier failure gives ClassificationFailure; an unknown class name gives UnrecognizedLabel; otherwise the result is the message for the interpreted verdict, computed from the preprocessed image |
| Pipeline.DiagnoseOnlyReadsGreen | ui.py:102-125 | two valid uploads with the same green channel get the same diagnosis |
| Pipeline.UnknownClassNoMessage | ui.py:132-153 | an unrecognized class name ends the request in the error path with no message |
| Pipeline.DisplayDiagnosis | ui.py:101-153 | the message is the diagnosis; a failed diagnosis gives no report and the same error; with a message, the report is produced exactly when its lines are Latin-1, is otherwise ReportGenerationFailure, and when produced holds exactly the report items for that message and the patient's fields |
| Pipeline.NonLatin1NameNoReport | ui.py:181 | a patient name with a character outside Latin-1 makes the report undrawable |

## Left out

- Streamlit presentation (`display_home`, the widgets and page flow of `display_diagnosis`, `main`, the sidebar): this is presentation only.
- Model loading and inference, `cv2.resize` to 224×224 and `transforms.ToTensor`: these are foreign calls. Together they are the `Classifier` parameter, applied to the processed image, and `None` stands for any exception they raise.
- CLAHE internals (`cv2.createCLAHE`/`apply`): this is library code. `Enhancer` is a parameter, and the model only assumes that it keeps a plane's height and width.
- Floating point: `round(conf, 3)` is modelled on exact reals with ties to even. The binary value of the float and the product by 100 are not modelled; for example, Python gives `84.89999999999999` for 0.849. The threshold decision is unaffected, because 0.85 scales to exactly `85.0`.
- Diagnosis.ScaledConfidence: states rounding on exact reals, not on the binary float Python rounds.
- The printing of `{conf}` and of the patient's age (a float from `number_input`): these are Python float formatting. The confidence is printed by the `Renderer` parameter, and the age arrives as text.
- Other failures inside `reportpdf`: an upload that `pdf.image` cannot read, and a failed write in `pdf.output`. Both are file I/O or image decoding, which are not modelled; they would end in `ReportGenerationFailure` as well.
- PDF rendering: fonts and font sizes, the cursor and `ln(10)`, the geometric effect of rotation, and `pdf.output`. These are library state; only what is drawn, its order, colour and rotation, and the image and caption coordinates are kept.
- The clock reads (`datetime.now`, `date.today`): they are the `date` and `time` parameters of `ReportPdf`.
- File I/O: the writes of `pi.jpg` and `report.pdf`, and the download button.
- Grayscale, palette and 16-bit grayscale (`I;16`) uploads arrive as 2-D arrays, which the colour conversion rejects. The model has no 2-D image type; these uploads belong with the other inputs that end in InvalidImage.
