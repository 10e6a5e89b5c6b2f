/**
  * frontend/src/components/DownloadReport.jsx: `handleDownload` as the
  * ordered list of drawing commands it gives one `jsPDF` document, with the
  * geometry of the captured image.  The rasteriser and the PDF engine are
  * not modelled: the capture enters as its outcome, and the document is the
  * `Pdf` object recording the commands it receives.
  */
module DownloadReport {
  import opened Wrappers

  const DefaultFilename: string := "Crowd_Trends_Report.pdf"
  const NotFoundMessage: string := "Report node not found!"

  /** The width of an A4 page in millimetres as jsPDF derives it: 595.28 points at 72 points per inch. */
  const A4Width: real := 595.28 * 25.4 / 72.0

  /** The left and right margin of the visuals page, in millimetres. */
  const Margin: real := 15.0

  /** The scale factor the capture uses. */
  const CaptureScale: nat := 2

  datatype Align = Left | Center

  /** A drawing command given to the document. */
  datatype Cmd =
    | SetFont(family: string, style: string)
    | SetFontSize(size: nat)
    | Text(text: string, x: real, y: real, align: Align)
    | AddPage
    | AddImage(format: string, x: real, y: real, width: real, height: real)
    | Save(filename: string)

  /** A browser side effect of the download button. */
  datatype Effect = Alert(message: string) | Rasterise(targetId: string, scale: nat, useCors: bool)

  /** The outcome of `html2canvas`: a canvas of the given pixel size, or a rejection. */
  datatype Capture = Canvas(width: nat, height: nat) | CaptureFailed

  /** A `jsPDF('p', 'mm', 'a4')` document, as the list of commands it has received. */
  class Pdf {
    var commands: seq<Cmd>
    const pageWidth: real

    constructor()
      ensures commands == [] && pageWidth == A4Width
    {
      commands := [];
      pageWidth := A4Width;
    }

    method Do(c: Cmd)
      modifies this
      ensures commands == old(commands) + [c]
    {
      commands := commands + [c];
    }
  }

  /** `filename` with its default. */
  function FileName(filename: Option<string>): string {
    if filename.Some? then filename.value else DefaultFilename
  }

  /** The title page: three centred lines at 30, 45 and 55 mm. */
  function TitlePage(pageWidth: real, date: string): seq<Cmd> {
    [ SetFont("helvetica", "bold"), SetFontSize(22),
      Text("Crowd Trends Analysis Report", pageWidth / 2.0, 30.0, Center),
      SetFont("helvetica", "normal"), SetFontSize(14),
      Text("IoT Smart Campus Monitoring System", pageWidth / 2.0, 45.0, Center),
      SetFontSize(10),
      Text("Generated on: " + date, pageWidth / 2.0, 55.0, Center) ]
  }

  /** The heading and caption of the visuals page. */
  function VisualsHeader(): seq<Cmd> {
    [ SetFontSize(16), SetFont("helvetica", "bold"),
      Text("Visual Data Summary", Margin, 20.0, Left),
      SetFont("helvetica", "normal"), SetFontSize(12),
      Text("Below are visualizations showing trends, predictions, and insights.", Margin, 30.0, Left) ]
  }

  /** The image placed below the caption, as wide as the page less both margins, keeping the aspect ratio. */
  function PlacedImage(pageWidth: real, imgWidth: nat, imgHeight: nat): Cmd
    requires imgWidth > 0
  {
    var pdfWidth := pageWidth - 2.0 * Margin;
    AddImage("PNG", Margin, 40.0, pdfWidth, (imgHeight as real * pdfWidth) / imgWidth as real)
  }

  /** The whole command list of a download whose capture succeeded. */
  function ReportTrace(pageWidth: real, date: string, imgWidth: nat, imgHeight: nat, filename: string): seq<Cmd>
    requires imgWidth > 0
  {
    TitlePage(pageWidth, date) + [AddPage] + VisualsHeader() + [PlacedImage(pageWidth, imgWidth, imgHeight), Save(filename)]
  }

  /**
    * The layout promises: one page break, after the title page and before
    * the visuals page; centred title lines at 30, 45, 55; left-aligned
    * visuals texts at the margin; one image; `save` last and only there.
    */
  lemma ReportTraceLayout(pageWidth: real, date: string, imgWidth: nat, imgHeight: nat, filename: string)
    requires imgWidth > 0
    ensures var t := ReportTrace(pageWidth, date, imgWidth, imgHeight, filename);
      && |t| == 17
      && (forall i :: 0 <= i < |t| ==> (t[i] == AddPage <==> i == 8))
      && (forall i :: 0 <= i < 8 && t[i].Text? ==> t[i].align == Center && t[i].x == pageWidth / 2.0)
      && [t[2].y, t[5].y, t[7].y] == [30.0, 45.0, 55.0]
      && (forall i :: 8 < i < |t| && t[i].Text? ==> t[i].align == Left && t[i].x == Margin)
      && (forall i :: 0 <= i < |t| ==> (t[i].AddImage? <==> i == 15))
      && (forall i :: 0 <= i < |t| ==> (t[i].Save? <==> i == |t| - 1))
      && t[|t| - 1] == Save(filename)
  {
    var t := ReportTrace(pageWidth, date, imgWidth, imgHeight, filename);
    assert t[8] == AddPage && t[15].AddImage? && t[16] == Save(filename);
    forall i | 0 <= i < |t| ensures (t[i] == AddPage <==> i == 8) && (t[i].AddImage? <==> i == 15) && (t[i].Save? <==> i == 16) {
      if i < 8 {
        assert t[i] == TitlePage(pageWidth, date)[i];
      } else if 8 < i < 15 {
        assert t[i] == VisualsHeader()[i - 9];
      }
    }
  }

  /** The image keeps a 15 mm margin on both sides and the captured aspect ratio. */
  lemma PlacedImageGeometry(pageWidth: real, imgWidth: nat, imgHeight: nat)
    requires imgWidth > 0
    ensures var c := PlacedImage(pageWidth, imgWidth, imgHeight);
      && c.x == 15.0 && c.y == 40.0
      && c.x + c.width + 15.0 == pageWidth
      && c.height * imgWidth as real == imgHeight as real * c.width
  {
    var c := PlacedImage(pageWidth, imgWidth, imgHeight);
    var n := imgHeight as real * c.width;
    assert c.height == n / imgWidth as real;
  }

  /** The title page section of `handleDownload`. */
  method DrawTitlePage(pdf: Pdf, date: string)
    modifies pdf
    ensures pdf.commands == old(pdf.commands) + TitlePage(pdf.pageWidth, date)
  {
    var pageWidth := pdf.pageWidth;
    pdf.Do(SetFont("helvetica", "bold"));
    pdf.Do(SetFontSize(22));
    pdf.Do(Text("Crowd Trends Analysis Report", pageWidth / 2.0, 30.0, Center));
    pdf.Do(SetFont("helvetica", "normal"));
    pdf.Do(SetFontSize(14));
    pdf.Do(Text("IoT Smart Campus Monitoring System", pageWidth / 2.0, 45.0, Center));
    pdf.Do(SetFontSize(10));
    pdf.Do(Text("Generated on: " + date, pageWidth / 2.0, 55.0, Center));
  }

  /** The heading and caption of the visual data page. */
  method DrawVisualsHeader(pdf: Pdf)
    modifies pdf
    ensures pdf.commands == old(pdf.commands) + VisualsHeader()
  {
    pdf.Do(SetFontSize(16));
    pdf.Do(SetFont("helvetica", "bold"));
    pdf.Do(Text("Visual Data Summary", 15.0, 20.0, Left));
    pdf.Do(SetFont("helvetica", "normal"));
    pdf.Do(SetFontSize(12));
    pdf.Do(Text("Below are visualizations showing trends, predictions, and insights.", 15.0, 30.0, Left));
  }

  /**
    * `handleDownload`: with no node of that id, only the alert; otherwise a
    * capture at scale 2, and, once it resolves, one document that receives
    * the report commands and is saved under `filename`.  A failed capture
    * builds no document; a capture without pixels (zero width or zero
    * height) stops once the image is read, before anything is placed or saved.
    */
  method HandleDownload(targetId: string, filename: Option<string>, nodes: set<string>, capture: Capture, date: string)
    returns (effects: seq<Effect>, pdf: Pdf?)
    ensures targetId !in nodes ==> effects == [Alert(NotFoundMessage)] && pdf == null
    ensures targetId in nodes ==> effects == [Rasterise(targetId, CaptureScale, true)]
    ensures capture.CaptureFailed? ==> pdf == null
    ensures targetId in nodes && capture.Canvas? ==> pdf != null && fresh(pdf) && pdf.pageWidth == A4Width
    ensures targetId in nodes && capture.Canvas? && capture.width > 0 && capture.height > 0 ==>
      pdf != null && pdf.commands == ReportTrace(A4Width, date, capture.width, capture.height, FileName(filename))
    ensures targetId in nodes && capture.Canvas? && (capture.width == 0 || capture.height == 0) ==>
      pdf != null && pdf.commands == TitlePage(A4Width, date) + [AddPage] + VisualsHeader()
  {
    if targetId !in nodes {
      return [Alert(NotFoundMessage)], null;
    }
    effects := [Rasterise(targetId, CaptureScale, true)];
    if capture.CaptureFailed? {
      return effects, null;
    }
    pdf := new Pdf();
    DrawTitlePage(pdf, date);
    pdf.Do(AddPage);
    DrawVisualsHeader(pdf);
    if capture.width == 0 || capture.height == 0 {
      return;
    }
    var pdfWidth := pdf.pageWidth - 30.0;
    var pdfHeight := (capture.height as real * pdfWidth) / capture.width as real;
    pdf.Do(AddImage("PNG", 15.0, 40.0, pdfWidth, pdfHeight));
    pdf.Do(Save(FileName(filename)));
  }
}
