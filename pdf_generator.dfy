/** The document builder of src/components/PDFGenerator.js: one object holding
    the jsPDF page list and the vertical write cursor, changed step by step by
    the section methods. Each method is proved to leave the object in the state
    that the matching function of PageLayout gives. */
module PdfGenerator {
  import opened Draw
  import opened Trip
  import opened PageLayout

  class DocBuilder {
    /** The jsPDF document: empty until generatePDF creates it. */
    var pages: seq<Page>
    /** The vertical write cursor, `this.currentY`. */
    var currentY: int
    /** The library calls the layout relies on. */
    const backend: Backend

    constructor (backend: Backend)
      ensures pages == [] && currentY == 0 && this.backend == backend
    {
      pages := [];
      currentY := 0;
      this.backend := backend;
    }

    function State(): Layout
      reads this
    {
      Layout(pages, currentY)
    }

    /** The jsPDF drawing calls (`text`, `rect`, `line`, `circle`), which all
        draw on the current page. */
    method DrawOnPage(cmds: seq<DrawCommand>)
      requires |pages| > 0
      modifies this
      ensures pages == AppendToLast(old(pages), cmds)
      ensures currentY == old(currentY)
    {
      pages := pages[|pages| - 1 := pages[|pages| - 1] + cmds];
    }

    /** addFooter. */
    method AddFooter()
      requires |pages| > 0
      modifies this
      ensures State() == Footer(old(State()))
    {
      DrawOnPage(FooterCommands());
    }

    /** addNewPage. */
    method AddNewPage()
      modifies this
      ensures pages == old(pages) + [FooterCommands()]
      ensures currentY == Margin
      ensures State() == NewPage(old(State()))
    {
      pages := pages + [[]];
      currentY := Margin;
      AddFooter();
      AppendToNewPage(old(pages), FooterCommands());
    }

    /** The body of one iteration of the day, activity, flight or hotel loop. */
    method DrawBlock(blk: Block)
      requires |pages| > 0
      modifies this
      ensures State() == PlaceBlock(old(State()), blk, backend)
    {
      if currentY > BreakLimit(blk) {
        AddNewPage();
      }
      DrawOnPage(BlockCommands(blk, backend, currentY));
      currentY := currentY + BlockHeight(blk, backend);
    }

    /** The forEach loop over a list of blocks. */
    method DrawBlocks(blks: seq<Block>)
      requires |pages| > 0
      modifies this
      ensures State() == PlaceBlocks(old(State()), blks, backend)
    {
      ghost var start := State();
      var i := 0;
      while i < |blks|
        invariant 0 <= i <= |blks| && |pages| > 0
        invariant PlaceBlocks(State(), blks[i..], backend) == PlaceBlocks(start, blks, backend)
      {
        PlaceBlocksStep(State(), blks, i, backend);
        DrawBlock(blks[i]);
        i := i + 1;
      }
    }

    /** generateCoverPage. */
    method GenerateCoverPage(t: TripForm)
      requires |pages| > 0
      modifies this
      ensures State() == Cover(old(State()), t, backend)
    {
      DrawOnPage(CoverBanner(t));
      currentY := 80;
      DrawOnPage([Text(t.destination + " Itinerary", PageWidth / 2.0, currentY, Center)]);
      currentY := currentY + 15;
      var nights := CalculateNights(t.departureDate, t.returnDate);
      DrawOnPage([Text(TripLengthText(nights), PageWidth / 2.0, currentY, Center)]);
      currentY := currentY + 10;
      DrawOnPage(DetailsBox(t, backend, currentY));
      currentY := currentY + 60;
      AddFooter();
    }

    /** generateDailyItinerary. */
    method GenerateDailyItinerary(days: seq<DayPlan>)
      requires |pages| > 0
      modifies this
      ensures State() == DailyItinerary(old(State()), days, backend)
    {
      DrawOnPage([SectionTitle("Daily Itinerary", currentY)]);
      currentY := currentY + 20;
      ghost var start := State();
      var index := 0;
      while index < |days|
        invariant 0 <= index <= |days| && |pages| > 0
        invariant PlaceDays(State(), days[index..], index, backend) == PlaceDays(start, days, 0, backend)
      {
        ghost var before := State();
        var day := days[index];
        DrawBlock(DayHeader(day, index));
        DrawBlocks(ActivityEntries(day.activities));
        currentY := currentY + 10;
        assert State() == PlaceDay(before, day, index, backend);
        assert days[index..][1..] == days[index + 1..];
        index := index + 1;
      }
      AddFooter();
    }

    /** generateFlightAndHotelDetails. */
    method GenerateFlightAndHotelDetails(t: TripForm)
      requires |pages| > 0
      modifies this
      ensures State() == FlightsAndHotels(old(State()), t, backend)
    {
      ghost var L0 := State();
      DrawOnPage([SectionTitle("Flight Summary", currentY)]);
      currentY := currentY + 20;
      DrawBlocks(FlightCards(t.flights));
      currentY := currentY + 15;
      ghost var L1 := State();
      assert L1 == FlightSummary(L0, t, backend);
      DrawOnPage([SectionTitle("Hotel Bookings", currentY)]);
      currentY := currentY + 20;
      ghost var L2 := State();
      assert L2 == Advance(Emit(L1, [SectionTitle("Hotel Bookings", L1.y)]), 20);
      if |t.hotels| > 0 {
        DrawOnPage(HotelHeaderCommands(currentY));
        currentY := currentY + 12;
        assert State() == Advance(Emit(L2, HotelHeaderCommands(L2.y)), 12);
        DrawBlocks(HotelRows(t.hotels));
        assert State() == HotelTable(L2, t.hotels, backend);
      }
      assert State() == HotelBookings(L1, t, backend);
      AddFooter();
    }

    /** The forEach loop over the three installment rows (no break check). */
    method DrawInstallments(insts: seq<Installment>)
      requires |pages| > 0
      modifies this
      ensures State() == PlaceInstallments(old(State()), insts, 0, backend)
    {
      ghost var start := State();
      var index := 0;
      while index < |insts|
        invariant 0 <= index <= |insts| && |pages| > 0
        invariant PlaceInstallments(State(), insts[index..], index, backend)
                  == PlaceInstallments(start, insts, 0, backend)
      {
        PlaceInstallmentsStep(State(), insts, index, backend);
        DrawOnPage(InstallmentRowCommands(insts[index], index, backend, currentY));
        currentY := currentY + 12;
        index := index + 1;
      }
    }

    /** generatePaymentAndTerms. */
    method GeneratePaymentAndTerms(d: ItineraryData)
      requires |pages| > 0
      modifies this
      ensures State() == PaymentAndTerms(old(State()), d, backend)
    {
      ghost var L0 := State();
      DrawOnPage([SectionTitle("Payment Plan", currentY)]);
      currentY := currentY + 20;
      DrawOnPage(TotalBanner(d, backend, currentY));
      currentY := currentY + 25;
      DrawOnPage(InstallmentHeader(currentY));
      currentY := currentY + 12;
      ghost var L3 := State();
      assert L3 == Advance(Emit(Advance(Emit(Advance(Emit(L0, [SectionTitle("Payment Plan", L0.y)]), 20),
                                             TotalBanner(d, backend, L0.y + 20)), 25),
                                InstallmentHeader(L0.y + 45)), 12);
      DrawInstallments(Installments(d));
      currentY := currentY + 20;
      ghost var L4 := State();
      assert L4 == PaymentPlan(L0, d, backend);
      DrawOnPage([SectionTitle("Visa Details", currentY)]);
      currentY := currentY + 15;
      DrawOnPage(VisaBox(currentY));
      currentY := currentY + 30;
      assert State() == VisaDetails(L4);
      DrawOnPage(CallToAction(currentY));
      AddFooter();
    }

    /** generatePDF: builds the whole document and returns the name it is saved
        under (the download itself is not modelled). */
    method GeneratePDF(d: ItineraryData) returns (fileName: string)
      modifies this
      ensures State() == Generate(d, backend)
      ensures fileName == FileName(d.trip.customerName, d.trip.destination)
    {
      pages := [[]];
      currentY := Margin;
      GenerateCoverPage(d.trip);
      GenerateDailyItinerary(d.trip.days);
      AddNewPage();
      GenerateFlightAndHotelDetails(d.trip);
      AddNewPage();
      GeneratePaymentAndTerms(d);
      fileName := FileName(d.trip.customerName, d.trip.destination);
    }
  }

  // ------------------------------------------------------------ file name

  /** The characters the regular-expression class `\s` matches. */
  predicate IsWhitespace(c: char) {
    c == ' ' || c == '\t' || c == '\n' || c == '\r' || c == '\U{000B}' || c == '\U{000C}'
    || c == '\U{00A0}' || c == '\U{1680}' || ('\U{2000}' <= c <= '\U{200A}')
    || c == '\U{2028}' || c == '\U{2029}' || c == '\U{202F}' || c == '\U{205F}'
    || c == '\U{3000}' || c == '\U{FEFF}'
  }

  predicate NoWhitespace(s: string) {
    forall i :: 0 <= i < |s| ==> !IsWhitespace(s[i])
  }

  /** `s` without its leading run of whitespace. */
  function DropWhitespace(s: string): (r: string)
    ensures |r| <= |s|
    ensures s != [] && IsWhitespace(s[0]) ==> |r| < |s|
  {
    if s != [] && IsWhitespace(s[0]) then DropWhitespace(s[1..]) else s
  }

  /** What is dropped is the longest whitespace prefix: a suffix remains that
      is empty or starts with another character. */
  lemma {:induction false} DropWhitespaceFacts(s: string)
    ensures var r := DropWhitespace(s);
            r == s[|s| - |r|..] && (r == [] || !IsWhitespace(r[0]))
            && forall i :: 0 <= i < |s| - |r| ==> IsWhitespace(s[i])
    decreases |s|
  {
    if s != [] && IsWhitespace(s[0]) {
      DropWhitespaceFacts(s[1..]);
      var r := DropWhitespace(s);
      assert forall i :: 1 <= i < |s| - |r| ==> s[i] == s[1..][i - 1];
    }
  }

  /** `s.replace(/\s+/g, '_')`: every maximal run of whitespace becomes one '_'. */
  function CollapseWhitespace(s: string): (r: string)
    ensures |r| <= |s|
    decreases |s|
  {
    if s == [] then []
    else if IsWhitespace(s[0]) then "_" + CollapseWhitespace(DropWhitespace(s))
    else [s[0]] + CollapseWhitespace(s[1..])
  }

  /** The collapsed name has no whitespace left. */
  lemma {:induction false} CollapseHasNoWhitespace(s: string)
    ensures NoWhitespace(CollapseWhitespace(s))
    decreases |s|
  {
    if s != [] {
      var rest := if IsWhitespace(s[0]) then DropWhitespace(s) else s[1..];
      CollapseHasNoWhitespace(rest);
      var c := CollapseWhitespace(rest);
      var head := if IsWhitespace(s[0]) then '_' else s[0];
      assert CollapseWhitespace(s) == [head] + c;
      assert forall i :: 1 <= i < |c| + 1 ==> ([head] + c)[i] == c[i - 1];
    }
  }

  /** The name the document is saved under. */
  function FileName(customerName: string, destination: string): string {
    CollapseWhitespace(customerName) + "_" + destination + "_Itinerary.pdf"
  }

  /** A name without whitespace is kept as it is. */
  lemma {:induction false} CollapseWithoutWhitespace(s: string)
    requires NoWhitespace(s)
    ensures CollapseWhitespace(s) == s
    decreases |s|
  {
    if s != [] {
      assert NoWhitespace(s[1..]) by {
        forall i | 0 <= i < |s| - 1 ensures !IsWhitespace(s[1..][i]) {
          assert s[1..][i] == s[i + 1];
        }
      }
      CollapseWithoutWhitespace(s[1..]);
    }
  }

  /** Dropping a whitespace run stops at the first other character. */
  lemma {:induction false} DropWhitespaceRun(w: string, rest: string)
    requires forall i :: 0 <= i < |w| ==> IsWhitespace(w[i])
    requires rest == [] || !IsWhitespace(rest[0])
    ensures DropWhitespace(w + rest) == rest
    decreases |w|
  {
    if w != [] {
      assert (w + rest)[1..] == w[1..] + rest;
      DropWhitespaceRun(w[1..], rest);
    }
  }

  /** A word, a whitespace run and the rest: the run becomes one '_' between
      the word and the collapsed rest. */
  lemma {:induction false} CollapseRun(word: string, w: string, rest: string)
    requires NoWhitespace(word)
    requires |w| > 0 && forall i :: 0 <= i < |w| ==> IsWhitespace(w[i])
    requires rest == [] || !IsWhitespace(rest[0])
    ensures CollapseWhitespace(word + w + rest) == word + "_" + CollapseWhitespace(rest)
    decreases |word|
  {
    if word == [] {
      assert word + w + rest == w + rest;
      DropWhitespaceRun(w, rest);
    } else {
      assert (word + w + rest)[1..] == word[1..] + w + rest;
      assert NoWhitespace(word[1..]) by {
        forall i | 0 <= i < |word| - 1 ensures !IsWhitespace(word[1..][i]) {
          assert word[1..][i] == word[i + 1];
        }
      }
      assert !IsWhitespace(word[0]);
      CollapseRun(word[1..], w, rest);
    }
  }

  /** The file name is the collapsed customer name, which has no whitespace,
      then '_', the destination as given, and "_Itinerary.pdf". */
  lemma FileNameParts(customerName: string, destination: string)
    ensures var r := FileName(customerName, destination);
            var k := |r| - |destination| - 15;
            0 <= k <= |customerName| && r[..k] == CollapseWhitespace(customerName)
            && NoWhitespace(r[..k]) && r[k..] == "_" + destination + "_Itinerary.pdf"
  {
    var c := CollapseWhitespace(customerName);
    var r := FileName(customerName, destination);
    CollapseHasNoWhitespace(customerName);
    assert r == c + ("_" + destination + "_Itinerary.pdf");
    assert r[..|c|] == c;
  }

  /** A first and last name separated by one space are joined by '_', as
      "Jane Doe" travelling to "Singapore" gives Jane_Doe_Singapore_Itinerary.pdf. */
  lemma FileNameOfTwoWords(first: string, last: string, destination: string)
    requires NoWhitespace(first) && NoWhitespace(last)
    ensures FileName(first + " " + last, destination) == first + "_" + last + "_" + destination + "_Itinerary.pdf"
  {
    CollapseWithoutWhitespace(last);
    CollapseRun(first, " ", last);
  }

  /** A customer name without whitespace is used as it is; the destination is
      always used as given, whitespace included. */
  lemma FileNameKeepsDestination(customerName: string, destination: string)
    requires NoWhitespace(customerName)
    ensures FileName(customerName, destination) == customerName + "_" + destination + "_Itinerary.pdf"
  {
    CollapseWithoutWhitespace(customerName);
  }
}
