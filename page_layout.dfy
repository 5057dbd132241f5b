/** What PDFGenerator draws, as functions from the document and cursor before a
    step to the document and cursor after it. Each section of the report is one
    function; the class DocBuilder (module PdfGenerator) performs the same
    steps in place and is proved to end in the state these functions give. */
module PageLayout {
  import opened Draw
  import opened Trip
  import opened Decimal
  import DateHelpers

  // ---------------------------------------------------------------- geometry

  /** A4 portrait in millimetres, with a 20 mm margin. */
  const PageHeight: int := 297
  const PageWidth: real := 210.0
  const Margin: int := 20
  const MarginX: real := Margin as real
  /** The width between the two margins: 170. */
  const ContentWidth: real := PageWidth - 2.0 * MarginX
  /** The baseline of the footer line: 282. */
  const FooterY: int := PageHeight - 15
  const ContactLine: string :=
    "Vigovia Tech Pvt. Ltd | Phone: +91-99X9999999 | Email: Contact@Vigovia.Com"

  // ------------------------------------------------- the rendering backend

  type LineCount = n: nat | n >= 1 witness 1

  /** The calls into libraries whose results the layout only positions: date
      formatting (date-fns `format`), number formatting (`toLocaleString`),
      and jsPDF's `splitTextToSize` at the fixed wrap width, which yields at
      least one line for a non-empty text. */
  datatype Backend = Backend(
    formatDate: int -> string,
    formatAmount: int -> string,
    wrapLines: string -> LineCount)

  /** PDFGenerator.formatDate: '' for a missing date. */
  function FormatDate(d: DateHelpers.DateValue, b: Backend): (s: string)
    ensures d == DateHelpers.NoDate ==> s == ""
    ensures d.Date? ==> s == b.formatDate(d.ms)
  {
    if d == DateHelpers.NoDate then "" else b.formatDate(d.ms)
  }

  /** PDFGenerator.calculateNights, the same computation as the date helper's. */
  function CalculateNights(departure: DateHelpers.DateValue, returnDate: DateHelpers.DateValue): (n: nat)
    ensures n == DateHelpers.CalculateNights(departure, returnDate)
  {
    if departure == DateHelpers.NoDate || returnDate == DateHelpers.NoDate then 0
    else DateHelpers.CeilDiv(DateHelpers.Abs(returnDate.ms - departure.ms), DateHelpers.MsPerDay)
  }

  // ------------------------------------------------------- pages and footer

  function FooterCommands(): seq<DrawCommand> {
    [ Text("vigovia", MarginX, FooterY, Left),
      Text("PLAN.PACK.GO", MarginX + 40.0, FooterY, Left),
      Text(ContactLine, PageWidth - MarginX, FooterY, Right) ]
  }

  /** The footer is three texts on one line 15 units above the page bottom. */
  lemma FooterAtBottom()
    ensures |FooterCommands()| == 3
    ensures forall k :: 0 <= k < 3 ==> FooterCommands()[k].Text? && FooterCommands()[k].y == PageHeight - 15
  {
  }

  /** addFooter: stamps the footer on the current page; the cursor stays. */
  function Footer(L: Layout): (r: Layout)
    requires HasPage(L)
  {
    Emit(L, FooterCommands())
  }

  /** addNewPage: a new empty page, the cursor back at the top margin, and the
      footer stamped on the new page. */
  function NewPage(L: Layout): (r: Layout)
    ensures HasPage(r)
  {
    Footer(Layout(L.pages + [[]], Margin))
  }

  /** addNewPage appends exactly one page, which holds only the footer, leaves
      the earlier pages alone and puts the cursor at the top margin. */
  lemma NewPageFacts(L: Layout)
    ensures NewPage(L).pages == L.pages + [FooterCommands()]
    ensures NewPage(L).y == Margin
  {
    AppendToNewPage(L.pages, FooterCommands());
  }

  // ------------------------------------------------------ breakable blocks

  /** The content blocks before which the cursor is checked against the
      bottom threshold. */
  datatype Block =
    | DayHeader(day: DayPlan, index: nat)
    | ActivityEntry(activity: Activity)
    | FlightCard(flight: Flight)
    | HotelRow(hotel: Hotel, index: nat)

  /** A new page is opened before the block when the cursor is below this. */
  function BreakLimit(blk: Block): int {
    match blk
    case DayHeader(_, _) => PageHeight - 80
    case ActivityEntry(_) => PageHeight - 60
    case FlightCard(_) => PageHeight - 60
    case HotelRow(_, _) => PageHeight - 40
  }

  /** Where a block starts when the cursor is at `y`. */
  function StartY(y: int, blk: Block): (s: int)
    ensures s <= BreakLimit(blk)
    ensures s == y || s == Margin
  {
    if y > BreakLimit(blk) then Margin else y
  }

  /** offsetY after the title line of an activity (lines 185-190). */
  function TitleOffset(a: Activity): nat {
    7 + (if a.title != "" then 6 else 0)
  }

  /** offsetY after the wrapped description (lines 193-197). */
  function DescriptionOffset(a: Activity, b: Backend): nat {
    TitleOffset(a) + (if a.description != "" then b.wrapLines(a.description) * 4 + 2 else 0)
  }

  /** offsetY after the duration line (lines 200-205). */
  function DurationOffset(a: Activity, b: Backend): nat {
    DescriptionOffset(a, b) + (if a.duration != "" then 10 else 0)
  }

  /** How far one activity moves the cursor: the closed form of the offsets. */
  function ActivityHeight(a: Activity, b: Backend): (h: nat)
    ensures h == 13 + (if a.title != "" then 6 else 0)
                    + (if a.description != "" then 4 * b.wrapLines(a.description) + 2 else 0)
                    + (if a.duration != "" then 10 else 0)
  {
    DurationOffset(a, b) + 6
  }

  function DayHeaderCommands(day: DayPlan, index: nat, b: Backend, y: int): seq<DrawCommand> {
    [ Circle(MarginX + 8.0, y + 5, 8),
      Text(NatToString(index + 1), MarginX + 8.0, y + 7, Center),
      Text("Day " + NatToString(index + 1), MarginX + 25.0, y + 5, Left) ]
    + (if day.date.Date? then [Text(FormatDate(day.date, b), MarginX + 25.0, y + 12, Left)] else [])
  }

  function ActivityCommands(a: Activity, b: Backend, y: int): seq<DrawCommand> {
    [ Line(MarginX + 8.0, y - 5, MarginX + 8.0, y + 10),
      Circle(MarginX + 8.0, y + 2, 3),
      Text(if a.time != "" then a.time else "Morning", MarginX + 20.0, y, Left) ]
    + (if a.title != "" then [Text("\U{2022} " + a.title, MarginX + 20.0, y + 7, Left)] else [])
    + (if a.description != ""
       then [Paragraph(a.description, b.wrapLines(a.description), MarginX + 22.0, y + TitleOffset(a))]
       else [])
    + (if a.duration != ""
       then [Text("Duration: " + a.duration, MarginX + 22.0, y + DescriptionOffset(a, b), Left)]
       else [])
  }

  function FlightCommands(f: Flight, b: Backend, y: int): seq<DrawCommand> {
    [ Rect(MarginX, y, ContentWidth, 25),
      Text(FormatDate(f.date, b), MarginX + 5.0, y + 8, Left),
      Text("Fly " + f.airline + " From " + f.from + " To " + f.to, MarginX + 5.0, y + 16, Left) ]
    + (if f.departure != "" && f.arrival != ""
       then [Text("Departure: " + f.departure + " | Arrival: " + f.arrival, MarginX + 5.0, y + 22, Left)]
       else [])
  }

  /** The hotel table has five equal columns across the content width. */
  const HotelColumnWidth: real := ContentWidth / 5.0

  /** The x at which the text of column `k` starts. */
  function HotelColumnX(k: nat): real {
    MarginX + (k as real) * HotelColumnWidth + 2.0
  }

  const HotelColumnTitles: seq<string> := ["City", "Check In", "Check Out", "Nights", "Hotel Name"]

  /** The table header: one 12-unit bar and the five column titles. */
  function HotelHeaderCommands(y: int): (r: seq<DrawCommand>)
    ensures |r| == 6 && r[0] == Rect(MarginX, y, ContentWidth, 12)
    ensures forall k :: 0 <= k < 5 ==> r[k + 1] == Text(HotelColumnTitles[k], HotelColumnX(k), y + 8, Left)
  {
    [Rect(MarginX, y, ContentWidth, 12)]
    + seq(5, k requires 0 <= k < 5 => Text(HotelColumnTitles[k], HotelColumnX(k), y + 8, Left))
  }

  /** `hotel.nights?.toString() || ''`. */
  function NightsText(nights: Option<nat>): string {
    match nights
    case None => ""
    case Some(n) => NatToString(n)
  }

  /** One 12-unit hotel row, shaded (a filled band) exactly when its index is even. */
  function HotelRowCommands(h: Hotel, index: nat, b: Backend, y: int): seq<DrawCommand> {
    var cells := [ Text(h.city, HotelColumnX(0), y + 8, Left),
                   Text(FormatDate(h.checkIn, b), HotelColumnX(1), y + 8, Left),
                   Text(FormatDate(h.checkOut, b), HotelColumnX(2), y + 8, Left),
                   Text(NightsText(h.nights), HotelColumnX(3), y + 8, Left),
                   Text(h.name, HotelColumnX(4), y + 8, Left) ];
    if index % 2 == 0 then [Rect(MarginX, y, ContentWidth, 12)] + cells else cells
  }

  /** A hotel row is shaded (a filled band across the row) exactly when its
      index is even, and all its text lies inside the row. */
  lemma HotelRowFacts(h: Hotel, index: nat, b: Backend, y: int)
    ensures var r := HotelRowCommands(h, index, b, y);
            (exists k :: 0 <= k < |r| && r[k].Rect?) <==> index % 2 == 0
    ensures var r := HotelRowCommands(h, index, b, y);
            forall k :: 0 <= k < |r| && r[k].Rect? ==> r[k] == Rect(MarginX, y, ContentWidth, 12)
    ensures var r := HotelRowCommands(h, index, b, y);
            forall k :: 0 <= k < |r| && r[k].Text? ==> y < r[k].y <= y + 12
  {
    var r := HotelRowCommands(h, index, b, y);
    if index % 2 == 0 {
      assert r[0].Rect?;
    }
  }

  function BlockCommands(blk: Block, b: Backend, y: int): seq<DrawCommand> {
    match blk
    case DayHeader(day, index) => DayHeaderCommands(day, index, b, y)
    case ActivityEntry(a) => ActivityCommands(a, b, y)
    case FlightCard(f) => FlightCommands(f, b, y)
    case HotelRow(h, index) => HotelRowCommands(h, index, b, y)
  }

  /** How far a block moves the cursor. */
  function BlockHeight(blk: Block, b: Backend): nat {
    match blk
    case DayHeader(_, _) => 20
    case ActivityEntry(a) => ActivityHeight(a, b)
    case FlightCard(_) => 35
    case HotelRow(_, _) => 12
  }

  /** Check the cursor against the block's threshold, open a new page if it is
      below it, draw the block, and move the cursor past it. */
  function PlaceBlock(L: Layout, blk: Block, b: Backend): (r: Layout)
    requires HasPage(L)
    ensures HasPage(r)
  {
    var B := if L.y > BreakLimit(blk) then NewPage(L) else L;
    Layout(AppendToLast(B.pages, BlockCommands(blk, b, B.y)), B.y + BlockHeight(blk, b))
  }

  /** A block whose threshold the cursor has not passed is drawn at the
      cursor on the current page. */
  lemma PlaceBlockInPlace(L: Layout, blk: Block, b: Backend)
    requires HasPage(L) && L.y <= BreakLimit(blk)
    ensures PlaceBlock(L, blk, b).pages == AppendToLast(L.pages, BlockCommands(blk, b, L.y))
  {
  }

  /** A block whose threshold the cursor has passed is drawn at the top margin
      of one new page, after that page's footer. */
  lemma PlaceBlockOnNewPage(L: Layout, blk: Block, b: Backend)
    requires HasPage(L) && L.y > BreakLimit(blk)
    ensures PlaceBlock(L, blk, b).pages == L.pages + [FooterCommands() + BlockCommands(blk, b, Margin)]
  {
    NewPageFacts(L);
    AppendToNewPage(L.pages, FooterCommands() + BlockCommands(blk, b, Margin));
  }

  /** The cursor ends just below the block, wherever the block started. */
  lemma PlaceBlockCursor(L: Layout, blk: Block, b: Backend)
    requires HasPage(L)
    ensures PlaceBlock(L, blk, b).y == StartY(L.y, blk) + BlockHeight(blk, b)
  {
  }

  /** Place the blocks one after another. */
  function PlaceBlocks(L: Layout, blks: seq<Block>, b: Backend): (r: Layout)
    requires HasPage(L)
    ensures HasPage(r)
    decreases |blks|
  {
    if blks == [] then L else PlaceBlocks(PlaceBlock(L, blks[0], b), blks[1..], b)
  }

  /** Placing the blocks from position `i` on is placing block `i` and then the rest. */
  lemma PlaceBlocksStep(L: Layout, blks: seq<Block>, i: nat, b: Backend)
    requires HasPage(L) && i < |blks|
    ensures PlaceBlocks(L, blks[i..], b) == PlaceBlocks(PlaceBlock(L, blks[i], b), blks[i + 1..], b)
  {
    assert blks[i..][1..] == blks[i + 1..];
  }

  function ActivityEntries(acts: seq<Activity>): (r: seq<Block>)
    ensures |r| == |acts| && forall k :: 0 <= k < |acts| ==> r[k] == ActivityEntry(acts[k])
  {
    seq(|acts|, k requires 0 <= k < |acts| => ActivityEntry(acts[k]))
  }

  function FlightCards(flights: seq<Flight>): (r: seq<Block>)
    ensures |r| == |flights| && forall k :: 0 <= k < |flights| ==> r[k] == FlightCard(flights[k])
  {
    seq(|flights|, k requires 0 <= k < |flights| => FlightCard(flights[k]))
  }

  /** One row per hotel, each carrying its position in the input. */
  function HotelRows(hotels: seq<Hotel>): (r: seq<Block>)
    ensures |r| == |hotels| && forall k :: 0 <= k < |hotels| ==> r[k] == HotelRow(hotels[k], k)
  {
    seq(|hotels|, k requires 0 <= k < |hotels| => HotelRow(hotels[k], k))
  }

  // ---------------------------------------------------------------- cover

  function TripLengthText(nights: nat): string {
    NatToString(nights + 1) + " Days " + NatToString(nights) + " Nights"
  }

  function CoverBanner(t: TripForm): seq<DrawCommand> {
    [ Rect(0.0, 0, PageWidth, 60),
      Text("vigovia", PageWidth / 2.0, 25, Center),
      Text("PLAN.PACK.GO ", PageWidth / 2.0, 35, Center),
      Text("Hi, " + t.customerName + "!", PageWidth / 2.0, 48, Center) ]
  }

  /** The trip details box: a 40-unit band, five labels and their values. */
  function DetailsBox(t: TripForm, b: Backend, y: int): seq<DrawCommand> {
    var d := y + 10;
    [ Rect(MarginX, y, ContentWidth, 40),
      Text("Departure From:", MarginX + 5.0, d, Left),
      Text("Departure:", MarginX + 5.0, d + 7, Left),
      Text("Arrival:", MarginX + 5.0, d + 14, Left),
      Text("Destination:", MarginX + 5.0, d + 21, Left),
      Text("No. Of Travellers:", MarginX + 5.0, d + 28, Left),
      Text(t.departureFrom, MarginX + 40.0, d, Left),
      Text(FormatDate(t.departureDate, b), MarginX + 40.0, d + 7, Left),
      Text(FormatDate(t.returnDate, b), MarginX + 40.0, d + 14, Left),
      Text(t.destination, MarginX + 40.0, d + 21, Left),
      Text(NatToString(t.travelers), MarginX + 40.0, d + 28, Left) ]
  }

  /** generateCoverPage: draws on the current page without any page-break
      check, whatever the cursor was, and leaves the cursor at 165. */
  function Cover(L: Layout, t: TripForm, b: Backend): (r: Layout)
    requires HasPage(L)
    ensures HasPage(r)
  {
    var L1 := Emit(L, CoverBanner(t));
    var L2 := L1.(y := 80);
    var L3 := Emit(L2, [Text(t.destination + " Itinerary", PageWidth / 2.0, L2.y, Center)]);
    var L4 := Advance(L3, 15);
    var nights := CalculateNights(t.departureDate, t.returnDate);
    var L5 := Emit(L4, [Text(TripLengthText(nights), PageWidth / 2.0, L4.y, Center)]);
    var L6 := Advance(L5, 10);
    var L7 := Emit(L6, DetailsBox(t, b, L6.y));
    var L8 := Advance(L7, 60);
    Footer(L8)
  }

  // ------------------------------------------------------ daily itinerary

  function SectionTitle(title: string, y: int): DrawCommand {
    Text(title, MarginX, y, Left)
  }

  /** One day: its header block (checked against 217), its activities (each
      checked against 237), then 10 units of space. */
  function PlaceDay(L: Layout, day: DayPlan, index: nat, b: Backend): (r: Layout)
    requires HasPage(L)
    ensures HasPage(r)
  {
    Advance(PlaceBlocks(PlaceBlock(L, DayHeader(day, index), b), ActivityEntries(day.activities), b), 10)
  }

  /** The days from position `index` on. */
  function PlaceDays(L: Layout, days: seq<DayPlan>, index: nat, b: Backend): (r: Layout)
    requires HasPage(L)
    ensures HasPage(r)
    decreases |days|
  {
    if days == [] then L else PlaceDays(PlaceDay(L, days[0], index, b), days[1..], index + 1, b)
  }

  /** generateDailyItinerary. */
  function DailyItinerary(L: Layout, days: seq<DayPlan>, b: Backend): (r: Layout)
    requires HasPage(L)
    ensures HasPage(r)
  {
    var L1 := Advance(Emit(L, [SectionTitle("Daily Itinerary", L.y)]), 20);
    Footer(PlaceDays(L1, days, 0, b))
  }

  // ----------------------------------------------------- flights and hotels

  /** The hotel table: the header once, then the rows (no header after a break). */
  function HotelTable(L: Layout, hotels: seq<Hotel>, b: Backend): (r: Layout)
    requires HasPage(L)
    ensures HasPage(r)
  {
    PlaceBlocks(Advance(Emit(L, HotelHeaderCommands(L.y)), 12), HotelRows(hotels), b)
  }

  /** The first half of generateFlightAndHotelDetails: the title, one card
      per flight (each checked against 237), then 15 units of space. */
  function FlightSummary(L: Layout, t: TripForm, b: Backend): (r: Layout)
    requires HasPage(L)
    ensures HasPage(r)
  {
    var L1 := Advance(Emit(L, [SectionTitle("Flight Summary", L.y)]), 20);
    Advance(PlaceBlocks(L1, FlightCards(t.flights), b), 15)
  }

  /** The second half: the title, then the hotel table when there is a hotel. */
  function HotelBookings(L: Layout, t: TripForm, b: Backend): (r: Layout)
    requires HasPage(L)
    ensures HasPage(r)
  {
    var L1 := Advance(Emit(L, [SectionTitle("Hotel Bookings", L.y)]), 20);
    if |t.hotels| > 0 then HotelTable(L1, t.hotels, b) else L1
  }

  /** generateFlightAndHotelDetails. */
  function FlightsAndHotels(L: Layout, t: TripForm, b: Backend): (r: Layout)
    requires HasPage(L)
    ensures HasPage(r)
  {
    Footer(HotelBookings(FlightSummary(L, t, b), t, b))
  }

  // ----------------------------------------------------- payment and terms

  datatype Installment = Installment(name: string, amount: int, due: string)

  /** The three installments. The third is what remains of the total after the
      first two, and is not clamped at zero. */
  function Installments(d: ItineraryData): (r: seq<Installment>)
    ensures |r| == 3
    ensures r[0].amount == d.trip.installment1 && r[1].amount == d.trip.installment2
    ensures r[2].amount + r[0].amount + r[1].amount == d.totalAmount
  {
    [ Installment("Installment 1", d.trip.installment1, "Initial Payment"),
      Installment("Installment 2", d.trip.installment2, "Post Visa Approval"),
      Installment("Installment 3", d.totalAmount - d.trip.installment1 - d.trip.installment2,
                  "20 Days Before Departure") ]
  }

  /** The amount cell: the formatted amount, or 'Remaining' when it is not positive. */
  function AmountText(amount: int, b: Backend): (s: string)
    ensures s == "Remaining" <==> amount <= 0
  {
    if amount > 0 then
      var s := "Rs" + b.formatAmount(amount);
      assert s[1] == 's' != "Remaining"[1];
      s
    else "Remaining"
  }

  /** The payment table has three equal columns across the content width. */
  const PaymentColumnWidth: real := ContentWidth / 3.0

  function PaymentColumnX(k: nat): real {
    MarginX + (k as real) * PaymentColumnWidth + 5.0
  }

  function TotalBanner(d: ItineraryData, b: Backend, y: int): seq<DrawCommand> {
    [ Rect(MarginX, y, ContentWidth, 15),
      Text("Total Amount", MarginX + 5.0, y + 8, Left),
      Text(TotalText(d, b), MarginX + 50.0, y + 8, Left) ]
  }

  function TotalText(d: ItineraryData, b: Backend): string {
    "Rs " + b.formatAmount(d.totalAmount) + " For " + NatToString(d.trip.travelers)
    + " Pax (Inclusive Of GST)"
  }

  function InstallmentHeader(y: int): seq<DrawCommand> {
    [ Rect(MarginX, y, ContentWidth, 12),
      Text("Installment", PaymentColumnX(0), y + 8, Left),
      Text("Amount", PaymentColumnX(1), y + 8, Left),
      Text("Due Date", PaymentColumnX(2), y + 8, Left) ]
  }

  /** One 12-unit installment row, shaded exactly when its index is even. */
  function InstallmentRowCommands(inst: Installment, index: nat, b: Backend, y: int): seq<DrawCommand> {
    var cells := [ Text(inst.name, PaymentColumnX(0), y + 8, Left),
                   Text(AmountText(inst.amount, b), PaymentColumnX(1), y + 8, Left),
                   Text(inst.due, PaymentColumnX(2), y + 8, Left) ];
    if index % 2 == 0 then [Rect(MarginX, y, ContentWidth, 12)] + cells else cells
  }

  lemma InstallmentRowFacts(inst: Installment, index: nat, b: Backend, y: int)
    ensures var r := InstallmentRowCommands(inst, index, b, y);
            ((exists k :: 0 <= k < |r| && r[k].Rect?) <==> index % 2 == 0) &&
            Text(AmountText(inst.amount, b), PaymentColumnX(1), y + 8, Left) in r
  {
    var r := InstallmentRowCommands(inst, index, b, y);
    if index % 2 == 0 {
      assert r[0].Rect? && r[2].Text?;
    } else {
      assert r[1].Text?;
    }
  }

  /** The installment rows from position `index` on; there is no break check. */
  function PlaceInstallments(L: Layout, insts: seq<Installment>, index: nat, b: Backend): (r: Layout)
    requires HasPage(L)
    ensures HasPage(r)
    decreases |insts|
  {
    if insts == [] then L
    else PlaceInstallments(Advance(Emit(L, InstallmentRowCommands(insts[0], index, b, L.y)), 12),
                           insts[1..], index + 1, b)
  }

  /** Placing the rows from position `i` on is placing row `i` and then the rest. */
  lemma PlaceInstallmentsStep(L: Layout, insts: seq<Installment>, i: nat, b: Backend)
    requires HasPage(L) && i < |insts|
    ensures PlaceInstallments(L, insts[i..], i, b)
            == PlaceInstallments(Advance(Emit(L, InstallmentRowCommands(insts[i], i, b, L.y)), 12),
                                 insts[i + 1..], i + 1, b)
  {
    assert insts[i..][1..] == insts[i + 1..];
  }

  function VisaBox(y: int): seq<DrawCommand> {
    [ Rect(MarginX, y, ContentWidth, 20),
      Text("Visa Type: Tourist", MarginX + 5.0, y + 8, Left),
      Text("Validity: 30 Days", MarginX + 60.0, y + 8, Left),
      Text("Processing Date: 14/06/2025", MarginX + 120.0, y + 8, Left) ]
  }

  function CallToAction(y: int): seq<DrawCommand> {
    [ Rect(MarginX, y, ContentWidth, 30),
      Text("PLAN.PACK.GO!", PageWidth / 2.0, y + 20, Center) ]
  }

  /** The first half of generatePaymentAndTerms: the title, the total, the
      table header and the three rows, then 20 units of space. */
  function PaymentPlan(L: Layout, d: ItineraryData, b: Backend): (r: Layout)
    requires HasPage(L)
    ensures HasPage(r)
  {
    var L1 := Advance(Emit(L, [SectionTitle("Payment Plan", L.y)]), 20);
    var L2 := Advance(Emit(L1, TotalBanner(d, b, L1.y)), 25);
    var L3 := Advance(Emit(L2, InstallmentHeader(L2.y)), 12);
    Advance(PlaceInstallments(L3, Installments(d), 0, b), 20)
  }

  /** The visa section: its title and its box. */
  function VisaDetails(L: Layout): (r: Layout)
    requires HasPage(L)
    ensures HasPage(r)
  {
    var L1 := Advance(Emit(L, [SectionTitle("Visa Details", L.y)]), 15);
    Advance(Emit(L1, VisaBox(L1.y)), 30)
  }

  /** generatePaymentAndTerms. */
  function PaymentAndTerms(L: Layout, d: ItineraryData, b: Backend): (r: Layout)
    requires HasPage(L)
    ensures HasPage(r)
  {
    var L1 := VisaDetails(PaymentPlan(L, d, b));
    Footer(Emit(L1, CallToAction(L1.y)))
  }

  // ------------------------------------------------------------ the document

  /** A fresh jsPDF document: one empty page, the cursor at the top margin. */
  const Start: Layout := Layout([[]], Margin)

  /** generatePDF: cover, daily itinerary, a forced break, flights and hotels,
      a forced break, payment and terms. */
  function Generate(d: ItineraryData, b: Backend): (r: Layout)
    ensures HasPage(r)
  {
    var L1 := Cover(Start, d.trip, b);
    var L2 := DailyItinerary(L1, d.trip.days, b);
    var L3 := NewPage(L2);
    var L4 := FlightsAndHotels(L3, d.trip, b);
    var L5 := NewPage(L4);
    PaymentAndTerms(L5, d, b)
  }
}
