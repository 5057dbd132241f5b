/** Properties of the layout functions of PageLayout: where blocks are drawn
    and where pages break, what each section draws and where it leaves the
    cursor, and the page structure of the whole document. */
module LayoutProperties {
  import opened Draw
  import opened Trip
  import opened PageLayout
  import DateHelpers
  import Decimal

  // ---------------------------------------------------------------- geometry

  /** The five hotel columns are 34 wide and together span the content width. */
  lemma HotelColumnsSpanContent()
    ensures HotelColumnWidth == 34.0
    ensures MarginX + 5.0 * HotelColumnWidth == PageWidth - MarginX
  {
  }

  /** The three payment columns together span the content width. */
  lemma PaymentColumnsSpanContent()
    ensures 3.0 * PaymentColumnWidth == ContentWidth
  {
  }

  // ---------------------------------------------------- drawing in sequence

  /** Two draws on the current page are one draw of both command lists. */
  lemma AppendToLastTwice(pages: seq<Page>, a: seq<DrawCommand>, c: seq<DrawCommand>)
    requires |pages| > 0
    ensures AppendToLast(AppendToLast(pages, a), c) == AppendToLast(pages, a + c)
  {
    var n := |pages| - 1;
    assert pages[n] + a + c == pages[n] + (a + c);
  }

  /** addNewPage only adds a page. */
  lemma NewPageExtends(L: Layout)
    requires HasPage(L)
    ensures Extends(L, NewPage(L)) && |NewPage(L).pages| == |L.pages| + 1
  {
    NewPageFacts(L);
    assert (L.pages + [FooterCommands()])[..|L.pages| - 1] == L.pages[..|L.pages| - 1];
  }

  // ------------------------------------------------------- breakable blocks

  /** The commands that placing `blks` from cursor `y` adds, in order: for each
      block, the footer of a new page when the cursor is past the block's
      threshold, then the block drawn where it starts. */
  function Stream(y: int, blks: seq<Block>, b: Backend): seq<DrawCommand>
    decreases |blks|
  {
    if blks == [] then []
    else StreamHead(y, blks[0], b) + Stream(StartY(y, blks[0]) + BlockHeight(blks[0], b), blks[1..], b)
  }

  /** What placing one block from cursor `y` adds. */
  function StreamHead(y: int, blk: Block, b: Backend): seq<DrawCommand> {
    (if y > BreakLimit(blk) then FooterCommands() else []) + BlockCommands(blk, b, StartY(y, blk))
  }

  /** The cursor at which each block is drawn. */
  function Starts(y: int, blks: seq<Block>, b: Backend): seq<int>
    decreases |blks|
  {
    if blks == [] then []
    else
      var s := StartY(y, blks[0]);
      [s] + Starts(s + BlockHeight(blks[0], b), blks[1..], b)
  }

  /** The cursor after the last block. */
  function EndY(y: int, blks: seq<Block>, b: Backend): int
    decreases |blks|
  {
    if blks == [] then y
    else EndY(StartY(y, blks[0]) + BlockHeight(blks[0], b), blks[1..], b)
  }

  /** How many new pages placing `blks` from cursor `y` opens. */
  function Breaks(y: int, blks: seq<Block>, b: Backend): nat
    decreases |blks|
  {
    if blks == [] then 0
    else
      (if y > BreakLimit(blks[0]) then 1 else 0)
      + Breaks(StartY(y, blks[0]) + BlockHeight(blks[0], b), blks[1..], b)
  }

  /** Every block is drawn at or above its threshold: day headers at 217 or
      less, activities and flight cards at 237 or less, hotel rows at 257 or less. */
  lemma {:induction false} StartsBelowLimit(y: int, blks: seq<Block>, b: Backend)
    ensures |Starts(y, blks, b)| == |blks|
    ensures forall k :: 0 <= k < |blks| ==> Starts(y, blks, b)[k] <= BreakLimit(blks[k])
    decreases |blks|
  {
    if blks != [] {
      var s := StartY(y, blks[0]);
      StartsBelowLimit(s + BlockHeight(blks[0], b), blks[1..], b);
      var rest := Starts(s + BlockHeight(blks[0], b), blks[1..], b);
      assert forall k :: 1 <= k < |blks| ==> Starts(y, blks, b)[k] == rest[k - 1] && blks[k] == blks[1..][k - 1];
    }
  }

  /** `Starts` are where the loop draws: block `k` starts where placing the
      blocks before it leaves the cursor, moved to the margin if it breaks. */
  lemma {:induction false} StartsArePlaced(L: Layout, blks: seq<Block>, b: Backend, k: nat)
    requires HasPage(L) && k < |blks|
    ensures |Starts(L.y, blks, b)| == |blks|
    ensures Starts(L.y, blks, b)[k] == StartY(PlaceBlocks(L, blks[..k], b).y, blks[k])
    decreases k
  {
    StartsBelowLimit(L.y, blks, b);
    if k == 0 {
      assert blks[..0] == [];
    } else {
      var M := PlaceBlock(L, blks[0], b);
      PlaceBlockCursor(L, blks[0], b);
      StartsArePlaced(M, blks[1..], b, k - 1);
      assert blks[..k][1..] == blks[1..][..k - 1];
      assert blks[..k][0] == blks[0] && blks[1..][k - 1] == blks[k];
      assert PlaceBlocks(L, blks[..k], b) == PlaceBlocks(M, blks[1..][..k - 1], b);
    }
  }

  /** The total height of the blocks. */
  function TotalHeight(blks: seq<Block>, b: Backend): int
    decreases |blks|
  {
    if blks == [] then 0 else BlockHeight(blks[0], b) + TotalHeight(blks[1..], b)
  }

  /** No block starts below its threshold when placed from `y` one after another. */
  predicate Fits(y: int, blks: seq<Block>, b: Backend)
    decreases |blks|
  {
    blks == [] || (y <= BreakLimit(blks[0]) && Fits(y + BlockHeight(blks[0], b), blks[1..], b))
  }

  /** Blocks that fit open no page and move the cursor by their total height. */
  lemma {:induction false} EndYWithoutBreaks(y: int, blks: seq<Block>, b: Backend)
    requires Fits(y, blks, b)
    ensures EndY(y, blks, b) == y + TotalHeight(blks, b)
    ensures Breaks(y, blks, b) == 0
    decreases |blks|
  {
    if blks != [] {
      EndYWithoutBreaks(y + BlockHeight(blks[0], b), blks[1..], b);
    }
  }

  /** The break test compares the cursor with the threshold and never looks at
      the block's height. The fixed-height blocks still end above the footer
      line: a day header by 237, a flight card by 272, a hotel row by 269. */
  lemma FixedBlocksEndAboveFooter(y: int, blk: Block, b: Backend)
    requires !blk.ActivityEntry?
    ensures StartY(y, blk) + BlockHeight(blk, b) <= BreakLimit(blk) + BlockHeight(blk, b) < FooterY
  {
  }

  /** An activity has no such bound: one with a title, a duration and a
      description wrapped to 12 lines, drawn at 237 without a break, ends at
      316, below the bottom of the page. */
  lemma LongActivityPassesPageBottom(a: Activity, b: Backend)
    requires a.title != "" && a.description != "" && a.duration != "" && b.wrapLines(a.description) == 12
    ensures StartY(BreakLimit(ActivityEntry(a)), ActivityEntry(a)) == 237
    ensures 237 + BlockHeight(ActivityEntry(a), b) == 316 > PageHeight
  {
  }

  lemma PlaceBlockExtendsInPlace(L: Layout, blk: Block, b: Backend)
    requires HasPage(L) && L.y <= BreakLimit(blk)
    ensures Extends(L, PlaceBlock(L, blk, b)) && |PlaceBlock(L, blk, b).pages| == |L.pages|
  {
    PlaceBlockInPlace(L, blk, b);
    AppendToLastFacts(L.pages, BlockCommands(blk, b, L.y));
  }

  lemma PlaceBlockExtendsOnNewPage(L: Layout, blk: Block, b: Backend)
    requires HasPage(L) && L.y > BreakLimit(blk)
    ensures Extends(L, PlaceBlock(L, blk, b)) && |PlaceBlock(L, blk, b).pages| == |L.pages| + 1
  {
    PlaceBlockOnNewPage(L, blk, b);
    var p := FooterCommands() + BlockCommands(blk, b, Margin);
    assert (L.pages + [p])[..|L.pages| - 1] == L.pages[..|L.pages| - 1];
  }

  /** Placing a block only adds to the document, and opens a page exactly when
      the cursor is below the block's threshold. */
  lemma PlaceBlockExtends(L: Layout, blk: Block, b: Backend)
    requires HasPage(L)
    ensures Extends(L, PlaceBlock(L, blk, b))
    ensures |PlaceBlock(L, blk, b).pages| == |L.pages| + (if L.y > BreakLimit(blk) then 1 else 0)
  {
    if L.y <= BreakLimit(blk) {
      PlaceBlockExtendsInPlace(L, blk, b);
    } else {
      PlaceBlockExtendsOnNewPage(L, blk, b);
    }
  }

  lemma PlaceBlockFlattenInPlace(L: Layout, blk: Block, b: Backend)
    requires HasPage(L) && L.y <= BreakLimit(blk)
    ensures Flatten(PlaceBlock(L, blk, b).pages) == Flatten(L.pages) + StreamHead(L.y, blk, b)
  {
    PlaceBlockInPlace(L, blk, b);
    FlattenAppendToLast(L.pages, BlockCommands(blk, b, L.y));
  }

  lemma PlaceBlockFlattenOnNewPage(L: Layout, blk: Block, b: Backend)
    requires HasPage(L) && L.y > BreakLimit(blk)
    ensures Flatten(PlaceBlock(L, blk, b).pages) == Flatten(L.pages) + StreamHead(L.y, blk, b)
  {
    PlaceBlockOnNewPage(L, blk, b);
    FlattenAppendPage(L.pages, FooterCommands() + BlockCommands(blk, b, Margin));
  }

  /** Placing a block draws its stream head: the footer of the page it closes,
      if any, then the block where it starts. */
  lemma PlaceBlockFlatten(L: Layout, blk: Block, b: Backend)
    requires HasPage(L)
    ensures Flatten(PlaceBlock(L, blk, b).pages) == Flatten(L.pages) + StreamHead(L.y, blk, b)
  {
    if L.y <= BreakLimit(blk) {
      PlaceBlockFlattenInPlace(L, blk, b);
    } else {
      PlaceBlockFlattenOnNewPage(L, blk, b);
    }
  }

  /** Placing blocks leaves finished pages alone and only grows the current one. */
  lemma {:induction false} PlaceBlocksExtends(L: Layout, blks: seq<Block>, b: Backend)
    requires HasPage(L)
    ensures Extends(L, PlaceBlocks(L, blks, b))
    decreases |blks|
  {
    if blks == [] {
      ExtendsReflexive(L);
    } else {
      var M := PlaceBlock(L, blks[0], b);
      PlaceBlockExtends(L, blks[0], b);
      PlaceBlocksExtends(M, blks[1..], b);
      ExtendsTransitive(L, M, PlaceBlocks(M, blks[1..], b));
    }
  }

  /** Placing blocks opens one page per break and ends the cursor at `EndY`. */
  lemma {:induction false} PlaceBlocksCursor(L: Layout, blks: seq<Block>, b: Backend)
    requires HasPage(L)
    ensures |PlaceBlocks(L, blks, b).pages| == |L.pages| + Breaks(L.y, blks, b)
    ensures PlaceBlocks(L, blks, b).y == EndY(L.y, blks, b)
    decreases |blks|
  {
    if blks != [] {
      PlaceBlockCursor(L, blks[0], b);
      PlaceBlockExtends(L, blks[0], b);
      PlaceBlocksCursor(PlaceBlock(L, blks[0], b), blks[1..], b);
    }
  }

  /** Placing blocks draws exactly their stream, in order. */
  lemma {:induction false} PlaceBlocksFlatten(L: Layout, blks: seq<Block>, b: Backend)
    requires HasPage(L)
    ensures Flatten(PlaceBlocks(L, blks, b).pages) == Flatten(L.pages) + Stream(L.y, blks, b)
    decreases |blks|
  {
    if blks != [] {
      var M := PlaceBlock(L, blks[0], b);
      PlaceBlockCursor(L, blks[0], b);
      PlaceBlockFlatten(L, blks[0], b);
      PlaceBlocksFlatten(M, blks[1..], b);
      assert Stream(L.y, blks, b) == StreamHead(L.y, blks[0], b) + Stream(M.y, blks[1..], b);
      ConcatAssoc(Flatten(L.pages), StreamHead(L.y, blks[0], b), Stream(M.y, blks[1..], b));
    }
  }

  // ------------------------------------------------------- daily itinerary

  /** A day is its header block followed by one block per activity. */
  function DayBlocks(day: DayPlan, index: nat): seq<Block> {
    [DayHeader(day, index)] + ActivityEntries(day.activities)
  }

  /** A day places its header and activities as one run of blocks, then adds 10. */
  lemma PlaceDayAsBlocks(L: Layout, day: DayPlan, index: nat, b: Backend)
    requires HasPage(L)
    ensures PlaceDay(L, day, index, b) == Advance(PlaceBlocks(L, DayBlocks(day, index), b), 10)
  {
    var blks := DayBlocks(day, index);
    assert blks[0] == DayHeader(day, index) && blks[1..] == ActivityEntries(day.activities);
  }

  /** What placing the days from position `index` on draws. */
  function DaysStream(y: int, days: seq<DayPlan>, index: nat, b: Backend): seq<DrawCommand>
    decreases |days|
  {
    if days == [] then []
    else
      var blks := DayBlocks(days[0], index);
      Stream(y, blks, b) + DaysStream(EndY(y, blks, b) + 10, days[1..], index + 1, b)
  }

  /** The cursor after the last of the days. */
  function DaysEndY(y: int, days: seq<DayPlan>, index: nat, b: Backend): int
    decreases |days|
  {
    if days == [] then y
    else DaysEndY(EndY(y, DayBlocks(days[0], index), b) + 10, days[1..], index + 1, b)
  }

  lemma {:induction false} PlaceDaysExtends(L: Layout, days: seq<DayPlan>, index: nat, b: Backend)
    requires HasPage(L)
    ensures Extends(L, PlaceDays(L, days, index, b))
    decreases |days|
  {
    if days == [] {
      ExtendsReflexive(L);
    } else {
      var M := PlaceDay(L, days[0], index, b);
      PlaceDayAsBlocks(L, days[0], index, b);
      PlaceBlocksExtends(L, DayBlocks(days[0], index), b);
      PlaceDaysExtends(M, days[1..], index + 1, b);
      ExtendsTransitive(L, M, PlaceDays(M, days[1..], index + 1, b));
    }
  }

  /** The days draw their streams one after another, each day's cursor
      arithmetic continuing where the last day ended plus 10. */
  lemma {:induction false} PlaceDaysFlatten(L: Layout, days: seq<DayPlan>, index: nat, b: Backend)
    requires HasPage(L)
    ensures Flatten(PlaceDays(L, days, index, b).pages) == Flatten(L.pages) + DaysStream(L.y, days, index, b)
    ensures PlaceDays(L, days, index, b).y == DaysEndY(L.y, days, index, b)
    decreases |days|
  {
    if days != [] {
      var blks := DayBlocks(days[0], index);
      var M := PlaceDay(L, days[0], index, b);
      PlaceDayAsBlocks(L, days[0], index, b);
      PlaceBlocksFlatten(L, blks, b);
      PlaceBlocksCursor(L, blks, b);
      PlaceDaysFlatten(M, days[1..], index + 1, b);
      ConcatAssoc(Flatten(L.pages), Stream(L.y, blks, b), DaysStream(M.y, days[1..], index + 1, b));
    }
  }

  /** What generateDailyItinerary draws from cursor `y`. */
  function DailySection(y: int, days: seq<DayPlan>, b: Backend): seq<DrawCommand> {
    [SectionTitle("Daily Itinerary", y)] + DaysStream(y + 20, days, 0, b) + FooterCommands()
  }

  /** generateDailyItinerary draws its title on the current page and then only
      adds to the document. */
  lemma DailyItineraryExtends(L: Layout, days: seq<DayPlan>, b: Backend)
    requires HasPage(L)
    ensures Extends(Emit(L, [SectionTitle("Daily Itinerary", L.y)]), DailyItinerary(L, days, b))
  {
    var L0 := Emit(L, [SectionTitle("Daily Itinerary", L.y)]);
    PlaceDaysExtends(Advance(L0, 20), days, 0, b);
    ExtendsThenEmit(L0, PlaceDays(Advance(L0, 20), days, 0, b), FooterCommands());
  }

  /** generateDailyItinerary draws the title, the days and the footer, in that
      order. */
  lemma DailyItineraryEffect(L: Layout, days: seq<DayPlan>, b: Backend)
    requires HasPage(L)
    ensures Flatten(DailyItinerary(L, days, b).pages) == Flatten(L.pages) + DailySection(L.y, days, b)
  {
    var title := [SectionTitle("Daily Itinerary", L.y)];
    var L1 := Advance(Emit(L, title), 20);
    PlaceDaysFlatten(L1, days, 0, b);
    FlattenAround(L.pages, title, PlaceDays(L1, days, 0, b).pages, DaysStream(L1.y, days, 0, b), FooterCommands());
  }

  /** generateDailyItinerary leaves the cursor where the last day ended. */
  lemma DailyItineraryCursor(L: Layout, days: seq<DayPlan>, b: Backend)
    requires HasPage(L)
    ensures DailyItinerary(L, days, b).y == DaysEndY(L.y + 20, days, 0, b)
  {
    PlaceDaysFlatten(Advance(Emit(L, [SectionTitle("Daily Itinerary", L.y)]), 20), days, 0, b);
  }

  // ----------------------------------------------------- flights and hotels

  /** What the hotel table draws with its header at `y`: nothing for no hotel,
      otherwise the header once and then the row blocks. */
  function HotelStream(y: int, hotels: seq<Hotel>, b: Backend): seq<DrawCommand> {
    if |hotels| > 0 then HotelHeaderCommands(y) + Stream(y + 12, HotelRows(hotels), b) else []
  }

  /** The cursor after the flight cards and the 15 units below them. */
  function AfterFlights(y: int, t: TripForm, b: Backend): int {
    EndY(y + 20, FlightCards(t.flights), b) + 15
  }

  /** What the flight summary draws from cursor `y`: its title, then the cards. */
  function FlightPart(y: int, t: TripForm, b: Backend): seq<DrawCommand> {
    [SectionTitle("Flight Summary", y)] + Stream(y + 20, FlightCards(t.flights), b)
  }

  /** What the hotel bookings draw from cursor `y`: their title, then the table. */
  function HotelPart(y: int, t: TripForm, b: Backend): seq<DrawCommand> {
    [SectionTitle("Hotel Bookings", y)] + HotelStream(y + 20, t.hotels, b)
  }

  /** What generateFlightAndHotelDetails draws from cursor `y`. */
  function FlightsSection(y: int, t: TripForm, b: Backend): seq<DrawCommand> {
    FlightPart(y, t, b) + HotelPart(AfterFlights(y, t, b), t, b) + FooterCommands()
  }

  /** The hotel table only adds to the document. */
  lemma HotelTableExtends(L: Layout, hotels: seq<Hotel>, b: Backend)
    requires HasPage(L)
    ensures Extends(L, HotelTable(L, hotels, b))
  {
    var L1 := Advance(Emit(L, HotelHeaderCommands(L.y)), 12);
    EmitExtends(L, HotelHeaderCommands(L.y));
    PlaceBlocksExtends(L1, HotelRows(hotels), b);
    ExtendsTransitive(L, L1, HotelTable(L, hotels, b));
  }

  /** The hotel table draws its header once and then the rows, breaking pages
      only between rows. */
  lemma HotelTableEffect(L: Layout, hotels: seq<Hotel>, b: Backend)
    requires HasPage(L) && |hotels| > 0
    ensures Flatten(HotelTable(L, hotels, b).pages) == Flatten(L.pages) + HotelStream(L.y, hotels, b)
    ensures HotelTable(L, hotels, b).y == EndY(L.y + 12, HotelRows(hotels), b)
  {
    var L1 := Advance(Emit(L, HotelHeaderCommands(L.y)), 12);
    FlattenAppendToLast(L.pages, HotelHeaderCommands(L.y));
    PlaceBlocksFlatten(L1, HotelRows(hotels), b);
    PlaceBlocksCursor(L1, HotelRows(hotels), b);
    ConcatAssoc(Flatten(L.pages), HotelHeaderCommands(L.y), Stream(L.y + 12, HotelRows(hotels), b));
  }

  /** The flight summary draws its title on the current page and then only
      adds to the document. */
  lemma FlightSummaryExtends(L: Layout, t: TripForm, b: Backend)
    requires HasPage(L)
    ensures Extends(Emit(L, [SectionTitle("Flight Summary", L.y)]), FlightSummary(L, t, b))
  {
    var L0 := Emit(L, [SectionTitle("Flight Summary", L.y)]);
    PlaceBlocksExtends(Advance(L0, 20), FlightCards(t.flights), b);
  }

  /** The flight summary draws its title and then the flight card blocks. */
  lemma FlightSummaryEffect(L: Layout, t: TripForm, b: Backend)
    requires HasPage(L)
    ensures Flatten(FlightSummary(L, t, b).pages) == Flatten(L.pages) + FlightPart(L.y, t, b)
  {
    var title := [SectionTitle("Flight Summary", L.y)];
    var L1 := Advance(Emit(L, title), 20);
    FlattenAppendToLast(L.pages, title);
    PlaceBlocksFlatten(L1, FlightCards(t.flights), b);
    ConcatAssoc(Flatten(L.pages), title, Stream(L.y + 20, FlightCards(t.flights), b));
  }

  /** The flight summary leaves the cursor 15 below the last card. */
  lemma FlightSummaryCursor(L: Layout, t: TripForm, b: Backend)
    requires HasPage(L)
    ensures FlightSummary(L, t, b).y == AfterFlights(L.y, t, b)
  {
    var L1 := Advance(Emit(L, [SectionTitle("Flight Summary", L.y)]), 20);
    PlaceBlocksCursor(L1, FlightCards(t.flights), b);
  }

  lemma HotelBookingsExtends(L: Layout, t: TripForm, b: Backend)
    requires HasPage(L)
    ensures Extends(L, HotelBookings(L, t, b))
  {
    var L1 := Advance(Emit(L, [SectionTitle("Hotel Bookings", L.y)]), 20);
    EmitExtends(L, [SectionTitle("Hotel Bookings", L.y)]);
    if |t.hotels| > 0 {
      HotelTableExtends(L1, t.hotels, b);
      ExtendsTransitive(L, L1, HotelBookings(L, t, b));
    }
  }

  /** The hotel bookings draw their title and then the hotel table. */
  lemma HotelBookingsEffect(L: Layout, t: TripForm, b: Backend)
    requires HasPage(L)
    ensures Flatten(HotelBookings(L, t, b).pages) == Flatten(L.pages) + HotelPart(L.y, t, b)
  {
    var title := [SectionTitle("Hotel Bookings", L.y)];
    var L1 := Advance(Emit(L, title), 20);
    FlattenAppendToLast(L.pages, title);
    if |t.hotels| > 0 {
      HotelTableEffect(L1, t.hotels, b);
    }
    ConcatAssoc(Flatten(L.pages), title, HotelStream(L.y + 20, t.hotels, b));
  }

  /** Where the hotel bookings leave the cursor. */
  lemma HotelBookingsCursor(L: Layout, t: TripForm, b: Backend)
    requires HasPage(L)
    ensures HotelBookings(L, t, b).y
            == if |t.hotels| > 0 then EndY(L.y + 32, HotelRows(t.hotels), b) else L.y + 20
  {
    var L1 := Advance(Emit(L, [SectionTitle("Hotel Bookings", L.y)]), 20);
    if |t.hotels| > 0 {
      HotelTableEffect(L1, t.hotels, b);
    }
  }

  /** generateFlightAndHotelDetails draws its title on the current page and
      then only adds to the document. */
  lemma FlightsAndHotelsExtends(L: Layout, t: TripForm, b: Backend)
    requires HasPage(L)
    ensures Extends(Emit(L, [SectionTitle("Flight Summary", L.y)]), FlightsAndHotels(L, t, b))
  {
    var L0 := Emit(L, [SectionTitle("Flight Summary", L.y)]);
    var L1 := FlightSummary(L, t, b);
    var L2 := HotelBookings(L1, t, b);
    FlightSummaryExtends(L, t, b);
    HotelBookingsExtends(L1, t, b);
    ExtendsTransitive(L0, L1, L2);
    EmitExtends(L2, FooterCommands());
    ExtendsTransitive(L0, L2, Footer(L2));
  }

  /** generateFlightAndHotelDetails draws the flight title, the flight cards,
      the hotel title, the hotel table (when there is a hotel) and the footer,
      in that order. */
  lemma FlightsAndHotelsEffect(L: Layout, t: TripForm, b: Backend)
    requires HasPage(L)
    ensures Flatten(FlightsAndHotels(L, t, b).pages) == Flatten(L.pages) + FlightsSection(L.y, t, b)
  {
    var L1 := FlightSummary(L, t, b);
    var L2 := HotelBookings(L1, t, b);
    FlightSummaryEffect(L, t, b);
    FlightSummaryCursor(L, t, b);
    HotelBookingsEffect(L1, t, b);
    FlattenAppendToLast(L2.pages, FooterCommands());
    ConcatAssoc(Flatten(L.pages), FlightPart(L.y, t, b), HotelPart(L1.y, t, b));
    ConcatAssoc(Flatten(L.pages), FlightPart(L.y, t, b) + HotelPart(L1.y, t, b), FooterCommands());
  }

  /** Where generateFlightAndHotelDetails leaves the cursor. */
  lemma FlightsAndHotelsCursor(L: Layout, t: TripForm, b: Backend)
    requires HasPage(L)
    ensures FlightsAndHotels(L, t, b).y
            == if |t.hotels| > 0 then EndY(AfterFlights(L.y, t, b) + 32, HotelRows(t.hotels), b)
               else AfterFlights(L.y, t, b) + 20
  {
    FlightSummaryCursor(L, t, b);
    HotelBookingsCursor(FlightSummary(L, t, b), t, b);
  }

  // ----------------------------------------------------- payment and terms

  /** The installment rows from position `index` on, the first at `y`. */
  function InstallmentRows(insts: seq<Installment>, index: nat, b: Backend, y: int): seq<DrawCommand>
    decreases |insts|
  {
    if insts == [] then []
    else InstallmentRowCommands(insts[0], index, b, y) + InstallmentRows(insts[1..], index + 1, b, y + 12)
  }

  /** The installment rows all go on the current page, 12 units apart. */
  lemma {:induction false} PlaceInstallmentsEffect(L: Layout, insts: seq<Installment>, index: nat, b: Backend)
    requires HasPage(L)
    ensures PlaceInstallments(L, insts, index, b)
            == Layout(AppendToLast(L.pages, InstallmentRows(insts, index, b, L.y)), L.y + 12 * |insts|)
    decreases |insts|
  {
    var n := |L.pages| - 1;
    if insts == [] {
      assert L.pages[n] + [] == L.pages[n];
    } else {
      var row := InstallmentRowCommands(insts[0], index, b, L.y);
      var M := Advance(Emit(L, row), 12);
      PlaceInstallmentsEffect(M, insts[1..], index + 1, b);
      AppendToLastTwice(L.pages, row, InstallmentRows(insts[1..], index + 1, b, M.y));
    }
  }

  /** The payment table has exactly three rows; rows 0 and 2 are shaded and
      row 1 is not; the third row's amount is what the first two leave of the
      total, shown as 'Remaining' when it is not positive. */
  lemma PaymentRows(d: ItineraryData, b: Backend, y: int)
    ensures var insts := Installments(d);
            InstallmentRows(insts, 0, b, y)
            == InstallmentRowCommands(insts[0], 0, b, y) + InstallmentRowCommands(insts[1], 1, b, y + 12)
               + InstallmentRowCommands(insts[2], 2, b, y + 24)
    ensures var r := InstallmentRowCommands(Installments(d)[0], 0, b, y); exists k :: 0 <= k < |r| && r[k].Rect?
    ensures var r := InstallmentRowCommands(Installments(d)[1], 1, b, y + 12); forall k :: 0 <= k < |r| ==> !r[k].Rect?
    ensures var r := InstallmentRowCommands(Installments(d)[2], 2, b, y + 24); exists k :: 0 <= k < |r| && r[k].Rect?
    ensures Text(AmountText(d.totalAmount - d.trip.installment1 - d.trip.installment2, b), PaymentColumnX(1), y + 32, Left)
            in InstallmentRowCommands(Installments(d)[2], 2, b, y + 24)
  {
    var insts := Installments(d);
    assert insts[1..][1..][1..] == [];
    assert InstallmentRows(insts[1..][1..], 2, b, y + 24) == InstallmentRowCommands(insts[2], 2, b, y + 24);
    InstallmentRowFacts(insts[0], 0, b, y);
    InstallmentRowFacts(insts[1], 1, b, y + 12);
    InstallmentRowFacts(insts[2], 2, b, y + 24);
  }

  /** What generatePaymentAndTerms draws from cursor `y`, all on one page. */
  function PaymentSection(d: ItineraryData, b: Backend, y: int): seq<DrawCommand> {
    [SectionTitle("Payment Plan", y)] + TotalBanner(d, b, y + 20) + InstallmentHeader(y + 45)
    + InstallmentRows(Installments(d), 0, b, y + 57) + [SectionTitle("Visa Details", y + 113)]
    + VisaBox(y + 128) + CallToAction(y + 158) + FooterCommands()
  }

  /** The payment plan stays on the current page and moves the cursor by 113. */
  lemma PaymentPlanEffect(L: Layout, d: ItineraryData, b: Backend)
    requires HasPage(L)
    ensures PaymentPlan(L, d, b)
            == Layout(AppendToLast(L.pages, [SectionTitle("Payment Plan", L.y)] + TotalBanner(d, b, L.y + 20)
                                            + InstallmentHeader(L.y + 45)
                                            + InstallmentRows(Installments(d), 0, b, L.y + 57)),
                      L.y + 113)
  {
    var y := L.y;
    var c1 := [SectionTitle("Payment Plan", y)];
    var c2 := TotalBanner(d, b, y + 20);
    var c3 := InstallmentHeader(y + 45);
    var c4 := InstallmentRows(Installments(d), 0, b, y + 57);
    var L1 := Advance(Emit(L, c1), 20);
    var L2 := Advance(Emit(L1, c2), 25);
    var L3 := Advance(Emit(L2, c3), 12);
    PlaceInstallmentsEffect(L3, Installments(d), 0, b);
    AppendToLastTwice(L.pages, c1, c2);
    AppendToLastTwice(L.pages, c1 + c2, c3);
    AppendToLastTwice(L.pages, c1 + c2 + c3, c4);
  }

  /** The visa section stays on the current page and moves the cursor by 45. */
  lemma VisaDetailsEffect(L: Layout)
    requires HasPage(L)
    ensures VisaDetails(L) == Layout(AppendToLast(L.pages, [SectionTitle("Visa Details", L.y)] + VisaBox(L.y + 15)),
                                     L.y + 45)
  {
    AppendToLastTwice(L.pages, [SectionTitle("Visa Details", L.y)], VisaBox(L.y + 15));
  }

  /** generatePaymentAndTerms opens no page, draws its section and the footer
      on the current page, and moves the cursor down by 158. */
  lemma PaymentAndTermsEffect(L: Layout, d: ItineraryData, b: Backend)
    requires HasPage(L)
    ensures PaymentAndTerms(L, d, b) == Layout(AppendToLast(L.pages, PaymentSection(d, b, L.y)), L.y + 158)
  {
    var y := L.y;
    var plan := [SectionTitle("Payment Plan", y)] + TotalBanner(d, b, y + 20) + InstallmentHeader(y + 45)
                + InstallmentRows(Installments(d), 0, b, y + 57);
    var visa := [SectionTitle("Visa Details", y + 113)];
    var box := VisaBox(y + 128);
    var L4 := PaymentPlan(L, d, b);
    PaymentPlanEffect(L, d, b);
    VisaDetailsEffect(L4);
    AppendToLastTwice(L.pages, plan, visa + box);
    ConcatAssoc(plan, visa, box);
    AppendToLastTwice(L.pages, plan + visa + box, CallToAction(y + 158));
    AppendToLastTwice(L.pages, plan + visa + box + CallToAction(y + 158), FooterCommands());
  }

  // ------------------------------------------------------------------ cover

  /** What generateCoverPage draws: the banner, the title at 80, the trip
      length at 95, the details box at 105 and the footer. */
  function CoverSection(t: TripForm, b: Backend): seq<DrawCommand> {
    CoverBanner(t) + [Text(t.destination + " Itinerary", PageWidth / 2.0, 80, Center)]
    + [Text(TripLengthText(CalculateNights(t.departureDate, t.returnDate)), PageWidth / 2.0, 95, Center)]
    + DetailsBox(t, b, 105) + FooterCommands()
  }

  /** generateCoverPage draws on the current page whatever the cursor was,
      opens no page, and leaves the cursor at 165. */
  lemma CoverEffect(L: Layout, t: TripForm, b: Backend)
    requires HasPage(L)
    ensures Cover(L, t, b) == Layout(AppendToLast(L.pages, CoverSection(t, b)), 165)
  {
    var c1 := CoverBanner(t);
    var c2 := [Text(t.destination + " Itinerary", PageWidth / 2.0, 80, Center)];
    var c3 := [Text(TripLengthText(CalculateNights(t.departureDate, t.returnDate)), PageWidth / 2.0, 95, Center)];
    var c4 := DetailsBox(t, b, 105);
    AppendToLastTwice(L.pages, c1, c2);
    AppendToLastTwice(L.pages, c1 + c2, c3);
    AppendToLastTwice(L.pages, c1 + c2 + c3, c4);
    AppendToLastTwice(L.pages, c1 + c2 + c3 + c4, FooterCommands());
  }

  /** The cover prints "<n+1> Days <n> Nights" for the nights between the
      departure and return dates. */
  lemma CoverShowsTripLength(t: TripForm, b: Backend)
    ensures var n := DateHelpers.CalculateNights(t.departureDate, t.returnDate);
            Text(Decimal.NatToString(n + 1) + " Days " + Decimal.NatToString(n) + " Nights", 105.0, 95, Center)
            in CoverSection(t, b)
  {
    var n := DateHelpers.CalculateNights(t.departureDate, t.returnDate);
    var c := CoverSection(t, b);
    assert c[|CoverBanner(t)| + 1] == Text(TripLengthText(n), PageWidth / 2.0, 95, Center);
  }

  // ----------------------------------------------------------- the document

  /** The whole document, page boundaries aside: the cover, the daily
      itinerary (which starts on the cover page at 165), the footer of the
      forced page, flights and hotels from the top margin, the footer of the
      second forced page, and the payment section from the top margin. */
  lemma GenerateStream(d: ItineraryData, b: Backend)
    ensures Flatten(Generate(d, b).pages)
            == CoverSection(d.trip, b) + DailySection(165, d.trip.days, b) + FooterCommands()
               + FlightsSection(Margin, d.trip, b) + FooterCommands() + PaymentSection(d, b, Margin)
  {
    var t := d.trip;
    var L1 := Cover(Start, t, b);
    CoverEffect(Start, t, b);
    AppendToNewPage([], CoverSection(t, b));
    assert L1.pages == [] + [CoverSection(t, b)];
    FlattenAppendPage([], CoverSection(t, b));
    var L2 := DailyItinerary(L1, t.days, b);
    DailyItineraryEffect(L1, t.days, b);
    var L3 := NewPage(L2);
    NewPageFacts(L2);
    FlattenAppendPage(L2.pages, FooterCommands());
    var L4 := FlightsAndHotels(L3, t, b);
    FlightsAndHotelsEffect(L3, t, b);
    var L5 := NewPage(L4);
    NewPageFacts(L4);
    FlattenAppendPage(L4.pages, FooterCommands());
    PaymentAndTermsEffect(L5, d, b);
    FlattenAppendToLast(L5.pages, PaymentSection(d, b, Margin));
  }

  /** The page structure: at least three pages; the first holds the cover and
      then the start of the daily itinerary; a later page, not the last, starts
      with the footer stamped by the forced break and then the flight summary
      title; the last page holds the footer of the second forced break, the
      payment section and, at its end, a second footer. The cursor ends at 178. */
  lemma GeneratePages(d: ItineraryData, b: Backend)
    ensures |Generate(d, b).pages| >= 3
    ensures CoverSection(d.trip, b) + [SectionTitle("Daily Itinerary", 165)] <= Generate(d, b).pages[0]
    ensures exists p :: 0 < p < |Generate(d, b).pages| - 1 &&
                        FooterCommands() + [SectionTitle("Flight Summary", Margin)] <= Generate(d, b).pages[p]
    ensures Generate(d, b).pages[|Generate(d, b).pages| - 1] == FooterCommands() + PaymentSection(d, b, Margin)
    ensures Generate(d, b).y == Margin + 158
  {
    var t := d.trip;
    var L1 := Cover(Start, t, b);
    CoverEffect(Start, t, b);
    AppendToNewPage([], CoverSection(t, b));
    assert L1.pages == [] + [CoverSection(t, b)] == [CoverSection(t, b)];
    var title := [SectionTitle("Daily Itinerary", 165)];
    var L2 := DailyItinerary(L1, t.days, b);
    DailyItineraryExtends(L1, t.days, b);
    assert Emit(L1, title).pages == [CoverSection(t, b) + title];
    assert CoverSection(t, b) + title <= L2.pages[0];
    var L3 := NewPage(L2);
    NewPageFacts(L2);
    var flight := [SectionTitle("Flight Summary", Margin)];
    var L4 := FlightsAndHotels(L3, t, b);
    FlightsAndHotelsExtends(L3, t, b);
    var E := Emit(L3, flight);
    AppendToLastFacts(L3.pages, flight);
    assert E.pages[..|L2.pages|] == L2.pages && E.pages[|L2.pages|] == FooterCommands() + flight;
    assert L4.pages[..|L2.pages|] == L2.pages;
    assert FooterCommands() + flight <= L4.pages[|L2.pages|];
    var L5 := NewPage(L4);
    NewPageFacts(L4);
    var L6 := PaymentAndTerms(L5, d, b);
    PaymentAndTermsEffect(L5, d, b);
    AppendToNewPage(L4.pages, FooterCommands() + PaymentSection(d, b, Margin));
    AppendToLastTwice(L4.pages + [[]], FooterCommands(), PaymentSection(d, b, Margin));
    assert L5.pages == AppendToLast(L4.pages + [[]], FooterCommands());
    assert L6.pages == L4.pages + [FooterCommands() + PaymentSection(d, b, Margin)];
    assert L6.pages[0] == L4.pages[..|L2.pages|][0] == L2.pages[0];
    assert L6.pages[|L2.pages|] == L4.pages[|L2.pages|];
  }

  // ------------------------------------------------------ footer on every page

  /** `L2` extends `L1`, and every page added since `L1` starts with the footer. */
  ghost predicate Grows(L1: Layout, L2: Layout) {
    Extends(L1, L2) && forall p :: |L1.pages| <= p < |L2.pages| ==> FooterCommands() <= L2.pages[p]
  }

  lemma GrowsReflexive(L: Layout)
    requires HasPage(L)
    ensures Grows(L, L)
  {
    ExtendsReflexive(L);
  }

  lemma GrowsTransitive(L1: Layout, L2: Layout, L3: Layout)
    requires Grows(L1, L2) && Grows(L2, L3)
    ensures Grows(L1, L3)
  {
    ExtendsTransitive(L1, L2, L3);
    forall p | |L1.pages| <= p < |L2.pages|
      ensures FooterCommands() <= L3.pages[p]
    {
      if p < |L2.pages| - 1 {
        ExtendsKeepsPage(L2, L3, p);
      } else {
        var f, q2, q3 := FooterCommands(), L2.pages[p], L3.pages[p];
        assert f == q2[..|f|] && q2 == q3[..|q2|];
        assert f == q3[..|f|];
      }
    }
  }

  /** Drawing on the current page adds no page. */
  lemma GrowsAppend(L: Layout, cmds: seq<DrawCommand>, y: int)
    requires HasPage(L)
    ensures Grows(L, Layout(AppendToLast(L.pages, cmds), y))
  {
    AppendToLastFacts(L.pages, cmds);
  }

  lemma GrowsThenAppend(L1: Layout, L2: Layout, cmds: seq<DrawCommand>, y: int)
    requires Grows(L1, L2)
    ensures Grows(L1, Layout(AppendToLast(L2.pages, cmds), y))
  {
    GrowsAppend(L2, cmds, y);
    GrowsTransitive(L1, L2, Layout(AppendToLast(L2.pages, cmds), y));
  }

  lemma GrowsNewPage(L: Layout)
    requires HasPage(L)
    ensures Grows(L, NewPage(L))
  {
    NewPageExtends(L);
    NewPageFacts(L);
  }

  lemma GrowsPlaceBlockOnNewPage(L: Layout, blk: Block, b: Backend)
    requires HasPage(L) && L.y > BreakLimit(blk)
    ensures Grows(L, PlaceBlock(L, blk, b))
  {
    PlaceBlockOnNewPage(L, blk, b);
    PlaceBlockExtendsOnNewPage(L, blk, b);
    var page := FooterCommands() + BlockCommands(blk, b, Margin);
    assert PlaceBlock(L, blk, b).pages[|L.pages|] == page;
    assert FooterCommands() <= page;
  }

  lemma GrowsPlaceBlock(L: Layout, blk: Block, b: Backend)
    requires HasPage(L)
    ensures Grows(L, PlaceBlock(L, blk, b))
  {
    if L.y > BreakLimit(blk) {
      GrowsPlaceBlockOnNewPage(L, blk, b);
    } else {
      PlaceBlockInPlace(L, blk, b);
      GrowsAppend(L, BlockCommands(blk, b, L.y), PlaceBlock(L, blk, b).y);
    }
  }

  lemma {:induction false} GrowsPlaceBlocks(L: Layout, blks: seq<Block>, b: Backend)
    requires HasPage(L)
    ensures Grows(L, PlaceBlocks(L, blks, b))
    decreases |blks|
  {
    if blks == [] {
      GrowsReflexive(L);
    } else {
      var M := PlaceBlock(L, blks[0], b);
      GrowsPlaceBlock(L, blks[0], b);
      GrowsPlaceBlocks(M, blks[1..], b);
      GrowsTransitive(L, M, PlaceBlocks(M, blks[1..], b));
    }
  }

  lemma GrowsPlaceDay(L: Layout, day: DayPlan, index: nat, b: Backend)
    requires HasPage(L)
    ensures Grows(L, PlaceDay(L, day, index, b))
  {
    var M := PlaceBlock(L, DayHeader(day, index), b);
    GrowsPlaceBlock(L, DayHeader(day, index), b);
    GrowsPlaceBlocks(M, ActivityEntries(day.activities), b);
    GrowsTransitive(L, M, PlaceBlocks(M, ActivityEntries(day.activities), b));
  }

  lemma {:induction false} GrowsPlaceDays(L: Layout, days: seq<DayPlan>, index: nat, b: Backend)
    requires HasPage(L)
    ensures Grows(L, PlaceDays(L, days, index, b))
    decreases |days|
  {
    if days == [] {
      GrowsReflexive(L);
    } else {
      var M := PlaceDay(L, days[0], index, b);
      GrowsPlaceDay(L, days[0], index, b);
      GrowsPlaceDays(M, days[1..], index + 1, b);
      GrowsTransitive(L, M, PlaceDays(M, days[1..], index + 1, b));
    }
  }

  lemma GrowsDailyItinerary(L: Layout, days: seq<DayPlan>, b: Backend)
    requires HasPage(L)
    ensures Grows(L, DailyItinerary(L, days, b))
  {
    var L1 := Advance(Emit(L, [SectionTitle("Daily Itinerary", L.y)]), 20);
    GrowsAppend(L, [SectionTitle("Daily Itinerary", L.y)], L.y + 20);
    var L2 := PlaceDays(L1, days, 0, b);
    GrowsPlaceDays(L1, days, 0, b);
    GrowsTransitive(L, L1, L2);
    GrowsThenAppend(L, L2, FooterCommands(), L2.y);
  }

  lemma GrowsFlightSummary(L: Layout, t: TripForm, b: Backend)
    requires HasPage(L)
    ensures Grows(L, FlightSummary(L, t, b))
  {
    var L1 := Advance(Emit(L, [SectionTitle("Flight Summary", L.y)]), 20);
    GrowsAppend(L, [SectionTitle("Flight Summary", L.y)], L.y + 20);
    GrowsPlaceBlocks(L1, FlightCards(t.flights), b);
    GrowsTransitive(L, L1, PlaceBlocks(L1, FlightCards(t.flights), b));
  }

  lemma GrowsHotelBookings(L: Layout, t: TripForm, b: Backend)
    requires HasPage(L)
    ensures Grows(L, HotelBookings(L, t, b))
  {
    var L1 := Advance(Emit(L, [SectionTitle("Hotel Bookings", L.y)]), 20);
    GrowsAppend(L, [SectionTitle("Hotel Bookings", L.y)], L.y + 20);
    if |t.hotels| > 0 {
      var L2 := Advance(Emit(L1, HotelHeaderCommands(L1.y)), 12);
      GrowsThenAppend(L, L1, HotelHeaderCommands(L1.y), L1.y + 12);
      GrowsPlaceBlocks(L2, HotelRows(t.hotels), b);
      GrowsTransitive(L, L2, HotelTable(L1, t.hotels, b));
    }
  }

  lemma GrowsFlightsAndHotels(L: Layout, t: TripForm, b: Backend)
    requires HasPage(L)
    ensures Grows(L, FlightsAndHotels(L, t, b))
  {
    var L1 := FlightSummary(L, t, b);
    GrowsFlightSummary(L, t, b);
    var L2 := HotelBookings(L1, t, b);
    GrowsHotelBookings(L1, t, b);
    GrowsTransitive(L, L1, L2);
    GrowsThenAppend(L, L2, FooterCommands(), L2.y);
  }

  /** Every page of the document carries the footer: the cover's `addFooter`
      stamps it on the first page, after the cover, and every later page,
      whether opened by a forced break or by a break inside a loop, starts
      with it. */
  lemma FooterOnEveryPage(d: ItineraryData, b: Backend)
    ensures exists cover :: cover + FooterCommands() <= Generate(d, b).pages[0]
    ensures forall p :: 1 <= p < |Generate(d, b).pages| ==> FooterCommands() <= Generate(d, b).pages[p]
  {
    var t := d.trip;
    var L1 := Cover(Start, t, b);
    CoverEffect(Start, t, b);
    GrowsAppend(Start, CoverSection(t, b), 165);
    var L2 := DailyItinerary(L1, t.days, b);
    GrowsDailyItinerary(L1, t.days, b);
    GrowsTransitive(Start, L1, L2);
    var L3 := NewPage(L2);
    GrowsNewPage(L2);
    GrowsTransitive(Start, L2, L3);
    var L4 := FlightsAndHotels(L3, t, b);
    GrowsFlightsAndHotels(L3, t, b);
    GrowsTransitive(Start, L3, L4);
    var L5 := NewPage(L4);
    GrowsNewPage(L4);
    GrowsTransitive(Start, L4, L5);
    var L6 := PaymentAndTerms(L5, d, b);
    PaymentAndTermsEffect(L5, d, b);
    GrowsAppend(L5, PaymentSection(d, b, L5.y), L5.y + 158);
    GrowsTransitive(Start, L5, L6);
    GeneratePages(d, b);
    var cover := CoverBanner(t) + [Text(t.destination + " Itinerary", PageWidth / 2.0, 80, Center)]
                 + [Text(TripLengthText(CalculateNights(t.departureDate, t.returnDate)), PageWidth / 2.0, 95, Center)]
                 + DetailsBox(t, b, 105);
    assert CoverSection(t, b) == cover + FooterCommands();
    var c, page := CoverSection(t, b), L6.pages[0];
    assert c == (c + [SectionTitle("Daily Itinerary", 165)])[..|c|];
    assert c == page[..|c|];
  }
}
