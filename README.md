# Travel itinerary generator: a Dafny model

The system is a web form for travel agents. The agent enters a customer, a
destination, the travel dates, a plan for each day (with its activities),
flights, hotels and two installments. The form estimates the price of the trip
as the agent types:

- 4000 per hotel night;
- 8000 per flight per traveler;
- 500 per activity per traveler.

It also shows what remains of that price after the two installments. On
submit, a document builder draws an A4 itinerary with jsPDF and saves it as
`<customer>_<destination>_Itinerary.pdf`. The builder is one object with a
single vertical write cursor. Its parts are drawn in this order:

1. The cover.
2. The daily plan.
3. A forced new page, then the flight summary and the hotel table.
4. A forced new page, then the payment plan, the visa notes and a call to action.

Before each day header, activity, flight card and hotel row, the cursor is
compared with a threshold and a new page is opened when it is past it. Every
new page gets the company footer, and so every page of the document carries
it (`FooterOnEveryPage`).

The model has eight modules:

| module | contents |
|---|---|
| `Trip` | The form's values. |
| `DateHelpers` | Nights between two dates, date formatting and adding days. `CalendarDate` is a small class, because `addDays` mutates a `Date` copy. |
| `Decimal` | The numerals printed in the document. |
| `Draw` | The jsPDF document: an append-only list of pages of draw commands, plus the cursor. |
| `PageLayout` | What each part of the builder draws and where it leaves the cursor, as functions on `Layout`. |
| `PdfGenerator` | The builder itself (`DocBuilder`, a class whose fields are the pages and `currentY`), and the file name. |
| `ItineraryGenerator` | The estimate, the remaining amount, the activity editing, and the form object (`ItineraryForm`) that submits to the builder. |
| `LayoutProperties` | What the layout guarantees: pages already left are never touched again, what every section draws and in which order, where the cursor ends, how many pages are opened, and the page structure of the whole document. |

Each `DocBuilder` method is proved to leave the builder in the state that the
matching `PageLayout` function computes from the old state. The loops of the
source (days, activities, flights, hotels and installments) are `while` loops
with invariants. Their cumulative effects are stated in `LayoutProperties`.

Four behaviours of the code that a reader might not expect, and that the
model keeps as written:

- Only the customer name has its whitespace replaced in the file name. The
  destination is used as given (`FileNameKeepsDestination`).
- A page opened by a break gets the footer when it is opened. The last page
  a section fills then gets the footer a second time when the section ends
  (`GeneratePages`: the last page starts with the footer and ends with
  another).
- The third installment printed in the document is total − installment 1 −
  installment 2 with no lower bound. It shows as "Remaining" when that is not
  positive. The on-screen remaining amount is clamped at 0
  (`RemainingMatchesDocument`).
- The break test compares only the cursor with a fixed threshold. It never
  checks whether the block fits. Day headers, flight cards and hotel rows
  still end above the footer line (`FixedBlocksEndAboveFooter`). An
  activity can run past the bottom of the page: one drawn at 237 whose
  description wraps to 12 lines ends at 316, while the page is 297 tall
  (`LongActivityPassesPageBottom`).

## Model

| member | source | states |
|---|---|---|
| Decimal.NatToString | src/components/PDFGenerator.js:96 | A number is printed as a non-empty string of digits without a leading zero; it is one digit long exactly when the number is below 10. |
| Decimal.ValueOfNatToString | src/components/PDFGenerator.js:120 | Reading a printed number back gives the number: printing loses nothing. |
| Decimal.NatToStringInjective | src/components/PDFGenerator.js:96 | Different numbers are printed differently. |
| DateHelpers.Abs | src/utils/dateHelpers.js:5 | `Math.abs`: the result is the argument or its negation, and it is never negative. |
| DateHelpers.CeilDiv | src/utils/dateHelpers.js:6 | `Math.ceil(n / d)` for n ≥ 0 and d > 0: the least q with q·d ≥ n. |
| DateHelpers.CeilQuotientUnique | src/utils/dateHelpers.js:6 | Only one number has that property. |
| DateHelpers.CalculateNights | src/utils/dateHelpers.js:1-7 | 0 when either date is missing. Otherwise the number of whole or started days between the two dates, in either order. |
| DateHelpers.NightsSymmetric | src/utils/dateHelpers.js:5 | Swapping the two dates gives the same number of nights. |
| DateHelpers.NightsSameDate | src/utils/dateHelpers.js:5-6 | Two equal dates are 0 nights apart. |
| DateHelpers.NightsBetweenMidnights | src/utils/dateHelpers.js:5-6 | Two instants exactly k days apart are \|k\| nights apart. |
| DateHelpers.FormatDate | src/utils/dateHelpers.js:9-17 | A missing date formats as the empty string. A present one is rendered by the date library. |
| DateHelpers.CalendarDate.constructor | src/utils/dateHelpers.js:20 | The copy holds the given day. |
| DateHelpers.CalendarDate.SetDay | src/utils/dateHelpers.js:21 | `setDate` replaces the day of that object only. |
| DateHelpers.AddDays | src/utils/dateHelpers.js:19-23 | Returns a new date object `days` after the argument, and leaves the argument unchanged. |
| DateHelpers.AddZeroDays | src/utils/dateHelpers.js:21 | Adding no days gives the same day. |
| DateHelpers.AddDaysCompose | src/utils/dateHelpers.js:21 | Adding m days and then n days is adding m + n days. |
| Draw.AppendToLast | src/components/PDFGenerator.js:68-83 | Drawing never adds or removes pages. |
| Draw.AppendToLastFacts | src/components/PDFGenerator.js:68-83 | Drawing changes only the current (last) page, and only by adding at its end. |
| Draw.AppendToNewPage | src/components/PDFGenerator.js:38-40 | Drawing on a page just added gives a page that holds exactly what was drawn. |
| Draw.ExtendsTransitive | src/components/PDFGenerator.js:37-41 | Growing the document twice is growing it. |
| Draw.ExtendsKeepsPage | src/components/PDFGenerator.js:37-41 | Once a newer page exists, an older page never changes again. |
| PageLayout.FormatDate | src/components/PDFGenerator.js:422-429 | The builder's date formatting gives the empty string for a missing date and the library rendering otherwise. |
| PageLayout.CalculateNights | src/components/PDFGenerator.js:414-420 | The builder's night count is the date helpers' night count. |
| PageLayout.FooterAtBottom | src/components/PDFGenerator.js:43-62 | The footer is three texts on the line 15 units above the bottom of the page. |
| PageLayout.NewPage | src/components/PDFGenerator.js:37-41 | After `addNewPage` the document has a current page. |
| PageLayout.NewPageFacts | src/components/PDFGenerator.js:37-41 | `addNewPage` appends exactly one page, which holds only the footer. It leaves the earlier pages alone and puts the cursor at the top margin (20). |
| PageLayout.StartY | src/components/PDFGenerator.js:136-138 | A block starts either at the cursor or, after a break, at the top margin. It never starts past its threshold. |
| PageLayout.ActivityHeight | src/components/PDFGenerator.js:185-208 | An activity takes 13 units, plus 6 if it has a title, plus 4 per description line and 2 if it has a description, plus 10 if it has a duration. |
| PageLayout.HotelHeaderCommands | src/components/PDFGenerator.js:270-281 | The hotel table header is one band followed by the five column titles. |
| PageLayout.HotelRowFacts | src/components/PDFGenerator.js:290-304 | A hotel row is shaded exactly when its index is even. The shading covers the row's 12 units. Every cell text lies inside the row. |
| PageLayout.PlaceBlockInPlace | src/components/PDFGenerator.js:164-209 | A block whose cursor is not past its threshold is drawn at the cursor on the current page. |
| PageLayout.PlaceBlockOnNewPage | src/components/PDFGenerator.js:166-168 | A block whose cursor is past its threshold first opens a page (footer included), then is drawn at the top margin of that page. |
| PageLayout.PlaceBlockCursor | src/components/PDFGenerator.js:161 | After a block, the cursor is where the block started plus its height. |
| PageLayout.ActivityEntries | src/components/PDFGenerator.js:164 | One block per activity, in the day's order. |
| PageLayout.FlightCards | src/components/PDFGenerator.js:229 | One block per flight, in input order. |
| PageLayout.HotelRows | src/components/PDFGenerator.js:285 | One block per hotel, in input order, each carrying its index. |
| PageLayout.Installments | src/components/PDFGenerator.js:351-359 | There are exactly three installments: the two entered, then whatever those two leave of the total, with no lower bound. |
| PageLayout.AmountText | src/components/PDFGenerator.js:372 | An amount prints as "Remaining" exactly when it is not positive. |
| PageLayout.InstallmentRowFacts | src/components/PDFGenerator.js:361-377 | An installment row is shaded exactly when its index is even, and it shows its amount in the amount column. |
| LayoutProperties.HotelColumnsSpanContent | src/components/PDFGenerator.js:276 | The five hotel columns are 34 units wide and together span the content width. |
| LayoutProperties.PaymentColumnsSpanContent | src/components/PDFGenerator.js:343 | The three payment columns together span the content width. |
| LayoutProperties.NewPageExtends | src/components/PDFGenerator.js:37-41 | `addNewPage` only adds one page. |
| LayoutProperties.StartsBelowLimit | src/components/PDFGenerator.js:135-138 | Every block of a run is drawn at or above its threshold: day headers at 217 or less, activities and flight cards at 237 or less, hotel rows at 257 or less. |
| LayoutProperties.StartsArePlaced | src/components/PDFGenerator.js:135-138 | The start of block k is where the loop leaves the cursor after the blocks before it, moved to the margin when block k breaks; with `StartsBelowLimit`, every block the loop draws starts at or above its threshold. |
| LayoutProperties.FixedBlocksEndAboveFooter | src/components/PDFGenerator.js:229-232 | The break test ignores block height, but a day header, a flight card or a hotel row still ends above the footer line. |
| LayoutProperties.LongActivityPassesPageBottom | src/components/PDFGenerator.js:165-168 | An activity with a title, a duration and a 12-line description, drawn at its threshold 237, ends at 316, below the 297-unit page. |
| LayoutProperties.EndYWithoutBreaks | src/components/PDFGenerator.js:164-209 | Blocks that fit open no page, and move the cursor by their total height. |
| LayoutProperties.PlaceBlockExtends | src/components/PDFGenerator.js:166-168 | Placing a block only adds to the document. It opens a page exactly when the cursor is past the block's threshold. |
| LayoutProperties.PlaceBlockFlatten | src/components/PDFGenerator.js:166-168 | Placing a block draws the footer of the new page (only when it breaks) and then the block itself. |
| LayoutProperties.PlaceBlocksExtends | src/components/PDFGenerator.js:285-307 | A loop of blocks leaves every completed page alone. |
| LayoutProperties.PlaceBlocksCursor | src/components/PDFGenerator.js:285-307 | A loop of blocks opens one page per break and ends the cursor after the last block. |
| LayoutProperties.PlaceBlocksFlatten | src/components/PDFGenerator.js:285-307 | A loop of blocks draws, in order, each block preceded by the footer of any page it opens. |
| LayoutProperties.PlaceDayAsBlocks | src/components/PDFGenerator.js:135-213 | A day is its header block followed by its activity blocks, then 10 units of space. |
| LayoutProperties.PlaceDaysExtends | src/components/PDFGenerator.js:135-214 | The day loop leaves every completed page alone. |
| LayoutProperties.PlaceDaysFlatten | src/components/PDFGenerator.js:135-214 | The day loop draws the days one after another, and each day continues the cursor where the previous one ended plus 10. |
| LayoutProperties.DailyItineraryExtends | src/components/PDFGenerator.js:127-217 | The daily itinerary draws its title on the current page and afterwards only adds. |
| LayoutProperties.DailyItineraryEffect | src/components/PDFGenerator.js:127-217 | The daily itinerary draws the title, then the days, then the footer, in that order. |
| LayoutProperties.DailyItineraryCursor | src/components/PDFGenerator.js:127-217 | The daily itinerary leaves the cursor where the last day ended. |
| LayoutProperties.HotelTableExtends | src/components/PDFGenerator.js:267-308 | The hotel table only adds to the document. |
| LayoutProperties.HotelTableEffect | src/components/PDFGenerator.js:267-308 | The hotel table draws its header once, then the rows, and breaks pages only between rows. |
| LayoutProperties.FlightSummaryExtends | src/components/PDFGenerator.js:219-257 | The flight summary draws its title on the current page and afterwards only adds. |
| LayoutProperties.FlightSummaryEffect | src/components/PDFGenerator.js:219-257 | The flight summary draws its title and then one card per flight. |
| LayoutProperties.FlightSummaryCursor | src/components/PDFGenerator.js:219-257 | The flight summary leaves the cursor 15 units below the last card. |
| LayoutProperties.HotelBookingsExtends | src/components/PDFGenerator.js:259-308 | The hotel bookings only add to the document. |
| LayoutProperties.HotelBookingsEffect | src/components/PDFGenerator.js:259-308 | The hotel bookings draw their title, then the table, but only when there is a hotel. |
| LayoutProperties.HotelBookingsCursor | src/components/PDFGenerator.js:259-308 | The hotel bookings leave the cursor 20 units below their title when there is no hotel. Otherwise they leave it after the last row. |
| LayoutProperties.FlightsAndHotelsExtends | src/components/PDFGenerator.js:219-311 | The flights-and-hotels section draws its title on the current page and afterwards only adds. |
| LayoutProperties.FlightsAndHotelsEffect | src/components/PDFGenerator.js:219-311 | The flights-and-hotels section draws, in order: the flight title, the cards, the hotel title, the hotel table and the footer. |
| LayoutProperties.FlightsAndHotelsCursor | src/components/PDFGenerator.js:219-311 | Where the flights-and-hotels section leaves the cursor, with hotels and without. |
| LayoutProperties.PlaceInstallmentsEffect | src/components/PDFGenerator.js:361-377 | The installment rows all go on the current page, 12 units apart, with no break check. |
| LayoutProperties.PaymentRows | src/components/PDFGenerator.js:351-377 | The payment table has exactly three rows. Rows 1 and 3 are shaded and row 2 is not. The third row shows the unclamped remainder, or "Remaining". |
| LayoutProperties.PaymentPlanEffect | src/components/PDFGenerator.js:313-379 | The payment plan stays on the current page and moves the cursor down by 113. |
| LayoutProperties.VisaDetailsEffect | src/components/PDFGenerator.js:381-400 | The visa notes stay on the current page and move the cursor down by 45. |
| LayoutProperties.PaymentAndTermsEffect | src/components/PDFGenerator.js:313-412 | The payment-and-terms section opens no page, draws everything including the footer on the current page, and moves the cursor down by 158. |
| LayoutProperties.CoverEffect | src/components/PDFGenerator.js:65-125 | The cover draws on the current page whatever the cursor is. It opens no page and leaves the cursor at 165. |
| LayoutProperties.CoverShowsTripLength | src/components/PDFGenerator.js:93-96 | The cover prints "<n+1> Days <n> Nights" for the nights between departure and return. |
| LayoutProperties.GenerateStream | src/components/PDFGenerator.js:20-31 | Ignoring page boundaries, the document is, in order: the cover, the daily itinerary from 165, a footer, flights and hotels from the margin, a footer, and the payment section from the margin. |
| LayoutProperties.GrowsPlaceBlocks | src/components/PDFGenerator.js:166-168 | A breaking loop leaves completed pages alone, and every page it opens starts with the footer. |
| LayoutProperties.FooterOnEveryPage | src/components/PDFGenerator.js:20-31 | Every page of the document carries the footer. On the first page it follows the cover. Every later page starts with it, whether a forced break or a loop opened it. |
| LayoutProperties.GeneratePages | src/components/PDFGenerator.js:20-31 | The document has at least three pages. The first holds the cover and the start of the daily itinerary. A middle page starts with the footer and the flight summary title. The last page holds the footer and then the whole payment section. The cursor ends at 178. |
| PdfGenerator.DocBuilder.constructor | src/components/PDFGenerator.js:5-10 | A new builder has no document yet, and its cursor is at 0. |
| PdfGenerator.DocBuilder.DrawOnPage | src/components/PDFGenerator.js:68-83 | A drawing call adds its commands to the current page and does not move the cursor. |
| PdfGenerator.DocBuilder.AddFooter | src/components/PDFGenerator.js:43-62 | `addFooter` stamps the footer on the current page. |
| PdfGenerator.DocBuilder.AddNewPage | src/components/PDFGenerator.js:37-41 | `addNewPage` appends a page holding only the footer and resets the cursor to the margin. |
| PdfGenerator.DocBuilder.DrawBlock | src/components/PDFGenerator.js:285-306 | One iteration of a breaking loop does what `PlaceBlock` says. |
| PdfGenerator.DocBuilder.DrawBlocks | src/components/PDFGenerator.js:285-307 | A breaking `forEach` loop does what `PlaceBlocks` says. |
| PdfGenerator.DocBuilder.GenerateCoverPage | src/components/PDFGenerator.js:65-125 | `generateCoverPage` does what `Cover` says. |
| PdfGenerator.DocBuilder.GenerateDailyItinerary | src/components/PDFGenerator.js:127-217 | `generateDailyItinerary` does what `DailyItinerary` says. |
| PdfGenerator.DocBuilder.GenerateFlightAndHotelDetails | src/components/PDFGenerator.js:219-311 | `generateFlightAndHotelDetails` does what `FlightsAndHotels` says. |
| PdfGenerator.DocBuilder.DrawInstallments | src/components/PDFGenerator.js:361-377 | The installment loop does what `PlaceInstallments` says. |
| PdfGenerator.DocBuilder.GeneratePaymentAndTerms | src/components/PDFGenerator.js:313-412 | `generatePaymentAndTerms` does what `PaymentAndTerms` says. |
| PdfGenerator.DocBuilder.GeneratePDF | src/components/PDFGenerator.js:20-35 | `generatePDF` builds the document `Generate` describes, and returns the name it is saved under. |
| PdfGenerator.DropWhitespaceFacts | src/components/PDFGenerator.js:33 | Exactly the longest leading whitespace run is dropped. |
| PdfGenerator.CollapseHasNoWhitespace | src/components/PDFGenerator.js:33 | After `replace(/\s+/g, '_')` no whitespace is left. |
| PdfGenerator.CollapseWithoutWhitespace | src/components/PDFGenerator.js:33 | A name without whitespace is kept as it is. |
| PdfGenerator.DropWhitespaceRun | src/components/PDFGenerator.js:33 | Dropping a whitespace run stops at the first other character. |
| PdfGenerator.CollapseRun | src/components/PDFGenerator.js:33 | A whole whitespace run between a word and the rest becomes one '_'. |
| PdfGenerator.FileNameParts | src/components/PDFGenerator.js:33 | The file name is the customer name with its whitespace runs collapsed (so without whitespace), then '_', the destination as given, and "_Itinerary.pdf". |
| PdfGenerator.FileNameOfTwoWords | src/components/PDFGenerator.js:33 | "First Last" becomes "First_Last_<destination>_Itinerary.pdf". |
| PdfGenerator.FileNameKeepsDestination | src/components/PDFGenerator.js:33 | A customer name without whitespace and any destination are used as given. |
| ItineraryGenerator.Travelers | src/components/ItineraryGenerator.jsx:122 | An empty count means exactly one traveler; an entered count of one or more is used as it is. |
| ItineraryGenerator.HotelNights | src/components/ItineraryGenerator.jsx:126 | A hotel without a night count costs no nights; otherwise its count is used. |
| ItineraryGenerator.HotelCostFoldSum | src/components/ItineraryGenerator.jsx:125-128 | The hotel `reduce` adds 4000 for every night of every hotel to its seed. |
| ItineraryGenerator.ActivityCountFoldSum | src/components/ItineraryGenerator.jsx:134-136 | The activity `reduce` adds the number of activities of all days to its seed. |
| ItineraryGenerator.TotalAmountFormula | src/components/ItineraryGenerator.jsx:121-140 | The estimate is 4000 per hotel night, plus 8000 per flight per traveler, plus 500 per activity per traveler. It is never negative. |
| ItineraryGenerator.Estimate | src/components/ItineraryGenerator.jsx:88 | The amount shown and handed to the document is the estimate, as a natural number. |
| ItineraryGenerator.ExampleTotal | src/components/ItineraryGenerator.jsx:20-22 | One hotel of 5 nights, two flights and three activities for one traveler cost 37500. |
| ItineraryGenerator.RemainingAmount | src/components/ItineraryGenerator.jsx:635 | The remaining amount on screen is the total minus both installments when that is positive, and 0 otherwise. |
| ItineraryGenerator.CalculateNights | src/components/ItineraryGenerator.jsx:142-151 | The on-screen nights equal the date helpers' nights. |
| ItineraryGenerator.CalculateNightsProperties | src/components/ItineraryGenerator.jsx:142-151 | The on-screen nights are 0 for a missing date and for equal dates, and the same in either order. |
| ItineraryGenerator.NewActivity | src/components/ItineraryGenerator.jsx:92-98 | A new activity is an afternoon sightseeing slot with empty title, description and duration. |
| ItineraryGenerator.AppendActivity | src/components/ItineraryGenerator.jsx:92 | Adding an activity keeps the existing ones and puts the new one last. |
| ItineraryGenerator.FilterIndexKeeps | src/components/ItineraryGenerator.jsx:104 | Filtering out a position outside the list drops nothing. |
| ItineraryGenerator.FilterIndexDrops | src/components/ItineraryGenerator.jsx:104 | Filtering out a position in the list drops exactly that entry and keeps the others in order. |
| ItineraryGenerator.RemoveActivityAt | src/components/ItineraryGenerator.jsx:102-106 | Removing activity k drops exactly that activity. A position past the end changes nothing. |
| ItineraryGenerator.SetDayActivities | src/components/ItineraryGenerator.jsx:99 | Setting a day's activities replaces that day's activities and nothing else in the form. |
| ItineraryGenerator.AllActivitiesUpdate | src/components/ItineraryGenerator.jsx:134-136 | Replacing one day's activities changes the activity count by the difference in that day's length. |
| ItineraryGenerator.AddActivityCost | src/components/ItineraryGenerator.jsx:90-100 | Adding an activity raises the estimate by 500 per traveler. |
| ItineraryGenerator.RemoveActivityCost | src/components/ItineraryGenerator.jsx:102-106 | Removing an existing activity lowers the estimate by 500 per traveler. |
| ItineraryGenerator.DefaultTotal | src/components/ItineraryGenerator.jsx:26-70 | The untouched form is estimated at one flight and one activity for one traveler, which is 8500. |
| ItineraryGenerator.RemainingMatchesDocument | src/components/ItineraryGenerator.jsx:635 | The document's third installment equals the on-screen remaining amount whenever it is positive. Otherwise the document prints "Remaining" and the screen shows 0. |
| ItineraryGenerator.ItineraryForm.constructor | src/components/ItineraryGenerator.jsx:26-70 | The form starts with its default values. |
| ItineraryGenerator.ItineraryForm.AddActivity | src/components/ItineraryGenerator.jsx:90-100 | For an existing day, appends a new activity to that day and changes nothing else. A missing day changes nothing and is reported. |
| ItineraryGenerator.ItineraryForm.RemoveActivity | src/components/ItineraryGenerator.jsx:102-106 | For an existing day, removes the activity at the given position from that day and changes nothing else. A missing day changes nothing and is reported. |
| ItineraryGenerator.ItineraryForm.Submit | src/components/ItineraryGenerator.jsx:108-119 | Submitting creates a new builder holding the document for the current values and the on-screen estimate, and returns its file name. |

## Left out

- Fonts, font sizes, colours and text styles are not modelled. Only what is drawn, where, and on which page.
- Saving the file (`doc.save`) is I/O. `GeneratePDF` returns the name it would be saved under.
- Date parsing, time zones and the `en-GB` / `dd/MM/yyyy` rendering are library behaviour. A date is a millisecond count or missing, and rendering is a parameter of the model (`Backend.formatDate`, `FormatDate`'s `render`).
- DateHelpers.FormatDate, PageLayout.FormatDate: the branch that returns the input when the date library throws is not modelled. The model's dates are always valid.
- Amount formatting (`toLocaleString`) is a parameter (`Backend.formatAmount`).
- `splitTextToSize` is a parameter giving the number of lines (at least one) a description wraps to.
- Numbers are exact naturals and integers. JavaScript numbers are doubles: estimates above 2^53 lose precision, and numbers from 10^21 up print in exponent form (`1e+21`), which `Decimal.NatToString` does not model.
- String-to-number coercion (`parseInt`, `|| 0`, NaN) is not modelled: counts and installments are natural numbers, and 0 stands for an empty field.
- The document prints the entered traveler count as it is, while the estimate uses at least one traveler. The model keeps both; it does not model printing an empty field.
- The `async` / `await` structure, the success and error notifications, and the `isGenerating` flag are not modelled.
- The React rendering, validation messages, and the field-array operations that add or remove days, flights and hotels are not modelled. They are library calls with no logic of the component's own.
- DateHelpers.AddDays: days are whole day numbers, so month and year rollover inside `setDate` is not modelled.
- DateHelpers.CalendarDate models only the day of a `Date` object.
- PdfGenerator.DocBuilder.constructor: the `null` document is modelled as a document with no pages.
