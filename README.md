# Popstand prototype: money, tax and list logic in Dafny

Popstand is a prototype web front end for street vendors and fair organisers
in Colombia. Its screens run over mock data. Beneath the markup sits a small
layer of real logic, which this project models and proves properties of:

- **Sale register.** A sale in progress is an ordered list of line items.
  Items can be added, have their quantity changed (never below 1) or be
  removed, and the sale can be processed. Subtotal, IVA and total are sums
  over the list.
- **IVA calculator.** A two-mode converter at the 19% Colombian IVA rate.
  "Add" turns a base price into a tax-inclusive price; "remove" does the
  reverse. Both write the tax portion. Its fields, its mode and the React
  effects that recompute it form a small state machine.
- **Pricing tool.** A suggested price from a cost and a profit margin (with
  IVA added), the profit, and a comparison with a competitor's price (within
  15% counts as competitive).
- **Tax-obligation module.** Whether a monthly income obliges the vendor to
  declare IVA: 1400 UVT a year, at the 2024 UVT of 47065. It also gives the
  months left before the threshold, a bimonthly IVA projection, and the
  reminder style and label mappings.
- **Organizer panel.** Approving or rejecting vendor applications, the
  "new event" form, and the event and application aggregates.
- **Event map and admin user list.** Order-preserving filters that combine a
  case-insensitive substring search with a category or status test, plus the
  map's category toggle.
- **Sales history.** Day totals, the rounded average per sale, and the
  "producto"/"productos" plural.

Modules:

- `Wrappers`: `Option`.
- `Lists`: `filter` and a summing `reduce`, with their algebra.
- `Rounding`: `Math.round` and `Math.ceil`.
- `Text`: ASCII `toLowerCase`, `includes` and the plural suffix.
- One module per screen:
  - `SalesRegister`;
  - `IvaCalculator`;
  - `PricingTools`;
  - `DianModule`;
  - `OrganizerDashboard`;
  - `EventsMap`;
  - `AdminDashboard`;
  - `SalesHistory`.

The screens whose handlers update state in place are classes, with one field
per piece of React state that the modelled logic reads or writes: `SalesRegister.Register`, `IvaCalculator.Calculator`,
`OrganizerDashboard.Dashboard` and `EventsMap.EventsMapScreen`. Their methods
state the whole new state and name in `modifies` the fields they may change.
The formulas and filters they use are functions, with lemmas about them.

Money is an exact `real`, so the model has no floating-point rounding.
`Number.parseFloat` is abstracted as `Option<real>`, where `None` is NaN.
`Math.round(x)` is `floor(x + 1/2)` and `Math.ceil(x)` is `-floor(-x)`.

The register's figures follow the code as written. The IVA of a taxed line
treats its price as tax-inclusive: the IVA is `price - price/1.19`. The total
then adds that IVA on top of the subtotal. `SalesRegister.TotalAddsIvaOnTop`
states the consequence: when every line is taxed, the total is 138/119 of the
subtotal.

Several divisions in the source have no guard. Each becomes a `requires` that
excludes only the inputs on which that division would actually run:

- a margin of exactly 100 when both the cost and the margin parse;
- a competitor price of 0 when the suggested price is not 0;
- a monthly income of 0 below the threshold;
- an empty sales list for the average.

## Model

| member | source | states |
|---|---|---|
| SalesRegister.Register.constructor | components/sales-register.tsx:20-23 | A new register has an empty sale and empty name and price fields, with "IVA" ticked. |
| SalesRegister.Register.AddProduct | components/sales-register.tsx:33-42 | Exactly one line is appended at the end, with the given name, price and IVA flag and quantity 1. Earlier lines are unchanged and keep their order, and every quantity stays at least 1. |
| SalesRegister.Register.AddCustomProduct | components/sales-register.tsx:44-50 | A line is added exactly when the name is non-empty and the price field holds a number. It is then appended as by `addProduct`, and both fields are emptied. Otherwise the sale and both fields are unchanged. |
| SalesRegister.Adjusted | components/sales-register.tsx:54 | A line with the given id gets quantity `max(1, quantity + change)`, which is at least 1. Its id, name, price and IVA flag are kept, and a line with another id is returned unchanged. |
| SalesRegister.WithQuantityChanged | components/sales-register.tsx:52-56 | The list keeps its length and order, and each position holds the adjusted line of the same position. |
| SalesRegister.QuantityChangeKeepsInvariant | components/sales-register.tsx:52-56 | A quantity change keeps every quantity at least 1 and never removes a line. |
| SalesRegister.DecrementClampsAtOne | components/sales-register.tsx:54 | Decrementing a line that has quantity 1, by the "-" button's step of 1 or by any other non-positive change, leaves it exactly as it was. |
| SalesRegister.Register.UpdateQuantity | components/sales-register.tsx:52-56 | The new sale is the quantity-changed list, and the quantity invariant is preserved. |
| SalesRegister.WithoutItem | components/sales-register.tsx:58-60 | No line with the id remains, every line with another id is kept, and no line is invented. |
| SalesRegister.RemoveAbsentIsNoOp | components/sales-register.tsx:58-60 | Removing an id that no line has leaves the list unchanged. |
| SalesRegister.RemovePreservesOrder | components/sales-register.tsx:59 | Removal distributes over concatenation, so the remaining lines keep their relative order. |
| SalesRegister.RemoveKeepsInvariant | components/sales-register.tsx:58-60 | Removal keeps every quantity at least 1. |
| SalesRegister.Register.RemoveItem | components/sales-register.tsx:58-60 | The new sale is the list without the id, and the quantity invariant is preserved. |
| SalesRegister.EmptySaleTotals | components/sales-register.tsx:62-80 | An empty sale has subtotal, IVA and total 0. |
| SalesRegister.TotalsAfterAppend | components/sales-register.tsx:62-74 | One more line adds `price * quantity` to the subtotal and its line IVA to the IVA. |
| SalesRegister.UnitIvaShare | components/sales-register.tsx:69 | The per-unit IVA `price - price/1.19` is 19/119 of the price. It equals the tax the calculator's remove mode finds in that price. |
| SalesRegister.IvaIsShareOfTaxedLines | components/sales-register.tsx:66-74 | The IVA is 19/119 of the gross amount of the lines flagged with IVA. Unflagged lines contribute nothing. |
| SalesRegister.LineIvaBounds | components/sales-register.tsx:67-72 | A line with a non-negative price and positive quantity has an IVA between 0 and its line total. |
| SalesRegister.IvaBounds | components/sales-register.tsx:62-74 | With non-negative prices and positive quantities, 0 <= IVA <= subtotal. |
| SalesRegister.Total | components/sales-register.tsx:76-80 | The total is the subtotal plus 19/119 of the gross amount of the lines flagged with IVA. The tax already inside those prices is thus added a second time. |
| SalesRegister.TotalAddsIvaOnTop | components/sales-register.tsx:76-80 | The total is never below the subtotal. When every line is taxed, the total is 138/119 of the subtotal, so IVA counted inside the prices is added again. |
| SalesRegister.SingleTaxedItemExample | components/sales-register.tsx:62-80 | One taxed unit at 119000 gives subtotal 119000, IVA 19000 and total 138000. |
| SalesRegister.QuickFiguresSplitSubtotal | components/sales-register.tsx:270-278 | When every line is taxed, the rounded "Precio sin IVA" and "Solo IVA" figures add up to the subtotal within 1. |
| SalesRegister.Register.ProcessSale | components/sales-register.tsx:82-94 | Afterwards the sale is empty. There is a receipt exactly when the sale was non-empty, and it holds the old lines with their subtotal, IVA and total. |
| SalesRegister.RemoveFirstOfTwo | components/sales-register.tsx:58-60 | Removing the first of two lines with different ids leaves the second. |
| SalesRegister.SingleUnitFigures | components/sales-register.tsx:62-80 | A sale of one taxed unit has the price as subtotal, the unit IVA as IVA, and their sum as total. |
| SalesRegister.AddRemoveProcessScenario | components/sales-register.tsx:33-94 | Adding two products, removing the first and processing the sale yields the second line's receipt, and the register ends empty. |
| Text.PluralSuffix | components/sales-register.tsx:174 | The suffix is "s" exactly when the count is not 1, and empty otherwise. |
| IvaCalculator.PriceWithIva | components/iva-calculator.tsx:23-28 | The tax-inclusive price is 1.19 times the base, and taking IVA back out of it gives the base again. |
| IvaCalculator.BaseFromTotal | components/iva-calculator.tsx:31-36 | The base, multiplied by 1.19, gives back the tax-inclusive price. |
| IvaCalculator.IvaInTotal | components/iva-calculator.tsx:31-36 | The tax inside a tax-inclusive price is 19/119 of it. It is also exactly the 19% tax on the base that remove mode recovers. |
| IvaCalculator.AddThenRemove | components/iva-calculator.tsx:23-36 | Removing IVA from an add-mode result restores the base, and both modes report the same tax. |
| IvaCalculator.RemoveThenAdd | components/iva-calculator.tsx:23-36 | Adding IVA to a remove-mode base restores the total, and both modes report the same tax. |
| IvaCalculator.AddNonNegative | components/iva-calculator.tsx:23-28 | A non-negative base has a non-negative tax and a total no smaller than the base. |
| IvaCalculator.RemoveNonNegative | components/iva-calculator.tsx:31-36 | A non-negative total splits into a base and a tax, each between 0 and the total. |
| IvaCalculator.AddExample | components/iva-calculator.tsx:20-28 | 100000 plus IVA is 119000, of which 19000 is tax. |
| IvaCalculator.Calculator.constructor | components/iva-calculator.tsx:14-18 | The calculator starts in add mode with empty fields and tax 0, in a consistent state. |
| IvaCalculator.Calculator.CalculateWithIva | components/iva-calculator.tsx:23-28 | It writes the tax on the base and the text of the tax-inclusive price, and nothing else. |
| IvaCalculator.Calculator.CalculateWithoutIva | components/iva-calculator.tsx:31-36 | It writes the tax inside the total and the text of the base, and nothing else. |
| IvaCalculator.Calculator.AddModeEffect | components/iva-calculator.tsx:38-45 | In add mode, a non-empty base that parses is converted. Otherwise the tax and the price with IVA are unchanged. |
| IvaCalculator.Calculator.RemoveModeEffect | components/iva-calculator.tsx:47-54 | In remove mode, a non-empty total that parses is converted. Otherwise the tax and the base are unchanged. |
| IvaCalculator.Calculator.EditBasePrice | components/iva-calculator.tsx:38-45 | The base field takes the new text, and the add-mode result is shown when the text changed. Empty or unparsable input, or another mode, leaves the figures unchanged. |
| IvaCalculator.Calculator.EditPriceWithIva | components/iva-calculator.tsx:47-54 | The tax-inclusive price field takes the new text, and the remove-mode result is shown when the text changed. Empty or unparsable input, or another mode, leaves the figures unchanged. |
| IvaCalculator.Calculator.SelectMode | components/iva-calculator.tsx:38-54 | A change of mode re-runs both effects: the new mode's input is converted if it parses, and the state becomes consistent. Selecting the current mode changes nothing. |
| IvaCalculator.Calculator.ClearAll | components/iva-calculator.tsx:62-66 | Both fields are emptied and the tax is reset to 0. The mode is kept. |
| IvaCalculator.Calculator.PickSuggestedPrice | components/iva-calculator.tsx:215-218 | The mode becomes add and the base becomes the preset. When that changed the state, the preset's tax and tax-inclusive price are shown. |
| IvaCalculator.PresetPreviewMatchesResult | components/iva-calculator.tsx:227 | Each preset button's "+IVA" preview is the rounded tax-inclusive price the calculator shows after picking it. |
| IvaCalculator.SwitchRoundTrip | components/iva-calculator.tsx:23-54 | Entering a base in add mode and switching to remove mode shows that same base again, with the same tax. |
| PricingTools.SuggestedPrice | components/pricing-tools.tsx:15-23 | The result is 0 when cost or margin does not parse. Otherwise the price times `(1 - margin/100)` is 1.19 times the cost. |
| PricingTools.Profit | components/pricing-tools.tsx:25-32 | The profit is 0 when cost or margin does not parse, and 0 whenever the suggested price is 0 (so at cost 0). When both parse, profit plus cost, times `(1 - margin/100)`, is 1.19 times the cost. For a cost >= 0 and a margin in [0, 100), the profit is at least 0.19 times the cost, and exactly that at margin 0. |
| PricingTools.CompetitionAnalysis | components/pricing-tools.tsx:34-47 | There is no analysis exactly when the competitor price does not parse or the suggested price is 0. Otherwise the difference is a non-negative percentage of the competitor price, and `isHigher` holds iff the suggested price is above it. `competitive` holds iff the difference is at most 15. |
| PricingTools.AbsOfQuotient | components/pricing-tools.tsx:40-43 | The absolute percentage difference, times the competitor price's magnitude, is 100 times the absolute price gap. |
| PricingTools.CompetitiveWithinBand | components/pricing-tools.tsx:45 | Competitive holds iff the suggested price lies within 15% of the competitor's price, on either side. |
| PricingTools.SuggestedPriceExample | components/pricing-tools.tsx:21-22 | Cost 50000 at a 50% margin suggests 119000. |
| PricingTools.SuggestedPriceCoversTaxedCost | components/pricing-tools.tsx:21-22 | For cost >= 0 and a margin in [0, 100), the price is at least 1.19 times the cost, and exactly that at margin 0. |
| PricingTools.SuggestedPriceCoversTaxedCostOnInput | components/pricing-tools.tsx:15-23 | The same bound holds whenever both fields parse into that range. |
| PricingTools.CompetitionExample | components/pricing-tools.tsx:34-47 | A price of 119000 against 100000 is 19% higher and not competitive. |
| DianModule.IvaObligation | components/dian-module.tsx:84-98 | There is no result exactly when the income does not parse. The annual income is 12 times the monthly, and the threshold is 65891000. The vendor is obliged iff annual income >= threshold, and then the months count is 0. |
| DianModule.ThresholdIsInclusive | components/dian-module.tsx:95 | An annual income exactly at the threshold is obliged. |
| DianModule.MonthsToThresholdIsLeast | components/dian-module.tsx:96 | For a positive income below the threshold, the months count is at least 1. It is the least number of further months of that income that reaches the threshold. |
| DianModule.BimonthlyIva | components/dian-module.tsx:100-110 | There is no result exactly when the input does not parse. Otherwise the yearly IVA is the sum of the year's six bimonthly payments of that amount. The next payment is one of those payments, and the due date is the fixed text. |
| DianModule.YearOfPaymentsTotal | components/dian-module.tsx:106 | Six bimonthly payments of the same amount add up to six times that amount. |
| DianModule.StatusColorsDistinguishStatuses | components/dian-module.tsx:115-126 | The three known statuses get three different styles, none of them the default. Every other string gets the grey default. |
| DianModule.PriorityColorsDistinguishPriorities | components/dian-module.tsx:128-139 | The three known priorities get three different styles, none of them the default. Every other string gets the grey default. |
| DianModule.PriorityLabelCases | components/dian-module.tsx:180 | The label is "Alta" iff the priority is high and "Media" iff it is medium. It is "Baja" for every other string. |
| OrganizerDashboard.WithDecision | components/organizer-dashboard.tsx:147-153 | The list keeps its length. An application with the id gets the action's status, and every other application is unchanged. |
| OrganizerDashboard.DecisionSetsStatus | components/organizer-dashboard.tsx:150 | After the action, an application with the id is approved for approve and rejected for reject. |
| OrganizerDashboard.DecisionIdempotent | components/organizer-dashboard.tsx:148-152 | Taking the same action twice gives the same list as taking it once. |
| OrganizerDashboard.PendingAfterDecision | components/organizer-dashboard.tsx:158 | The pending count falls by exactly the number of pending applications with the decided id. |
| OrganizerDashboard.DecidingPendingLowersCountByOne | components/organizer-dashboard.tsx:158 | Deciding on a pending application whose id is unique lowers the pending count by exactly one. |
| OrganizerDashboard.TotalsAfterAppend | components/organizer-dashboard.tsx:155-157 | One more event adds 1 to the event count and adds its revenue and attendees to the totals. |
| OrganizerDashboard.StartingTotals | components/organizer-dashboard.tsx:52-108 | The starting data show 2 events, 2085000 in revenue, 77 attendees and 1 pending application. |
| OrganizerDashboard.Dashboard.constructor | components/organizer-dashboard.tsx:111-127 | The panel starts with the mock lists, an empty form, both dialogs closed and nothing selected. |
| OrganizerDashboard.Dashboard.OpenEventForm | components/organizer-dashboard.tsx:174 | "Crear Evento" opens the new-event dialog. |
| OrganizerDashboard.Dashboard.HandleCreateEvent | components/organizer-dashboard.tsx:131-145 | The dialog closes and every form field becomes empty. The events and applications are unchanged. |
| OrganizerDashboard.Dashboard.HandleApplicationAction | components/organizer-dashboard.tsx:147-153 | The applications become the decided list, and nothing else changes. |
| OrganizerDashboard.Dashboard.ShowApplication | components/organizer-dashboard.tsx:413-416 | The clicked application is remembered and its dialog opens. |
| OrganizerDashboard.Dashboard.DecideSelected | components/organizer-dashboard.tsx:590-606 | The action is taken on the selected application's id, and the dialog closes. |
| EventsMap.FilteredEvents | components/events-map.tsx:92-98 | The result holds only events from the list that match the search and the category. Every matching event is kept. |
| EventsMap.FilteredEventsKeepOrder | components/events-map.tsx:92 | Filtering distributes over concatenation, so events keep their order. |
| EventsMap.NoFilterShowsAll | components/events-map.tsx:92-98 | With an empty term and no category, every event is shown, in order. |
| EventsMap.EmptyTermFiltersByCategoryOnly | components/events-map.tsx:96 | With an empty term, the events shown are exactly those of the selected category: every such event is shown, and every event shown is in that category. |
| EventsMap.SearchIgnoresCase | components/events-map.tsx:93-95 | Terms that differ only in letter case show the same events. |
| EventsMap.ToggleCategory | components/events-map.tsx:105-107 | The selection is either empty or the picked chip. A non-empty chip ends up selected exactly when it was not already selected, and the selection is empty exactly when the selected chip (or the empty category) was picked. |
| EventsMap.ToggleTwiceClears | components/events-map.tsx:106 | Picking the same chip twice leaves no selection, unless that chip was the selected one, in which case it is selected again. From no selection, two picks return to no selection. |
| EventsMap.EventsMapScreen.constructor | components/events-map.tsx:84-88 | The screen starts with no search, no category, no selected event and the dialog closed, showing every event. |
| EventsMap.EventsMapScreen.SetSearchTerm | components/events-map.tsx:124 | Typing sets the search term, and nothing else changes. |
| EventsMap.EventsMapScreen.HandleCategorySelect | components/events-map.tsx:105-107 | The category is toggled, and nothing else changes. |
| EventsMap.EventsMapScreen.ClearFilter | components/events-map.tsx:144 | "Limpiar filtro" clears the category only, and the search term is kept. |
| EventsMap.EventsMapScreen.HandleEventClick | components/events-map.tsx:100-103 | The clicked event becomes the selected one, and the details open. |
| EventsMap.EventsMapScreen.CloseDetails | components/events-map.tsx:316 | Closing the details hides the dialog. |
| AdminDashboard.FilteredUsers | components/admin-dashboard.tsx:93-100 | The result holds only users from the list that match the search and the status filter. Every matching user is kept. When the filter is not "all", every result has that status. |
| AdminDashboard.FilteredUsersKeepOrder | components/admin-dashboard.tsx:93 | Filtering distributes over concatenation, so users keep their order. |
| AdminDashboard.NoFilterListsAll | components/admin-dashboard.tsx:95-98 | With an empty term and the filter "all", every user is listed, in order. |
| AdminDashboard.SearchIgnoresCase | components/admin-dashboard.tsx:95-97 | Terms that differ only in letter case list the same users. |
| SalesHistory.TotalsAfterAppend | components/sales-history.tsx:59-60 | One more sale adds its total and its IVA to the day's sums. |
| SalesHistory.AveragePerSale | components/sales-history.tsx:97 | On a non-empty list, the rounded average times the number of sales is within half the count of the day's total. |
| SalesHistory.AverageWithinRange | components/sales-history.tsx:97 | If every sale's total lies in [lo, hi], the rounded average lies in (lo - 1/2, hi + 1/2]. |
| SalesHistory.ItemsLabel | components/sales-history.tsx:133 | The label is "producto" exactly for one item, and "productos" otherwise. |
| SalesHistory.TodayFigures | components/sales-history.tsx:20-60 | The day's listed sales total 420000, with 67050 of IVA and an average of 105000. |
| Rounding.Round | components/sales-history.tsx:97 | `Math.round` returns the integer within half a unit of `x`, with halves rounded up. |
| Rounding.Ceil | components/dian-module.tsx:96 | `Math.ceil` returns an integer at or above `x` and less than one above it. |
| Rounding.CeilLeast | components/dian-module.tsx:96 | No integer at or above `x` is below `Math.ceil(x)`. |
| Text.Lower | components/events-map.tsx:94 | Lower-casing keeps the length and lower-cases each character. |
| Text.ContainsAt | components/events-map.tsx:94 | `includes` holds exactly when the needle occurs at some position of the string. |
| Text.MatchesTermCaseInsensitive | components/admin-dashboard.tsx:95-97 | Two terms equal after lower-casing match the same strings. |
| Text.MatchesEmptyTerm | components/events-map.tsx:93-95 | Every string matches the empty term. |
| Lists.Filter | components/events-map.tsx:92 | `filter` returns only elements of the list that satisfy the test, and keeps every such element. |
| Lists.FilterAppend | components/admin-dashboard.tsx:93 | `filter` distributes over concatenation. |
| Lists.SumAppend | components/organizer-dashboard.tsx:155 | A summing `reduce` over a concatenation is the sum of the two reductions. |
| Lists.SumBounds | components/sales-history.tsx:59 | When every summand lies in [lo, hi], the sum of n terms lies in [n*lo, n*hi]. |

## Left out

- Rendering, the widget libraries, icons and styling are not modelled. The purely presentational files are not part of this model: the page wrappers, navigation, footer, hero, features, call-to-action and business showcase.
- components/business-profile-editor.tsx is not part of this model. It sets one form field at a time and reports through `alert` and `console.log`.
- IEEE-754 arithmetic is not modelled: money is an exact `real`. NaN and Infinity propagation is replaced by the `requires` clauses listed above.
- `toLocaleString`, `toFixed` and the es-CO date and number formatting are not modelled. `SalesRegister.Total` returns the number that the source formats into a string.
- `Number.parseFloat` is abstracted as `Option<real>`. Prefix parsing of text such as "12abc" is not modelled.
- `toLowerCase` changes only the ASCII letters A-Z. Unicode case mapping is not modelled.
- `Date.now()` ids become a parameter of `SalesRegister.Register.AddProduct` and `SalesRegister.Register.AddCustomProduct`. The model does not claim the ids are unique.
- `console.log` and `alert` are left out. `SalesRegister.Register.ProcessSale` returns the logged receipt instead.
- The clipboard copy and its `setTimeout` reset in the calculator are left out, and with them the calculator's `copied` flag.
- The organizer panel's `selectedTab` state only chooses which tab is rendered. `OrganizerDashboard.Dashboard` has no field for it.
- The clock-dependent "days until due" of the tax reminders is left out.
- The admin panel's percentage displays over constant mock numbers are left out.
- React schedules effects after a render. In the model, each calculator handler calls the effect methods directly, as the effects' dependency lists demand.
- A field's text is abstracted as `IvaCalculator.NumberText`. Two texts that parse to the same number are treated as the same text, so an edit that only changes the spelling of a number does not re-run an effect in the model.
- SalesRegister.Register.AddCustomProduct: the price field is a number input, modelled as `Option<real>`. An item whose price parses to NaN is not representable.
- PricingTools.SuggestedPrice: requires a margin other than 100 when both inputs parse. The source would divide by zero there.
- PricingTools.CompetitionAnalysis: requires a competitor price other than 0 when the suggested price is not 0. The source would divide by zero there.
- DianModule.IvaObligation: requires a non-zero monthly income below the threshold. The source would show an infinite month count there.
- SalesHistory.AveragePerSale: requires at least one sale. With none, the source would show NaN; its list is a constant of four sales.
- OrganizerDashboard.Dashboard.DecideSelected: the selected application is a copy taken when the dialog opened, as in the source. The copy is not refreshed after a decision.
- The event and application lists of the organizer panel and the event map are never extended by any handler. `handleCreateEvent` only logs the form.
