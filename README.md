# PressioBot core in Dafny

PressioBot is a Telegram bot for a print shop. A customer runs `/calc`, picks a
product, types a quantity, picks a material and toggles optional finishing
services ("modifiers"). The bot then quotes a price and a deadline and stores
the order. Staff on an allow-list run `/order` to list the orders of one day.

This project models the logic behind that flow:

- `PriceEngine` (with `Catalog` for the table rows) models `calculate_price`.
  It picks a price band, falling back to the band with the largest `range_to`.
  It spreads the band price over the band width, applies the material and
  modifier multipliers, rounds, and adds up the deadline. The database queries
  become lookups over in-memory rows, taken in table order. The method
  `CalculatePrice` is proved against the function `Calculate`, and its loop
  over the modifiers, `MultiplyModifiers`, against `ApplyMultipliers`.
- `AccessControl` models the `ALLOWED_USER_IDS` allow-list: the parse, the
  membership test, and the cache, kept as a field of an `AllowList` object.
- `CalcHandler` models the `/calc` conversation as a `CalcSession` object. It
  covers the digit check on the quantity text, the in-place toggling of the
  modifier selection, and the "done" hand-off to the price calculation.
- `OrderService` models how `create_order` stores the modifier codes as one
  comma-joined string.
- `OrderReport` models how `order_by_date` reads those strings back: it
  collects the codes, looks up their names, and renders one line per order.
- `Text` models the Python string operations these rely on: `split`, `join`,
  `strip`, `isdigit` and `int`.
- `Wrappers` holds the `Option` and `Result` types.

Arithmetic is exact. `round(x, 2)` is `PriceEngine.Round2`: the nearest
multiple of 0.01, with ties going to an even number of cents.

The code checks little, and the model keeps that:

- The code does not validate its inputs. A quantity of 0 reaches the engine.
- It does not reject multipliers of zero or below. A zero multiplier makes the
  price zero.
- It does not clamp the deadline. A base of 2 days with a -5 day modifier
  gives -3 days.
- It raises an error in only two named places (no price range, no material).
  A third failure also exists: a band with `range_to == range_from - 1` has
  width 0, and the division raises `ZeroDivisionError`. The model includes it
  as `DivisionByZero`. Only the fallback band can have width 0, because a band
  that contains the quantity has width at least 1.

## Model

| member | source | states |
|---|---|---|
| `PriceEngine.OwnerOf` | app/services/price_engine.py:16-17 | the product a range belongs to is one whose id matches the range's `product_id`; no product matches when none is found |
| `PriceEngine.TiersOf` | app/services/price_engine.py:14-19 | every row is a range of the table joined with its owner, and the owner carries the requested code; every such range appears |
| `PriceEngine.Contains` | app/services/price_engine.py:20-21 | the band test, inclusive at both ends; `FirstContaining` and `ContainedQuantityQuote` state how it selects the band |
| `PriceEngine.FirstContaining` | app/services/price_engine.py:14-23 | a found row contains the quantity, inclusive at both ends; when none is found, no row contains it |
| `PriceEngine.Highest` | app/services/price_engine.py:27-33 | there is no row exactly when the product has no ranges; otherwise the row found has the largest `range_to` |
| `PriceEngine.FindMaterial` | app/services/price_engine.py:44-46 | a found material carries the code; when none is found, no material carries it |
| `PriceEngine.SelectModifiers` | app/services/price_engine.py:55-57 | the modifiers kept are exactly the table's modifiers whose code is requested, and there are no more of them than rows |
| `PriceEngine.SelectModifiersCounts` | app/services/price_engine.py:55-57 | each row is kept as often as it occurs in the table when its code is requested, and never otherwise: no row is repeated or invented |
| `PriceEngine.SelectModifiersAppend` | app/services/price_engine.py:55-57 | the query is a filter in table order: over two parts of the table it keeps the rows of the first part, then those of the second |
| `PriceEngine.RoundHalfEven` | app/services/price_engine.py:70 | the result is within 1/2 of the argument, and a tie goes to the even integer |
| `PriceEngine.Round2` | app/services/price_engine.py:70 | the rounded price is within 0.005 of the exact total |
| `PriceEngine.Round2Cents` | app/services/price_engine.py:70 | the rounded price is a whole number of cents, and when the total lies exactly halfway between two cents the even number of cents is chosen |
| `PriceEngine.Round2KeepsCents` | app/services/price_engine.py:70 | an amount that is already a whole number of cents is not changed by rounding |
| `PriceEngine.Calculate` | app/services/price_engine.py:6-74 | the function the method `CalculatePrice` is proved against; its meaning is stated by `ContainedQuantityQuote`, `OutOfRangeQuantityQuote`, `NoPriceRangeFailsFirst`, `CalculateSucceedsIff` and `DeadlineIsBasePlusAdjustments` |
| `PriceEngine.ResolveTier` | app/services/price_engine.py:14-37 | band selection with fallback; `ContainingTierUsed` and `FallbackToHighestTier` state which band and which quantity it gives |
| `PriceEngine.Applied` | app/services/price_engine.py:52-57 | the modifiers used, none without codes; `AppliedAreRequested` states what they are |
| `PriceEngine.BandWidth` | app/services/price_engine.py:40 | `range_to - range_from + 1`; `ContainedQuantityQuote` shows it is positive for a band containing the quantity |
| `PriceEngine.DeadlineSum` | app/services/price_engine.py:60 | the sum of the adjustments; `DeadlineIsBasePlusAdjustments` and `NegativeDeadlineKept` state how it enters the deadline |
| `PriceEngine.Names` | app/services/price_engine.py:73 | the names of the modifiers used, in order; `DeadlineIsBasePlusAdjustments` ties them to the found modifiers |
| `PriceEngine.PriceTier` | app/services/price_engine.py:39-74 | the rest of the calculation once the band is fixed: "division by zero" for width 0, then "no material", else the quote; `PriceResolvedTier` is proved against it and `CalculateSucceedsIff` states when it succeeds |
| `PriceEngine.BaseUnitPrice` | app/services/price_engine.py:40-49 | the band price over the band width, times the material multiplier; `NoModifierCodes` states that it is the unit price when no code is given |
| `PriceEngine.ApplyMultipliers` | app/services/price_engine.py:58-59 | a price multiplied by each found modifier's multiplier in turn; `MultiplyModifiers` is proved against it and `ZeroFactorAbsorbs` states that one zero multiplier makes it zero |
| `PriceEngine.UnitPrice` | app/services/price_engine.py:49-59 | the base unit price times the found multipliers; `PriceModifiers` proves that the in-place updates compute it |
| `PriceEngine.ExactTotal` | app/services/price_engine.py:63 | the unit price times the quantity used; `ContainedQuantityQuote` states that the quoted price is its rounding |
| `PriceEngine.QuoteFor` | app/services/price_engine.py:63-74 | the returned record; `ContainedQuantityQuote`, `NoModifierCodes` and `DeadlineIsBasePlusAdjustments` state its price, deadline, quantity and names |
| `PriceEngine.CalculatePrice` | app/services/price_engine.py:6-74 | the step-by-step calculation, with the quantity replaced on fallback, returns exactly `Calculate` |
| `PriceEngine.PriceResolvedTier` | app/services/price_engine.py:39-74 | once the band is fixed, the in-place updates of the unit price, the modifier loop and the deadline sum give exactly `PriceTier` |
| `PriceEngine.PriceModifiers` | app/services/price_engine.py:52-74 | from the material-adjusted unit price, the modifier query, the multiplier loop, the deadline sum and the rounding give exactly the quote of the band for the applied modifiers |
| `PriceEngine.MultiplyModifiers` | app/services/price_engine.py:58-59 | the loop multiplies the unit price by each found modifier's multiplier in turn |
| `PriceEngine.ContainingTierUsed` | app/services/price_engine.py:14-23 | if the bands do not overlap, a band containing the quantity is the one used, at the requested quantity |
| `PriceEngine.FallbackToHighestTier` | app/services/price_engine.py:25-37 | when no band contains the quantity, a band with the largest `range_to` is used, and the quantity becomes that `range_to` |
| `PriceEngine.ContainedQuantityQuote` | app/services/price_engine.py:14-23 | for a quantity inside a band: success, `quantity_used` equals the quantity, the band has a positive width, the price is the rounded exact total of that band, and the deadline is the band's product deadline plus the adjustments |
| `PriceEngine.OutOfRangeQuantityQuote` | app/services/price_engine.py:25-37 | for a quantity outside every band of a product that has bands: never "no price", and a quote is for the largest `range_to` of the bands |
| `PriceEngine.NoPriceRangeFailsFirst` | app/services/price_engine.py:35-48 | a product without ranges fails with "no price", whatever the material: the material is never looked up |
| `PriceEngine.CalculateSucceedsIff` | app/services/price_engine.py:25-48 | success exactly when a band is found, its width is not 0 and the material exists |
| `PriceEngine.AppliedAreRequested` | app/services/price_engine.py:52-57 | the modifiers applied are exactly the table's modifiers whose code was requested; with no codes, none are applied |
| `PriceEngine.SameModifiersSameResult` | app/services/price_engine.py:52-57 | two code lists that find the same modifiers give the same result, so the codes matter only through the modifiers they find |
| `PriceEngine.UnknownCodeIgnored` | app/services/price_engine.py:55-57 | adding a code that no modifier carries changes neither the result nor the error |
| `PriceEngine.RepeatedCodeIgnored` | app/services/price_engine.py:55-57 | requesting a code a second time changes nothing |
| `PriceEngine.NoModifierCodes` | app/services/price_engine.py:52-73 | with no codes: no modifier is used, the deadline is the base deadline, and the unit price is band price over width times the material multiplier |
| `PriceEngine.DeadlineIsBasePlusAdjustments` | app/services/price_engine.py:60-67 | the deadline is the band's product base deadline plus the sum of the found modifiers' adjustments, unclamped, and the names used are those modifiers' names |
| `PriceEngine.ZeroFactorAbsorbs` | app/services/price_engine.py:58-59 | one zero multiplier makes the whole product of multipliers zero |
| `PriceEngine.ZeroMultiplierApplied` | app/services/price_engine.py:58-63 | a found modifier with multiplier 0 is applied, not rejected, and the price is 0.00 |
| `PriceEngine.SingleBandFallback` | app/services/price_engine.py:25-63 | a single band [1, 100] priced 100 and a request above 100: the price is 100 times the multipliers, for quantity 100 |
| `PriceEngine.SingleBandAbove` | app/services/price_engine.py:25-37 | a request above the only band of a product is quoted for that band's `range_to` |
| `PriceEngine.BusinessCardQuote` | app/services/price_engine.py:14-74 | band [100, 500] at 250, multipliers 1.2 and 1.15, one extra day, 250 units: price 215.09, deadline 4 days |
| `PriceEngine.NegativeDeadlineKept` | app/services/price_engine.py:66-67 | a base of 2 days and an adjustment of -5 days give -3 days |
| `Text.Split` | app/bot/handlers/order.py:60 | `split` never returns an empty list, and no field contains the separator |
| `Text.FirstIndex` | app/bot/handlers/order.py:60 | the position found holds the separator and no earlier position does |
| `Text.SplitSingleField` | app/bot/handlers/order.py:77 | a text without the separator splits into itself alone |
| `Text.SplitAppend` | app/bot/middleware/access_control.py:38 | the fields of `a + sep + b` are the fields of `a` followed by the fields of `b` |
| `Text.SplitJoin` | app/services/order_service.py:14 | splitting a join of separator-free fields gives the fields back |
| `Text.JoinSplit` | app/bot/handlers/order.py:60 | joining the fields of a split with the same separator gives the string back, so the split loses nothing |
| `Text.StripLeft` | app/bot/middleware/access_control.py:37 | the result is a suffix, what was dropped is whitespace, and the result does not start with whitespace |
| `Text.StripRight` | app/bot/middleware/access_control.py:37 | the result is a prefix, what was dropped is whitespace, and the result does not end with whitespace |
| `Text.StripTrailingSpace` | app/bot/middleware/access_control.py:37 | whitespace after a string does not change what `strip` leaves of it |
| `Text.StripPadded` | app/bot/middleware/access_control.py:37-39 | whitespace added around a string does not change what `strip` leaves of it |
| `Text.Join` | app/services/order_service.py:14 | `sep.join`; `SplitJoin` and `JoinSplit` state that it and `split` undo each other |
| `Text.IsSpace` | app/bot/middleware/access_control.py:37 | exactly the 29 characters Python's `str.isspace` accepts, so `strip` is modelled in full |
| `Text.Strip` | app/bot/middleware/access_control.py:37 | both ends stripped; `StripLeft`, `StripRight` and `StripPadded` state what it removes and keeps |
| `Text.IsDigits` | app/bot/handlers/calc.py:58 | a non-empty text of ASCII digits; `DecimalDigits` and `RejectedTexts` state which texts pass |
| `Text.DecimalValue` | app/bot/handlers/calc.py:62 | the value `int` reads from digits; `DecimalDigits` and `LeadingZeroIgnored` state that it inverts decimal writing |
| `Text.DecimalDigits` | app/bot/handlers/calc.py:62 | the decimal digits of `n` are all digits, `int` reads them back as `n`, and there is no leading zero |
| `Text.LeadingZeroIgnored` | app/bot/handlers/calc.py:62 | a leading zero does not change the value `int` reads |
| `AccessControl.FieldId` | app/bot/middleware/access_control.py:37-39 | a field grants at most one ID, and that ID is never negative |
| `AccessControl.AllowedIds` | app/bot/middleware/access_control.py:28-43 | every ID the variable grants is non-negative |
| `AccessControl.ParseIds` | app/bot/middleware/access_control.py:36-40 | the set comprehension over the fields; `ParseIdsConcat`, `AppendId`, `ParseJoined` and `SignedFieldSkipped` state what it grants |
| `AccessControl.AllowList.constructor` | app/bot/middleware/access_control.py:11 | the cache starts empty |
| `AccessControl.AllowList.GetAllowedUserIds` | app/bot/middleware/access_control.py:14-47 | a cached set is returned unchanged and the variable is not read again; otherwise the parsed set is returned and becomes the cache |
| `AccessControl.AllowList.IsUserAllowed` | app/bot/middleware/access_control.py:50-66 | the user is allowed exactly when the ID is in the (possibly cached) set; the cache is filled as by `GetAllowedUserIds` |
| `AccessControl.AllowList.ReloadAllowedUserIds` | app/bot/middleware/access_control.py:69-76 | the cache is emptied, so the next lookup parses again |
| `AccessControl.EmptyValueGrantsNobody` | app/bot/middleware/access_control.py:28-32 | an unset or empty variable grants nobody, and the parse alone would give the same |
| `AccessControl.FieldIdPadded` | app/bot/middleware/access_control.py:36-39 | whitespace around an ID does not matter |
| `AccessControl.SignedFieldSkipped` | app/bot/middleware/access_control.py:36-40 | a field starting with a minus sign grants nothing |
| `AccessControl.FieldIdOfDigits` | app/bot/middleware/access_control.py:37-39 | a field holding the decimal digits of `n` grants `n` |
| `AccessControl.ParseIdsConcat` | app/bot/middleware/access_control.py:36-40 | the IDs of `a,b` are the IDs of `a` together with the IDs of `b` |
| `AccessControl.AppendId` | app/bot/middleware/access_control.py:36-40 | appending an ID adds exactly that ID, so a repeated ID is granted once |
| `AccessControl.IdSet` | app/bot/middleware/access_control.py:36-40 | the set of a list holds exactly the list's IDs |
| `AccessControl.ParseJoined` | app/bot/middleware/access_control.py:28-43 | a non-empty list of IDs written as `id,id,...` grants exactly those IDs |
| `CalcHandler.ParseQuantity` | app/bot/handlers/calc.py:58-62 | an accepted quantity is never negative |
| `CalcHandler.QuantityRoundTrip` | app/bot/handlers/calc.py:58-62 | every natural number typed in decimal is accepted as itself |
| `CalcHandler.LeadingZerosAccepted` | app/bot/handlers/calc.py:58-62 | a leading zero changes nothing, and "0" is accepted as quantity 0 |
| `CalcHandler.RejectedTexts` | app/bot/handlers/calc.py:58-60 | the empty text, a leading minus sign, and a leading or trailing space are all rejected |
| `CalcHandler.RemoveFirst` | app/bot/handlers/calc.py:172-173 | `remove` drops exactly one occurrence of the code |
| `CalcHandler.Toggled` | app/bot/handlers/calc.py:172-175 | the selection after one press; `ToggledFlipsOne`, `OthersKeepOrder` and `ToggleTwice` state its effect |
| `CalcHandler.ToggledFlipsOne` | app/bot/handlers/calc.py:172-175 | a press keeps a duplicate-free selection duplicate-free, and flips exactly the pressed code in or out |
| `CalcHandler.OthersKeepOrder` | app/bot/handlers/calc.py:172-175 | the other codes stay selected, in the same relative order |
| `CalcHandler.ToggleTwice` | app/bot/handlers/calc.py:172-175 | pressing an unselected code twice restores the list; pressing a selected one twice moves it to the end |
| `CalcHandler.ToggleAllParity` | app/bot/handlers/calc.py:172-176 | from no selection, any sequence of presses leaves no duplicates, and a code is selected exactly when it was pressed an odd number of times |
| `CalcHandler.CalcSession.constructor` | app/bot/handlers/calc.py:167 | a new conversation has no answers and an empty selection |
| `CalcHandler.CalcSession.StartCalc` | app/bot/handlers/calc.py:24-34 | `/calc` waits for a product and keeps earlier answers |
| `CalcHandler.CalcSession.SelectProduct` | app/bot/handlers/calc.py:38-52 | the product code is stored and the quantity is asked next |
| `CalcHandler.CalcSession.EnterQuantityText` | app/bot/handlers/calc.py:56-80 | a text of digits is stored as its value and the material is asked next; any other text changes nothing |
| `CalcHandler.CalcSession.SelectMaterial` | app/bot/handlers/calc.py:84-101 | the material code is stored, the selection is reset to empty, and the modifiers are asked next |
| `CalcHandler.CalcSession.ModifierCallback` | app/bot/handlers/calc.py:105-184 | a code toggles the selection; "done" passes the stored answers and the unchanged selection to `Calculate`, then clears the conversation on success and keeps it on failure |
| `OrderService.SerializeCodes` | app/services/order_service.py:14 | no codes are stored as "", and a single code as itself |
| `OrderService.CreateOrder` | app/services/order_service.py:14-23 | the record stores the joined codes and every other field exactly as passed |
| `OrderService.StoredCodesRoundTrip` | app/services/order_service.py:14 | a non-empty list of non-empty, comma-free codes is stored as a non-empty string that splits back into the same list |
| `OrderService.StoredCodesAmbiguous` | app/services/order_service.py:14 | a single empty code is stored like no codes, and a code holding a comma reads back as two codes |
| `OrderReport.StoredCodes` | app/bot/handlers/order.py:59-60 | the codes one stored string contributes, none for ""; `StoredOrderCodes` states that they are the codes stored |
| `OrderReport.CodesOf` | app/bot/handlers/order.py:57-60 | the codes collected over the rows; `CodesOfMembers` and `NoModifiersNoCodes` state which |
| `OrderReport.CollectModifierCodes` | app/bot/handlers/order.py:57-60 | the loop collects exactly `CodesOf` the rows |
| `OrderReport.CodesOfMembers` | app/bot/handlers/order.py:57-60 | a code is collected exactly when it is a field of some row's non-empty modifier string |
| `OrderReport.NoModifiersNoCodes` | app/bot/handlers/order.py:57-64 | rows that all have an empty modifier string collect no code |
| `OrderReport.StoredOrderCodes` | app/bot/handlers/order.py:59-60 | an order stored from storable codes contributes exactly those codes |
| `OrderReport.NamesFor` | app/bot/handlers/order.py:65-68 | the map has a name exactly for the requested codes that some modifier carries, and each name is the name of a modifier carrying that code |
| `OrderReport.NameMap` | app/bot/handlers/order.py:63-68 | no lookup without codes, otherwise `NamesFor`; `NamesFor` states its keys and values |
| `OrderReport.DisplayName` | app/bot/handlers/order.py:76 | `dict.get(code, code)`; `DisplayNames` and `CollectedCodeShown` state what is shown |
| `OrderReport.DisplayNames` | app/bot/handlers/order.py:75-77 | one name per code, each the mapped name or else the code itself |
| `OrderReport.CollectedCodeShown` | app/bot/handlers/order.py:63-76 | with unique codes, a collected code is shown as its modifier's name, and a code no modifier carries is shown as it is |
| `OrderReport.RenderStoredCodes` | app/bot/handlers/order.py:74-80 | an order stored from storable codes shows their names in stored order, joined by ", "; an order stored from no codes shows "—" |
| `OrderReport.RenderModifiers` | app/bot/handlers/order.py:74-80 | the modifier text of one line; `RenderStoredCodes` and `UnknownCodesShownRaw` state what it shows |
| `OrderReport.UnknownCodesShownRaw` | app/bot/handlers/order.py:74-80 | with no names known, the stored codes are shown as they are |
| `OrderReport.BuildLines` | app/bot/handlers/order.py:71-91 | one line per row, in row order, each showing its own row |
| `OrderReport.LineFor` | app/bot/handlers/order.py:82-91 | the values one report line shows; `BuildLines` and `ReportLineOfStoredOrder` state which row and which codes it shows |
| `OrderReport.OrderReply` | app/bot/handlers/order.py:51-93 | the reply to a day's rows; `OrderByDate` and `ReportLineOfStoredOrder` state its lines |
| `OrderReport.OrderByDate` | app/bot/handlers/order.py:51-93 | no rows give the "no orders" reply; otherwise the lines come from one name lookup over all collected codes, as `OrderReply` states |
| `OrderReport.ReportLineOfStoredOrder` | app/bot/handlers/order.py:57-91 | each line shows its own order's quantity, price and deadline, every stored code is collected, and the codes are shown in stored order |

## Left out

- Database access: sessions, queries, commits and repositories. The tables are passed in as sequences of rows.
- Among overlapping bands, the band the unordered `.first()` returns is not defined by the code. The model takes the first in table order, and `ContainingTierUsed` shows that the choice does not matter when bands do not overlap. Among bands with equal `range_to`, the fallback also takes the first in table order.
- The order of `modifiers_used` and of the applied multipliers depends on the database's row order. The model uses table order.
- Floating point: `float(...)` and the float `round`. Prices are exact reals, and `Round2` rounds the exact value, ties to even. The float result can differ from it in the last cent.
- Telegram plumbing: message texts, keyboards, message deletion, `/start`, and the bookkeeping of message ids.
- The display-name queries and the summary message after "done" (calc.py 121-131, 157-165).
- The `create_order` call after "done" (calc.py 133-145) is not wired into `ModifierCallback`. `OrderService.CreateOrder` models the record it stores.
- Date parsing with `strptime` and the SQL date filter in `order_by_date`. The rows of the day are a parameter.
- The order id and creation time, which the database assigns. The text layout of a report line is also left out: a `Line` holds the values it shows.
- `os.getenv` and logging. The variable's value is a parameter, and an unset variable is "".
- `CalcHandler.ParseQuantity`: the check `isdigit` and the conversion `int` (calc.py 58-62) are modelled on ASCII digits only. Python accepts other Unicode digits too: for the full-width text "１２" the code stores the quantity 12, and for the superscript "²" `isdigit` holds but `int` raises a `ValueError` the handler does not catch. The model rejects both texts, so `CalcSession.EnterQuantityText` leaves the conversation unchanged for them.
- `AccessControl.FieldId`: `isdigit` and `int` are modelled on ASCII digits only. Python's `isdigit` also accepts other Unicode digits, some of which `int` rejects (such as superscripts). The `except ValueError` branch (access_control.py 44-47) is therefore not modelled.
- Async execution and concurrent conversations: each handler runs as one sequential step on one session object.
- The ORM model files hold only declarations. They appear as the datatypes of `Catalog` and `OrderService.Order`.
- The `/order` prompt (`order_start`) and its conversation state, the keyboards of `keyboards.py`, the entry point `app/main.py` and the filesystem walker `tree.py`.
- The deletion of the intermediate messages after "done" (calc.py 147-155).
