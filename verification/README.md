# License quotation engine, modelled in Dafny

This project models the quotation engine of a single-page license quoter. The
page sells three GitHub products: GitHub Enterprise, GitHub Copilot (with two
plans), and GitHub Advance Security (with Code Security and Secret Security).
The user enables products, picks sub-options and sets quantities. The engine
then computes the subtotal, the 19 % IVA, the grand total and the total
number of licenses.

The React state hooks are replaced by pure functions. Each one takes the
current list of certifications and returns the new list. The `useEffect`
recomputation becomes the pure function `Pricing.Quote`, plus the loop
`Pricing.ComputeTotals` that is proved to agree with it.

Modules, one per concern of `src/App.tsx`:

- `Arith` (arith.dfy): `Math.max` and `Math.min`.
- `Optional` (optional.dfy): `Option` for the record fields declared with `?` and for `parseInt` results, where `None` stands for NaN. Also JavaScript's `x || d` on such numbers, as `OrElse`.
- `Sums` (sums.dfy): the `reduce` sums. Lemmas for concatenation, singleton, append and permutation.
- `Catalog` (catalog.dfy): the `Certification` and `SubOption` records, the shipped catalog, the hard-wired ids and constants (`cert3`, `code-security`, `secret-security`, 49, 30, 50, 20, 130, 19), the per-id sub-option minimum, and `find`.
- `Pricing` (pricing.dfy): the three pricing paths (hard-wired combination, per-sub-option sum, plain fallback) for the subtotal, the license count and `getCurrentPrice`. Also the totals over the enabled certifications.
- `Selection` (selection.dfy): the selected-ids array. Covers `filter`, the sub-option toggle and the three controls of the combined security card.
- `Updates` (updates.dfy): `updateCertification`, `updateSubOptionLicenses`, the number-input clamp, and every handler that changes state.
- `Email` (email.dfy): `validateEmail`, `handleEmailChange` and the gating of the submit buttons.
- `Scenarios` (scenarios.dfy): worked quotes on the shipped catalog, driven through the handlers.

Behaviours of the code that the model keeps, some of them surprising:

- The selection is an array, not a set. It can hold duplicates, and a toggle removes every occurrence. The order never matters for the price (`Pricing.SelectionOrderIrrelevant`).
- The quantity inputs replace 0 with the minimum as well as NaN, because of `parseInt(...) || min`. Out-of-range values are clamped.
- The combination's quantity falls back to 30 and 50 when an option is missing or has no quantity. The combined control's own bounds are 20..130 for both options. So it can give Secret Security fewer licenses than that option's own minimum of 50 (`Scenarios.CombinedInputUndercutsSecretMinimum`).
- The tax is not rounded. It is kept exact, as a real number.
- An empty `subOptions` array still counts as "has sub-options", because an empty array is truthy.
- The sub-option card declares `onClick` twice (lines 463 and 471). Only the second one takes effect. Both compute the same new selection, so the model has one handler.

## Model

| member | source | states |
|---|---|---|
| Catalog.SubOptionMinLicenses | src/App.tsx:547 | The lower bound of a sub-option's quantity controls: 30 for Code Security, 50 for Secret Security, 20 for every other id, both Copilot plans included. |
| Catalog.FindIndex | src/App.tsx:118 | The position `find` stops at: the first option with the id, or the end of the list when none matches. |
| Catalog.FindSubOption | src/App.tsx:118 | `find` returns nothing exactly when no option has the id. Otherwise it returns the first option with that id. |
| Pricing.LineTotal | src/App.tsx:104-125 | The reduce callback for the subtotal. Its contract is carried by Pricing.ComboPricing, Pricing.PlainPricing, Pricing.SingleSelection, Pricing.SelectOneMore, Pricing.UnknownIdCounts20 and Pricing.SelectionOrderIrrelevant. |
| Pricing.LineLicenses | src/App.tsx:128-146 | The reduce callback for the license count. Its contract is carried by the same lemmas as Pricing.LineTotal. |
| Pricing.CurrentPrice | src/App.tsx:181-196 | `getCurrentPrice`. Its contract is carried by Pricing.ComboPricing (49 under the combination), Pricing.PlainPricing (`pricePerLicense`), Pricing.SingleSelection and Pricing.SelectOneMore (the sum of the selected prices, 0 for an unknown id) and Pricing.SingleSelectionConsistent. |
| Pricing.EnabledCerts | src/App.tsx:103 | The filtered list holds exactly the enabled certifications, and never more than the input. |
| Pricing.Quote | src/App.tsx:126-127 | `100 * tax == 19 * subtotal`, `total == subtotal + tax`, and the quote is all zeros when no certification is enabled. |
| Pricing.ComboActiveExactly | src/App.tsx:107-109 | The combination is on exactly when the id is `cert3`, sub-options exist, and both security ids are selected. One of the two alone never turns it on. |
| Pricing.ComboPricing | src/App.tsx:107-114 | For any selection containing both security ids, in any order and with any extra ids: the subtotal contribution is `max(code or 30, secret or 50) * 49`, the license contribution is that max, and the displayed price (line 187) is 49. |
| Pricing.PlainPricing | src/App.tsx:122-124 | With no sub-options, or a missing or empty selection: the contribution is `licenses * pricePerLicense`, the license count is `licenses` (line 144), and the displayed price is `pricePerLicense` (line 195). |
| Pricing.SingleSelection | src/App.tsx:117-120 | Outside the combination, a selection of one id is charged `price * (licenses or 20)`, counts `licenses or 20` (line 141) and shows that option's price (line 192); this is the base case of the per-option sums. |
| Pricing.SelectOneMore | src/App.tsx:117-120 | Outside the combination, one more selected id adds `price * (licenses or 20)` to the subtotal, `licenses or 20` to the count (line 141), and its price to the displayed unit price (line 192). |
| Pricing.UnknownIdCounts20 | src/App.tsx:139-142 | A selected id that names no sub-option adds 0 to the subtotal and to the unit price, but 20 to the license count. |
| Pricing.SelectionOrderIrrelevant | src/App.tsx:117-120 | Two selections with the same ids, each the same number of times, give the same line total, license count and unit price. |
| Pricing.SingleSelectionConsistent | src/App.tsx:181-196 | With a single known option selected, the line total equals the displayed unit price times the license count. |
| Pricing.StackedPriceDiverges | src/App.tsx:189-193 | With both Copilot plans selected, the displayed price is 39 + 19 = 58 and the count is 40, but the money total is 1160, not 58 * 40. |
| Pricing.QuoteConcat | src/App.tsx:104-125 | Subtotal and license count of a concatenated list are the sums of the parts. |
| Pricing.QuoteSplit | src/App.tsx:103-146 | Each certification adds its line total and license count when enabled, and nothing when disabled. |
| Pricing.DisableRemovesContribution | src/App.tsx:103 | Disabling an enabled certification lowers the subtotal by exactly its line total and the count by exactly its licenses, whatever state it still holds. |
| Pricing.DisabledStateIrrelevant | src/App.tsx:103 | Replacing a disabled certification with any other disabled one leaves the quote unchanged. |
| Pricing.ComputeTotals | src/App.tsx:102-149 | The single accumulating pass over the certifications yields exactly the quote. |
| Selection.Remove | src/App.tsx:467 | `filter(id => id !== x)` removes every occurrence of x. It keeps every other id, never grows the list, leaves an x-free list unchanged, and keeps a duplicate-free list duplicate-free. |
| Selection.Toggle | src/App.tsx:464-468 | The toggled id's membership flips and every other id's membership is kept. An absent id is appended at the end. Duplicate-freedom is preserved. |
| Selection.ToggleKeepsOthersInOrder | src/App.tsx:466-468 | Ignoring the toggled id, the selection after a toggle is identical to the one before: same ids, same order. |
| Selection.ToggleTwiceRestores | src/App.tsx:464-468 | Toggling an unselected id on and then off restores the original selection. |
| Selection.Deselect | src/App.tsx:315-358 | After any of the three combined-card controls, the selection never holds both security ids. The header keeps everything except Secret Security. The two labels leave exactly the other option. |
| Selection.CollapseLeavesCode | src/App.tsx:317 | On a selection of exactly the two security ids, the header control leaves exactly Code Security. |
| Updates.UpdateCertification | src/App.tsx:151-157 | Preserves length. Certifications with another id are unchanged, and those with the id get exactly the patch. |
| Updates.UpdateOptions | src/App.tsx:163-165 | Preserves length and ids. Options with another id are unchanged, and those with the id differ only in `licenses`. |
| Updates.UpdateSubOptionLicenses | src/App.tsx:159-171 | Preserves length. Only certifications with the id that have sub-options change, and in them only the option list, updated as above. |
| Updates.FindAfterUpdate | src/App.tsx:159-171 | After a sub-option update, `find` locates the same option as before, carrying the new licenses when its id was the updated one. |
| Updates.ClampInput | src/App.tsx:616 | When min <= max the result lies in [min, max]. NaN or 0 gives min, and a non-zero input below min gives min. A non-zero in-range input is returned unchanged, and an input above max gives max. |
| Updates.OnToggleEnabled | src/App.tsx:249 | Each certification with the clicked id becomes itself with only `enabled` set to the negation of the rendered value. Every other certification is unchanged. |
| Updates.ToggleEnabledMovesLine | src/App.tsx:260-263 | With unique ids, toggling a certification adds its whole line total and license count to the quote, or removes them. |
| Updates.OnToggleSubOption | src/App.tsx:471-478 | Only the clicked certification changes, and only in its selection. The selection becomes exactly `toggle` of the rendered one: the id is removed everywhere when present, otherwise appended once at the end. |
| Updates.OnComboDeselect | src/App.tsx:315-358 | Each certification with the id changes only in its selection, which becomes the one the control writes (`Selection.Deselect`). Afterwards it is not priced as the combination. The others are unchanged. |
| Updates.OnLicensesInput | src/App.tsx:615-618 | Each certification with the id changes only in `licenses`, which becomes the clamp of the typed value to the rendered bounds. It lands in [minLicenses, maxLicenses], and is minLicenses for NaN. The others are unchanged. |
| Updates.OnSubOptionInput | src/App.tsx:545-550 | In each certification with the id that has sub-options, only the option list changes: the options with the edited id get the typed value clamped to their own minimum (20, 30 or 50 by id) and 130. Everything else is unchanged. |
| Updates.OnCombinedInput | src/App.tsx:429-434 | Only certifications with the id that have sub-options change: both security options receive the clamped value in [20, 130]. |
| Updates.SetBothSecurityComboLicenses | src/App.tsx:431-433 | Writing one non-zero value to both security options makes the combined quantity exactly that value. |
| Updates.CombinedInputSetsComboLicenses | src/App.tsx:429-434 | After the combined input, the certification's combined quantity, as displayed and charged, is the clamped value, within [20, 130]. |
| Updates.OnLicensesSlider | src/App.tsx:595 | For any non-zero value within the browser's bounds, the slider gives the same state as the number input. |
| Updates.OnSubOptionSlider | src/App.tsx:522-525 | For any value within the option's bounds, the slider gives the same state as the number input. |
| Updates.OnCombinedSlider | src/App.tsx:401-406 | For any value in [20, 130], the combined slider gives the same state as the combined number input. |
| Email.ValidateEmailIsPattern | src/App.tsx:198-201 | The validator accepts a string exactly when `^[^\s@]+@[^\s@]+\.[^\s@]+$` matches it. That means a non-empty local part and a domain, with no `@` or white space in either, and a dot in the domain that is neither its first nor its last character. |
| Email.ValidateEmail | src/App.tsx:198-201 | `validateEmail`. Its contract is carried by Email.ValidateEmailIsPattern. |
| Email.HandleEmailChange | src/App.tsx:203-214 | The value is stored. The error is empty for an empty value. Otherwise it is empty exactly when the value is valid, and is the fixed message when it is not. |
| Email.SubmitGate | src/App.tsx:796 | After any edit, the submit buttons are enabled exactly when the value is non-empty and matches the pattern. |
| Email.SubmitEnabled | src/App.tsx:796 | The buttons' enabled state. Its contract is carried by Email.SubmitGate. |
| Scenarios.InitialQuoteIsZero | src/App.tsx:24-88 | The shipped catalog starts with every certification disabled, so the quote is zero. |
| Scenarios.ClicksReachCombo | src/App.tsx:463-469 | Enabling Enterprise and Advance Security, then selecting Secret Security, yields the two-option security selection. |
| Scenarios.SecurityComboLine | src/App.tsx:107-114 | The shipped security combination costs max(30, 50) * 49 = 2450 for 50 licenses. |
| Scenarios.EnterprisePlusSecurityCombo | src/App.tsx:102-149 | Enterprise at 50 licenses plus the security combination: subtotal 3500, IVA 665, total 4165, 100 licenses. |
| Scenarios.EnterpriseAndComboQuote | src/App.tsx:102-149 | The quote of the state those three clicks reach is 3500, 665, 4165 and 100. |
| Scenarios.CopilotEnterpriseAlone | src/App.tsx:102-149 | Enabling Copilot with its default Copilot Enterprise selection quotes 20 × 39 = 780, IVA 148.2, total 928.2, 20 licenses. |
| Scenarios.CodeSecurityClamp | src/App.tsx:547-548 | Code Security inputs of 200, -5 and NaN become 130, 30 and 30. |
| Scenarios.CombinedInputUndercutsSecretMinimum | src/App.tsx:431 | The combined control can give Secret Security 20 licenses, below its own minimum of 50. |

## Left out

- JSX rendering, CSS and the `<style jsx>` block: presentational only. This includes the summary list (lines 663-729), which shows the same formulas the engine computes.
- React's `useState` and `useEffect`: replaced by state-in/state-out functions. The two successive functional updates of the combined controls are composed in order, as React applies them.
- `formatPrice`: it depends on `Intl.NumberFormat` and locale currency formatting.
- The floating-point value of `subtotal * 0.19`: the tax is an exact real instead.
- The parsing done by `parseInt`: its result is an input of type `Option<int>`, with NaN as `None`. JavaScript's 2^53 precision limit on numbers is not modelled; integers are unbounded.
- Updates.OnLicensesSlider, Updates.OnSubOptionSlider, Updates.OnCombinedSlider: the range sliders have no clamp and rely on the browser's bounds. The model states those bounds as preconditions and does not model an out-of-range or NaN value from a slider.
- `updateCertification` with a partial record holding several fields: the handlers only ever pass one field, so a patch sets exactly one field.
- The `description` and `image` fields are carried in the records but never read by the engine.
- Updates.ToggleEnabledMovesLine: it assumes unique certification ids, as in the shipped catalog. With repeated ids, every certification with that id would be toggled.
